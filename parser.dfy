/** The osu! beatmap reader (`try_parse`). It walks the text line by line:
    a line starting with `[` names the current section; `[TimingPoints]` rows
    become tempo or velocity points, `[HitObjects]` rows become taiko circles
    when the map's mode is taiko (`Mode: 1`), and the lines of every other
    section fill a section -> key -> value table. Whether the result is a
    beatmap is decided by `[General].Mode` at the end. */
module Parser {
  import opened Wrappers
  import opened Text
  import opened Times
  import opened TaikoCircle
  import Float

  /** An uninherited timing point: a tempo change. */
  datatype TimingPoint = TimingPoint(time: Time, bpm: real)

  /** An inherited timing point: a scroll-velocity change. */
  datatype VelocityPoint = VelocityPoint(time: Time, velocity: real)

  datatype Beatmap = Beatmap(
    objects: seq<Circle>,
    timing: seq<TimingPoint>,
    velocity: seq<VelocityPoint>,
    velocityMultiplier: real,
    audio: string)

  /** Why `try_parse` yields no beatmap. `Unsupported` is the function's own
      error (`Err(())`, any mode other than taiko); `MissingEntry` is the
      panic of `table[section][key]` when the section or the key is absent. */
  datatype Failure = Unsupported | MissingEntry(section: string, key: string)

  /** Section header -> key -> value, for every key/value section. */
  type Table = map<string, map<string, string>>

  /** The loop's variables: the current section, the table and the three
      lists being filled. */
  datatype ParseState = ParseState(
    category: Option<string>,
    table: Table,
    objects: seq<Circle>,
    timing: seq<TimingPoint>,
    velocity: seq<VelocityPoint>)

  const Initial: ParseState := ParseState(None, map[], [], [], [])

  const GENERAL: string := "[General]"
  const DIFFICULTY: string := "[Difficulty]"
  const TIMING_POINTS: string := "[TimingPoints]"
  const HIT_OBJECTS: string := "[HitObjects]"

  /** `table[section][key]`, or `None` where the indexing would panic. */
  function Lookup(table: Table, section: string, key: string): (v: Option<string>)
    ensures v.Some? <==> section in table && key in table[section]
  {
    if section in table && key in table[section] then Some(table[section][key]) else None
  }

  /** `table.entry(section).or_default().insert(key, value)`. */
  function Insert(table: Table, section: string, key: string, value: string): (t: Table)
    ensures Lookup(t, section, key) == Some(value)
    ensures forall s, k :: (s != section || k != key) ==> Lookup(t, s, k) == Lookup(table, s, k)
  {
    table[section := (if section in table then table[section] else map[])[key := value]]
  }

  predicate IsHeader(line: string) {
    line != [] && line[0] == '['
  }

  // ---------------------------------------------------------------------
  // Rows

  /** What a kept `[TimingPoints]` row becomes. */
  datatype TimingRow = Uninherited(point: TimingPoint) | Inherited(vpoint: VelocityPoint)

  /** Beats per minute of a beat lasting `beatLength` ms. */
  function BpmOf(beatLength: real): (bpm: real)
    ensures beatLength != 0.0 ==> bpm * beatLength == 60000.0
  {
    var perMs := Float.Div(beatLength, 1000.0);
    var bpm := Float.Div(60.0, perMs);
    assert beatLength != 0.0 ==> bpm * beatLength == 60000.0 by {
      if beatLength != 0.0 {
        calc {
          bpm * beatLength;
          bpm * (perMs * 1000.0);
          (bpm * perMs) * 1000.0;
          60000.0;
        }
      }
    }
    bpm
  }

  /** Scroll velocity of an inherited point: a beat length of -100 is the
      base speed, -50 twice it. */
  function VelocityOf(beatLength: real): (v: real)
    ensures beatLength != 0.0 ==> v * beatLength == -100.0
  {
    Float.Div(-100.0, beatLength)
  }

  /** A `[TimingPoints]` row `time,beatLength,_,_,_,_,uninherited,...`:
      kept when field 0 is an `i32`, field 1 an `f64` and field 6 exists. */
  function ParseTimingRow(line: string): (r: Option<TimingRow>)
    ensures r.Some? ==> |Split(line, ',')| > 6
    ensures r.Some? ==> (r.value.Uninherited? <==> Split(line, ',')[6] == "1")
  {
    var parts := Split(line, ',');
    var time := ParseI32(parts[0]);
    var beatLength := if |parts| > 1 then ParseF64(parts[1]) else None;
    var uninherited := Field(parts, 6);
    if time.None? || beatLength.None? || uninherited.None? then None
    else if uninherited.value == "1" then
      Some(Uninherited(TimingPoint(FromMs(time.value as real), BpmOf(beatLength.value))))
    else
      Some(Inherited(VelocityPoint(FromMs(time.value as real), VelocityOf(beatLength.value))))
  }

  /** A taiko `[HitObjects]` row `x,y,time,type,hitSound,...`: the time is
      field 2 and the object type is read from field 4 (`nth(2)` then
      `nth(1)`); 4 and 6 are big, 0 and 4 are DON, all else KAT. */
  function ParseHitObject(line: string): (r: Option<Circle>)
    ensures r.Some? ==> |Split(line, ',')| > 4
  {
    var parts := Split(line, ',');
    var time := if |parts| > 2 then ParseF64(parts[2]) else None;
    var objectType := if |parts| > 4 then ParseU8(parts[4]) else None;
    if time.None? || objectType.None? then None
    else
      var t := objectType.value;
      Some(Circle(FromMs(time.value), t == 4 || t == 6, if t == 0 || t == 4 then DON else KAT))
  }

  // ---------------------------------------------------------------------
  // One line, then all lines

  /** A `[TimingPoints]` line adds at most one point, to one of the two
      lists, and touches nothing else. */
  function FeedTiming(st: ParseState, line: string): (r: ParseState)
    ensures r.category == st.category && r.table == st.table && r.objects == st.objects
    ensures st.timing <= r.timing && st.velocity <= r.velocity
    ensures |r.timing| + |r.velocity| <= |st.timing| + |st.velocity| + 1
  {
    if IsBlank(line) then st
    else match ParseTimingRow(line)
      case None => st
      case Some(Uninherited(p)) => st.(timing := st.timing + [p])
      case Some(Inherited(p)) => st.(velocity := st.velocity + [p])
  }

  /** A `[HitObjects]` line adds at most one circle, and only under mode
      "1"; it fails only where `table[..][..]` would panic. */
  function FeedHitObject(st: ParseState, line: string): (r: Result<ParseState, Failure>)
    ensures r.Failure? ==> r.error.MissingEntry?
    ensures Lookup(st.table, GENERAL, "Mode").None? ==> r == Failure(MissingEntry(GENERAL, "Mode"))
    ensures r.Success? ==>
      r.value.category == st.category && r.value.table == st.table
      && r.value.timing == st.timing && r.value.velocity == st.velocity
    ensures r.Success? ==> st.objects <= r.value.objects && |r.value.objects| <= |st.objects| + 1
    ensures r.Success? && Lookup(st.table, GENERAL, "Mode") != Some("1") ==> r.value.objects == st.objects
  {
    match Lookup(st.table, GENERAL, "Mode")
    case None => Failure(MissingEntry(GENERAL, "Mode"))
    case Some(mode) =>
      if mode == "1" then
        match ParseHitObject(line)
        case None => Success(st)
        case Some(c) => Success(st.(objects := st.objects + [c]))
      else if mode == "3" then
        if Lookup(st.table, DIFFICULTY, "CircleSize").None? then Failure(MissingEntry(DIFFICULTY, "CircleSize"))
        else Success(st)
      else Success(st)
  }

  /** A line of any other section writes at most the current section's
      table. */
  function FeedKeyValue(st: ParseState, section: string, line: string): (r: ParseState)
    ensures r.category == st.category && r.objects == st.objects
    ensures r.timing == st.timing && r.velocity == st.velocity
    ensures forall s, k :: s != section ==> Lookup(r.table, s, k) == Lookup(st.table, s, k)
  {
    if IsBlank(line) then st
    else
      var parts := Split(line, ':');
      if |parts| < 2 then st
      else st.(table := Insert(st.table, section, Trim(parts[0]), Trim(parts[1])))
  }

  /** The body of the loop over lines. */
  function Feed(st: ParseState, line: string): (r: Result<ParseState, Failure>)
    ensures r.Failure? ==> r.error.MissingEntry?
    ensures r.Success? ==> r.value.category == if IsHeader(line) then Some(line) else st.category
  {
    if IsHeader(line) then Success(st.(category := Some(line)))
    else match st.category
      case None => Success(st)
      case Some(c) =>
        if c == TIMING_POINTS then Success(FeedTiming(st, line))
        else if c == HIT_OBJECTS then FeedHitObject(st, line)
        else Success(FeedKeyValue(st, c, line))
  }

  /** The loop over lines: it stops only at a panic of the table lookup. */
  function FeedAll(st: ParseState, lines: seq<string>): (r: Result<ParseState, Failure>)
    ensures r.Failure? ==> r.error.MissingEntry?
    decreases |lines|
  {
    if lines == [] then Success(st)
    else match Feed(st, lines[0])
      case Failure(e) => Failure(e)
      case Success(next) => FeedAll(next, lines[1..])
  }

  /** The `match` after the loop. */
  function Finish(st: ParseState): (r: Result<Beatmap, Failure>)
    ensures r.Success? <==> Lookup(st.table, GENERAL, "Mode") == Some("1") && Lookup(st.table, GENERAL, "AudioFilename").Some?
    ensures r.Success? ==> r.value == Beatmap(st.objects, st.timing, st.velocity, 1.0, Lookup(st.table, GENERAL, "AudioFilename").value)
    ensures Lookup(st.table, GENERAL, "Mode").Some? && Lookup(st.table, GENERAL, "Mode") != Some("1") ==> r == Failure(Unsupported)
  {
    match Lookup(st.table, GENERAL, "Mode")
    case None => Failure(MissingEntry(GENERAL, "Mode"))
    case Some(mode) =>
      if mode != "1" then Failure(Unsupported)
      else match Lookup(st.table, GENERAL, "AudioFilename")
        case None => Failure(MissingEntry(GENERAL, "AudioFilename"))
        case Some(audio) => Success(Beatmap(st.objects, st.timing, st.velocity, 1.0, audio))
  }

  function ParseLines(lines: seq<string>): (r: Result<Beatmap, Failure>)
    ensures r.Success? ==> r.value.velocityMultiplier == 1.0
  {
    match FeedAll(Initial, lines)
    case Failure(e) => Failure(e)
    case Success(st) => Finish(st)
  }

  /** What `try_parse(data)` returns. */
  function Parse(data: string): (r: Result<Beatmap, Failure>)
    ensures r.Success? ==> r.value.velocityMultiplier == 1.0
  {
    ParseLines(Lines(data))
  }

  // ---------------------------------------------------------------------
  // try_parse

  /** One turn of the loop: `FeedAll` over `lines[i..]` feeds `lines[i]` first. */
  lemma FeedAllStep(st: ParseState, lines: seq<string>, i: nat)
    requires i < |lines|
    ensures Feed(st, lines[i]).Failure? ==> FeedAll(st, lines[i..]) == Failure(Feed(st, lines[i]).error)
    ensures Feed(st, lines[i]).Success? ==> FeedAll(st, lines[i..]) == FeedAll(Feed(st, lines[i]).value, lines[i + 1..])
  {
    assert lines[i..][0] == lines[i] && lines[i..][1..] == lines[i + 1..];
  }

  method TryParse(data: string) returns (r: Result<Beatmap, Failure>)
    ensures r == Parse(data)
  {
    var lines := Lines(data);
    var category: Option<string> := None;
    var table: Table := map[];
    var objects: seq<Circle> := [];
    var timing: seq<TimingPoint> := [];
    var velocity: seq<VelocityPoint> := [];

    for i := 0 to |lines|
      invariant FeedAll(Initial, lines) == FeedAll(ParseState(category, table, objects, timing, velocity), lines[i..])
    {
      var line := lines[i];
      ghost var st := ParseState(category, table, objects, timing, velocity);
      FeedAllStep(st, lines, i);
      if line != [] && line[0] == '[' {
        category := Some(line);
      } else if category.Some? && category.value == TIMING_POINTS {
        assert Feed(st, line) == Success(FeedTiming(st, line));
        if !IsBlank(line) {
          var row := ParseTimingRow(line);
          match row {
            case None =>
            case Some(Uninherited(point)) => timing := timing + [point];
            case Some(Inherited(point)) => velocity := velocity + [point];
          }
        }
        assert FeedTiming(st, line) == ParseState(category, table, objects, timing, velocity);
      } else if category.Some? && category.value == HIT_OBJECTS {
        assert Feed(st, line) == FeedHitObject(st, line);
        var mode := Lookup(table, GENERAL, "Mode");
        if mode.None? {
          return Failure(MissingEntry(GENERAL, "Mode"));
        }
        if mode.value == "1" {
          var circle := ParseHitObject(line);
          if circle.Some? {
            objects := objects + [circle.value];
          }
        } else if mode.value == "3" {
          if Lookup(table, DIFFICULTY, "CircleSize").None? {
            return Failure(MissingEntry(DIFFICULTY, "CircleSize"));
          }
        }
        assert FeedHitObject(st, line) == Success(ParseState(category, table, objects, timing, velocity));
      } else if category.Some? {
        assert Feed(st, line) == Success(FeedKeyValue(st, category.value, line));
        if !IsBlank(line) {
          var parts := Split(line, ':');
          if |parts| >= 2 {
            table := Insert(table, category.value, Trim(parts[0]), Trim(parts[1]));
          }
        }
        assert FeedKeyValue(st, category.value, line) == ParseState(category, table, objects, timing, velocity);
      }
    }

    assert lines[|lines|..] == [];
    var mode := Lookup(table, GENERAL, "Mode");
    if mode.None? {
      return Failure(MissingEntry(GENERAL, "Mode"));
    }
    if mode.value != "1" {
      return Failure(Unsupported);
    }
    var audio := Lookup(table, GENERAL, "AudioFilename");
    if audio.None? {
      return Failure(MissingEntry(GENERAL, "AudioFilename"));
    }
    return Success(Beatmap(objects, timing, velocity, 1.0, audio.value));
  }

  // ---------------------------------------------------------------------
  // Properties of one line

  /** A line starting with `[` names the new section, verbatim, and changes
      nothing else. */
  lemma HeaderOnlyNamesSection(st: ParseState, line: string, rest: seq<string>)
    requires IsHeader(line)
    ensures FeedAll(st, [line] + rest) == FeedAll(st.(category := Some(line)), rest)
  {
    assert ([line] + rest)[1..] == rest;
  }

  /** `Join(fields, sep)` starts with `fields[0]` followed by the separator. */
  lemma JoinHead(fields: seq<string>, sep: char)
    requires |fields| >= 2
    ensures |fields[0]| < |Join(fields, sep)|
    ensures Join(fields, sep)[|fields[0]|] == sep
    ensures Join(fields, sep)[..|fields[0]|] == fields[0]
  {
  }

  /** A key/value line `key:value[:more...]` stores the trimmed key and the
      trimmed value; whatever follows a second `:` is dropped. */
  lemma {:induction false} KeyValueLine(st: ParseState, section: string, fields: seq<string>)
    requires |fields| >= 2 && forall k :: 0 <= k < |fields| ==> ':' !in fields[k]
    ensures FeedKeyValue(st, section, Join(fields, ':')) == st.(table := Insert(st.table, section, Trim(fields[0]), Trim(fields[1])))
  {
    var line := Join(fields, ':');
    SplitJoin(fields, ':');
    JoinHead(fields, ':');
    BlankIffAllWhitespace(line);
    assert !IsWhitespace(line[|fields[0]|]);
  }

  /** In a key/value section, such a line is stored under that section. */
  lemma KeyValueStored(st: ParseState, section: string, fields: seq<string>)
    requires st.category == Some(section) && section != TIMING_POINTS && section != HIT_OBJECTS
    requires |fields| >= 2 && forall k :: 0 <= k < |fields| ==> ':' !in fields[k]
    requires fields[0] == [] || fields[0][0] != '['
    ensures Feed(st, Join(fields, ':')) == Success(st.(table := Insert(st.table, section, Trim(fields[0]), Trim(fields[1]))))
  {
    var line := Join(fields, ':');
    JoinHead(fields, ':');
    assert !IsHeader(line) by {
      if fields[0] != [] {
        assert line[0] == fields[0][0];
      }
    }
    KeyValueLine(st, section, fields);
  }

  /** In a key/value section a line without `:` is ignored. */
  lemma LineWithoutColonIgnored(st: ParseState, section: string, line: string)
    requires st.category == Some(section) && section != TIMING_POINTS && section != HIT_OBJECTS
    requires !IsHeader(line) && ':' !in line
    ensures Feed(st, line) == Success(st)
  {
    SplitWithoutSeparator(line, ':');
  }

  /** Of two lines with the same key, the later value is the one kept. */
  lemma {:induction false} LaterDuplicateKeyWins(st: ParseState, section: string, key: string, first: string, second: string)
    requires ':' !in key && ':' !in first && ':' !in second
    ensures var st1 := FeedKeyValue(st, section, key + ":" + first);
      Lookup(FeedKeyValue(st1, section, key + ":" + second).table, section, Trim(key)) == Some(Trim(second))
  {
    assert Join([key, first], ':') == key + ":" + first by {
      assert [key, first][1..] == [first];
    }
    assert Join([key, second], ':') == key + ":" + second by {
      assert [key, second][1..] == [second];
    }
    KeyValueLine(st, section, [key, first]);
    KeyValueLine(FeedKeyValue(st, section, key + ":" + first), section, [key, second]);
  }

  /** `ParseI32` accepts only text that ends in a digit. */
  lemma ParsedI32EndsInDigit(s: string)
    requires ParseI32(s).Some?
    ensures s != [] && IsDigit(s[|s| - 1])
  {
    var digits := if s != [] && (s[0] == '+' || s[0] == '-') then s[1..] else s;
    assert digits[|digits| - 1] == s[|s| - 1];
  }

  /** A `[TimingPoints]` row, given by its comma-separated fields, is kept
      exactly when field 0 is an `i32`, field 1 an `f64` and field 6 exists.
      Field 6 equal to `1` makes a tempo point, anything else a velocity
      point, both at field 0 ms. */
  lemma {:induction false} TimingRowFields(fields: seq<string>)
    requires |fields| >= 1 && forall k :: 0 <= k < |fields| ==> ',' !in fields[k]
    ensures var row := ParseTimingRow(Join(fields, ','));
      (row.Some? <==> ParseI32(fields[0]).Some? && |fields| >= 7 && ParseF64(fields[1]).Some?)
      && (row.Some? ==>
            var time := FromMs(ParseI32(fields[0]).value as real);
            var beatLength := ParseF64(fields[1]).value;
            row.value == if fields[6] == "1" then Uninherited(TimingPoint(time, BpmOf(beatLength)))
                         else Inherited(VelocityPoint(time, VelocityOf(beatLength))))
  {
    SplitJoin(fields, ',');
  }

  /** In `[TimingPoints]`, a row that is kept is appended to the tempo or
      the velocity list; any other line, blank ones included, changes
      nothing. */
  lemma {:induction false} TimingLine(st: ParseState, fields: seq<string>)
    requires st.category == Some(TIMING_POINTS)
    requires |fields| >= 1 && forall k :: 0 <= k < |fields| ==> ',' !in fields[k]
    requires !IsHeader(Join(fields, ','))
    ensures var row := ParseTimingRow(Join(fields, ','));
      Feed(st, Join(fields, ',')) == Success(
        match row
        case None => st
        case Some(Uninherited(p)) => st.(timing := st.timing + [p])
        case Some(Inherited(p)) => st.(velocity := st.velocity + [p]))
  {
    var line := Join(fields, ',');
    TimingRowFields(fields);
    if ParseTimingRow(line).Some? {
      KeptRowNotBlank(fields);
    }
    assert Feed(st, line) == Success(FeedTiming(st, line));
  }

  /** A row whose first field is an `i32` and which has a second field is
      not blank: the integer ends in a digit. */
  lemma KeptRowNotBlank(fields: seq<string>)
    requires |fields| >= 2 && ParseI32(fields[0]).Some?
    ensures !IsBlank(Join(fields, ','))
  {
    var line := Join(fields, ',');
    ParsedI32EndsInDigit(fields[0]);
    JoinHead(fields, ',');
    assert line[|fields[0]| - 1] == fields[0][|fields[0]| - 1];
    BlankIffAllWhitespace(line);
    assert !IsWhitespace(line[|fields[0]| - 1]);
  }

  /** A taiko `[HitObjects]` row, given by its fields, yields a circle exactly
      when field 2 is an `f64` and field 4 a `u8`; the circle is at field 2
      ms, is big iff field 4 is 4 or 6 and is DON iff field 4 is 0 or 4. */
  lemma {:induction false} HitObjectFields(fields: seq<string>)
    requires |fields| >= 1 && forall k :: 0 <= k < |fields| ==> ',' !in fields[k]
    ensures var c := ParseHitObject(Join(fields, ','));
      (c.Some? <==> |fields| >= 5 && ParseF64(fields[2]).Some? && ParseU8(fields[4]).Some?)
      && (c.Some? ==>
            var kind := ParseU8(fields[4]).value;
            c.value.time == FromMs(ParseF64(fields[2]).value)
            && (c.value.big <==> kind == 4 || kind == 6)
            && (c.value.color == DON <==> kind == 0 || kind == 4))
  {
    SplitJoin(fields, ',');
  }

  /** One line only ever appends to the three lists; only a taiko
      `[HitObjects]` row adds a hit object. */
  lemma FeedAppends(st: ParseState, line: string)
    requires Feed(st, line).Success?
    ensures var next := Feed(st, line).value;
      st.objects <= next.objects && st.timing <= next.timing && st.velocity <= next.velocity
    ensures Lookup(st.table, GENERAL, "Mode") != Some("1") ==> Feed(st, line).value.objects == st.objects
  {
    if IsHeader(line) || st.category.None? {
    } else if st.category.value == TIMING_POINTS {
      assert Feed(st, line) == Success(FeedTiming(st, line));
      match ParseTimingRow(line)
      case None =>
      case Some(Uninherited(p)) =>
      case Some(Inherited(p)) =>
    } else if st.category.value == HIT_OBJECTS {
      assert Feed(st, line) == FeedHitObject(st, line);
    } else {
      assert Feed(st, line) == Success(FeedKeyValue(st, st.category.value, line));
    }
  }

  // ---------------------------------------------------------------------
  // Properties of the whole text

  /** Rows are only ever appended: feeding more lines keeps what was read
      so far as a prefix of each list, in file order. */
  lemma {:induction false} FeedAllAppends(st: ParseState, lines: seq<string>)
    requires FeedAll(st, lines).Success?
    ensures st.objects <= FeedAll(st, lines).value.objects
    ensures st.timing <= FeedAll(st, lines).value.timing
    ensures st.velocity <= FeedAll(st, lines).value.velocity
    decreases |lines|
  {
    if lines != [] {
      var next := Feed(st, lines[0]).value;
      FeedAppends(st, lines[0]);
      FeedAllAppends(next, lines[1..]);
    }
  }

  /** Lines before the first section header have no effect. */
  lemma {:induction false} PreambleIgnored(st: ParseState, preamble: seq<string>, rest: seq<string>)
    requires st.category.None?
    requires forall k :: 0 <= k < |preamble| ==> !IsHeader(preamble[k])
    ensures FeedAll(st, preamble + rest) == FeedAll(st, rest)
    decreases |preamble|
  {
    if preamble == [] {
      assert preamble + rest == rest;
    } else {
      assert (preamble + rest)[0] == preamble[0];
      assert (preamble + rest)[1..] == preamble[1..] + rest;
      assert Feed(st, preamble[0]) == Success(st);
      PreambleIgnored(st, preamble[1..], rest);
    }
  }

  /** Hence the parse of a text does not depend on what precedes its first
      header. */
  lemma ParseIgnoresPreamble(preamble: seq<string>, rest: seq<string>)
    requires forall k :: 0 <= k < |preamble| ==> !IsHeader(preamble[k])
    ensures ParseLines(preamble + rest) == ParseLines(rest)
  {
    PreambleIgnored(Initial, preamble, rest);
  }

  /** A line that `[TimingPoints]` would turn into a velocity point. */
  predicate IsInheritedRow(line: string) {
    ParseTimingRow(line).Some? && ParseTimingRow(line).value.Inherited?
  }

  /** A row whose field 6 is `1` is uninherited: it never adds a velocity
      point. */
  lemma UninheritedFieldNotInherited(fields: seq<string>)
    requires |fields| >= 7 && forall k :: 0 <= k < |fields| ==> ',' !in fields[k]
    requires fields[6] == "1"
    ensures !IsInheritedRow(Join(fields, ','))
  {
    TimingRowFields(fields);
  }

  /** Velocity points come only from inherited rows: lines without one
      leave the velocity list as it was. */
  lemma {:induction false} VelocityOnlyFromInheritedRows(st: ParseState, lines: seq<string>)
    requires FeedAll(st, lines).Success?
    requires forall k :: 0 <= k < |lines| ==> !IsInheritedRow(lines[k])
    ensures FeedAll(st, lines).value.velocity == st.velocity
    decreases |lines|
  {
    if lines != [] {
      var line := lines[0];
      var next := Feed(st, line).value;
      assert next.velocity == st.velocity by {
        if !IsHeader(line) && st.category.Some? {
          if st.category.value == TIMING_POINTS {
            assert Feed(st, line) == Success(FeedTiming(st, line));
          } else if st.category.value == HIT_OBJECTS {
            assert Feed(st, line) == FeedHitObject(st, line);
          } else {
            assert Feed(st, line) == Success(FeedKeyValue(st, st.category.value, line));
          }
        }
      }
      VelocityOnlyFromInheritedRows(next, lines[1..]);
    }
  }

  /** Hence a text without inherited rows parses, when it parses, into a
      beatmap with no velocity point. */
  lemma NoInheritedRowNoVelocity(lines: seq<string>)
    requires ParseLines(lines).Success?
    requires forall k :: 0 <= k < |lines| ==> !IsInheritedRow(lines[k])
    ensures ParseLines(lines).value.velocity == []
  {
    VelocityOnlyFromInheritedRows(Initial, lines);
  }

  /** Text written as lines ended by line feeds parses as those lines. */
  lemma ParseOfUnlines(ls: seq<string>)
    requires forall k :: 0 <= k < |ls| ==> PlainLine(ls[k])
    ensures Parse(Unlines(ls)) == ParseLines(ls)
  {
    LinesUnlines(ls);
  }

  /** Text written as lines ended by CR LF parses as those same lines. */
  lemma ParseOfUnlinesCrlf(ls: seq<string>)
    requires forall k :: 0 <= k < |ls| ==> PlainLine(ls[k])
    ensures Parse(UnlinesCrlf(ls)) == ParseLines(ls)
  {
    LinesUnlinesCrlf(ls);
  }
}
