/** The pieces of Rust's `str` that the beatmap parser relies on: `lines`,
    `trim`, `split` with an iterator read by index, and `parse` into `i32`,
    `u8` and `f64`. Each is stated the way the Rust standard library defines
    it, over `seq<char>`. */
module Text {
  import opened Wrappers

  // ---------------------------------------------------------------------
  // Searching

  /** Index of the first `c` in `s`, or `|s|` when there is none. */
  function Find(s: string, c: char): (i: nat)
    ensures i <= |s|
    ensures i < |s| ==> s[i] == c
    ensures forall j :: 0 <= j < i ==> s[j] != c
    ensures i == |s| <==> c !in s
  {
    if s == [] then 0
    else if s[0] == c then 0
    else 1 + Find(s[1..], c)
  }

  predicate StartsWith(s: string, prefix: string) {
    |prefix| <= |s| && s[..|prefix|] == prefix
  }

  // ---------------------------------------------------------------------
  // str::lines

  /** Drops one trailing carriage return, as `lines` does after a line feed. */
  function StripCr(line: string): string {
    if line != [] && line[|line| - 1] == '\r' then line[..|line| - 1] else line
  }

  /** `str::lines`: split after every line feed, drop the line feed and a
      carriage return just before it; a final line feed does not start an
      empty last line. */
  function Lines(s: string): (ls: seq<string>)
    ensures forall k :: 0 <= k < |ls| ==> '\n' !in ls[k]
    ensures s == [] <==> ls == []
    decreases |s|
  {
    if s == [] then []
    else
      var i := Find(s, '\n');
      if i == |s| then [s]
      else [StripCr(s[..i])] + Lines(s[i + 1..])
  }

  /** Text whose lines are `ls`, each ended by a line feed. */
  function Unlines(ls: seq<string>): string {
    if ls == [] then [] else ls[0] + "\n" + Unlines(ls[1..])
  }

  /** Lines that `Unlines` and `Lines` carry through unchanged. */
  predicate PlainLine(line: string) {
    '\n' !in line && (line == [] || line[|line| - 1] != '\r')
  }

  lemma {:induction false} LinesUnlines(ls: seq<string>)
    requires forall k :: 0 <= k < |ls| ==> PlainLine(ls[k])
    ensures Lines(Unlines(ls)) == ls
  {
    if ls != [] {
      var s := Unlines(ls);
      var rest := Unlines(ls[1..]);
      assert s == ls[0] + "\n" + rest;
      assert s[|ls[0]|] == '\n';
      assert s[..|ls[0]|] == ls[0];
      assert s[|ls[0]| + 1..] == rest;
      assert Find(s, '\n') == |ls[0]|;
      LinesUnlines(ls[1..]);
    }
  }

  /** Text whose lines are `ls`, each ended by a carriage return and a line
      feed, as osu! files are usually written. */
  function UnlinesCrlf(ls: seq<string>): string {
    if ls == [] then [] else ls[0] + "\r\n" + UnlinesCrlf(ls[1..])
  }

  /** The first line of CR LF text: the line feed just after the carriage
      return ends it, and the rest starts after the line feed. */
  lemma CrlfHead(line: string, rest: string)
    requires PlainLine(line)
    ensures var s := line + "\r\n" + rest;
      Find(s, '\n') == |line| + 1 && StripCr(s[..|line| + 1]) == line && s[|line| + 2..] == rest
  {
    var s := line + "\r\n" + rest;
    var n := |line|;
    assert s[n] == '\r' && s[n + 1] == '\n';
    assert forall j :: 0 <= j < n ==> s[j] == line[j];
    assert s[..n + 1] == line + "\r";
  }

  /** `lines` drops the carriage return before each line feed, so CR LF
      text reads back as the same lines as LF text. */
  lemma {:induction false} LinesUnlinesCrlf(ls: seq<string>)
    requires forall k :: 0 <= k < |ls| ==> PlainLine(ls[k])
    ensures Lines(UnlinesCrlf(ls)) == ls
  {
    if ls != [] {
      CrlfHead(ls[0], UnlinesCrlf(ls[1..]));
      LinesUnlinesCrlf(ls[1..]);
    }
  }

  // ---------------------------------------------------------------------
  // str::trim

  /** `char::is_whitespace`: the Unicode White_Space property. */
  predicate IsWhitespace(c: char) {
    ('\t' <= c <= '\r') || c == ' ' || c == '\U{85}' || c == '\U{A0}' || c == '\U{1680}'
    || ('\U{2000}' <= c <= '\U{200A}') || c == '\U{2028}' || c == '\U{2029}'
    || c == '\U{202F}' || c == '\U{205F}' || c == '\U{3000}'
  }

  /** `str::trim_start`: the suffix that starts at the first non-whitespace. */
  function TrimStart(s: string): (r: string)
    ensures |r| <= |s| && r == s[|s| - |r|..]
    ensures r == [] || !IsWhitespace(r[0])
    ensures forall i :: 0 <= i < |s| - |r| ==> IsWhitespace(s[i])
  {
    if s != [] && IsWhitespace(s[0]) then TrimStart(s[1..]) else s
  }

  /** `str::trim_end`: the prefix that ends at the last non-whitespace. */
  function TrimEnd(s: string): (r: string)
    ensures |r| <= |s| && r == s[..|r|]
    ensures r == [] || !IsWhitespace(r[|r| - 1])
    ensures forall i :: |r| <= i < |s| ==> IsWhitespace(s[i])
  {
    if s != [] && IsWhitespace(s[|s| - 1]) then TrimEnd(s[..|s| - 1]) else s
  }

  /** `str::trim`: no whitespace at either end, and empty exactly when
      the whole text is whitespace. */
  function Trim(s: string): (r: string)
    ensures |r| <= |s|
    ensures r == [] || (!IsWhitespace(r[0]) && !IsWhitespace(r[|r| - 1]))
    ensures r == [] <==> forall i :: 0 <= i < |s| ==> IsWhitespace(s[i])
  {
    TrimEnd(TrimStart(s))
  }

  /** `line.trim().is_empty()`. */
  predicate IsBlank(s: string) {
    Trim(s) == []
  }

  lemma BlankIffAllWhitespace(s: string)
    ensures IsBlank(s) <==> forall i :: 0 <= i < |s| ==> IsWhitespace(s[i])
  {
  }

  /** Trimming what is already trimmed changes nothing. */
  lemma TrimIdempotent(s: string)
    ensures Trim(Trim(s)) == Trim(s)
  {
    var r := Trim(s);
    if r != [] {
      assert TrimStart(r) == r;
      assert TrimEnd(r) == r;
    }
  }

  // ---------------------------------------------------------------------
  // str::split and Iterator::nth

  /** `str::split` on one character: the pieces between separators, always
      at least one, none containing the separator, joined back to `s`. */
  function Split(s: string, sep: char): (parts: seq<string>)
    ensures |parts| >= 1
    ensures forall k :: 0 <= k < |parts| ==> sep !in parts[k]
    ensures Join(parts, sep) == s
    decreases |s|
  {
    var i := Find(s, sep);
    if i == |s| then [s]
    else
      var rest := Split(s[i + 1..], sep);
      assert Join([s[..i]] + rest, sep) == s[..i] + [sep] + Join(rest, sep) by {
        assert ([s[..i]] + rest)[1..] == rest;
      }
      [s[..i]] + rest
  }

  /** Pieces separated by `sep`, the inverse of `Split`. */
  function Join(parts: seq<string>, sep: char): string
    requires |parts| >= 1
  {
    if |parts| == 1 then parts[0] else parts[0] + [sep] + Join(parts[1..], sep)
  }

  lemma {:induction false} SplitJoin(parts: seq<string>, sep: char)
    requires |parts| >= 1
    requires forall k :: 0 <= k < |parts| ==> sep !in parts[k]
    ensures Split(Join(parts, sep), sep) == parts
    decreases |parts|
  {
    var s := Join(parts, sep);
    if |parts| == 1 {
      assert Find(s, sep) == |s|;
    } else {
      var rest := Join(parts[1..], sep);
      assert s == parts[0] + [sep] + rest;
      assert s[|parts[0]|] == sep;
      assert forall j :: 0 <= j < |parts[0]| ==> s[j] == parts[0][j];
      assert Find(s, sep) == |parts[0]|;
      assert s[..|parts[0]|] == parts[0];
      assert s[|parts[0]| + 1..] == rest;
      SplitJoin(parts[1..], sep);
    }
  }

  /** Splitting text with no separator yields the text itself. */
  lemma SplitWithoutSeparator(s: string, sep: char)
    requires sep !in s
    ensures Split(s, sep) == [s]
  {
  }

  /** The piece at `k` of a split iterator: `next` is `Field(parts, 0)`, and
      `nth(n)` after `m` earlier reads is `Field(parts, m + n)`. */
  function Field(parts: seq<string>, k: nat): (f: Option<string>)
    ensures f.Some? <==> k < |parts|
    ensures f.Some? ==> f.value == parts[k]
  {
    if k < |parts| then Some(parts[k]) else None
  }

  // ---------------------------------------------------------------------
  // Decimal digits

  predicate IsDigit(c: char) {
    '0' <= c <= '9'
  }

  predicate AllDigits(s: string) {
    forall i :: 0 <= i < |s| ==> IsDigit(s[i])
  }

  function DigitValue(c: char): (d: nat)
    requires IsDigit(c)
    ensures d < 10
  {
    c as int - '0' as int
  }

  function DigitChar(d: nat): (c: char)
    requires d < 10
    ensures IsDigit(c) && DigitValue(c) == d
  {
    ('0' as int + d) as char
  }

  /** The number a run of decimal digits denotes, most significant first. */
  function DigitsValue(s: string): nat
    requires AllDigits(s)
  {
    if s == [] then 0 else DigitsValue(s[..|s| - 1]) * 10 + DigitValue(s[|s| - 1])
  }

  /** Decimal notation of a natural number, without leading zeros. */
  function NatToString(n: nat): (s: string)
    ensures s != [] && AllDigits(s)
    ensures DigitsValue(s) == n
  {
    if n < 10 then [DigitChar(n)]
    else
      var s := NatToString(n / 10) + [DigitChar(n % 10)];
      assert s[..|s| - 1] == NatToString(n / 10);
      s
  }

  /** Decimal notation of an integer, with a minus sign when negative. */
  function IntToString(i: int): (s: string)
    ensures s != []
  {
    if i < 0 then "-" + NatToString(-i) else NatToString(i)
  }

  function Pow10(n: nat): (p: nat)
    ensures p >= 1
  {
    if n == 0 then 1 else 10 * Pow10(n - 1)
  }

  // ---------------------------------------------------------------------
  // str::parse

  const I32_MIN: int := -0x8000_0000
  const I32_MAX: int := 0x7FFF_FFFF
  const U8_MAX: int := 0xFF

  /** `s.parse::<i32>().ok()`: an optional sign, then one or more decimal
      digits, and the value must fit in 32 bits. */
  function ParseI32(s: string): (r: Option<int>)
    ensures r.Some? ==> I32_MIN <= r.value <= I32_MAX
  {
    var signed := s != [] && (s[0] == '+' || s[0] == '-');
    var digits := if signed then s[1..] else s;
    if digits == [] || !AllDigits(digits) then None
    else
      var v: int := if signed && s[0] == '-' then 0 - DigitsValue(digits) else DigitsValue(digits);
      if I32_MIN <= v <= I32_MAX then Some(v) else None
  }

  /** `s.parse::<u8>().ok()`: an optional plus sign, then one or more decimal
      digits, and the value must fit in 8 bits. */
  function ParseU8(s: string): (r: Option<nat>)
    ensures r.Some? ==> r.value <= U8_MAX
  {
    var digits := if s != [] && s[0] == '+' then s[1..] else s;
    if digits == [] || !AllDigits(digits) then None
    else if DigitsValue(digits) <= U8_MAX then Some(DigitsValue(digits))
    else None
  }

  /** Index of the first exponent mark `e` or `E`, or `|s|`. */
  function FindExponent(s: string): (i: nat)
    ensures i <= |s|
    ensures i < |s| ==> s[i] == 'e' || s[i] == 'E'
    ensures forall j :: 0 <= j < i ==> s[j] != 'e' && s[j] != 'E'
  {
    if s == [] then 0
    else if s[0] == 'e' || s[0] == 'E' then 0
    else 1 + FindExponent(s[1..])
  }

  /** The exponent after `e`: an optional sign and one or more digits. */
  function ParseExponent(s: string): Option<int> {
    var signed := s != [] && (s[0] == '+' || s[0] == '-');
    var digits := if signed then s[1..] else s;
    if digits == [] || !AllDigits(digits) then None
    else if signed && s[0] == '-' then Some(0 - DigitsValue(digits))
    else Some(DigitsValue(digits))
  }

  /** `n` times ten to the power `e`, one factor of ten at a time. */
  function Scaled(n: nat, e: int): (v: real)
    ensures v >= 0.0
    decreases if e >= 0 then e else -e
  {
    if e == 0 then n as real
    else if e > 0 then Scaled(n, e - 1) * 10.0
    else Scaled(n, e + 1) / 10.0
  }

  /** The digits before and after the point, at least one digit in all,
      read as one number and scaled by ten to the power `exponent` less the
      number of fraction digits. */
  function PointedDigits(whole: string, fraction: string, exponent: int): (r: Option<real>)
    ensures r.Some? ==> r.value >= 0.0
  {
    if !AllDigits(whole) || !AllDigits(fraction) || (whole == [] && fraction == []) then None
    else Some(Scaled(DigitsValue(whole + fraction), exponent - |fraction|))
  }

  /** A mantissa: digits with at most one point. */
  function ParseMantissa(m: string, exponent: int): (r: Option<real>)
    ensures r.Some? ==> r.value >= 0.0
  {
    var dot := Find(m, '.');
    PointedDigits(m[..dot], if dot < |m| then m[dot + 1..] else [], exponent)
  }

  /** A decimal number without sign: a mantissa, then an optional exponent
      `e` or `E` followed by an optionally signed integer. */
  function ParseUnsignedDecimal(s: string): (r: Option<real>)
    ensures r.Some? ==> r.value >= 0.0
  {
    var e := FindExponent(s);
    var exponent := if e < |s| then ParseExponent(s[e + 1..]) else Some(0);
    if exponent.None? then None else ParseMantissa(s[..e], exponent.value)
  }

  /** `s.parse::<f64>().ok()` for the decimal notation: an optional sign and
      an unsigned decimal number. */
  function ParseF64(s: string): (r: Option<real>)
    ensures r.Some? ==> s != [] && (s[0] == '-' ==> r.value <= 0.0) && (s[0] != '-' ==> r.value >= 0.0)
  {
    if s == [] then None
    else
      var negative := s[0] == '-';
      var body := if s[0] == '+' || s[0] == '-' then s[1..] else s;
      match ParseUnsignedDecimal(body)
      case None => None
      case Some(v) => Some(if negative then -v else v)
  }

  // ---------------------------------------------------------------------
  // Round trips between printing and parsing

  lemma NoSignNoPoint(s: string)
    requires AllDigits(s)
    ensures FindExponent(s) == |s| && Find(s, '.') == |s|
  {
    assert forall j :: 0 <= j < |s| ==> s[j] != 'e' && s[j] != 'E' && s[j] != '.';
  }

  lemma {:induction false} ParseI32RoundTrip(i: int)
    requires I32_MIN <= i <= I32_MAX
    ensures ParseI32(IntToString(i)) == Some(i)
  {
    var s := IntToString(i);
    if i < 0 {
      assert s[1..] == NatToString(-i);
    } else {
      assert IsDigit(s[0]);
    }
  }

  lemma {:induction false} ParseU8RoundTrip(n: nat)
    requires n <= U8_MAX
    ensures ParseU8(NatToString(n)) == Some(n)
  {
    assert IsDigit(NatToString(n)[0]);
  }

  /** A plain run of digits parses to the number it denotes. */
  lemma DecimalOfDigits(s: string)
    requires s != [] && AllDigits(s)
    ensures ParseUnsignedDecimal(s) == Some(DigitsValue(s) as real)
  {
    NoSignNoPoint(s);
    assert s[..|s|] == s;
    assert s + [] == s;
  }

  lemma {:induction false} ParseF64OfInteger(i: int)
    ensures ParseF64(IntToString(i)) == Some(i as real)
  {
    var s := IntToString(i);
    var body := NatToString(if i < 0 then -i else i);
    if i < 0 {
      assert s[1..] == body;
    } else {
      assert IsDigit(s[0]);
    }
    DecimalOfDigits(body);
  }

  /** The digits of `a` followed by those of `b` denote `a`'s number shifted
      left by `|b|` places plus `b`'s. */
  lemma {:induction false} DigitsValueAppend(a: string, b: string)
    requires AllDigits(a) && AllDigits(b)
    ensures AllDigits(a + b)
    ensures DigitsValue(a + b) == DigitsValue(a) * Pow10(|b|) + DigitsValue(b)
    decreases |b|
  {
    if b == [] {
      assert a + b == a;
    } else {
      var b' := b[..|b| - 1];
      assert (a + b)[..|a + b| - 1] == a + b';
      assert (a + b)[|a + b| - 1] == b[|b| - 1];
      DigitsValueAppend(a, b');
      ShiftOneDigit(DigitsValue(a), Pow10(|b'|), DigitsValue(b'), DigitValue(b[|b| - 1]));
    }
  }

  /** One more digit shifts the whole number left by one more place. */
  lemma ShiftOneDigit(a: nat, p: nat, x: nat, d: nat)
    ensures (a * p + x) * 10 + d == a * (p * 10) + (x * 10 + d)
  {
  }

  /** Where the exponent mark and the point are in `whole.fraction`. */
  lemma PointWithoutExponent(whole: string, f: string)
    requires AllDigits(whole) && AllDigits(f)
    ensures var body := whole + ['.'] + f;
      FindExponent(body) == |body| && Find(body, '.') == |whole|
      && body[..|whole|] == whole && body[|whole| + 1..] == f
  {
    var body := whole + ['.'] + f;
    forall j | 0 <= j < |body|
      ensures body[j] != 'e' && body[j] != 'E'
    {
      if j < |whole| {
        assert body[j] == whole[j];
      } else if j > |whole| {
        assert body[j] == f[j - |whole| - 1];
      }
    }
    assert forall j :: 0 <= j < |whole| ==> body[j] == whole[j] && body[j] != '.';
  }

  /** A mantissa `whole.fraction` is the digits of both read as one number,
      scaled down by the length of the fraction. */
  lemma MantissaWithPoint(whole: string, f: string, exponent: int)
    requires whole != [] && AllDigits(whole) && AllDigits(f)
    ensures AllDigits(whole + f)
    ensures ParseMantissa(whole + ['.'] + f, exponent) == Some(Scaled(DigitsValue(whole + f), exponent - |f|))
  {
    var m := whole + ['.'] + f;
    PointWithoutExponent(whole, f);
    DigitsAppend(whole, f);
    MantissaParts(m, whole, f, exponent);
  }

  /** `ParseMantissa` once the point has been found. */
  lemma MantissaParts(m: string, whole: string, f: string, exponent: int)
    requires Find(m, '.') == |whole| < |m| && m[..|whole|] == whole && m[|whole| + 1..] == f
    requires whole != [] && AllDigits(whole) && AllDigits(f)
    ensures ParseMantissa(m, exponent) == Some(Scaled(DigitsValue(whole + f), exponent - |f|))
  {
    var dot := Find(m, '.');
    assert m[..dot] == whole;
    assert (if dot < |m| then m[dot + 1..] else []) == f;
    assert ParseMantissa(m, exponent) == PointedDigits(whole, f, exponent);
  }

  lemma DigitsAppend(a: string, b: string)
    requires AllDigits(a) && AllDigits(b)
    ensures AllDigits(a + b)
  {
    assert forall j :: 0 <= j < |b| ==> (a + b)[|a| + j] == b[j];
  }

  /** A mantissa of digits only is their number. */
  lemma MantissaOfDigits(m: string, exponent: int)
    requires m != [] && AllDigits(m)
    ensures ParseMantissa(m, exponent) == Some(Scaled(DigitsValue(m), exponent))
  {
    NoSignNoPoint(m);
    assert m[..|m|] == m && m + [] == m;
  }

  /** `whole.fraction` without exponent is the digits of both read as one
      number, scaled down by the length of the fraction. */
  lemma UnsignedDecimalWithPoint(whole: string, f: string)
    requires whole != [] && AllDigits(whole) && AllDigits(f)
    ensures AllDigits(whole + f)
    ensures ParseUnsignedDecimal(whole + ['.'] + f) == Some(Scaled(DigitsValue(whole + f), 0 - |f|))
  {
    var body := whole + ['.'] + f;
    PointWithoutExponent(whole, f);
    assert body[..|body|] == body;
    MantissaWithPoint(whole, f, 0);
  }

  /** `mantissa e exponent` with a digit-only mantissa is the mantissa's
      number times that power of ten. */
  lemma UnsignedDecimalWithExponent(mantissa: string, e: int)
    requires mantissa != [] && AllDigits(mantissa)
    ensures ParseUnsignedDecimal(mantissa + ['e'] + IntToString(e)) == Some(Scaled(DigitsValue(mantissa), e))
  {
    var s := mantissa + ['e'] + IntToString(e);
    assert forall j :: 0 <= j < |mantissa| ==> s[j] == mantissa[j] && s[j] != 'e' && s[j] != 'E';
    assert s[|mantissa|] == 'e';
    assert FindExponent(s) == |mantissa|;
    assert s[..|mantissa|] == mantissa && s[|mantissa| + 1..] == IntToString(e);
    ParseExponentOfInteger(e);
    MantissaOfDigits(mantissa, e);
  }

  /** Text starting with a digit parses as an unsigned decimal. */
  lemma ParseF64Unsigned(s: string)
    requires s != [] && IsDigit(s[0])
    ensures ParseF64(s) == ParseUnsignedDecimal(s)
  {
  }

  /** A leading minus sign negates the unsigned decimal after it. */
  lemma ParseF64Negative(t: string)
    ensures var u := ParseUnsignedDecimal(t);
      ParseF64(['-'] + t) == if u.None? then None else Some(-u.value)
  {
    var s := ['-'] + t;
    assert s != [] && s[0] == '-' && s[1..] == t;
  }

  /** The number `w.x` whose fraction `x` has `k` digits. */
  function WholeAndFraction(w: nat, x: nat, k: nat): real {
    w as real + x as real / Pow10(k) as real
  }

  lemma ProductAsReal(a: nat, b: nat)
    ensures (a * b) as real == a as real * b as real
  {
  }

  lemma ScaleBack(a: real, b: real, p: real)
    requires p > 0.0
    ensures (a * p + b) * (1.0 / p) == a + b / p
  {
  }

  lemma {:induction false} ScaledDown(n: nat, k: nat)
    ensures Scaled(n, 0 - k) == n as real * (1.0 / Pow10(k) as real)
  {
    if k > 0 {
      ScaledDown(n, k - 1);
      OneMoreTenth(n as real, Pow10(k - 1) as real);
    }
  }

  lemma OneMoreTenth(a: real, q: real)
    requires q > 0.0
    ensures (a * (1.0 / q)) / 10.0 == a * (1.0 / (q * 10.0))
  {
  }

  lemma ShiftedBack(w: nat, x: nat, p: nat)
    requires p >= 1
    ensures (w * p + x) as real * (1.0 / p as real) == w as real + x as real / p as real
  {
    ProductAsReal(w, p);
    ScaleBack(w as real, x as real, p as real);
  }

  /** Shifting the whole part left past the fraction's digits and scaling
      back down gives the whole part plus the fraction. */
  lemma ScaledFraction(n: nat, w: nat, x: nat, k: nat)
    requires n == w * Pow10(k) + x
    ensures Scaled(n, 0 - k) == WholeAndFraction(w, x, k)
  {
    ScaledDown(n, k);
    ShiftedBack(w, x, Pow10(k));
  }

  /** The digits of `whole` and `f` read as one number and scaled down by
      `f`'s length are `whole`'s number plus `f`'s as a fraction. */
  lemma FractionOfDigits(whole: string, f: string)
    requires AllDigits(whole) && AllDigits(f)
    ensures AllDigits(whole + f)
    ensures Scaled(DigitsValue(whole + f), 0 - |f|) == WholeAndFraction(DigitsValue(whole), DigitsValue(f), |f|)
  {
    DigitsValueAppend(whole, f);
    ScaledFraction(DigitsValue(whole + f), DigitsValue(whole), DigitsValue(f), |f|);
  }

  /** The unsigned text `w.f` denotes the whole part plus the fraction. */
  lemma UnsignedDecimalOfPoint(w: nat, f: string)
    requires f != [] && AllDigits(f)
    ensures ParseUnsignedDecimal(NatToString(w) + ['.'] + f) == Some(WholeAndFraction(w, DigitsValue(f), |f|))
  {
    var whole := NatToString(w);
    FractionOfDigits(whole, f);
    UnsignedDecimalWithPoint(whole, f);
  }

  /** Text with a decimal point, such as the beat length
      `333.333333333333`, parses to its whole part plus its fraction; with
      a minus sign in front, as in `-100.0`, `ParseF64Negative` and
      `UnsignedDecimalOfPoint` give the negated value. */
  lemma ParseF64OfDecimal(w: nat, f: string)
    requires f != [] && AllDigits(f)
    ensures ParseF64(NatToString(w) + ['.'] + f) == Some(WholeAndFraction(w, DigitsValue(f), |f|))
  {
    var whole := NatToString(w);
    var text := whole + ['.'] + f;
    UnsignedDecimalOfPoint(w, f);
    assert text[0] == whole[0];
    ParseF64Unsigned(text);
  }

  /** The exponent after `e` is read back as the integer printed there. */
  lemma {:induction false} ParseExponentOfInteger(e: int)
    ensures ParseExponent(IntToString(e)) == Some(e)
  {
    var s := IntToString(e);
    if e < 0 {
      assert s[1..] == NatToString(-e);
    } else {
      assert IsDigit(s[0]);
    }
  }

  /** Text in exponent form, such as `15e2`, parses to the mantissa times
      that power of ten. */
  lemma ParseF64OfExponent(m: nat, e: int)
    ensures ParseF64(NatToString(m) + ['e'] + IntToString(e)) == Some(Scaled(m, e))
  {
    var mantissa := NatToString(m);
    var text := mantissa + ['e'] + IntToString(e);
    UnsignedDecimalWithExponent(mantissa, e);
    assert text[0] == mantissa[0];
    ParseF64Unsigned(text);
  }
}
