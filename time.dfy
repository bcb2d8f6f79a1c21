/** wcore's `Time`: a wall-clock instant held as seconds, with a projection
    to whole milliseconds. */
module Times {
  import Float

  /** `Time(f64)`, ordered by its seconds (`PartialOrd`). */
  datatype Time = Time(seconds: real)

  /** The largest `u64`; `to_ms` saturates there. */
  const U64_MAX: nat := 0xFFFF_FFFF_FFFF_FFFF

  /** `Time::zero()`, which is also `Time::default()`. */
  function Zero(): (t: Time)
    ensures ToSeconds(t) == 0.0
  {
    Time(0.0)
  }

  function FromSeconds(x: real): (t: Time)
    ensures ToSeconds(t) == x
  {
    Time(x)
  }

  function FromMs(ms: real): (t: Time)
    ensures ToSeconds(t) * 1000.0 == ms
  {
    Time(ms / 1000.0)
  }

  function ToSeconds(t: Time): real {
    t.seconds
  }

  /** `(seconds * 1000.0).round() as u64`: the nearest whole number of
      milliseconds, halves rounded up (away from zero), with the cast's
      saturation to 0 below and to `U64_MAX` above. */
  function ToMs(t: Time): (ms: nat)
    ensures ms <= U64_MAX
    ensures t.seconds < 0.0 ==> ms == 0
    ensures 0.0 <= t.seconds * 1000.0 < U64_MAX as real ==>
              ms as real - 0.5 <= t.seconds * 1000.0 < ms as real + 0.5
    ensures t.seconds * 1000.0 + 0.5 >= (U64_MAX + 1) as real ==> ms == U64_MAX
  {
    var x := t.seconds * 1000.0;
    if x < 0.5 then 0
    else if (x + 0.5).Floor > U64_MAX then U64_MAX
    else (x + 0.5).Floor
  }

  function Add(a: Time, b: Time): (c: Time)
    ensures ToSeconds(c) == ToSeconds(a) + ToSeconds(b)
  {
    Time(a.seconds + b.seconds)
  }

  function Sub(a: Time, b: Time): (c: Time)
    ensures ToSeconds(c) == ToSeconds(a) - ToSeconds(b)
  {
    Time(a.seconds - b.seconds)
  }

  function Mul(a: Time, b: Time): (c: Time)
    ensures ToSeconds(c) == ToSeconds(a) * ToSeconds(b)
  {
    Time(a.seconds * b.seconds)
  }

  function Div(a: Time, b: Time): (c: Time)
    ensures ToSeconds(b) != 0.0 ==> ToSeconds(c) * ToSeconds(b) == ToSeconds(a)
  {
    Time(Float.Div(a.seconds, b.seconds))
  }

  /** `a < b` of the derived `PartialOrd`. */
  predicate Less(a: Time, b: Time) {
    a.seconds < b.seconds
  }

  predicate LessEq(a: Time, b: Time) {
    a.seconds <= b.seconds
  }

  // ---------------------------------------------------------------------
  // Properties

  /** Whole milliseconds survive the trip through seconds. */
  lemma FromMsToMs(n: nat)
    requires n <= U64_MAX
    ensures ToMs(FromMs(n as real)) == n
  {
    var x := FromMs(n as real).seconds * 1000.0;
    assert x == n as real;
    assert (x + 0.5).Floor == n;
  }

  lemma FromSecondsRoundTrip(x: real)
    ensures ToSeconds(FromSeconds(x)) == x && FromSeconds(ToSeconds(FromSeconds(x))) == FromSeconds(x)
  {
  }

  /** A later time never projects to fewer milliseconds. */
  lemma ToMsMonotone(a: Time, b: Time)
    requires LessEq(a, b)
    ensures ToMs(a) <= ToMs(b)
  {
    var x, y := a.seconds * 1000.0, b.seconds * 1000.0;
    assert x <= y;
  }

  /** Subtraction undoes addition, and zero is neutral. */
  lemma AddSubInverse(a: Time, b: Time)
    ensures Sub(Add(a, b), b) == a
    ensures Add(a, Zero()) == a && Add(Zero(), a) == a
  {
  }

  /** Division undoes multiplication by a non-zero time. */
  lemma MulDivInverse(a: Time, b: Time)
    requires b.seconds != 0.0
    ensures Div(Mul(a, b), b) == a
  {
  }

  /** The order is the total order of the seconds. */
  lemma OrderIsTotal(a: Time, b: Time)
    ensures Less(a, b) || a == b || Less(b, a)
    ensures LessEq(a, b) <==> !Less(b, a)
  {
  }
}
