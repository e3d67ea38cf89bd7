/** Float64 values as the scoring code meets them, and Python's `round`.

    A value is a finite real, positive infinity (a ratio over a zero voxel
    count, the Hausdorff distance of an empty mask) or NaN (zero over zero,
    the Dice coefficient of two empty masks). Negative infinity does not
    arise: every metric the scorer produces is non-negative. */
module Values {
  import opened Outcomes

  datatype Value = Fin(x: real) | Inf | NaN

  /** IEEE addition restricted to the values above. */
  function Add(a: Value, b: Value): Value {
    if a.NaN? || b.NaN? then NaN
    else if a.Inf? || b.Inf? then Inf
    else Fin(a.x + b.x)
  }

  function Halve(a: Value): Value {
    if a.Fin? then Fin(a.x / 2.0) else a
  }

  /** `(a + b) / 2`, which is also numpy's mean of the pair `[a, b]`. */
  function Midpoint(a: Value, b: Value): Value {
    Halve(Add(a, b))
  }

  predicate IsInteger(s: real) {
    s.Floor as real == s
  }

  /** `x` has at most three digits after the decimal point. */
  predicate HasThreeDecimals(x: real) {
    IsInteger(x * 1000.0)
  }

  /** The integer nearest to `s`; an exact tie goes to the even neighbour. */
  function NearestInt(s: real): (n: int)
    ensures -0.5 <= n as real - s <= 0.5
    ensures IsInteger(s) ==> n as real == s
    ensures (n as real - s == 0.5 || s - n as real == 0.5) ==> n % 2 == 0
  {
    var f := s.Floor;
    var frac := s - f as real;
    if frac < 0.5 then f
    else if frac > 0.5 then f + 1
    else if f % 2 == 0 then f else f + 1
  }

  /** Python's `round(x, 3)` on an exact value: the nearest multiple of
      0.001, an exact tie going to the even multiple. */
  function Round3(x: real): (r: real)
    ensures HasThreeDecimals(r)
    ensures -0.0005 <= r - x <= 0.0005
    ensures HasThreeDecimals(x) ==> r == x
  {
    var n := NearestInt(x * 1000.0);
    ScaleDown(x, n);
    n as real / 1000.0
  }

  /** Dividing the rounded scaled value by 1000 lands on a multiple of
      0.001 within half a step of `x`. */
  lemma ScaleDown(x: real, n: int)
    requires -0.5 <= n as real - x * 1000.0 <= 0.5
    ensures (n as real / 1000.0) * 1000.0 == n as real
    ensures HasThreeDecimals(n as real / 1000.0)
    ensures -0.0005 <= n as real / 1000.0 - x <= 0.0005
    ensures n as real == x * 1000.0 ==> n as real / 1000.0 == x
  {
    var r := n as real / 1000.0;
    assert r * 1000.0 == n as real;
    assert (n as real).Floor == n;
  }

  /** Rounding an already rounded value changes nothing. */
  lemma Round3Idempotent(x: real)
    ensures Round3(Round3(x)) == Round3(x)
  {
  }

  lemma NearestIntMonotone(s: real, t: real)
    requires s <= t
    ensures NearestInt(s) <= NearestInt(t)
  {
    if s < t {
      var n, m := NearestInt(s), NearestInt(t);
      assert n as real - m as real <= 1.0 + (s - t);
    }
  }

  /** Rounding never reverses the order of two values. */
  lemma Round3Monotone(x: real, y: real)
    requires x <= y
    ensures Round3(x) <= Round3(y)
  {
    NearestIntMonotone(x * 1000.0, y * 1000.0);
  }

  /** `round(v, 3)` on a float64: infinities and NaN pass through. */
  function RoundValue3(v: Value): (r: Value)
    ensures r.Fin? <==> v.Fin?
    ensures r.NaN? <==> v.NaN?
    ensures r.Fin? ==> HasThreeDecimals(r.x) && -0.0005 <= r.x - v.x <= 0.0005
  {
    if v.Fin? then Fin(Round3(v.x)) else v
  }

  /** `round(v)` with no digit count: the result is a Python int, so an
      infinity raises OverflowError and a NaN raises ValueError. */
  function RoundWhole(v: Value): (r: Result<Value>)
    ensures r.Ok? <==> v.Fin?
    ensures r.Ok? ==> r.value.Fin? && IsInteger(r.value.x) && -0.5 <= r.value.x - v.x <= 0.5
    ensures v.Inf? ==> r == Err(OverflowError)
    ensures v.NaN? ==> r == Err(ValueError)
  {
    match v
    case Fin(x) => Ok(Fin(NearestInt(x) as real))
    case Inf => Err(OverflowError)
    case NaN => Err(ValueError)
  }
}
