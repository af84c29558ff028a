/** The part of IEEE-754 binary64 behaviour that the curvature pipeline can observe.
    numpy float64 arithmetic never raises: dividing by zero gives an infinity or NaN,
    and every ordered comparison with NaN is false. Values are exact reals here;
    rounding and the sign of zero are not modelled. */
module Float64 {

  datatype Float = Fin(v: real) | PosInf | NegInf | NaN

  /** `x > t` for a float `x` and a finite threshold `t`: strict, so a value
      equal to the threshold is not above it, and false for NaN. */
  predicate Gt(x: Float, t: real): (r: bool)
    ensures x == Fin(t) ==> !r
    ensures x == NaN ==> !r
  {
    match x
    case Fin(v) => v > t
    case PosInf => true
    case NegInf => false
    case NaN => false
  }

  /** Division of two finite values, as numpy float64 does it. */
  function DivReal(a: real, b: real): (r: Float)
    ensures b != 0.0 ==> r == Fin(a / b)
    ensures b == 0.0 ==> (r == NaN <==> a == 0.0) && (r == PosInf <==> a > 0.0) && (r == NegInf <==> a < 0.0)
  {
    if b != 0.0 then Fin(a / b)
    else if a > 0.0 then PosInf
    else if a < 0.0 then NegInf
    else NaN
  }

  /** A float divided by a finite value. */
  function Div(a: Float, b: real): (r: Float)
    ensures a == NaN ==> r == NaN
    ensures a.Fin? && b != 0.0 ==> r == Fin(a.v / b)
    ensures r.Fin? ==> a.Fin? && b != 0.0
  {
    match a
    case Fin(x) => DivReal(x, b)
    case PosInf => if b < 0.0 then NegInf else PosInf
    case NegInf => if b < 0.0 then PosInf else NegInf
    case NaN => NaN
  }

  /** `1.0 / x`. */
  function Recip(x: Float): (r: Float)
    ensures x.Fin? && x.v != 0.0 ==> r == Fin(1.0 / x.v)
    ensures x == Fin(0.0) ==> r == PosInf
    ensures x == NaN <==> r == NaN
  {
    match x
    case Fin(v) => DivReal(1.0, v)
    case PosInf => Fin(0.0)
    case NegInf => Fin(0.0)
    case NaN => NaN
  }

  /** `np.clip(x, lo, hi)`: NaN stays NaN, everything else lands in [lo, hi]. */
  function Clip(x: Float, lo: real, hi: real): (r: Float)
    requires lo <= hi
    ensures x == NaN <==> r == NaN
    ensures r.Fin? ==> lo <= r.v <= hi
    ensures x.Fin? && lo <= x.v <= hi ==> r == x
  {
    match x
    case Fin(v) => if v < lo then Fin(lo) else if v > hi then Fin(hi) else Fin(v)
    case PosInf => Fin(hi)
    case NegInf => Fin(lo)
    case NaN => NaN
  }

  /** `np.arccos(x)` given the real arccosine `acos` on [-1, 1]; outside that
      domain, and for NaN, numpy returns NaN. */
  function ArcCos(acos: real -> real, x: Float): (r: Float)
    ensures r.Fin? <==> x.Fin? && -1.0 <= x.v <= 1.0
    ensures r.Fin? ==> r.v == acos(x.v)
  {
    match x
    case Fin(v) => if -1.0 <= v <= 1.0 then Fin(acos(v)) else NaN
    case _ => NaN
  }
}
