/**
 * JavaScript numbers as the statistics accumulator uses them, with exact
 * arithmetic: a finite value is a `real` (no rounding), and the two
 * infinities and NaN are kept as separate cases so that the sentinels
 * `-Infinity`/`Infinity` and the NaN produced by `undefined` operands or by a
 * division by a zero count behave as they do in the source.
 */
module Numbers {

  /** A JavaScript number without rounding. */
  datatype Num = NaN | NegInf | Fin(r: real) | PosInf

  /** The sign of a number that is not NaN: -1, 0 or 1. */
  function Sign(a: Num): (s: int)
    requires !a.NaN?
    ensures -1 <= s <= 1
    ensures s == 0 <==> a == Fin(0.0)
    ensures a.Fin? ==> (s < 0 <==> a.r < 0.0)
  {
    match a
    case NegInf => -1
    case PosInf => 1
    case Fin(x) => if x < 0.0 then -1 else if x == 0.0 then 0 else 1
  }

  /** Unary minus. */
  function Neg(a: Num): (r: Num)
    ensures r.NaN? <==> a.NaN?
    ensures a.Fin? ==> r == Fin(-a.r)
  {
    match a
    case NaN => NaN
    case NegInf => PosInf
    case Fin(x) => Fin(-x)
    case PosInf => NegInf
  }

  /** `a + b`: NaN absorbs, opposite infinities give NaN, an infinity absorbs a finite value. */
  function Add(a: Num, b: Num): (r: Num)
    ensures a.Fin? && b.Fin? ==> r == Fin(a.r + b.r)
    ensures (a.NaN? || b.NaN?) ==> r.NaN?
  {
    if a.NaN? || b.NaN? then NaN
    else if (a.PosInf? && b.NegInf?) || (a.NegInf? && b.PosInf?) then NaN
    else if a.PosInf? || b.PosInf? then PosInf
    else if a.NegInf? || b.NegInf? then NegInf
    else Fin(a.r + b.r)
  }

  /** `a - b`. */
  function Sub(a: Num, b: Num): (r: Num)
    ensures a.Fin? && b.Fin? ==> r == Fin(a.r - b.r)
    ensures (a.NaN? || b.NaN?) ==> r.NaN?
  {
    Add(a, Neg(b))
  }

  /** `a * b`: zero times an infinity is NaN, otherwise the signs multiply. */
  function Mul(a: Num, b: Num): (r: Num)
    ensures a.Fin? && b.Fin? ==> r == Fin(a.r * b.r)
    ensures (a.NaN? || b.NaN?) ==> r.NaN?
  {
    if a.NaN? || b.NaN? then NaN
    else if a.Fin? && b.Fin? then Fin(a.r * b.r)
    else if Sign(a) == 0 || Sign(b) == 0 then NaN
    else if Sign(a) == Sign(b) then PosInf
    else NegInf
  }

  /**
   * `a / n` for a sample count `n`. Dividing by a zero count gives NaN for
   * zero and NaN, and an infinity of the dividend's sign otherwise.
   */
  function Div(a: Num, n: nat): (r: Num)
    ensures n > 0 && a.Fin? ==> r == Fin(a.r / n as real)
    ensures n == 0 && (a == Fin(0.0) || a.NaN?) ==> r.NaN?
    ensures a.NaN? ==> r.NaN?
  {
    if a.NaN? then NaN
    else if n == 0 then (if Sign(a) == 0 then NaN else if Sign(a) > 0 then PosInf else NegInf)
    else if a.Fin? then Fin(a.r / n as real)
    else a
  }

  /**
   * `a < b`: false whenever either side is NaN; otherwise the order
   * -Infinity < every finite value < Infinity.
   */
  predicate Less(a: Num, b: Num)
    ensures Less(a, b) ==> !a.NaN? && !b.NaN? && a != b && !a.PosInf? && !b.NegInf?
  {
    if a.NaN? || b.NaN? then false
    else if a.Fin? && b.Fin? then a.r < b.r
    else (a.NegInf? && !b.NegInf?) || (!a.PosInf? && b.PosInf?)
  }

  /** `Math.min(a, b)`: NaN if either argument is NaN, otherwise the smaller one. */
  function MathMin(a: Num, b: Num): (r: Num)
    ensures r.NaN? <==> (a.NaN? || b.NaN?)
    ensures !r.NaN? ==> !Less(a, r) && !Less(b, r) && (r == a || r == b)
  {
    if a.NaN? || b.NaN? then NaN
    else if Less(b, a) then b
    else a
  }

  /** `Less` is a strict total order on the numbers that are not NaN. */
  lemma LessTrichotomy(a: Num, b: Num)
    requires !a.NaN? && !b.NaN?
    ensures Less(a, b) || a == b || Less(b, a)
    ensures !(Less(a, b) && Less(b, a))
  {
  }

  /** `!(m < a)` and `m < b` give `a < b`. */
  lemma LessAfterNotLess(a: Num, m: Num, b: Num)
    requires !a.NaN? && !m.NaN? && !b.NaN?
    requires !Less(m, a) && Less(m, b)
    ensures Less(a, b)
  {
  }

  /** `!(a < b)` and `!(b < c)` give `!(a < c)`. */
  lemma NotLessTrans(a: Num, b: Num, c: Num)
    requires !a.NaN? && !b.NaN? && !c.NaN?
    requires !Less(a, b) && !Less(b, c)
    ensures !Less(a, c)
  {
  }
}
