/**
 * JavaScript numbers as the tracker uses them: the model keeps real arithmetic
 * (no IEEE rounding) but keeps the non-finite values, because invalid form input
 * still flows into the derived fields.
 */
module Numbers {

  /** A number: a finite real, one of the two infinities, or NaN. */
  datatype Num = Fin(r: real) | PosInf | NegInf | NaN

  /** `Number.isFinite(n)` */
  predicate IsFinite(n: Num)
  {
    n.Fin?
  }

  /** `n > 0` (false for NaN) */
  predicate IsPositive(n: Num)
  {
    n.PosInf? || (n.Fin? && n.r > 0.0)
  }

  /** `n < 0` (false for NaN) */
  predicate IsNegative(n: Num)
  {
    n.NegInf? || (n.Fin? && n.r < 0.0)
  }

  /** `n * -1` */
  function Negate(n: Num): Num
  {
    match n
    case Fin(x) => Fin(-x)
    case PosInf => NegInf
    case NegInf => PosInf
    case NaN => NaN
  }

  /** `n < 0 ? n * -1 : n`, the magnitude the form validation applies to an elevation gain. */
  function Magnitude(n: Num): (m: Num)
    ensures !IsNegative(m)
    ensures IsFinite(m) <==> IsFinite(n)
    ensures IsPositive(m) <==> IsPositive(n) || IsNegative(n)
    ensures n.Fin? ==> m == Fin(if n.r < 0.0 then -n.r else n.r)
  {
    if IsNegative(n) then Negate(n) else n
  }

  /** `a / b`; a zero divisor is taken as +0 (signed zero is not modelled). */
  function Div(a: Num, b: Num): Num
  {
    match (a, b)
    case (NaN, _) => NaN
    case (_, NaN) => NaN
    case (Fin(x), Fin(y)) =>
      if y != 0.0 then Fin(x / y)
      else if x > 0.0 then PosInf
      else if x < 0.0 then NegInf
      else NaN
    case (Fin(_), _) => Fin(0.0)
    case (_, Fin(y)) => if y >= 0.0 then a else Negate(a)
    case (_, _) => NaN
  }

  /** Division undoes multiplication: for a finite non-zero divisor, `(a / b) * b == a`. */
  lemma DivInverse(a: Num, b: Num)
    requires a.Fin? && b.Fin? && b.r != 0.0
    ensures Div(a, b).Fin? && Div(a, b).r * b.r == a.r
  {
  }

  /** A quotient of two finite positive numbers is finite and positive. */
  lemma DivPositive(a: Num, b: Num)
    requires IsFinite(a) && IsPositive(a) && IsFinite(b) && IsPositive(b)
    ensures IsFinite(Div(a, b)) && IsPositive(Div(a, b))
  {
  }

  /** Dividing by zero never gives a finite number. */
  lemma DivByZeroNotFinite(a: Num)
    ensures !IsFinite(Div(a, Fin(0.0)))
  {
  }
}
