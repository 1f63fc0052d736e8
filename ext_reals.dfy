/** Floating-point values with the two infinities that the source writes as `-np.inf`
    and `np.inf`. A finite value is an exact real: rounding and NaN are not modelled. */
module ExtReals {

  datatype ExtReal = NegInf | Fin(r: real) | PosInf

  /** Python's `a <= b` on floats. */
  predicate Leq(a: ExtReal, b: ExtReal)
  {
    match (a, b)
    case (NegInf, _) => true
    case (_, PosInf) => true
    case (Fin(x), Fin(y)) => x <= y
    case _ => false
  }

  /** Python's `a < b` on floats. */
  predicate Less(a: ExtReal, b: ExtReal)
  {
    Leq(a, b) && a != b
  }

  /** `Leq` is a total order: these three facts are what the form and the task code rely on
      when they compare bounds. */
  lemma LeqTotalOrder(a: ExtReal, b: ExtReal, c: ExtReal)
    ensures Leq(a, a)
    ensures Leq(a, b) && Leq(b, a) ==> a == b
    ensures Leq(a, b) && Leq(b, c) ==> Leq(a, c)
    ensures Leq(a, b) || Leq(b, a)
  {
  }

  /** `a < b` is exactly "not `b <= a`", which is how the source's `if upper < lower: raise`
      reads as "upper >= lower or error". */
  lemma LessIsNotLeq(a: ExtReal, b: ExtReal)
    ensures Less(a, b) <==> !Leq(b, a)
  {
  }
}
