/** Double-precision values as far as ordering is concerned. */
module Floats {

  /** A double: NaN, one of the two infinities, or a finite value (taken exactly). */
  datatype Float = NaN | NegInf | Fin(r: real) | PosInf

  /** IEEE 754 `<`: false as soon as either side is NaN. */
  predicate Lt(a: Float, b: Float) {
    match a
    case NaN => false
    case NegInf => b.Fin? || b.PosInf?
    case Fin(x) => (b.Fin? && x < b.r) || b.PosInf?
    case PosInf => false
  }

  /** IEEE 754 `<=`: false as soon as either side is NaN. */
  predicate Le(a: Float, b: Float) {
    Lt(a, b) || (!a.NaN? && a == b)
  }

  /** On non-NaN values the order is total: `!(a < b)` is `b <= a`. */
  lemma NotLtIsLe(a: Float, b: Float)
    requires !a.NaN? && !b.NaN?
    ensures !Lt(a, b) <==> Le(b, a)
  {
  }

  lemma LtLeTrans(a: Float, b: Float, c: Float)
    ensures Lt(a, b) && Le(b, c) ==> Lt(a, c)
    ensures Le(a, b) && Lt(b, c) ==> Lt(a, c)
    ensures Le(a, b) && Le(b, c) ==> Le(a, c)
  {
  }
}
