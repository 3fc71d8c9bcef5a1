/** The numbers of the bignumber.js library as the participant code uses them: plus and minus are exact,
  * text that is not a number parses to NaN, and the two infinities are numbers too. */
module Decimals {
  datatype Num = NaN | NegInf | PosInf | Fin(value: real)

  const ZERO := Fin(0.0)

  function Negate(a: Num): Num {
    match a
    case NaN => NaN
    case NegInf => PosInf
    case PosInf => NegInf
    case Fin(x) => Fin(-x)
  }

  function Plus(a: Num, b: Num): Num {
    match (a, b)
    case (NaN, _) => NaN
    case (_, NaN) => NaN
    case (Fin(x), Fin(y)) => Fin(x + y)
    case (NegInf, PosInf) => NaN
    case (PosInf, NegInf) => NaN
    case (NegInf, _) => NegInf
    case (PosInf, _) => PosInf
    case (_, _) => b
  }

  function Minus(a: Num, b: Num): Num {
    Plus(a, Negate(b))
  }

  /** A comparison with NaN is false. */
  predicate Less(a: Num, b: Num) {
    match (a, b)
    case (NaN, _) => false
    case (_, NaN) => false
    case (Fin(x), Fin(y)) => x < y
    case (NegInf, _) => b != NegInf
    case (PosInf, _) => false
    case (_, _) => b == PosInf
  }

  predicate AtMost(a: Num, b: Num) {
    Less(a, b) || (a == b && a != NaN)
  }

  /** A number that can be reserved: finite and greater than zero. */
  predicate Positive(a: Num) {
    a.Fin? && a.value > 0.0
  }

  // ---------- what the operations mean ----------

  /** The order of the real numbers with an infinity at either end. */
  predicate Below(a: Num, b: Num) {
    && a != NaN && b != NaN && a != b
    && (a == NegInf || b == PosInf || (a.Fin? && b.Fin? && a.value < b.value))
  }

  lemma ComparisonsAreOrder(a: Num, b: Num)
    ensures Less(a, b) <==> Below(a, b)
    ensures AtMost(a, b) <==> a != NaN && b != NaN && !Below(b, a)
    ensures Positive(a) <==> Below(Fin(0.0), a) && a != PosInf
  {
  }

  /** Sums and differences are exact; only opposite infinities cancel to no number. */
  lemma SumsAreExact(a: Num, b: Num)
    ensures a.Fin? && b.Fin? ==> Plus(a, b) == Fin(a.value + b.value) && Minus(a, b) == Fin(a.value - b.value)
    ensures Plus(a, b) == NaN <==> a == NaN || b == NaN || (a == PosInf && b == NegInf) || (a == NegInf && b == PosInf)
    ensures Minus(a, b) == NaN <==> a == NaN || b == NaN || (a == b && !a.Fin?)
    ensures (a == PosInf || a == NegInf) && b.Fin? ==> Plus(a, b) == Minus(a, b) == a
    ensures a.Fin? && (b == PosInf || b == NegInf) ==> Plus(a, b) == b && Minus(a, b) == Minus(Fin(0.0), b) != b
  {
  }
}
