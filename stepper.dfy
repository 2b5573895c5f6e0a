/**
 * The quantity stepper beside each product: the minus button lowers the
 * shown quantity but never below zero, the plus button raises it by one.
 */
module Stepper {

  datatype Button = Minus | Plus

  /** The quantity shown after one press of `b` on a stepper showing `q`. */
  function Step(q: int, b: Button): (r: int)
    ensures b == Minus ==> 0 <= r && (q > 0 ==> r < q)
    ensures q >= 0 ==> r >= 0
  {
    match b
    case Minus => if q > 0 then q - 1 else 0
    case Plus => q + 1
  }

  /** Minus undoes plus on every quantity the stepper can show, plus undoes minus above zero, and zero is where minus stops. */
  lemma StepInverse(q: nat)
    ensures Step(Step(q, Plus), Minus) == q
    ensures q > 0 ==> Step(Step(q, Minus), Plus) == q
    ensures Step(0, Minus) == 0
  {
  }

  /** The quantity shown after pressing minus n times, starting from q. */
  function PressMinus(q: int, n: nat): int {
    if n == 0 then q else Step(PressMinus(q, n - 1), Minus)
  }

  /** Each press of minus takes one off until zero is reached; further presses stay at zero. */
  lemma {:induction false} MinusStopsAtZero(q: nat, n: nat)
    ensures PressMinus(q, n) == if n <= q then q - n else 0
  {
    if n > 0 {
      MinusStopsAtZero(q, n - 1);
    }
  }
}
