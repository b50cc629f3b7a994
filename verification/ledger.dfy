/**
 * The portfolio ledger: the proportional transaction fee and the two orders
 * in which the environments apply it together with the interest accrual.
 */
module Ledger {

  /** The fee per unit of position change: 0.075%. */
  const FeeRate: real := 0.075 / 100.0

  function Abs(x: real): (a: real)
    ensures a >= 0.0 && (a == x || a == -x)
  {
    if x < 0.0 then -x else x
  }

  /**
   * The fee for moving from position `pos0` to position `action`: proportional
   * to the size of the change, whatever its direction.
   */
  function Fee(action: real, pos0: real): (f: real)
    ensures f >= 0.0
    ensures f == 0.0 <==> action == pos0
    ensures f * (1.0 / FeeRate) == Abs(action - pos0)
  {
    Abs(action - pos0) * FeeRate
  }

  /** Moving in one direction costs the same as moving back. */
  lemma FeeSymmetric(a: real, b: real)
    ensures Fee(a, b) == Fee(b, a)
  {
  }

  /** Between positions in [-1, 1], the fee is at most twice the fee rate. */
  lemma FeeBound(action: real, pos0: real)
    requires -1.0 <= action <= 1.0 && -1.0 <= pos0 <= 1.0
    ensures Fee(action, pos0) <= 2.0 * FeeRate
  {
  }

  /**
   * The continuous environment's update: interest is accrued on the position
   * held before the action, then the fee for the change is charged.
   */
  function AccrueThenCharge(value0: real, pos0: real, action: real, rate: real): (v: real)
    ensures pos0 == 0.0 ==> v == value0 * (1.0 - Fee(action, pos0))
    ensures action == pos0 ==> v == value0 * (1.0 + rate * pos0)
  {
    var accrued := value0 * (1.0 + rate * pos0);
    accrued * (1.0 - Fee(action, pos0))
  }

  /**
   * The discrete environment's update: the fee for the change is charged
   * first, then interest is accrued on the position held before the action.
   */
  function ChargeThenAccrue(value0: real, pos0: real, action: real, rate: real): (v: real)
    ensures pos0 == 0.0 ==> v == value0 * (1.0 - Fee(action, pos0))
    ensures action == pos0 ==> v == value0 * (1.0 + rate * pos0)
  {
    var charged := value0 * (1.0 - Fee(action, pos0));
    charged * (1.0 + rate * pos0)
  }

  /** Over exact reals the two orders give the same value: the factors commute. */
  lemma OrdersAgree(value0: real, pos0: real, action: real, rate: real)
    ensures AccrueThenCharge(value0, pos0, action, rate) == ChargeThenAccrue(value0, pos0, action, rate)
  {
  }

  /** A rate below 100% in magnitude, scaled by a position in [-1, 1], stays below 100%. */
  lemma ScaledRateBelowOne(rate: real, pos: real)
    requires -1.0 < rate < 1.0 && -1.0 <= pos <= 1.0
    ensures -1.0 < rate * pos < 1.0
  {
    var m := Abs(rate);
    var n := Abs(pos);
    assert m * n <= m by {
      assert m * (1.0 - n) >= 0.0;
    }
    assert Abs(rate * pos) == m * n;
  }

  /**
   * A positive value stays positive when the rate is below 100% in
   * magnitude and both positions are in [-1, 1].
   */
  lemma UpdateKeepsPositive(value0: real, pos0: real, action: real, rate: real)
    requires value0 > 0.0
    requires -1.0 < rate < 1.0
    requires -1.0 <= pos0 <= 1.0 && -1.0 <= action <= 1.0
    ensures ChargeThenAccrue(value0, pos0, action, rate) > 0.0
    ensures AccrueThenCharge(value0, pos0, action, rate) > 0.0
  {
    FeeBound(action, pos0);
    var charged := value0 * (1.0 - Fee(action, pos0));
    assert charged > 0.0;
    ScaledRateBelowOne(rate, pos0);
    var growth := 1.0 + rate * pos0;
    assert growth > 0.0;
    assert charged * growth > 0.0;
    assert ChargeThenAccrue(value0, pos0, action, rate) == charged * growth;
    OrdersAgree(value0, pos0, action, rate);
  }
}
