/**
 * The discrete environment's observation: a normalised rate in [-1, 1]
 * is mapped to one of `NumStates` buckets of width `RoundingValue`, and a
 * bucket back to the rate at its lower edge.
 */
module Buckets {

  /** The width of one bucket. */
  const RoundingValue: real := 0.05

  /** Truncation of a real toward zero, as Python's `int()` converts a float. */
  function Trunc(x: real): (n: int)
    ensures x >= 0.0 ==> n >= 0 && n as real <= x < n as real + 1.0
    ensures x < 0.0 ==> n <= 0 && n as real - 1.0 < x <= n as real
  {
    if x >= 0.0 then x.Floor else -((-x).Floor)
  }

  /** The number of buckets: the width of [-1, 1] over the bucket width. */
  const NumStates: int := Trunc(2.0 / RoundingValue)

  lemma NumStatesValue()
    ensures NumStates == 40
  {
    assert 2.0 / RoundingValue == 40.0;
  }

  /** The number of actions: short, flat, long. */
  const NumActions: int := 3

  /**
   * The bucket of a normalised rate: the truncated offset from -1 in bucket
   * widths, with the out-of-range bucket `NumStates` (reached from 1.0 up to,
   * but excluding, 1.05) moved down to the last bucket.
   */
  function StateForRate(x: real): (s: int)
    ensures -1.0 <= x <= 1.0 ==> 0 <= s < NumStates
    ensures 1.0 <= x < 1.0 + RoundingValue ==> s == NumStates - 1
  {
    var s := Trunc((x + 1.0) / RoundingValue);
    if s == NumStates then s - 1 else s
  }

  /** The normalised rate at the lower edge of bucket `s`. */
  function RateForState(s: int): (x: real)
    ensures (x + 1.0) / RoundingValue == s as real
    ensures 0 <= s < NumStates ==> -1.0 <= x < 1.0
  {
    s as real * RoundingValue - 1.0
  }

  /** Larger rates never fall into lower buckets. */
  lemma StateMonotone(x: real, y: real)
    requires x <= y
    ensures StateForRate(x) <= StateForRate(y)
  {
    var a, b := (x + 1.0) / RoundingValue, (y + 1.0) / RoundingValue;
    assert a <= b;
    if a >= 0.0 {
      assert a.Floor <= b.Floor;
    } else if b < 0.0 {
      assert (-b).Floor <= (-a).Floor;
    }
  }

  /** Every bucket's lower edge lies in that bucket. */
  lemma StateOfRateForState(s: int)
    requires 0 <= s < NumStates
    ensures StateForRate(RateForState(s)) == s
  {
    NumStatesValue();
    assert (RateForState(s) + 1.0) / RoundingValue == s as real;
    assert (s as real).Floor == s;
  }

  /**
   * Below 1.0, a normalised rate falls into bucket `s` exactly when it lies
   * in the half-open interval of width `RoundingValue` starting at the edge
   * of `s`.
   */
  lemma StateIffInBucket(x: real, s: int)
    requires -1.0 <= x < 1.0 && 0 <= s < NumStates
    ensures StateForRate(x) == s <==> RateForState(s) <= x < RateForState(s) + RoundingValue
  {
    NumStatesValue();
    var a := (x + 1.0) / RoundingValue;
    assert 0.0 <= a < 40.0;
    assert StateForRate(x) == a.Floor;
    assert RateForState(s) <= x <==> s as real <= a;
    assert x < RateForState(s) + RoundingValue <==> a < s as real + 1.0;
  }

  /** The reset observation of the discrete environment: a zero normalised rate is bucket 20. */
  lemma ZeroRateState()
    ensures StateForRate(0.0) == 20
  {
    NumStatesValue();
    assert (0.0 + 1.0) / RoundingValue == 20.0;
  }

  /** Action `a` of {0, 1, 2} stands for position `a - 1` of {-1, 0, 1}. */
  function PositionForAction(a: int): (p: int)
    ensures 0 <= a < NumActions <==> -1 <= p <= 1
    ensures a == 1 <==> p == 0
  {
    a - 1
  }
}
