/**
 * Rate scaling: raw interest rates are mapped to a normalised scale on which
 * the expected band of +/-0.2% per 4h interval becomes [-1, 1], and back.
 */
module Rates {

  /** The constant subtracted and re-added by the normalisation formula. */
  const Center: real := 0.002
  /** The divisor of the normalisation: the largest expected magnitude of a raw rate. */
  const HalfRange: real := 0.002

  /** The normalised value of a raw rate, written as the repository writes it. */
  function Normalize(r: real): (n: real)
    ensures n == r / HalfRange
    ensures Unscale(n) == r
  {
    (r - Center) / HalfRange + 1.0
  }

  /** The raw rate a normalised value stands for (the inverse of `Normalize`). */
  function Unscale(n: real): (r: real)
    ensures r == n * HalfRange
  {
    (n - 1.0) * HalfRange + Center
  }

  /** Unscaling and then normalising gives back the normalised value. */
  lemma NormalizeUnscale(n: real)
    ensures Normalize(Unscale(n)) == n
  {
  }

  /** Normalisation is strictly monotone, so it is injective and order preserving. */
  lemma NormalizeMonotone(r: real, r': real)
    ensures r < r' <==> Normalize(r) < Normalize(r')
    ensures r == r' <==> Normalize(r) == Normalize(r')
  {
  }

  /**
   * The reference points: a zero rate is 0, and the band [-0.002, 0.002]
   * is exactly the set of raw rates whose normalised value lies in [-1, 1].
   */
  lemma NormalizeBand(r: real)
    ensures Normalize(0.0) == 0.0
    ensures Normalize(HalfRange) == 1.0 && Normalize(-HalfRange) == -1.0
    ensures -HalfRange <= r <= HalfRange <==> -1.0 <= Normalize(r) <= 1.0
  {
  }
}
