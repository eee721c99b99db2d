/**
 The call-quality scorer `calculateMOS` and the colour mapping
 `getQualityColor` of src/App.jsx.

 An R-factor starts at 93.2, loses 0.2 per ms of delay above 150 ms, 25 per
 percent of packet loss and 0.1 per ms of jitter, gains 5 when QoS is on, and
 is clamped to [0, 100]. It is converted to a Mean Opinion Score (MOS) by the
 R-to-MOS mapping of Annex B of ITU-T Recommendation G.107 (the E-model), the
 MOS is clamped to [1, 5] and labelled by thresholds 4.0, 3.5, 3.0 and 2.0.
 The QoS flag, which the source reads from the component's settings, is a
 parameter here.
 */
module Scoring {
  import opened JsMath

  datatype Status = Excellent | Good | Fair | Poor | Bad

  /** The object `calculateMOS` returns: `{ mos, rFactor, status }`. */
  datatype Quality = Quality(mos: real, rFactor: int, status: Status)

  const BaselineR: real := 93.2
  const DelayThreshold: real := 150.0
  const QosBonus: real := 5.0

  /** Delay impairment: 0.2 R-points per ms beyond 150 ms, none up to 150 ms. */
  function DelayPenalty(delay: real): real
  {
    if delay > DelayThreshold then (delay - DelayThreshold) * 0.2 else 0.0
  }

  /** The R-factor before the clamp: the baseline less the three penalties, plus the QoS bonus. */
  function RawRFactor(loss: real, delay: real, jitter: real, qosEnabled: bool): real
  {
    var r := BaselineR - DelayPenalty(delay) - loss * 25.0 - jitter * 0.1;
    if qosEnabled then r + QosBonus else r
  }

  /** The R-factor clamped to the E-model's range [0, 100]. */
  function ClampR(r: real): (c: real)
    ensures 0.0 <= c <= 100.0
    ensures 0.0 <= r <= 100.0 ==> c == r
    ensures r < 0.0 ==> c == 0.0
    ensures r > 100.0 ==> c == 100.0
  {
    Max(0.0, Min(100.0, r))
  }

  /** The third-order polynomial of G.107 Annex B for 0 < R < 100. */
  function MosPolynomial(r: real): real
  {
    1.0 + 0.035 * r + r * (r - 60.0) * (100.0 - r) * 0.000007
  }

  /** The R-to-MOS mapping of G.107 Annex B, over every R. */
  function EModelMos(r: real): real
  {
    if r < 0.0 then 1.0 else if r > 100.0 then 4.5 else MosPolynomial(r)
  }

  /** The MOS clamped to [1, 5]. */
  function ClampMos(m: real): (c: real)
    ensures 1.0 <= c <= 5.0
    ensures 1.0 <= m <= 5.0 ==> c == m
    ensures m < 1.0 ==> c == 1.0
    ensures m > 5.0 ==> c == 5.0
  {
    Max(1.0, Min(5.0, m))
  }

  /** The label for a MOS, tried highest threshold first. */
  function StatusOf(mos: real): Status
  {
    if mos >= 4.0 then Excellent
    else if mos >= 3.5 then Good
    else if mos >= 3.0 then Fair
    else if mos >= 2.0 then Poor
    else Bad
  }

  /** The order of the labels, worst first. */
  function Rank(s: Status): nat
  {
    match s
    case Bad => 0
    case Poor => 1
    case Fair => 2
    case Good => 3
    case Excellent => 4
  }

  /**
   What `calculateMOS` returns: the MOS rounded to two decimals, the clamped
   R-factor rounded to a whole number, and the label of the unrounded MOS.
   */
  function Score(loss: real, delay: real, jitter: real, qosEnabled: bool): (q: Quality)
    ensures 1.0 <= q.mos <= 4.5
    ensures 0 <= q.rFactor <= 100
  {
    var r := ClampR(RawRFactor(loss, delay, jitter, qosEnabled));
    var mos := ClampMos(EModelMos(r));
    MosPolynomialAtMost(r);
    RoundHalfAwayMonotone(mos * 100.0, 450.0);
    RoundHalfAwayMonotone(100.0, mos * 100.0);
    Quality(ToFixed2(mos), Round(r), StatusOf(mos))
  }

  /**
   `calculateMOS(loss, delay, jitter)`, step by step as the source computes it,
   including the two guards of the R-to-MOS conversion and its two identical
   polynomial branches.
   */
  method CalculateMOS(loss: real, delay: real, jitter: real, qosEnabled: bool) returns (q: Quality)
    ensures q == Score(loss, delay, jitter, qosEnabled)
    ensures 1.0 <= q.mos <= 5.0 && 0 <= q.rFactor <= 100
  {
    var rFactor := 93.2;
    if delay > 150.0 {
      rFactor := rFactor - (delay - 150.0) * 0.2;
    }
    rFactor := rFactor - loss * 25.0;
    rFactor := rFactor - jitter * 0.1;
    if qosEnabled {
      rFactor := rFactor + 5.0;
    }
    rFactor := Max(0.0, Min(100.0, rFactor));

    var mos: real;
    if rFactor < 0.0 {
      mos := 1.0;
    } else if rFactor > 100.0 {
      mos := 4.5;
    } else if rFactor < 60.0 {
      mos := 1.0 + 0.035 * rFactor + rFactor * (rFactor - 60.0) * (100.0 - rFactor) * 0.000007;
    } else {
      mos := 1.0 + 0.035 * rFactor + rFactor * (rFactor - 60.0) * (100.0 - rFactor) * 0.000007;
    }
    assert mos == EModelMos(rFactor);
    mos := Max(1.0, Min(5.0, mos));

    var status: Status;
    if mos >= 4.0 {
      status := Excellent;
    } else if mos >= 3.5 {
      status := Good;
    } else if mos >= 3.0 {
      status := Fair;
    } else if mos >= 2.0 {
      status := Poor;
    } else {
      status := Bad;
    }
    assert rFactor == ClampR(RawRFactor(loss, delay, jitter, qosEnabled));
    assert status == StatusOf(mos);
    q := Quality(ToFixed2(mos), Round(rFactor), status);
  }

  /**
   `getQualityColor(mos)`: the text colour for a MOS. It uses the label
   thresholds, so for one MOS the colour is that of the MOS's label.
   */
  function QualityColor(mos: real): (c: string)
    ensures c == StatusColor(StatusOf(mos))
  {
    if mos >= 4.0 then "text-green-600"
    else if mos >= 3.5 then "text-blue-600"
    else if mos >= 3.0 then "text-yellow-600"
    else if mos >= 2.0 then "text-orange-600"
    else "text-red-600"
  }

  /** The colour that goes with each label. */
  function StatusColor(s: Status): string
  {
    match s
    case Excellent => "text-green-600"
    case Good => "text-blue-600"
    case Fair => "text-yellow-600"
    case Poor => "text-orange-600"
    case Bad => "text-red-600"
  }

  // ---------------------------------------------------------------------------
  // The R-factor before the clamp

  /** Each penalty can only lower R: more delay, loss or jitter never gives a higher R. */
  lemma RFactorNonIncreasing(loss: real, loss': real, delay: real, delay': real,
                             jitter: real, jitter': real, qosEnabled: bool)
    requires loss <= loss' && delay <= delay' && jitter <= jitter'
    ensures RawRFactor(loss', delay', jitter', qosEnabled) <= RawRFactor(loss, delay, jitter, qosEnabled)
  {
  }

  /** Up to 150 ms the delay does not matter at all. */
  lemma DelayFreeUpTo150(loss: real, delay: real, delay': real, jitter: real, qosEnabled: bool)
    requires delay <= 150.0 && delay' <= 150.0
    ensures RawRFactor(loss, delay, jitter, qosEnabled) == RawRFactor(loss, delay', jitter, qosEnabled)
  {
  }

  /** From 150 ms on, R drops by exactly 0.2 per ms of delay. */
  lemma DelaySlopeFrom150(loss: real, delay: real, delay': real, jitter: real, qosEnabled: bool)
    requires 150.0 <= delay <= delay'
    ensures RawRFactor(loss, delay', jitter, qosEnabled)
         == RawRFactor(loss, delay, jitter, qosEnabled) - (delay' - delay) * 0.2
  {
  }

  /**
   With QoS on the unclamped R is exactly 5 higher than with QoS off for the
   same inputs, so the clamped and the rounded R are never lower.
   */
  lemma QosBonusExact(loss: real, delay: real, jitter: real)
    ensures RawRFactor(loss, delay, jitter, true) == RawRFactor(loss, delay, jitter, false) + 5.0
    ensures ClampR(RawRFactor(loss, delay, jitter, true)) >= ClampR(RawRFactor(loss, delay, jitter, false))
    ensures Score(loss, delay, jitter, true).rFactor >= Score(loss, delay, jitter, false).rFactor
  {
    RoundMonotone(ClampR(RawRFactor(loss, delay, jitter, false)), ClampR(RawRFactor(loss, delay, jitter, true)));
  }

  // ---------------------------------------------------------------------------
  // The R-to-MOS conversion

  /**
   After the clamp R lies in [0, 100], so the guards for R < 0 and R > 100
   never fire and both remaining branches are the one polynomial.
   */
  lemma MosGuardsDead(raw: real)
    ensures var r := ClampR(raw); !(r < 0.0) && !(r > 100.0) && EModelMos(r) == MosPolynomial(r)
  {
  }

  /**
   On [0, 100] the polynomial never exceeds 4.5 (its value at R = 100), so the
   upper clamp of the MOS to 5 never binds.
   */
  lemma MosPolynomialAtMost(r: real)
    requires 0.0 <= r <= 100.0
    ensures MosPolynomial(r) <= 4.5
  {
    // 4.5 - MosPolynomial(r) == (100 - r) * (0.035 - 0.000007 * r * (r - 60))
    var d := 100.0 - r;
    var p := r * (r - 60.0);
    assert 4.5 - MosPolynomial(r) == d * (0.035 - 0.000007 * p);
    if r >= 60.0 {
      // r * (r - 60) <= 100 * (r - 60) <= 4000
      ProductNonNegative(d, r - 60.0);
      assert p == 100.0 * (r - 60.0) - d * (r - 60.0);
    } else {
      ProductNonNegative(r, 60.0 - r);
      assert p == -(r * (60.0 - r));
    }
    ProductNonNegative(d, 0.035 - 0.000007 * p);
  }

  /** The product of two non-negative numbers is non-negative. */
  lemma ProductNonNegative(a: real, b: real)
    requires a >= 0.0 && b >= 0.0
    ensures a * b >= 0.0
  {
  }

  /**
   Near R = 5 the polynomial falls below 1 (about 0.992), so the lower clamp
   of the MOS to 1 does bind.
   */
  lemma MosPolynomialDipsBelowOne()
    ensures MosPolynomial(5.0) < 1.0 && ClampMos(EModelMos(5.0)) == 1.0
  {
  }

  /** The clamped MOS always lies in [1, 4.5]. */
  lemma ClampedMosRange(raw: real)
    ensures 1.0 <= ClampMos(EModelMos(ClampR(raw))) <= 4.5
  {
    MosPolynomialAtMost(ClampR(raw));
  }

  // ---------------------------------------------------------------------------
  // Labels and colours

  /** Each label covers exactly one band of MOS values. */
  lemma StatusBands(mos: real)
    ensures StatusOf(mos) == Excellent <==> mos >= 4.0
    ensures StatusOf(mos) == Good <==> 3.5 <= mos < 4.0
    ensures StatusOf(mos) == Fair <==> 3.0 <= mos < 3.5
    ensures StatusOf(mos) == Poor <==> 2.0 <= mos < 3.0
    ensures StatusOf(mos) == Bad <==> mos < 2.0
  {
  }

  /** A larger MOS never gets a worse label. */
  lemma StatusMonotone(mos: real, mos': real)
    requires mos <= mos'
    ensures Rank(StatusOf(mos)) <= Rank(StatusOf(mos'))
  {
  }

  /**
   The label is taken from the unrounded MOS but the display colours it by
   the rounded MOS: loss 0.55 %, delay 20 ms and jitter 1.5 ms without QoS
   give R = 79.3 and MOS 3.99727..., labelled Good, shown as 4 in the colour
   of Excellent.
   */
  lemma StatusAndColorCanDisagree()
    ensures var q := Score(0.55, 20.0, 1.5, false);
      q.rFactor == 79 && q.mos == 4.0 && q.status == Good
      && QualityColor(q.mos) != StatusColor(q.status)
  {
    var r := ClampR(RawRFactor(0.55, 20.0, 1.5, false));
    assert r == 79.3;
    assert MosPolynomial(r) == 3.997268001;
    assert RoundHalfAway(399.7268001) == 400;
  }

  // ---------------------------------------------------------------------------
  // Examples

  /** An ideal line scores R 93 without QoS and R 98 with it, both Excellent. */
  lemma IdealLineScores()
    ensures Score(0.0, 0.0, 0.0, false) == Quality(4.41, 93, Excellent)
    ensures Score(0.0, 0.0, 0.0, true) == Quality(4.48, 98, Excellent)
  {
    assert MosPolynomial(93.2) == 4.409285824;
    assert RoundHalfAway(440.9285824) == 441;
    assert MosPolynomial(98.2) == 4.484265624;
    assert RoundHalfAway(448.4265624) == 448;
  }
}
