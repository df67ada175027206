/** The advisory quality score of a transformation (`assess_quality`):
    three fixed increments for a plausible length ratio, an emotion word and
    a display-friendly length, capped at 1.0. Scores are exact reals. */
module Quality {
  import opened Text

  const EmotionWords: seq<string> := ["ελπίδα", "δύναμη", "αντοχή", "αγάπη", "υποστήριξη"]

  const RatioWeight: real := 0.3
  const EmotionWeight: real := 0.4
  const LengthWeight: real := 0.3

  /** `max(len(original), 1)`: the divisor of the length ratio, never zero. */
  function Divisor(original: string): (d: nat)
    ensures d >= 1 && d >= |original|
    ensures d == 1 || d == |original|
  {
    if |original| > 1 then |original| else 1
  }

  function LengthRatio(original: string, transformed: string): real {
    (|transformed| as real) / (Divisor(original) as real)
  }

  /** The ratio falls within [0.3, 1.5]. */
  predicate RatioOk(original: string, transformed: string) {
    0.3 <= LengthRatio(original, transformed) <= 1.5
  }

  /** The ratio test in integers: 3·d ≤ 10·|t| ≤ 15·d for the divisor d. */
  lemma RatioOkCrossMultiplied(original: string, transformed: string)
    ensures RatioOk(original, transformed)
        <==> 3 * Divisor(original) <= 10 * |transformed| <= 15 * Divisor(original)
  {
    var dn, tn := Divisor(original), |transformed|;
    QuotientBounds(tn as real, dn as real);
    assert 0.3 * (dn as real) <= tn as real <==> 3 * dn <= 10 * tn;
    assert tn as real <= 1.5 * (dn as real) <==> 10 * tn <= 15 * dn;
  }

  /** For a positive divisor, 0.3 <= t / d <= 1.5 is 0.3·d <= t <= 1.5·d. */
  lemma QuotientBounds(t: real, d: real)
    requires d > 0.0
    ensures 0.3 <= t / d <= 1.5 <==> 0.3 * d <= t <= 1.5 * d
  {
    var q := t / d;
    assert q * d == t;
    ScaleKeepsOrder(0.3, q, d);
    ScaleKeepsOrder(q, 1.5, d);
  }

  lemma ScaleKeepsOrder(a: real, b: real, d: real)
    requires d > 0.0
    ensures a <= b <==> a * d <= b * d
  {
    assert (b - a) * d == b * d - a * d;
  }

  /** An empty original divides by one, so only a one-character result has
      a plausible ratio. */
  lemma EmptyOriginalRatio(transformed: string)
    ensures RatioOk("", transformed) <==> |transformed| == 1
  {
    RatioOkCrossMultiplied("", transformed);
  }

  predicate HasEmotion(transformed: string) {
    AnyContains(Lower(transformed), EmotionWords)
  }

  predicate AppropriateLength(transformed: string) {
    50 <= |transformed| <= 300
  }

  function Bonus(b: bool, weight: real): real {
    if b then weight else 0.0
  }

  /** `assess_quality`: the weighted sum of the three criteria, which never
      exceeds 1.0, so the cap leaves it unchanged; a score in [0, 1] taking
      one of six values, from which the emotion test and the all/none cases
      can be read back. */
  function AssessQuality(original: string, transformed: string): (q: real)
    ensures q == (if RatioOk(original, transformed) then 0.3 else 0.0)
               + (if HasEmotion(transformed) then 0.4 else 0.0)
               + (if AppropriateLength(transformed) then 0.3 else 0.0)
    ensures 0.0 <= q <= 1.0
    ensures q in {0.0, 0.3, 0.4, 0.6, 0.7, 1.0}
    ensures HasEmotion(transformed) <==> q in {0.4, 0.7, 1.0}
    ensures q == 1.0 <==> RatioOk(original, transformed) && HasEmotion(transformed) && AppropriateLength(transformed)
    ensures q == 0.0 <==> !RatioOk(original, transformed) && !HasEmotion(transformed) && !AppropriateLength(transformed)
  {
    var score := Bonus(RatioOk(original, transformed), RatioWeight)
      + Bonus(HasEmotion(transformed), EmotionWeight)
      + Bonus(AppropriateLength(transformed), LengthWeight);
    if score < 1.0 then score else 1.0
  }
}
