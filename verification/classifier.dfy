/** The threshold policy that turns a VADER compound score into one of three
    sentiment labels, and the two-decimal rounding used only when a score is
    shown next to its label. Scores and thresholds are exact reals. */
module Classifier {

  /** The three labels the feed view prints. */
  datatype Label = Positive | Neutral | Negative

  /** Scores strictly above this are positive. */
  const PositiveThreshold: real := 0.05
  /** Scores strictly below this are negative. */
  const NegativeThreshold: real := -0.05

  /** Position of a label in the order Negative < Neutral < Positive. */
  function Rank(l: Label): int
  {
    match l
    case Negative => -1
    case Neutral => 0
    case Positive => 1
  }

  /** The label chosen for a compound score: the outer bounds are strict, so
      both thresholds themselves are neutral. */
  function Classify(score: real): (l: Label)
    ensures l == Positive <==> score > PositiveThreshold
    ensures l == Negative <==> score < NegativeThreshold
    ensures l == Neutral <==> NegativeThreshold <= score <= PositiveThreshold
  {
    if score > PositiveThreshold then Positive
    else if score < NegativeThreshold then Negative
    else Neutral
  }

  /** Both thresholds are neutral scores. */
  lemma ThresholdsAreNeutral()
    ensures Classify(0.05) == Neutral
    ensures Classify(-0.05) == Neutral
  {
  }

  /** Any score past a threshold, however slightly, leaves the neutral band. */
  lemma JustPastThresholds(eps: real)
    requires eps > 0.0
    ensures Classify(0.05 + eps) == Positive
    ensures Classify(-0.05 - eps) == Negative
  {
  }

  /** A higher score never gets a less positive label. */
  lemma ClassifyMonotone(s1: real, s2: real)
    requires s1 <= s2
    ensures Rank(Classify(s1)) <= Rank(Classify(s2))
  {
  }

  /** The label with the opposite polarity. */
  function Mirror(l: Label): Label
  {
    match l
    case Positive => Negative
    case Negative => Positive
    case Neutral => Neutral
  }

  /** The thresholds are symmetric around zero, so negating a score mirrors its label. */
  lemma ClassifyAntisymmetric(s: real)
    ensures Classify(-s) == Mirror(Classify(s))
    ensures Rank(Classify(-s)) == -Rank(Classify(s))
  {
  }

  /** The text the view prints for a label. */
  function LabelName(l: Label): string
  {
    match l
    case Positive => "Positive"
    case Neutral => "Neutral"
    case Negative => "Negative"
  }

  /** The three printed words are distinct, so the printed word tells which
      branch of the threshold chain was taken. */
  lemma LabelNameInjective(a: Label, b: Label)
    requires LabelName(a) == LabelName(b)
    ensures a == b
  {
    assert LabelName(a)[0] == LabelName(b)[0];
  }

  /** A score rounded to two decimal places, ties to the even hundredth. */
  function Round2(score: real): (shown: real)
    ensures (shown * 100.0).Floor as real == shown * 100.0
    ensures -0.005 <= shown - score <= 0.005
  {
    var scaled := score * 100.0;
    var k := scaled.Floor;
    var frac := scaled - k as real;
    var n := if frac < 0.5 then k
             else if frac > 0.5 then k + 1
             else if k % 2 == 0 then k else k + 1;
    n as real / 100.0
  }

  /** Rounding before classifying would move scores across a threshold: 0.054 is
      labelled Positive but would be shown as 0.05, which on its own is Neutral. */
  lemma RoundingWouldChangeLabel()
    ensures Classify(0.054) == Positive
    ensures Round2(0.054) == 0.05
    ensures Classify(Round2(0.054)) == Neutral
  {
    var scaled := 0.054 * 100.0;
    assert scaled == 5.4;
    assert scaled.Floor == 5;
  }
}
