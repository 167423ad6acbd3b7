/** Threshold classification of the five lab metrics and of the overall
    performance score, as done while building the audit result. */
module Metrics {

  /** The three buckets reported for every metric and for the whole page. */
  datatype Category = Good | NeedsImprovement | Poor {

    /** Position in the order best-to-worst. */
    function Rank(): nat {
      match this
      case Good => 0
      case NeedsImprovement => 1
      case Poor => 2
    }

    /** The string the service puts in its response. */
    function Label(): string {
      match this
      case Good => "GOOD"
      case NeedsImprovement => "NEEDS IMPROVEMENT"
      case Poor => "POOR"
    }
  }

  /** `a` is at least as good as `b`. */
  predicate NoWorse(a: Category, b: Category) {
    a.Rank() <= b.Rank()
  }

  /** The five lab metrics. Interaction to next paint is fed from the total
      blocking time audit and time to first byte from the server response
      time audit. */
  datatype Metric =
    | FirstContentfulPaint
    | LargestContentfulPaint
    | CumulativeLayoutShift
    | InteractionToNextPaint
    | TimeToFirstByte

  /** Upper bounds (both inclusive) of the GOOD and NEEDS IMPROVEMENT bands.
      Times are in milliseconds; layout shift is a unitless score. */
  datatype Limits = Limits(good: real, needsImprovement: real)

  function LimitsOf(m: Metric): (l: Limits)
    ensures 0.0 < l.good < l.needsImprovement
  {
    match m
    case FirstContentfulPaint => Limits(1800.0, 3000.0)
    case LargestContentfulPaint => Limits(2500.0, 4000.0)
    case CumulativeLayoutShift => Limits(0.1, 0.25)
    case InteractionToNextPaint => Limits(200.0, 500.0)
    case TimeToFirstByte => Limits(800.0, 1800.0)
  }

  /** The category of a raw metric value: the nested conditional
      `v <= good ? GOOD : v <= ni ? NEEDS IMPROVEMENT : POOR`. */
  function Classify(m: Metric, v: real): (c: Category)
    ensures c == Good <==> v <= LimitsOf(m).good
    ensures c == NeedsImprovement <==> LimitsOf(m).good < v <= LimitsOf(m).needsImprovement
    ensures c == Poor <==> LimitsOf(m).needsImprovement < v
  {
    var l := LimitsOf(m);
    if v <= l.good then Good
    else if v <= l.needsImprovement then NeedsImprovement
    else Poor
  }

  /** The page category from the tool's 0-1 performance score; both
      boundaries count towards the better category. */
  function Overall(score: real): (c: Category)
    ensures c == Good <==> 0.9 <= score
    ensures c == NeedsImprovement <==> 0.5 <= score < 0.9
    ensures c == Poor <==> score < 0.5
  {
    if score >= 0.9 then Good
    else if score >= 0.5 then NeedsImprovement
    else Poor
  }

  /** The threshold table, written out with its literal constants. */
  lemma ThresholdTable(v: real)
    ensures Classify(FirstContentfulPaint, v) == Good <==> v <= 1800.0
    ensures Classify(FirstContentfulPaint, v) == Poor <==> 3000.0 < v
    ensures Classify(LargestContentfulPaint, v) == Good <==> v <= 2500.0
    ensures Classify(LargestContentfulPaint, v) == Poor <==> 4000.0 < v
    ensures Classify(CumulativeLayoutShift, v) == Good <==> v <= 0.1
    ensures Classify(CumulativeLayoutShift, v) == Poor <==> 0.25 < v
    ensures Classify(InteractionToNextPaint, v) == Good <==> v <= 200.0
    ensures Classify(InteractionToNextPaint, v) == Poor <==> 500.0 < v
    ensures Classify(TimeToFirstByte, v) == Good <==> v <= 800.0
    ensures Classify(TimeToFirstByte, v) == Poor <==> 1800.0 < v
  {
  }

  /** A larger (worse) metric value never yields a better category. */
  lemma ClassifyMonotone(m: Metric, a: real, b: real)
    requires a <= b
    ensures NoWorse(Classify(m, a), Classify(m, b))
  {
  }

  /** A higher performance score never yields a worse overall category. */
  lemma OverallMonotone(a: real, b: real)
    requires a <= b
    ensures NoWorse(Overall(b), Overall(a))
  {
  }

  /** The exact boundary values fall into the better category. */
  lemma OverallBoundaries()
    ensures Overall(0.9) == Good
    ensures Overall(0.5) == NeedsImprovement
    ensures forall s :: s < 0.5 ==> Overall(s) == Poor
  {
  }

  /** Distinct categories are reported under distinct labels. */
  lemma LabelInjective(a: Category, b: Category)
    requires a.Label() == b.Label()
    ensures a == b
  {
  }
}
