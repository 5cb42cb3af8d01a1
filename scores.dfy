/**
 * The percentage scores of an answer: confidence and stress, which are
 * recorded with each answer, and truthfulness, which the program defines but
 * never computes or shows, are weighted sums of a reading's fields, rounded
 * and clamped to 0..100; gaze stability is an unclamped percentage; the
 * overall result is the rounded mean of the per-question scores, banded into
 * high, medium and low.
 */
module Scores {
  import opened Numbers
  import opened Wrappers
  import opened Metrics

  function Abs(x: real): (r: real)
    ensures r >= 0.0 && (r == x || r == -x)
  {
    if x < 0.0 then -x else x
  }

  function Max0(x: real): (r: real)
    ensures r >= 0.0 && r >= x
  {
    if x > 0.0 then x else 0.0
  }

  /** How far the gaze is from the centre, 0.5. */
  function GazeOffset(m: Metrics): real
  {
    Abs(m.gazeDirection - 0.5)
  }

  /** `|yaw| + |pitch|`. */
  function HeadMovement(m: Metrics): real
  {
    Abs(m.headPose.yaw) + Abs(m.headPose.pitch)
  }

  /** The blink rate above the baseline's, doubled, and never negative. */
  function BlinkExcess(m: Metrics, baseline: Metrics): real
  {
    Max0((m.blinkRate - baseline.blinkRate) as real * 2.0)
  }

  /** The unrounded sum built up in `calculateConfidenceScore`. */
  function ConfidenceRaw(m: Metrics): real
  {
    var e := m.emotions;
    55.0 + e.neutral * 20.0 + e.happy * 40.0 - e.fearful * 25.0 - e.sad * 15.0
      - e.surprised * 10.0 - e.angry * 8.0
      - GazeOffset(m) * 10.0 - HeadMovement(m) * 5.0 - m.lipTension * 5.0
  }

  /** `calculateConfidenceScore(metrics)`. */
  function ConfidenceScore(m: Metrics): (r: int)
    ensures IsPercentOf(ConfidenceRaw(m), r)
  {
    Percent(ConfidenceRaw(m))
  }

  /**
   * The unrounded sum built up in `calculateStressScore`; the blink term is
   * present only once a baseline has been recorded.
   */
  function StressRaw(m: Metrics, baseline: Option<Metrics>): real
  {
    var e := m.emotions;
    15.0 + e.fearful * 40.0 + e.surprised * 20.0 + e.angry * 25.0 + e.sad * 20.0 + e.disgusted * 15.0
      + (if baseline.Some? then BlinkExcess(m, baseline.value) else 0.0)
      + GazeOffset(m) * 20.0 + m.lipTension * 15.0 + HeadMovement(m) * 10.0
  }

  /** `calculateStressScore(metrics)` with `this.baselineMetrics` passed as `baseline`. */
  function StressScore(m: Metrics, baseline: Option<Metrics>): (r: int)
    ensures IsPercentOf(StressRaw(m, baseline), r)
  {
    Percent(StressRaw(m, baseline))
  }

  /**
   * The unrounded sum built up in `calculateTruthScore`; with a baseline, a
   * rise in blink rate and any change of eyebrow height are subtracted.
   */
  function TruthRaw(m: Metrics, baseline: Option<Metrics>): real
  {
    var e := m.emotions;
    55.0 + e.neutral * 25.0 + e.happy * 15.0 - e.fearful * 30.0 - e.surprised * 10.0
      - e.angry * 15.0 - e.sad * 10.0
      - GazeOffset(m) * 25.0 - m.lipTension * 10.0
      - (if baseline.Some? then
           BlinkExcess(m, baseline.value) + Abs(m.eyebrowHeight - baseline.value.eyebrowHeight) * 50.0
         else 0.0)
  }

  /** `calculateTruthScore(metrics)`: 50 when there are no metrics. */
  function TruthScore(m: Option<Metrics>, baseline: Option<Metrics>): (r: int)
    ensures m.None? ==> r == 50
    ensures m.Some? ==> IsPercentOf(TruthRaw(m.value, baseline), r)
  {
    if m.None? then 50 else Percent(TruthRaw(m.value, baseline))
  }

  /** The stress blink term never lowers the score: a baseline can only add stress. */
  lemma BaselineNeverLowersStress(m: Metrics, baseline: Metrics)
    ensures StressScore(m, Some(baseline)) >= StressScore(m, None)
  {
    PercentMonotone(StressRaw(m, None), StressRaw(m, Some(baseline)));
  }

  /** Comparing with a baseline can only lower the truth score. */
  lemma BaselineNeverRaisesTruth(m: Metrics, baseline: Metrics)
    ensures TruthScore(Some(m), Some(baseline)) <= TruthScore(Some(m), None)
  {
    PercentMonotone(TruthRaw(m, Some(baseline)), TruthRaw(m, None));
  }

  /** More blinking than before never lowers stress. */
  lemma BlinkingRaisesStress(m: Metrics, baseline: Option<Metrics>, rate: nat)
    requires rate >= m.blinkRate
    ensures StressScore(m.(blinkRate := rate), baseline) >= StressScore(m, baseline)
  {
    PercentMonotone(StressRaw(m, baseline), StressRaw(m.(blinkRate := rate), baseline));
  }

  /** More fear never raises confidence and never lowers stress. */
  lemma FearLowersConfidence(m: Metrics, baseline: Option<Metrics>, fear: real)
    requires fear >= m.emotions.fearful
    ensures ConfidenceScore(m.(emotions := m.emotions.(fearful := fear))) <= ConfidenceScore(m)
    ensures StressScore(m.(emotions := m.emotions.(fearful := fear)), baseline) >= StressScore(m, baseline)
  {
    var m' := m.(emotions := m.emotions.(fearful := fear));
    PercentMonotone(ConfidenceRaw(m'), ConfidenceRaw(m));
    PercentMonotone(StressRaw(m, baseline), StressRaw(m', baseline));
  }

  /** The metrics scored when an answer has no readings. */
  const DefaultMetrics: Metrics :=
    Metrics(Emotions(0.5, 0.0, 0.0, 0.0, 0.0, 0.0, 0.0), "neutral", 0, 0.5, 0.0, 0.0, HeadPose(0.0, 0.0))

  /** The fields the scores read hold the values of `DefaultMetrics`. */
  predicate LikeDefault(m: Metrics)
  {
    && m.emotions == Emotions(0.5, 0.0, 0.0, 0.0, 0.0, 0.0, 0.0)
    && m.blinkRate == 0 && m.gazeDirection == 0.5 && m.lipTension == 0.0
    && m.headPose == HeadPose(0.0, 0.0)
  }

  lemma DefaultIsLikeDefault()
    ensures LikeDefault(DefaultMetrics)
  {
    var m := DefaultMetrics;
    assert m.emotions == Emotions(0.5, 0.0, 0.0, 0.0, 0.0, 0.0, 0.0);
  }

  /**
   * An answer without readings scores 65 for confidence and 15 for stress,
   * whatever the baseline: its blink rate of 0 is never above a baseline's.
   */
  lemma DefaultScores(baseline: Option<Metrics>)
    ensures ConfidenceScore(DefaultMetrics) == 65
    ensures StressScore(DefaultMetrics, baseline) == 15
  {
    DefaultIsLikeDefault();
    DefaultShapeScores(DefaultMetrics, baseline);
  }

  lemma DefaultShapeScores(m: Metrics, baseline: Option<Metrics>)
    requires LikeDefault(m)
    ensures ConfidenceScore(m) == 65
    ensures StressScore(m, baseline) == 15
  {
    assert GazeOffset(m) == 0.0 && HeadMovement(m) == 0.0;
    if baseline.Some? {
      NoBlinksNoExcess(m, baseline.value);
    }
    RawDecides(ConfidenceRaw(m), 65);
    RawDecides(StressRaw(m, baseline), 15);
  }

  lemma NoBlinksNoExcess(m: Metrics, baseline: Metrics)
    requires m.blinkRate == 0
    ensures BlinkExcess(m, baseline) == 0.0
  {
  }

  /** A whole raw value within 1..99 is its own percentage. */
  lemma RawDecides(x: real, n: int)
    requires 1 <= n <= 99 && x == n as real
    ensures forall r :: IsPercentOf(x, r) ==> r == n
  {
  }

  /**
   * The gaze figure of an answer: 50 without readings, otherwise
   * `Math.round((1 - |gaze - 0.5| * 2) * 100)`, which is not clamped.
   */
  function GazeStability(avg: Option<Metrics>): (r: int)
    ensures avg.None? ==> r == 50
    ensures avg.Some? ==>
      var x := (1.0 - GazeOffset(avg.value) * 2.0) * 100.0;
      r as real - 0.5 <= x < r as real + 0.5
  {
    if avg.None? then 50 else Round((1.0 - GazeOffset(avg.value) * 2.0) * 100.0)
  }

  /** A gaze between 0 and 1 gives a stability between 0 and 100, and 100 when centred. */
  lemma GazeStabilityRange(m: Metrics)
    requires 0.0 <= m.gazeDirection <= 1.0
    ensures 0 <= GazeStability(Some(m)) <= 100
    ensures m.gazeDirection == 0.5 ==> GazeStability(Some(m)) == 100
  {
  }

  /** Nothing clamps the figure: a gaze well outside 0..1 gives a negative stability. */
  lemma GazeStabilityCanBeNegative()
    ensures GazeStability(Some(DefaultMetrics.(gazeDirection := 2.0))) == -200
  {
    assert GazeOffset(DefaultMetrics.(gazeDirection := 2.0)) == 1.5;
  }

  /**
   * The overall percentage: `Math.round` of the mean per-question score.
   * An empty list divides 0 by 0, which gives `NaN`; that is `None` here.
   */
  function OverallScore(scores: seq<real>): (r: Option<int>)
    ensures r.None? <==> |scores| == 0
    ensures r.Some? ==>
      r.value as real - 0.5 <= Sum(scores) / |scores| as real < r.value as real + 0.5
  {
    if |scores| == 0 then None else Some(Round(Sum(scores) / |scores| as real))
  }

  /** Per-question scores within 0..100 give an overall score within 0..100. */
  lemma OverallWithin(scores: seq<real>)
    requires |scores| > 0
    requires forall i :: 0 <= i < |scores| ==> 0.0 <= scores[i] <= 100.0
    ensures 0 <= OverallScore(scores).value <= 100
  {
    MeanWithin(scores, 0.0, 100.0);
    RoundMonotone(0.0, Sum(scores) / |scores| as real);
    RoundMonotone(Sum(scores) / |scores| as real, 100.0);
  }

  datatype ScoreBand = Low | Medium | High

  /** The colour class of a question's score: from 70 high, from 40 medium, otherwise low. */
  function ScoreBandOf(score: real): (b: ScoreBand)
    ensures b == High <==> score >= 70.0
    ensures b == Low <==> score < 40.0
  {
    if score >= 70.0 then High else if score >= 40.0 then Medium else Low
  }

  function BandRank(b: ScoreBand): nat
  {
    match b
    case Low => 0
    case Medium => 1
    case High => 2
  }

  /** A higher score never falls in a lower band. */
  lemma ScoreBandMonotone(x: real, y: real)
    requires x <= y
    ensures BandRank(ScoreBandOf(x)) <= BandRank(ScoreBandOf(y))
  {
  }
}
