/**
 * A combined reading of the analyser: the expression probabilities face-api
 * reports for a frame, the blink count so far and the signals the landmark
 * callback derived from MediaPipe. Also the dominant emotion of a reading and
 * the per-field average of a window of readings.
 */
module Metrics {
  import opened Numbers
  import opened Wrappers

  /** face-api's expression probabilities, in the order it lists them. */
  datatype Emotions = Emotions(neutral: real, happy: real, sad: real, angry: real,
                               fearful: real, disgusted: real, surprised: real)

  /** The keys of an `Emotions` object, in `Object.entries` order. */
  const EmotionNames: seq<string> :=
    ["neutral", "happy", "sad", "angry", "fearful", "disgusted", "surprised"]

  /**
   * `emotions[key]`: the probability stored under `key`, and 0 for a key the
   * object does not have (`undefined || 0`).
   */
  function EmotionNamed(e: Emotions, key: string): real
  {
    if key == "neutral" then e.neutral
    else if key == "happy" then e.happy
    else if key == "sad" then e.sad
    else if key == "angry" then e.angry
    else if key == "fearful" then e.fearful
    else if key == "disgusted" then e.disgusted
    else if key == "surprised" then e.surprised
    else 0.0
  }

  /** The values of `Object.entries(emotions)`: each one the value stored under the key at its position. */
  function Values(e: Emotions): (v: seq<real>)
    ensures |v| == |EmotionNames|
    ensures forall k :: 0 <= k < |v| ==> v[k] == EmotionNamed(e, EmotionNames[k])
  {
    [e.neutral, e.happy, e.sad, e.angry, e.fearful, e.disgusted, e.surprised]
  }

  datatype HeadPose = HeadPose(yaw: real, pitch: real)

  /** What the landmark callback stores for the next reading. */
  datatype Behaviour = Behaviour(gazeDirection: real, lipTension: real, eyebrowHeight: real,
                                 headPose: HeadPose)

  /** A reading, and also the shape of an average of readings. */
  datatype Metrics = Metrics(emotions: Emotions, dominantEmotion: string, blinkRate: nat,
                             gazeDirection: real, lipTension: real, eyebrowHeight: real,
                             headPose: HeadPose)

  /**
   * The position `reduce((a, b) => a[1] > b[1] ? a : b)` ends on: a largest
   * value, and on a tie the later one, because the strict `>` keeps `b`.
   */
  function DominantIndex(v: seq<real>): (k: nat)
    requires |v| > 0
    ensures k < |v|
    ensures forall i :: 0 <= i < |v| ==> v[i] <= v[k]
    ensures forall i :: k < i < |v| ==> v[i] < v[k]
  {
    if |v| == 1 then 0
    else
      var a := DominantIndex(v[..|v| - 1]);
      if v[a] > v[|v| - 1] then a else |v| - 1
  }

  /** `getDominantEmotion(emotions)`: the key of the last largest probability. */
  function DominantEmotion(e: Emotions): (name: string)
    ensures name in EmotionNames
  {
    EmotionNames[DominantIndex(Values(e))]
  }

  /**
   * The dominant emotion names a largest probability, and no later key has
   * one as large.
   */
  lemma DominantEmotionIsLastLargest(e: Emotions)
    ensures exists k :: (0 <= k < |EmotionNames| && DominantEmotion(e) == EmotionNames[k]
      && (forall i :: 0 <= i < |EmotionNames| ==> Values(e)[i] <= Values(e)[k])
      && (forall i :: k < i < |EmotionNames| ==> Values(e)[i] < Values(e)[k]))
  {
    var k := DominantIndex(Values(e));
    assert DominantEmotion(e) == EmotionNames[k];
  }

  /** Equal probabilities everywhere: the reduce ends on the last key. */
  lemma TieGoesToLast(x: real)
    ensures DominantEmotion(Emotions(x, x, x, x, x, x, x)) == "surprised"
  {
  }

  /**
   * The reading pushed for a frame in which face-api found a face
   * (`behaviour` is `None` until the landmark callback has stored data). Of the
   * `||` defaults only the gaze one can fire on a number: a gaze of exactly 0
   * is falsy and becomes 0.5.
   */
  function CombineReading(emotions: Emotions, behaviour: Option<Behaviour>, blinkCount: nat): (m: Metrics)
    ensures m.emotions == emotions && m.blinkRate == blinkCount
    ensures m.dominantEmotion == DominantEmotion(emotions)
    ensures m.gazeDirection != 0.0
    ensures behaviour.Some? && behaviour.value.gazeDirection == 0.0 ==> m.gazeDirection == 0.5
    ensures behaviour.None? ==>
      m.gazeDirection == 0.5 && m.lipTension == 0.0 && m.eyebrowHeight == 0.0 && m.headPose == HeadPose(0.0, 0.0)
    ensures behaviour.Some? ==>
      && (behaviour.value.gazeDirection != 0.0 ==> m.gazeDirection == behaviour.value.gazeDirection)
      && m.lipTension == behaviour.value.lipTension
      && m.eyebrowHeight == behaviour.value.eyebrowHeight
      && m.headPose == behaviour.value.headPose
  {
    var b := if behaviour.Some? then behaviour.value else Behaviour(0.0, 0.0, 0.0, HeadPose(0.0, 0.0));
    Metrics(emotions, DominantEmotion(emotions), blinkCount,
            if b.gazeDirection == 0.0 then 0.5 else b.gazeDirection,
            b.lipTension, b.eyebrowHeight, b.headPose)
  }

  /** The running sums `calculateAverageMetrics` accumulates into `avg`. */
  datatype Totals = Totals(emotions: Emotions, gazeDirection: real, lipTension: real,
                           eyebrowHeight: real, headPose: HeadPose)

  const NoEmotions := Emotions(0.0, 0.0, 0.0, 0.0, 0.0, 0.0, 0.0)

  const NoTotals := Totals(NoEmotions, 0.0, 0.0, 0.0, HeadPose(0.0, 0.0))

  function AddEmotions(a: Emotions, b: Emotions): Emotions
  {
    Emotions(a.neutral + b.neutral, a.happy + b.happy, a.sad + b.sad, a.angry + b.angry,
             a.fearful + b.fearful, a.disgusted + b.disgusted, a.surprised + b.surprised)
  }

  /** One pass of the `forEach` body: every field of `m` added to its sum. */
  function Add(t: Totals, m: Metrics): Totals
  {
    Totals(AddEmotions(t.emotions, m.emotions),
           t.gazeDirection + m.gazeDirection,
           t.lipTension + m.lipTension,
           t.eyebrowHeight + m.eyebrowHeight,
           HeadPose(t.headPose.yaw + m.headPose.yaw, t.headPose.pitch + m.headPose.pitch))
  }

  /** The sums after the `forEach` over `h`, taken in order. */
  function SumTotals(h: seq<Metrics>): Totals
  {
    if |h| == 0 then NoTotals else Add(SumTotals(h[..|h| - 1]), h[|h| - 1])
  }

  function DivideEmotions(e: Emotions, n: real): Emotions
    requires n > 0.0
  {
    Emotions(e.neutral / n, e.happy / n, e.sad / n, e.angry / n,
             e.fearful / n, e.disgusted / n, e.surprised / n)
  }

  /** Every sum divided by the number of readings. */
  function Divide(t: Totals, n: real): Totals
    requires n > 0.0
  {
    Totals(DivideEmotions(t.emotions, n), t.gazeDirection / n, t.lipTension / n,
           t.eyebrowHeight / n, HeadPose(t.headPose.yaw / n, t.headPose.pitch / n))
  }

  /**
   * `calculateAverageMetrics()` over the window `h`: nothing for an empty
   * window, otherwise the mean of every field, the current blink count as
   * `blinkRate` and the dominant emotion of the averaged probabilities.
   */
  function Average(h: seq<Metrics>, blinkCount: nat): (r: Option<Metrics>)
    ensures r.None? <==> |h| == 0
    ensures r.Some? ==> r.value.blinkRate == blinkCount
    ensures r.Some? ==> r.value.dominantEmotion == DominantEmotion(r.value.emotions)
  {
    if |h| == 0 then None
    else
      var mean := Divide(SumTotals(h), |h| as real);
      Some(Metrics(mean.emotions, DominantEmotion(mean.emotions), blinkCount,
                   mean.gazeDirection, mean.lipTension, mean.eyebrowHeight, mean.headPose))
  }

  /** The averaged fields of a reading. */
  datatype Field =
    | Neutral | Happy | Sad | Angry | Fearful | Disgusted | Surprised
    | Gaze | Lip | Eyebrow | Yaw | Pitch

  function EmotionOf(e: Emotions, f: Field): real
  {
    match f
    case Neutral => e.neutral
    case Happy => e.happy
    case Sad => e.sad
    case Angry => e.angry
    case Fearful => e.fearful
    case Disgusted => e.disgusted
    case Surprised => e.surprised
    case _ => 0.0
  }

  function Get(m: Metrics, f: Field): real
  {
    match f
    case Gaze => m.gazeDirection
    case Lip => m.lipTension
    case Eyebrow => m.eyebrowHeight
    case Yaw => m.headPose.yaw
    case Pitch => m.headPose.pitch
    case _ => EmotionOf(m.emotions, f)
  }

  function TotalOf(t: Totals, f: Field): real
  {
    match f
    case Gaze => t.gazeDirection
    case Lip => t.lipTension
    case Eyebrow => t.eyebrowHeight
    case Yaw => t.headPose.yaw
    case Pitch => t.headPose.pitch
    case _ => EmotionOf(t.emotions, f)
  }

  /** The values of field `f` across the window. */
  function Column(h: seq<Metrics>, f: Field): (c: seq<real>)
    ensures |c| == |h|
    ensures forall i :: 0 <= i < |h| ==> c[i] == Get(h[i], f)
  {
    seq(|h|, i requires 0 <= i < |h| => Get(h[i], f))
  }

  lemma AddField(t: Totals, m: Metrics, f: Field)
    ensures TotalOf(Add(t, m), f) == TotalOf(t, f) + Get(m, f)
  {
  }

  /** Each running sum is the sum of that field's column. */
  lemma {:induction false} SumTotalsField(h: seq<Metrics>, f: Field)
    ensures TotalOf(SumTotals(h), f) == Sum(Column(h, f))
  {
    if |h| > 0 {
      var init := h[..|h| - 1];
      SumTotalsField(init, f);
      assert Column(h, f)[..|h| - 1] == Column(init, f);
      AddField(SumTotals(init), h[|h| - 1], f);
    }
  }

  /** Every field of a non-empty average is the arithmetic mean of that field over the window. */
  lemma AverageIsMean(h: seq<Metrics>, blinkCount: nat, f: Field)
    requires |h| > 0
    ensures Get(Average(h, blinkCount).value, f) == Sum(Column(h, f)) / |h| as real
  {
    SumTotalsField(h, f);
  }

  /** If a field lies in [lo, hi] in every reading, so does its average. */
  lemma AverageWithin(h: seq<Metrics>, blinkCount: nat, f: Field, lo: real, hi: real)
    requires |h| > 0
    requires forall i :: 0 <= i < |h| ==> lo <= Get(h[i], f) <= hi
    ensures lo <= Get(Average(h, blinkCount).value, f) <= hi
  {
    AverageIsMean(h, blinkCount, f);
    MeanWithin(Column(h, f), lo, hi);
  }

  /** A window of one reading averages to that reading, with the blink count replaced. */
  lemma AverageOfOne(m: Metrics, blinkCount: nat)
    ensures Average([m], blinkCount) == Some(m.(blinkRate := blinkCount, dominantEmotion := DominantEmotion(m.emotions)))
  {
    assert [m][..0] == [];
    assert SumTotals([m]) == Add(NoTotals, m);
    DivideByOne(Add(NoTotals, m));
  }

  lemma DivideByOne(t: Totals)
    ensures Divide(t, 1.0) == t
  {
  }
}
