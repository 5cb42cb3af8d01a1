/**
 * The interview state of `SentimentAnalyser`: the questions and the index of
 * the current one, the results recorded so far, the window of recent
 * readings, the blink detector's fields, the baseline taken shortly after the
 * interview starts, and the transcript of the answer in progress.
 *
 * Clock readings (`Date.now()`), the eye aspect ratio and the signals derived
 * from face landmarks, and the emotions face-api reports are parameters.
 */
module Analyser {
  import opened Wrappers
  import opened Text
  import opened Metrics
  import opened Speech
  import opened Scores
  import Blink

  /** At most this many readings are kept. */
  const WindowSize: nat := 30

  /** The last `WindowSize` readings, oldest first. */
  function Recent(readings: seq<Metrics>): (w: seq<Metrics>)
    ensures |w| == if |readings| < WindowSize then |readings| else WindowSize
    ensures w == readings[|readings| - |w|..]
  {
    if |readings| <= WindowSize then readings else readings[|readings| - WindowSize..]
  }

  /**
   * `push`, then one `shift` if the window has grown past 30: the window grows
   * by one until it is full, then keeps its length, and it always ends with
   * the new reading after the newest of the old ones.
   */
  function PushBounded(window: seq<Metrics>, reading: Metrics): (w: seq<Metrics>)
    ensures |w| == if |window| < WindowSize then |window| + 1 else |window|
    ensures w == (window + [reading])[|window| + 1 - |w|..]
    ensures w[|w| - 1] == reading
  {
    var w := window + [reading];
    if |w| > WindowSize then w[1..] else w
  }

  /** Pushing onto the window of the readings so far gives the window of all readings. */
  lemma PushKeepsRecent(readings: seq<Metrics>, reading: Metrics)
    ensures PushBounded(Recent(readings), reading) == Recent(readings + [reading])
  {
    var all := readings + [reading];
    if |readings| >= WindowSize {
      assert (Recent(readings) + [reading])[1..] == all[|all| - WindowSize..];
    }
  }

  /** The newest reading is the last one in the window, and the window never exceeds 30. */
  lemma NewestIsLast(readings: seq<Metrics>, reading: Metrics)
    ensures var w := Recent(readings + [reading]);
      0 < |w| <= WindowSize && w[|w| - 1] == reading
  {
  }

  /** `this.questions[i]`: `undefined` past the end. */
  function QuestionAt(questions: seq<string>, i: nat): (q: Option<string>)
    ensures q.Some? <==> i < |questions|
    ensures q.Some? ==> q.value == questions[i]
  {
    if i < |questions| then Some(questions[i]) else None
  }

  const NoResponse: string := "No response provided"

  /** `transcript.trim() || 'No response provided'`. */
  function Response(transcript: string): (r: string)
    ensures r != []
    ensures AllSpace(transcript) ==> r == NoResponse
    ensures !AllSpace(transcript) ==> r == Trim(transcript)
  {
    var t := Trim(transcript);
    if t == [] then NoResponse else t
  }

  /** A response always has at least one word, so its speech metrics never count zero words. */
  lemma ResponseHasWords(transcript: string)
    ensures WordStarts(Response(transcript)) >= 1
  {
    var r := Response(transcript);
    if AllSpace(transcript) {
      NoResponseWords();
    } else {
      assert StartsWord(r, 0);
    }
  }

  /** The fallback text is three words long. */
  lemma NoResponseWords()
    ensures WordStarts(NoResponse) == 3
  {
    NoResponseParts();
    ThreeWords("No", "response", "provided");
  }

  lemma NoResponseParts()
    ensures NoSpace("No") && NoSpace("response") && NoSpace("provided")
    ensures NoResponse == "No" + (" " + ("response" + (" " + "provided")))
  {
    LettersNoSpace("No");
    LettersNoSpace("response");
    LettersNoSpace("provided");
  }

  /** Three words joined by single spaces. */
  lemma ThreeWords(a: string, b: string, c: string)
    requires a != [] && b != [] && c != []
    requires NoSpace(a) && NoSpace(b) && NoSpace(c)
    ensures WordStarts(a + (" " + (b + (" " + c)))) == 3
  {
    WordStartsNoSpace(a);
    WordStartsNoSpace(b);
    WordStartsNoSpace(c);
    assert IsSpace(" "[0]);
    WordStartsAllSpace(" ");
    WordStartsConcat(" ", c);
    WordStartsConcat(b, " " + c);
    WordStartsConcat(" ", b + (" " + c));
    WordStartsConcat(a, " " + (b + (" " + c)));
  }

  datatype Sentiment = Sentiment(confidence: int, stress: int, dominantEmotion: string,
                                 blinkRate: nat, gazeStability: int)

  /** One entry of `this.results`, before the answer is evaluated. */
  datatype QuestionResult = QuestionResult(question: Option<string>, response: string, timeMs: int,
                                           metrics: Option<Metrics>, sentiment: Sentiment,
                                           speech: SpeechMetrics)

  /**
   * The observations recorded for an answer: `avg` is the average of the
   * window (none without readings), `blinkCount` the blinks of this answer and
   * `baseline` the interview's baseline. Without an average the default
   * metrics are scored, which gives 65 and 15 (`NoReadingsScoreDefaults`), the
   * expression is "neutral" and the gaze figure 50.
   */
  function SentimentOf(avg: Option<Metrics>, blinkCount: nat, baseline: Option<Metrics>): (s: Sentiment)
    ensures 0 <= s.confidence <= 100 && 0 <= s.stress <= 100
    ensures s.blinkRate == blinkCount
    ensures s.gazeStability == GazeStability(avg)
    ensures avg.None? ==>
      && s.confidence == 65 && s.stress == 15
      && s.dominantEmotion == "neutral" && s.gazeStability == 50
    ensures avg.Some? ==>
      && s.confidence == ConfidenceScore(avg.value)
      && s.stress == StressScore(avg.value, baseline)
      && (avg.value.dominantEmotion != [] ==> s.dominantEmotion == avg.value.dominantEmotion)
      && (avg.value.dominantEmotion == [] ==> s.dominantEmotion == "neutral")
  {
    if avg.Some? then
      var m := avg.value;
      Sentiment(ConfidenceScore(m), StressScore(m, baseline),
                if m.dominantEmotion != [] then m.dominantEmotion else "neutral",
                blinkCount, GazeStability(avg))
    else
      Sentiment(65, 15, "neutral", blinkCount, GazeStability(avg))
  }

  /** Without readings the sentiment carries the scores of the default metrics. */
  lemma NoReadingsScoreDefaults(blinkCount: nat, baseline: Option<Metrics>)
    ensures SentimentOf(None, blinkCount, baseline).confidence == ConfidenceScore(DefaultMetrics)
    ensures SentimentOf(None, blinkCount, baseline).stress == StressScore(DefaultMetrics, baseline)
  {
    DefaultScores(baseline);
  }

  /**
   * The record `nextQuestion` pushes for the current answer, timed from
   * `startTime` to `now`.
   */
  function AnswerRecord(question: Option<string>, transcript: string, startTime: int, now: int,
                        avg: Option<Metrics>, blinkCount: nat, baseline: Option<Metrics>): (r: QuestionResult)
    ensures r.question == question && r.timeMs == now - startTime && r.metrics == avg
    ensures r.response == Response(transcript)
    ensures r.sentiment == SentimentOf(avg, blinkCount, baseline)
    ensures r.speech == CalculateSpeechMetrics(r.response, r.timeMs) && r.speech.wordCount >= 1
  {
    var timeElapsed := now - startTime;
    var response := Response(transcript);
    ResponseHasWords(transcript);
    QuestionResult(question, response, timeElapsed, avg, SentimentOf(avg, blinkCount, baseline),
                   CalculateSpeechMetrics(response, timeElapsed))
  }

  datatype Progress = NextQuestionLoaded | EvaluationStarted

  class SentimentAnalyser {
    var currentQuestion: nat
    var questions: seq<string>
    var results: seq<QuestionResult>
    var metricsHistory: seq<Metrics>
    /** Every reading pushed since the window was last emptied. */
    ghost var readings: seq<Metrics>
    var baselineMetrics: Option<Metrics>
    var blinkCount: nat
    var lastBlinkTime: int
    var eyesClosed: bool
    /** `latestMediaPipeData`: the signals of the last frame with face landmarks. */
    var latestBehaviour: Option<Behaviour>
    var fullTranscript: string
    var questionStartTime: int

    /** The window holds the latest readings, and there is one result per question passed. */
    ghost predicate Valid()
      reads this
    {
      metricsHistory == Recent(readings) && |results| == currentQuestion
    }

    /** The initial state; a `null` question start time counts as 0 in subtraction. */
    constructor ()
      ensures Valid()
      ensures currentQuestion == 0 && questions == [] && results == []
      ensures metricsHistory == [] && baselineMetrics == None
      ensures blinkCount == 0 && lastBlinkTime == 0 && !eyesClosed && latestBehaviour == None
      ensures fullTranscript == [] && questionStartTime == 0
    {
      currentQuestion := 0;
      questions := [];
      results := [];
      metricsHistory := [];
      readings := [];
      baselineMetrics := None;
      blinkCount := 0;
      lastBlinkTime := 0;
      eyesClosed := false;
      latestBehaviour := None;
      fullTranscript := [];
      questionStartTime := 0;
    }

    /** `loadQuestion()`: a fresh answer, timed from `now`. */
    method LoadQuestion(now: int)
      requires Valid()
      modifies this
      ensures Valid()
      ensures metricsHistory == [] && blinkCount == 0 && fullTranscript == [] && questionStartTime == now
      ensures currentQuestion == old(currentQuestion) && questions == old(questions) && results == old(results)
      ensures baselineMetrics == old(baselineMetrics) && lastBlinkTime == old(lastBlinkTime)
      ensures eyesClosed == old(eyesClosed) && latestBehaviour == old(latestBehaviour)
    {
      metricsHistory := [];
      readings := [];
      blinkCount := 0;
      fullTranscript := [];
      questionStartTime := now;
    }

    /** `resetAnswer()`: the answer in progress starts over; the timer keeps running. */
    method ResetAnswer()
      requires Valid()
      modifies this
      ensures Valid()
      ensures fullTranscript == [] && metricsHistory == [] && blinkCount == 0
      ensures currentQuestion == old(currentQuestion) && questions == old(questions) && results == old(results)
      ensures baselineMetrics == old(baselineMetrics) && lastBlinkTime == old(lastBlinkTime)
      ensures eyesClosed == old(eyesClosed) && latestBehaviour == old(latestBehaviour)
      ensures questionStartTime == old(questionStartTime)
    {
      fullTranscript := [];
      metricsHistory := [];
      readings := [];
      blinkCount := 0;
    }

    /**
     * The questions arrive from the server and the first one is loaded: the
     * resets of `loadQuestion()` follow the assignment of the questions.
     */
    method StartInterview(generated: seq<string>, now: int)
      requires Valid()
      modifies this
      ensures Valid()
      ensures questions == generated
      ensures metricsHistory == [] && blinkCount == 0 && fullTranscript == [] && questionStartTime == now
      ensures currentQuestion == old(currentQuestion) && results == old(results)
      ensures baselineMetrics == old(baselineMetrics) && lastBlinkTime == old(lastBlinkTime)
      ensures eyesClosed == old(eyesClosed) && latestBehaviour == old(latestBehaviour)
    {
      questions := generated;
      metricsHistory := [];
      readings := [];
      blinkCount := 0;
      fullTranscript := [];
      questionStartTime := now;
    }

    /** `startCombinedDetection()` forgets any landmark data from before. */
    method StartDetection()
      modifies this
      ensures latestBehaviour == None
      ensures currentQuestion == old(currentQuestion) && questions == old(questions) && results == old(results)
      ensures metricsHistory == old(metricsHistory) && readings == old(readings)
      ensures baselineMetrics == old(baselineMetrics) && blinkCount == old(blinkCount)
      ensures lastBlinkTime == old(lastBlinkTime) && eyesClosed == old(eyesClosed)
      ensures fullTranscript == old(fullTranscript) && questionStartTime == old(questionStartTime)
    {
      latestBehaviour := None;
    }

    /**
     * A frame in which face-api found a face: the combined reading is pushed
     * and the oldest one dropped once there are more than 30.
     */
    method RecordReading(emotions: Emotions)
      requires Valid()
      modifies this
      ensures Valid()
      ensures readings == old(readings) + [CombineReading(emotions, old(latestBehaviour), old(blinkCount))]
      ensures |metricsHistory| <= WindowSize
      ensures metricsHistory[|metricsHistory| - 1] == CombineReading(emotions, old(latestBehaviour), old(blinkCount))
      ensures currentQuestion == old(currentQuestion) && questions == old(questions) && results == old(results)
      ensures baselineMetrics == old(baselineMetrics) && blinkCount == old(blinkCount)
      ensures lastBlinkTime == old(lastBlinkTime) && eyesClosed == old(eyesClosed)
      ensures latestBehaviour == old(latestBehaviour)
      ensures fullTranscript == old(fullTranscript) && questionStartTime == old(questionStartTime)
    {
      var reading := CombineReading(emotions, latestBehaviour, blinkCount);
      PushKeepsRecent(readings, reading);
      NewestIsLast(readings, reading);
      readings := readings + [reading];
      metricsHistory := metricsHistory + [reading];
      if |metricsHistory| > WindowSize {
        metricsHistory := metricsHistory[1..];
      }
      assert metricsHistory == PushBounded(old(metricsHistory), reading);
    }

    /**
     * A frame with face landmarks: blink detection on the eye aspect ratio
     * `ear` at time `now`, then the landmark signals are kept for the next
     * reading.
     */
    method OnFaceLandmarks(ear: real, behaviour: Behaviour, now: int)
      modifies this
      ensures Blink.BlinkState(eyesClosed, blinkCount, lastBlinkTime)
        == Blink.Step(Blink.BlinkState(old(eyesClosed), old(blinkCount), old(lastBlinkTime)), ear, now)
      ensures latestBehaviour == Some(behaviour)
      ensures currentQuestion == old(currentQuestion) && questions == old(questions) && results == old(results)
      ensures metricsHistory == old(metricsHistory) && readings == old(readings)
      ensures baselineMetrics == old(baselineMetrics)
      ensures fullTranscript == old(fullTranscript) && questionStartTime == old(questionStartTime)
    {
      if ear < Blink.BlinkThreshold && !eyesClosed {
        eyesClosed := true;
        if now - lastBlinkTime > Blink.DebounceMs {
          blinkCount := blinkCount + 1;
          lastBlinkTime := now;
        }
      } else if ear >= Blink.BlinkThreshold {
        eyesClosed := false;
      }
      latestBehaviour := Some(behaviour);
    }

    /** A final speech-recognition result is appended, followed by a space. */
    method AppendFinalTranscript(text: string)
      modifies this
      ensures fullTranscript == old(fullTranscript) + text + " "
      ensures currentQuestion == old(currentQuestion) && questions == old(questions) && results == old(results)
      ensures metricsHistory == old(metricsHistory) && readings == old(readings)
      ensures baselineMetrics == old(baselineMetrics) && blinkCount == old(blinkCount)
      ensures lastBlinkTime == old(lastBlinkTime) && eyesClosed == old(eyesClosed)
      ensures latestBehaviour == old(latestBehaviour) && questionStartTime == old(questionStartTime)
    {
      fullTranscript := fullTranscript + text + " ";
    }

    /** `calculateAverageMetrics()`: the sums are accumulated reading by reading, then divided. */
    method AverageMetrics() returns (r: Option<Metrics>)
      ensures r == Average(metricsHistory, blinkCount)
    {
      var count := |metricsHistory|;
      if count == 0 {
        return None;
      }
      var sums := NoTotals;
      var i := 0;
      while i < count
        invariant 0 <= i <= count
        invariant sums == SumTotals(metricsHistory[..i])
      {
        assert metricsHistory[..i + 1][..i] == metricsHistory[..i];
        sums := Add(sums, metricsHistory[i]);
        i := i + 1;
      }
      assert metricsHistory[..count] == metricsHistory;
      var mean := Divide(sums, count as real);
      r := Some(Metrics(mean.emotions, DominantEmotion(mean.emotions), blinkCount,
                        mean.gazeDirection, mean.lipTension, mean.eyebrowHeight, mean.headPose));
    }

    /** Three seconds into the interview the current average becomes the baseline. */
    method EstablishBaseline()
      modifies this
      ensures baselineMetrics == Average(old(metricsHistory), old(blinkCount))
      ensures currentQuestion == old(currentQuestion) && questions == old(questions) && results == old(results)
      ensures metricsHistory == old(metricsHistory) && readings == old(readings)
      ensures blinkCount == old(blinkCount) && lastBlinkTime == old(lastBlinkTime)
      ensures eyesClosed == old(eyesClosed) && latestBehaviour == old(latestBehaviour)
      ensures fullTranscript == old(fullTranscript) && questionStartTime == old(questionStartTime)
    {
      baselineMetrics := AverageMetrics();
    }

    /** `this.results.push(record)` followed by `this.currentQuestion++`. */
    method PushResult(record: QuestionResult)
      requires Valid()
      modifies this
      ensures Valid()
      ensures results == old(results) + [record] && currentQuestion == old(currentQuestion) + 1
      ensures questions == old(questions) && baselineMetrics == old(baselineMetrics)
      ensures metricsHistory == old(metricsHistory) && readings == old(readings)
      ensures blinkCount == old(blinkCount) && lastBlinkTime == old(lastBlinkTime)
      ensures eyesClosed == old(eyesClosed) && latestBehaviour == old(latestBehaviour)
      ensures fullTranscript == old(fullTranscript) && questionStartTime == old(questionStartTime)
    {
      results := results + [record];
      currentQuestion := currentQuestion + 1;
    }

    /**
     * `nextQuestion()`: stops the timer at time `now`, records exactly one
     * result for the current question and moves on, loading the next question
     * (whose timer starts at `loadTime`, a second reading of the clock) if
     * there is one and otherwise starting the evaluation.
     */
    method NextQuestion(now: int, loadTime: int) returns (p: Progress)
      requires Valid()
      modifies this
      ensures Valid()
      ensures results == old(results) + [AnswerRecord(
        QuestionAt(old(questions), old(currentQuestion)), old(fullTranscript),
        old(questionStartTime), now, Average(old(metricsHistory), old(blinkCount)),
        old(blinkCount), old(baselineMetrics))]
      ensures currentQuestion == old(currentQuestion) + 1
      ensures p == NextQuestionLoaded <==> currentQuestion < |questions|
      ensures questions == old(questions) && baselineMetrics == old(baselineMetrics)
      ensures lastBlinkTime == old(lastBlinkTime) && eyesClosed == old(eyesClosed)
      ensures latestBehaviour == old(latestBehaviour)
      ensures p == NextQuestionLoaded ==>
        metricsHistory == [] && blinkCount == 0 && fullTranscript == [] && questionStartTime == loadTime
      ensures p == EvaluationStarted ==>
        && metricsHistory == old(metricsHistory) && readings == old(readings)
        && blinkCount == old(blinkCount) && fullTranscript == old(fullTranscript)
        && questionStartTime == old(questionStartTime)
    {
      var avg := AverageMetrics();
      var record := AnswerRecord(QuestionAt(questions, currentQuestion), fullTranscript,
                                 questionStartTime, now, avg, blinkCount, baselineMetrics);
      PushResult(record);
      if currentQuestion < |questions| {
        LoadQuestion(loadTime);
        p := NextQuestionLoaded;
      } else {
        p := EvaluationStarted;
      }
    }

    /**
     * `restart()`: back to the first question with no questions, results,
     * readings or baseline. The blink detector's eye state, the last blink
     * time, the transcript and the question start time are left as they are.
     */
    method Restart()
      modifies this
      ensures Valid()
      ensures currentQuestion == 0 && results == [] && questions == []
      ensures metricsHistory == [] && baselineMetrics == None && blinkCount == 0
      ensures lastBlinkTime == old(lastBlinkTime) && eyesClosed == old(eyesClosed)
      ensures latestBehaviour == old(latestBehaviour)
      ensures fullTranscript == old(fullTranscript) && questionStartTime == old(questionStartTime)
    {
      currentQuestion := 0;
      results := [];
      questions := [];
      metricsHistory := [];
      readings := [];
      baselineMetrics := None;
      blinkCount := 0;
    }
  }
}
