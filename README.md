# Mock-interview sentiment analyser — a Dafny model

The browser client of this mock-interview application (`app.js`, class
`SentimentAnalyser`) asks a series of questions. While the candidate answers,
it watches the camera and the microphone. face-api reports expression
probabilities for each frame, and MediaPipe face landmarks give an eye aspect
ratio and a few behavioural signals. The client combines these into readings
and keeps the latest 30 in a window. On each closing of the eyes it counts a
blink, debounced by 100 ms, and it accumulates the recognised speech into a
transcript.

When the candidate moves on, `nextQuestion` records one result for the
answer. A result holds:

- the question and the trimmed response, which falls back to
  "No response provided";
- the elapsed time;
- the averaged metrics;
- a sentiment: confidence and stress scores clamped to 0..100, the dominant
  expression, the blink count and a gaze-stability figure;
- speech metrics: word count, words per minute, filler-word count and a
  three-part summary.

The results screen shows the rounded mean of the per-question scores, and it
bands each score as high, medium or low.

This project models that core:

| Module | File | What it models |
|---|---|---|
| `Numbers` | `numbers.dfy` | `Math.round`, the 0..100 clamp, sums and means |
| `Text` | `text.dfy` | JavaScript whitespace, `trim`, `split(/\s+/)` with the empty-piece filter, and `capitalise` |
| `Fillers` | `fillers.dfy` | the global, case-insensitive filler-word regular expression, scanned position by position as the engine does it |
| `Speech` | `speech.dfy` | `calculateSpeechMetrics` |
| `TimeFormat` | `time_format.dfy` | `formatTime` and the per-second timer label |
| `Metrics` | `metrics.dfy` | readings, `getDominantEmotion`, the combined reading and `calculateAverageMetrics` as a specification |
| `Blink` | `blink.dfy` | the blink detector as a step function over frames |
| `Scores` | `scores.dfy` | the confidence and stress scores, gaze stability, the overall score and the score bands; also the truthfulness score, which the program defines but never computes or shows |
| `Analyser` | `analyser.dfy` | the bounded window, the answer record, and the `SentimentAnalyser` class |

`SentimentAnalyser` is a class whose methods update its fields in place. A
ghost field `readings` records every reading pushed since the window was last
emptied. The invariant `Valid()` says two things:

- the window is always the last 30 of those readings;
- there is exactly one result per question passed.

Several inputs become parameters:

- the clock (`Date.now()`);
- the eye aspect ratio and the landmark signals;
- face-api's expression probabilities;
- the questions the server sends.

Numbers are exact reals and integers. A JavaScript value that is `null` or
`undefined` becomes `None` of an `Option`. This covers:

- no baseline yet;
- no average for an empty window;
- a question index past the end;
- no landmark data yet.

The mean of an empty list of scores is NaN in the source (0 divided by 0).
It is also `None` here.

Two behaviours of the source are kept as written:

- A blank transcript becomes the response "No response provided". The speech
  metrics are computed on that response, so a silent answer counts three words
  (`Analyser.NoResponseWords`).
- A gaze reading of exactly 0 is falsy, so the `|| 0.5` default replaces it
  with 0.5 (`Metrics.CombineReading`).

The gaze-stability figure is not clamped (`Scores.GazeStabilityCanBeNegative`).
`formatTime` of a negative duration prints signed fields
(`TimeFormat.NegativeDuration`). Such a duration arises only when the clock is
set back during an answer.

## Model

| member | source | states |
|---|---|---|
| Numbers.Round | app.js:572 | The result is the integer within one half of x, a tie going up, as `Math.round` does. |
| Numbers.Clamp | app.js:572 | The result always lies in 0..100. It equals the input inside that range, 0 below it and 100 above it. |
| Numbers.Percent | app.js:600 | The rounded and clamped score is 0 for anything below one half and 100 from 99.5 on. In between it is the nearest integer. |
| Numbers.RoundMonotone | app.js:572 | Rounding never reverses the order of two values. |
| Numbers.PercentMonotone | app.js:600 | A larger raw score never gives a smaller percentage, so any monotone change of a weighted sum carries over to the shown score. |
| Numbers.SumWithin | app.js:880-882 | The sum of n values in [lo, hi] lies in [n*lo, n*hi]. |
| Numbers.MeanWithin | app.js:880-882 | The mean of a non-empty list of values in [lo, hi] lies in [lo, hi]. |
| Text.Trim | app.js:1014 | The trimmed string is empty exactly when the input is all whitespace. Otherwise it begins and ends with a non-whitespace character. It is never longer than the input. |
| Text.TrimDropsOnlySpace | app.js:1014 | The trimmed string is a contiguous slice of the input, and only whitespace lies before and after it. |
| Text.SplitOnSpaces | app.js:1014 | The pieces, joined again with the whitespace runs between them, give back the input. No piece holds whitespace, only the first and last piece may be empty, and every run is non-empty whitespace. By `SplittingUnique` this determines the pieces. |
| Text.SplitFromIsSplitting | app.js:1014 | From any position the split has that shape, and its first piece is non-empty when the text there starts with a non-space character. |
| Text.SplitFromRebuilds | app.js:1014 | From any position, joining the pieces with the runs between them gives back the rest of the text. |
| Text.SplittingUnique | app.js:1014 | A text has only one decomposition into pieces and whitespace runs of that shape, so the split is the only one possible. |
| Text.SplitPiecesNoSpace | app.js:1014 | No piece of a split on whitespace runs contains whitespace. |
| Text.NonEmpty | app.js:1014 | The filter keeps every non-empty input piece and nothing else, and never more pieces than the input. |
| Text.NonEmptyConcat | app.js:1014 | Filtering a concatenation filters each part, so the kept pieces stay in input order. |
| Text.Words | app.js:1014 | Every word of the transcript is non-empty and contains no whitespace. |
| Text.SplitCountsWordStarts | app.js:1014 | After a split at a word boundary and the filter, there is one piece per position that begins a word. |
| Text.TrimKeepsWordStarts | app.js:1014 | Trimming neither adds nor removes a word. |
| Text.WordStartsConcat | app.js:1014 | Word counts add up across a join that does not glue two words together. |
| Text.WordCountIsRunCount | app.js:1014-1015 | `words.length` equals the number of maximal non-whitespace runs in the transcript. That count is defined independently of trimming and splitting. |
| Text.Capitalise | app.js:1002-1004 | The length is kept. The first character becomes upper case and keeps its letter, and the rest is unchanged. |
| Text.CapitaliseIdempotent | app.js:1002-1004 | Capitalising twice gives the same string as capitalising once. |
| Fillers.MatchAt | app.js:1020 | A match found at a position is at least two characters long and lies inside the transcript. |
| Fillers.MatchFromIff | app.js:1020 | Trying alternatives from the k-th on, the engine finds a match exactly when one of those alternatives, bracketed by word boundaries, matches. |
| Fillers.MatchFromFirst | app.js:1020 | The match found is the first alternative in pattern order that matches at that position, not the longest. |
| Fillers.MatchAtIffAlternative | app.js:1020 | The pattern matches at a position exactly when one of the ten filler words, bracketed by `\b`, occurs there. |
| Fillers.NextScan | app.js:1021 | The global scan always moves forward and stays within the transcript. |
| Fillers.CountFrom | app.js:1021-1022 | Matches never overlap and each is at least two characters long, so the count from a position is at most half the characters left. |
| Fillers.CountFromStep | app.js:1021 | The count from a position is one for a match there, or zero, plus the count from where the scan resumes. |
| Fillers.CountFromZero | app.js:1021-1022 | From any position, the scan finds nothing exactly when the pattern matches at no later position. |
| Fillers.FillerCount | app.js:1020-1022 | The filler count is zero exactly when no filler word occurs anywhere in the transcript, and it is at most half the transcript's length. |
| Fillers.WordCharUpToCase | app.js:1020 | Changing the case of a character never changes whether it is a word character. |
| Fillers.MatchAtUpToCase | app.js:1020 | Changing the case of ASCII letters never changes the match at a position. |
| Fillers.MatchFromUpToCase | app.js:1020 | Where boundaries and filler occurrences agree, two strings give the same engine result from every alternative on. |
| Fillers.CountFromUpToCase | app.js:1020-1022 | Strings equal up to ASCII case give the same number of matches from any position. |
| Fillers.FillerCountIgnoresCase | app.js:1020-1022 | The filler count does not depend on the case of the transcript's letters. |
| Speech.WordsPerMinute | app.js:1016-1017 | The rate is never negative. It is 0 for a non-positive elapsed time; otherwise it is the integer within one half of words * 60000 / ms. |
| Speech.LengthBandOf | app.js:1025 | Fewer than 10 words is brief, 30 or more is detailed, and anything between is moderate. |
| Speech.PaceBandOf | app.js:1026 | Below 100 words per minute is slow, from 150 on fast, and anything between steady. |
| Speech.FillerBandOf | app.js:1027 | No filler gives "no fillers", three or more give "frequent fillers", and one or two give "few fillers". |
| Speech.SummaryText | app.js:1028 | The summary opens with the length text and closes with the filler text. Its length is the three texts' plus the two separators. |
| Speech.SummaryDeterminesBands | app.js:1025-1028 | Two summaries are equal only when their length, pace and filler bands all are: the text determines the bands. |
| Speech.NoFillersIffZero | app.js:1027 | The summary is the "no fillers" summary exactly when no filler word was counted. |
| Speech.CalculateSpeechMetrics | app.js:1013-1036 | The word count is the number of whitespace-separated runs, and the rate follows it. The filler count is the number of matches of the global scan. It is zero exactly when no filler matches, and at most half the length. The summary is the banded text of the three figures. |
| TimeFormat.NatToString | app.js:1010 | A non-negative integer prints as decimal digits with no leading zero. |
| TimeFormat.NatToStringValue | app.js:1010 | The printed digits read back as the number printed. |
| TimeFormat.PadStart2 | app.js:1010 | The padded string is at least two characters long and ends with the original. Every character before it is '0'. |
| TimeFormat.JsRem | app.js:1009 | The remainder takes the sign of the dividend. It lies in 0..59 for a non-negative dividend, and quotient times divisor plus remainder gives back the dividend. |
| TimeFormat.PaddedSeconds | app.js:1010 | Seconds below 60 print as exactly two digits, tens then units. |
| TimeFormat.FormatTime | app.js:1006-1011 | For a non-negative duration the label parses back as minutes, a colon and two digits below 60. These denote the whole number of seconds. |
| TimeFormat.ClockRoundTrip | app.js:1008-1010 | The minutes and padded seconds of a non-negative number of seconds read back as that number. |
| TimeFormat.NegativeDuration | app.js:1006-1011 | For a negative duration both fields carry a minus sign (`-1:-2` for -1500 ms). |
| TimeFormat.TimerText | app.js:734-737 | The running timer label is the formatted time elapsed since the question started, so it reads back as the whole seconds elapsed. |
| Metrics.Values | app.js:453 | An expression object has one value per key, and each is the probability stored under the key at its position. |
| Metrics.DominantIndex | app.js:453-455 | The reduce ends on a largest value, and no later value is as large. |
| Metrics.DominantEmotion | app.js:452-456 | The dominant emotion is always one of the seven expression names. |
| Metrics.DominantEmotionIsLastLargest | app.js:452-456 | The dominant emotion names a largest probability, and no later key has one as large. |
| Metrics.TieGoesToLast | app.js:453-455 | When all probabilities are equal, the dominant emotion is the last key, "surprised". |
| Metrics.CombineReading | app.js:390-401 | The reading keeps the emotions and the blink count, and its dominant emotion is that of the emotions. Its gaze is never 0. Without landmark data the defaults apply. With data its signals are kept, except that a gaze of exactly 0 becomes 0.5. |
| Metrics.Average | app.js:603-645 | There is no average exactly for an empty window. An average carries the current blink count and the dominant emotion of the averaged probabilities. |
| Metrics.SumTotalsField | app.js:619-630 | Each running sum of the accumulation loop is the sum of that field over the window. |
| Metrics.AverageIsMean | app.js:603-645 | Every averaged field is the arithmetic mean of that field over the window. |
| Metrics.AverageWithin | app.js:603-645 | A field that lies within [lo, hi] in every reading has its average within [lo, hi]. |
| Metrics.AverageOfOne | app.js:603-645 | A window of one reading averages to that reading, with the current blink count. |
| Scores.ConfidenceScore | app.js:551-573 | The confidence is the clamped percentage of its weighted sum of expressions, gaze offset, head movement and lip tension. |
| Scores.StressScore | app.js:575-601 | The stress is the clamped percentage of its weighted sum. The sum includes the blink increase over the baseline only when a baseline exists. |
| Scores.TruthScore | app.js:847-877 | The truthfulness is 50 without metrics. Otherwise it is the clamped percentage of its weighted sum, with the baseline penalties when a baseline exists. |
| Scores.BaselineNeverLowersStress | app.js:587-590 | Having a baseline never lowers the stress score. |
| Scores.BaselineNeverRaisesTruth | app.js:868-874 | Having a baseline never raises the truthfulness score. |
| Scores.BlinkingRaisesStress | app.js:587-590 | A higher blink rate never lowers the stress score. |
| Scores.FearLowersConfidence | app.js:551-601 | More fear never raises the confidence score and never lowers the stress score. |
| Scores.DefaultScores | app.js:755-763 | With any baseline or none, the default metrics of an answer without readings score 65 for confidence and 15 for stress. |
| Scores.GazeStability | app.js:778 | The figure is 50 without metrics. Otherwise it is the integer within one half of (1 - 2 * gaze offset) * 100. |
| Scores.GazeStabilityRange | app.js:778 | A gaze within 0..1 gives a figure within 0..100, and a centred gaze gives 100. |
| Scores.GazeStabilityCanBeNegative | app.js:778 | Nothing clamps the figure: a gaze of 2 gives -200. |
| Scores.OverallScore | app.js:880-882 | There is no overall score for an empty list, where the source computes NaN. Otherwise the score is the integer within one half of the mean score. |
| Scores.OverallWithin | app.js:880-882 | Per-question scores within 0..100 give an overall score within 0..100. |
| Scores.ScoreBandOf | app.js:888 | A score from 70 is high, below 40 is low, and anything between is medium. |
| Scores.ScoreBandMonotone | app.js:888 | A higher score never falls in a lower band. |
| Blink.Step | app.js:430-440 | The eyes are closed exactly when the ratio is below 0.2. The count rises by one exactly on an open-to-closed transition more than 100 ms after the last blink, and only then does the last blink time move to now. |
| Blink.Run | app.js:430-440 | No frames leave the state unchanged. After any frames, the eyes are closed exactly when the last frame's ratio is below 0.2. |
| Blink.RunCountBounds | app.js:430-440 | Over any frames the count never falls and rises at most once per eye closing. |
| Blink.BlinksAreSpaced | app.js:434-437 | Each counted blink advances the last blink time by more than 100 ms. |
| Blink.NoBlinkWithinDebounce | app.js:434-437 | No blink is counted while every frame is within 100 ms of the last counted blink. |
| Blink.OpenEyesNeverBlink | app.js:438-440 | Eyes that stay open never produce a blink. |
| Analyser.Recent | app.js:405-410 | The window holds min(n, 30) readings, and they are the last ones. |
| Analyser.PushBounded | app.js:405-410 | The window grows by one until it holds 30 readings, then keeps its length. It is a suffix of the old window followed by the new reading. |
| Analyser.PushKeepsRecent | app.js:405-410 | Pushing and then shifting once past 30 turns the window of the readings so far into the window of all readings. |
| Analyser.NewestIsLast | app.js:405-410 | After a push the window is non-empty, holds at most 30 readings and ends with the newest. |
| Analyser.QuestionAt | app.js:769 | A question exists exactly for an index before the end, and it is the question at that index. |
| Analyser.Response | app.js:752 | The response is never empty. It is the fallback text for a blank transcript and the trimmed transcript otherwise. |
| Analyser.ResponseHasWords | app.js:752 | A recorded response always has at least one word. |
| Analyser.NoResponseWords | app.js:752 | The fallback response counts as three words. |
| Analyser.SentimentOf | app.js:763-779 | Both scores lie in 0..100, and the blink rate is the answer's blink count. Without readings the result is 65, 15, "neutral" and 50. Otherwise the scores are those of the average. The expression is the average's, or "neutral" when that is empty. |
| Analyser.NoReadingsScoreDefaults | app.js:755-763 | Without readings the scores are those of the default metrics. |
| Analyser.AnswerRecord | app.js:768-782 | The record is timed from the question start to now. It holds the trimmed or fallback response, the average and its sentiment. Its speech metrics are those of the response, which has at least one word. |
| Analyser.SentimentAnalyser.constructor | app.js:26-52 | Everything starts empty, zero or absent, and the invariant holds. |
| Analyser.SentimentAnalyser.LoadQuestion | app.js:710-726 | The window, blink count and transcript are emptied and the timer starts at now. Nothing else changes. |
| Analyser.SentimentAnalyser.ResetAnswer | app.js:100-109 | The transcript, window and blink count are emptied, the timer keeps running, and nothing else changes. |
| Analyser.SentimentAnalyser.StartInterview | app.js:318-345 | The questions are those received. The answer state is reset as `loadQuestion` does. |
| Analyser.SentimentAnalyser.StartDetection | app.js:367-373 | Old landmark data is forgotten and nothing else changes. |
| Analyser.SentimentAnalyser.RecordReading | app.js:386-410 | The combined reading is appended to all readings and is the window's last entry. The window stays within 30, the invariant holds, and nothing else changes. |
| Analyser.SentimentAnalyser.OnFaceLandmarks | app.js:422-450 | The blink fields take the detector's next state, and the frame's signals are kept for the next reading. |
| Analyser.SentimentAnalyser.AppendFinalTranscript | app.js:667 | A final recognition result is appended, followed by a space. |
| Analyser.SentimentAnalyser.AverageMetrics | app.js:603-645 | The accumulation loop returns the average of the window. |
| Analyser.SentimentAnalyser.EstablishBaseline | app.js:347-350 | The baseline becomes the average of the window at that moment, or absent for an empty window. |
| Analyser.SentimentAnalyser.PushResult | app.js:768-784 | One result is appended and the question index advances. The invariant holds. |
| Analyser.SentimentAnalyser.NextQuestion | app.js:749-792 | Exactly one result is recorded: the answer record of the old state, timed to the stop time. The index advances. The next question loads exactly when one remains, with a fresh answer state whose timer starts at the second clock reading. Otherwise the evaluation starts and the answer state is untouched. |
| Analyser.SentimentAnalyser.Restart | app.js:952-958 | The index, questions, results, window, baseline and blink count are cleared. The eye state, last blink time, transcript and timer are left as they were. |

## Left out

- `server.js` (question generation and answer evaluation) is not part of this model. `Scores.OverallScore` takes the per-question scores that the evaluation assigns as its input.
- The DOM: the display updates, screens, tabs, uploads, the transcript placeholder and the score colours as CSS classes. Only the band choice is modelled.
- face-api and MediaPipe are not modelled. The landmark geometry (eye aspect ratio, gaze, lip tension, eyebrow height, head pose) consists of inputs.
- Speech recognition: only the appending of a final result is modelled. Interim results and starting or stopping listening are left out.
- Timers: `setInterval`, `setTimeout` and `requestAnimationFrame` are left out, and `Date.now()` is a parameter. `Analyser.SentimentAnalyser.EstablishBaseline` can be called at any time instead of 3 s after the start.
- `evaluateAllAnswers` (network calls and the evaluation screen) is left out. `NextQuestion` reports that the evaluation starts.
- The `timestamp` field of a reading is left out, because nothing reads it.
- IEEE double arithmetic is not modelled: numbers are exact reals, and NaN and infinities do not occur. The `|| 0` defaults on emotion fields and head-pose angles only matter for NaN or missing keys, so they are not modelled.
- The averaging loop over `Object.keys` is modelled field by field. The `if (m.headPose)` test is always true for the readings the analyser builds.
- Text.Capitalise: upper-cases ASCII letters only. Other characters keep their case, whereas `toUpperCase` maps every Unicode lower-case letter.
- Analyser.SentimentAnalyser.StartInterview: performs the resets of `loadQuestion` directly, and does not model how the questions arrive from the server.
- Analyser.SentimentAnalyser.OnFaceLandmarks: models only frames that have face landmarks. On a frame without them the callback changes nothing.
