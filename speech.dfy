/**
 * `calculateSpeechMetrics`: word count, words per minute, filler count and the
 * three-part summary of an answer's transcript.
 */
module Speech {
  import opened Numbers
  import opened Text
  import opened Fillers

  datatype LengthBand = Brief | Moderate | Detailed
  datatype PaceBand = Slow | Steady | Fast
  datatype FillerBand = NoFillers | FewFillers | FrequentFillers

  datatype SpeechMetrics = SpeechMetrics(wordCount: nat, wpm: int, fillerCount: nat, summary: string)

  /** Fewer than 10 words is brief, 30 or more is detailed, anything between moderate. */
  function LengthBandOf(wordCount: nat): (b: LengthBand)
    ensures b == Brief <==> wordCount < 10
    ensures b == Detailed <==> wordCount >= 30
  {
    if wordCount < 10 then Brief else if wordCount < 30 then Moderate else Detailed
  }

  /** Below 100 words per minute is slow, from 150 fast, anything between steady. */
  function PaceBandOf(wpm: int): (b: PaceBand)
    ensures b == Slow <==> wpm < 100
    ensures b == Fast <==> wpm >= 150
  {
    if wpm < 100 then Slow else if wpm < 150 then Steady else Fast
  }

  /** No filler is none, one or two are few, three or more frequent. */
  function FillerBandOf(fillerCount: nat): (b: FillerBand)
    ensures b == NoFillers <==> fillerCount == 0
    ensures b == FrequentFillers <==> fillerCount >= 3
  {
    if fillerCount == 0 then NoFillers else if fillerCount <= 2 then FewFillers else FrequentFillers
  }

  function LengthText(b: LengthBand): string
  {
    match b
    case Brief => "Brief"
    case Moderate => "Moderate"
    case Detailed => "Detailed"
  }

  function PaceText(b: PaceBand): string
  {
    match b
    case Slow => "slow pace"
    case Steady => "steady pace"
    case Fast => "fast pace"
  }

  function FillerText(b: FillerBand): string
  {
    match b
    case NoFillers => "no fillers"
    case FewFillers => "few fillers"
    case FrequentFillers => "frequent fillers"
  }

  /** `${lengthDesc}, ${paceDesc}, ${fillerDesc}`. */
  function SummaryText(l: LengthBand, p: PaceBand, f: FillerBand): (r: string)
    ensures |r| == |LengthText(l)| + |PaceText(p)| + |FillerText(f)| + 4
    ensures r[..|LengthText(l)|] == LengthText(l)
    ensures r[|r| - |FillerText(f)|..] == FillerText(f)
  {
    LengthText(l) + (", " + (PaceText(p) + (", " + FillerText(f))))
  }

  /** The summary text determines all three bands: no two band triples read alike. */
  lemma SummaryDeterminesBands(l1: LengthBand, p1: PaceBand, f1: FillerBand,
                               l2: LengthBand, p2: PaceBand, f2: FillerBand)
    requires SummaryText(l1, p1, f1) == SummaryText(l2, p2, f2)
    ensures l1 == l2 && p1 == p2 && f1 == f2
  {
    var rest1 := PaceText(p1) + (", " + FillerText(f1));
    var rest2 := PaceText(p2) + (", " + FillerText(f2));
    assert SummaryText(l1, p1, f1) == LengthText(l1) + (", " + rest1);
    assert SummaryText(l2, p2, f2) == LengthText(l2) + (", " + rest2);
    LengthTextLeads(l1, l2, ", " + rest1, ", " + rest2);
    Cancel(LengthText(l1), ", " + rest1, ", " + rest2);
    Cancel(", ", rest1, rest2);
    PaceTextLeads(p1, p2, ", " + FillerText(f1), ", " + FillerText(f2));
    Cancel(PaceText(p1), ", " + FillerText(f1), ", " + FillerText(f2));
    Cancel(", ", FillerText(f1), FillerText(f2));
    FillerTextDistinct(f1, f2);
  }

  lemma LengthTextLeads(l1: LengthBand, l2: LengthBand, x: string, y: string)
    requires LengthText(l1) + x == LengthText(l2) + y
    ensures l1 == l2
  {
    assert (LengthText(l1) + x)[0] == LengthText(l1)[0];
    assert (LengthText(l2) + y)[0] == LengthText(l2)[0];
  }

  lemma PaceTextLeads(p1: PaceBand, p2: PaceBand, x: string, y: string)
    requires PaceText(p1) + x == PaceText(p2) + y
    ensures p1 == p2
  {
    assert (PaceText(p1) + x)[0] == PaceText(p1)[0] && (PaceText(p1) + x)[1] == PaceText(p1)[1];
    assert (PaceText(p2) + y)[0] == PaceText(p2)[0] && (PaceText(p2) + y)[1] == PaceText(p2)[1];
  }

  lemma FillerTextDistinct(f1: FillerBand, f2: FillerBand)
    requires FillerText(f1) == FillerText(f2)
    ensures f1 == f2
  {
    assert FillerText(f1)[1] == FillerText(f2)[1];
  }

  lemma Cancel(a: string, b: string, c: string)
    requires a + b == a + c
    ensures b == c
  {
    assert b == (a + b)[|a|..];
    assert c == (a + c)[|a|..];
  }

  /**
   * The summary reads "no fillers" exactly when no filler word was counted:
   * it is the no-fillers summary for the same length and pace only then.
   */
  lemma NoFillersIffZero(l: LengthBand, p: PaceBand, fillerCount: nat)
    ensures SummaryText(l, p, FillerBandOf(fillerCount)) == SummaryText(l, p, NoFillers) <==> fillerCount == 0
  {
    if SummaryText(l, p, FillerBandOf(fillerCount)) == SummaryText(l, p, NoFillers) {
      SummaryDeterminesBands(l, p, FillerBandOf(fillerCount), l, p, NoFillers);
    }
  }

  /**
   * `seconds > 0 ? Math.round((wordCount / seconds) * 60) : 0` with
   * `seconds = timeMs / 1000`: the words per minute rounded to the nearest
   * integer, and 0 for an elapsed time that is not positive.
   */
  function WordsPerMinute(wordCount: nat, timeMs: int): (wpm: int)
    ensures timeMs <= 0 ==> wpm == 0
    ensures timeMs > 0 ==>
      wpm as real - 0.5 <= (wordCount * 60000) as real / timeMs as real < wpm as real + 0.5
    ensures wpm >= 0
  {
    var seconds := timeMs as real / 1000.0;
    if seconds > 0.0 then
      var rate := (wordCount as real / seconds) * 60.0;
      assert rate == (wordCount * 60000) as real / timeMs as real;
      Round(rate)
    else 0
  }

  /** `calculateSpeechMetrics(transcript, timeMs)`. */
  function CalculateSpeechMetrics(transcript: string, timeMs: int): (r: SpeechMetrics)
    ensures r.wordCount == WordStarts(transcript)
    ensures r.wpm == WordsPerMinute(r.wordCount, timeMs)
    ensures r.fillerCount == FillerCount(transcript)
    ensures r.fillerCount == 0 <==> forall q :: 0 <= q < |transcript| ==> MatchAt(transcript, q).None?
    ensures 2 * r.fillerCount <= |transcript|
    ensures r.summary == SummaryText(LengthBandOf(r.wordCount), PaceBandOf(r.wpm), FillerBandOf(r.fillerCount))
  {
    var wordCount := |Words(transcript)|;
    var wpm := WordsPerMinute(wordCount, timeMs);
    var fillerCount := FillerCount(transcript);
    WordCountIsRunCount(transcript);
    SpeechMetrics(wordCount, wpm, fillerCount,
      SummaryText(LengthBandOf(wordCount), PaceBandOf(wpm), FillerBandOf(fillerCount)))
  }
}
