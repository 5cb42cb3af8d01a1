/**
 * The blink detector of the landmark callback. The eye aspect ratio (EAR) of
 * a frame below 0.2 means the eyes are closed; a blink is counted on an
 * open-to-closed transition, but only when more than 100 ms have passed since
 * the last counted blink. Times are integer milliseconds.
 */
module Blink {

  const BlinkThreshold: real := 0.2
  const DebounceMs: int := 100

  datatype BlinkState = BlinkState(eyesClosed: bool, blinkCount: nat, lastBlinkTime: int)

  /** The state after one frame with aspect ratio `ear` seen at time `now`. */
  function Step(s: BlinkState, ear: real, now: int): (t: BlinkState)
    ensures t.eyesClosed <==> ear < BlinkThreshold
    ensures s.blinkCount <= t.blinkCount <= s.blinkCount + 1
    ensures t.blinkCount == s.blinkCount + 1 <==>
      ear < BlinkThreshold && !s.eyesClosed && now - s.lastBlinkTime > DebounceMs
    ensures t.lastBlinkTime == (if t.blinkCount == s.blinkCount then s.lastBlinkTime else now)
  {
    if ear < BlinkThreshold && !s.eyesClosed then
      if now - s.lastBlinkTime > DebounceMs then BlinkState(true, s.blinkCount + 1, now)
      else s.(eyesClosed := true)
    else if ear >= BlinkThreshold then s.(eyesClosed := false)
    else s
  }

  datatype Frame = Frame(ear: real, time: int)

  /**
   * The state after a sequence of frames, first to last: the eyes are closed
   * exactly when the last frame's ratio is below the threshold.
   */
  function Run(s: BlinkState, frames: seq<Frame>): (t: BlinkState)
    ensures |frames| == 0 ==> t == s
    ensures |frames| > 0 ==> (t.eyesClosed <==> frames[|frames| - 1].ear < BlinkThreshold)
    decreases |frames|
  {
    if |frames| == 0 then s else Run(Step(s, frames[0].ear, frames[0].time), frames[1..])
  }

  /** The number of open-to-closed transitions in `frames`, starting with eyes closed or not. */
  function Closings(closed: bool, frames: seq<Frame>): nat
    decreases |frames|
  {
    if |frames| == 0 then 0
    else
      var closes := frames[0].ear < BlinkThreshold;
      (if closes && !closed then 1 else 0) + Closings(closes, frames[1..])
  }

  /** Between resets the count never goes down, and rises at most once per eye closing. */
  lemma {:induction false} RunCountBounds(s: BlinkState, frames: seq<Frame>)
    ensures s.blinkCount <= Run(s, frames).blinkCount <= s.blinkCount + Closings(s.eyesClosed, frames)
    decreases |frames|
  {
    if |frames| > 0 {
      RunCountBounds(Step(s, frames[0].ear, frames[0].time), frames[1..]);
    }
  }

  /** Each counted blink moves the last blink time forward by more than the debounce interval. */
  lemma {:induction false} BlinksAreSpaced(s: BlinkState, frames: seq<Frame>)
    ensures var t := Run(s, frames);
      t.lastBlinkTime - s.lastBlinkTime >= (DebounceMs + 1) * (t.blinkCount - s.blinkCount)
    decreases |frames|
  {
    if |frames| > 0 {
      var next := Step(s, frames[0].ear, frames[0].time);
      BlinksAreSpaced(next, frames[1..]);
      RunCountBounds(next, frames[1..]);
    }
  }

  /** No blink is counted while every frame falls within 100 ms of the last counted blink. */
  lemma {:induction false} NoBlinkWithinDebounce(s: BlinkState, frames: seq<Frame>)
    requires forall i :: 0 <= i < |frames| ==> frames[i].time - s.lastBlinkTime <= DebounceMs
    ensures Run(s, frames).blinkCount == s.blinkCount
    ensures Run(s, frames).lastBlinkTime == s.lastBlinkTime
    decreases |frames|
  {
    if |frames| > 0 {
      var next := Step(s, frames[0].ear, frames[0].time);
      assert forall i :: 0 <= i < |frames[1..]| ==> frames[1..][i] == frames[i + 1];
      NoBlinkWithinDebounce(next, frames[1..]);
    }
  }

  /** Eyes that stay open never produce a blink, whatever the timing. */
  lemma {:induction false} OpenEyesNeverBlink(s: BlinkState, frames: seq<Frame>)
    requires forall i :: 0 <= i < |frames| ==> frames[i].ear >= BlinkThreshold
    ensures Closings(s.eyesClosed, frames) == 0
    ensures Run(s, frames).blinkCount == s.blinkCount
    decreases |frames|
  {
    if |frames| > 0 {
      var next := Step(s, frames[0].ear, frames[0].time);
      assert forall i :: 0 <= i < |frames[1..]| ==> frames[1..][i] == frames[i + 1];
      OpenEyesNeverBlink(next, frames[1..]);
      RunCountBounds(s, frames);
    }
  }
}
