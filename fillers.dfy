/**
 * The filler-word count of the speech metrics: the number of matches that
 * `transcript.match(/\b(um|uh|er|ah|like|you know|basically|actually|so|well)\b/gi)`
 * returns.
 *
 * The global match scans left to right. At each position the regular
 * expression tries `\b`, then the alternatives in the order written, each
 * followed by `\b`, backtracking to the next alternative when the trailing
 * `\b` fails. After a match the scan resumes where the match ended;
 * otherwise it moves on by one character.
 */
module Fillers {
  import opened Text
  import opened Wrappers

  /** The alternatives of the pattern, in the order the engine tries them. */
  const FillerWords: seq<string> :=
    ["um", "uh", "er", "ah", "like", "you know", "basically", "actually", "so", "well"]

  /** `\w` without the `u` flag: ASCII letters, digits and underscore. */
  predicate IsWordChar(c: char)
  {
    ('A' <= c <= 'Z') || ('a' <= c <= 'z') || ('0' <= c <= '9') || c == '_'
  }

  /** `\b` at position `p` of `s`: a word character on exactly one side. */
  predicate IsBoundary(s: string, p: nat)
    requires p <= |s|
  {
    (p > 0 && IsWordChar(s[p - 1])) != (p < |s| && IsWordChar(s[p]))
  }

  /**
   * `s` holds `w` at position `p` under the `i` flag. Without the `u` flag the
   * engine folds case with `toUpperCase` but never maps a non-ASCII character
   * onto an ASCII one, so only ASCII letters compare case-insensitively with
   * the (ASCII) pattern.
   */
  predicate HoldsAt(s: string, p: nat, w: string)
  {
    p + |w| <= |s| && forall k :: 0 <= k < |w| ==> UpperAscii(s[p + k]) == UpperAscii(w[k])
  }

  /** The alternative `FillerWords[k]`, bracketed by `\b`, matches at `p`. */
  predicate AlternativeAt(s: string, p: nat, k: nat)
    requires p <= |s| && k < |FillerWords|
  {
    IsBoundary(s, p) && HoldsAt(s, p, FillerWords[k]) && IsBoundary(s, p + |FillerWords[k]|)
  }

  /** The length of the match the engine finds at `p`, trying alternatives from `k` on. */
  function MatchFrom(s: string, p: nat, k: nat): (m: Option<nat>)
    requires p <= |s| && k <= |FillerWords|
    ensures m.Some? ==> 2 <= m.value && p + m.value <= |s|
    decreases |FillerWords| - k
  {
    if k == |FillerWords| then None
    else if AlternativeAt(s, p, k) then Some(|FillerWords[k]|)
    else MatchFrom(s, p, k + 1)
  }

  /** The engine finds a match from alternative `k` on exactly when one of those alternatives matches. */
  lemma {:induction false} MatchFromIff(s: string, p: nat, k: nat)
    requires p <= |s| && k <= |FillerWords|
    ensures MatchFrom(s, p, k).Some? <==> exists k' :: k <= k' < |FillerWords| && AlternativeAt(s, p, k')
    decreases |FillerWords| - k
  {
    if k < |FillerWords| && !AlternativeAt(s, p, k) {
      MatchFromIff(s, p, k + 1);
    }
  }

  /** The match found is as long as the first alternative, from `k` on, that matches. */
  lemma {:induction false} MatchFromFirst(s: string, p: nat, k: nat, k': nat)
    requires p <= |s| && k <= k' < |FillerWords|
    requires AlternativeAt(s, p, k') && forall j :: k <= j < k' ==> !AlternativeAt(s, p, j)
    ensures MatchFrom(s, p, k) == Some(|FillerWords[k']|)
    decreases k' - k
  {
    if k < k' {
      MatchFromFirst(s, p, k + 1, k');
    }
  }

  /** The length of the match at position `p`, if the pattern matches there. */
  function MatchAt(s: string, p: nat): (m: Option<nat>)
    requires p <= |s|
    ensures m.Some? ==> 2 <= m.value && p + m.value <= |s|
  {
    MatchFrom(s, p, 0)
  }

  /** The pattern matches at `p` exactly when one of its alternatives, bracketed by `\b`, does. */
  lemma MatchAtIffAlternative(s: string, p: nat)
    requires p <= |s|
    ensures MatchAt(s, p).Some? <==> exists k :: 0 <= k < |FillerWords| && AlternativeAt(s, p, k)
  {
    MatchFromIff(s, p, 0);
  }

  /**
   * The number of matches the global scan finds from position `p` on. Matches
   * never overlap and each is at least two characters long, so there are at
   * most half as many as there are characters left.
   */
  function CountFrom(s: string, p: nat): (c: nat)
    requires p <= |s|
    ensures 2 * c <= |s| - p
    decreases |s| - p
  {
    if p == |s| then 0
    else match MatchAt(s, p)
      case Some(n) => 1 + CountFrom(s, p + n)
      case None => CountFrom(s, p + 1)
  }

  /** Where the scan resumes after trying position `p`. */
  function NextScan(s: string, p: nat): (q: nat)
    requires p < |s|
    ensures p < q <= |s|
  {
    match MatchAt(s, p)
    case Some(n) => p + n
    case None => p + 1
  }

  lemma CountFromStep(s: string, p: nat)
    requires p < |s|
    ensures CountFrom(s, p) == (if MatchAt(s, p).Some? then 1 else 0) + CountFrom(s, NextScan(s, p))
  {
  }

  /**
   * `(transcript.match(pattern) || []).length`: zero exactly when no filler
   * word occurs anywhere, and at most half the length of the transcript.
   */
  function FillerCount(s: string): (n: nat)
    ensures n == 0 <==> forall q :: 0 <= q < |s| ==> MatchAt(s, q).None?
    ensures 2 * n <= |s|
  {
    CountFromZero(s, 0);
    CountFrom(s, 0)
  }

  /** The scan finds nothing from `p` on exactly when the pattern matches nowhere from `p` on. */
  lemma {:induction false} CountFromZero(s: string, p: nat)
    requires p <= |s|
    ensures CountFrom(s, p) == 0 <==> forall q :: p <= q < |s| ==> MatchAt(s, q).None?
    decreases |s| - p
  {
    if p < |s| {
      CountFromZero(s, p + 1);
    }
  }

  /** Two strings that agree up to ASCII case. */
  predicate SameUpToCase(s: string, t: string)
  {
    |s| == |t| && forall i :: 0 <= i < |s| ==> UpperAscii(s[i]) == UpperAscii(t[i])
  }

  lemma WordCharUpToCase(c: char, d: char)
    requires UpperAscii(c) == UpperAscii(d)
    ensures IsWordChar(c) == IsWordChar(d)
  {
  }

  lemma MatchAtUpToCase(s: string, t: string, p: nat)
    requires SameUpToCase(s, t) && p <= |s|
    ensures MatchAt(s, p) == MatchAt(t, p)
  {
    forall q | 0 <= q < |s| ensures IsWordChar(s[q]) == IsWordChar(t[q]) {
      WordCharUpToCase(s[q], t[q]);
    }
    assert forall q :: 0 <= q <= |s| ==> IsBoundary(s, q) == IsBoundary(t, q);
    assert forall w :: w in FillerWords ==> HoldsAt(s, p, w) == HoldsAt(t, p, w);
    MatchFromUpToCase(s, t, p, 0);
  }

  lemma {:induction false} MatchFromUpToCase(s: string, t: string, p: nat, k: nat)
    requires SameUpToCase(s, t) && p <= |s| && k <= |FillerWords|
    requires forall q :: 0 <= q <= |s| ==> IsBoundary(s, q) == IsBoundary(t, q)
    requires forall w :: w in FillerWords ==> HoldsAt(s, p, w) == HoldsAt(t, p, w)
    ensures MatchFrom(s, p, k) == MatchFrom(t, p, k)
    decreases |FillerWords| - k
  {
    if k < |FillerWords| {
      assert FillerWords[k] in FillerWords;
      MatchFromUpToCase(s, t, p, k + 1);
    }
  }

  lemma {:induction false} CountFromUpToCase(s: string, t: string, p: nat)
    requires SameUpToCase(s, t) && p <= |s|
    ensures CountFrom(s, p) == CountFrom(t, p)
    decreases |s| - p
  {
    if p < |s| {
      MatchAtUpToCase(s, t, p);
      var next := NextScan(s, p);
      assert next == NextScan(t, p);
      CountFromUpToCase(s, t, next);
      CountFromStep(s, p);
      CountFromStep(t, p);
    }
  }

  /** The `i` flag: changing the case of ASCII letters never changes the count. */
  lemma FillerCountIgnoresCase(s: string, t: string)
    requires SameUpToCase(s, t)
    ensures FillerCount(s) == FillerCount(t)
  {
    CountFromUpToCase(s, t, 0);
  }
}
