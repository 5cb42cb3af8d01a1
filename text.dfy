/**
 * String handling used by the speech metrics and the display helpers:
 * JavaScript's whitespace class, `trim()`, `split(/\s+/)` followed by
 * `filter(w => w.length > 0)`, and `capitalise`.
 */
module Text {

  /**
   * JavaScript's `\s`, which is also the set of characters `trim()` removes:
   * tab, line feed, vertical tab, form feed, carriage return, the space
   * separators (category Zs), the line and paragraph separators and the
   * byte-order mark.
   */
  predicate IsSpace(c: char)
  {
    || '\t' <= c <= '\r'
    || c == ' ' || c == '\U{A0}' || c == '\U{1680}'
    || '\U{2000}' <= c <= '\U{200A}'
    || c == '\U{2028}' || c == '\U{2029}' || c == '\U{202F}' || c == '\U{205F}'
    || c == '\U{3000}' || c == '\U{FEFF}'
  }

  /** A string of ASCII letters holds no whitespace. */
  lemma LettersNoSpace(w: string)
    requires forall i :: 0 <= i < |w| ==> 'A' <= w[i] <= 'Z' || 'a' <= w[i] <= 'z'
    ensures NoSpace(w)
  {
  }

  predicate NoSpace(s: string)
  {
    forall i :: 0 <= i < |s| ==> !IsSpace(s[i])
  }

  predicate AllSpace(s: string)
  {
    forall i :: 0 <= i < |s| ==> IsSpace(s[i])
  }

  /** The first position at or after `p` that holds whitespace, or `|s|` when there is none. */
  function SpaceFrom(s: string, p: nat): (i: nat)
    requires p <= |s|
    ensures p <= i <= |s|
    ensures forall k :: p <= k < i ==> !IsSpace(s[k])
    ensures i < |s| ==> IsSpace(s[i])
    decreases |s| - p
  {
    if p == |s| || IsSpace(s[p]) then p else SpaceFrom(s, p + 1)
  }

  /** The first position at or after `p` that holds no whitespace, or `|s|` when there is none. */
  function NonSpaceFrom(s: string, p: nat): (i: nat)
    requires p <= |s|
    ensures p <= i <= |s|
    ensures forall k :: p <= k < i ==> IsSpace(s[k])
    ensures i < |s| ==> !IsSpace(s[i])
    decreases |s| - p
  {
    if p == |s| || !IsSpace(s[p]) then p else NonSpaceFrom(s, p + 1)
  }

  /**
   * The end of the text before position `q`: the least `e`, not below `lo`,
   * such that only whitespace lies between `e` and `q`.
   */
  function TextEnd(s: string, lo: nat, q: nat): (e: nat)
    requires lo <= q <= |s|
    ensures lo <= e <= q
    ensures forall k :: e <= k < q ==> IsSpace(s[k])
    ensures e > lo ==> !IsSpace(s[e - 1])
    decreases q
  {
    if q == lo || !IsSpace(s[q - 1]) then q else TextEnd(s, lo, q - 1)
  }

  /** `s.trim()`: `s` without its leading and trailing whitespace. */
  function Trim(s: string): (r: string)
    ensures |r| <= |s|
    ensures r == [] <==> AllSpace(s)
    ensures r == [] || (!IsSpace(r[0]) && !IsSpace(r[|r| - 1]))
  {
    var a := NonSpaceFrom(s, 0);
    var e := TextEnd(s, a, |s|);
    assert a < |s| ==> e > a;
    s[a..e]
  }

  /** Trimming removes whitespace at both ends and nothing else. */
  lemma TrimDropsOnlySpace(s: string)
    ensures exists a, e :: (0 <= a <= e <= |s| && Trim(s) == s[a..e]
      && AllSpace(s[..a]) && AllSpace(s[e..]))
  {
    var a := NonSpaceFrom(s, 0);
    var e := TextEnd(s, a, |s|);
    assert Trim(s) == s[a..e];
    assert AllSpace(s[..a]) && AllSpace(s[e..]);
  }

  /**
   * `s.split(/\s+/)` applied to the part of `s` from `p` on: the pieces between
   * the maximal runs of whitespace, in order. A leading or trailing run yields
   * an empty first or last piece, and an empty string splits into one empty
   * piece.
   */
  function SplitFrom(s: string, p: nat): (pieces: seq<string>)
    requires p <= |s|
    ensures |pieces| > 0
    decreases |s| - p
  {
    var i := SpaceFrom(s, p);
    if i == |s| then [s[p..]]
    else
      var j := NonSpaceFrom(s, i);
      assert j > i;
      [s[p..i]] + SplitFrom(s, j)
  }

  /** The whitespace runs `SplitFrom(s, p)` splits at, in order. */
  function GapsFrom(s: string, p: nat): seq<string>
    requires p <= |s|
    decreases |s| - p
  {
    var i := SpaceFrom(s, p);
    if i == |s| then []
    else
      var j := NonSpaceFrom(s, i);
      assert j > i;
      [s[i..j]] + GapsFrom(s, j)
  }

  /** The pieces joined again, with the `k`-th gap between pieces `k` and `k + 1`. */
  function Interleave(pieces: seq<string>, gaps: seq<string>): string
    requires |pieces| == |gaps| + 1
    decreases |gaps|
  {
    if |gaps| == 0 then pieces[0] else pieces[0] + gaps[0] + Interleave(pieces[1..], gaps[1..])
  }

  /**
   * `pieces` and `gaps` have the shape of a split on `/\s+/`: pieces without
   * whitespace, of which only the first and the last may be empty, separated by
   * non-empty runs of whitespace.
   */
  predicate IsSplitting(pieces: seq<string>, gaps: seq<string>)
  {
    && |pieces| == |gaps| + 1
    && (forall k :: 0 <= k < |pieces| ==> NoSpace(pieces[k]))
    && (forall k :: 0 < k < |pieces| - 1 ==> pieces[k] != [])
    && (forall k :: 0 <= k < |gaps| ==> gaps[k] != [] && AllSpace(gaps[k]))
  }

  /**
   * `s.split(/\s+/)`: the pieces, put back together with the whitespace runs
   * between them, give `s` again, and they have the shape of a split. By
   * `SplittingUnique` no other sequence of pieces has both properties.
   */
  function SplitOnSpaces(s: string): (pieces: seq<string>)
    ensures |pieces| > 0
    ensures IsSplitting(pieces, GapsFrom(s, 0))
    ensures Interleave(pieces, GapsFrom(s, 0)) == s
  {
    SplitFromIsSplitting(s, 0);
    SplitFromRebuilds(s, 0);
    assert s[0..] == s;
    SplitFrom(s, 0)
  }

  /** The split from `p` has the shape of a split, and its first piece is empty only at whitespace or the end. */
  lemma {:induction false} SplitFromIsSplitting(s: string, p: nat)
    requires p <= |s|
    ensures IsSplitting(SplitFrom(s, p), GapsFrom(s, p))
    ensures p < |s| && !IsSpace(s[p]) ==> SplitFrom(s, p)[0] != []
    decreases |s| - p
  {
    var i := SpaceFrom(s, p);
    if i < |s| {
      var j := NonSpaceFrom(s, i);
      SplitFromIsSplitting(s, j);
      var rest, gaps := SplitFrom(s, j), GapsFrom(s, j);
      assert SplitFrom(s, p) == [s[p..i]] + rest;
      assert GapsFrom(s, p) == [s[i..j]] + gaps;
      assert j == |s| ==> rest == [s[j..]];
      assert NoSpace(s[p..i]) && AllSpace(s[i..j]);
    } else {
      assert NoSpace(s[p..]);
    }
  }

  /** Joining the split from `p` with its gaps gives back the text from `p`. */
  lemma {:induction false} SplitFromRebuilds(s: string, p: nat)
    requires p <= |s|
    ensures |SplitFrom(s, p)| == |GapsFrom(s, p)| + 1
    ensures Interleave(SplitFrom(s, p), GapsFrom(s, p)) == s[p..]
    decreases |s| - p
  {
    var i := SpaceFrom(s, p);
    if i < |s| {
      var j := NonSpaceFrom(s, i);
      SplitFromRebuilds(s, j);
      assert SplitFrom(s, p) == [s[p..i]] + SplitFrom(s, j);
      assert GapsFrom(s, p) == [s[i..j]] + GapsFrom(s, j);
      InterleaveCons(s[p..i], s[i..j], SplitFrom(s, j), GapsFrom(s, j));
      SliceJoin(s, p, i, j);
    }
  }

  lemma SliceJoin(s: string, p: nat, i: nat, j: nat)
    requires p <= i <= j <= |s|
    ensures s[p..] == s[p..i] + s[i..j] + s[j..]
  {
  }

  lemma InterleaveCons(piece: string, gap: string, pieces: seq<string>, gaps: seq<string>)
    requires |pieces| == |gaps| + 1
    ensures Interleave([piece] + pieces, [gap] + gaps) == piece + gap + Interleave(pieces, gaps)
  {
    assert ([piece] + pieces)[1..] == pieces && ([gap] + gaps)[1..] == gaps;
  }

  /** A whole string without whitespace ends its first piece at its end, or at the first gap. */
  lemma FirstPieceEnds(pieces: seq<string>, gaps: seq<string>)
    requires IsSplitting(pieces, gaps)
    ensures SpaceFrom(Interleave(pieces, gaps), 0) == |pieces[0]|
    ensures |gaps| > 0 ==> |Interleave(pieces, gaps)| > |pieces[0]|
    ensures Interleave(pieces, gaps)[..|pieces[0]|] == pieces[0]
  {
    var x := Interleave(pieces, gaps);
    var a := pieces[0];
    if |gaps| > 0 {
      var rest := gaps[0] + Interleave(pieces[1..], gaps[1..]);
      assert x == a + rest;
      assert IsSpace(rest[0]);
      SpaceFromAt(x, |a|);
    } else {
      assert NoSpace(pieces[0]);
      SpaceFromAt(x, |a|);
    }
  }

  /** Position `e` is where the first whitespace at or after 0 lies. */
  lemma SpaceFromAt(x: string, e: nat)
    requires e <= |x|
    requires forall k :: 0 <= k < e ==> !IsSpace(x[k])
    requires e < |x| ==> IsSpace(x[e])
    ensures SpaceFrom(x, 0) == e
  {
  }

  /** Position `e` is where the first non-whitespace at or after 0 lies. */
  lemma NonSpaceFromAt(x: string, e: nat)
    requires e <= |x|
    requires forall k :: 0 <= k < e ==> IsSpace(x[k])
    requires e < |x| ==> !IsSpace(x[e])
    ensures NonSpaceFrom(x, 0) == e
  {
  }

  /** After the first gap, the text goes on with a non-space character, or stops. */
  lemma GapEnds(pieces: seq<string>, gaps: seq<string>)
    requires IsSplitting(pieces, gaps) && |gaps| > 0
    ensures NonSpaceFrom(gaps[0] + Interleave(pieces[1..], gaps[1..]), 0) == |gaps[0]|
  {
    var tail := Interleave(pieces[1..], gaps[1..]);
    var y := gaps[0] + tail;
    if |gaps| > 1 {
      assert pieces[1] != [];
      assert tail == pieces[1] + gaps[1] + Interleave(pieces[2..], gaps[2..]);
      assert y[|gaps[0]|] == pieces[1][0];
    } else {
      assert tail == pieces[1];
    }
    NonSpaceFromAt(y, |gaps[0]|);
  }

  /** Dropping the first piece and the first gap keeps the shape of a split. */
  lemma SplittingTail(pieces: seq<string>, gaps: seq<string>)
    requires IsSplitting(pieces, gaps) && |gaps| > 0
    ensures IsSplitting(pieces[1..], gaps[1..])
  {
    var ps, gs := pieces[1..], gaps[1..];
    assert forall k :: 0 <= k < |ps| ==> ps[k] == pieces[k + 1];
    assert forall k :: 0 <= k < |gs| ==> gs[k] == gaps[k + 1];
  }

  /** A text has only one decomposition of the shape of a split: the split is unique. */
  lemma {:induction false} SplittingUnique(ps: seq<string>, gs: seq<string>, qs: seq<string>, hs: seq<string>)
    requires IsSplitting(ps, gs) && IsSplitting(qs, hs)
    requires Interleave(ps, gs) == Interleave(qs, hs)
    ensures ps == qs && gs == hs
    decreases |gs|
  {
    var x := Interleave(ps, gs);
    FirstPieceEnds(ps, gs);
    FirstPieceEnds(qs, hs);
    assert ps[0] == qs[0];
    if |gs| == 0 || |hs| == 0 {
      assert |gs| == 0 && |hs| == 0;
    } else {
      var n := |ps[0]|;
      var y := gs[0] + Interleave(ps[1..], gs[1..]);
      var z := hs[0] + Interleave(qs[1..], hs[1..]);
      assert x == ps[0] + y && x == qs[0] + z;
      assert y == x[n..] == z;
      GapEnds(ps, gs);
      GapEnds(qs, hs);
      assert gs[0] == y[..|gs[0]|] == hs[0];
      assert Interleave(ps[1..], gs[1..]) == y[|gs[0]|..] == Interleave(qs[1..], hs[1..]);
      SplittingTail(ps, gs);
      SplittingTail(qs, hs);
      SplittingUnique(ps[1..], gs[1..], qs[1..], hs[1..]);
      assert ps == [ps[0]] + ps[1..] && qs == [qs[0]] + qs[1..];
      assert gs == [gs[0]] + gs[1..] && hs == [hs[0]] + hs[1..];
    }
  }

  /** `pieces.filter(w => w.length > 0)`. */
  function NonEmpty(pieces: seq<string>): (r: seq<string>)
    ensures |r| <= |pieces|
    ensures forall k :: 0 <= k < |r| ==> r[k] != [] && r[k] in pieces
    ensures forall w :: w in pieces && w != [] ==> w in r
  {
    if |pieces| == 0 then []
    else if pieces[0] == [] then NonEmpty(pieces[1..])
    else [pieces[0]] + NonEmpty(pieces[1..])
  }

  /** Filtering a concatenation filters each part: the kept pieces stay in input order. */
  lemma {:induction false} NonEmptyConcat(a: seq<string>, b: seq<string>)
    ensures NonEmpty(a + b) == NonEmpty(a) + NonEmpty(b)
  {
    if |a| > 0 {
      assert (a + b)[0] == a[0] && (a + b)[1..] == a[1..] + b;
      NonEmptyConcat(a[1..], b);
    } else {
      assert a + b == b;
    }
  }

  /** `s.trim().split(/\s+/).filter(w => w.length > 0)`: the words of `s`. */
  function Words(s: string): (words: seq<string>)
    ensures forall k :: 0 <= k < |words| ==> words[k] != [] && NoSpace(words[k])
  {
    SplitPiecesNoSpace(Trim(s), 0);
    NonEmpty(SplitOnSpaces(Trim(s)))
  }

  /** No piece of a split holds whitespace. */
  lemma {:induction false} SplitPiecesNoSpace(s: string, p: nat)
    requires p <= |s|
    ensures forall k :: 0 <= k < |SplitFrom(s, p)| ==> NoSpace(SplitFrom(s, p)[k])
    decreases |s| - p
  {
    var i := SpaceFrom(s, p);
    assert NoSpace(s[p..i]);
    if i < |s| {
      var j := NonSpaceFrom(s, i);
      SplitPiecesNoSpace(s, j);
      assert SplitFrom(s, p) == [s[p..i]] + SplitFrom(s, j);
    } else {
      assert s[p..i] == s[p..];
    }
  }

  /** Position `i` of `s` begins a word: a non-space character not preceded by one. */
  predicate StartsWord(s: string, i: nat)
    requires i < |s|
  {
    !IsSpace(s[i]) && (i == 0 || IsSpace(s[i - 1]))
  }

  /** The number of positions at or after `p` that begin a word. */
  function StartsFrom(s: string, p: nat): nat
    requires p <= |s|
    decreases |s| - p
  {
    if p == |s| then 0 else (if StartsWord(s, p) then 1 else 0) + StartsFrom(s, p + 1)
  }

  /**
   * The number of maximal runs of non-whitespace characters in `s`, counted as
   * the positions that begin one. This is the reference definition of a word
   * count, independent of trimming and splitting.
   */
  function WordStarts(s: string): nat
  {
    StartsFrom(s, 0)
  }

  /** A stretch in which no position begins a word adds nothing to the count. */
  lemma {:induction false} SkipNonStarts(s: string, p: nat, q: nat)
    requires p <= q <= |s|
    requires forall k :: p <= k < q ==> !StartsWord(s, k)
    ensures StartsFrom(s, p) == StartsFrom(s, q)
    decreases q - p
  {
    if p < q {
      SkipNonStarts(s, p + 1, q);
    }
  }

  /** The count of `a + b` from a position inside `a`, when the join glues no two words together. */
  lemma {:induction false} StartsFromConcat(a: string, b: string, k: nat)
    requires k <= |a|
    requires a == [] || b == [] || IsSpace(a[|a| - 1]) || IsSpace(b[0])
    ensures StartsFrom(a + b, k) == StartsFrom(a, k) + StartsFrom(b, 0)
    decreases |a| - k
  {
    if k < |a| {
      StartsFromConcat(a, b, k + 1);
      assert (a + b)[k] == a[k];
      assert k > 0 ==> (a + b)[k - 1] == a[k - 1];
    } else {
      StartsFromShift(a, b, 0);
    }
  }

  /** The count of `a + b` from a position inside `b`. */
  lemma {:induction false} StartsFromShift(a: string, b: string, k: nat)
    requires k <= |b|
    requires a == [] || b == [] || IsSpace(a[|a| - 1]) || IsSpace(b[0])
    ensures StartsFrom(a + b, |a| + k) == StartsFrom(b, k)
    decreases |b| - k
  {
    if k < |b| {
      StartsFromShift(a, b, k + 1);
      assert (a + b)[|a| + k] == b[k];
      assert k > 0 ==> (a + b)[|a| + k - 1] == b[k - 1];
      assert k == 0 && a != [] ==> (a + b)[|a| - 1] == a[|a| - 1];
    }
  }

  /** Word starts add up across a join that does not glue two words together. */
  lemma WordStartsConcat(a: string, b: string)
    requires a == [] || b == [] || IsSpace(a[|a| - 1]) || IsSpace(b[0])
    ensures WordStarts(a + b) == WordStarts(a) + WordStarts(b)
  {
    StartsFromConcat(a, b, 0);
  }

  /** A non-empty string without whitespace is one word. */
  lemma WordStartsNoSpace(w: string)
    requires NoSpace(w)
    ensures WordStarts(w) == if w == [] then 0 else 1
  {
    if w != [] {
      SkipNonStarts(w, 1, |w|);
    }
  }

  /** A string of whitespace holds no word. */
  lemma WordStartsAllSpace(w: string)
    requires AllSpace(w)
    ensures WordStarts(w) == 0
  {
    SkipNonStarts(w, 0, |w|);
  }

  /**
   * Splitting from a position that begins the string or follows whitespace,
   * and dropping empty pieces, yields one piece per word start.
   */
  lemma {:induction false} SplitCountsWordStarts(s: string, p: nat)
    requires p <= |s| && (p == 0 || IsSpace(s[p - 1]))
    ensures |NonEmpty(SplitFrom(s, p))| == StartsFrom(s, p)
    decreases |s| - p
  {
    var i := SpaceFrom(s, p);
    LeadingRun(s, p, i);
    if i < |s| {
      var j := NonSpaceFrom(s, i);
      SkipNonStarts(s, i, j);
      SplitCountsWordStarts(s, j);
      SplitStep(s, p, i, j);
    } else {
      assert s[p..i] == s[p..];
      assert NonEmpty([s[p..]]) == if p < |s| then [s[p..]] else [];
    }
  }

  /** A run of non-whitespace at `p` holds one word start, at `p`, unless it is empty. */
  lemma LeadingRun(s: string, p: nat, i: nat)
    requires p <= |s| && (p == 0 || IsSpace(s[p - 1]))
    requires i == SpaceFrom(s, p)
    ensures StartsFrom(s, p) == (if p < i then 1 else 0) + StartsFrom(s, i)
  {
    if p < i {
      SkipNonStarts(s, p + 1, i);
    }
  }

  /** One step of the split: the first piece, then the pieces after the first gap. */
  lemma SplitStep(s: string, p: nat, i: nat, j: nat)
    requires p <= |s| && i == SpaceFrom(s, p) < |s| && j == NonSpaceFrom(s, i)
    ensures |NonEmpty(SplitFrom(s, p))| == (if p < i then 1 else 0) + |NonEmpty(SplitFrom(s, j))|
  {
    assert SplitFrom(s, p) == [s[p..i]] + SplitFrom(s, j);
    NonEmptyCount(s[p..i], SplitFrom(s, j));
  }

  lemma NonEmptyCount(head: string, rest: seq<string>)
    ensures |NonEmpty([head] + rest)| == (if head == [] then 0 else 1) + |NonEmpty(rest)|
  {
    assert ([head] + rest)[1..] == rest;
  }

  /** Trimming never adds or removes a word. */
  lemma TrimKeepsWordStarts(s: string)
    ensures WordStarts(Trim(s)) == WordStarts(s)
  {
    var a := NonSpaceFrom(s, 0);
    var e := TextEnd(s, a, |s|);
    TrimParts(s, a, e);
    DropTrailingSpace(s[a..], e - a);
    DropLeadingSpace(s, a);
  }

  lemma TrimParts(s: string, a: nat, e: nat)
    requires a == NonSpaceFrom(s, 0) && e == TextEnd(s, a, |s|)
    ensures Trim(s) == s[a..][..e - a]
    ensures AllSpace(s[..a]) && AllSpace(s[a..][e - a..])
  {
    assert s[a..][e - a..] == s[e..];
  }

  lemma DropLeadingSpace(s: string, a: nat)
    requires a <= |s| && AllSpace(s[..a])
    ensures WordStarts(s[a..]) == WordStarts(s)
  {
    assert s == s[..a] + s[a..];
    WordStartsAllSpace(s[..a]);
    WordStartsConcat(s[..a], s[a..]);
  }

  lemma DropTrailingSpace(s: string, e: nat)
    requires e <= |s| && AllSpace(s[e..])
    ensures WordStarts(s[..e]) == WordStarts(s)
  {
    assert s == s[..e] + s[e..];
    WordStartsAllSpace(s[e..]);
    WordStartsConcat(s[..e], s[e..]);
  }

  /** The word count of the source is the number of maximal non-whitespace runs. */
  lemma WordCountIsRunCount(s: string)
    ensures |Words(s)| == WordStarts(s)
  {
    SplitCountsWordStarts(Trim(s), 0);
    TrimKeepsWordStarts(s);
  }

  /** `toUpperCase()` restricted to ASCII letters. */
  function UpperAscii(c: char): (u: char)
    ensures !('a' <= u <= 'z')
    ensures 'A' <= c <= 'Z' ==> u == c
  {
    if 'a' <= c <= 'z' then (c as int - 32) as char else c
  }

  /** `str.charAt(0).toUpperCase() + str.slice(1)`. */
  function Capitalise(s: string): (r: string)
    ensures |r| == |s|
    ensures |s| > 0 ==> !('a' <= r[0] <= 'z') && UpperAscii(r[0]) == UpperAscii(s[0])
    ensures |s| > 0 ==> r[1..] == s[1..]
  {
    if |s| == 0 then "" else [UpperAscii(s[0])] + s[1..]
  }

  /** Capitalising twice is capitalising once. */
  lemma CapitaliseIdempotent(s: string)
    ensures Capitalise(Capitalise(s)) == Capitalise(s)
  {
  }
}
