/**
 util.cpp of procmon: the scanning loops under the /proc parsers.  Each loop is
 proved against a specification function on strings, and each specification
 function is proved to undo the joining that produces such text.
 */
module Text {
  datatype Option<T> = None | Some(value: T)

  /** isspace in the "C" locale. */
  predicate IsSpace(c: char) {
    c == ' ' || '\t' <= c <= '\r'
  }

  predicate AllSpace(s: string) {
    forall i | 0 <= i < |s| :: IsSpace(s[i])
  }

  predicate NoSpace(s: string) {
    forall i | 0 <= i < |s| :: !IsSpace(s[i])
  }

  // ---------------------------------------------------------------- find and rfind

  /** The first position of `c` at or after `from`, or the length when there is none (npos). */
  function Find(s: string, c: char, from: nat): (k: nat)
    requires from <= |s|
    ensures from <= k <= |s| && c !in s[from..k] && (k < |s| ==> s[k] == c)
    decreases |s| - from
  {
    if from == |s| || s[from] == c then from
    else
      var k := Find(s, c, from + 1);
      assert s[from..k] == [s[from]] + s[from + 1..k];
      k
  }

  /** The position after the last `c`, or 0 when there is none. */
  function AfterLast(s: string, c: char): (k: nat)
    ensures k <= |s| && c !in s[k..] && (k > 0 ==> s[k - 1] == c)
  {
    if s == [] then 0
    else if s[|s| - 1] == c then |s|
    else
      var k := AfterLast(s[..|s| - 1], c);
      assert s[k..] == s[..|s| - 1][k..] + [s[|s| - 1]];
      k
  }

  // ---------------------------------------------------------------- split_ws

  /** A view into a string. */
  datatype Span = Span(lo: nat, hi: nat)

  function SkipSpace(s: string, i: nat): (k: nat)
    requires i <= |s|
    ensures i <= k <= |s| && (k < |s| ==> !IsSpace(s[k])) && AllSpace(s[i..k])
    decreases |s| - i
  {
    if i < |s| && IsSpace(s[i]) then SkipSpace(s, i + 1) else i
  }

  function SkipWord(s: string, i: nat): (k: nat)
    requires i <= |s|
    ensures i <= k <= |s| && (k < |s| ==> IsSpace(s[k])) && NoSpace(s[i..k])
    decreases |s| - i
  {
    if i < |s| && !IsSpace(s[i]) then SkipWord(s, i + 1) else i
  }

  /** The maximal runs without white space, from position `i` on. */
  function Spans(s: string, i: nat): (spans: seq<Span>)
    requires i <= |s|
    ensures forall k | 0 <= k < |spans| :: i <= spans[k].lo < spans[k].hi <= |s|
    decreases |s| - i
  {
    var lo := SkipSpace(s, i);
    if lo == |s| then [] else
      var hi := SkipWord(s, lo);
      [Span(lo, hi)] + Spans(s, hi)
  }

  /** What that means: the spans come in order and apart, none is empty, and the characters in them are exactly those
      that are no white space (space, tab, line feed, vertical tab, form feed, carriage return). */
  lemma SpansAreTheRuns(s: string)
    ensures forall a, b | 0 <= a < b < |Spans(s, 0)| :: Spans(s, 0)[a].hi < Spans(s, 0)[b].lo
    ensures forall k | 0 <= k < |s| ::
              s[k] !in " \t\n\r" + [11 as char, 12 as char]
              <==> exists a :: 0 <= a < |Spans(s, 0)| && Spans(s, 0)[a].lo <= k < Spans(s, 0)[a].hi
  {
    hide *;
    SpansAreApart(s, 0);
    SpaceIs(s);
    forall k | 0 <= k < |s|
      ensures !IsSpace(s[k]) <==> exists a :: 0 <= a < |Spans(s, 0)| && Spans(s, 0)[a].lo <= k < Spans(s, 0)[a].hi
    {
      SpansCover(s, 0, k);
      CoveredIs(Spans(s, 0), k);
    }
  }

  lemma CoveredIs(spans: seq<Span>, k: nat)
    ensures Covered(spans, k) <==> exists a :: 0 <= a < |spans| && spans[a].lo <= k < spans[a].hi
  {
  }

  lemma {:induction false} SpansAreApart(s: string, i: nat)
    requires i <= |s|
    ensures forall a, b | 0 <= a < b < |Spans(s, i)| :: Spans(s, i)[a].hi < Spans(s, i)[b].lo
    decreases |s| - i
  {
    hide SkipSpace, SkipWord, IsSpace;
    var lo := SkipSpace(s, i);
    if lo < |s| {
      SpansAreApart(s, SkipWord(s, lo));
      RestIsApart(s, SkipWord(s, lo));
    }
  }

  ghost predicate Covered(spans: seq<Span>, k: nat) {
    exists a :: 0 <= a < |spans| && spans[a].lo <= k < spans[a].hi
  }

  lemma CoveredByMore(v: Span, rest: seq<Span>, k: nat)
    ensures Covered([v] + rest, k) <==> v.lo <= k < v.hi || Covered(rest, k)
  {
    var all := [v] + rest;
    if v.lo <= k < v.hi {
      assert all[0] == v;
    }
    if Covered(rest, k) {
      var a :| 0 <= a < |rest| && rest[a].lo <= k < rest[a].hi;
      assert all[a + 1] == rest[a];
    }
  }

  lemma {:induction false} SpansCover(s: string, i: nat, k: nat)
    requires i <= k < |s|
    ensures !IsSpace(s[k]) <==> Covered(Spans(s, i), k)
    decreases |s| - i
  {
    hide SkipSpace, SkipWord, IsSpace, Covered;
    var lo := SkipSpace(s, i);
    if k < lo {
      assert s[i..lo][k - i] == s[k];
      SpansBegin(s, i);
      NotCovered(Spans(s, i), k);
    } else {
      var hi := SkipWord(s, lo);
      CoveredByMore(Span(lo, hi), Spans(s, hi), k);
      if k < hi {
        assert s[lo..hi][k - lo] == s[k];
      } else {
        SpansCover(s, hi, k);
      }
    }
  }

  lemma NotCovered(spans: seq<Span>, k: nat)
    requires forall a | 0 <= a < |spans| :: k < spans[a].lo
    ensures !Covered(spans, k)
  {
  }

  lemma SpaceIs(s: string)
    ensures forall k | 0 <= k < |s| :: IsSpace(s[k]) <==> s[k] in " \t\n\r" + [11 as char, 12 as char]
  {
  }

  /** After a word the next span does not begin at once. */
  lemma RestIsApart(s: string, hi: nat)
    requires hi <= |s| && (hi < |s| ==> IsSpace(s[hi]))
    ensures forall a | 0 <= a < |Spans(s, hi)| :: hi < Spans(s, hi)[a].lo
  {
    hide IsSpace;
    SpansBegin(s, hi);
  }

  lemma {:induction false} SpansBegin(s: string, i: nat)
    requires i <= |s|
    ensures forall a | 0 <= a < |Spans(s, i)| :: SkipSpace(s, i) <= Spans(s, i)[a].lo < |s|
    decreases |s| - i
  {
    var lo := SkipSpace(s, i);
    if lo < |s| {
      SpansBegin(s, SkipWord(s, lo));
    }
  }

  function Slice(s: string, v: Span): string
    requires v.lo <= v.hi <= |s|
  {
    s[v.lo..v.hi]
  }

  function Texts(s: string, spans: seq<Span>): (words: seq<string>)
    requires forall k | 0 <= k < |spans| :: spans[k].lo <= spans[k].hi <= |s|
    ensures |words| == |spans| && forall k | 0 <= k < |words| :: words[k] == Slice(s, spans[k])
  {
    seq(|spans|, k requires 0 <= k < |spans| => Slice(s, spans[k]))
  }

  function Words(s: string): seq<string> {
    Texts(s, Spans(s, 0))
  }

  method SplitWs(s: string) returns (parts: seq<Span>)
    ensures parts == Spans(s, 0)
  {
    hide IsSpace, Spans, SkipSpace, SkipWord;
    parts := [];
    var i := 0;
    while i < |s|
      invariant 0 <= i <= |s|
      invariant parts + Spans(s, i) == Spans(s, 0)
    {
      ghost var i0 := i;
      while i < |s| && IsSpace(s[i])
        invariant i0 <= i <= |s| && SkipSpace(s, i) == SkipSpace(s, i0)
      {
        SkipOne(s, i);
        i := i + 1;
      }
      SkipNone(s, i);
      var start := i;
      while i < |s| && !IsSpace(s[i])
        invariant start <= i <= |s| && SkipWord(s, i) == SkipWord(s, start)
      {
        WordOne(s, i);
        i := i + 1;
      }
      WordNone(s, i);
      SpansStep(s, i0, start, i, parts);
      if i > start {
        parts := parts + [Span(start, i)];
      }
    }
    SpansEnd(s, i);
  }

  lemma SkipOne(s: string, lo: nat)
    requires lo < |s| && IsSpace(s[lo])
    ensures SkipSpace(s, lo) == SkipSpace(s, lo + 1)
  {
  }

  lemma SkipNone(s: string, lo: nat)
    requires lo <= |s| && (lo < |s| ==> !IsSpace(s[lo]))
    ensures SkipSpace(s, lo) == lo
  {
  }

  lemma WordOne(s: string, lo: nat)
    requires lo < |s| && !IsSpace(s[lo])
    ensures SkipWord(s, lo) == SkipWord(s, lo + 1)
  {
  }

  lemma WordNone(s: string, lo: nat)
    requires lo <= |s| && (lo < |s| ==> IsSpace(s[lo]))
    ensures SkipWord(s, lo) == lo
  {
  }

  lemma SpansStep(s: string, i: nat, lo: nat, hi: nat, parts: seq<Span>)
    requires i <= lo <= hi <= |s| && SkipSpace(s, i) == lo && SkipWord(s, lo) == hi
    ensures parts + Spans(s, i) == (if hi > lo then parts + [Span(lo, hi)] else parts) + Spans(s, hi)
  {
    if hi == lo {
      assert lo == |s|;
    } else {
      assert parts + ([Span(lo, hi)] + Spans(s, hi)) == parts + [Span(lo, hi)] + Spans(s, hi);
    }
  }

  lemma SpansEnd(s: string, i: nat)
    requires i == |s|
    ensures Spans(s, i) == []
  {
  }

  /** Words with white space before each: the shape of every line the kernel prints. */
  function Weave(gaps: seq<string>, words: seq<string>): string
    requires |gaps| == |words|
  {
    if words == [] then "" else gaps[0] + words[0] + Weave(gaps[1..], words[1..])
  }

  predicate Weavable(gaps: seq<string>, words: seq<string>) {
    && |gaps| == |words|
    && (forall k | 0 <= k < |words| :: AllSpace(gaps[k]) && NoSpace(words[k]) && words[k] != "")
    && (forall k | 0 < k < |words| :: gaps[k] != "")
  }

  lemma {:induction false} SkipSpaceOver(s: string, i: nat, k: nat)
    requires i <= k <= |s| && AllSpace(s[i..k]) && (k < |s| ==> !IsSpace(s[k]))
    ensures SkipSpace(s, i) == k
    decreases k - i
  {
    if i < k {
      assert s[i..k][0] == s[i] && s[i + 1..k] == s[i..k][1..];
      SkipSpaceOver(s, i + 1, k);
    }
  }

  lemma {:induction false} SkipWordOver(s: string, i: nat, k: nat)
    requires i <= k <= |s| && NoSpace(s[i..k]) && (k < |s| ==> IsSpace(s[k]))
    ensures SkipWord(s, i) == k
    decreases k - i
  {
    if i < k {
      assert s[i..k][0] == s[i] && s[i + 1..k] == s[i..k][1..];
      SkipWordOver(s, i + 1, k);
    }
  }

  /** The spans of `s` from `from` on begin with those of `words`, the last of which ends at `end`. */
  ghost predicate Splits(s: string, from: nat, words: seq<string>, end: nat) {
    && from <= end <= |s|
    && |Spans(s, from)| >= |words|
    && Spans(s, from)[|words|..] == Spans(s, end)
    && (forall k | 0 <= k < |words| :: Slice(s, Spans(s, from)[k]) == words[k])
    && (if words == [] then from == end else Spans(s, from)[|words| - 1].hi == end)
  }

  lemma SplitsOneMore(s: string, from: nat, lo: nat, hi: nat, words: seq<string>, end: nat)
    requires from <= lo <= hi <= |s| && Spans(s, from) == [Span(lo, hi)] + Spans(s, hi)
    requires Splits(s, hi, words, end)
    ensures Splits(s, from, [s[lo..hi]] + words, end)
  {
    hide Spans, Slice;
    var all, rest, more := Spans(s, from), Spans(s, hi), [s[lo..hi]] + words;
    Prepended(all, Span(lo, hi), rest, |words|);
    SliceIs(s, lo, hi);
    forall k | 0 <= k < |more| ensures Slice(s, all[k]) == more[k] {
      if k > 0 {
        assert all[k] == rest[k - 1] && more[k] == words[k - 1];
      }
    }
  }

  lemma SliceIs(s: string, lo: nat, hi: nat)
    requires lo <= hi <= |s|
    ensures Slice(s, Span(lo, hi)) == s[lo..hi]
  {
  }

  lemma Prepended<T>(all: seq<T>, first: T, rest: seq<T>, n: nat)
    requires all == [first] + rest && n <= |rest|
    ensures all[0] == first && all[n + 1..] == rest[n..]
    ensures forall k | 0 < k < |all| :: all[k] == rest[k - 1]
  {
  }

  /** At position `i` of `s` stand the gaps and words, up to position `end`. */
  ghost predicate Woven(s: string, i: nat, gaps: seq<string>, words: seq<string>, end: nat)
    decreases |words|
  {
    && |gaps| == |words| && i <= |s|
    && if words == [] then end == i else
         var lo := i + |gaps[0]|;
         var hi := lo + |words[0]|;
         hi <= |s| && s[i..lo] == gaps[0] && s[lo..hi] == words[0] && Woven(s, hi, gaps[1..], words[1..], end)
  }

  lemma {:induction false} WeaveIsWoven(front: string, gaps: seq<string>, words: seq<string>, tail: string)
    requires |gaps| == |words|
    ensures Woven(front + Weave(gaps, words) + tail, |front|, gaps, words, |front + Weave(gaps, words)|)
    decreases |words|
  {
    var s := front + Weave(gaps, words) + tail;
    if words == [] {
      assert front + "" == front;
    } else {
      var rest := Weave(gaps[1..], words[1..]);
      var front' := front + gaps[0] + words[0];
      WeaveIsWoven(front', gaps[1..], words[1..], tail);
      Regroup(front, gaps[0], words[0], rest, tail);
    }
  }

  lemma Regroup(a: string, b: string, c: string, d: string, e: string)
    ensures a + (b + c + d) == a + b + c + d
    ensures var s := a + (b + c + d) + e;
            s[|a|..|a| + |b|] == b && s[|a| + |b|..|a| + |b| + |c|] == c
  {
  }

  /** Splitting undoes weaving, whatever the gaps; the last word ends exactly where the woven part does, and
      what follows is split as if it stood alone. */
  lemma {:induction false} SplitInvertsWeave(s: string, i: nat, gaps: seq<string>, words: seq<string>, end: nat)
    requires Weavable(gaps, words) && Woven(s, i, gaps, words, end)
    requires end <= |s| && (end == |s| || IsSpace(s[end]))
    ensures Splits(s, i, words, end)
    decreases |words|
  {
    hide Splits, Spans;
    if words == [] {
      NothingSplits(s, i);
    } else {
      var lo := i + |gaps[0]|;
      var hi := lo + |words[0]|;
      WordEnds(s, hi, gaps[1..], words[1..], end);
      FirstWord(s, i, lo, hi);
      SplitInvertsWeave(s, hi, gaps[1..], words[1..], end);
      SplitsOneMore(s, i, lo, hi, words[1..], end);
      assert [words[0]] + words[1..] == words;
    }
  }

  lemma NothingSplits(s: string, from: nat)
    requires from <= |s|
    ensures Splits(s, from, [], from)
  {
    assert Spans(s, from)[0..] == Spans(s, from);
  }

  lemma WordEnds(s: string, i: nat, gaps: seq<string>, words: seq<string>, end: nat)
    requires Woven(s, i, gaps, words, end) && end <= |s| && (end == |s| || IsSpace(s[end]))
    requires words != [] ==> gaps[0] != "" && AllSpace(gaps[0])
    ensures i < |s| ==> IsSpace(s[i])
  {
    if words != [] {
      assert s[i..i + |gaps[0]|][0] == gaps[0][0];
    }
  }

  lemma FirstWord(s: string, i: nat, lo: nat, hi: nat)
    requires i <= lo < hi <= |s| && AllSpace(s[i..lo]) && NoSpace(s[lo..hi]) && (hi < |s| ==> IsSpace(s[hi]))
    ensures Spans(s, i) == [Span(lo, hi)] + Spans(s, hi)
  {
    assert s[lo..hi][0] == s[lo];
    SkipSpaceOver(s, i, lo);
    SkipWordOver(s, lo, hi);
  }

  /** White space alone holds no words. */
  lemma NoWordsInSpace(s: string, i: nat)
    requires i <= |s| && AllSpace(s[i..])
    ensures Spans(s, i) == []
  {
    SkipSpaceOver(s, i, |s|);
  }

  /** For any words and any white space around them: splitting gives back exactly those words. */
  lemma WordsOfWeave(gaps: seq<string>, words: seq<string>, tail: string)
    requires Weavable(gaps, words) && AllSpace(tail)
    ensures Words(Weave(gaps, words) + tail) == words
  {
    hide Spans, Splits, Woven, Texts;
    var s, end := Weave(gaps, words) + tail, |Weave(gaps, words)|;
    assert "" + Weave(gaps, words) == Weave(gaps, words);
    WeaveIsWoven("", gaps, words, tail);
    if tail != "" {
      assert s[end] == tail[0];
    }
    SplitInvertsWeave(s, 0, gaps, words, end);
    assert s[end..] == tail;
    NoWordsInSpace(s, end);
    WordsAreAll(s, words, end);
  }

  lemma WordsAreAll(s: string, words: seq<string>, end: nat)
    requires end <= |s| && Splits(s, 0, words, end) && Spans(s, end) == []
    ensures Words(s) == words
  {
    assert |Spans(s, 0)[|words|..]| == 0;
  }

  // ---------------------------------------------------------------- trim

  /** `t` is `s` without its surrounding white space. */
  predicate IsTrimmed(s: string, lo: nat, hi: nat) {
    && lo <= hi <= |s| && AllSpace(s[..lo]) && AllSpace(s[hi..])
    && (lo < hi ==> !IsSpace(s[lo]) && !IsSpace(s[hi - 1]))
  }

  function Trimmed(s: string): (t: string)
    ensures exists lo: nat, hi: nat :: IsTrimmed(s, lo, hi) && t == s[lo..hi]
  {
    var lo := SkipSpace(s, 0);
    var hi := BackOver(s, lo, |s|);
    assert s[0..lo] == s[..lo];
    assert s[hi..|s|] == s[hi..];
    assert IsTrimmed(s, lo, hi);
    s[lo..hi]
  }

  function BackOver(s: string, lo: nat, hi: nat): (k: nat)
    requires lo <= hi <= |s|
    ensures lo <= k <= hi && (lo < k ==> !IsSpace(s[k - 1])) && AllSpace(s[k..hi])
  {
    if lo < hi && IsSpace(s[hi - 1]) then
      var k := BackOver(s, lo, hi - 1);
      assert s[k..hi] == s[k..hi - 1] + [s[hi - 1]];
      k
    else hi
  }

  method Trim(s: string) returns (t: string)
    ensures t == Trimmed(s)
  {
    hide SkipSpace, BackOver, IsSpace;
    t := s;
    ghost var lo: nat := 0;
    while t != "" && IsSpace(t[0])
      invariant lo <= |s| && t == s[lo..] && SkipSpace(s, lo) == SkipSpace(s, 0)
      decreases |t|
    {
      SkipOne(s, lo);
      t := t[1..];
      lo := lo + 1;
    }
    SkipNone(s, lo);
    ghost var hi: nat := |s|;
    while t != "" && IsSpace(t[|t| - 1])
      invariant lo <= hi <= |s| && t == s[lo..hi] && BackOver(s, lo, hi) == BackOver(s, lo, |s|)
      decreases |t|
    {
      BackOne(s, lo, hi);
      t := t[..|t| - 1];
      hi := hi - 1;
    }
    BackNone(s, lo, hi);
  }

  lemma BackOne(s: string, lo: nat, hi: nat)
    requires lo < hi <= |s| && IsSpace(s[hi - 1])
    ensures BackOver(s, lo, hi) == BackOver(s, lo, hi - 1)
  {
  }

  lemma BackNone(s: string, lo: nat, hi: nat)
    requires lo <= hi <= |s| && (lo < hi ==> !IsSpace(s[hi - 1]))
    ensures BackOver(s, lo, hi) == hi
  {
  }

  /** There is only one way to trim. */
  lemma TrimIsUnique(a: string, t: string, b: string)
    requires AllSpace(a) && AllSpace(b) && (t != "" ==> !IsSpace(t[0]) && !IsSpace(t[|t| - 1]))
    ensures Trimmed(a + t + b) == t
  {
    var s := a + t + b;
    var lo := SkipSpace(s, 0);
    if t == "" {
      SkipSpaceOver(s, 0, |s|);
    } else {
      assert s[0..|a|] == a && s[|a|] == t[0];
      SkipSpaceOver(s, 0, |a|);
      BackOverIs(s, |a|, |s|, |a| + |t|, b);
      assert s[|a|..|a| + |t|] == t;
    }
  }

  lemma {:induction false} BackOverIs(s: string, lo: nat, hi: nat, k: nat, b: string)
    requires lo < k <= hi <= |s| && b == s[k..hi] && AllSpace(b) && !IsSpace(s[k - 1])
    ensures BackOver(s, lo, hi) == k
    decreases hi
  {
    if k < hi {
      assert b[hi - 1 - k] == s[hi - 1];
      BackOverIs(s, lo, hi - 1, k, b[..hi - 1 - k]);
    }
  }

  // ---------------------------------------------------------------- read_lines

  /** The lines of a file; a last line without a newline counts, an empty rest does not. */
  function Lines(s: string, start: nat): seq<string>
    requires start <= |s|
    decreases |s| - start
  {
    if start == |s| then [] else
      var end := Find(s, '\n', start);
      if end == |s| then [s[start..]] else [s[start..end]] + Lines(s, end + 1)
  }

  /** The first line of a text is the first of its lines, and the lines of what follows it come after. */
  lemma LinesOneByOne(line: string, rest: string)
    requires OneLine(line)
    ensures Lines(line + "\n" + rest, 0) == [line] + Lines(rest, 0)
    ensures Lines(line, 0) == if line == "" then [] else [line]
  {
    var s := line + "\n" + rest;
    assert s[0..|line|] == line && line[0..|line|] == line;
    FindIs(s, '\n', 0, |line|);
    FindIs(line, '\n', 0, |line|);
    LinesShift(line + "\n", rest, 0);
    assert line + "\n" + rest == s && line[0..] == line;
  }

  /** The lines from a position on do not depend on what stands before it. */
  lemma {:induction false} LinesShift(front: string, s: string, i: nat)
    requires i <= |s|
    ensures Lines(front + s, |front| + i) == Lines(s, i)
    decreases |s| - i
  {
    hide Lines, Find;
    var t, n := front + s, |front|;
    if i < |s| {
      var end := Find(s, '\n', i);
      FindShift(front, s, i, end);
      LinesFrom(s, i, end);
      LinesFrom(t, n + i, n + end);
      assert t[n + i..] == s[i..] && t[n + i..n + end] == s[i..end];
      if end < |s| {
        LinesShift(front, s, end + 1);
      }
    } else {
      LinesEnd(s, i);
      LinesEnd(t, n + i);
    }
  }

  lemma LinesFrom(s: string, i: nat, end: nat)
    requires i < |s| && end == Find(s, '\n', i)
    ensures Lines(s, i) == if end == |s| then [s[i..]] else [s[i..end]] + Lines(s, end + 1)
  {
  }

  lemma FindShift(front: string, s: string, i: nat, end: nat)
    requires i < |s| && end == Find(s, '\n', i)
    ensures Find(front + s, '\n', |front| + i) == |front| + end
  {
    var t, n := front + s, |front|;
    assert t[n + i..n + end] == s[i..end];
    FindIs(t, '\n', n + i, n + end);
  }

  lemma LinesStep(text: string, start: nat)
    requires start < |text|
    ensures var end := Find(text, '\n', start);
            Lines(text, start) == [text[start..end]] + (if end + 1 <= |text| then Lines(text, end + 1) else [])
  {
    assert text[start..] == text[start..|text|];
  }

  lemma LinesEnd(text: string, start: nat)
    requires start == |text|
    ensures Lines(text, start) == []
  {
  }

  method ReadLines(content: Option<string>) returns (lines: seq<string>)
    ensures lines == if content.Some? then Lines(content.value, 0) else []
  {
    hide Lines;
    lines := [];
    if content.None? {
      return;
    }
    var s := content.value;
    var start := 0;
    while start < |s|
      invariant 0 <= start <= |s|
      invariant lines + Lines(s, start) == Lines(s, 0)
    {
      LinesStep(s, start);
      var end := Find(s, '\n', start);
      if end == |s| {
        assert s[start..] == s[start..end];
        return lines + [s[start..]];
      }
      lines := lines + [s[start..end]];
      start := end + 1;
    }
    LinesEnd(s, start);
  }

  function Unlines(lines: seq<string>): string {
    if lines == [] then "" else lines[0] + "\n" + Unlines(lines[1..])
  }

  predicate OneLine(s: string) {
    '\n' !in s
  }

  lemma {:induction false} FindIs(s: string, c: char, from: nat, k: nat)
    requires from <= k <= |s| && c !in s[from..k] && (k < |s| ==> s[k] == c)
    ensures Find(s, c, from) == k
    decreases k - from
  {
    if from < k {
      assert s[from..k] == [s[from]] + s[from + 1..k];
      FindIs(s, c, from + 1, k);
    }
  }

  /** At position `i` of `s` stand the lines, each with its newline, and then `last` to the end. */
  ghost predicate Lined(s: string, i: nat, lines: seq<string>, last: string)
    decreases |lines|
  {
    && i <= |s|
    && if lines == [] then s[i..] == last else
         var end := i + |lines[0]|;
         end < |s| && s[i..end] == lines[0] && s[end] == '\n' && Lined(s, end + 1, lines[1..], last)
  }

  lemma {:induction false} UnlinesIsLined(front: string, lines: seq<string>, last: string)
    ensures Lined(front + Unlines(lines) + last, |front|, lines, last)
    decreases |lines|
  {
    var s := front + Unlines(lines) + last;
    if lines == [] {
      assert s == front + last && s[|front|..] == last;
    } else {
      UnlinesIsLined(front + lines[0] + "\n", lines[1..], last);
      Regroup(front, lines[0], "\n", Unlines(lines[1..]), last);
      var end := |front| + |lines[0]|;
      assert s[end] == s[end..end + 1][0];
    }
  }

  /** Reading lines undoes joining them: none is dropped, merged or repeated. */
  lemma {:induction false} LinesInvertUnlines(s: string, i: nat, lines: seq<string>, last: string)
    requires Lined(s, i, lines, last) && (forall l | l in lines :: OneLine(l)) && OneLine(last)
    ensures Lines(s, i) == lines + (if last == "" then [] else [last])
    decreases |lines|
  {
    if lines == [] {
      if last != "" {
        assert s[i..|s|] == last;
        FindIs(s, '\n', i, |s|);
      }
    } else {
      var end := i + |lines[0]|;
      assert OneLine(lines[0]);
      FindIs(s, '\n', i, end);
      LinesInvertUnlines(s, end + 1, lines[1..], last);
      assert lines == [lines[0]] + lines[1..];
    }
  }
}
