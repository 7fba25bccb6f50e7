/**
 process.cpp of procmon: the parsers of /proc/<pid>/stat, /proc/<pid>/maps and
 the "key: value" files, and what they give back on the text the kernel prints.
 */
module Procfs {
  import opened Text
  import opened Numbers

  // ---------------------------------------------------------------- stat

  datatype StatFields = StatFields(comm: string, afterComm: seq<string>)

  /** comm may hold spaces and parentheses, so it ends at the last ')'. */
  function ParseStat(content: Option<string>): Option<StatFields> {
    if content.None? then None
    else
      var s := content.value;
      var open := Find(s, '(', 0);
      var end := AfterLast(s, ')');
      if open == |s| || end == 0 || end - 1 < open then None
      else
        assert open != end - 1;
        Some(StatFields(s[open + 1..end - 1], Words(s[end..])))
  }

  /** Field numbers count from 1 and field 3 is the first after comm; the subtraction is on size_t. */
  function StatField(f: StatFields, k: nat): int {
    var i := if k >= 3 then k - 3 else U64_MAX + 1 - (3 - k);
    if i >= |f.afterComm| then 0
    else
      var v := ToLl(f.afterComm[i]);
      if v.Some? then v.value else 0
  }

  function StatLine(pid: nat, comm: string, gaps: seq<string>, fields: seq<string>, tail: string): string
    requires |gaps| == |fields|
  {
    Show(pid, 10) + " (" + comm + ")" + (Weave(gaps, fields) + tail)
  }

  lemma {:induction false} AfterLastIs(s: string, c: char, k: nat)
    requires 0 < k <= |s| && s[k - 1] == c && c !in s[k..]
    ensures AfterLast(s, c) == k
    decreases |s|
  {
    if k < |s| {
      var front := s[..|s| - 1];
      assert s[k..] == front[k..] + [s[|s| - 1]];
      AfterLastIs(front, c, k);
    }
  }

  lemma {:induction false} NoParenInWeave(gaps: seq<string>, fields: seq<string>)
    requires Weavable(gaps, fields) && forall f | f in fields :: ')' !in f
    ensures ')' !in Weave(gaps, fields)
  {
    if fields != [] {
      assert fields[0] in fields;
      SpaceHasNoParen(gaps[0]);
      NoParenInWeave(gaps[1..], fields[1..]);
    }
  }

  lemma SpaceHasNoParen(s: string)
    requires AllSpace(s)
    ensures ')' !in s
  {
  }

  /** For every comm, whatever it contains, and every list of fields without white space and ')': parsing the
      line gives back that comm and those fields. */
  lemma StatRoundTrip(pid: nat, comm: string, gaps: seq<string>, fields: seq<string>, tail: string)
    requires Weavable(gaps, fields) && AllSpace(tail) && forall f | f in fields :: ')' !in f
    ensures ParseStat(Some(StatLine(pid, comm, gaps, fields, tail))) == Some(StatFields(comm, fields))
  {
    hide Words, Weave, Show, AfterLast, Find;
    var head, rest := Show(pid, 10) + " ", Weave(gaps, fields) + tail;
    var s := StatLine(pid, comm, gaps, fields, tail);
    ValueOfShow(pid, 10);
    PlainHasNone(Show(pid, 10));
    assert s == head + "(" + comm + ")" + rest;
    assert s[0..|head|] == head;
    FindIs(s, '(', 0, |head|);
    NoParenInWeave(gaps, fields);
    SpaceHasNoParen(tail);
    var end := |head| + 1 + |comm| + 1;
    assert s[end..] == rest && s[end - 1] == ')';
    AfterLastIs(s, ')', end);
    WordsOfWeave(gaps, fields, tail);
    assert s[|head| + 1..end - 1] == comm;
  }

  lemma {:induction false} AfterLastAtLeast(s: string, c: char, k: nat)
    requires k < |s| && s[k] == c
    ensures AfterLast(s, c) > k
    decreases |s|
  {
    if k < |s| - 1 {
      AfterLastAtLeast(s[..|s| - 1], c, k);
    }
  }

  lemma {:induction false} FindAtMost(s: string, c: char, from: nat, k: nat)
    requires from <= k < |s| && s[k] == c
    ensures Find(s, c, from) <= k
    decreases k - from
  {
    if from < k {
      FindAtMost(s, c, from + 1, k);
    }
  }

  /** A line is parsed exactly if it was read and an opening parenthesis stands before a closing one. */
  lemma StatIsParsedExactly(content: Option<string>)
    ensures ParseStat(content).Some? <==>
              && content.Some?
              && exists i, j :: 0 <= i < j < |content.value| && content.value[i] == '(' && content.value[j] == ')'
  {
    if content.Some? {
      var s := content.value;
      var open, end := Find(s, '(', 0), AfterLast(s, ')');
      hide Words;
      if i, j :| 0 <= i < j < |s| && s[i] == '(' && s[j] == ')' {
        FindAtMost(s, '(', 0, i);
        AfterLastAtLeast(s, ')', j);
      }
      if ParseStat(content).Some? {
        assert s[open] == '(' && s[end - 1] == ')' && open < end - 1;
      }
    }
  }

  /** Whatever is parsed, comm lies between the first opening and the last closing parenthesis. */
  lemma CommIsBetween(s: string, i: nat, j: nat)
    requires i < j < |s| && s[i] == '(' && '(' !in s[..i] && s[j] == ')' && ')' !in s[j + 1..]
    ensures ParseStat(Some(s)) == Some(StatFields(s[i + 1..j], Words(s[j + 1..])))
  {
    hide Words;
    assert s[0..i] == s[..i];
    FindIs(s, '(', 0, i);
    AfterLastIs(s, ')', j + 1);
  }

  /** stat_field(k) is the value of field k when that is an integer of 64 bits and 0 when it is a larger one;
      it is 0 for fields before the third and for fields the line does not have. */
  lemma StatFieldIs(f: StatFields, k: nat, n: int)
    requires |f.afterComm| <= U64_MAX - 3
    ensures 3 <= k < 3 + |f.afterComm| && f.afterComm[k - 3] == ShowInt(n) ==>
              StatField(f, k) == if -0x8000_0000_0000_0000 <= n <= 0x7FFF_FFFF_FFFF_FFFF then n else 0
    ensures k < 3 || k >= 3 + |f.afterComm| ==> StatField(f, k) == 0
  {
    hide ToLl, ShowInt;
    ToLlOfShow(n);
  }

  /** From the printed line to the number: field k of the line is what stat_field(k) returns, for any comm. */
  lemma StatFieldRoundTrip(pid: nat, comm: string, gaps: seq<string>, fields: seq<string>, tail: string, k: nat, n: int)
    requires Weavable(gaps, fields) && AllSpace(tail) && (forall f | f in fields :: ')' !in f)
    requires |fields| <= U64_MAX - 3 && 3 <= k < 3 + |fields| && fields[k - 3] == ShowInt(n) && InRange(n)
    ensures var parsed := ParseStat(Some(StatLine(pid, comm, gaps, fields, tail)));
            parsed.Some? && parsed.value.comm == comm && StatField(parsed.value, k) == n
  {
    hide ParseStat, StatLine, StatField, ShowInt;
    StatRoundTrip(pid, comm, gaps, fields, tail);
    StatFieldIs(StatFields(comm, fields), k, n);
  }

  // ---------------------------------------------------------------- maps

  datatype MemoryRegion = MemoryRegion(
    start: nat, end: nat, perms: string, offset: nat, dev: string, inode: nat, path: string)

  /** One line: start-end perms offset dev inode [pathname]. */
  function ParseMapsLine(line: string): Option<MemoryRegion> {
    var tokens := Spans(line, 0);
    if |tokens| < 5 then None
    else
      var range := Slice(line, tokens[0]);
      var dash := Find(range, '-', 0);
      if dash == |range| then None
      else
        Some(MemoryRegion(
               StrToUll(range[..dash], 16), StrToUll(range[dash + 1..], 16), Slice(line, tokens[1]),
               StrToUll(Slice(line, tokens[2]), 16), Slice(line, tokens[3]), StrToUll(Slice(line, tokens[4]), 10),
               if tokens[4].hi < |line| then Trimmed(line[tokens[4].hi..]) else ""))
  }

  function Regions(lines: seq<string>): seq<MemoryRegion> {
    if lines == [] then []
    else
      var r := ParseMapsLine(lines[0]);
      (if r.Some? then [r.value] else []) + Regions(lines[1..])
  }

  /** The regions of a file are those of its lines, in their order. */
  lemma {:induction false} RegionsConcat(a: seq<string>, b: seq<string>)
    ensures Regions(a + b) == Regions(a) + Regions(b)
  {
    hide ParseMapsLine;
    if a == [] {
      assert a + b == b;
    } else {
      var more := a + b;
      assert more[0] == a[0] && more[1..] == a[1..] + b;
      RegionsConcat(a[1..], b);
    }
  }

  lemma RegionsOfOne(line: string)
    ensures Regions([line]) == if ParseMapsLine(line).Some? then [ParseMapsLine(line).value] else []
  {
    hide ParseMapsLine;
    assert [line][1..] == [] && Regions([]) == [];
  }

  method ReadMapsLine(line: string) returns (region: Option<MemoryRegion>)
    ensures region == ParseMapsLine(line)
  {
    hide Spans, Trimmed, StrToUll, Find;
    if line == "" {
      EmptyLine(line);
      return None;
    }
    var tokens := SplitWs(line);
    if |tokens| < 5 {
      return None;
    }
    var range := Slice(line, tokens[0]);
    var dash := Find(range, '-', 0);
    if dash == |range| {
      return None;
    }
    var pathStart := tokens[4].hi;
    var path := "";
    if pathStart < |line| {
      path := Trim(line[pathStart..]);
    }
    return Some(MemoryRegion(StrToUll(range[..dash], 16), StrToUll(range[dash + 1..], 16), Slice(line, tokens[1]),
                             StrToUll(Slice(line, tokens[2]), 16), Slice(line, tokens[3]),
                             StrToUll(Slice(line, tokens[4]), 10), path));
  }

  /** Lines that are no regions: fewer than five words, or no dash in the first; all others give one. */
  lemma MapsLineIsParsedExactly(line: string)
    ensures ParseMapsLine(line).Some? <==> |Words(line)| >= 5 && '-' in Words(line)[0]
  {
    hide Spans, StrToUll, Trimmed;
    var tokens := Spans(line, 0);
    if |tokens| >= 5 {
      var range := Slice(line, tokens[0]);
      var dash := Find(range, '-', 0);
      assert Words(line)[0] == range;
      if dash == |range| {
        assert range[0..dash] == range;
      } else {
        assert range[dash] in range;
      }
    }
  }

  lemma EmptyLine(line: string)
    requires line == ""
    ensures Spans(line, 0) == []
  {
  }

  method ReadMaps(content: Option<string>) returns (regions: seq<MemoryRegion>)
    ensures regions == Regions(if content.Some? then Lines(content.value, 0) else [])
  {
    hide ParseMapsLine, Lines;
    var lines := ReadLines(content);
    regions := [];
    var n := 0;
    while n < |lines|
      invariant 0 <= n <= |lines|
      invariant regions + Regions(lines[n..]) == Regions(lines)
    {
      assert lines[n..][1..] == lines[n + 1..];
      var region := ReadMapsLine(lines[n]);
      n := n + 1;
      if region.None? {
        continue;
      }
      regions := regions + [region.value];
    }
  }

  /** hex_address: at least twelve digits. */
  function HexAddress(value: nat): string {
    Pad(Show(value, 16), 12)
  }

  lemma HexAddressRoundTrip(value: nat)
    requires value <= U64_MAX
    ensures StrToUll(HexAddress(value), 16) == value && |HexAddress(value)| >= 12
  {
    StrToUllOfPad(value, 12, 16);
  }

  /** It has lower-case digits, exactly twelve of them when the value has 48 bits, and no leading zero otherwise. */
  lemma HexAddressIs(value: nat)
    ensures forall i | 0 <= i < |HexAddress(value)| :: HexAddress(value)[i] in "0123456789abcdef"
    ensures if value < 0x1_0000_0000_0000 then |HexAddress(value)| == 12
            else |HexAddress(value)| > 12 && HexAddress(value)[0] != '0'
  {
    hide Show;
    ShowIsCanonical(value, 16);
    HexLength(value, 12);
    TwelveDigits();
    var s := Show(value, 16);
    forall i | 0 <= i < |HexAddress(value)| ensures HexAddress(value)[i] in "0123456789abcdef" {
      if |s| < 12 && i >= 12 - |s| {
        assert HexAddress(value)[i] == s[i - (12 - |s|)];
      }
    }
  }

  lemma TwelveDigits()
    ensures Power16(12) == 0x1_0000_0000_0000
  {
    assert Power16(3) == 0x1000;
    assert Power16(6) == 0x1000 * Power16(3);
    assert Power16(9) == 0x1000 * Power16(6);
    assert Power16(12) == 0x1000 * Power16(9);
  }

  predicate Word(s: string) {
    s != "" && NoSpace(s)
  }

  /** Regions the kernel can print: numbers of 64 bits, and a path of one line that neither begins nor ends
      with white space; inner spaces are allowed. */
  predicate Printable(r: MemoryRegion) {
    && r.start <= U64_MAX && r.end <= U64_MAX && r.offset <= U64_MAX && r.inode <= U64_MAX
    && Word(r.perms) && Word(r.dev) && OneLine(r.path)
    && (r.path != "" ==> !IsSpace(r.path[0]) && !IsSpace(r.path[|r.path| - 1]))
  }

  /** Widths of the three hexadecimal numbers, and the white space before the path. */
  datatype Layout = Layout(start: nat, end: nat, offset: nat, pad: string)

  predicate LayoutFor(l: Layout, r: MemoryRegion) {
    AllSpace(l.pad) && OneLine(l.pad) && (r.path != "" ==> l.pad != "")
  }

  function Tokens(r: MemoryRegion, l: Layout): seq<string> {
    [Pad(Show(r.start, 16), l.start) + "-" + Pad(Show(r.end, 16), l.end), r.perms,
     Pad(Show(r.offset, 16), l.offset), r.dev, Show(r.inode, 10)]
  }

  const GAPS: seq<string> := ["", " ", " ", " ", " "]

  function MapsLine(r: MemoryRegion, l: Layout): string {
    Weave(GAPS, Tokens(r, l)) + (l.pad + r.path)
  }

  lemma TokensAreWords(r: MemoryRegion, l: Layout)
    requires Printable(r)
    ensures Weavable(GAPS, Tokens(r, l))
  {
    hide Pad, Show, Digits, Value;
    RangeIsWord(r, l);
    ValueOfPad(r.offset, l.offset, 16);
    PlainHasNone(Pad(Show(r.offset, 16), l.offset));
    ValueOfShow(r.inode, 10);
    PlainHasNone(Show(r.inode, 10));
    var t := Tokens(r, l);
    assert AllSpace("") && AllSpace(" ");
    forall k | 0 <= k < |t| ensures Word(t[k]) && AllSpace(GAPS[k]) {
      assert k == 0 || k == 1 || k == 2 || k == 3 || k == 4;
    }
  }

  lemma RangeIsWord(r: MemoryRegion, l: Layout)
    ensures var range := Tokens(r, l)[0];
            var a, b := Pad(Show(r.start, 16), l.start), Pad(Show(r.end, 16), l.end);
            && Word(range) && Find(range, '-', 0) == |a| < |range| && range[..|a|] == a && range[|a| + 1..] == b
  {
    hide Pad, Show, Digits, Value, Find;
    var a, b := Pad(Show(r.start, 16), l.start), Pad(Show(r.end, 16), l.end);
    ValueOfPad(r.start, l.start, 16);
    ValueOfPad(r.end, l.end, 16);
    PlainHasNone(a);
    PlainHasNone(b);
    var range := a + "-" + b;
    assert range[0..|a|] == a && range[|a|] == '-' && range[|a| + 1..] == b;
    FindIs(range, '-', 0, |a|);
  }

  /** Splitting a printed line finds its five tokens, and the path begins right after the fifth. */
  lemma MapsTokens(r: MemoryRegion, l: Layout)
    requires Printable(r) && LayoutFor(l, r)
    ensures var line := MapsLine(r, l);
            && |Spans(line, 0)| >= 5 && Spans(line, 0)[4].hi <= |line|
            && (forall k | 0 <= k < 5 :: Slice(line, Spans(line, 0)[k]) == Tokens(r, l)[k])
            && Slice(line, Spans(line, 0)[0]) == Pad(Show(r.start, 16), l.start) + "-" + Pad(Show(r.end, 16), l.end)
            && Slice(line, Spans(line, 0)[1]) == r.perms
            && Slice(line, Spans(line, 0)[2]) == Pad(Show(r.offset, 16), l.offset)
            && Slice(line, Spans(line, 0)[3]) == r.dev && Slice(line, Spans(line, 0)[4]) == Show(r.inode, 10)
            && line[Spans(line, 0)[4].hi..] == l.pad + r.path
  {
    hide Spans, Pad, Show, Woven;
    var words, tail, line := Tokens(r, l), l.pad + r.path, MapsLine(r, l);
    var end := |Weave(GAPS, words)|;
    TokensAreWords(r, l);
    assert "" + Weave(GAPS, words) == Weave(GAPS, words);
    WeaveIsWoven("", GAPS, words, tail);
    assert line[end..] == tail;
    if end < |line| {
      assert line[end] == tail[0];
      assert l.pad != "" && tail[0] == l.pad[0];
    }
    SplitInvertsWeave(line, 0, GAPS, words, end);
  }

  lemma MapsLineRoundTrip(r: MemoryRegion, l: Layout)
    requires Printable(r) && LayoutFor(l, r)
    ensures ParseMapsLine(MapsLine(r, l)) == Some(r)
  {
    hide Spans, Pad, Show, StrToUll, Find, Trimmed, MapsLine;
    MapsTokens(r, l);
    RangeIsWord(r, l);
    StrToUllOfPad(r.start, l.start, 16);
    StrToUllOfPad(r.end, l.end, 16);
    StrToUllOfPad(r.offset, l.offset, 16);
    StrToUllOfPad(r.inode, 0, 10);
    NoPadding(Show(r.inode, 10));
    PathIsTrimmed(r, l);
  }

  lemma NoPadding(s: string)
    ensures Pad(s, 0) == s
  {
  }

  lemma PathIsTrimmed(r: MemoryRegion, l: Layout)
    requires Printable(r) && LayoutFor(l, r)
    ensures Trimmed(l.pad + r.path) == r.path
  {
    hide Trimmed;
    TrimIsUnique(l.pad, r.path, "");
    assert l.pad + r.path + "" == l.pad + r.path;
  }

  function MapsLines(rs: seq<MemoryRegion>, ls: seq<Layout>): seq<string>
    requires |rs| == |ls|
  {
    if rs == [] then [] else [MapsLine(rs[0], ls[0])] + MapsLines(rs[1..], ls[1..])
  }

  lemma {:induction false} RegionsOfMapsLines(rs: seq<MemoryRegion>, ls: seq<Layout>)
    requires |rs| == |ls| && forall k | 0 <= k < |rs| :: Printable(rs[k]) && LayoutFor(ls[k], rs[k])
    ensures Regions(MapsLines(rs, ls)) == rs
    ensures forall line | line in MapsLines(rs, ls) :: OneLine(line)
  {
    hide ParseMapsLine, MapsLine;
    if rs != [] {
      MapsLineRoundTrip(rs[0], ls[0]);
      MapsLineIsOneLine(rs[0], ls[0]);
      RegionsOfMapsLines(rs[1..], ls[1..]);
      assert MapsLines(rs, ls)[1..] == MapsLines(rs[1..], ls[1..]);
      assert rs == [rs[0]] + rs[1..];
    }
  }

  lemma MapsLineIsOneLine(r: MemoryRegion, l: Layout)
    requires Printable(r) && LayoutFor(l, r)
    ensures OneLine(MapsLine(r, l))
  {
    hide Pad, Show;
    TokensAreWords(r, l);
    NoNewlineInWeave(GAPS, Tokens(r, l));
  }

  lemma {:induction false} NoNewlineInWeave(gaps: seq<string>, words: seq<string>)
    requires Weavable(gaps, words) && forall g | g in gaps :: OneLine(g)
    ensures OneLine(Weave(gaps, words))
  {
    if words != [] {
      assert gaps[0] in gaps && NoSpace(words[0]);
      NoNewlineInWeave(gaps[1..], words[1..]);
    }
  }

  /** A whole maps file, whatever its layout: reading gives back every region, in order. */
  lemma MapsRoundTrip(rs: seq<MemoryRegion>, ls: seq<Layout>)
    requires |rs| == |ls| && forall k | 0 <= k < |rs| :: Printable(rs[k]) && LayoutFor(ls[k], rs[k])
    ensures Regions(Lines(Unlines(MapsLines(rs, ls)), 0)) == rs
  {
    hide Lines, Unlines, Regions, MapsLines;
    RegionsOfMapsLines(rs, ls);
    FileOfLines(MapsLines(rs, ls));
  }

  // ---------------------------------------------------------------- "key: value" files

  predicate HasKey(line: string, key: string) {
    var colon := Find(line, ':', 0);
    colon < |line| && Trimmed(line[..colon]) == key
  }

  function ValueOf(line: string): string
    requires Find(line, ':', 0) < |line|
  {
    Trimmed(line[Find(line, ':', 0) + 1..])
  }

  /** The value on the first line with this key. */
  function FirstValue(lines: seq<string>, key: string): Option<string> {
    if lines == [] then None
    else if HasKey(lines[0], key) then Some(ValueOf(lines[0]))
    else FirstValue(lines[1..], key)
  }

  /** It is the value on the line with this key that no other such line precedes, if there is one. */
  lemma {:induction false} FirstValueIs(lines: seq<string>, key: string, i: nat)
    requires i <= |lines| && (forall k | 0 <= k < i :: !HasKey(lines[k], key))
    requires i < |lines| ==> HasKey(lines[i], key)
    ensures FirstValue(lines, key) == if i < |lines| then Some(ValueOf(lines[i])) else None
    decreases |lines|
  {
    hide HasKey, ValueOf;
    if lines != [] && i > 0 {
      FirstValueIs(lines[1..], key, i - 1);
    }
  }

  ghost predicate Represents(kv: map<string, string>, lines: seq<string>) {
    forall key :: FirstValue(lines, key) == if key in kv then Some(kv[key]) else None
  }

  lemma {:induction false} FirstValueSnoc(lines: seq<string>, line: string, key: string)
    ensures FirstValue(lines + [line], key) ==
            if FirstValue(lines, key).Some? then FirstValue(lines, key)
            else if HasKey(line, key) then Some(ValueOf(line)) else None
  {
    hide HasKey, ValueOf;
    if lines == [] {
      assert [line][1..] == [];
    } else {
      FirstValueSnoc(lines[1..], line, key);
      assert (lines + [line])[1..] == lines[1..] + [line];
    }
  }

  /** emplace keeps what is there: the first value for a key wins. */
  function Emplaced(kv: map<string, string>, line: string): map<string, string> {
    var colon := Find(line, ':', 0);
    if colon == |line| || Trimmed(line[..colon]) in kv then kv
    else kv[Trimmed(line[..colon]) := Trimmed(line[colon + 1..])]
  }

  lemma EmplacedRepresents(kv: map<string, string>, lines: seq<string>, line: string)
    requires Represents(kv, lines)
    ensures Represents(Emplaced(kv, line), lines + [line])
  {
    hide FirstValue, Find, Trimmed;
    var kv' := Emplaced(kv, line);
    forall key ensures FirstValue(lines + [line], key) == if key in kv' then Some(kv'[key]) else None {
      FirstValueSnoc(lines, line, key);
    }
  }

  method ParseKv(content: Option<string>) returns (kv: map<string, string>)
    ensures Represents(kv, if content.Some? then Lines(content.value, 0) else [])
  {
    hide FirstValue, Lines, Represents;
    var lines := ReadLines(content);
    kv := map[];
    NothingRepresented();
    var n := 0;
    while n < |lines|
      invariant 0 <= n <= |lines| && Represents(kv, lines[..n])
    {
      EmplacedRepresents(kv, lines[..n], lines[n]);
      assert lines[..n + 1] == lines[..n] + [lines[n]];
      var line := lines[n];
      n := n + 1;
      var colon := Find(line, ':', 0);
      if colon == |line| {
        continue;
      }
      var key := Trim(line[..colon]);
      var value := Trim(line[colon + 1..]);
      if key !in kv {
        kv := kv[key := value];
      }
    }
    assert lines[..|lines|] == lines;
  }

  lemma NothingRepresented()
    ensures Represents(map[], [])
  {
  }

  function KvNumber(kv: map<string, string>, key: string): int {
    if key !in kv then -1
    else
      var v := ToLl(kv[key]);
      if v.Some? then v.value else -1
  }

  predicate IsKey(key: string) {
    ':' !in key && OneLine(key) && (key != "" ==> !IsSpace(key[0]) && !IsSpace(key[|key| - 1]))
  }

  predicate IsValue(value: string) {
    OneLine(value) && (value != "" ==> !IsSpace(value[0]) && !IsSpace(value[|value| - 1]))
  }

  /** A printed pair, with any white space between colon and value, is read back. */
  lemma KvLineRoundTrip(key: string, pad: string, value: string)
    requires IsKey(key) && AllSpace(pad) && IsValue(value)
    ensures var line := key + ":" + pad + value;
            && (forall k :: HasKey(line, k) <==> k == key)
            && Find(line, ':', 0) < |line| && ValueOf(line) == value
  {
    hide Find, Trimmed, IsSpace;
    var line := key + ":" + pad + value;
    KvLineParts(key, pad, value);
    FindIs(line, ':', 0, |key|);
    WordIsTrimmed(key);
    TrimIsUnique(pad, value, "");
    assert pad + value + "" == pad + value;
  }

  lemma KvLineParts(key: string, pad: string, value: string)
    ensures var line := key + ":" + pad + value;
            && |line| > |key| && line[0..|key|] == key == line[..|key|] && line[|key|] == ':'
            && line[|key| + 1..] == pad + value
  {
  }

  lemma WordIsTrimmed(s: string)
    requires s != "" ==> !IsSpace(s[0]) && !IsSpace(s[|s| - 1])
    ensures Trimmed(s) == s
  {
    hide Trimmed;
    TrimIsUnique("", s, "");
    assert "" + s + "" == s;
  }

  function KvLines(keys: seq<string>, pads: seq<string>, values: seq<string>): seq<string>
    requires |keys| == |pads| == |values|
  {
    if keys == [] then [] else [keys[0] + ":" + pads[0] + values[0]] + KvLines(keys[1..], pads[1..], values[1..])
  }

  /** For a whole file: the value of a key is that of its first line, and keys not in the file have none. */
  lemma {:induction false} KvRoundTrip(keys: seq<string>, pads: seq<string>, values: seq<string>, i: nat, key: string)
    requires |keys| == |pads| == |values|
    requires forall k | 0 <= k < |keys| :: IsKey(keys[k]) && AllSpace(pads[k]) && IsValue(values[k])
    requires i <= |keys| && (forall k | 0 <= k < i :: keys[k] != key) && (i < |keys| ==> keys[i] == key)
    ensures FirstValue(KvLines(keys, pads, values), key) == if i < |keys| then Some(values[i]) else None
    decreases |keys|
  {
    if keys != [] {
      KvLineRoundTrip(keys[0], pads[0], values[0]);
      hide HasKey, ValueOf;
      var lines := KvLines(keys, pads, values);
      assert lines[1..] == KvLines(keys[1..], pads[1..], values[1..]);
      if i > 0 {
        KvRoundTrip(keys[1..], pads[1..], values[1..], i - 1, key);
      }
    }
  }

  lemma {:induction false} KvLinesAreLines(keys: seq<string>, pads: seq<string>, values: seq<string>)
    requires |keys| == |pads| == |values|
    requires forall k | 0 <= k < |keys| :: OneLine(keys[k]) && OneLine(pads[k]) && OneLine(values[k])
    ensures forall line | line in KvLines(keys, pads, values) :: OneLine(line)
  {
    if keys != [] {
      KvLinesAreLines(keys[1..], pads[1..], values[1..]);
    }
  }

  lemma KvFileRoundTrip(keys: seq<string>, pads: seq<string>, values: seq<string>, i: nat, key: string)
    requires |keys| == |pads| == |values|
    requires forall k | 0 <= k < |keys| ::
               IsKey(keys[k]) && AllSpace(pads[k]) && OneLine(pads[k]) && IsValue(values[k])
    requires i <= |keys| && (forall k | 0 <= k < i :: keys[k] != key) && (i < |keys| ==> keys[i] == key)
    ensures FirstValue(Lines(Unlines(KvLines(keys, pads, values)), 0), key) ==
            if i < |keys| then Some(values[i]) else None
  {
    var lines := KvLines(keys, pads, values);
    KvRoundTrip(keys, pads, values, i, key);
    KvLinesAreLines(keys, pads, values);
    hide *;
    FileOfLines(lines);
  }

  lemma FileOfLines(lines: seq<string>)
    requires forall l | l in lines :: OneLine(l)
    ensures Lines(Unlines(lines), 0) == lines
  {
    hide Lines, Unlines, Lined;
    UnlinesIsLined("", lines, "");
    assert "" + Unlines(lines) + "" == Unlines(lines);
    assert OneLine("");
    LinesInvertUnlines(Unlines(lines), 0, lines, "");
    assert lines + [] == lines;
  }

  /** A key that is not there, and a value that does not begin with a number, give -1. */
  lemma KvNumberFails(kv: map<string, string>, key: string, a: string, t: string, b: string)
    requires AllSpace(a) && AllSpace(b) && (t != "" ==> !IsSpace(t[0]) && !IsSpace(t[|t| - 1]))
    requires t == "" || (t[0] != '-' && !('0' <= t[0] <= '9')) || (t[0] == '-' && (|t| == 1 || !('0' <= t[1] <= '9')))
    ensures key !in kv ==> KvNumber(kv, key) == -1
    ensures key in kv && kv[key] == a + t + b ==> KvNumber(kv, key) == -1
  {
    hide ToLl;
    ToLlOfNoNumber(a, t, b);
  }

  /** Numbers with a unit, such as the kB values of status; a number of more than 64 bits gives -1. */
  lemma KvNumberIs(kv: map<string, string>, key: string, n: int, unit: string)
    requires unit != "" && !IsSpace(unit[|unit| - 1])
    ensures key in kv && (kv[key] == ShowInt(n) + " " + unit || kv[key] == ShowInt(n)) ==>
              KvNumber(kv, key) == if -0x8000_0000_0000_0000 <= n <= 0x7FFF_FFFF_FFFF_FFFF then n else -1
  {
    hide ToLl, ShowInt;
    ToLlIgnoresUnit(n, unit);
    ToLlOfShow(n);
  }
}
