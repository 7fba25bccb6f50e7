/** format.cpp of procmon: the column-aligned table. */
module Table {
  import Text

  // ---------------------------------------------------------------- widths

  /** vector::resize: cut off, or filled up with empty cells. */
  function Resized(cells: seq<string>, n: nat): (r: seq<string>)
    ensures |r| == n
    ensures forall i | 0 <= i < n :: r[i] == if i < |cells| then cells[i] else ""
  {
    seq(n, i requires 0 <= i < n => if i < |cells| then cells[i] else "")
  }

  predicate Rectangular(rows: seq<seq<string>>, n: nat) {
    forall r | 0 <= r < |rows| :: |rows[r]| == n
  }

  /** `w` is the length of the longest cell of column `i`, the header included. */
  ghost predicate IsWidth(headers: seq<string>, rows: seq<seq<string>>, i: nat, w: nat)
    requires i < |headers| && Rectangular(rows, |headers|)
  {
    && |headers[i]| <= w && (forall r | 0 <= r < |rows| :: |rows[r][i]| <= w)
    && (w == |headers[i]| || exists r :: 0 <= r < |rows| && |rows[r][i]| == w)
  }

  ghost predicate AreWidths(headers: seq<string>, rows: seq<seq<string>>, widths: seq<nat>) {
    && Rectangular(rows, |headers|) && |widths| == |headers|
    && forall i | 0 <= i < |widths| :: IsWidth(headers, rows, i, widths[i])
  }

  /** Exact maxima are unique. */
  lemma WidthsAreUnique(headers: seq<string>, rows: seq<seq<string>>, a: seq<nat>, b: seq<nat>)
    requires AreWidths(headers, rows, a) && AreWidths(headers, rows, b)
    ensures a == b
  {
    forall i | 0 <= i < |a| ensures a[i] == b[i] {
      assert IsWidth(headers, rows, i, a[i]) && IsWidth(headers, rows, i, b[i]);
    }
  }

  // ---------------------------------------------------------------- one line

  function Spaces(n: nat): string {
    seq(n, _ => ' ')
  }

  predicate Fits(widths: seq<nat>, right: seq<bool>, cells: seq<string>) {
    |widths| == |right| == |cells| && forall i | 0 <= i < |cells| :: |cells[i]| <= widths[i]
  }

  /** One cell as it is printed; the trailing column is not padded on its right. */
  function Cell(widths: seq<nat>, right: seq<bool>, cells: seq<string>, i: nat): string
    requires Fits(widths, right, cells) && i < |cells|
  {
    var pad := Spaces(widths[i] - |cells[i]|);
    (if right[i] then pad + cells[i] else if i + 1 < |cells| then cells[i] + pad else cells[i])
    + (if i + 1 < |cells| then "  " else "")
  }

  function Printed(widths: seq<nat>, right: seq<bool>, cells: seq<string>, k: nat): string
    requires Fits(widths, right, cells) && k <= |cells|
  {
    if k == 0 then "" else Printed(widths, right, cells, k - 1) + Cell(widths, right, cells, k - 1)
  }

  /** Where column `i` begins: the columns before it and two spaces after each. */
  function Offset(widths: seq<nat>, i: nat): nat
    requires i <= |widths|
  {
    if i == 0 then 0 else Offset(widths, i - 1) + widths[i - 1] + 2
  }

  lemma {:induction false} ColumnsBeginAtOffsets(widths: seq<nat>, right: seq<bool>, cells: seq<string>, i: nat)
    requires Fits(widths, right, cells) && i < |cells|
    ensures |Printed(widths, right, cells, i)| == Offset(widths, i)
  {
    if i > 0 {
      ColumnsBeginAtOffsets(widths, right, cells, i - 1);
    }
  }

  lemma {:induction false} PrintedGrows(widths: seq<nat>, right: seq<bool>, cells: seq<string>, i: nat, k: nat)
    requires Fits(widths, right, cells) && i <= k <= |cells|
    ensures Printed(widths, right, cells, i) <= Printed(widths, right, cells, k)
    decreases k
  {
    if i < k {
      PrintedGrows(widths, right, cells, i, k - 1);
    }
  }

  /** In every printed line column `i` occupies the same interval, [Offset(i), Offset(i) + widths[i]): the cell
      stands at its left or right end, the rest is spaces, and two spaces follow unless it is the last. */
  lemma ColumnInterval(widths: seq<nat>, right: seq<bool>, cells: seq<string>, i: nat)
    requires Fits(widths, right, cells) && i < |cells|
    ensures var line, lo, w, n := Printed(widths, right, cells, |cells|), Offset(widths, i), widths[i], |cells[i]|;
            && (if i == 0 then lo == 0 else lo == Offset(widths, i - 1) + widths[i - 1] + 2)
            && if right[i] then
              && lo + w <= |line| && line[lo..lo + w - n] == Spaces(w - n) && line[lo + w - n..lo + w] == cells[i]
              && (i + 1 == |cells| ==> |line| == lo + w)
              && (i + 1 < |cells| ==> lo + w + 2 <= |line| && line[lo + w..lo + w + 2] == "  ")
            else
              && lo + n <= |line| && line[lo..lo + n] == cells[i]
              && (i + 1 < |cells| ==> lo + w + 2 <= |line| && line[lo + n..lo + w + 2] == Spaces(w + 2 - n))
              && (i + 1 == |cells| ==> |line| == lo + n)
  {
    hide Spaces, Printed, Cell, Offset, Fits;
    CellFits(widths, right, cells, i);
    CellInLine(widths, right, cells, i);
    CellShape(widths, right, cells, i);
    OffsetIs(widths, i);
    var line, lo, cell := Printed(widths, right, cells, |cells|), Offset(widths, i), Cell(widths, right, cells, i);
    var w, n := widths[i], |cells[i]|;
    if right[i] {
      SubSlice(line, lo, cell, 0, w - n);
      SubSlice(line, lo, cell, w - n, w);
      if i + 1 < |cells| {
        SubSlice(line, lo, cell, w, w + 2);
      }
    } else {
      SubSlice(line, lo, cell, 0, n);
      if i + 1 < |cells| {
        SubSlice(line, lo, cell, n, w + 2);
      }
    }
  }

  lemma OffsetIs(widths: seq<nat>, i: nat)
    requires i <= |widths|
    ensures Offset(widths, i) == if i == 0 then 0 else Offset(widths, i - 1) + widths[i - 1] + 2
  {
  }

  lemma CellFits(widths: seq<nat>, right: seq<bool>, cells: seq<string>, i: nat)
    requires Fits(widths, right, cells) && i < |cells|
    ensures |widths| == |right| == |cells| && |cells[i]| <= widths[i]
  {
  }

  lemma CellInLine(widths: seq<nat>, right: seq<bool>, cells: seq<string>, i: nat)
    requires Fits(widths, right, cells) && i < |cells|
    ensures var line, lo := Printed(widths, right, cells, |cells|), Offset(widths, i);
            var cell := Cell(widths, right, cells, i);
            && lo + |cell| <= |line| && line[lo..lo + |cell|] == cell
            && (i + 1 == |cells| ==> |line| == lo + |cell|)
  {
    hide Cell, Offset;
    var line, before, cell := Printed(widths, right, cells, |cells|), Printed(widths, right, cells, i),
                              Cell(widths, right, cells, i);
    ColumnsBeginAtOffsets(widths, right, cells, i);
    PrintedGrows(widths, right, cells, i + 1, |cells|);
    assert Printed(widths, right, cells, i + 1) == before + cell;
    InsidePrefix(line, before, cell);
  }

  lemma InsidePrefix(line: string, before: string, cell: string)
    requires before + cell <= line
    ensures |before| + |cell| <= |line| && line[|before|..|before| + |cell|] == cell
  {
    assert (before + cell)[|before|..] == cell;
  }

  lemma SubSlice(line: string, lo: nat, cell: string, a: nat, b: nat)
    requires lo + |cell| <= |line| && line[lo..lo + |cell|] == cell && a <= b <= |cell|
    ensures line[lo + a..lo + b] == cell[a..b]
  {
    forall k | 0 <= k < b - a ensures line[lo + a..lo + b][k] == cell[a..b][k] {
      assert line[lo..lo + |cell|][a + k] == cell[a + k];
    }
  }

  lemma CellShape(widths: seq<nat>, right: seq<bool>, cells: seq<string>, i: nat)
    requires Fits(widths, right, cells) && i < |cells|
    ensures var cell, w, n, last := Cell(widths, right, cells, i), widths[i], |cells[i]|, i + 1 == |cells|;
            if right[i] then
              && |cell| == w + (if last then 0 else 2)
              && cell[0..w - n] == Spaces(w - n) && cell[w - n..w] == cells[i] && (!last ==> cell[w..w + 2] == "  ")
            else
              && |cell| == (if last then n else w + 2)
              && cell[0..n] == cells[i] && (!last ==> cell[n..w + 2] == Spaces(w + 2 - n))
  {
    var w, n, c, cell := widths[i], |cells[i]|, cells[i], Cell(widths, right, cells, i);
    var pad, last := Spaces(w - n), i + 1 == |cells|;
    SpacesAdd(w - n);
    if right[i] {
      assert cell == pad + c + (if last then "" else "  ");
      assert cell[0..w - n] == pad && cell[w - n..w] == c && (!last ==> cell[w..w + 2] == "  ");
    } else if last {
      assert cell == c && cell[0..n] == c;
    } else {
      assert cell == c + (pad + "  ");
      assert cell[0..n] == c && cell[n..w + 2] == pad + "  " == Spaces(w + 2 - n);
    }
  }

  lemma SpacesAdd(n: nat)
    ensures |Spaces(n)| == n && Spaces(n) + "  " == Spaces(n + 2)
  {
  }

  // ---------------------------------------------------------------- the whole table

  function Line(widths: seq<nat>, right: seq<bool>, cells: seq<string>): string
    requires Fits(widths, right, cells)
  {
    Printed(widths, right, cells, |cells|) + "\n"
  }

  function Lines(widths: seq<nat>, right: seq<bool>, rows: seq<seq<string>>, k: nat): string
    requires k <= |rows| && forall r | 0 <= r < |rows| :: Fits(widths, right, rows[r])
  {
    if k == 0 then "" else Lines(widths, right, rows, k - 1) + Line(widths, right, rows[k - 1])
  }

  function Dashes(n: nat): string {
    seq(n, _ => '-')
  }

  lemma WidthsFit(headers: seq<string>, rows: seq<seq<string>>, widths: seq<nat>, right: seq<bool>)
    requires AreWidths(headers, rows, widths) && |right| == |headers|
    ensures Fits(widths, right, headers)
    ensures forall r | 0 <= r < |rows| :: Fits(widths, right, rows[r])
  {
    assert forall i | 0 <= i < |widths| :: IsWidth(headers, rows, i, widths[i]);
  }

  class Table {
    const headers: seq<string>
    var right: seq<bool>
    var rows: seq<seq<string>>

    ghost predicate Valid()
      reads this
    {
      |right| == |headers| && Rectangular(rows, |headers|)
    }

    constructor (headers: seq<string>)
      ensures Valid() && this.headers == headers && rows == []
      ensures right == seq(|headers|, _ => false)
    {
      this.headers := headers;
      right, rows := seq(|headers|, _ => false), [];
    }

    method AddRow(cells: seq<string>)
      requires Valid()
      modifies this`rows
      ensures Valid() && rows == old(rows) + [Resized(cells, |headers|)]
    {
      rows := rows + [Resized(cells, |headers|)];
    }

    method RightAlign(column: nat)
      requires Valid()
      modifies this`right
      ensures Valid() && right == if column < |headers| then old(right)[column := true] else old(right)
    {
      if column < |right| {
        right := right[column := true];
      }
    }

    /** The exact maximum cell length of every column. */
    method Widths() returns (widths: seq<nat>)
      requires Valid()
      ensures AreWidths(headers, rows, widths)
    {
      widths := seq(|headers|, i requires 0 <= i < |headers| => |headers[i]|);
      var r := 0;
      while r < |rows|
        invariant 0 <= r <= |rows| && AreWidths(headers, rows[..r], widths)
      {
        var row := rows[r];
        ghost var before := widths;
        var i := 0;
        while i < |row|
          invariant 0 <= i <= |row| == |widths| && |widths| == |before|
          invariant forall j | 0 <= j < |widths| ::
                      widths[j] == if j < i && |row[j]| > before[j] then |row[j]| else before[j]
        {
          if |row[i]| > widths[i] {
            widths := widths[i := |row[i]|];
          }
          i := i + 1;
        }
        OneMoreRow(headers, rows[..r], row, before, widths);
        assert rows[..r + 1] == rows[..r] + [row];
        r := r + 1;
      }
      assert rows[..|rows|] == rows;
    }

    /** One line; the padding `widths[i] - |cells[i]|` never underflows. */
    method Emit(widths: seq<nat>, cells: seq<string>) returns (os: string)
      requires Fits(widths, right, cells)
      ensures os == Line(widths, right, cells)
    {
      os := "";
      var i := 0;
      while i < |cells|
        invariant 0 <= i <= |cells| && os == Printed(widths, right, cells, i)
      {
        ghost var before := os;
        var pad: nat := widths[i] - |cells[i]|;
        if right[i] {
          os := os + (Spaces(pad) + cells[i]);
        } else {
          os := os + cells[i];
          if i + 1 < |cells| {
            os := os + Spaces(pad);
          }
        }
        if i + 1 < |cells| {
          os := os + "  ";
        }
        assert os == before + Cell(widths, right, cells, i);
        i := i + 1;
      }
      os := os + "\n";
    }

    /** Header, a line of dashes as wide as the columns, and the rows. */
    method Print() returns (os: string)
      requires Valid()
      ensures exists widths :: AreWidths(headers, rows, widths) && IsRendering(os, widths, headers, right, rows)
    {
      hide Fits, AreWidths, Rectangular, Line;
      var w := Widths();
      WidthsFit(headers, rows, w, right);
      var head := Emit(w, headers);
      var total := 0;
      var i := 0;
      while i < |w|
        invariant 0 <= i <= |w| && total == Offset(w, i)
      {
        total := total + (w[i] + 2);
        i := i + 1;
      }
      var dashes := Dashes(if total > 2 then total - 2 else 0);
      var body := "";
      var r := 0;
      while r < |rows|
        invariant 0 <= r <= |rows| && body == Lines(w, right, rows, r)
      {
        var line := Emit(w, rows[r]);
        body := body + line;
        r := r + 1;
      }
      SameLength(headers, rows, w);
      os := head + dashes + "\n" + body;
      assert AreWidths(headers, rows, w) && IsRendering(os, w, headers, right, rows);
    }
  }

  lemma SameLength(headers: seq<string>, rows: seq<seq<string>>, widths: seq<nat>)
    requires AreWidths(headers, rows, widths)
    ensures |widths| == |headers|
  {
  }

  /** The text of the table for given column widths; there is a dash under every column and every gap. */
  ghost predicate IsRendering(os: string, widths: seq<nat>, headers: seq<string>, right: seq<bool>,
                              rows: seq<seq<string>>)
  {
    && Fits(widths, right, headers) && (forall r | 0 <= r < |rows| :: Fits(widths, right, rows[r]))
    && os == Line(widths, right, headers)
             + Dashes(if headers == [] then 0 else Offset(widths, |widths|) - 2) + "\n"
             + Lines(widths, right, rows, |rows|)
  }

  predicate OneLineEach(cells: seq<string>) {
    forall i | 0 <= i < |cells| :: Text.OneLine(cells[i])
  }

  /** For cells of one line each, the printed text has exactly one line for the header, one of dashes, which ends where
      the last column ends, and one for every row, in the order in which the rows were added. */
  lemma TableLines(os: string, widths: seq<nat>, headers: seq<string>, right: seq<bool>, rows: seq<seq<string>>)
    requires IsRendering(os, widths, headers, right, rows)
    requires OneLineEach(headers) && forall r | 0 <= r < |rows| :: OneLineEach(rows[r])
    ensures var lines, n := Text.Lines(os, 0), |headers|;
            && |lines| == |rows| + 2
            && lines[0] == Printed(widths, right, headers, n)
            && |lines[1]| == (if n == 0 then 0 else Offset(widths, n - 1) + widths[n - 1])
            && (forall c | c in lines[1] :: c == '-')
            && forall r | 0 <= r < |rows| :: lines[r + 2] == Printed(widths, right, rows[r], |rows[r]|)
  {
    hide Fits, Printed, Offset, Lines, Text.Lines, Text.Unlines, Dashes;
    var n := |headers|;
    RenderingFits(os, widths, headers, right, rows);
    OffsetIs(widths, n);
    var dashes := Dashes(if n == 0 then 0 else Offset(widths, |widths|) - 2);
    var body := PrintedRows(widths, right, rows, |rows|);
    var head := Printed(widths, right, headers, n);
    var all := [head, dashes] + body;
    BodyIsUnlined(widths, right, rows, |rows|);
    TwoMoreLines(head, dashes, body);
    PrintedIsOneLine(widths, right, headers, n);
    DashesAre(widths, n);
    forall r | 0 <= r < |rows| ensures Text.OneLine(body[r]) {
      PrintedIsOneLine(widths, right, rows[r], |rows[r]|);
    }
    UnlinesBack(all);
    assert os == Text.Unlines(all);
  }

  lemma RenderingFits(os: string, widths: seq<nat>, headers: seq<string>, right: seq<bool>, rows: seq<seq<string>>)
    requires IsRendering(os, widths, headers, right, rows)
    ensures Fits(widths, right, headers) && (forall r | 0 <= r < |rows| :: Fits(widths, right, rows[r]))
    ensures |widths| == |headers|
  {
  }

  function PrintedRows(widths: seq<nat>, right: seq<bool>, rows: seq<seq<string>>, k: nat): (lines: seq<string>)
    requires k <= |rows| && forall r | 0 <= r < |rows| :: Fits(widths, right, rows[r])
    ensures |lines| == k
    ensures forall r | 0 <= r < k :: lines[r] == Printed(widths, right, rows[r], |rows[r]|)
  {
    seq(k, r requires 0 <= r < k => Printed(widths, right, rows[r], |rows[r]|))
  }

  lemma {:induction false} BodyIsUnlined(widths: seq<nat>, right: seq<bool>, rows: seq<seq<string>>, k: nat)
    requires k <= |rows| && forall r | 0 <= r < |rows| :: Fits(widths, right, rows[r])
    ensures Lines(widths, right, rows, k) == Text.Unlines(PrintedRows(widths, right, rows, k))
  {
    hide Fits, Printed;
    if k > 0 {
      BodyIsUnlined(widths, right, rows, k - 1);
      var before, line := PrintedRows(widths, right, rows, k - 1), Printed(widths, right, rows[k - 1], |rows[k - 1]|);
      assert PrintedRows(widths, right, rows, k) == before + [line];
      UnlinesSnoc(before, line);
    }
  }

  lemma {:induction false} UnlinesSnoc(lines: seq<string>, line: string)
    ensures Text.Unlines(lines + [line]) == Text.Unlines(lines) + (line + "\n")
  {
    if lines == [] {
      assert [line][1..] == [] && lines + [line] == [line];
    } else {
      UnlinesSnoc(lines[1..], line);
      assert (lines + [line])[1..] == lines[1..] + [line];
    }
  }

  lemma TwoMoreLines(head: string, dashes: string, body: seq<string>)
    ensures Text.Unlines([head, dashes] + body) == head + "\n" + dashes + "\n" + Text.Unlines(body)
  {
    var all := [head, dashes] + body;
    assert all[1..] == [dashes] + body && all[1..][1..] == body;
  }

  lemma DashesAre(widths: seq<nat>, n: nat)
    requires n == |widths|
    ensures var dashes := Dashes(if n == 0 then 0 else Offset(widths, n) - 2);
            && |dashes| == (if n == 0 then 0 else Offset(widths, n - 1) + widths[n - 1])
            && (forall c | c in dashes :: c == '-') && Text.OneLine(dashes)
  {
  }

  lemma UnlinesBack(lines: seq<string>)
    requires forall i | 0 <= i < |lines| :: Text.OneLine(lines[i])
    ensures Text.Lines(Text.Unlines(lines), 0) == lines
  {
    hide Text.Lines, Text.Unlines, Text.Lined;
    Text.UnlinesIsLined("", lines, "");
    assert "" + Text.Unlines(lines) + "" == Text.Unlines(lines);
    assert Text.OneLine("");
    Text.LinesInvertUnlines(Text.Unlines(lines), 0, lines, "");
    assert lines + [] == lines;
  }

  lemma {:induction false} PrintedIsOneLine(widths: seq<nat>, right: seq<bool>, cells: seq<string>, k: nat)
    requires Fits(widths, right, cells) && k <= |cells| && OneLineEach(cells)
    ensures Text.OneLine(Printed(widths, right, cells, k))
  {
    if k > 0 {
      PrintedIsOneLine(widths, right, cells, k - 1);
      assert Text.OneLine(cells[k - 1]);
    }
  }

  lemma OneMoreRow(headers: seq<string>, rows: seq<seq<string>>, row: seq<string>, before: seq<nat>, after: seq<nat>)
    requires AreWidths(headers, rows, before) && |row| == |headers| == |after|
    requires forall j | 0 <= j < |after| :: after[j] == if |row[j]| > before[j] then |row[j]| else before[j]
    ensures AreWidths(headers, rows + [row], after)
  {
    var more := rows + [row];
    forall i | 0 <= i < |after| ensures IsWidth(headers, more, i, after[i]) {
      assert IsWidth(headers, rows, i, before[i]);
      if after[i] == |row[i]| {
        assert |more[|rows|][i]| == after[i];
      } else if before[i] != |headers[i]| {
        var r :| 0 <= r < |rows| && |rows[r][i]| == before[i];
        assert |more[r][i]| == after[i];
      }
    }
  }
}
