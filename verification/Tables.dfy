// Widening the delimiter rows of Markdown tables that have fewer columns than
// their header.

module Tables {
  import opened Wrappers
  import opened Text
  import opened Fences

  const CHARS := Alphabet(' ', '\t', '\n', '`', '~')

  type LineFence = Option<Fence<char>>

  function OpensWith(line: string): LineFence {
    var opening := Opening(line, 0, CHARS);
    if opening.Some? then Some(opening.value.0) else None
  }

  predicate Closes(line: string, fence: Fence<char>) { Closing(line, 0, fence, CHARS).Some? }

  // ---------------------------------------------------------------------
  // Rows
  // ---------------------------------------------------------------------

  predicate IsBlank(s: string) { Trim(s) == "" }

  /** Without a blank first piece. */
  function Head(pieces: seq<string>): seq<string> {
    if pieces != [] && IsBlank(pieces[0]) then pieces[1..] else pieces
  }

  /** Without a blank last piece. */
  function Tail(pieces: seq<string>): seq<string> {
    if pieces != [] && IsBlank(pieces[|pieces| - 1]) then pieces[..|pieces| - 1] else pieces
  }

  /** The pieces of a trimmed row without its outer pipes. */
  function Inner(pieces: seq<string>): seq<string> { Tail(Head(pieces)) }

  function Cells(line: string): Option<seq<string>> {
    var row := Trim(line);
    if '|' !in row then None
    else
      var cells := Inner(Split(row, '|'));
      if cells == [] then None else Some(cells)
  }

  predicate IsDelimiterCell(cell: string) { Delimits(Trim(cell)) }

  /** Without a colon in front and one behind. */
  function Body(t: string): string {
    var tail := if t != "" && t[0] == ':' then t[1..] else t;
    if tail != "" && tail[|tail| - 1] == ':' then tail[..|tail| - 1] else tail
  }

  predicate AllDashes(s: string) { forall i :: 0 <= i < |s| ==> s[i] == '-' }

  predicate Delimits(t: string) { Body(t) != "" && AllDashes(Body(t)) }

  predicate AreDelimiters(cells: seq<string>) {
    forall cell :: cell in cells ==> IsDelimiterCell(cell)
  }

  predicate IsDelimiterRow(line: string) { Cells(line).Some? && AreDelimiters(Cells(line).value) }

  /** How many columns a line has as a delimiter row, if it is one. */
  function DelimiterColumns(line: string): Option<nat> {
    if IsDelimiterRow(line) then Some(Columns(line)) else None
  }

  function Columns(line: string): nat {
    if Cells(line).Some? then |Cells(line).value| else 0
  }

  function Repeat(s: string, n: nat): string {
    if n == 0 then "" else Repeat(s, n - 1) + s
  }

  /** What one added cell looks like on this row. */
  function Unit(row: string): string {
    if row != "" && row[|row| - 1] == '|' then "---" + ['|'] else ['|'] + "---"
  }

  /** The row with `---` cells added until it has `target` columns. */
  function Padded(line: string, target: nat): string { PadTo(line, Cells(line), target) }

  function PadTo(line: string, cells: Option<seq<string>>, target: nat): string {
    if cells.None? || |cells.value| >= target then line else PadBy(line, target - |cells.value|)
  }

  function PadBy(line: string, extra: nat): string {
    var leading := line[..|line| - |TrimStart(line)|];
    leading + TrimStart(TrimEnd(line)) + Repeat(Unit(TrimEnd(line)), extra)
  }

  /** `next` is the delimiter row of a table whose header is `line`, and it is
      too short. */
  predicate NeedsPadding(line: string, next: string) {
    && Cells(line).Some? && !IsDelimiterRow(line) && IsDelimiterRow(next)
    && Columns(next) < Columns(line)
  }

  // ---------------------------------------------------------------------
  // Padding one row
  // ---------------------------------------------------------------------

  /** One more cell on a trimmed row. */
  function Extended(row: string): string { row + Unit(row) }

  lemma TrimmedPiece(row: string)
    requires IsTrimmed(row) && row != "" && row[|row| - 1] != '|'
    ensures !IsBlank(Split(row, '|')[|Split(row, '|')| - 1])
  {
    var piece := Split(row, '|')[|Split(row, '|')| - 1];
    var rest := Split(row[..|row| - 1], '|');
    assert piece == rest[|rest| - 1] + [row[|row| - 1]];
    assert !IsWhitespace(piece[|piece| - 1]);
    NotBlank(piece, |piece| - 1);
  }

  lemma {:induction false} NotBlank(s: string, i: nat)
    requires i < |s| && !IsWhitespace(s[i])
    ensures !IsBlank(s)
    decreases |s|
  {
    if IsWhitespace(s[0]) {
      assert s[1..][i - 1] == s[i];
      NotBlank(s[1..], i - 1);
    } else {
      TrimEndHead(s);
    }
  }

  lemma DashesAreCell()
    ensures IsDelimiterCell("---") && !IsBlank("---") && '|' !in "---"
    ensures Trim("") == ""
  {
    TrimmedStays("---");
  }

  /** A row that ends in a pipe has an empty last piece, which the extension
      fills and follows by another. */
  lemma Grouped(a: string, b: string, c: string)
    ensures a + b + c == a + (b + c)
  {
  }

  lemma FilledPieces(row: string)
    requires row != "" && row[|row| - 1] == '|'
    ensures
      var pieces := Split(row, '|');
      && pieces[|pieces| - 1] == ""
      && Split(Extended(row), '|') == pieces[..|pieces| - 1] + ["---"] + [""]
  {
    var front := Split(row[..|row| - 1], '|');
    assert Split(row, '|') == front + [""];
    SplitAppend(row, "---", '|');
    ExtendEmpty(front, "---");
    SplitSnoc(row + "---", '|', '|');
    Grouped(row, "---", ['|']);
  }

  lemma GrownPieces(row: string)
    requires row != "" && row[|row| - 1] != '|'
    ensures Split(Extended(row), '|') == Split(row, '|') + ["---"]
  {
    SplitNext(row, "---", '|');
    Grouped(row, ['|'], "---");
  }

  lemma HeadConcat(a: seq<string>, b: seq<string>)
    requires a != []
    ensures Head(a + b) == Head(a) + b
  {
  }

  lemma TailSnoc(pieces: seq<string>, last: string)
    ensures Tail(pieces + [last]) == if IsBlank(last) then pieces else pieces + [last]
  {
  }

  lemma NoInner()
    ensures Inner([""]) == []
  {
    DashesAreCell();
    assert Head([""]) == [];
  }

  lemma InnerFilled(front: seq<string>)
    requires Inner(front + [""]) != []
    ensures Inner(front + ["---"] + [""]) == Inner(front + [""]) + ["---"]
  {
    DashesAreCell();
    NoInner();
    assert front == [] ==> front + [""] == [""];
    if front != [] {
      HeadConcat(front, [""]);
      HeadConcat(front, ["---"]);
      HeadConcat(front + ["---"], [""]);
      TailSnoc(Head(front), "");
      TailSnoc(Head(front) + ["---"], "");
    }
  }

  lemma InnerGrown(pieces: seq<string>)
    requires |pieces| > 1 && !IsBlank(pieces[|pieces| - 1])
    ensures Inner(pieces + ["---"]) == Inner(pieces) + ["---"]
  {
    DashesAreCell();
    HeadConcat(pieces, ["---"]);
    TailSnoc(Head(pieces), "---");
    assert Head(pieces)[|Head(pieces)| - 1] == pieces[|pieces| - 1];
  }

  lemma {:induction false} PieceCount(row: string, sep: char)
    requires sep in row
    ensures |Split(row, sep)| > 1
  {
    if row[|row| - 1] != sep {
      assert row == row[..|row| - 1] + [row[|row| - 1]];
      PieceCount(row[..|row| - 1], sep);
    }
  }

  lemma ExtendedIsTrimmed(row: string)
    requires IsTrimmed(row) && row != ""
    ensures IsTrimmed(Extended(row)) && '|' in Extended(row)
  {
    var ext := Extended(row);
    assert ext[|ext| - 1] == '|' || ext[|ext| - 1] == '-';
    assert ext[if row[|row| - 1] == '|' then |ext| - 1 else |row|] == '|';
  }

  /** The extension adds one `---` cell and changes no other. */
  lemma ExtendedCells(row: string)
    requires IsTrimmed(row) && '|' in row && Cells(row).Some?
    ensures Cells(Extended(row)) == Some(Cells(row).value + ["---"])
  {
    var pieces := Split(row, '|');
    TrimmedStays(row);
    ExtendedIsTrimmed(row);
    TrimmedStays(Extended(row));
    if row[|row| - 1] == '|' {
      FilledPieces(row);
      var front := pieces[..|pieces| - 1];
      assert pieces == front + [""];
      InnerFilled(front);
    } else {
      GrownPieces(row);
      TrimmedPiece(row);
      PieceCount(row, '|');
      InnerGrown(pieces);
    }
  }

  function Times(row: string, n: nat): string {
    if n == 0 then row else Extended(Times(row, n - 1))
  }

  function Dashes(n: nat): seq<string> { seq(n, i => "---") }

  lemma DashesSnoc(cells: seq<string>, n: nat)
    ensures cells + Dashes(n) + ["---"] == cells + Dashes(n + 1)
    ensures cells + Dashes(0) == cells
  {
    assert Dashes(n) + ["---"] == Dashes(n + 1);
  }

  predicate IsRow(row: string) { IsTrimmed(row) && '|' in row }

  /** Whatever reads one more cell off each extension reads `n` off `n`. */
  lemma {:induction false} TimesReads(read: string -> Option<seq<string>>, isRow: string -> bool,
                                      row: string, cells: seq<string>, n: nat)
    requires forall r {:trigger Extended(r)} :: isRow(r) && read(r).Some? ==>
      isRow(Extended(r)) && read(Extended(r)) == Some(read(r).value + ["---"])
    requires isRow(row) && read(row) == Some(cells)
    ensures isRow(Times(row, n)) && read(Times(row, n)) == Some(cells + Dashes(n))
  {
    if n > 0 {
      TimesReads(read, isRow, row, cells, n - 1);
      DashesSnoc(cells, n - 1);
    } else {
      DashesSnoc(cells, 0);
    }
  }

  lemma TimesCells(row: string, cells: seq<string>, n: nat)
    requires IsRow(row) && Cells(row) == Some(cells)
    ensures IsRow(Times(row, n)) && Cells(Times(row, n)) == Some(cells + Dashes(n))
  {
    forall r | IsRow(r) && Cells(r).Some?
      ensures IsRow(Extended(r)) && Cells(Extended(r)) == Some(Cells(r).value + ["---"])
    {
      ExtendedIsTrimmed(r);
      ExtendedCells(r);
    }
    TimesReads(Cells, IsRow, row, cells, n);
  }

  lemma DashesDelimit(cells: seq<string>, n: nat)
    requires AreDelimiters(cells)
    ensures AreDelimiters(cells + Dashes(n)) && |cells + Dashes(n)| == |cells| + n
  {
    DashesAreCell();
  }

  lemma ColumnsAre(line: string, cells: seq<string>, count: nat)
    requires Cells(line) == Some(cells) && AreDelimiters(cells) && |cells| == count
    ensures DelimiterColumns(line) == Some(count)
  {
  }

  lemma UnitExtended(row: string)
    requires row != ""
    ensures Unit(Extended(row)) == Unit(row)
  {
    assert Extended(row)[|Extended(row)| - 1] == Unit(row)[|Unit(row)| - 1];
  }

  /** All extensions of one row end alike, so they are one repeated text. */
  lemma {:induction false} TimesIsRepeat(row: string, n: nat)
    requires row != ""
    ensures Times(row, n) == row + Repeat(Unit(row), n) && Unit(Times(row, n)) == Unit(row)
  {
    if n == 0 {
      assert row + "" == row;
    } else {
      TimesIsRepeat(row, n - 1);
      RepeatStep(row, Times(row, n - 1), Unit(row), Repeat(Unit(row), n - 1));
    }
  }

  lemma RepeatStep(row: string, before: string, unit: string, repeated: string)
    requires row != "" && before == row + repeated && Unit(before) == unit
    ensures Extended(before) == row + (repeated + unit) && Unit(Extended(before)) == unit
  {
    UnitExtended(before);
    Grouped(row, repeated, unit);
  }

  /** Trimming a row does not change its cells. */
  lemma CellsOfTrimmed(line: string)
    ensures Cells(Trim(line)) == Cells(line)
  {
    TrimIs(line);
    TrimmedStays(Trim(line));
  }

  /** A line and its trimmed form end in the same character. */
  lemma SameEnd(line: string)
    requires Trim(line) != ""
    ensures Unit(TrimEnd(line)) == Unit(Trim(line))
  {
    TrimCommutes(line);
    TrimStartIs(TrimEnd(line));
  }

  lemma PadByForm(line: string, extra: nat)
    requires Trim(line) != ""
    ensures PadBy(line, extra) == line[..|line| - |TrimStart(line)|] + Times(Trim(line), extra)
  {
    TrimCommutes(line);
    TimesIsRepeat(Trim(line), extra);
    SameEnd(line);
    Grouped(line[..|line| - |TrimStart(line)|], Trim(line), Repeat(Unit(Trim(line)), extra));
  }

  lemma PadByTrims(line: string, extra: nat)
    requires Trim(line) != "" && IsTrimmed(Times(Trim(line), extra))
    ensures Trim(PadBy(line, extra)) == Times(Trim(line), extra)
  {
    PadByForm(line, extra);
    LeadingIsBlank(line);
    TrimSkips(line[..|line| - |TrimStart(line)|], Times(Trim(line), extra));
    TrimmedStays(Times(Trim(line), extra));
  }

  lemma PadByCells(line: string, extra: nat)
    requires Cells(line).Some?
    ensures Cells(PadBy(line, extra)) == Some(Cells(line).value + Dashes(extra))
  {
    TrimIs(line);
    CellsOfTrimmed(line);
    TimesCells(Trim(line), Cells(line).value, extra);
    PadByTrims(line, extra);
    CellsOfTrimmed(PadBy(line, extra));
    CellsOfTrimmed(Times(Trim(line), extra));
    TrimmedStays(Times(Trim(line), extra));
  }

  lemma OwnColumns(line: string)
    requires DelimiterColumns(line).Some?
    ensures Cells(line).Some? && AreDelimiters(Cells(line).value)
    ensures DelimiterColumns(line) == Some(|Cells(line).value|)
  {
  }

  lemma PadByReaches(line: string, cells: seq<string>, extra: nat, target: nat)
    requires Cells(line) == Some(cells) && AreDelimiters(cells) && |cells| + extra == target
    ensures DelimiterColumns(PadBy(line, extra)) == Some(target)
  {
    PadByCells(line, extra);
    DashesDelimit(cells, extra);
    ColumnsAre(PadBy(line, extra), cells + Dashes(extra), target);
  }

  lemma PadToReaches(line: string, cells: Option<seq<string>>, extra: nat, target: nat, result: Option<nat>)
    requires cells.Some? && |cells.value| + extra == target && extra > 0
    requires DelimiterColumns(PadBy(line, extra)) == result
    ensures DelimiterColumns(PadTo(line, cells, target)) == result
  {
    assert PadTo(line, cells, target) == PadBy(line, extra);
  }

  /** A padded delimiter row is a delimiter row with exactly the target number
      of columns. */
  lemma PaddedIs(line: string, target: nat)
    requires DelimiterColumns(line).Some? && DelimiterColumns(line).value < target
    ensures DelimiterColumns(Padded(line, target)) == Some(target)
  {
    OwnColumns(line);
    var extra := target - DelimiterColumns(line).value;
    PadByReaches(line, Cells(line).value, extra, target);
    PadToReaches(line, Cells(line), extra, target, Some(target));
  }

  lemma ExtendedKeepsOut(row: string, c: char)
    requires c !in row && c != '-' && c != '|'
    ensures c !in Extended(row)
  {
  }

  lemma {:induction false} TimesKeepsOut(row: string, n: nat, c: char)
    requires c !in row && c != '-' && c != '|'
    ensures c !in Times(row, n)
  {
    if n > 0 {
      TimesKeepsOut(row, n - 1, c);
      ExtendedKeepsOut(Times(row, n - 1), c);
    }
  }

  lemma TrimIsPart(line: string, c: char)
    requires c !in line
    ensures c !in Trim(line)
  {
    TrimStartIs(line);
    TrimEndIs(TrimStart(line));
  }

  lemma RowNonempty(line: string)
    ensures Cells(line).Some? ==> Trim(line) != ""
  {
  }

  /** Padding brings in no character but pipes and dashes. */
  lemma PaddedKeepsOut(line: string, target: nat, c: char)
    requires c !in line && c != '-' && c != '|'
    ensures c !in Padded(line, target)
  {
    RowNonempty(line);
    PadToKeepsOut(line, Cells(line), target, c);
  }

  lemma PadToKeepsOut(line: string, cells: Option<seq<string>>, target: nat, c: char)
    requires c !in line && c != '-' && c != '|' && (cells.Some? ==> Trim(line) != "")
    ensures c !in PadTo(line, cells, target)
  {
    if cells.Some? && |cells.value| < target {
      PadByKeepsOut(line, target - |cells.value|, c);
    }
  }

  lemma PadByKeepsOut(line: string, extra: nat, c: char)
    requires c !in line && c != '-' && c != '|' && Trim(line) != ""
    ensures c !in PadBy(line, extra)
  {
    PadByForm(line, extra);
    TrimIsPart(line, c);
    TimesKeepsOut(Trim(line), extra, c);
    var leading := line[..|line| - |TrimStart(line)|];
    assert forall i :: 0 <= i < |leading| ==> leading[i] == line[i];
  }

  // ---------------------------------------------------------------------
  // Delimiter rows open no fence
  // ---------------------------------------------------------------------

  lemma {:induction false} SplitCovers(s: string, sep: char, c: char)
    requires c in s && c != sep
    ensures exists i :: 0 <= i < |Split(s, sep)| && c in Split(s, sep)[i]
  {
    var front, last := s[..|s| - 1], s[|s| - 1];
    var rest := Split(front, sep);
    assert s == front + [last];
    if c in front {
      SplitCovers(front, sep, c);
      var i :| 0 <= i < |rest| && c in rest[i];
      if last == sep {
        assert Split(s, sep)[i] == rest[i];
      } else {
        assert c in Split(s, sep)[i];
      }
    } else {
      assert c in Split(s, sep)[|rest| - 1];
    }
  }

  lemma {:induction false} TrimStartKeeps(s: string, c: char)
    requires c in s && !IsWhitespace(c)
    ensures c in TrimStart(s)
  {
    if IsWhitespace(s[0]) {
      assert s == [s[0]] + s[1..];
      TrimStartKeeps(s[1..], c);
    }
  }

  lemma {:induction false} TrimEndKeeps(s: string, c: char)
    requires c in s && !IsWhitespace(c)
    ensures c in TrimEnd(s)
  {
    if IsWhitespace(s[|s| - 1]) {
      assert s == s[..|s| - 1] + [s[|s| - 1]];
      TrimEndKeeps(s[..|s| - 1], c);
    }
  }

  lemma DelimiterCellHolds(cell: string, c: char)
    requires IsDelimiterCell(cell) && c in cell && !IsWhitespace(c)
    ensures c == '-' || c == ':'
  {
    TrimStartKeeps(cell, c);
    TrimEndKeeps(TrimStart(cell), c);
    var t := Trim(cell);
    var i :| 0 <= i < |t| && t[i] == c;
    var tail := if t[0] == ':' then t[1..] else t;
    assert t[0] == ':' && i > 0 ==> tail[i - 1] == c;
  }

  lemma InnerKeeps(pieces: seq<string>, i: nat)
    requires i < |pieces| && !IsBlank(pieces[i])
    ensures pieces[i] in Inner(pieces)
  {
    var rest := if IsBlank(pieces[0]) then pieces[1..] else pieces;
    var k := if IsBlank(pieces[0]) then i - 1 else i;
    assert rest[k] == pieces[i];
    assert k < |Inner(pieces)| && Inner(pieces)[k] == pieces[i];
  }

  /** A delimiter row holds pipes, dashes, colons and white space only. */
  lemma DelimiterRowHolds(line: string, c: char)
    requires IsDelimiterRow(line) && c in line && !IsWhitespace(c)
    ensures c == '|' || c == '-' || c == ':'
  {
    TrimStartKeeps(line, c);
    TrimEndKeeps(TrimStart(line), c);
    var pieces := Split(Trim(line), '|');
    if c != '|' {
      SplitCovers(Trim(line), '|', c);
      var i :| 0 <= i < |pieces| && c in pieces[i];
      var at :| 0 <= at < |pieces[i]| && pieces[i][at] == c;
      NotBlank(pieces[i], at);
      InnerKeeps(pieces, i);
      assert pieces[i] in Cells(line).value;
      DelimiterCellHolds(pieces[i], c);
    }
  }

  lemma DelimiterOpensNoFence(line: string)
    requires IsDelimiterRow(line)
    ensures OpensWith(line).None?
  {
    var j := Indented(line, 0, CHARS);
    if j < |line| {
      if line[j] == '`' || line[j] == '~' {
        DelimiterRowHolds(line, line[j]);
      }
    }
  }

  // ---------------------------------------------------------------------
  // The pass
  // ---------------------------------------------------------------------

  /** What the pass asks about lines: the fence a line opens, whether it closes
      one, whether a line heads a table whose next line is too short, and that
      line made longer. */
  datatype Rule = Rule(
    opens: string -> LineFence,
    closes: (string, Fence<char>) -> bool,
    needs: (string, string) -> bool,
    pad: (string, string) -> string)

  const GFM := Rule(OpensWith, Closes, NeedsPadding, (head, row) => Padded(row, Columns(head)))

  function NextFence(line: string, fence: LineFence, rule: Rule): LineFence {
    if fence.None? then rule.opens(line) else if rule.closes(line, fence.value) then None else fence
  }

  /** The first two lines are a header and a delimiter row to pad. */
  predicate Pads(lines: seq<string>, fence: LineFence, rule: Rule) {
    fence.None? && |lines| > 1 && rule.opens(lines[0]).None? && rule.needs(lines[0], lines[1])
  }

  function Normalized(lines: seq<string>, fence: LineFence, rule: Rule): seq<string> {
    if lines == [] then []
    else if Pads(lines, fence, rule) then
      [lines[0], rule.pad(lines[0], lines[1])] + Normalized(lines[2..], None, rule)
    else [lines[0]] + Normalized(lines[1..], NextFence(lines[0], fence, rule), rule)
  }

  /** After `i` lines the output so far and the rest make up the whole. */
  ghost predicate Reached(lines: seq<string>, i: nat, out: seq<string>, fence: LineFence, rule: Rule) {
    i <= |lines| && Normalized(lines, None, rule) == out + Normalized(lines[i..], fence, rule)
  }

  lemma KeepsLine(lines: seq<string>, i: nat, out: seq<string>, fence: LineFence, rule: Rule)
    requires i < |lines| && Reached(lines, i, out, fence, rule) && !Pads(lines[i..], fence, rule)
    ensures Reached(lines, i + 1, out + [lines[i]], NextFence(lines[i], fence, rule), rule)
  {
    var rest := lines[i..];
    assert rest[0] == lines[i] && rest[1..] == lines[i + 1..];
    Appended(out, [lines[i]], Normalized(rest[1..], NextFence(rest[0], fence, rule), rule));
  }

  lemma PadsLine(lines: seq<string>, i: nat, out: seq<string>, fence: LineFence, rule: Rule)
    requires i + 1 < |lines| && Reached(lines, i, out, fence, rule) && Pads(lines[i..], fence, rule)
    ensures Reached(lines, i + 2, out + [lines[i], rule.pad(lines[i], lines[i + 1])], None, rule)
  {
    var rest := lines[i..];
    assert rest[0] == lines[i] && rest[1] == lines[i + 1] && rest[2..] == lines[i + 2..];
    Appended(out, [lines[i], rule.pad(lines[i], lines[i + 1])], Normalized(rest[2..], None, rule));
  }

  lemma Appended(a: seq<string>, b: seq<string>, c: seq<string>)
    ensures a + (b + c) == a + b + c
  {
  }

  /** The index loop over the lines. */
  method NormalizeLines(lines: seq<string>, rule: Rule) returns (out: seq<string>)
    ensures out == Normalized(lines, None, rule)
  {
    var i: nat, fence: LineFence := 0, None;
    out := [];
    assert lines[0..] == lines && [] + Normalized(lines, None, rule) == Normalized(lines, None, rule);
    while i < |lines|
      invariant Reached(lines, i, out, fence, rule)
    {
      var line := lines[i];
      assert lines[i..][0] == line && (i + 1 < |lines| ==> lines[i..][1] == lines[i + 1]);
      if fence.None? && rule.opens(line).None? && i + 1 < |lines| && rule.needs(line, lines[i + 1]) {
        PadsLine(lines, i, out, fence, rule);
        out, i, fence := out + [line, rule.pad(line, lines[i + 1])], i + 2, None;
      } else {
        KeepsLine(lines, i, out, fence, rule);
        fence := NextFence(line, fence, rule);
        out, i := out + [line], i + 1;
      }
    }
    assert lines[|lines|..] == [] && out + [] == out;
  }

  lemma {:induction false} LengthKept(lines: seq<string>, fence: LineFence, rule: Rule)
    ensures |Normalized(lines, fence, rule)| == |lines|
    ensures lines != [] ==> Normalized(lines, fence, rule)[0] == lines[0]
    decreases |lines|
  {
    if lines != [] {
      if Pads(lines, fence, rule) {
        LengthKept(lines[2..], None, rule);
      } else {
        LengthKept(lines[1..], NextFence(lines[0], fence, rule), rule);
      }
    }
  }

  /** A line is kept, or it is a delimiter row below a kept header and padded. */
  predicate FaithfulAt(lines: seq<string>, out: seq<string>, rule: Rule, k: nat)
    requires k < |lines| == |out|
  {
    || out[k] == lines[k]
    || (k > 0 && out[k - 1] == lines[k - 1] && rule.needs(lines[k - 1], lines[k])
        && out[k] == rule.pad(lines[k - 1], lines[k]))
  }

  lemma FaithfulRest(lines: seq<string>, out: seq<string>, rule: Rule, n: nat, k: nat)
    requires n <= k < |lines| == |out| && n < |lines|
    requires FaithfulAt(lines[n..], out[n..], rule, k - n)
    ensures FaithfulAt(lines, out, rule, k)
  {
  }

  lemma {:induction false} OnlyPads(lines: seq<string>, fence: LineFence, rule: Rule, k: nat)
    requires k < |lines|
    ensures |Normalized(lines, fence, rule)| == |lines| && FaithfulAt(lines, Normalized(lines, fence, rule), rule, k)
    decreases |lines|
  {
    var out := Normalized(lines, fence, rule);
    LengthKept(lines, fence, rule);
    if Pads(lines, fence, rule) {
      if k > 1 {
        OnlyPads(lines[2..], None, rule, k - 2);
        assert out[2..] == Normalized(lines[2..], None, rule);
        FaithfulRest(lines, out, rule, 2, k);
      }
    } else if k > 0 {
      var next := NextFence(lines[0], fence, rule);
      OnlyPads(lines[1..], next, rule, k - 1);
      assert out[1..] == Normalized(lines[1..], next, rule);
      FaithfulRest(lines, out, rule, 1, k);
    }
  }

  /** Every line is kept but for delimiter rows shorter than the header above
      them, and such a row stays a delimiter row and gets exactly its header's
      number of columns. */
  lemma OnlyDelimiterRowsChange(lines: seq<string>, k: nat)
    requires k < |lines|
    ensures |Normalized(lines, None, GFM)| == |lines|
    ensures
      var out := Normalized(lines, None, GFM);
      out[k] != lines[k] ==>
        && k > 0 && out[k - 1] == lines[k - 1] && NeedsPadding(lines[k - 1], lines[k])
        && DelimiterColumns(out[k]) == Some(Columns(lines[k - 1]))
  {
    OnlyPads(lines, None, GFM, k);
    var out := Normalized(lines, None, GFM);
    if out[k] != lines[k] {
      PaddedIs(lines[k], Columns(lines[k - 1]));
    }
  }

  // ---------------------------------------------------------------------
  // Which lines change
  // ---------------------------------------------------------------------

  /** The fence that line `k` is in, if the first line is in `fence`. */
  function FenceFrom(lines: seq<string>, fence: LineFence, rule: Rule, k: nat): LineFence
    requires k <= |lines|
  {
    if k == 0 then fence else NextFence(lines[k - 1], FenceFrom(lines, fence, rule, k - 1), rule)
  }

  /** Line `k` heads a table, outside of fences, whose next line is too short. */
  predicate HeadsShort(lines: seq<string>, fence: LineFence, rule: Rule, k: nat) {
    k + 1 < |lines| && FenceFrom(lines, fence, rule, k).None? && rule.opens(lines[k]).None? && rule.needs(lines[k], lines[k + 1])
  }

  /** A row that is padded opens no fence and heads no table. */
  ghost predicate RowsAreInert(rule: Rule) {
    forall head, row :: rule.needs(head, row) ==> rule.opens(row).None? && forall next :: !rule.needs(row, next)
  }

  lemma {:induction false} FenceSkips(lines: seq<string>, fence: LineFence, rule: Rule, m: nat, k: nat)
    requires m <= k <= |lines|
    ensures FenceFrom(lines, fence, rule, k) == FenceFrom(lines[m..], FenceFrom(lines, fence, rule, m), rule, k - m)
    decreases k
  {
    if m < k {
      FenceSkips(lines, fence, rule, m, k - 1);
      assert lines[m..][k - 1 - m] == lines[k - 1];
    }
  }

  lemma HeadsSkips(lines: seq<string>, fence: LineFence, rule: Rule, m: nat, k: nat)
    requires m <= k && m <= |lines|
    ensures HeadsShort(lines, fence, rule, k) == HeadsShort(lines[m..], FenceFrom(lines, fence, rule, m), rule, k - m)
  {
    if k + 1 < |lines| {
      FenceSkips(lines, fence, rule, m, k);
      assert lines[m..][k - m] == lines[k] && lines[m..][k + 1 - m] == lines[k + 1];
    }
  }

  /** Line `k` of the output. */
  function LineAt(lines: seq<string>, fence: LineFence, rule: Rule, k: nat): string
    requires k < |lines|
  {
    if k > 0 && HeadsShort(lines, fence, rule, k - 1) then rule.pad(lines[k - 1], lines[k]) else lines[k]
  }

  lemma LineSkips(lines: seq<string>, fence: LineFence, rule: Rule, m: nat, k: nat)
    requires 0 < m <= k < |lines| && (m == k ==> !HeadsShort(lines, fence, rule, k - 1))
    ensures LineAt(lines, fence, rule, k) == LineAt(lines[m..], FenceFrom(lines, fence, rule, m), rule, k - m)
  {
    assert lines[m..][k - m] == lines[k];
    if m < k {
      HeadsSkips(lines, fence, rule, m, k - 1);
      assert lines[m..][k - 1 - m] == lines[k - 1];
    }
  }

  lemma FirstPads(lines: seq<string>, fence: LineFence, rule: Rule)
    requires RowsAreInert(rule) && Pads(lines, fence, rule)
    ensures HeadsShort(lines, fence, rule, 0) && !HeadsShort(lines, fence, rule, 1)
    ensures FenceFrom(lines, fence, rule, 2) == None
  {
    assert FenceFrom(lines, fence, rule, 0) == None;
    assert FenceFrom(lines, fence, rule, 1) == None;
  }

  lemma FirstKeeps(lines: seq<string>, fence: LineFence, rule: Rule)
    requires lines != [] && !Pads(lines, fence, rule)
    ensures !HeadsShort(lines, fence, rule, 0)
    ensures FenceFrom(lines, fence, rule, 1) == NextFence(lines[0], fence, rule)
  {
    assert FenceFrom(lines, fence, rule, 0) == fence;
  }

  lemma {:induction false} NormalizedAt(lines: seq<string>, fence: LineFence, rule: Rule, k: nat)
    requires RowsAreInert(rule) && k < |lines|
    ensures |Normalized(lines, fence, rule)| == |lines|
    ensures Normalized(lines, fence, rule)[k] == LineAt(lines, fence, rule, k)
    decreases |lines|
  {
    LengthKept(lines, fence, rule);
    if Pads(lines, fence, rule) {
      FirstPads(lines, fence, rule);
      if k > 1 {
        NormalizedAt(lines[2..], None, rule, k - 2);
        LineSkips(lines, fence, rule, 2, k);
      }
    } else {
      FirstKeeps(lines, fence, rule);
      if k > 0 {
        NormalizedAt(lines[1..], NextFence(lines[0], fence, rule), rule, k - 1);
        LineSkips(lines, fence, rule, 1, k);
      }
    }
  }

  lemma GfmRowsAreInert()
    ensures RowsAreInert(GFM)
  {
    forall head, row | GFM.needs(head, row)
      ensures GFM.opens(row).None? && forall next :: !GFM.needs(row, next)
    {
      DelimiterOpensNoFence(row);
    }
  }

  /** `head` has cells that do not all delimit columns, `row` has cells that all do,
      and `row` has fewer of them. */
  ghost predicate IsShortFor(head: string, row: string) {
    match (Cells(head), Cells(row))
    case (Some(cells), Some(marks)) =>
      (exists c :: c in cells && !IsDelimiterCell(c)) && (forall m :: m in marks ==> IsDelimiterCell(m)) && |marks| < |cells|
    case _ => false
  }

  lemma ShortIff(head: string, row: string)
    ensures NeedsPadding(head, row) <==> IsShortFor(head, row)
  {
  }

  /** Exactly the short delimiter rows directly below a header outside of fences
      change, each to a row of delimiter cells, as many as the header has. */
  lemma LinesAre(lines: seq<string>, k: nat)
    requires k < |lines|
    ensures |Normalized(lines, None, GFM)| == |lines|
    ensures
      var line := Normalized(lines, None, GFM)[k];
      if k > 0 && FenceFrom(lines, None, GFM, k - 1).None? && OpensWith(lines[k - 1]).None? && IsShortFor(lines[k - 1], lines[k])
      then line == Padded(lines[k], |Cells(lines[k - 1]).value|) && DelimiterColumns(line) == Some(|Cells(lines[k - 1]).value|)
      else line == lines[k]
  {
    GfmRowsAreInert();
    NormalizedAt(lines, None, GFM, k);
    if k > 0 {
      ShortIff(lines[k - 1], lines[k]);
      if HeadsShort(lines, None, GFM, k - 1) {
        PaddedIs(lines[k], Columns(lines[k - 1]));
      }
    }
  }

  // ---------------------------------------------------------------------
  // What a row is
  // ---------------------------------------------------------------------

  /** The row's pieces between pipes. */
  predicate ArePieces(row: string, pieces: seq<string>) {
    pieces != [] && Join(pieces, '|') == row && forall p :: p in pieces ==> '|' !in p
  }

  /** The pieces without a blank first and a blank last one. */
  function Between(pieces: seq<string>): seq<string>
    requires |pieces| > 1
  {
    var from, to := if AllBlank(pieces[0]) then 1 else 0, if AllBlank(pieces[|pieces| - 1]) then |pieces| - 1 else |pieces|;
    pieces[from..to]
  }

  ghost predicate AreCells(row: string, cells: Option<seq<string>>) {
    exists pieces ::
      ArePieces(row, pieces) && |pieces| > 1 && cells == (if Between(pieces) == [] then None else Some(Between(pieces)))
  }

  /** The cells of a line: those between its pipes, if there are any. */
  ghost predicate CellsAre(line: string, cells: Option<seq<string>>) {
    exists row :: IsTrimOf(line, row) && if '|' in row then AreCells(row, cells) else cells.None?
  }

  lemma InnerIsBetween(pieces: seq<string>)
    requires |pieces| > 1
    ensures Inner(pieces) == Between(pieces)
  {
    forall p: string ensures IsBlank(p) <==> AllBlank(p) {
      TrimmedToNothing(p);
    }
  }

  lemma CellsTell(line: string)
    ensures CellsAre(line, Cells(line))
  {
    var row := Trim(line);
    TrimTells(line);
    if '|' in row {
      var pieces := Split(row, '|');
      SplitPieces(row, '|');
      JoinSplit(row, '|');
      PieceCount(row, '|');
      InnerIsBetween(pieces);
      assert ArePieces(row, pieces);
    }
  }

  predicate IsColon(s: string) { s == "" || s == ":" }

  /** Dashes, with or without a colon on either side. */
  ghost predicate IsMarker(t: string) {
    exists left, dashes, right :: t == left + dashes + right && IsColon(left) && IsColon(right) && dashes != "" && AllDashes(dashes)
  }

  lemma BodyOf(left: string, dashes: string, right: string)
    requires IsColon(left) && IsColon(right) && dashes != "" && AllDashes(dashes)
    ensures Body(left + dashes + right) == dashes
  {
    var t := left + dashes + right;
    assert t[0] == if left == "" then dashes[0] else ':';
    var tail := if t[0] == ':' then t[1..] else t;
    assert tail == dashes + right;
    assert tail[|tail| - 1] == if right == "" then dashes[|dashes| - 1] else ':';
  }

  lemma DelimitsIff(t: string)
    ensures Delimits(t) <==> IsMarker(t)
  {
    if Delimits(t) {
      var left, tail := if t[0] == ':' then ":" else "", if t[0] == ':' then t[1..] else t;
      var right := if tail[|tail| - 1] == ':' then ":" else "";
      assert t == left + Body(t) + right;
    }
    if IsMarker(t) {
      var left, dashes, right :| t == left + dashes + right && IsColon(left) && IsColon(right) && dashes != "" && AllDashes(dashes);
      BodyOf(left, dashes, right);
    }
  }

  /** Which cells delimit a column. */
  lemma DelimiterCellIff(cell: string, t: string)
    requires IsTrimOf(cell, t)
    ensures IsDelimiterCell(cell) <==> IsMarker(t)
  {
    OneTrim(cell, t);
    DelimitsIff(t);
  }

  lemma PadToReads(read: string -> Option<seq<string>>, line: string, cells: seq<string>, target: nat)
    requires |cells| <= target && read(line) == Some(cells)
    requires |cells| < target ==> read(PadBy(line, target - |cells|)) == Some(cells + Dashes(target - |cells|))
    ensures read(PadTo(line, Some(cells), target)) == Some(cells + Dashes(target - |cells|))
  {
    DashesSnoc(cells, 0);
  }

  /** A padded row keeps its cells and gets `---` cells behind them. */
  lemma PaddedCells(line: string, cells: seq<string>, target: nat)
    requires Cells(line) == Some(cells) && |cells| <= target
    ensures Cells(Padded(line, target)) == Some(cells + seq(target - |cells|, i => "---"))
  {
    if |cells| < target {
      PadByCells(line, target - |cells|);
    }
    PadToReads(Cells, line, cells, target);
  }

  /** The fence a line opens outside of fences, and whether a line closes the
      fence it is in. */
  lemma NextFenceTells(line: string, fence: LineFence)
    ensures
      match fence
      case None => (match NextFence(line, None, GFM)
                    case Some(f) => exists end :: OpensFence(line, 0, f, end, CHARS)
                    case None => forall f, end :: !OpensFence(line, 0, f, end, CHARS))
      case Some(f) => NextFence(line, fence, GFM) == if exists end :: ClosesFence(line, 0, f, end, CHARS) then None else fence
  {
    match fence {
      case None =>
        forall f, end: nat ensures Opening(line, 0, CHARS) == Some((f, end)) <==> OpensFence(line, 0, f, end, CHARS) {
          OpeningIff(line, 0, f, end, CHARS);
        }
      case Some(f) =>
        forall end: nat ensures Closing(line, 0, f, CHARS) == Some(end) <==> ClosesFence(line, 0, f, end, CHARS) {
          ClosingIff(line, 0, f, end, CHARS);
        }
    }
  }

  // ---------------------------------------------------------------------
  // Normalizing twice
  // ---------------------------------------------------------------------

  /** What makes a second pass idle: a padded row opens no fence, needs no more
      padding, and heads no table of its own. */
  ghost predicate Settles(rule: Rule) {
    forall head, row {:trigger rule.pad(head, row)} :: rule.needs(head, row) ==>
      && rule.opens(rule.pad(head, row)).None?
      && !rule.needs(head, rule.pad(head, row))
      && forall next :: !rule.needs(rule.pad(head, row), next)
  }

  lemma GfmSettles()
    ensures Settles(GFM)
  {
    forall head, row | GFM.needs(head, row)
      ensures GFM.opens(GFM.pad(head, row)).None? && !GFM.needs(head, GFM.pad(head, row))
      ensures forall next :: !GFM.needs(GFM.pad(head, row), next)
    {
      PaddedIs(row, Columns(head));
      DelimiterOpensNoFence(Padded(row, Columns(head)));
    }
  }

  lemma NormalizedKeeps(line: string, rest: seq<string>, fence: LineFence, rule: Rule)
    requires !Pads([line] + rest, fence, rule)
    ensures Normalized([line] + rest, fence, rule) == [line] + Normalized(rest, NextFence(line, fence, rule), rule)
  {
    assert ([line] + rest)[1..] == rest;
  }

  /** A padded row is passed over, and nothing before or after it changes. */
  lemma PaddedAgain(head: string, row: string, rest: seq<string>, rule: Rule)
    requires Settles(rule) && rule.needs(head, row) && rule.opens(head).None?
    ensures
      var padded := rule.pad(head, row);
      Normalized([head] + ([padded] + rest), None, rule) == [head] + ([padded] + Normalized(rest, None, rule))
  {
    var padded := rule.pad(head, row);
    NormalizedKeeps(head, [padded] + rest, None, rule);
    NormalizedKeeps(padded, rest, None, rule);
  }

  lemma TwoFirst(a: string, b: string, rest: seq<string>)
    ensures [a, b] + rest == [a] + ([b] + rest)
  {
  }

  /** Whether the first two lines are padded does not depend on what follows. */
  lemma PadsAlike(line: string, rest: seq<string>, rest': seq<string>, fence: LineFence, rule: Rule)
    requires |rest| == |rest'| && (rest != [] ==> rest[0] == rest'[0])
    ensures Pads([line] + rest, fence, rule) == Pads([line] + rest', fence, rule)
  {
  }

  lemma KeptAgain(line: string, rest: seq<string>, fence: LineFence, rule: Rule)
    requires !Pads([line] + rest, fence, rule)
    requires
      var next := NextFence(line, fence, rule);
      Normalized(Normalized(rest, next, rule), next, rule) == Normalized(rest, next, rule)
    ensures
      var out := Normalized([line] + rest, fence, rule);
      Normalized(out, fence, rule) == out
  {
    var out := Normalized(rest, NextFence(line, fence, rule), rule);
    LengthKept(rest, NextFence(line, fence, rule), rule);
    PadsAlike(line, rest, out, fence, rule);
    NormalizedKeeps(line, rest, fence, rule);
    NormalizedKeeps(line, out, fence, rule);
  }

  lemma {:induction false} Idempotent(lines: seq<string>, fence: LineFence, rule: Rule)
    requires Settles(rule)
    ensures Normalized(Normalized(lines, fence, rule), fence, rule) == Normalized(lines, fence, rule)
    decreases |lines|
  {
    if lines != [] {
      if Pads(lines, fence, rule) {
        var rest := Normalized(lines[2..], None, rule);
        Idempotent(lines[2..], None, rule);
        PaddedAgain(lines[0], lines[1], rest, rule);
        TwoFirst(lines[0], rule.pad(lines[0], lines[1]), rest);
      } else {
        Idempotent(lines[1..], NextFence(lines[0], fence, rule), rule);
        assert lines == [lines[0]] + lines[1..];
        KeptAgain(lines[0], lines[1..], fence, rule);
      }
    }
  }

  lemma {:induction false} NoNewlines(lines: seq<string>)
    requires forall l :: l in lines ==> '\n' !in l
    ensures forall l :: l in Normalized(lines, None, GFM) ==> '\n' !in l
  {
    var out := Normalized(lines, None, GFM);
    LengthKept(lines, None, GFM);
    forall k | 0 <= k < |out| ensures '\n' !in out[k] {
      OnlyPads(lines, None, GFM, k);
      assert lines[k] in lines;
      if out[k] != lines[k] {
        PaddedKeepsOut(lines[k], Columns(lines[k - 1]), '\n');
      }
    }
  }

  function NormalizedText(input: string): string {
    var out := Normalized(Split(input, '\n'), None, GFM);
    if out == [] then "" else Join(out, '\n')
  }

  method NormalizeGfmTables(input: string) returns (output: string)
    ensures output == NormalizedText(input)
    ensures Split(output, '\n') == Normalized(Split(input, '\n'), None, GFM) && Join(Split(output, '\n'), '\n') == output
    ensures |Split(output, '\n')| == |Split(input, '\n')| && NormalizedText(output) == output
  {
    TextIdempotent(input);
    TextLines(input);
    LengthKept(Split(input, '\n'), None, GFM);
    var out := NormalizeLines(Split(input, '\n'), GFM);
    output := Join(out, '\n');
  }

  /** The lines of the output are those that the pass over lines gives. */
  lemma TextLines(input: string)
    ensures Split(NormalizedText(input), '\n') == Normalized(Split(input, '\n'), None, GFM)
    ensures Join(Split(NormalizedText(input), '\n'), '\n') == NormalizedText(input)
  {
    var lines := Split(input, '\n');
    SplitPieces(input, '\n');
    LengthKept(lines, None, GFM);
    NoNewlines(lines);
    SplitJoin(Normalized(lines, None, GFM), '\n');
    JoinSplit(NormalizedText(input), '\n');
  }

  /** The pass keeps the number of lines and changes nothing the second time. */
  lemma TextIdempotent(input: string)
    ensures |Split(NormalizedText(input), '\n')| == |Split(input, '\n')|
    ensures NormalizedText(NormalizedText(input)) == NormalizedText(input)
  {
    var lines := Split(input, '\n');
    TextLines(input);
    LengthKept(lines, None, GFM);
    GfmSettles();
    Idempotent(lines, None, GFM);
  }
}
