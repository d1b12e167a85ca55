/**
  What a row shows.  Cells go into their columns, joined by single spaces; in a bounded table the first cell whose
  column does not fit gets what is left, and the cells after it nothing; then trailing spaces go, and only they.
*/
module ConsoleRows {
  import opened Basics
  import opened ColorMarkup
  import opened ConsoleText
  import opened ConsoleFit
  import opened ConsoleCell
  import opened ConsoleSheet

  // ---- trailing spaces ------------------------------------------------------------------------

  lemma {:induction false} TrimMeans(s: string) returns (n: nat)
    ensures s == TrimEnd(s, IsBlank) + Repeat(' ', n)
    ensures var t := TrimEnd(s, IsBlank);
            t != "" ==> t[|t| - 1] != ' '
  {
    n := 0;
    assert Repeat(' ', 0) == [] && s + [] == s;
    if s != [] && s[|s| - 1] == ' ' {
      var init := s[..|s| - 1];
      n := TrimMeans(init);
      assert s == init + [' '];
      assert Repeat(' ', n) + [' '] == Repeat(' ', n + 1);
      Assoc(TrimEnd(init, IsBlank), Repeat(' ', n), [' ']);
      n := n + 1;
    }
  }

  /** A row's line is the row as built without its trailing spaces. */
  lemma LineMeans(m: Metrics, v: Vocab, e: Element, bounded: bool, tableW: nat, colW: seq<nat>) returns (n: nat)
    requires Cells(m) && Legal(v) && e.Row? && (!bounded ==> |e.cells| <= |colW| && Total(colW) <= tableW)
    ensures var line := RowLine(m, v, e, bounded, tableW, colW);
            && BuildRow(m, v, e, bounded, tableW, colW, |e.cells|).text == line + Repeat(' ', n)
            && (line != "" ==> line[|line| - 1] != ' ')
  {
    hide RowLine, BuildRow;
    RowFits(m, v, e, bounded, tableW, colW);
    n := TrimMeans(BuildRow(m, v, e, bounded, tableW, colW, |e.cells|).text);
  }

  // ---- the cells ------------------------------------------------------------------------------

  /** The width of the first n columns and the separators between them. */
  function WidthTo(colW: seq<nat>, n: nat): nat
    requires n <= |colW|
  {
    Sum(colW[..n]) + if n > 1 then n - 1 else 0
  }

  lemma WidthIsTotal(colW: seq<nat>, n: nat)
    requires n <= |colW|
    ensures Total(colW[..n]) == WidthTo(colW, n)
  {
  }

  /** A row whose columns fit, and every row of an unbounded sheet: each cell in its column, joined by single spaces,
      and nothing cut but trailing spaces. */
  lemma FittingLineMeans(m: Metrics, v: Vocab, e: Element, bounded: bool, tableW: nat, colW: seq<nat>) returns (n: nat)
    requires Cells(m) && Legal(v) && e.Row? && |e.cells| <= |colW|
    requires if bounded then 0 < tableW && WidthTo(colW, |e.cells|) <= tableW else WidthTo(colW, |colW|) <= tableW
    ensures var line := RowLine(m, v, e, bounded, tableW, colW);
            && Joined(FittedCells(m, v, e, colW)) == line + Repeat(' ', n)
            && (line != "" ==> line[|line| - 1] != ' ')
  {
    hide RowLine, BuildRow, Joined;
    WidthIsTotal(colW, |e.cells|);
    WidthIsTotal(colW, |colW|);
    assert colW[..|colW|] == colW;
    FittingRowIsPlain(m, v, e, bounded, tableW, colW, |e.cells|);
    n := LineMeans(m, v, e, bounded, tableW, colW);
    assert FittedCells(m, v, e, colW)[..|e.cells|] == FittedCells(m, v, e, colW);
  }

  /** A row whose columns do not fit a bounded table: the cells before the first column that reaches past the table
      stand whole; that cell is fitted to what its separator leaves; nothing follows. */
  lemma CutRowMeans(m: Metrics, v: Vocab, e: Element, tableW: nat, colW: seq<nat>, n: nat)
    requires e.Row? && n < |e.cells| <= |colW| && WidthTo(colW, n) < tableW < WidthTo(colW, n + 1)
    ensures var (parts, left) := (FittedCells(m, v, e, colW), tableW - WidthTo(colW, n) - if n > 0 then 1 else 0);
            BuildRow(m, v, e, true, tableW, colW, |e.cells|).text ==
            Joined(parts[..n]) + (if n > 0 then " " else "") +
            Fit(m, v, e.cells[n], left, if n < |e.aligns| then e.aligns[n] else Left)
  {
    hide Fit, Joined;
    WidthIsTotal(colW, n);
    WidthIsTotal(colW, n + 1);
    WidthNext(colW, n);
    FittingRowIsPlain(m, v, e, true, tableW, colW, n);
    FullStaysFull(m, v, e, tableW, colW, n + 1, |e.cells|);
  }

  /** A table full to its last cell when a column ends: what follows is dropped, separator and all. */
  lemma FullRowMeans(m: Metrics, v: Vocab, e: Element, tableW: nat, colW: seq<nat>, n: nat)
    requires e.Row? && n <= |e.cells| <= |colW| && WidthTo(colW, n) == tableW
    ensures BuildRow(m, v, e, true, tableW, colW, |e.cells|).text == if tableW == 0 then ""
            else Joined(FittedCells(m, v, e, colW)[..n])
  {
    hide Fit, Joined;
    WidthIsTotal(colW, n);
    if tableW == 0 {
      FullStaysFull(m, v, e, tableW, colW, 0, |e.cells|);
    } else {
      FittingRowIsPlain(m, v, e, true, tableW, colW, n);
      FullStaysFull(m, v, e, tableW, colW, n, |e.cells|);
    }
  }

  lemma WidthNext(colW: seq<nat>, n: nat)
    requires n < |colW|
    ensures WidthTo(colW, n + 1) == WidthTo(colW, n) + colW[n] + if n > 0 then 1 else 0
  {
    assert colW[..n + 1][..n] == colW[..n];
  }

  /** One of the three cases holds of every row of a bounded table. */
  lemma {:induction false} RowCases(colW: seq<nat>, cells: nat, tableW: nat) returns (n: nat)
    requires cells <= |colW|
    ensures n <= cells
    ensures || (n == cells && WidthTo(colW, n) <= tableW)
            || WidthTo(colW, n) == tableW
            || (n < cells && WidthTo(colW, n) < tableW < WidthTo(colW, n + 1))
  {
    n := 0;
    if cells > 0 {
      n := RowCases(colW, cells - 1, tableW);
      if n == cells - 1 && WidthTo(colW, n) < tableW {
        if WidthTo(colW, cells) <= tableW {
          n := cells;
        }
      }
    }
  }

  // ---- the line in the sheet ------------------------------------------------------------------

  /** The line of a row or a span is the row or the fitted text itself, behind a left-to-right mark exactly if an
      isolate begins in it. */
  lemma SheetLineMeans(m: Metrics, v: Vocab, s: Sheet, j: nat)
    requires j < |s.elems| && (s.elems[j].Row? || s.elems[j].Span?)
    ensures var (e, tableW) := (s.elems[j], TableWidth(m, v, s));
            var bounded := s.fixedWidth > 0 || s.maxWidth > 0;
            var line := if e.Row? then RowLine(m, v, e, bounded, tableW, ColumnWidths(m, v, s))
                        else Fit(m, v, e.text, tableW, e.align);
            LineOf(m, v, s, e) == (if '\U{2068}' in line then ['\U{200E}'] else []) + line
  {
    hide RowLine, Fit, TableWidth, ColumnWidths;
  }
}
