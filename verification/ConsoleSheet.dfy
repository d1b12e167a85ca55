/**
  Rows and spans of a sheet.  Joining cells with a space can only lose width (a literal "{{" in one cell
  may be closed into a token by the next), so a row never exceeds the table, whether or not the sheet is
  bounded, and the closing truncation of a bounded row is never taken.
*/
module ConsoleSheet {
  import opened Basics
  import opened ColorMarkup
  import opened ColorSeams
  import opened ConsoleText
  import opened ConsoleFit
  import opened ConsoleCell

  datatype Element =
    | Row(cells: seq<string>, aligns: seq<Align>)
    | Span(text: string, align: Align)
    | Divider(fill: string)
    | Banner(text: string, fill: string)

  datatype Sheet = Sheet(fixedWidth: int, maxWidth: int, elems: seq<Element>)

  predicate Fixed(s: Sheet) { s.fixedWidth > 0 }

  predicate Bounded(s: Sheet) { s.fixedWidth > 0 || s.maxWidth > 0 }

  function Max(a: int, b: int): int { if a < b then b else a }

  function Cap(s: Sheet, w: nat): nat { if s.maxWidth > 0 && w > s.maxWidth then s.maxWidth else w }

  // ---- column widths --------------------------------------------------------------------------

  function Columns(elems: seq<Element>): nat {
    if elems == [] then 0
    else
      var (rest, e) := (Columns(elems[..|elems| - 1]), elems[|elems| - 1]);
      if e.Row? then Max(rest, |e.cells|) else rest
  }

  function ColumnWidth(m: Metrics, v: Vocab, s: Sheet, elems: seq<Element>, i: nat): nat {
    if elems == [] then 0
    else
      var (rest, e) := (ColumnWidth(m, v, s, elems[..|elems| - 1], i), elems[|elems| - 1]);
      if e.Row? && i < |e.cells| then Max(rest, Cap(s, VisibleWidth(m, v, e.cells[i]))) else rest
  }

  function ColumnWidths(m: Metrics, v: Vocab, s: Sheet): seq<nat> {
    seq(Columns(s.elems), i requires 0 <= i => ColumnWidth(m, v, s, s.elems, i))
  }

  predicate HasCell(e: Element, i: nat) { e.Row? && i < |e.cells| }

  /** A column is as wide as its widest cell, up to the ceiling: no narrower than any cell, unless it is as wide as
      the ceiling, and as wide as some cell, unless that cell is wider than the ceiling. */
  lemma {:induction false} ColumnCovers(m: Metrics, v: Vocab, s: Sheet, elems: seq<Element>, i: nat, j: nat)
    requires j < |elems| && HasCell(elems[j], i)
    ensures i < Columns(elems)
    ensures var w := ColumnWidth(m, v, s, elems, i);
            && (w >= VisibleWidth(m, v, elems[j].cells[i]) || w == s.maxWidth > 0)
            && (s.maxWidth > 0 ==> w <= s.maxWidth)
  {
    hide VisibleWidth;
    ColumnCapped(m, v, s, elems, i);
    ColumnCapped(m, v, s, elems[..|elems| - 1], i);
    if j < |elems| - 1 {
      ColumnCovers(m, v, s, elems[..|elems| - 1], i, j);
    }
  }

  lemma {:induction false} ColumnAttained(m: Metrics, v: Vocab, s: Sheet, elems: seq<Element>, i: nat) returns (j: nat)
    requires i < Columns(elems)
    ensures j < |elems| && HasCell(elems[j], i)
    ensures var (w, cell) := (ColumnWidth(m, v, s, elems, i), VisibleWidth(m, v, elems[j].cells[i]));
            w == cell || (w == s.maxWidth > 0 && cell > w)
  {
    hide VisibleWidth;
    j := |elems| - 1;
    var (init, e) := (elems[..j], elems[j]);
    if i >= Columns(init) {
      ColumnAbsent(m, v, s, init, i);
    } else if !HasCell(e, i) || Cap(s, VisibleWidth(m, v, e.cells[i])) < ColumnWidth(m, v, s, init, i) {
      j := ColumnAttained(m, v, s, init, i);
    }
  }

  lemma {:induction false} ColumnAbsent(m: Metrics, v: Vocab, s: Sheet, elems: seq<Element>, i: nat)
    requires i >= Columns(elems)
    ensures ColumnWidth(m, v, s, elems, i) == 0
  {
    if elems != [] {
      ColumnAbsent(m, v, s, elems[..|elems| - 1], i);
    }
  }

  lemma {:induction false} ColumnCapped(m: Metrics, v: Vocab, s: Sheet, elems: seq<Element>, i: nat)
    ensures s.maxWidth > 0 ==> ColumnWidth(m, v, s, elems, i) <= s.maxWidth
  {
    hide VisibleWidth;
    if elems != [] {
      ColumnCapped(m, v, s, elems[..|elems| - 1], i);
    }
  }

  /** The widths of the columns that exist so far. */
  predicate AreWidths(m: Metrics, v: Vocab, s: Sheet, elems: seq<Element>, colW: seq<nat>, from: nat, to: nat) {
    to <= |colW| && forall k | from <= k < to :: colW[k] == ColumnWidth(m, v, s, elems, k)
  }

  lemma WidenColumn(m: Metrics, v: Vocab, s: Sheet, elems: seq<Element>, e: Element, i: nat)
    ensures e.Row? && i < |e.cells| ==>
              ColumnWidth(m, v, s, elems + [e], i) ==
              Cap(s, Max(ColumnWidth(m, v, s, elems, i), VisibleWidth(m, v, e.cells[i])))
    ensures !(e.Row? && i < |e.cells|) ==> ColumnWidth(m, v, s, elems + [e], i) == ColumnWidth(m, v, s, elems, i)
    ensures i >= Columns(elems) ==> ColumnWidth(m, v, s, elems, i) == 0
  {
    hide VisibleWidth;
    assert (elems + [e])[..|elems|] == elems;
    ColumnCapped(m, v, s, elems, i);
    if i >= Columns(elems) {
      ColumnAbsent(m, v, s, elems, i);
    }
  }

  /** The inner loop: one row widens the columns it has cells in, adding the ones that are new. */
  method MeasureRow(m: Metrics, v: Vocab, s: Sheet, ghost elems: seq<Element>, e: Element, before: seq<nat>)
    returns (colW: seq<nat>)
    requires e.Row? && |before| == Columns(elems) && AreWidths(m, v, s, elems, before, 0, |before|)
    ensures |colW| == Max(Columns(elems), |e.cells|) && AreWidths(m, v, s, elems + [e], colW, 0, |colW|)
  {
    hide VisibleWidth, ColumnWidth, Columns;
    colW := before;
    for i := 0 to |e.cells|
      invariant |colW| == Max(Columns(elems), i)
      invariant AreWidths(m, v, s, elems + [e], colW, 0, i)
      invariant AreWidths(m, v, s, elems, colW, i, |colW|)
    {
      WidenColumn(m, v, s, elems, e, i);
      while |colW| <= i
        invariant |colW| == Max(Columns(elems), i) || (|colW| == i + 1 && i >= Columns(elems))
        invariant AreWidths(m, v, s, elems + [e], colW, 0, i)
        invariant AreWidths(m, v, s, elems, colW, i, |colW|)
      {
        colW := colW + [0];
      }
      var cell := MeasureVisible(m, v, e.cells[i]);
      var w := Max(colW[i], cell);
      if s.maxWidth > 0 && w > s.maxWidth {
        w := s.maxWidth;
      }
      colW := colW[i := w];
    }
    forall k | |e.cells| <= k < |colW| ensures colW[k] == ColumnWidth(m, v, s, elems + [e], k) {
      WidenColumn(m, v, s, elems, e, k);
    }
  }

  method MeasureColumns(m: Metrics, v: Vocab, s: Sheet) returns (colW: seq<nat>)
    ensures colW == ColumnWidths(m, v, s)
  {
    colW := [];
    for n := 0 to |s.elems|
      invariant |colW| == Columns(s.elems[..n])
      invariant AreWidths(m, v, s, s.elems[..n], colW, 0, |colW|)
    {
      var e := s.elems[n];
      assert s.elems[..n + 1] == s.elems[..n] + [e];
      if e.Row? {
        colW := MeasureRow(m, v, s, s.elems[..n], e, colW);
      }
    }
    assert s.elems[..|s.elems|] == s.elems;
  }

  // ---- the table width ------------------------------------------------------------------------

  function Total(colW: seq<nat>): nat { Sum(colW) + if |colW| > 1 then |colW| - 1 else 0 }

  /** What an automatic sheet grows to: the columns, every span, and every banner with its fill. */
  function Grown(m: Metrics, v: Vocab, elems: seq<Element>, content: nat): nat {
    if elems == [] then content
    else
      var rest := Grown(m, v, elems[..|elems| - 1], content);
      match elems[|elems| - 1]
      case Span(text, _) => Max(rest, VisibleWidth(m, v, text))
      case Banner(text, _) => Max(rest, VisibleWidth(m, v, text) + 4)
      case _ => rest
  }

  function TableWidth(m: Metrics, v: Vocab, s: Sheet): nat {
    Cap(s, if Fixed(s) then s.fixedWidth else Grown(m, v, s.elems, Total(ColumnWidths(m, v, s))))
  }

  /** A width that holds the columns, every span and every banner with its fill. */
  ghost predicate Holds(m: Metrics, v: Vocab, elems: seq<Element>, content: nat, w: nat) {
    && content <= w
    && (forall j | 0 <= j < |elems| && elems[j].Span? :: VisibleWidth(m, v, elems[j].text) <= w)
    && (forall j | 0 <= j < |elems| && elems[j].Banner? :: VisibleWidth(m, v, elems[j].text) + 4 <= w)
  }

  lemma {:induction false} GrownIsLeast(m: Metrics, v: Vocab, elems: seq<Element>, content: nat, w: nat)
    ensures Holds(m, v, elems, content, Grown(m, v, elems, content))
    ensures Holds(m, v, elems, content, w) ==> Grown(m, v, elems, content) <= w
  {
    hide VisibleWidth;
    if elems != [] {
      var (init, n) := (elems[..|elems| - 1], |elems| - 1);
      GrownIsLeast(m, v, init, content, w);
      assert forall j | 0 <= j < n :: init[j] == elems[j];
    }
  }

  /** The table is as wide as asked if fixed, and otherwise the least width that holds everything; the
      ceiling, if there is one, cuts either down. */
  lemma TableWidthIs(m: Metrics, v: Vocab, s: Sheet, w: nat)
    ensures s.maxWidth > 0 ==> TableWidth(m, v, s) <= s.maxWidth
    ensures s.fixedWidth > 0 ==>
              TableWidth(m, v, s) == s.fixedWidth || TableWidth(m, v, s) == s.maxWidth < s.fixedWidth
    ensures s.fixedWidth <= 0 ==>
              var (colW, tableW) := (ColumnWidths(m, v, s), TableWidth(m, v, s));
              var content := Sum(colW) + if |colW| > 1 then |colW| - 1 else 0;
              && (Holds(m, v, s.elems, content, tableW) || tableW == s.maxWidth > 0)
              && (Holds(m, v, s.elems, content, w) ==> tableW <= w)
  {
    hide VisibleWidth, Grown, ColumnWidths, Holds;
    GrownIsLeast(m, v, s.elems, Total(ColumnWidths(m, v, s)), w);
  }

  // ---- joining cells --------------------------------------------------------------------------

  /** Text glued after a space can close a literal "{{" into a token, never widen anything. */
  lemma {:induction false} JoinNeverWidens(m: Metrics, v: Vocab, a: string, x: string)
    requires Legal(v) && (x == [] || (x[0] != '{' && x[0] != '}'))
    ensures VisibleWidth(m, v, a + x) <= VisibleWidth(m, v, a) + VisibleWidth(m, v, x)
    decreases |a|
  {
    hide Lex, TokenAt, Legal, Width;
    if a == [] {
      assert a + x == x;
    } else {
      FirstPiece(v, a);
      var p := Lex(v, a)[0];
      var n := |TextOf(p)|;
      var rest := a[n..];
      assert a + x == TextOf(p) + (rest + x);
      WidthOfFirst(m, p, Lex(v, rest));
      if p.Pair? && TokenAt(v, a + x).Some? {
        ClosedAcross(m, v, a, x);
      } else {
        JoinNeverWidens(m, v, rest, x);
        SameFirst(v, a, x);
        WidthOfFirst(m, p, Lex(v, rest + x));
      }
    }
  }

  lemma WidthOfFirst(m: Metrics, p: Piece, ps: seq<Piece>)
    ensures Width(m, [p] + ps) == PieceWidth(m, p) + Width(m, ps)
  {
  }

  lemma SameFirst(v: Vocab, a: string, x: string)
    requires a != [] && (x == [] || x[0] != '{')
    requires Lex(v, a)[0].Pair? ==> TokenAt(v, a + x).None?
    ensures var p := Lex(v, a)[0];
            |TextOf(p)| <= |a| && Lex(v, a + x) == [p] + Lex(v, a[|TextOf(p)|..] + x)
  {
    hide Lex, TokenAt, Opens;
    FirstPiece(v, a);
    OpensGlued(a, x);
    var p := Lex(v, a)[0];
    if p.Tok? {
      SameToken(v, a, x, p.text, p.param);
    } else {
      var (n, t) := (|TextOf(p)|, a + x);
      assert t[n..] == a[n..] + x && t[0] == a[0];
      LexUnfolds(v, t);
    }
  }

  lemma OpensGlued(a: string, x: string)
    requires a != [] && (x == [] || x[0] != '{')
    ensures Opens(a + x) <==> Opens(a)
  {
  }

  lemma SameToken(v: Vocab, a: string, x: string, text: string, param: string)
    requires |text| <= |a| && a == text + a[|text|..] && TokenAt(v, a) == Some((|text|, param))
    ensures Lex(v, a + x) == [Tok(text, param)] + Lex(v, a[|text|..] + x)
  {
    hide Lex, TokenAt;
    var (rest, t) := (a[|text|..], a + x);
    Assoc(text, rest, x);
    TokenAgain(v, text, rest, rest + x, param);
    TokenOpens(v, t);
    LexUnfolds(v, t);
    assert t[..|text|] == text && t[|text|..] == rest + x;
  }

  /** When the glued text closes a literal "{{", the token swallows brace-free text and nothing else. */
  lemma ClosedAcross(m: Metrics, v: Vocab, a: string, x: string)
    requires Legal(v) && Opens(a) && TokenAt(v, a).None? && TokenAt(v, a + x).Some?
    requires x == [] || (x[0] != '{' && x[0] != '}')
    ensures VisibleWidth(m, v, a + x) <= VisibleWidth(m, v, x)
  {
    hide Lex, Legal;
    var (n, param) := TokenAt(v, a + x).value;
    var k := n - |a|;
    TokenReaches(v, a, x);
    LexUnfolds(v, a + x);
    assert (a + x)[n..] == x[k..];
    WidthOfFirst(m, Tok((a + x)[..n], param), Lex(v, x[k..]));
    LexPrefix(v, x[..k], x[k..]);
    assert x[..k] + x[k..] == x;
    WidthSplit(m, Chars(x[..k]), Lex(v, x[k..]));
  }

  /** A literal "{{" with a closer in sight stays literal whatever follows. */
  lemma StaysLiteral(v: Vocab, a: string, x: string)
    requires Opens(a) && TokenAt(v, a).None? && CloseAt(a[2..], WINDOW) >= 0
    ensures TokenAt(v, a + x).None?
  {
    hide SgrParam;
    CloseAtPrefix(a[2..], x, WINDOW);
    CloseAtInside(a[2..], WINDOW);
    assert (a + x)[2..] == a[2..] + x;
    var n := CloseAt(a[2..], WINDOW);
    assert (a + x)[2..2 + n] == a[2..2 + n];
  }

  lemma TokenReaches(v: Vocab, a: string, x: string)
    requires Legal(v) && Opens(a) && TokenAt(v, a).None? && TokenAt(v, a + x).Some?
    requires x == [] || x[0] != '}'
    ensures var n := TokenAt(v, a + x).value.0;
            |a| <= n <= |a + x| && '{' !in x[..n - |a|]
  {
    hide Legal, SgrParam, CloseAt;
    var body := a[2..];
    assert (a + x)[2..] == body + x;
    if CloseAt(body, WINDOW) >= 0 {
      StaysLiteral(v, a, x);
    }
    CloseAtBeyond(body, x, WINDOW);
    CloseAtInside(body + x, WINDOW);
    var n := CloseAt(body + x, WINDOW);
    assert (a + x)[2..2 + n] == (body + x)[..n];
    NameIsBraceless(v, body, x, n);
  }

  /** A token name that spans body and the front of x leaves no opening brace in what it takes of x. */
  lemma NameIsBraceless(v: Vocab, body: string, x: string, n: nat)
    requires Legal(v) && |body| <= n && n + 2 <= |body + x| && SgrParam(v, (body + x)[..n]).Some?
    requires (body + x)[n] == '}' && (body + x)[n + 1] == '}'
    ensures '{' !in x[..n + 2 - |body|]
  {
    hide Legal, SgrParam;
    var k := n - |body|;
    if '{' in x[..k + 2] {
      var i :| 0 <= i < k + 2 && x[i] == '{';
      assert x[k] == '}' && x[k + 1] == '}';
      assert (body + x)[..n][|body| + i] == '{';
      BraceIsNoName(v, (body + x)[..n]);
    }
  }

  // ---- rows -----------------------------------------------------------------------------------

  /** The row text built so far and the width accounted for it. */
  datatype Built = Built(text: string, acc: int)

  /** The slot the next cell gets: its column, capped to what is left of a bounded table. */
  function Slot(bounded: bool, tableW: int, colW: seq<nat>, i: nat, acc: int): int {
    var w := if i < |colW| then colW[i] else 0;
    if bounded && acc + w > tableW then tableW - acc else w
  }

  function AlignOf(aligns: seq<Align>, i: nat): Align { if i < |aligns| then aligns[i] else Left }

  function AddCell(
    m: Metrics, v: Vocab, e: Element, bounded: bool, tableW: int, colW: seq<nat>, i: nat, b: Built): Built
    requires e.Row? && i < |e.cells|
  {
    if bounded && b.acc >= tableW then b
    else
      var sep := if i > 0 then " " else "";
      var w := Slot(bounded, tableW, colW, i, b.acc + |sep|);
      Built(b.text + sep + Fit(m, v, e.cells[i], w, AlignOf(e.aligns, i)), b.acc + |sep| + w)
  }

  function BuildRow(m: Metrics, v: Vocab, e: Element, bounded: bool, tableW: int, colW: seq<nat>, n: nat): Built
    requires e.Row? && n <= |e.cells|
  {
    if n == 0 then Built("", 0)
    else AddCell(m, v, e, bounded, tableW, colW, n - 1, BuildRow(m, v, e, bounded, tableW, colW, n - 1))
  }

  predicate IsBlank(c: char) { c == ' ' }

  function RowLine(m: Metrics, v: Vocab, e: Element, bounded: bool, tableW: int, colW: seq<nat>): string
    requires e.Row?
  {
    var line := TrimEnd(BuildRow(m, v, e, bounded, tableW, colW, |e.cells|).text, IsBlank);
    if bounded && VisibleWidth(m, v, line) > tableW then Truncate(m, v, line, tableW) else line
  }

  /** Once the table is full the rest of the row changes nothing, so stopping early is sound. */
  lemma {:induction false} FullStaysFull(m: Metrics, v: Vocab, e: Element, tableW: int, colW: seq<nat>, i: nat, n: nat)
    requires e.Row? && i <= n <= |e.cells| && BuildRow(m, v, e, true, tableW, colW, i).acc >= tableW
    ensures BuildRow(m, v, e, true, tableW, colW, n) == BuildRow(m, v, e, true, tableW, colW, i)
    decreases n - i
  {
    hide Fit;
    if i < n {
      FullStaysFull(m, v, e, tableW, colW, i, n - 1);
    }
  }

  method RenderRow(m: Metrics, v: Vocab, e: Element, bounded: bool, tableW: int, colW: seq<nat>) returns (line: string)
    requires e.Row?
    ensures line == RowLine(m, v, e, bounded, tableW, colW)
  {
    hide Fit, VisibleWidth, Truncate;
    var b, acc, i := "", 0, 0;
    while i < |e.cells|
      invariant 0 <= i <= |e.cells|
      invariant BuildRow(m, v, e, bounded, tableW, colW, i) == Built(b, acc)
    {
      if bounded && acc >= tableW {
        break;
      }
      if i > 0 {
        b := b + " ";
        acc := acc + 1;
      }
      var w := if i < |colW| then colW[i] else 0;
      if bounded && acc + w > tableW {
        w := tableW - acc;
      }
      b := b + Fit(m, v, e.cells[i], w, AlignOf(e.aligns, i));
      acc := acc + w;
      i := i + 1;
    }
    if i < |e.cells| {
      FullStaysFull(m, v, e, tableW, colW, i, |e.cells|);
    }
    line := TrimEnd(b, IsBlank);
    var width := MeasureVisible(m, v, line);
    if bounded && width > tableW {
      line := TruncateVisible(m, v, line, tableW);
    }
  }

  lemma {:induction false} TrimNeverWidens(m: Metrics, v: Vocab, s: string)
    ensures VisibleWidth(m, v, TrimEnd(s, IsBlank)) <= VisibleWidth(m, v, s)
  {
    if s != [] && s[|s| - 1] == ' ' {
      var init := s[..|s| - 1];
      TrimNeverWidens(m, v, init);
      assert s == init + [' '];
      LexSuffix(v, init, [' ']);
      WidthSplit(m, Lex(v, init), Chars([' ']));
    }
  }

  /** The accounting never understates the text, and never passes the table in a bounded sheet. */
  lemma {:induction false} AccountedWidth(
    m: Metrics, v: Vocab, e: Element, bounded: bool, tableW: nat, colW: seq<nat>, n: nat)
    requires Cells(m) && Legal(v) && e.Row? && n <= |e.cells|
    ensures var b := BuildRow(m, v, e, bounded, tableW, colW, n);
            && VisibleWidth(m, v, b.text) <= b.acc
            && (bounded ==> b.acc <= tableW)
            && (!bounded && n <= |colW| ==> b.acc == Total(colW[..n]))
  {
    hide Fit, VisibleWidth, Total;
    if n == 0 {
      EmptyIsNarrow(m, v);
      NoTotal(colW);
    } else {
      var i := n - 1;
      var b := BuildRow(m, v, e, bounded, tableW, colW, i);
      AccountedWidth(m, v, e, bounded, tableW, colW, i);
      if !(bounded && b.acc >= tableW) {
        var sep := if i > 0 then 1 else 0;
        var w := Slot(bounded, tableW, colW, i, b.acc + sep);
        AddedWidth(m, v, b.text, if i > 0 then " " else "", e.cells[i], w, AlignOf(e.aligns, i));
        if n <= |colW| {
          TotalNext(colW, i);
        }
      }
    }
  }

  /** Appending a separator and a fitted cell adds no more than their widths. */
  lemma AddedWidth(m: Metrics, v: Vocab, text: string, sep: string, content: string, w: nat, align: Align)
    requires Cells(m) && Legal(v) && (sep == " " || (sep == "" && text == ""))
    ensures VisibleWidth(m, v, text + sep + Fit(m, v, content, w, align)) <= VisibleWidth(m, v, text) + |sep| + w
  {
    var cell := Fit(m, v, content, w, align);
    FitExact(m, v, content, w, align);
    if sep == " " {
      JoinNeverWidens(m, v, text, " " + cell);
      Assoc(text, " ", cell);
    } else {
      assert text + sep + cell == cell;
    }
  }

  lemma NoTotal(colW: seq<nat>)
    ensures Total(colW[..0]) == 0
  {
  }

  lemma TotalNext(colW: seq<nat>, i: nat)
    requires i < |colW|
    ensures Total(colW[..i + 1]) == Total(colW[..i]) + colW[i] + if i > 0 then 1 else 0
  {
    assert colW[..i + 1][..i] == colW[..i];
  }

  /** Texts joined by single spaces. */
  function Joined(parts: seq<string>): string {
    if parts == [] then ""
    else if |parts| == 1 then parts[0]
    else Joined(parts[..|parts| - 1]) + " " + parts[|parts| - 1]
  }

  function FittedCells(m: Metrics, v: Vocab, e: Element, colW: seq<nat>): seq<string>
    requires e.Row? && |e.cells| <= |colW|
  {
    seq(|e.cells|, i requires 0 <= i < |e.cells| =>
          Fit(m, v, e.cells[i], colW[i], if i < |e.aligns| then e.aligns[i] else Left))
  }

  /** A row that fits the table is laid out as if the sheet were unbounded: every cell in its whole column,
      in order, joined by single spaces. */
  lemma {:induction false} FittingRowIsPlain(
    m: Metrics, v: Vocab, e: Element, bounded: bool, tableW: nat, colW: seq<nat>, n: nat)
    requires e.Row? && n <= |e.cells| <= |colW| && (bounded ==> tableW > 0 && Total(colW[..n]) <= tableW)
    ensures var b := BuildRow(m, v, e, bounded, tableW, colW, n);
            b.text == Joined(FittedCells(m, v, e, colW)[..n]) && b.acc == Total(colW[..n])
  {
    hide Fit, VisibleWidth;
    if n > 0 {
      var i := n - 1;
      TotalNext(colW, i);
      FittingRowIsPlain(m, v, e, bounded, tableW, colW, i);
      var parts := FittedCells(m, v, e, colW);
      assert parts[..n][..i] == parts[..i] && parts[..n][i] == parts[i];
      assert i == 0 ==> "" + "" + parts[0] == parts[0];
    }
  }

  lemma EmptyIsNarrow(m: Metrics, v: Vocab)
    ensures VisibleWidth(m, v, "") == 0
  {
  }

  lemma {:induction false} SumGrows(ws: seq<nat>, n: nat)
    requires n <= |ws|
    ensures Sum(ws[..n]) <= Sum(ws)
    decreases |ws| - n
  {
    if n < |ws| {
      SumGrows(ws, n + 1);
      assert ws[..n + 1][..n] == ws[..n];
    } else {
      assert ws[..n] == ws;
    }
  }

  /** A row fits the table, and a bounded row's closing truncation is never taken. */
  lemma RowFits(m: Metrics, v: Vocab, e: Element, bounded: bool, tableW: nat, colW: seq<nat>)
    requires Cells(m) && Legal(v) && e.Row?
    requires !bounded ==> |e.cells| <= |colW| && Total(colW) <= tableW
    ensures VisibleWidth(m, v, RowLine(m, v, e, bounded, tableW, colW)) <= tableW
    ensures RowLine(m, v, e, bounded, tableW, colW) ==
            TrimEnd(BuildRow(m, v, e, bounded, tableW, colW, |e.cells|).text, IsBlank)
  {
    hide VisibleWidth, Truncate, BuildRow;
    AccountedWidth(m, v, e, bounded, tableW, colW, |e.cells|);
    TrimNeverWidens(m, v, BuildRow(m, v, e, bounded, tableW, colW, |e.cells|).text);
    if !bounded {
      SumGrows(colW, |e.cells|);
    }
  }

  // ---- whole sheets ---------------------------------------------------------------------------

  /** A line holding an isolate gets a leading LRM, which is not visible. */
  function PinBase(line: string): string { if FSI in line then [LRM] + line else line }

  lemma PinIsInvisible(m: Metrics, v: Vocab, line: string)
    requires Cells(m)
    ensures VisibleWidth(m, v, PinBase(line)) == VisibleWidth(m, v, line)
  {
    if FSI in line {
      WrapWidth(m, v, [LRM], line, []);
      assert [LRM] + line + [] == [LRM] + line && [LRM][1..] == [];
    }
  }

  function LineOf(m: Metrics, v: Vocab, s: Sheet, e: Element): string
    requires e.Row? || e.Span?
  {
    var tableW := TableWidth(m, v, s);
    PinBase(if e.Row? then RowLine(m, v, e, Bounded(s), tableW, ColumnWidths(m, v, s))
            else Fit(m, v, e.text, tableW, e.align))
  }

  /** In every sheet, bounded or not, no row exceeds the table and every span is exactly as wide. */
  lemma SheetLinesFit(m: Metrics, v: Vocab, s: Sheet, j: nat)
    requires Cells(m) && Legal(v) && j < |s.elems|
    ensures s.elems[j].Row? ==> VisibleWidth(m, v, LineOf(m, v, s, s.elems[j])) <= TableWidth(m, v, s)
    ensures s.elems[j].Span? ==> VisibleWidth(m, v, LineOf(m, v, s, s.elems[j])) == TableWidth(m, v, s)
  {
    hide VisibleWidth, RowLine, Fit, PinBase, ColumnWidth, Grown;
    var (e, tableW, colW) := (s.elems[j], TableWidth(m, v, s), ColumnWidths(m, v, s));
    if e.Row? {
      if |e.cells| > 0 {
        ColumnCovers(m, v, s, s.elems, |e.cells| - 1, j);
      }
      GrownIsLeast(m, v, s.elems, Total(colW), 0);
      RowFits(m, v, e, Bounded(s), tableW, colW);
      PinIsInvisible(m, v, RowLine(m, v, e, Bounded(s), tableW, colW));
    } else if e.Span? {
      FitExact(m, v, e.text, tableW, e.align);
      PinIsInvisible(m, v, Fit(m, v, e.text, tableW, e.align));
    }
  }

  /** An unbounded sheet never cuts a cell or a span: every slot is wide enough for its content. */
  lemma UnboundedCutsNothing(m: Metrics, v: Vocab, s: Sheet, j: nat, i: nat)
    requires !Bounded(s) && j < |s.elems|
    ensures HasCell(s.elems[j], i) ==>
              && i < |ColumnWidths(m, v, s)|
              && VisibleWidth(m, v, s.elems[j].cells[i]) <= ColumnWidths(m, v, s)[i]
    ensures s.elems[j].Span? ==> VisibleWidth(m, v, s.elems[j].text) <= TableWidth(m, v, s)
  {
    hide VisibleWidth, ColumnWidth, Grown;
    if HasCell(s.elems[j], i) {
      ColumnCovers(m, v, s, s.elems, i, j);
    }
    GrownIsLeast(m, v, s.elems, Total(ColumnWidths(m, v, s)), 0);
  }
}
