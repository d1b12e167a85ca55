/**
  What truncation and cell fitting promise: the exact condition under which a truncated text fits, with
  its colour closed and its isolates balanced, and that a fitted cell always has exactly its width.
*/
module ConsoleFit {
  import opened Basics
  import opened ColorMarkup
  import opened ColorSeams
  import opened ConsoleText

  // ---- plain text around markup ---------------------------------------------------------------

  function Chars(t: string): seq<Piece> { seq(|t|, i requires 0 <= i < |t| => Chr(t[i])) }

  predicate Braceless(t: string) { '{' !in t && '}' !in t }

  lemma {:induction false} LexPrefix(v: Vocab, a: string, t: string)
    requires '{' !in a
    ensures Lex(v, a + t) == Chars(a) + Lex(v, t)
  {
    hide Lex;
    if a == [] {
      assert a + t == t && [] + Lex(v, t) == Lex(v, t);
    } else {
      LexPrefix(v, a[1..], t);
      LexChar(v, a + t);
      assert (a + t)[1..] == a[1..] + t && (a + t)[0] == a[0];
      assert Chars(a) == [Chr(a[0])] + Chars(a[1..]);
      assert [Chr(a[0])] + Chars(a[1..]) + Lex(v, t) == [Chr(a[0])] + (Chars(a[1..]) + Lex(v, t));
    }
  }

  lemma LexChar(v: Vocab, s: string)
    requires s != [] && s[0] != '{'
    ensures Lex(v, s) == [Chr(s[0])] + Lex(v, s[1..])
  {
    hide Lex;
    LexUnfolds(v, s);
  }

  lemma LexPlain(v: Vocab, a: string)
    requires '{' !in a
    ensures Lex(v, a) == Chars(a)
  {
    LexPrefix(v, a, []);
    assert a + [] == a && Chars(a) + [] == Chars(a);
  }

  lemma LexSuffix(v: Vocab, s: string, b: string)
    requires Braceless(b)
    ensures Lex(v, s + b) == Lex(v, s) + Chars(b)
  {
    var ps := Lex(v, s);
    NoCloserIsInert(v, b);
    assert ps[..|ps|] == ps;
    LexIsText(v, s);
    Relex(v, s, |ps|, b);
    LexPlain(v, b);
  }

  lemma {:induction false} CharsWidth(m: Metrics, t: string)
    ensures Width(m, Chars(t)) == TextWidth(m, t)
  {
    if t != [] {
      CharsWidth(m, t[1..]);
      assert Chars(t)[1..] == Chars(t[1..]);
    }
  }

  lemma {:induction false} RepeatWidth(m: Metrics, c: char, n: nat)
    ensures TextWidth(m, Repeat(c, n)) == n * m.width(c)
  {
    if n > 0 {
      RepeatWidth(m, c, n - 1);
      assert Repeat(c, n)[1..] == Repeat(c, n - 1);
    }
  }

  /** Plain text before and after markup adds exactly its own width. */
  lemma WrapWidth(m: Metrics, v: Vocab, a: string, s: string, b: string)
    requires Braceless(a) && Braceless(b)
    ensures VisibleWidth(m, v, a + s + b) == TextWidth(m, a) + VisibleWidth(m, v, s) + TextWidth(m, b)
  {
    Assoc(a, s, b);
    LexPrefix(v, a, s + b);
    LexSuffix(v, s, b);
    WidthSplit(m, Chars(a), Lex(v, s) + Chars(b));
    WidthSplit(m, Lex(v, s), Chars(b));
    CharsWidth(m, a);
    CharsWidth(m, b);
  }

  // ---- what a cut appends ---------------------------------------------------------------------

  lemma ResetToken(v: Vocab, x: string)
    requires Legal(v)
    ensures Lex(v, RESET_TOKEN + x) == [Tok(RESET_TOKEN, "0")] + Lex(v, x)
  {
    var s := RESET_TOKEN + x;
    ResetCloses(x);
    assert s[2..] == "RESET}}" + x;
    assert s[2..7] == "RESET";
    ResetName(v);
    assert TokenAt(v, s) == Some((9, "0"));
    LexUnfolds(v, s);
    assert s[..9] == RESET_TOKEN && s[9..] == x;
  }

  lemma ResetCloses(x: string)
    ensures CloseAt("RESET}}" + x, WINDOW) == 5
  {
    var t := "RESET}}" + x;
    assert t[1..] == "ESET}}" + x;
    assert t[1..][1..] == "SET}}" + x;
    assert ("SET}}" + x)[1..] == "ET}}" + x;
    assert ("ET}}" + x)[1..] == "T}}" + x;
    assert ("T}}" + x)[1..] == "}}" + x;
    assert CloseAt("}}" + x, WINDOW - 5) == 0;
    assert CloseAt("T}}" + x, WINDOW - 4) == 1;
    assert CloseAt("ET}}" + x, WINDOW - 3) == 2;
    assert CloseAt("SET}}" + x, WINDOW - 2) == 3;
    assert CloseAt("ESET}}" + x, WINDOW - 1) == 4;
  }

  lemma ResetName(v: Vocab)
    requires Legal(v)
    ensures SgrParam(v, "RESET") == Some("0")
  {
    assert TrimLeft("RESET") == "RESET" && TrimEnd("RESET", IsSpace) == "RESET";
    assert UpperAll("RESET") == "RESET";
  }

  /** The pieces a cut adds after the kept ones. */
  function TailPieces(colour: bool, depth: nat): seq<Piece> {
    (if colour then [Tok(RESET_TOKEN, "0")] else []) + Chars([ELLIPSIS] + Repeat(PDI, depth))
  }

  lemma TailLex(v: Vocab, colour: bool, depth: nat)
    requires Legal(v)
    ensures Lex(v, Tail(colour, depth)) == TailPieces(colour, depth)
    ensures Inert(v, Tail(colour, depth))
  {
    var dots := [ELLIPSIS] + Repeat(PDI, depth);
    LexPlain(v, dots);
    if colour {
      ResetToken(v, dots);
      assert Tail(colour, depth) == RESET_TOKEN + dots;
      BraceIsInert(v, Tail(colour, depth));
    } else {
      assert Tail(colour, depth) == dots && [] + Chars(dots) == Chars(dots);
      NoCloserIsInert(v, dots);
    }
  }

  lemma TailWidth(m: Metrics, colour: bool, depth: nat)
    requires Cells(m)
    ensures Width(m, TailPieces(colour, depth)) == 1
  {
    var dots := [ELLIPSIS] + Repeat(PDI, depth);
    WidthSplit(m, if colour then [Tok(RESET_TOKEN, "0")] else [], Chars(dots));
    CharsWidth(m, dots);
    TextWidthSplit(m, [ELLIPSIS], Repeat(PDI, depth));
    RepeatWidth(m, PDI, depth);
    assert [ELLIPSIS][1..] == [] && TextWidth(m, [ELLIPSIS]) == 1;
    assert [Tok(RESET_TOKEN, "0")][1..] == [];
  }

  lemma {:induction false} PlainKeepsColour(ps: seq<Piece>, t: string)
    ensures ColourOpen(ps + Chars(t)) == ColourOpen(ps)
  {
    if t == [] {
      assert ps + Chars(t) == ps;
    } else {
      var n := |t| - 1;
      PlainKeepsColour(ps, t[..n]);
      assert (ps + Chars(t))[..|ps| + n] == ps + Chars(t[..n]);
    }
  }

  lemma {:induction false} PdisClose(ps: seq<Piece>, n: nat)
    requires n <= Isolates(ps)
    ensures Isolates(ps + Chars(Repeat(PDI, n))) == Isolates(ps) - n
  {
    if n == 0 {
      assert ps + Chars(Repeat(PDI, 0)) == ps;
    } else {
      PdisClose(ps, n - 1);
      var all := ps + Chars(Repeat(PDI, n));
      assert all[..|all| - 1] == ps + Chars(Repeat(PDI, n - 1));
      assert all[|all| - 1] == Chr(PDI);
    }
  }

  /** After the closing text no colour is on and no isolate is open. */
  lemma TailCloses(ps: seq<Piece>)
    ensures !ColourOpen(ps + TailPieces(ColourOpen(ps), Isolates(ps)))
    ensures Isolates(ps + TailPieces(ColourOpen(ps), Isolates(ps))) == 0
  {
    var (c, d) := (ColourOpen(ps), Isolates(ps));
    var reset := if c then [Tok(RESET_TOKEN, "0")] else [];
    var dots := [ELLIPSIS] + Repeat(PDI, d);
    assert ps + TailPieces(c, d) == ps + reset + Chars(dots);
    ResetClosesColour(ps);
    PlainKeepsColour(ps + reset, dots);
    var upto := ps + reset + Chars([ELLIPSIS]);
    assert upto == ps + reset + [Chr(ELLIPSIS)];
    assert upto[..|upto| - 1] == ps + reset && upto[|upto| - 1] == Chr(ELLIPSIS);
    assert ps + reset + Chars(dots) == upto + Chars(Repeat(PDI, d));
    PdisClose(upto, d);
  }

  lemma ResetClosesColour(ps: seq<Piece>)
    ensures var reset := if ColourOpen(ps) then [Tok(RESET_TOKEN, "0")] else [];
            !ColourOpen(ps + reset) && Isolates(ps + reset) == Isolates(ps)
  {
    if ColourOpen(ps) {
      var all := ps + [Tok(RESET_TOKEN, "0")];
      assert all[..|all| - 1] == ps && all[|all| - 1] == Tok(RESET_TOKEN, "0");
    } else {
      assert ps + [] == ps;
    }
  }

  // ---- truncation -----------------------------------------------------------------------------

  /** The pieces truncation keeps, and whether it cuts at all. */
  function Kept(m: Metrics, v: Vocab, s: string, cells: int): (r: seq<Piece>)
    requires cells > 0
    ensures |r| == Keep(m, Lex(v, s), cells - 1) <= |Lex(v, s)| && r == Lex(v, s)[..|r|]
  {
    KeepBounds(m, Lex(v, s), cells - 1);
    Lex(v, s)[..Keep(m, Lex(v, s), cells - 1)]
  }

  predicate Cuts(m: Metrics, v: Vocab, s: string, cells: int) {
    cells > 0 && |Kept(m, v, s, cells)| < |Lex(v, s)|
  }

  /** The one shape truncation gets wrong: it cuts while a colour is on, right after a lone "{".  The
      appended reset then starts one brace too early and becomes literal text. */
  predicate LoneBraceCut(m: Metrics, v: Vocab, s: string, cells: int) {
    && Cuts(m, v, s, cells)
    && var kept := Kept(m, v, s, cells);
       kept != [] && ColourOpen(kept) && kept[|kept| - 1] == Chr('{')
  }

  lemma CutLex(m: Metrics, v: Vocab, s: string, cells: int)
    requires Legal(v) && Cuts(m, v, s, cells) && !LoneBraceCut(m, v, s, cells)
    ensures var kept := Kept(m, v, s, cells);
            Lex(v, Truncate(m, v, s, cells)) == kept + TailPieces(ColourOpen(kept), Isolates(kept))
  {
    hide Lex, Text, Inert, ColourOpen, Isolates, TailPieces;
    var kept := Kept(m, v, s, cells);
    var (c, d) := (ColourOpen(kept), Isolates(kept));
    TailLex(v, c, d);
    assert !c ==> Tail(c, d)[0] == ELLIPSIS;
    Relex(v, s, |kept|, Tail(c, d));
  }

  /** A cut that is not at a lone brace fits, closes its colour and balances its isolates; a text that
      is not cut is returned as it was. */
  lemma TruncateFits(m: Metrics, v: Vocab, s: string, cells: int)
    requires Cells(m) && Legal(v) && cells > 0 && !LoneBraceCut(m, v, s, cells)
    ensures var out := Truncate(m, v, s, cells);
            && VisibleWidth(m, v, out) <= cells
            && (Cuts(m, v, s, cells) ==> !ColourOpen(Lex(v, out)) && Isolates(Lex(v, out)) == 0)
            && (!Cuts(m, v, s, cells) ==> out == s)
  {
    hide Lex, ColourOpen, Isolates, Truncate, TailPieces, Width, Keep;
    var ps := Lex(v, s);
    var kept := Kept(m, v, s, cells);
    KeepBounds(m, ps, cells - 1);
    if Cuts(m, v, s, cells) {
      CutLex(m, v, s, cells);
      var tail := TailPieces(ColourOpen(kept), Isolates(kept));
      WidthSplit(m, kept, tail);
      TailWidth(m, ColourOpen(kept), Isolates(kept));
      TailCloses(kept);
    } else {
      assert kept == ps;
      NotCut(m, v, s, cells);
    }
  }

  /** What a clean cut shows: a prefix of what the text shows, then the ellipsis and the isolate closers,
      and no more than one cell short of the limit. */
  lemma CutShowsPrefix(m: Metrics, v: Vocab, s: string, cells: int)
    requires Cells(m) && Legal(v) && Cuts(m, v, s, cells) && !LoneBraceCut(m, v, s, cells)
    ensures var (kept, out) := (Kept(m, v, s, cells), Truncate(m, v, s, cells));
            && Plain(kept) <= Strip(v, s)
            && Strip(v, out) == Plain(kept) + ([ELLIPSIS] + Repeat(PDI, Isolates(kept)))
            && cells - 1 <= VisibleWidth(m, v, out) <= cells
  {
    hide Lex, ColourOpen, Isolates, Truncate, TailPieces, Width, Keep, Plain;
    var (ps, kept) := (Lex(v, s), Kept(m, v, s, cells));
    var (c, d) := (ColourOpen(kept), Isolates(kept));
    CutLex(m, v, s, cells);
    KeepBounds(m, ps, cells - 1);
    assert PieceWidth(m, ps[|kept|]) <= 2;
    WidthSplit(m, kept, TailPieces(c, d));
    TailWidth(m, c, d);
    assert ps == kept + ps[|kept|..];
    PlainSplit(kept, ps[|kept|..]);
    PlainSplit(kept, TailPieces(c, d));
    TailShown(c, d);
  }

  lemma {:induction false} PlainSplit(ps: seq<Piece>, qs: seq<Piece>)
    ensures Plain(ps + qs) == Plain(ps) + Plain(qs)
  {
    if ps == [] {
      assert ps + qs == qs;
    } else {
      assert (ps + qs)[1..] == ps[1..] + qs;
      PlainSplit(ps[1..], qs);
    }
  }

  lemma {:induction false} CharsShown(t: string)
    ensures Plain(Chars(t)) == t
  {
    if t != [] {
      CharsShown(t[1..]);
      assert Chars(t)[1..] == Chars(t[1..]);
    }
  }

  lemma TailShown(colour: bool, depth: nat)
    ensures Plain(TailPieces(colour, depth)) == [ELLIPSIS] + Repeat(PDI, depth)
  {
    var dots := [ELLIPSIS] + Repeat(PDI, depth);
    var reset := if colour then [Tok(RESET_TOKEN, "0")] else [];
    PlainSplit(reset, Chars(dots));
    assert Plain(reset) == "" by {
      assert colour ==> reset[1..] == [];
    }
    CharsShown(dots);
  }

  lemma NotCut(m: Metrics, v: Vocab, s: string, cells: int)
    requires cells > 0 && !Cuts(m, v, s, cells)
    ensures Truncate(m, v, s, cells) == s
  {
    KeepBounds(m, Lex(v, s), cells - 1);
  }

  /** What the misplaced reset reads as: a literal "{{", a brace, and plain text. */
  function SpoiltPieces(depth: nat): seq<Piece> {
    [Pair, Chr('{')] + Chars(SpoiltText(depth))
  }

  function SpoiltText(depth: nat): string { "RESET}}" + [ELLIPSIS] + Repeat(PDI, depth) }

  lemma SpoiltLex(v: Vocab, depth: nat)
    requires Legal(v)
    ensures Lex(v, ['{'] + Tail(true, depth)) == SpoiltPieces(depth)
    ensures Inert(v, ['{'] + Tail(true, depth))
  {
    hide Lex, Legal, TokenAt, CloseAt;
    var rest := SpoiltText(depth);
    var x := ['{'] + rest;
    var s := ['{'] + Tail(true, depth);
    SpoiltShape(depth);
    BraceIsInert(v, s);
    BraceIsInert(v, x);
    PairBeforeBrace(v, x);
    LexUnfolds(v, s);
    LexUnfolds(v, x);
    LexPlain(v, rest);
    assert [Pair] + ([Chr('{')] + Chars(rest)) == SpoiltPieces(depth);
  }

  lemma SpoiltShape(depth: nat)
    ensures var (s, rest) := (['{'] + Tail(true, depth), SpoiltText(depth));
            && s == "{{" + (['{'] + rest) && s[2..] == ['{'] + rest && (['{'] + rest)[1..] == rest
            && '{' !in rest && rest[0] == 'R' && Opens(s) && !Opens(['{'] + rest)
  {
    var (s, rest) := (['{'] + Tail(true, depth), SpoiltText(depth));
    var dots := [ELLIPSIS] + Repeat(PDI, depth);
    assert Tail(true, depth) == RESET_TOKEN + dots && rest == "RESET}}" + dots;
    assert s == "{{" + (['{'] + rest);
    assert s[2..] == ['{'] + rest && (['{'] + rest)[1..] == rest;
  }

  lemma PairBeforeBrace(v: Vocab, x: string)
    requires Inert(v, x)
    ensures TokenAt(v, "{{" + x).None?
  {
    assert CloseAt([], WINDOW) < 0;
    assert "{{" + [] + x == "{{" + x;
  }

  lemma SpoiltWidth(m: Metrics, depth: nat)
    requires Cells(m)
    ensures Width(m, SpoiltPieces(depth)) >= 4
  {
    WidthSplit(m, [Pair, Chr('{')], Chars(SpoiltText(depth)));
    assert [Pair, Chr('{')][1..] == [Chr('{')] && [Chr('{')][1..] == [];
    assert Width(m, [Pair, Chr('{')]) == 3;
    CharsWidth(m, SpoiltText(depth));
    TextWidthSplit(m, "RESET}}" + [ELLIPSIS], Repeat(PDI, depth));
    TextWidthSplit(m, "RESET}}", [ELLIPSIS]);
    assert [ELLIPSIS][1..] == [] && TextWidth(m, [ELLIPSIS]) == 1;
  }

  /** The pieces kept before the lone brace do not end in another one. */
  lemma {:induction false} NoDoubleBrace(v: Vocab, s: string, i: nat)
    requires i + 1 < |Lex(v, s)| && Lex(v, s)[i] == Chr('{')
    ensures Lex(v, s)[i + 1] != Chr('{')
    decreases |s|
  {
    FirstPiece(v, s);
    var p := Lex(v, s)[0];
    var s' := s[|TextOf(p)|..];
    if i == 0 {
      FirstPiece(v, s');
      assert s'[0] == s[1];
    } else {
      NoDoubleBrace(v, s', i - 1);
    }
  }

  lemma SpoiltCutLex(m: Metrics, v: Vocab, s: string, cells: int)
    requires Legal(v) && LoneBraceCut(m, v, s, cells)
    ensures var kept := Kept(m, v, s, cells);
            Lex(v, Truncate(m, v, s, cells)) == kept[..|kept| - 1] + SpoiltPieces(Isolates(kept))
  {
    hide Lex, Inert, Isolates, SpoiltPieces, ColourOpen;
    var ps := Lex(v, s);
    var kept := Kept(m, v, s, cells);
    var k := |kept| - 1;
    var suf := ['{'] + Tail(true, Isolates(kept));
    SpoiltLex(v, Isolates(kept));
    assert kept == ps[..k] + [Chr('{')] && kept[..k] == ps[..k];
    TextSplit(ps[..k], [Chr('{')]);
    assert [Chr('{')][1..] == [] && Text([Chr('{')]) == ['{'];
    Assoc(Text(ps[..k]), ['{'], Tail(true, Isolates(kept)));
    if k > 0 && ps[k - 1] == Chr('{') {
      NoDoubleBrace(v, s, k - 1);
    }
    Relex(v, s, k, suf);
  }

  lemma LastIsPlain(ps: seq<Piece>)
    requires ps != [] && ps[|ps| - 1] == Chr('{')
    ensures ColourOpen(ps[..|ps| - 1]) == ColourOpen(ps)
  {
  }

  /** At a lone brace truncation really fails: the result is too wide and its colour stays on. */
  lemma LoneBraceCutFails(m: Metrics, v: Vocab, s: string, cells: int)
    requires Cells(m) && Legal(v) && LoneBraceCut(m, v, s, cells)
    ensures VisibleWidth(m, v, Truncate(m, v, s, cells)) > cells
    ensures ColourOpen(Lex(v, Truncate(m, v, s, cells)))
    ensures cells - 2 <= Width(m, Kept(m, v, s, cells)) <= cells - 1
  {
    hide Lex, ColourOpen, Isolates, Truncate, SpoiltPieces, Width, Keep;
    var ps := Lex(v, s);
    var kept := Kept(m, v, s, cells);
    var init := kept[..|kept| - 1];
    KeepBounds(m, ps, cells - 1);
    assert PieceWidth(m, ps[|kept|]) <= 2;
    assert kept == init + [Chr('{')];
    WidthOne(m, init, Chr('{'));
    SpoiltCutLex(m, v, s, cells);
    var (d, spoilt) := (Isolates(kept), SpoiltPieces(Isolates(kept)));
    WidthSplit(m, init, spoilt);
    SpoiltWidth(m, d);
    LastIsPlain(kept);
    SpoiltColour(init, d);
  }

  lemma SpoiltColour(init: seq<Piece>, d: nat)
    ensures ColourOpen(init + SpoiltPieces(d)) == ColourOpen(init)
  {
    var a := init + [Pair];
    var b := a + [Chr('{')];
    assert a[..|a| - 1] == init && b[..|b| - 1] == a;
    assert init + SpoiltPieces(d) == b + Chars(SpoiltText(d));
    PlainKeepsColour(b, SpoiltText(d));
  }

  /** Exactly when a truncated text fits its cells. */
  lemma TruncateFitsIff(m: Metrics, v: Vocab, s: string, cells: int)
    requires Cells(m) && Legal(v) && cells > 0
    ensures VisibleWidth(m, v, Truncate(m, v, s, cells)) <= cells <==> !LoneBraceCut(m, v, s, cells)
  {
    if LoneBraceCut(m, v, s, cells) {
      LoneBraceCutFails(m, v, s, cells);
    } else {
      TruncateFits(m, v, s, cells);
    }
  }
}
