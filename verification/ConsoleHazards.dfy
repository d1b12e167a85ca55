/** The one shape truncation gets wrong, at a real input: bold, a lone brace, and a text that must be cut. */
module ConsoleHazards {
  import opened Basics
  import opened ColorMarkup
  import opened ColorVocabulary
  import opened ConsoleText
  import opened ConsoleFit

  const BOLD_TOKEN := "{{BOLD}}"
  const BRACED := "{{BOLD}}{  "

  lemma BoldIsOne()
    ensures SgrParam(SGR_TOKENS, "BOLD") == Some("1")
  {
    BoldInTable();
    assert TrimLeft("BOLD") == "BOLD" && TrimEnd("BOLD", IsSpace) == "BOLD" && UpperAll("BOLD") == "BOLD";
  }

  lemma BoldInTable()
    ensures "BOLD" in SGR_TOKENS && SGR_TOKENS["BOLD"] == "1"
  {
    StyleKept(2, "BOLD");
    LastGroupWins(FOREGROUND + BRIGHT_FOREGROUND + BACKGROUND + BRIGHT_BACKGROUND, STYLES, "BOLD");
  }

  /** A style keeps the code it is given first: the names are distinct. */
  lemma StyleKept(n: nat, name: string)
    requires n <= |STYLES| && name in Table(STYLES[..n]) && forall i | n <= i < |STYLES| :: STYLES[i].0 != name
    ensures name in Table(STYLES) && Table(STYLES)[name] == Table(STYLES[..n])[name]
  {
    EntryKept(STYLES[..n], STYLES[n..], name);
    assert STYLES[..n] + STYLES[n..] == STYLES;
  }

  lemma BoldToken(v: Vocab, x: string)
    requires SgrParam(v, "BOLD") == Some("1")
    ensures Lex(v, BOLD_TOKEN + x) == [Tok(BOLD_TOKEN, "1")] + Lex(v, x)
  {
    var s := BOLD_TOKEN + x;
    BoldCloses(x);
    assert s[2..] == "BOLD}}" + x && s[2..6] == "BOLD";
    assert TokenAt(v, s) == Some((8, "1"));
    LexUnfolds(v, s);
    assert s[..8] == BOLD_TOKEN && s[8..] == x;
  }

  lemma BoldCloses(x: string)
    ensures CloseAt("BOLD}}" + x, WINDOW) == 4
  {
    assert ("BOLD}}" + x)[1..] == "OLD}}" + x;
    assert ("OLD}}" + x)[1..] == "LD}}" + x;
    assert ("LD}}" + x)[1..] == "D}}" + x;
    assert ("D}}" + x)[1..] == "}}" + x;
    assert CloseAt("}}" + x, WINDOW - 4) == 0;
    assert CloseAt("D}}" + x, WINDOW - 3) == 1;
    assert CloseAt("LD}}" + x, WINDOW - 2) == 2;
    assert CloseAt("OLD}}" + x, WINDOW - 1) == 3;
  }

  function BracedPieces(): seq<Piece> { [Tok(BOLD_TOKEN, "1"), Chr('{'), Chr(' '), Chr(' ')] }

  lemma BracedLex(v: Vocab)
    requires SgrParam(v, "BOLD") == Some("1")
    ensures Lex(v, BRACED) == BracedPieces()
  {
    hide Lex, SgrParam;
    assert BRACED == BOLD_TOKEN + "{  ";
    BoldToken(v, "{  ");
    LexUnfolds(v, "{  ");
    assert "{  "[1..] == "  ";
    LexPlain(v, "  ");
    assert Chars("  ") == [Chr(' '), Chr(' ')];
  }

  /** With the shipped table, in two cells: the text is three cells wide and cut after its brace while bold
      is on, so the result overflows and bold stays on. */
  lemma LoneBraceCutHappens(m: Metrics)
    requires Cells(m)
    ensures VisibleWidth(m, SGR_TOKENS, BRACED) == 3 && LoneBraceCut(m, SGR_TOKENS, BRACED, 2)
    ensures VisibleWidth(m, SGR_TOKENS, Truncate(m, SGR_TOKENS, BRACED, 2)) > 2
    ensures ColourOpen(Lex(SGR_TOKENS, Truncate(m, SGR_TOKENS, BRACED, 2)))
  {
    hide Lex, Truncate, Table, Legal;
    BoldIsOne();
    BracedLex(SGR_TOKENS);
    TableIsLegal();
    BracedCut(m);
    LoneBraceCutFails(m, SGR_TOKENS, BRACED, 2);
  }

  lemma BracedCut(m: Metrics)
    requires Cells(m) && Lex(SGR_TOKENS, BRACED) == BracedPieces()
    ensures VisibleWidth(m, SGR_TOKENS, BRACED) == 3 && LoneBraceCut(m, SGR_TOKENS, BRACED, 2)
  {
    hide Lex, Table;
    var ps := BracedPieces();
    BracedWidths(m);
    KeepIs(m, ps, 1, 2);
    assert Kept(m, SGR_TOKENS, BRACED, 2) == ps[..2];
  }

  lemma BracedWidths(m: Metrics)
    requires Cells(m)
    ensures Width(m, BracedPieces()[..2]) == 1 && Width(m, BracedPieces()) == 3
  {
    var ps := BracedPieces();
    assert ps[..1] == [] + [ps[0]] && ps[..2] == ps[..1] + [ps[1]] && ps[..3] == ps[..2] + [ps[2]]
      && ps == ps[..3] + [ps[3]];
    WidthOne(m, [], ps[0]);
    WidthOne(m, ps[..1], ps[1]);
    WidthOne(m, ps[..2], ps[2]);
    WidthOne(m, ps[..3], ps[3]);
  }
}
