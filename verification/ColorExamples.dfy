/** One shipped colour, from its token to what is painted. */
module ColorExamples {
  import opened Basics
  import opened ColorMarkup
  import opened ColorTokens
  import opened ColorPaint

  const RED_NAME := " fg_Red "
  const RED_TOKEN := "{{ fg_Red }}"
  const RED_HI := "{{ fg_Red }}hi"

  lemma EightBytes()
    ensures Bytes(RED_NAME) == 8
  {
    var t := RED_NAME;
    assert t[1..] == "fg_Red " && t[2..] == "g_Red " && t[3..] == "_Red " && t[4..] == "Red " && t[5..] == "ed ";
    assert t[6..] == "d " && t[7..] == " ";
    assert Bytes(" ") == 1 && Bytes("d ") == 2 && Bytes("ed ") == 3 && Bytes("Red ") == 4;
    assert Bytes("_Red ") == 5 && Bytes("g_Red ") == 6 && Bytes("fg_Red ") == 7;
  }

  lemma RedIsKnown(v: Vocab)
    requires "FG_RED" in v && v["FG_RED"] == "31"
    ensures Knows(v, RED_NAME, "31")
  {
    assert RED_NAME == " " + "fg_Red" + " ";
    assert Trimmed(RED_NAME, "fg_Red");
    assert Capitals("fg_Red", "FG_RED");
  }

  lemma RedIsToken(v: Vocab)
    requires Knows(v, RED_NAME, "31")
    ensures TokenAt(v, RED_HI) == Some((12, "31"))
  {
    hide TokenAt, Knows, Bytes;
    EightBytes();
    assert RED_HI[2..10] == RED_NAME;
    assert Braced(RED_HI, RED_NAME);
    assert IsTokenAt(v, RED_HI, RED_NAME, "31");
    TokenAtMeans(v, RED_HI, 12, "31");
  }

  function RedPieces(): seq<Piece> { [Tok(RED_TOKEN, "31"), Chr('h'), Chr('i')] }

  lemma RedLex(v: Vocab)
    requires Knows(v, RED_NAME, "31")
    ensures Lex(v, RED_HI) == RedPieces()
  {
    hide TokenAt, Knows;
    RedIsToken(v);
    LexUnfolds(v, RED_HI);
    LexUnfolds(v, "hi");
    LexUnfolds(v, "i");
    assert RED_HI[..12] == RED_TOKEN && RED_HI[12..] == "hi" && "hi"[1..] == "i" && "i"[1..] == "";
  }

  lemma RedMeant()
    ensures Meant(RedPieces(), []) == [Cell('h', ["31"]), Cell('i', ["31"])]
  {
    var ps := RedPieces();
    assert ps[1..] == [Chr('h'), Chr('i')] && ps[1..][1..] == [Chr('i')] && ps[1..][1..][1..] == [];
    assert [] + ["31"] == ["31"];
  }

  /** A vocabulary in which FG_RED is 31 paints a token of that name red, in any letter case and with space in the
      braces. */
  lemma RedIsPaintedRed(v: Vocab)
    requires Legal(v) && "FG_RED" in v && v["FG_RED"] == "31"
    ensures Painted(RenderSpec(v, RED_HI, true), []) == [Cell('h', ["31"]), Cell('i', ["31"])]
  {
    hide Lex, Painted, RenderSpec, Knows, Meant, Legal;
    RedIsKnown(v);
    RedLex(v);
    RenderPaints(v, RED_HI);
    RedMeant();
  }

  /** The whole output: one sequence for the colour, the letters, one for the reset. */
  lemma RedIsWritten(v: Vocab)
    requires Legal(v) && "FG_RED" in v && v["FG_RED"] == "31"
    ensures RenderSpec(v, RED_HI, true) == ['\U{1B}'] + "[31mhi" + ['\U{1B}'] + "[0m"
  {
    hide Lex, Knows, Legal;
    RedIsKnown(v);
    RedLex(v);
    var ps := RedPieces();
    assert ps[1..] == [Chr('h'), Chr('i')] && ps[1..][1..] == [Chr('i')] && ps[1..][1..][1..] == [];
    assert LeadParams(ps) == ["31"] && Lead(ps) == 1;
    var out := Coloured(ps);
    assert out == Sgr(["31"]) + "hi" == ['\U{1B}'] + "[31mhi";
    assert ps[0].Tok? && HasToken(ps);
    assert out[|out| - 4..] == "1mhi" && RESET_SGR[0] == '\U{1B}';
  }
}
