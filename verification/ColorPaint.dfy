/**
  What a terminal paints.  Rendered text is read back by the recogniser of ColorSafety: each character that is
  shown is painted under the parameters received before it, and these are the parameters of the tokens that
  stand before it in the marked-up text, in order.
*/
module ColorPaint {
  import opened Basics
  import opened ColorMarkup
  import opened ColorRender
  import opened ColorSafety

  /** A shown character and all parameters received before it. */
  datatype Cell = Cell(c: char, received: seq<string>)

  /** What a terminal paints that has received some parameters already. */
  function Painted(t: string, received: seq<string>): seq<Cell>
    decreases |t|
  {
    if t == [] then []
    else if SgrLen(t) > 0 then Painted(t[SgrLen(t)..], received + ParamsAt(t))
    else [Cell(t[0], received)] + Painted(t[1..], received)
  }

  /** Everything a terminal has received at the end of a text. */
  function Received(t: string, received: seq<string>): seq<string>
    decreases |t|
  {
    if t == [] then received
    else if SgrLen(t) > 0 then Received(t[SgrLen(t)..], received + ParamsAt(t))
    else Received(t[1..], received)
  }

  /** What marked-up text means: its characters, and a literal brace pair's, under the parameters of all tokens
      before them. */
  function Meant(ps: seq<Piece>, received: seq<string>): seq<Cell> {
    if ps == [] then []
    else match ps[0]
      case Tok(_, param) => Meant(ps[1..], received + [param])
      case Pair => [Cell('{', received), Cell('{', received)] + Meant(ps[1..], received)
      case Chr(c) => [Cell(c, received)] + Meant(ps[1..], received)
  }

  /** The parameters of the tokens, in order. */
  function TokenParams(ps: seq<Piece>): seq<string> {
    if ps == [] then [] else (if ps[0].Tok? then [ps[0].param] else []) + TokenParams(ps[1..])
  }

  // ---- reading rendered text back -------------------------------------------------------------

  lemma {:induction false} MeantRun(ps: seq<Piece>, received: seq<string>)
    ensures Lead(ps) <= |ps|
    ensures Meant(ps, received) == Meant(ps[Lead(ps)..], received + LeadParams(ps))
    ensures TokenParams(ps) == LeadParams(ps) + TokenParams(ps[Lead(ps)..])
  {
    LeadBounds(ps);
    if ps != [] && ps[0].Tok? {
      var (p, rest) := (ps[0].param, ps[1..]);
      MeantRun(rest, received + [p]);
      assert rest[Lead(rest)..] == ps[Lead(ps)..];
      assert received + [p] + LeadParams(rest) == received + LeadParams(ps);
      Assoc([p], LeadParams(rest), TokenParams(rest[Lead(rest)..]));
    } else {
      assert received + [] == received && [] + TokenParams(ps) == TokenParams(ps);
    }
  }

  lemma {:induction false} PlainPainted(a: string, rest: string, received: seq<string>)
    requires ESC !in a
    ensures Painted(a + rest, received) == Under(a, received) + Painted(rest, received)
    ensures Received(a + rest, received) == Received(rest, received)
  {
    if a == [] {
      assert a + rest == rest;
      assert [] + Painted(rest, received) == Painted(rest, received);
    } else {
      PlainPainted(a[1..], rest, received);
      assert (a + rest)[1..] == a[1..] + rest && (a + rest)[0] == a[0];
      assert Under(a, received) == [Cell(a[0], received)] + Under(a[1..], received);
      Assoc([Cell(a[0], received)], Under(a[1..], received), Painted(rest, received));
    }
  }

  /** Characters under the same parameters. */
  function Under(a: string, received: seq<string>): seq<Cell> {
    seq(|a|, i requires 0 <= i < |a| => Cell(a[i], received))
  }

  lemma SgrPainted(ps: seq<string>, rest: string, received: seq<string>)
    requires ps != [] && AllNumerals(ps)
    ensures Painted(Sgr(ps) + rest, received) == Painted(rest, received + ps)
    ensures Received(Sgr(ps) + rest, received) == Received(rest, received + ps)
  {
    hide Sgr;
    SgrReadsBack(ps, rest);
    assert Sgr(ps) + rest != [];
  }

  lemma ShownPainted(p: Piece, ps: seq<Piece>, received: seq<string>)
    requires ps != [] && ps[0] == p && !p.Tok?
    ensures Meant(ps, received) == Under(Shown(p), received) + Meant(ps[1..], received)
    ensures TokenParams(ps) == TokenParams(ps[1..])
  {
    assert [] + TokenParams(ps[1..]) == TokenParams(ps[1..]);
    assert Under("{{", received) == [Cell('{', received), Cell('{', received)];
    if p.Chr? {
      assert Under([p.c], received) == [Cell(p.c, received)];
    }
  }

  lemma {:induction false} ColouredPaints(v: Vocab, ps: seq<Piece>, tail: string, received: seq<string>)
    requires Legal(v) && Clean(v, ps)
    ensures Painted(Coloured(ps) + tail, received) ==
            Meant(ps, received) + Painted(tail, received + TokenParams(ps))
    ensures Received(Coloured(ps) + tail, received) == Received(tail, received + TokenParams(ps))
    decreases |ps|
  {
    hide Painted, Received, Sgr, AllNumerals, Legal;
    if ps == [] {
      EmptyColoured(tail);
      assert [] + Painted(tail, received) == Painted(tail, received) && received + [] == received;
    } else if ps[0].Tok? {
      LeadClean(v, ps);
      MeantRun(ps, received);
      var params, rest := LeadParams(ps), ps[Lead(ps)..];
      ValuesAreNumerals(v, params);
      Assoc(Sgr(params), Coloured(rest), tail);
      SgrPainted(params, Coloured(rest) + tail, received);
      ColouredPaints(v, rest, tail, received + params);
      Assoc(received, params, TokenParams(rest));
    } else {
      var p, rest := ps[0], ps[1..];
      assert ps == [p] + rest;
      ShownHead(p, rest);
      Assoc(Shown(p), Coloured(rest), tail);
      PlainPainted(Shown(p), Coloured(rest) + tail, received);
      ColouredPaints(v, rest, tail, received);
      ShownPainted(p, ps, received);
      Assoc(Under(Shown(p), received), Meant(rest, received), Painted(tail, received + TokenParams(ps)));
    }
  }

  /** Rendering ESC-free text paints exactly what it means: every shown character under the parameters of all
      tokens before it, in order; and a terminal that received any ends on the reset, having received
      nothing else. */
  lemma RenderPaints(v: Vocab, s: string)
    requires Legal(v) && ESC !in s
    ensures Painted(RenderSpec(v, s, true), []) == Meant(Lex(v, s), [])
    ensures var (ps, got) := (Lex(v, s), Received(RenderSpec(v, s, true), []));
            && (got == TokenParams(ps) || got == TokenParams(ps) + ["0"])
            && (got != [] ==> got[|got| - 1] == "0") && (got == [] <==> forall i | 0 <= i < |ps| :: !ps[i].Tok?)
  {
    hide Painted, Received, Meant, Coloured, Lex, TokenParams, Legal, Clean, EndsWith;
    var ps := Lex(v, s);
    LexIsClean(v, s);
    TokensOrNone(ps);
    ColouredPaints(v, ps, [], []);
    ColouredPaints(v, ps, RESET_SGR, []);
    ResetPaints(TokenParams(ps));
    NothingAround(Coloured(ps), TokenParams(ps), Meant(ps, []));
    if EndsWith(Coloured(ps), RESET_SGR) {
      EndsOnReset(v, ps);
    }
  }

  lemma NothingAround(text: string, params: seq<string>, cells: seq<Cell>)
    ensures text + [] == text && [] + params == params && cells + [] == cells
  {
  }

  lemma ResetPaints(received: seq<string>)
    ensures Painted(RESET_SGR, received) == [] && Received(RESET_SGR, received) == received + ["0"]
    ensures Painted([], received) == [] && Received([], received) == received
  {
    assert RESET_SGR == Sgr(["0"]) + [];
    assert AllNumerals(["0"]);
    SgrPainted(["0"], [], received);
  }

  lemma {:induction false} TokensOrNone(ps: seq<Piece>)
    ensures TokenParams(ps) != [] <==> HasToken(ps)
  {
    if ps != [] {
      TokensOrNone(ps[1..]);
      if HasToken(ps) && !ps[0].Tok? {
        var i :| 0 <= i < |ps| && ps[i].Tok?;
        assert ps[1..][i - 1].Tok?;
      }
      if HasToken(ps[1..]) {
        var i :| 0 <= i < |ps[1..]| && ps[1..][i].Tok?;
        assert ps[i + 1].Tok?;
      }
    }
  }

  lemma EndsInTail(a: string, b: string)
    requires EndsWith(a + b, RESET_SGR)
    ensures |b| >= 4 ==> EndsWith(b, RESET_SGR)
    ensures |b| < 4 ==> |a| + |b| >= 4 && a[|a| + |b| - 4] == ESC
  {
    var out := a + b;
    assert out[|out| - 4..][0] == ESC;
    if |b| >= 4 {
      assert out[|out| - 4..] == b[|b| - 4..];
    }
  }

  lemma EscOnlyFirst(ps: seq<string>, i: nat)
    requires ps != [] && AllNumerals(ps) && i < |Sgr(ps)| && Sgr(ps)[i] == ESC
    ensures i == 0
  {
    JoinIsGoodBody(ps);
    var b := Join(ps);
    assert Sgr(ps) == [ESC, '['] + b + "m";
  }

  /** A sequence no longer than the reset is the reset's when it ends like it. */
  lemma ShortSgr(ps: seq<string>)
    requires ps != [] && AllNumerals(ps)
    ensures |Sgr(ps)| >= 4 && (Sgr(ps) == RESET_SGR ==> ps == ["0"])
  {
    JoinIsGoodBody(ps);
    GroupsOfJoin(ps);
    if Sgr(ps) == RESET_SGR {
      assert Join(ps) == Sgr(ps)[2..|Sgr(ps)| - 1] == "0";
      assert "0"[1..] == [] && Groups([]) == [[]];
      assert Groups("0") == [['0'] + []] + [];
    }
  }

  /** Rendered text that ends in a reset sequence has received the reset last. */
  lemma {:induction false} EndsOnReset(v: Vocab, ps: seq<Piece>)
    requires Legal(v) && Clean(v, ps) && EndsWith(Coloured(ps), RESET_SGR)
    ensures TokenParams(ps) != [] && TokenParams(ps)[|TokenParams(ps)| - 1] == "0"
    decreases |ps|
  {
    hide Sgr, EndsWith, Legal, AllNumerals;
    if ps == [] {
      NotReset();
    } else if ps[0].Tok? {
      LeadClean(v, ps);
      MeantRun(ps, []);
      var params, rest := LeadParams(ps), ps[Lead(ps)..];
      ValuesAreNumerals(v, params);
      EndsInTail(Sgr(params), Coloured(rest));
      ShortSgr(params);
      if |Coloured(rest)| >= 4 {
        EndsOnReset(v, rest);
      } else {
        EscOnlyFirst(params, |Sgr(params)| + |Coloured(rest)| - 4);
        AfterRun(ps);
        WholeReset(Sgr(params), Coloured(rest));
      }
    } else {
      var p, rest := ps[0], ps[1..];
      EndsInTail(Shown(p), Coloured(rest));
      ShownPainted(p, ps, []);
      assert ESC !in Shown(p);
      if |Coloured(rest)| >= 4 {
        EndsOnReset(v, rest);
      }
    }
  }

  lemma NotReset()
    ensures !EndsWith("", RESET_SGR)
  {
  }

  lemma WholeReset(a: string, b: string)
    requires EndsWith(a + b, RESET_SGR) && |a| + |b| == 4 && |a| >= 4
    ensures a == RESET_SGR && b == []
  {
    assert a + b == (a + b)[|a + b| - 4..];
    assert a == a + b;
  }

  /** What follows a token run is not a token. */
  lemma {:induction false} AfterRun(ps: seq<Piece>)
    ensures Lead(ps) <= |ps| && (Lead(ps) < |ps| ==> !ps[Lead(ps)].Tok?)
  {
    if ps != [] && ps[0].Tok? {
      AfterRun(ps[1..]);
    }
  }

  // ---- plain output ---------------------------------------------------------------------------

  lemma ShowsUnder(a: string, received: seq<string>, rest: seq<Cell>)
    ensures Each(Under(a, received) + rest, (cell: Cell) => cell.c) == a + Each(rest, (cell: Cell) => cell.c)
  {
  }

  /** With colour off, and stripped, the same characters are shown and nothing else. */
  lemma {:induction false} PlainShowsTheSame(ps: seq<Piece>, received: seq<string>)
    ensures Plain(ps) == Each(Meant(ps, received), (cell: Cell) => cell.c)
  {
    hide Each, Under;
    if ps == [] {
      assert Each<Cell, char>([], (cell: Cell) => cell.c) == [] by { NoCells(); }
    } else if ps[0].Tok? {
      PlainShowsTheSame(ps[1..], received + [ps[0].param]);
      assert "" + Plain(ps[1..]) == Plain(ps[1..]);
    } else {
      PlainShowsTheSame(ps[1..], received);
      ShownPainted(ps[0], ps, received);
      ShowsUnder(Shown(ps[0]), received, Meant(ps[1..], received));
    }
  }

  lemma NoCells()
    ensures Each<Cell, char>([], (cell: Cell) => cell.c) == []
  {
  }

  lemma StripShowsTheSame(v: Vocab, s: string)
    ensures RenderSpec(v, s, false) == Strip(v, s) == Each(Meant(Lex(v, s), []), (cell: Cell) => cell.c)
  {
    PlainShowsTheSame(Lex(v, s), []);
  }
}
