/**
  When cutting or gluing marked-up text leaves its tokens alone: a prefix of a text's pieces followed by
  other text tokenizes as those pieces followed by the other text's, as long as the seam cannot form a
  new "{{" and the glued text cannot close an old one into a known token.
*/
module ColorSeams {
  import opened Basics
  import opened ColorMarkup

  // ---- names and closers ----------------------------------------------------------------------

  lemma {:induction false} TrimKeepsBrace(s: string)
    requires '{' in s
    ensures '{' in TrimLeft(s) && '{' in TrimEnd(s, IsSpace)
  {
    if IsSpace(s[0]) {
      assert s == [s[0]] + s[1..];
      TrimKeepsBrace(s[1..]);
    }
    if IsSpace(s[|s| - 1]) {
      assert s == s[..|s| - 1] + [s[|s| - 1]];
      TrimKeepsBraceRight(s[..|s| - 1]);
    }
  }

  lemma {:induction false} TrimKeepsBraceRight(s: string)
    requires '{' in s
    ensures '{' in TrimEnd(s, IsSpace)
  {
    if IsSpace(s[|s| - 1]) {
      assert s == s[..|s| - 1] + [s[|s| - 1]];
      TrimKeepsBraceRight(s[..|s| - 1]);
    }
  }

  /** A name with an opening brace in it is never a token name. */
  lemma BraceIsNoName(v: Vocab, name: string)
    requires Legal(v) && '{' in name
    ensures SgrParam(v, name).None?
  {
    TrimKeepsBrace(name);
    var t := TrimLeft(name);
    TrimKeepsBraceRight(t);
    var u := TrimEnd(t, IsSpace);
    var i :| 0 <= i < |u| && u[i] == '{';
    assert UpperAll(u)[i] == '{';
  }

  /** The first closer of a text is found again in front of any other text. */
  lemma {:induction false} CloseAtPrefix(t: string, x: string, room: int)
    requires CloseAt(t, room) >= 0
    ensures CloseAt(t + x, room) == CloseAt(t, room)
  {
    if !(t[0] == '}' && t[1] == '}') {
      assert (t + x)[1..] == t[1..] + x;
      CloseAtPrefix(t[1..], x, room - Utf8Len(t[0]));
    }
  }

  /** If a text has no closer, one found in a longer text lies beyond it, unless it straddles the end. */
  lemma {:induction false} CloseAtBeyond(t: string, x: string, room: int)
    requires CloseAt(t, room) < 0 && (x == [] || x[0] != '}')
    ensures CloseAt(t + x, room) < 0 || CloseAt(t + x, room) >= |t|
  {
    if t == [] {
    } else if room >= 0 {
      assert (t + x)[1..] == t[1..] + x;
      assert x == [] ==> t + x == t;
      if |t| >= 2 || x != [] {
        CloseAtBeyond(t[1..], x, room - Utf8Len(t[0]));
      }
    }
  }

  /** Text that can follow anything without turning an earlier literal "{{" into a token. */
  ghost predicate Inert(v: Vocab, suf: string) {
    forall r: string | CloseAt(r, WINDOW) < 0 :: TokenAt(v, "{{" + r + suf).None?
  }

  lemma NoCloserIsInert(v: Vocab, suf: string)
    requires '}' !in suf
    ensures Inert(v, suf)
  {
    forall r: string | CloseAt(r, WINDOW) < 0 ensures TokenAt(v, "{{" + r + suf).None? {
      assert ("{{" + r + suf)[2..] == r + suf;
      CloseAtBeyond(r, suf, WINDOW);
      CloseAtInside(r + suf, WINDOW);
      assert forall n | |r| <= n < |r + suf| :: (r + suf)[n] == suf[n - |r|];
    }
  }

  lemma BraceIsInert(v: Vocab, suf: string)
    requires Legal(v) && suf != [] && suf[0] == '{'
    ensures Inert(v, suf)
  {
    hide TokenAt, CloseAt, Legal;
    forall r: string | CloseAt(r, WINDOW) < 0 ensures TokenAt(v, "{{" + r + suf).None? {
      BraceBlocks(v, r, suf);
    }
  }

  lemma BraceBlocks(v: Vocab, r: string, suf: string)
    requires Legal(v) && suf != [] && suf[0] == '{' && CloseAt(r, WINDOW) < 0
    ensures TokenAt(v, "{{" + r + suf).None?
  {
    hide CloseAt, SgrParam, Legal;
    var s := "{{" + r + suf;
    assert s[2..] == r + suf;
    CloseAtBeyond(r, suf, WINDOW);
    CloseAtInside(r + suf, WINDOW);
    var n := CloseAt(r + suf, WINDOW);
    if n >= 0 {
      BraceInName(r, suf, n);
      BraceIsNoName(v, s[2..2 + n]);
    }
  }

  /** The closer lies beyond the brace: it is not at the brace itself. */
  lemma BraceInName(r: string, suf: string, n: nat)
    requires suf != [] && suf[0] == '{' && |r| <= n && n + 2 <= |r + suf| && (r + suf)[n] == '}'
    ensures '{' in ("{{" + r + suf)[2..2 + n]
  {
    var s := "{{" + r + suf;
    assert (r + suf)[|r|] == '{' && s[2 + n] == (r + suf)[n];
    assert s[2..2 + n][|r|] == '{';
  }

  // ---- gluing ---------------------------------------------------------------------------------

  /** The last piece kept is not a lone brace that the next text would pair up. */
  predicate SeamOk(ps: seq<Piece>, suf: string) {
    ps != [] && ps[|ps| - 1] == Chr('{') ==> suf == [] || suf[0] != '{'
  }

  lemma {:induction false} TextSplit(ps: seq<Piece>, qs: seq<Piece>)
    ensures Text(ps + qs) == Text(ps) + Text(qs)
  {
    if ps == [] {
      assert ps + qs == qs;
    } else {
      assert (ps + qs)[1..] == ps[1..] + qs;
      TextSplit(ps[1..], qs);
    }
  }

  lemma TokenAgain(v: Vocab, text: string, x: string, y: string, p: string)
    requires TokenAt(v, text + x) == Some((|text|, p))
    ensures TokenAt(v, text + y) == Some((|text|, p))
  {
    var n := |text| - 4;
    var body := text[2..];
    assert (text + x)[2..] == body + x && (text + y)[2..] == body + y;
    CloseStays(body, x, y, WINDOW, n);
    assert (text + x)[2..2 + n] == (text + y)[2..2 + n];
  }

  /** A closer that lies inside t does not depend on what follows t. */
  lemma {:induction false} CloseStays(t: string, x: string, y: string, room: int, n: int)
    requires CloseAt(t + x, room) == n && 0 <= n && n + 2 <= |t|
    ensures CloseAt(t + y, room) == n
  {
    if n > 0 {
      assert (t + x)[1..] == t[1..] + x && (t + y)[1..] == t[1..] + y;
      CloseStays(t[1..], x, y, room - Utf8Len(t[0]), n - 1);
    }
  }

  lemma PairAgain(v: Vocab, r: string, x: string, suf: string)
    requires TokenAt(v, "{{" + (r + x)).None? && Inert(v, suf)
    ensures TokenAt(v, "{{" + (r + suf)).None?
  {
    if CloseAt(r, WINDOW) >= 0 {
      CloseAtPrefix(r, x, WINDOW);
      CloseAtPrefix(r, suf, WINDOW);
      CloseAtInside(r, WINDOW);
      var n := CloseAt(r, WINDOW);
      assert ("{{" + (r + x))[2..] == r + x && ("{{" + (r + suf))[2..] == r + suf;
      assert ("{{" + (r + x))[2..2 + n] == r[..n] && ("{{" + (r + suf))[2..2 + n] == r[..n];
    } else {
      assert "{{" + (r + suf) == "{{" + r + suf;
    }
  }

  /** The first k pieces of a text, glued to `suf`, tokenize as themselves followed by suf's pieces. */
  lemma {:induction false} Relex(v: Vocab, s: string, k: nat, suf: string)
    requires k <= |Lex(v, s)| && Inert(v, suf) && SeamOk(Lex(v, s)[..k], suf)
    ensures Lex(v, Text(Lex(v, s)[..k]) + suf) == Lex(v, s)[..k] + Lex(v, suf)
    decreases |s|
  {
    var ps := Lex(v, s);
    if k == 0 {
      assert ps[..0] == [] && "" + suf == suf;
      assert [] + Lex(v, suf) == Lex(v, suf);
    } else {
      RelexStep(v, s, k, suf);
    }
  }

  lemma {:induction false} RelexStep(v: Vocab, s: string, k: nat, suf: string)
    requires s != [] && 0 < k <= |Lex(v, s)| && Inert(v, suf) && SeamOk(Lex(v, s)[..k], suf)
    ensures Lex(v, Text(Lex(v, s)[..k]) + suf) == Lex(v, s)[..k] + Lex(v, suf)
    decreases |s|, 0
  {
    hide Inert, TokenAt, Lex;
    var p := Lex(v, s)[0];
    var n := |TextOf(p)|;
    FirstPiece(v, s);
    var s' := s[n..];
    var qs := Lex(v, s');
    var r := Text(qs[..k - 1]);
    assert Lex(v, s)[..k] == [p] + qs[..k - 1];
    assert ([p] + qs[..k - 1])[1..] == qs[..k - 1];
    assert SeamOk(qs[..k - 1], suf) by {
      assert k > 1 ==> Lex(v, s)[..k][k - 1] == qs[..k - 1][k - 2];
    }
    Relex(v, s', k - 1, suf);
    var rest := r + suf;
    assert Text(Lex(v, s)[..k]) + suf == TextOf(p) + rest;
    assert Lex(v, TextOf(p) + rest) == [p] + Lex(v, rest) by {
      SplitRest(v, s', k - 1);
      PieceAgain(v, s, k, suf, r, Text(qs[k - 1..]));
    }
    assert [p] + (qs[..k - 1] + Lex(v, suf)) == [p] + qs[..k - 1] + Lex(v, suf);
  }

  lemma FirstPiece(v: Vocab, s: string)
    requires s != []
    ensures var p := Lex(v, s)[0];
            && 0 < |TextOf(p)| <= |s| && s == TextOf(p) + s[|TextOf(p)|..]
            && Lex(v, s) == [p] + Lex(v, s[|TextOf(p)|..])
            && (p.Tok? ==> TokenAt(v, s) == Some((|p.text|, p.param)))
            && (p.Pair? ==> Opens(s) && TokenAt(v, s).None?)
            && (p.Chr? ==> s[0] == p.c && !Opens(s))
  {
    assert s[0..] == s;
    LexAt(v, s, 0);
    var p := Lex(v, s)[0];
    assert p.Pair? ==> s[..2] == "{{";
  }

  lemma SplitRest(v: Vocab, s: string, k: nat)
    requires k <= |Lex(v, s)|
    ensures Text(Lex(v, s)[..k]) + Text(Lex(v, s)[k..]) == s
    ensures k > 0 ==> Text(Lex(v, s)[..k]) != [] && s != [] && Text(Lex(v, s)[..k])[0] == s[0]
  {
    var ps := Lex(v, s);
    assert ps == ps[..k] + ps[k..];
    TextSplit(ps[..k], ps[k..]);
    LexIsText(v, s);
  }

  /** The first piece of a text is also the first piece when only r of its tail is kept before suf. */
  lemma PieceAgain(v: Vocab, s: string, k: nat, suf: string, r: string, x: string)
    requires 0 < k <= |Lex(v, s)| && Inert(v, suf) && SeamOk(Lex(v, s)[..k], suf)
    requires var n := |TextOf(Lex(v, s)[0])|;
             n <= |s| && r == Text(Lex(v, s[n..])[..k - 1]) && s[n..] == r + x
             && (k > 1 ==> r != [] && s[n..] != [] && r[0] == s[n..][0])
    requires k - 1 <= |Lex(v, s[|TextOf(Lex(v, s)[0])|..])|
    ensures Lex(v, TextOf(Lex(v, s)[0]) + (r + suf)) == [Lex(v, s)[0]] + Lex(v, r + suf)
  {
    hide Inert, SgrParam, CloseAt;
    FirstPiece(v, s);
    var p := Lex(v, s)[0];
    var t := TextOf(p) + (r + suf);
    assert t[0..] == t;
    LexAt(v, t, 0);
    assert t[|TextOf(p)|..] == r + suf;
    match p {
      case Tok(text, param) =>
        TokenAgain(v, text, r + x, r + suf, param);
        assert t[0..|text|] == text;
      case Pair =>
        assert s == "{{" + (r + x);
        PairAgain(v, r, x, suf);
      case Chr(c) =>
        assert k == 1 ==> Lex(v, s)[..k][k - 1] == p;
        assert k > 1 ==> s[1..][0] == s[1];
    }
  }
}
