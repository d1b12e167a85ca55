/**
  What a terminal sees: erasing the SGR sequences from rendered text gives exactly the stripped text, and
  nothing but SGR sequences built from table codes is ever introduced.

  The SGR recogniser here is independent of the renderer: an introducer ESC [, parameters that are
  digit groups separated by single semicolons, and the final m (section 8.3.117 of ECMA-48).
*/
module ColorSafety {
  import opened Basics
  import opened ColorMarkup
  import opened ColorRender
  import Decimal

  function BodyLen(t: string): nat {
    if t != [] && (Decimal.IsDigit(t[0]) || t[0] == ';') then 1 + BodyLen(t[1..]) else 0
  }

  /** Digit groups separated by single semicolons; `inGroup` says whether a digit was just read. */
  predicate GoodBody(b: string, inGroup: bool) {
    if b == [] then inGroup
    else if Decimal.IsDigit(b[0]) then GoodBody(b[1..], true)
    else b[0] == ';' && inGroup && GoodBody(b[1..], false)
  }

  /** The length of the SGR sequence t starts with, or 0. */
  function SgrLen(t: string): (n: nat)
    ensures n <= |t|
  {
    if |t| >= 2 && t[0] == ESC && t[1] == '[' then
      var k := BodyLen(t[2..]);
      if 2 + k < |t| && t[2 + k] == 'm' && GoodBody(t[2..2 + k], false) then k + 3 else 0
    else 0
  }

  /** The text with every SGR sequence removed. */
  function Erase(t: string): string
    decreases |t|
  {
    if t == [] then ""
    else if SgrLen(t) > 0 then Erase(t[SgrLen(t)..])
    else [t[0]] + Erase(t[1..])
  }

  /** The groups of a parameter string, separated by semicolons. */
  function Groups(b: string): (gs: seq<string>)
    ensures gs != []
  {
    if b == [] then [[]]
    else
      var rest := Groups(b[1..]);
      if b[0] == ';' then [[]] + rest else [[b[0]] + rest[0]] + rest[1..]
  }

  /** The parameters of the SGR sequence a text starts with. */
  function ParamsAt(t: string): seq<string>
    requires SgrLen(t) > 0
  {
    Groups(t[2..SgrLen(t) - 1])
  }

  /** Every ESC of t starts an SGR sequence whose parameters are all codes of the vocabulary. */
  predicate OnlyTableSgr(v: Vocab, t: string)
    decreases |t|
  {
    || t == []
    || (t[0] != ESC && OnlyTableSgr(v, t[1..]))
    || (SgrLen(t) > 0 && (forall p | p in ParamsAt(t) :: p in v.Values) && OnlyTableSgr(v, t[SgrLen(t)..]))
  }

  predicate AllNumerals(ps: seq<string>) { forall i | 0 <= i < |ps| :: Decimal.IsNumeral(ps[i]) }

  predicate BodyChars(b: string) { forall i | 0 <= i < |b| :: Decimal.IsDigit(b[i]) || b[i] == ';' }

  lemma {:induction false} DigitsThen(d: string, rest: string, inGroup: bool)
    requires forall i | 0 <= i < |d| :: Decimal.IsDigit(d[i])
    ensures GoodBody(d + rest, inGroup) == GoodBody(rest, inGroup || d != [])
  {
    if d == [] {
      assert d + rest == rest;
    } else {
      assert (d + rest)[1..] == d[1..] + rest;
      DigitsThen(d[1..], rest, true);
    }
  }

  lemma {:induction false} JoinIsGoodBody(ps: seq<string>)
    requires ps != [] && AllNumerals(ps)
    ensures BodyChars(Join(ps)) && GoodBody(Join(ps), false)
  {
    if |ps| == 1 {
      assert Decimal.IsNumeral(ps[0]);
      DigitsThen(ps[0], [], false);
      assert ps[0] + [] == ps[0];
    } else {
      assert Decimal.IsNumeral(ps[0]);
      JoinIsGoodBody(ps[1..]);
      var rest := ";" + Join(ps[1..]);
      assert rest[1..] == Join(ps[1..]);
      DigitsThen(ps[0], rest, false);
      assert Join(ps) == ps[0] + rest;
    }
  }

  lemma {:induction false} BodyStopsAtM(b: string, rest: string)
    requires BodyChars(b)
    ensures BodyLen(b + ['m'] + rest) == |b|
  {
    if b == [] {
      assert (b + ['m'] + rest)[0] == 'm';
    } else {
      assert (b + ['m'] + rest)[1..] == b[1..] + ['m'] + rest;
      BodyStopsAtM(b[1..], rest);
    }
  }

  lemma SgrIsRecognised(ps: seq<string>, rest: string)
    requires ps != [] && AllNumerals(ps)
    ensures SgrLen(Sgr(ps) + rest) == |Sgr(ps)| > 0
    ensures Erase(Sgr(ps) + rest) == Erase(rest)
  {
    var b := Join(ps);
    JoinIsGoodBody(ps);
    BodyStopsAtM(b, rest);
    var t := Sgr(ps) + rest;
    assert t[2..] == b + ['m'] + rest;
    assert t[2..2 + |b|] == b;
    assert t[|Sgr(ps)|..] == rest;
  }

  /** Pieces as the tokenizer makes them from ESC-free text. */
  predicate Clean(v: Vocab, ps: seq<Piece>) {
    forall i | 0 <= i < |ps| :: (ps[i].Tok? ==> ps[i].param in v.Values) && (ps[i].Chr? ==> ps[i].c != ESC)
  }

  lemma {:induction false} LexIsClean(v: Vocab, s: string)
    requires ESC !in s
    ensures Clean(v, Lex(v, s))
    decreases |s|
  {
    if s == [] {
    } else if Opens(s) {
      var t := TokenAt(v, s);
      LexIsClean(v, s[if t.Some? then t.value.0 else 2..]);
    } else {
      LexIsClean(v, s[1..]);
    }
  }

  lemma {:induction false} LeadClean(v: Vocab, ps: seq<Piece>)
    requires Clean(v, ps)
    ensures forall p | p in LeadParams(ps) :: p in v.Values
    ensures Lead(ps) <= |ps| && Clean(v, ps[Lead(ps)..])
  {
    LeadBounds(ps);
    if ps != [] && ps[0].Tok? {
      LeadClean(v, ps[1..]);
    }
  }

  lemma ValuesAreNumerals(v: Vocab, ps: seq<string>)
    requires Legal(v) && forall p | p in ps :: p in v.Values
    ensures AllNumerals(ps)
  {
    forall i | 0 <= i < |ps| ensures Decimal.IsNumeral(ps[i]) {
      assert ps[i] in v.Values;
    }
  }

  lemma {:induction false} EraseColoured(v: Vocab, ps: seq<Piece>, tail: string)
    requires Legal(v) && Clean(v, ps)
    ensures Erase(Coloured(ps) + tail) == Plain(ps) + Erase(tail)
    decreases |ps|
  {
    if ps == [] {
      EmptyColoured(tail);
    } else if ps[0].Tok? {
      LeadClean(v, ps);
      PlainSkipsRun(ps);
      var params, rest := LeadParams(ps), ps[Lead(ps)..];
      ValuesAreNumerals(v, params);
      Assoc(Sgr(params), Coloured(rest), tail);
      SgrIsRecognised(params, Coloured(rest) + tail);
      EraseColoured(v, rest, tail);
    } else {
      var p, rest := ps[0], ps[1..];
      assert ps == [p] + rest;
      EraseColoured(v, rest, tail);
      ShownHead(p, rest);
      Assoc(Shown(p), Coloured(rest), tail);
      EraseKeeps(Shown(p), Coloured(rest) + tail);
      Assoc(Shown(p), Plain(rest), Erase(tail));
    }
  }

  lemma EmptyColoured(tail: string)
    ensures Coloured([]) + tail == tail && Plain([]) + Erase(tail) == Erase(tail)
  {
  }

  lemma {:induction false} EraseKeeps(a: string, rest: string)
    requires ESC !in a
    ensures Erase(a + rest) == a + Erase(rest)
  {
    if a == [] {
      assert a + rest == rest;
    } else {
      EraseKeeps(a[1..], rest);
      assert (a + rest)[1..] == a[1..] + rest;
      Assoc([a[0]], a[1..], Erase(rest));
      assert a == [a[0]] + a[1..];
    }
  }

  lemma {:induction false} GroupsThen(d: string, rest: string)
    requires forall i | 0 <= i < |d| :: Decimal.IsDigit(d[i])
    ensures Groups(d + rest) == [d + Groups(rest)[0]] + Groups(rest)[1..]
  {
    if d == [] {
      assert d + rest == rest;
      assert [] + Groups(rest)[0] == Groups(rest)[0];
    } else {
      assert (d + rest)[1..] == d[1..] + rest;
      GroupsThen(d[1..], rest);
      Assoc([d[0]], d[1..], Groups(rest)[0]);
      assert d == [d[0]] + d[1..];
    }
  }

  lemma {:induction false} GroupsOfJoin(ps: seq<string>)
    requires ps != [] && AllNumerals(ps)
    ensures Groups(Join(ps)) == ps
  {
    assert Decimal.IsNumeral(ps[0]);
    if |ps| == 1 {
      GroupsThen(ps[0], []);
      assert ps[0] + [] == ps[0];
      assert Groups([]) == [[]];
    } else {
      GroupsOfJoin(ps[1..]);
      var rest := ";" + Join(ps[1..]);
      assert rest[1..] == Join(ps[1..]);
      assert Groups(rest) == [[]] + ps[1..];
      GroupsThen(ps[0], rest);
      assert Join(ps) == ps[0] + rest;
      assert ps[0] + [] == ps[0] && ps == [ps[0]] + ps[1..];
    }
  }

  /** Written and read back: the recogniser finds exactly the parameters that were joined. */
  lemma SgrReadsBack(ps: seq<string>, rest: string)
    requires ps != [] && AllNumerals(ps)
    ensures SgrLen(Sgr(ps) + rest) == |Sgr(ps)| > 0 && (Sgr(ps) + rest)[|Sgr(ps)|..] == rest
    ensures ParamsAt(Sgr(ps) + rest) == ps
  {
    var t := Sgr(ps) + rest;
    SgrIsRecognised(ps, rest);
    GroupsOfJoin(ps);
    assert t[2..|Sgr(ps)| - 1] == Join(ps);
  }

  lemma SgrPrefix(v: Vocab, params: seq<string>, rest: string)
    requires Legal(v) && params != [] && (forall p | p in params :: p in v.Values) && OnlyTableSgr(v, rest)
    ensures OnlyTableSgr(v, Sgr(params) + rest)
  {
    ValuesAreNumerals(v, params);
    SgrReadsBack(params, rest);
  }

  lemma {:induction false} PlainPrefix(v: Vocab, a: string, rest: string)
    requires ESC !in a && OnlyTableSgr(v, rest)
    ensures OnlyTableSgr(v, a + rest)
  {
    if a == [] {
      assert a + rest == rest;
    } else {
      assert (a + rest)[1..] == a[1..] + rest;
      PlainPrefix(v, a[1..], rest);
    }
  }

  lemma {:induction false} ColouredOnlyTable(v: Vocab, ps: seq<Piece>, tail: string)
    requires Legal(v) && Clean(v, ps) && OnlyTableSgr(v, tail)
    ensures OnlyTableSgr(v, Coloured(ps) + tail)
    decreases |ps|
  {
    if ps == [] {
      EmptyColoured(tail);
    } else if ps[0].Tok? {
      LeadClean(v, ps);
      var params, rest := LeadParams(ps), ps[Lead(ps)..];
      ColouredOnlyTable(v, rest, tail);
      Assoc(Sgr(params), Coloured(rest), tail);
      SgrPrefix(v, params, Coloured(rest) + tail);
    } else {
      var p, rest := ps[0], ps[1..];
      assert ps == [p] + rest;
      ColouredOnlyTable(v, rest, tail);
      ShownHead(p, rest);
      Assoc(Shown(p), Coloured(rest), tail);
      PlainPrefix(v, Shown(p), Coloured(rest) + tail);
    }
  }

  lemma ResetIsTableSgr(v: Vocab)
    requires Legal(v)
    ensures RESET_SGR == Sgr(["0"]) && OnlyTableSgr(v, RESET_SGR)
    ensures Erase(RESET_SGR) == ""
  {
    assert RESET_SGR == Sgr(["0"]);
    assert "RESET" in v.Keys && v["RESET"] in v.Values;
    SgrPrefix(v, ["0"], []);
    assert Sgr(["0"]) + [] == RESET_SGR;
    assert AllNumerals(["0"]);
    SgrIsRecognised(["0"], []);
  }

  /** Rendering ESC-free text: the terminal shows exactly the stripped text, every ESC starts an SGR made
      of table codes, coloured output ends in a reset, and text without tokens is unchanged. */
  lemma RenderIsColourAndNothingElse(v: Vocab, s: string)
    requires Legal(v) && ESC !in s
    ensures var out := RenderSpec(v, s, true);
            && Erase(out) == Strip(v, s)
            && OnlyTableSgr(v, out)
            && (HasToken(Lex(v, s)) ==> EndsWith(out, RESET_SGR))
            && (!HasToken(Lex(v, s)) ==> out == s)
  {
    var ps := Lex(v, s);
    var out := RenderSpec(v, s, true);
    LexIsClean(v, s);
    ResetIsTableSgr(v);
    EraseColoured(v, ps, []);
    EraseColoured(v, ps, RESET_SGR);
    ColouredOnlyTable(v, ps, []);
    ColouredOnlyTable(v, ps, RESET_SGR);
    assert Coloured(ps) + [] == Coloured(ps) && Plain(ps) + "" == Plain(ps);
    if !HasToken(ps) {
      UncolouredIsText(ps);
      LexIsText(v, s);
    }
  }

  lemma {:induction false} UncolouredIsText(ps: seq<Piece>)
    requires forall i | 0 <= i < |ps| :: !ps[i].Tok?
    ensures Coloured(ps) == Text(ps)
  {
    if ps != [] {
      UncolouredIsText(ps[1..]);
    }
  }
}
