/** The index loops of the colour markup, proved against the tokenizer, and what rendering guarantees. */
module ColorRender {
  import opened Basics
  import opened ColorMarkup

  // ---- the loops ------------------------------------------------------------------------------

  lemma {:induction false} RunSplit(toks: seq<Piece>, rest: seq<Piece>)
    requires forall k | 0 <= k < |toks| :: toks[k].Tok?
    requires rest == [] || !rest[0].Tok?
    ensures Lead(toks + rest) == |toks| == |LeadParams(toks + rest)|
    ensures forall k | 0 <= k < |toks| :: LeadParams(toks + rest)[k] == toks[k].param
  {
    if toks == [] {
      assert toks + rest == rest;
    } else {
      RunSplit(toks[1..], rest);
      assert (toks + rest)[1..] == toks[1..] + rest;
    }
  }

  /** What the scanner knows at index j: the tokens passed, and that the rest of the pieces start there. */
  ghost predicate Scanned(v: Vocab, s: string, i: nat, j: nat, params: seq<string>, toks: seq<Piece>) {
    && i <= j <= |s| && (params == [] <==> j == i)
    && Lex(v, s[i..]) == toks + Lex(v, s[j..])
    && |params| == |toks| && forall k | 0 <= k < |toks| :: toks[k].Tok? && params[k] == toks[k].param
  }

  lemma ScanStarts(v: Vocab, s: string, i: nat)
    requires i <= |s|
    ensures Scanned(v, s, i, i, [], [])
  {
    assert [] + Lex(v, s[i..]) == Lex(v, s[i..]);
  }

  lemma ScanPasses(v: Vocab, s: string, i: nat, j: nat, params: seq<string>, toks: seq<Piece>)
    requires Scanned(v, s, i, j, params, toks) && TokenAt(v, s[j..]).Some?
    ensures var (n, p) := TokenAt(v, s[j..]).value;
            j + n <= |s| && Scanned(v, s, i, j + n, params + [p], toks + [Tok(s[j..j + n], p)])
  {
    hide Lex;
    TokenOpens(v, s[j..]);
    LexAt(v, s, j);
    hide TokenAt;
    var (n, p) := TokenAt(v, s[j..]).value;
    var tok := Tok(s[j..j + n], p);
    assert toks + ([tok] + Lex(v, s[j + n..])) == toks + [tok] + Lex(v, s[j + n..]);
  }

  /** The token test in the scanner's own terms. */
  lemma TokenAtIs(v: Vocab, t: string)
    requires Opens(t)
    ensures var end := CloseAt(t[2..], WINDOW);
            && (end >= 0 ==> end + 4 <= |t|)
            && TokenAt(v, t) == if end < 0 || SgrParam(v, t[2..2 + end]).None? then None
                                else Some((end + 4, SgrParam(v, t[2..2 + end]).value))
  {
    hide SgrParam, CloseAt;
    CloseAtInside(t[2..], WINDOW);
  }

  lemma ScanEnds(v: Vocab, s: string, i: nat, j: nat, params: seq<string>, toks: seq<Piece>)
    requires Scanned(v, s, i, j, params, toks) && TokenAt(v, s[j..]).None?
    ensures var ps := Lex(v, s[i..]);
            params == LeadParams(ps) && Lead(ps) <= |ps| && Lex(v, s[j..]) == ps[Lead(ps)..]
  {
    var rest := Lex(v, s[j..]);
    RunSplit(toks, rest);
    assert (toks + rest)[|toks|..] == rest;
  }

  /** The maximal run of known tokens at s[i], and the index just past it. */
  method ScanTokenRun(v: Vocab, s: string, i: nat) returns (params: seq<string>, next: nat)
    requires i <= |s|
    ensures i <= next <= |s| && (params == [] <==> next == i)
    ensures params == LeadParams(Lex(v, s[i..]))
    ensures Lead(Lex(v, s[i..])) <= |Lex(v, s[i..])|
    ensures Lex(v, s[next..]) == Lex(v, s[i..])[Lead(Lex(v, s[i..]))..]
  {
    hide Lex, Lead, LeadParams, TokenAt, SgrParam, CloseAt, Scanned;
    var j := i;
    params := [];
    ghost var toks: seq<Piece> := [];
    ScanStarts(v, s, i);
    ScanBounds(v, s, i, j, params, toks);
    while Opens(s[j..])
      invariant i <= j <= |s| && Scanned(v, s, i, j, params, toks)
      decreases |s| - j
    {
      TokenAtIs(v, s[j..]);
      var end := CloseAt(s[j..][2..], WINDOW);
      if end < 0 {
        break;
      }
      var param := SgrParam(v, s[j..][2..2 + end]);
      if param.None? {
        break;
      }
      ScanPasses(v, s, i, j, params, toks);
      toks := toks + [Tok(s[j..j + end + 4], param.value)];
      params := params + [param.value];
      j := j + end + 4;
      ScanBounds(v, s, i, j, params, toks);
    }
    TokenOpens(v, s[j..]);
    ScanEnds(v, s, i, j, params, toks);
    ScanBounds(v, s, i, j, params, toks);
    next := j;
  }

  lemma ScanBounds(v: Vocab, s: string, i: nat, j: nat, params: seq<string>, toks: seq<Piece>)
    requires Scanned(v, s, i, j, params, toks)
    ensures i <= j <= |s| && (params == [] <==> j == i)
  {
  }

  lemma NoOpening(v: Vocab, s: string)
    requires forall i | 0 <= i < |s| :: !Opens(s[i..])
    ensures Plain(Lex(v, s)) == s && Coloured(Lex(v, s)) == s && !HasToken(Lex(v, s))
    decreases |s|
  {
    if s != [] {
      assert s[0..] == s;
      forall i | 0 <= i < |s[1..]| ensures !Opens(s[1..][i..]) {
        assert s[1..][i..] == s[i + 1..];
      }
      NoOpening(v, s[1..]);
      assert Lex(v, s)[1..] == Lex(v, s[1..]);
      assert s == [s[0]] + s[1..];
    }
  }

  /** What is still to come after the output so far. */
  ghost predicate Progress(enabled: bool, emitted: bool, all: seq<Piece>, out: string, rest: seq<Piece>) {
    if enabled then Coloured(all) == out + Coloured(rest) && (HasToken(all) <==> emitted || HasToken(rest))
    else Plain(all) == out + Plain(rest)
  }

  lemma PassRun(enabled: bool, emitted: bool, all: seq<Piece>, out: string, rest: seq<Piece>)
    requires Progress(enabled, emitted, all, out, rest) && rest != [] && rest[0].Tok?
    ensures Lead(rest) <= |rest|
    ensures Progress(enabled, enabled || emitted, all,
                     if enabled then out + Sgr(LeadParams(rest)) else out, rest[Lead(rest)..])
  {
    PlainSkipsRun(rest);
    Assoc(out, Sgr(LeadParams(rest)), Coloured(rest[Lead(rest)..]));
  }

  lemma PassShown(enabled: bool, emitted: bool, all: seq<Piece>, out: string, p: Piece, rest: seq<Piece>)
    requires Progress(enabled, emitted, all, out, [p] + rest) && !p.Tok?
    ensures Progress(enabled, emitted, all, out + Shown(p), rest)
  {
    hide Coloured, Plain, HasToken;
    ShownHead(p, rest);
    Assoc(out, Shown(p), Coloured(rest));
    Assoc(out, Shown(p), Plain(rest));
  }

  lemma ShownHead(p: Piece, rest: seq<Piece>)
    requires !p.Tok?
    ensures Coloured([p] + rest) == Shown(p) + Coloured(rest)
    ensures Plain([p] + rest) == Shown(p) + Plain(rest)
    ensures HasToken([p] + rest) <==> HasToken(rest)
  {
    var ps := [p] + rest;
    assert ps[1..] == rest;
    assert forall i | 0 <= i < |rest| :: ps[i + 1] == rest[i];
  }

  /** One turn of the render loop: a whole token run, a literal "{{", or one character. */
  method RenderTurn(v: Vocab, s: string, enabled: bool, ghost all: seq<Piece>, i: nat, out: string, emitted: bool)
    returns (j: nat, more: string, emits: bool)
    requires i < |s| && Progress(enabled, emitted, all, out, Lex(v, s[i..])) && (emitted ==> enabled)
    ensures i < j <= |s| && (emits ==> enabled)
    ensures Progress(enabled, emits, all, more, Lex(v, s[j..]))
  {
    hide Lex, Progress, Sgr, TokenAt, Lead;
    j, more, emits := i, out, emitted;
    LexAt(v, s, i);
    if Opens(s[i..]) {
      var params, next := ScanTokenRun(v, s, i);
      if |params| > 0 {
        PassRun(enabled, emitted, all, out, Lex(v, s[i..]));
        if enabled {
          more := out + Sgr(params);
          emits := true;
        }
        j := next;
        return;
      }
      hide LeadParams;
      NoParamsNoToken(v, s, i);
      PassShown(enabled, emitted, all, out, Pair, Lex(v, s[i + 2..]));
      more := out + "{{";
      j := i + 2;
      return;
    }
    PassShown(enabled, emitted, all, out, Chr(s[i]), Lex(v, s[i + 1..]));
    more := out + [s[i]];
    j := i + 1;
  }

  lemma NoParamsNoToken(v: Vocab, s: string, i: nat)
    requires i < |s| && Opens(s[i..]) && LeadParams(Lex(v, s[i..])) == []
    ensures TokenAt(v, s[i..]).None?
  {
    LexAt(v, s, i);
  }

  /** Render: the fast path, then one pass over the text, then the closing reset. */
  method Render(v: Vocab, s: string, enabled: bool) returns (out: string)
    ensures out == RenderSpec(v, s, enabled)
  {
    if forall i | 0 <= i < |s| :: !Opens(s[i..]) {
      hide Lex, Coloured, Plain, HasToken;
      NoOpening(v, s);
      return s;
    }
    hide Lex, Progress, Coloured, Plain, HasToken, Opens;
    out := "";
    var emitted := false;
    var i := 0;
    ghost var all := Lex(v, s);
    assert s[0..] == s;
    while i < |s|
      invariant 0 <= i <= |s| && (emitted ==> enabled)
      invariant Progress(enabled, emitted, all, out, Lex(v, s[i..]))
      decreases |s| - i
    {
      i, out, emitted := RenderTurn(v, s, enabled, all, i, out, emitted);
    }
    assert s[i..] == [];
    ProgressEnd(v, enabled, emitted, all, out);
    if emitted && !EndsWith(out, RESET_SGR) {
      out := out + RESET_SGR;
    }
  }

  lemma ProgressEnd(v: Vocab, enabled: bool, emitted: bool, all: seq<Piece>, out: string)
    requires Progress(enabled, emitted, all, out, Lex(v, []))
    ensures if enabled then out == Coloured(all) && (HasToken(all) <==> emitted) else out == Plain(all)
  {
  }
}
