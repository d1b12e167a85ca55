/**
  Where a text is cut and what the cut appends, in terms of its pieces alone: the longest run of pieces that leaves
  a cell for the ellipsis; a reset iff the last token kept is not one; and a closer for every isolate kept open.
*/
module ConsoleCuts {
  import opened Basics
  import opened ColorMarkup
  import opened ColorSeams
  import opened ConsoleText
  import opened ConsoleFit

  // ---- what is open after some pieces ---------------------------------------------------------

  /** The last token of these pieces, if there is one, turns a colour on. */
  ghost predicate LastTokenColours(ps: seq<Piece>) {
    exists i :: 0 <= i < |ps| && ps[i].Tok? && ps[i].param != "0" && forall j | i < j < |ps| :: !ps[j].Tok?
  }

  lemma {:induction false} ColourOpenMeans(ps: seq<Piece>)
    ensures ColourOpen(ps) <==> LastTokenColours(ps)
  {
    if ps != [] {
      var (init, p) := (ps[..|ps| - 1], ps[|ps| - 1]);
      ColourOpenMeans(init);
      if p.Tok? && p.param != "0" {
        assert LastTokenColours(ps);
      }
      if LastTokenColours(init) && !p.Tok? {
        var i :| 0 <= i < |init| && init[i].Tok? && init[i].param != "0" && forall j | i < j < |init| :: !init[j].Tok?;
        assert ps[i].Tok? && ps[i].param != "0";
      }
      if LastTokenColours(ps) {
        var i :| 0 <= i < |ps| && ps[i].Tok? && ps[i].param != "0" && forall j | i < j < |ps| :: !ps[j].Tok?;
        if i < |init| {
          assert init[i].Tok? && init[i].param != "0";
        }
      }
    }
  }

  /** How many more isolates these pieces open than close. */
  function Excess(ps: seq<Piece>): int {
    var begun: int := multiset(ps)[Chr('\U{2068}')];
    begun - multiset(ps)[Chr('\U{2069}')]
  }

  /** d isolates are open: as many as the worst stretch up to the end opens without closing. */
  ghost predicate OpenIsolates(ps: seq<Piece>, d: nat) {
    && (forall j | 0 <= j <= |ps| :: Excess(ps[j..]) <= d)
    && exists j :: 0 <= j <= |ps| && Excess(ps[j..]) == d
  }

  lemma ExcessNext(ps: seq<Piece>, p: Piece)
    ensures Excess(ps + [p]) == Excess(ps) + (if p == Chr(FSI) then 1 else 0) - (if p == Chr(PDI) then 1 else 0)
  {
  }

  lemma {:induction false} IsolatesMeans(ps: seq<Piece>)
    ensures OpenIsolates(ps, Isolates(ps))
  {
    var d := Isolates(ps);
    assert ps[|ps|..] == [] && Excess(ps[|ps|..]) == 0;
    if ps != [] {
      var (n, init, p) := (|ps| - 1, ps[..|ps| - 1], ps[|ps| - 1]);
      IsolatesMeans(init);
      forall j | 0 <= j <= n ensures Excess(ps[j..]) == Excess(init[j..] + [p]) {
        assert ps[j..] == init[j..] + [p];
      }
      forall j | 0 <= j <= |ps| ensures Excess(ps[j..]) <= d {
        if j <= n {
          ExcessNext(init[j..], p);
        }
      }
      var j :| 0 <= j <= |init| && Excess(init[j..]) == Isolates(init);
      ExcessNext(init[j..], p);
      assert Excess(ps[j..]) == Excess(init[j..] + [p]);
      assert Excess(ps[j..]) == d || (d == 0 && Excess(ps[|ps|..]) == d);
    }
  }

  // ---- the cut --------------------------------------------------------------------------------

  /** A text that leaves a cell to spare is kept whole. */
  lemma WholeMeans(m: Metrics, v: Vocab, s: string, cells: int)
    ensures cells <= 0 ==> Truncate(m, v, s, cells) == ""
    ensures VisibleWidth(m, v, s) < cells ==> Truncate(m, v, s, cells) == s
  {
    if VisibleWidth(m, v, s) < cells {
      var ps := Lex(v, s);
      assert ps[..|ps|] == ps;
      KeepIs(m, ps, cells - 1, |ps|);
    }
  }

  /** Any other text is cut: it keeps the pieces up to the first that would take the last cell, and appends a reset,
      an ellipsis and the closers. */
  lemma CutMeans(m: Metrics, v: Vocab, s: string, cells: int) returns (k: nat, d: nat)
    requires 0 < cells <= VisibleWidth(m, v, s)
    ensures var ps := Lex(v, s);
            && k < |ps| && Width(m, ps[..k]) < cells <= Width(m, ps[..k + 1]) && OpenIsolates(ps[..k], d)
            && Text(ps[..k]) <= s
            && Truncate(m, v, s, cells) ==
               Text(ps[..k]) + (if LastTokenColours(ps[..k]) then "{{RESET}}" else "") + ['\U{2026}']
                 + Repeat('\U{2069}', d)
  {
    hide Lex, Isolates, ColourOpen, LastTokenColours, OpenIsolates;
    var ps := Lex(v, s);
    k := Keep(m, ps, cells - 1);
    KeepBounds(m, ps, cells - 1);
    assert ps[..|ps|] == ps;
    d := Isolates(ps[..k]);
    IsolatesMeans(ps[..k]);
    ColourOpenMeans(ps[..k]);
    assert ps[..k + 1] == ps[..k] + [ps[k]];
    WidthOne(m, ps[..k], ps[k]);
    LexIsText(v, s);
    assert ps == ps[..k] + ps[k..];
    TextSplit(ps[..k], ps[k..]);
  }
}
