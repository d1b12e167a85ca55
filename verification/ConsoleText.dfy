/**
  Measuring and truncating marked-up text in terminal cells.  Rune widths and the right-to-left test are
  parameters; the isolate controls are those of sections 2.4 and 2.5 of UAX #9.
*/
module ConsoleText {
  import opened Basics
  import opened ColorMarkup
  import opened ColorRender
  import opened ColorSeams

  const FSI: char := '\U{2068}'
  const PDI: char := '\U{2069}'
  const LRM: char := '\U{200E}'
  const ELLIPSIS: char := '\U{2026}'

  datatype Metrics = Metrics(width: char -> nat, rtl: char -> bool)

  ghost predicate Cells(m: Metrics) {
    && (forall c: char :: m.width(c) <= 2)
    && m.width('{') == 1 && m.width(' ') == 1 && m.width(ELLIPSIS) == 1
    && m.width(FSI) == 0 && m.width(PDI) == 0 && m.width(LRM) == 0
  }

  /** Such metrics exist: controls take no cell, wide runes two, everything else one. */
  const PLAIN_METRICS := Metrics(
    c => if c == FSI || c == PDI || c == LRM then 0 else if '\U{1100}' <= c <= '\U{115F}' then 2 else 1,
    c => '\U{590}' <= c <= '\U{5FF}')

  lemma MetricsExist()
    ensures Cells(PLAIN_METRICS)
  {
  }

  // ---- width ----------------------------------------------------------------------------------

  function PieceWidth(m: Metrics, p: Piece): nat {
    match p
    case Tok(_, _) => 0
    case Pair => 2
    case Chr(c) => m.width(c)
  }

  function Width(m: Metrics, ps: seq<Piece>): nat {
    if ps == [] then 0 else PieceWidth(m, ps[0]) + Width(m, ps[1..])
  }

  function VisibleWidth(m: Metrics, v: Vocab, s: string): nat { Width(m, Lex(v, s)) }

  /** The plain rune-width sum of a text without markup. */
  function TextWidth(m: Metrics, s: string): nat {
    if s == [] then 0 else m.width(s[0]) + TextWidth(m, s[1..])
  }

  lemma {:induction false} WidthSplit(m: Metrics, ps: seq<Piece>, qs: seq<Piece>)
    ensures Width(m, ps + qs) == Width(m, ps) + Width(m, qs)
  {
    if ps == [] {
      assert ps + qs == qs;
    } else {
      assert (ps + qs)[1..] == ps[1..] + qs;
      WidthSplit(m, ps[1..], qs);
    }
  }

  lemma {:induction false} TextWidthSplit(m: Metrics, a: string, b: string)
    ensures TextWidth(m, a + b) == TextWidth(m, a) + TextWidth(m, b)
  {
    if a == [] {
      assert a + b == b;
    } else {
      assert (a + b)[1..] == a[1..] + b;
      TextWidthSplit(m, a[1..], b);
    }
  }

  lemma {:induction false} WidthIsShownWidth(m: Metrics, ps: seq<Piece>)
    requires m.width('{') == 1
    ensures Width(m, ps) == TextWidth(m, Plain(ps))
  {
    if ps != [] {
      WidthIsShownWidth(m, ps[1..]);
      TextWidthSplit(m, Shown(ps[0]), Plain(ps[1..]));
      assert TextWidth(m, "{{") == 2 by {
        assert "{{"[1..] == "{" && "{"[1..] == [];
      }
    }
  }

  /** The measurer agrees with the stripper on every text. */
  lemma MeasureAgreesWithStrip(m: Metrics, v: Vocab, s: string)
    requires m.width('{') == 1
    ensures VisibleWidth(m, v, s) == TextWidth(m, Strip(v, s))
  {
    WidthIsShownWidth(m, Lex(v, s));
  }

  lemma WidthOne(m: Metrics, ps: seq<Piece>, p: Piece)
    ensures Width(m, ps + [p]) == Width(m, ps) + PieceWidth(m, p)
  {
    WidthSplit(m, ps, [p]);
  }

  /** The width still to be counted from an index on. */
  function Remaining(m: Metrics, v: Vocab, s: string, i: nat): nat
    requires i <= |s|
  {
    VisibleWidth(m, v, s[i..])
  }

  lemma RemainingAll(m: Metrics, v: Vocab, s: string)
    ensures Remaining(m, v, s, 0) == VisibleWidth(m, v, s) && Remaining(m, v, s, |s|) == 0
  {
    assert s[0..] == s && s[|s|..] == [];
  }

  lemma RemainingShown(m: Metrics, v: Vocab, s: string, i: nat)
    requires i < |s| && (Opens(s[i..]) ==> LeadParams(Lex(v, s[i..])) == [])
    ensures Opens(s[i..]) ==> i + 2 <= |s| && Remaining(m, v, s, i) == 2 + Remaining(m, v, s, i + 2)
    ensures !Opens(s[i..]) ==> Remaining(m, v, s, i) == m.width(s[i]) + Remaining(m, v, s, i + 1)
  {
    hide Lex, TokenAt, LeadParams;
    LexAt(v, s, i);
    if Opens(s[i..]) {
      NoParamsNoToken(v, s, i);
    }
  }

  lemma RemainingRun(m: Metrics, v: Vocab, s: string, i: nat, next: nat)
    requires i <= |s| && next <= |s| && Lead(Lex(v, s[i..])) <= |Lex(v, s[i..])|
    requires Lex(v, s[next..]) == Lex(v, s[i..])[Lead(Lex(v, s[i..]))..]
    ensures Remaining(m, v, s, next) == Remaining(m, v, s, i)
  {
    hide Lex, Lead;
    RunHasNoWidth(m, Lex(v, s[i..]));
  }

  method MeasureVisible(m: Metrics, v: Vocab, s: string) returns (w: nat)
    ensures w == VisibleWidth(m, v, s)
  {
    hide Lex, Lead, LeadParams, TokenAt, Remaining, VisibleWidth;
    w := 0;
    var i := 0;
    RemainingAll(m, v, s);
    while i < |s|
      invariant 0 <= i <= |s|
      invariant VisibleWidth(m, v, s) == w + Remaining(m, v, s, i)
      decreases |s| - i
    {
      if Opens(s[i..]) {
        var params, next := ScanTokenRun(v, s, i);
        if |params| > 0 {
          RemainingRun(m, v, s, i, next);
          i := next;
          continue;
        }
        RemainingShown(m, v, s, i);
        w := w + 2;
        i := i + 2;
        continue;
      }
      RemainingShown(m, v, s, i);
      w := w + m.width(s[i]);
      i := i + 1;
    }
  }

  lemma {:induction false} RunHasNoWidth(m: Metrics, ps: seq<Piece>)
    ensures Lead(ps) <= |ps| && Width(m, ps[Lead(ps)..]) == Width(m, ps)
  {
    if ps != [] && ps[0].Tok? {
      RunHasNoWidth(m, ps[1..]);
      assert ps[1..][Lead(ps[1..])..] == ps[Lead(ps)..];
    }
  }

  // ---- truncation -----------------------------------------------------------------------------

  /** How many pieces fit in `limit` cells: everything up to the first piece that does not. */
  function Keep(m: Metrics, ps: seq<Piece>, limit: nat): nat {
    if ps == [] || PieceWidth(m, ps[0]) > limit then 0
    else 1 + Keep(m, ps[1..], limit - PieceWidth(m, ps[0]))
  }

  /** Whether a colour is on after these pieces: the last token was not a reset. */
  function ColourOpen(ps: seq<Piece>): bool {
    if ps == [] then false
    else if ps[|ps| - 1].Tok? then ps[|ps| - 1].param != "0"
    else ColourOpen(ps[..|ps| - 1])
  }

  function IsolateStep(d: nat, p: Piece): nat {
    if p == Chr(FSI) then d + 1 else if p == Chr(PDI) && d > 0 then d - 1 else d
  }

  /** How many isolates are open after these pieces; a stray PDI closes nothing. */
  function Isolates(ps: seq<Piece>): nat {
    if ps == [] then 0 else IsolateStep(Isolates(ps[..|ps| - 1]), ps[|ps| - 1])
  }

  function Repeat(c: char, n: nat): string { seq(n, _ => c) }

  /** What a cut appends: a reset if a colour is on, the ellipsis, and a PDI per open isolate. */
  function Closing(kept: seq<Piece>): string {
    Tail(ColourOpen(kept), Isolates(kept))
  }

  function Truncate(m: Metrics, v: Vocab, s: string, cells: int): string {
    if cells <= 0 then ""
    else
      var ps := Lex(v, s);
      var k := Keep(m, ps, cells - 1);
      KeepBounds(m, ps, cells - 1);
      if k == |ps| then s else Text(ps[..k]) + Closing(ps[..k])
  }

  lemma {:induction false} KeepBounds(m: Metrics, ps: seq<Piece>, limit: nat)
    ensures Keep(m, ps, limit) <= |ps|
    ensures Width(m, ps[..Keep(m, ps, limit)]) <= limit
    ensures Keep(m, ps, limit) < |ps| ==>
              Width(m, ps[..Keep(m, ps, limit)]) + PieceWidth(m, ps[Keep(m, ps, limit)]) > limit
  {
    if ps != [] && PieceWidth(m, ps[0]) <= limit {
      var rest := limit - PieceWidth(m, ps[0]);
      KeepBounds(m, ps[1..], rest);
      var k := Keep(m, ps[1..], rest);
      assert ps[..k + 1] == [ps[0]] + ps[1..][..k];
      assert ([ps[0]] + ps[1..][..k])[1..] == ps[1..][..k];
    } else {
      assert ps[..0] == [];
    }
  }

  /** Keep is the place where the running width first exceeds the limit. */
  lemma {:induction false} KeepIs(m: Metrics, ps: seq<Piece>, limit: nat, k: nat)
    requires k <= |ps| && Width(m, ps[..k]) <= limit
    requires k < |ps| ==> Width(m, ps[..k]) + PieceWidth(m, ps[k]) > limit
    ensures Keep(m, ps, limit) == k
  {
    if k == 0 {
      assert ps[..0] == [];
    } else {
      assert ps[..k][1..] == ps[1..][..k - 1];
      KeepIs(m, ps[1..], limit - PieceWidth(m, ps[0]), k - 1);
    }
  }

  // ---- the truncation loop --------------------------------------------------------------------

  /** What the loop's counters hold after the first k pieces. */
  datatype Counters = Counters(width: nat, isolates: nat, colour: bool)

  function CountersOf(m: Metrics, ps: seq<Piece>): Counters {
    Counters(Width(m, ps), Isolates(ps), ColourOpen(ps))
  }

  function Count(m: Metrics, f: Counters, p: Piece): Counters {
    Counters(f.width + PieceWidth(m, p), IsolateStep(f.isolates, p), if p.Tok? then p.param != "0" else f.colour)
  }

  lemma CountNext(m: Metrics, ps: seq<Piece>, k: nat)
    requires k < |ps|
    ensures CountersOf(m, ps[..k + 1]) == Count(m, CountersOf(m, ps[..k]), ps[k])
  {
    var kept := ps[..k + 1];
    assert kept[..k] == ps[..k] && kept[k] == ps[k] && kept == ps[..k] + [ps[k]];
    WidthOne(m, ps[..k], ps[k]);
  }

  /** Passing a token run costs nothing, and its last parameter decides the colour. */
  lemma {:induction false} CountRun(m: Metrics, ps: seq<Piece>, k: nat)
    requires k < |ps| && ps[k].Tok?
    ensures var (n, params, f) := (Lead(ps[k..]), LeadParams(ps[k..]), CountersOf(m, ps[..k]));
            && 0 < n == |params| && k + n <= |ps|
            && CountersOf(m, ps[..k + n]) == Counters(f.width, f.isolates, params[n - 1] != "0")
    decreases |ps| - k
  {
    hide CountersOf;
    LeadBounds(ps[k..]);
    CountNext(m, ps, k);
    assert ps[k..][1..] == ps[k + 1..] && ps[k..][0] == ps[k];
    if k + 1 < |ps| && ps[k + 1].Tok? {
      CountRun(m, ps, k + 1);
    } else {
      assert LeadParams(ps[k + 1..]) == [];
    }
  }

  /** The loop invariant: index i of the text is the start of piece k, and the counters are right. */
  ghost predicate At(m: Metrics, v: Vocab, s: string, cells: int, i: nat, k: nat, f: Counters) {
    && 0 < cells && i <= |s| && k <= |Lex(v, s)|
    && Lex(v, s[i..]) == Lex(v, s)[k..]
    && CountersOf(m, Lex(v, s)[..k]) == f && f.width < cells
  }

  lemma AtRun(m: Metrics, v: Vocab, s: string, cells: int, i: nat, k: nat, f: Counters, next: nat)
    requires At(m, v, s, cells, i, k, f) && i <= next <= |s|
    requires LeadParams(Lex(v, s[i..])) != [] && Lead(Lex(v, s[i..])) <= |Lex(v, s[i..])|
    requires Lex(v, s[next..]) == Lex(v, s[i..])[Lead(Lex(v, s[i..]))..]
    ensures var params := LeadParams(Lex(v, s[i..]));
            At(m, v, s, cells, next, k + Lead(Lex(v, s[i..])),
              Counters(f.width, f.isolates, params[|params| - 1] != "0"))
  {
    hide Lex, CountersOf;
    var ps := Lex(v, s);
    CountRun(m, ps, k);
    assert ps[k..][Lead(ps[k..])..] == ps[k + Lead(ps[k..])..];
  }

  lemma AtShown(m: Metrics, v: Vocab, s: string, cells: int, i: nat, k: nat, f: Counters, p: Piece)
    requires At(m, v, s, cells, i, k, f) && i < |s|
    requires if Opens(s[i..]) then TokenAt(v, s[i..]).None? && p == Pair else p == Chr(s[i])
    ensures f.width + PieceWidth(m, p) >= cells ==> Truncate(m, v, s, cells) == s[..i] + Tail(f.colour, f.isolates)
    ensures f.width + PieceWidth(m, p) < cells ==> At(m, v, s, cells, i + |TextOf(p)|, k + 1, Count(m, f, p))
  {
    LexAt(v, s, i);
    var ps := Lex(v, s);
    var rest := Lex(v, s[i + |TextOf(p)|..]);
    assert ps[k..] == [p] + rest;
    assert ps[k..][0] == ps[k] && ps[k..][1..] == ps[k + 1..] && ([p] + rest)[1..] == rest;
    CountNext(m, ps, k);
    if f.width + PieceWidth(m, p) >= cells {
      CutHere(m, v, s, cells, i, k, f);
    }
  }

  lemma CutHere(m: Metrics, v: Vocab, s: string, cells: int, i: nat, k: nat, f: Counters)
    requires At(m, v, s, cells, i, k, f) && k < |Lex(v, s)|
    requires f.width + PieceWidth(m, Lex(v, s)[k]) >= cells
    ensures Truncate(m, v, s, cells) == s[..i] + Tail(f.colour, f.isolates)
  {
    hide Lex;
    KeepIs(m, Lex(v, s), cells - 1, k);
    PrefixText(v, s, i, k);
  }

  lemma PrefixText(v: Vocab, s: string, i: nat, k: nat)
    requires i <= |s| && k <= |Lex(v, s)| && Lex(v, s[i..]) == Lex(v, s)[k..]
    ensures Text(Lex(v, s)[..k]) == s[..i]
  {
    hide Lex, Text;
    SplitRest(v, s, k);
    LexIsText(v, s[i..]);
    assert s == s[..i] + s[i..];
    SamePrefix(Text(Lex(v, s)[..k]), s[..i], s[i..], s);
  }

  lemma SamePrefix(a: string, c: string, b: string, whole: string)
    requires a + b == whole == c + b
    ensures a == c
  {
    assert |a| == |c|;
    assert a == whole[..|a|] && c == whole[..|a|];
  }

  lemma AtEnd(m: Metrics, v: Vocab, s: string, cells: int, k: nat, f: Counters)
    requires At(m, v, s, cells, |s|, k, f)
    ensures Truncate(m, v, s, cells) == s
  {
    var ps := Lex(v, s);
    assert s[|s|..] == [] && ps[k..] == [];
    assert ps[..k] == ps;
    KeepIs(m, ps, cells - 1, k);
  }

  /** The cut closure of the loop. */
  function Tail(colourOpen: bool, isolateDepth: nat): string {
    (if colourOpen then RESET_TOKEN else "") + [ELLIPSIS] + Repeat(PDI, isolateDepth)
  }

  /** One turn of the loop: either the next piece does not fit and the text is cut here, or the index
      and the counters move past it.  The builder only ever holds what was read, s[..i]. */
  method TruncateTurn(m: Metrics, v: Vocab, s: string, cells: int, i: nat, f: Counters, ghost k: nat)
    returns (cut: bool, j: nat, g: Counters, ghost n: nat)
    requires At(m, v, s, cells, i, k, f) && i < |s|
    ensures cut ==> Truncate(m, v, s, cells) == s[..i] + Tail(f.colour, f.isolates)
    ensures !cut ==> i < j <= |s| && At(m, v, s, cells, j, n, g)
  {
    hide Lex, At, Lead, LeadParams, TokenAt, Truncate, Tail;
    var limit := cells - 1;
    cut, j, g, n := false, i, f, k;
    var params, next := [], i;
    if Opens(s[i..]) {
      params, next := ScanTokenRun(v, s, i);
    }
    if |params| > 0 {
      AtRun(m, v, s, cells, i, k, f, next);
      j, n := next, k + Lead(Lex(v, s[i..]));
      g := f.(colour := params[|params| - 1] != "0");
    } else if Opens(s[i..]) {
      NoParamsNoToken(v, s, i);
      AtShown(m, v, s, cells, i, k, f, Pair);
      cut := f.width + 2 > limit;
      j, n, g := i + 2, k + 1, f.(width := f.width + 2);
    } else {
      AtShown(m, v, s, cells, i, k, f, Chr(s[i]));
      var rw := m.width(s[i]);
      cut := f.width + rw > limit;
      var depth := f.isolates;
      if s[i] == FSI {
        depth := depth + 1;
      } else if s[i] == PDI && depth > 0 {
        depth := depth - 1;
      }
      j, n, g := i + 1, k + 1, f.(width := f.width + rw, isolates := depth);
    }
  }

  method TruncateVisible(m: Metrics, v: Vocab, s: string, cells: int) returns (out: string)
    ensures out == Truncate(m, v, s, cells)
  {
    if cells <= 0 {
      return "";
    }
    hide Lex, At, Truncate, Tail;
    var b := "";
    var f := Counters(0, 0, false);
    var i := 0;
    ghost var k: nat := 0;
    while i < |s|
      invariant 0 <= i <= |s| && b == s[..i]
      invariant At(m, v, s, cells, i, k, f)
      decreases |s| - i
    {
      var cut, j, g, n := TruncateTurn(m, v, s, cells, i, f, k);
      if cut {
        return b + Tail(f.colour, f.isolates);
      }
      b := b + s[i..j];
      i, f, k := j, g, n;
    }
    AtEnd(m, v, s, cells, k, f);
    out := b;
  }
}
