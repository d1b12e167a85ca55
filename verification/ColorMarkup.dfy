/**
  The {{TOKEN}} colour markup: one scanner, and the renderer and stripper built on it.

  Text is a sequence of code points.  The scan window is counted in UTF-8 bytes, as the source counts it.
  The vocabulary is a parameter; ColorVocabulary holds the real one.
*/
module ColorMarkup {
  import opened Basics
  import Decimal

  type Vocab = map<string, string>

  const ESC: char := '\U{1B}'
  const WINDOW: nat := 32
  const RESET_TOKEN: string := "{{RESET}}"

  // ---- token names ----------------------------------------------------------------------------

  /** unicode.IsSpace. */
  predicate IsSpace(c: char) {
    || '\t' <= c <= '\r' || c == ' ' || c == '\U{85}' || c == '\U{A0}' || c == '\U{1680}'
    || '\U{2000}' <= c <= '\U{200A}' || c == '\U{2028}' || c == '\U{2029}' || c == '\U{202F}'
    || c == '\U{205F}' || c == '\U{3000}'
  }

  /** unicode.ToUpper, as far as it can produce an ASCII letter: besides a-z, only the dotless i and the
      long s have an ASCII capital. */
  function Upper(c: char): char {
    if 'a' <= c <= 'z' then c - 'a' + 'A'
    else if c == '\U{131}' then 'I'
    else if c == '\U{17F}' then 'S'
    else c
  }

  function UpperAll(s: string): string { seq(|s|, i requires 0 <= i < |s| => Upper(s[i])) }

  function TrimLeft(s: string): string {
    if s != [] && IsSpace(s[0]) then TrimLeft(s[1..]) else s
  }

  function SgrParam(v: Vocab, name: string): Option<string> {
    var key := UpperAll(TrimEnd(TrimLeft(name), IsSpace));
    if key in v then Some(v[key]) else None
  }

  /** What the renderer's safety needs of a vocabulary: names without braces, numeric params, RESET = 0. */
  predicate Legal(v: Vocab) {
    && (forall k | k in v :: Decimal.IsNumeral(v[k]) && forall i | 0 <= i < |k| :: k[i] != '{' && k[i] != '}')
    && "RESET" in v && v["RESET"] == "0"
  }

  // ---- the scanner ----------------------------------------------------------------------------

  function Utf8Len(c: char): nat {
    if c < '\U{80}' then 1 else if c < '\U{800}' then 2 else if c < '\U{10000}' then 3 else 4
  }

  /** Where the first "}}" of t starts, if no more than `room` bytes precede it; -1 otherwise. */
  function CloseAt(t: string, room: int): int {
    if |t| < 2 || room < 0 then -1
    else if t[0] == '}' && t[1] == '}' then 0
    else
      var r := CloseAt(t[1..], room - Utf8Len(t[0]));
      if r < 0 then -1 else r + 1
  }

  lemma {:induction false} CloseAtInside(t: string, room: int)
    ensures CloseAt(t, room) >= 0 ==>
              && CloseAt(t, room) + 2 <= |t|
              && t[CloseAt(t, room)] == '}' && t[CloseAt(t, room) + 1] == '}'
  {
    if |t| >= 2 && room >= 0 && !(t[0] == '}' && t[1] == '}') {
      CloseAtInside(t[1..], room - Utf8Len(t[0]));
    }
  }

  predicate Opens(s: string) { |s| >= 2 && s[0] == '{' && s[1] == '{' }

  /** The known token s begins with: its length and its SGR parameter. */
  function TokenAt(v: Vocab, s: string): (r: Option<(nat, string)>)
    ensures r.Some? ==> 4 <= r.value.0 <= |s|
  {
    if !Opens(s) then None
    else
      var n := CloseAt(s[2..], WINDOW);
      CloseAtInside(s[2..], WINDOW);
      if n < 0 then None
      else
        var p := SgrParam(v, s[2..2 + n]);
        if p.Some? then Some((n + 4, p.value)) else None
  }

  lemma TokenOpens(v: Vocab, t: string)
    ensures TokenAt(v, t).Some? ==> Opens(t)
  {
  }

  /** A text is a sequence of known tokens, literal "{{" pairs and plain characters. */
  datatype Piece = Tok(text: string, param: string) | Pair | Chr(c: char)

  function Lex(v: Vocab, s: string): seq<Piece>
    decreases |s|
  {
    if s == [] then []
    else if Opens(s) then
      var t := TokenAt(v, s);
      if t.Some? then [Tok(s[..t.value.0], t.value.1)] + Lex(v, s[t.value.0..])
      else [Pair] + Lex(v, s[2..])
    else [Chr(s[0])] + Lex(v, s[1..])
  }

  /** What the edge shows for a piece, and the source text of a piece. */
  function Shown(p: Piece): string {
    match p
    case Tok(_, _) => ""
    case Pair => "{{"
    case Chr(c) => [c]
  }

  function TextOf(p: Piece): string {
    match p
    case Tok(text, _) => text
    case Pair => "{{"
    case Chr(c) => [c]
  }

  function Plain(ps: seq<Piece>): string {
    if ps == [] then "" else Shown(ps[0]) + Plain(ps[1..])
  }

  function Text(ps: seq<Piece>): string {
    if ps == [] then "" else TextOf(ps[0]) + Text(ps[1..])
  }

  /** How many tokens a piece sequence starts with, and their params. */
  function Lead(ps: seq<Piece>): nat {
    if ps != [] && ps[0].Tok? then 1 + Lead(ps[1..]) else 0
  }

  function LeadParams(ps: seq<Piece>): seq<string> {
    if ps != [] && ps[0].Tok? then [ps[0].param] + LeadParams(ps[1..]) else []
  }

  lemma {:induction false} LeadBounds(ps: seq<Piece>)
    ensures Lead(ps) <= |ps| && |LeadParams(ps)| == Lead(ps)
  {
    if ps != [] && ps[0].Tok? {
      LeadBounds(ps[1..]);
    }
  }

  lemma {:induction false} PlainSkipsRun(ps: seq<Piece>)
    ensures Lead(ps) <= |ps| && Plain(ps) == Plain(ps[Lead(ps)..])
  {
    if ps != [] && ps[0].Tok? {
      PlainSkipsRun(ps[1..]);
      assert ps[1..][Lead(ps[1..])..] == ps[Lead(ps)..];
      assert Shown(ps[0]) == "" && "" + Plain(ps[1..]) == Plain(ps[1..]);
    }
  }

  /** One step of the tokenizer, at an index. */
  lemma LexAt(v: Vocab, s: string, i: nat)
    requires i < |s|
    ensures Opens(s[i..]) && TokenAt(v, s[i..]).Some? ==>
              var (n, p) := TokenAt(v, s[i..]).value;
              i + n <= |s| && Lex(v, s[i..]) == [Tok(s[i..i + n], p)] + Lex(v, s[i + n..])
    ensures Opens(s[i..]) && TokenAt(v, s[i..]).None? ==>
              i + 2 <= |s| && Lex(v, s[i..]) == [Pair] + Lex(v, s[i + 2..])
    ensures !Opens(s[i..]) ==> Lex(v, s[i..]) == [Chr(s[i])] + Lex(v, s[i + 1..])
  {
    hide Lex, TokenAt;
    var t := s[i..];
    LexUnfolds(v, t);
    assert t[1..] == s[i + 1..];
    if Opens(t) {
      assert t[2..] == s[i + 2..];
      if TokenAt(v, t).Some? {
        var (n, _) := TokenAt(v, t).value;
        assert t[n..] == s[i + n..] && t[..n] == s[i..i + n];
      }
    }
  }

  lemma LexUnfolds(v: Vocab, s: string)
    requires s != []
    ensures Opens(s) && TokenAt(v, s).Some? ==>
              Lex(v, s) == [Tok(s[..TokenAt(v, s).value.0], TokenAt(v, s).value.1)] + Lex(v, s[TokenAt(v, s).value.0..])
    ensures Opens(s) && TokenAt(v, s).None? ==> Lex(v, s) == [Pair] + Lex(v, s[2..])
    ensures !Opens(s) ==> Lex(v, s) == [Chr(s[0])] + Lex(v, s[1..])
  {
    hide TokenAt, Opens;
  }

  lemma {:induction false} LexIsText(v: Vocab, s: string)
    ensures Text(Lex(v, s)) == s
    decreases |s|
  {
    if s == [] {
    } else if Opens(s) {
      var t := TokenAt(v, s);
      var n := if t.Some? then t.value.0 else 2;
      LexIsText(v, s[n..]);
      assert s == s[..n] + s[n..];
      assert t.None? ==> s[..2] == "{{";
    } else {
      LexIsText(v, s[1..]);
      assert s == [s[0]] + s[1..];
    }
  }

  // ---- Render and Strip -----------------------------------------------------------------------

  function Join(ps: seq<string>): string {
    if ps == [] then "" else if |ps| == 1 then ps[0] else ps[0] + ";" + Join(ps[1..])
  }

  function Sgr(params: seq<string>): string { [ESC, '['] + Join(params) + "m" }

  const RESET_SGR: string := [ESC, '[', '0', 'm']

  /** Coloured output: each maximal token run becomes one SGR. */
  function Coloured(ps: seq<Piece>): string
    decreases |ps|
  {
    if ps == [] then ""
    else if ps[0].Tok? then
      LeadBounds(ps);
      Sgr(LeadParams(ps)) + Coloured(ps[Lead(ps)..])
    else Shown(ps[0]) + Coloured(ps[1..])
  }

  predicate HasToken(ps: seq<Piece>) { exists i :: 0 <= i < |ps| && ps[i].Tok? }

  predicate EndsWith(s: string, t: string) { |t| <= |s| && s[|s| - |t|..] == t }

  function RenderSpec(v: Vocab, s: string, enabled: bool): string {
    var ps := Lex(v, s);
    if !enabled then Plain(ps)
    else
      var out := Coloured(ps);
      if HasToken(ps) && !EndsWith(out, RESET_SGR) then out + RESET_SGR else out
  }

  function Strip(v: Vocab, s: string): string { Plain(Lex(v, s)) }
}
