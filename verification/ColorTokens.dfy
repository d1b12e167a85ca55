/**
  Which texts are tokens: the tokenizer's pieces in terms of the text alone.  A token is a pair of opening braces,
  a name of at most 32 bytes, and the first pair of closing braces after it; its name is known up to surrounding
  space and letter case.
*/
module ColorTokens {
  import opened Basics
  import opened ColorMarkup

  // ---- names ----------------------------------------------------------------------------------

  /** A name with the space around it taken off. */
  ghost predicate Trimmed(name: string, core: string) {
    exists l, r ::
      && name == l + core + r && (forall c | c in l + r :: IsSpace(c))
      && (core != [] ==> !IsSpace(core[0]) && !IsSpace(core[|core| - 1]))
  }

  predicate Capitals(core: string, key: string) {
    |key| == |core| && forall i | 0 <= i < |core| :: key[i] == Upper(core[i])
  }

  /** The vocabulary knows this name, by its capitals. */
  ghost predicate Knows(v: Vocab, name: string, param: string) {
    exists core, key :: Trimmed(name, core) && Capitals(core, key) && key in v && v[key] == param
  }

  lemma {:induction false} TrimLeftMeans(s: string) returns (l: string)
    ensures s == l + TrimLeft(s) && (forall c | c in l :: IsSpace(c))
            && (TrimLeft(s) != [] ==> !IsSpace(TrimLeft(s)[0]))
  {
    l := [];
    if s != [] && IsSpace(s[0]) {
      l := TrimLeftMeans(s[1..]);
      assert s == [s[0]] + s[1..];
      Assoc([s[0]], l, TrimLeft(s[1..]));
      l := [s[0]] + l;
    }
  }

  lemma {:induction false} TrimEndMeans(s: string, drop: char -> bool) returns (r: string)
    ensures var t := TrimEnd(s, drop);
            && s == t + r && (forall c | c in r :: drop(c)) && (t != [] ==> !drop(t[|t| - 1]) && t[0] == s[0])
  {
    r := [];
    if s != [] && drop(s[|s| - 1]) {
      r := TrimEndMeans(s[..|s| - 1], drop);
      assert s == s[..|s| - 1] + [s[|s| - 1]];
      Assoc(TrimEnd(s[..|s| - 1], drop), r, [s[|s| - 1]]);
      r := r + [s[|s| - 1]];
    }
  }

  lemma {:induction false} SpaceGoesLeft(l: string, x: string)
    requires forall c | c in l :: IsSpace(c)
    ensures TrimLeft(l + x) == TrimLeft(x)
  {
    if l == [] {
      assert l + x == x;
    } else {
      assert (l + x)[1..] == l[1..] + x && (l + x)[0] == l[0] && l[0] in l;
      SpaceGoesLeft(l[1..], x);
    }
  }

  lemma {:induction false} SpaceGoesRight(x: string, r: string)
    requires forall c | c in r :: IsSpace(c)
    ensures TrimEnd(x + r, IsSpace) == TrimEnd(x, IsSpace)
  {
    if r == [] {
      assert x + r == x;
    } else {
      var n := |r| - 1;
      assert (x + r)[..|x + r| - 1] == x + r[..n] && (x + r)[|x + r| - 1] == r[n] && r[n] in r;
      SpaceGoesRight(x, r[..n]);
    }
  }

  lemma TrimmedIs(name: string, core: string)
    ensures Trimmed(name, core) <==> core == TrimEnd(TrimLeft(name), IsSpace)
  {
    var l := TrimLeftMeans(name);
    var r := TrimEndMeans(TrimLeft(name), IsSpace);
    var t := TrimEnd(TrimLeft(name), IsSpace);
    Assoc(l, t, r);
    assert Trimmed(name, t) by {
      forall c | c in l + r ensures IsSpace(c) {
        assert c in l || c in r;
      }
    }
    if Trimmed(name, core) {
      TrimmedOnce(name, core);
    }
  }

  lemma TrimmedOnce(name: string, core: string)
    requires Trimmed(name, core)
    ensures core == TrimEnd(TrimLeft(name), IsSpace)
  {
    var l, r :| name == l + core + r && (forall c | c in l + r :: IsSpace(c))
                && (core != [] ==> !IsSpace(core[0]) && !IsSpace(core[|core| - 1]));
    forall c | c in l || c in r ensures IsSpace(c) {
      assert c in l + r;
    }
    Assoc(l, core, r);
    SpaceGoesLeft(l, core + r);
    if core == [] {
      assert core + r == r;
      SpaceGoesLeft(r, []);
      assert r + [] == r;
    } else {
      assert (core + r)[0] == core[0];
      SpaceGoesRight(core, r);
    }
  }

  /** Which names the vocabulary knows, and under what parameter. */
  lemma SgrParamMeans(v: Vocab, name: string, param: string)
    ensures SgrParam(v, name) == Some(param) <==> Knows(v, name, param)
  {
    hide Trimmed, Capitals, UpperAll;
    var t := TrimEnd(TrimLeft(name), IsSpace);
    TrimmedIs(name, t);
    CapitalsAre(t, UpperAll(t));
    if core, key :| Trimmed(name, core) && Capitals(core, key) && key in v && v[key] == param {
      TrimmedIs(name, core);
      CapitalsAre(core, key);
    }
  }

  lemma CapitalsAre(core: string, key: string)
    ensures Capitals(core, key) <==> key == UpperAll(core)
  {
    assert |UpperAll(core)| == |core| && forall i | 0 <= i < |core| :: UpperAll(core)[i] == Upper(core[i]);
  }

  /** Capitals: the ASCII small letters have theirs, every other ASCII character is its own; beyond ASCII only the
      dotless i and the long s have one in it. */
  lemma UpperMeans(c: char)
    ensures c >= '\U{80}' && Upper(c) < '\U{80}' <==> c in ['\U{131}', '\U{17F}']
    ensures Upper('\U{131}') == 'I' && Upper('\U{17F}') == 'S'
    ensures 'a' <= c <= 'z' ==> 'A' <= Upper(c) <= 'Z' && Upper(c) - 'A' == c - 'a'
    ensures c < '\U{80}' && !('a' <= c <= 'z') ==> Upper(c) == c
    ensures Upper(Upper(c)) == Upper(c)
  {
  }

  /** Space is what Unicode calls white space: in ASCII the blank and the five controls from tab to carriage return,
      and nineteen more. */
  lemma SpaceMeans(c: char)
    ensures IsSpace(c) <==>
            || c in [' ', '\t', '\n', '\U{0B}', '\U{0C}', '\r', '\U{85}', '\U{A0}', '\U{1680}']
            || c as int - 0x2000 in {0, 1, 2, 3, 4, 5, 6, 7, 8, 9, 10, 0x28, 0x29, 0x2F, 0x5F, 0x1000}
  {
  }

  /** The same text with some small letters as capitals. */
  predicate SameLetters(name: string, other: string) {
    && |other| == |name|
    && forall i | 0 <= i < |name| :: other[i] == name[i] || ('a' <= name[i] <= 'z' && other[i] == Upper(name[i]))
  }

  /** Neither surrounding space nor letter case matters to a name. */
  lemma NamesAreLoose(v: Vocab, name: string, other: string, l: string, r: string)
    requires (forall c | c in l + r :: IsSpace(c)) && SameLetters(name, other)
    ensures SgrParam(v, l + name + r) == SgrParam(v, name) == SgrParam(v, other)
  {
    hide SameLetters, IsSpace;
    forall c | c in l || c in r ensures IsSpace(c) {
      assert c in l + r;
    }
    Assoc(l, name, r);
    SpaceGoesLeft(l, name + r);
    TrimTail(name, r);
    LettersLeft(name, other);
    LettersEnd(TrimLeft(name), TrimLeft(other));
    SameCapitals(TrimEnd(TrimLeft(name), IsSpace), TrimEnd(TrimLeft(other), IsSpace));
  }

  lemma {:induction false} LettersLeft(name: string, other: string)
    requires SameLetters(name, other)
    ensures SameLetters(TrimLeft(name), TrimLeft(other))
  {
    if name != [] && IsSpace(name[0]) {
      LettersLeft(name[1..], other[1..]);
    }
  }

  lemma {:induction false} LettersEnd(name: string, other: string)
    requires SameLetters(name, other)
    ensures SameLetters(TrimEnd(name, IsSpace), TrimEnd(other, IsSpace))
  {
    if name != [] && IsSpace(name[|name| - 1]) {
      LettersEnd(name[..|name| - 1], other[..|name| - 1]);
    }
  }

  lemma SameCapitals(name: string, other: string)
    requires SameLetters(name, other)
    ensures UpperAll(name) == UpperAll(other)
  {
    forall i | 0 <= i < |name| ensures UpperAll(name)[i] == UpperAll(other)[i] {
      UpperMeans(name[i]);
    }
  }

  /** Space behind a name goes, whatever the space before it. */
  lemma {:induction false} TrimTail(name: string, r: string)
    requires forall c | c in r :: IsSpace(c)
    ensures TrimEnd(TrimLeft(name + r), IsSpace) == TrimEnd(TrimLeft(name), IsSpace)
  {
    if name == [] {
      assert name + r == r;
      SpaceGoesLeft(r, []);
      assert r + [] == r;
    } else if IsSpace(name[0]) {
      assert (name + r)[1..] == name[1..] + r;
      TrimTail(name[1..], r);
    } else {
      SpaceGoesRight(name, r);
    }
  }

  // ---- tokens ---------------------------------------------------------------------------------

  function Bytes(t: string): nat { if t == [] then 0 else Utf8Len(t[0]) + Bytes(t[1..]) }

  /** The length of a character in UTF-8: one byte holds 7 bits, n bytes hold 5n + 1. */
  lemma Utf8Means(c: char)
    ensures 1 <= Utf8Len(c) <= 4 && (Utf8Len(c) == 1 <==> c as int < 0x80)
    ensures Utf8Len(c) <= 2 <==> c as int < 0x800
    ensures Utf8Len(c) <= 3 <==> c as int < 0x1_0000
  {
  }

  predicate ClosesAt(t: string, i: int) { 0 <= i && i + 2 <= |t| && t[i] == '}' && t[i + 1] == '}' }

  /** The text starts with a pair of opening braces, this name, and the first pair of closing braces after them. */
  predicate Braced(t: string, name: string) {
    && |t| >= |name| + 4 && t[0] == t[1] == '{' && t[2..2 + |name|] == name
    && ClosesAt(t, 2 + |name|) && forall i | 2 <= i < 2 + |name| :: !ClosesAt(t, i)
  }

  /** A known token at the start of a text. */
  ghost predicate IsTokenAt(v: Vocab, t: string, name: string, param: string) {
    Braced(t, name) && Bytes(name) <= 32 && Knows(v, name, param)
  }

  lemma {:induction false} CloseAtFinds(t: string, room: int)
    ensures var n := CloseAt(t, room);
            n >= 0 ==> ClosesAt(t, n) && (forall i | 0 <= i < n :: !ClosesAt(t, i)) && Bytes(t[..n]) <= room
  {
    var n := CloseAt(t, room);
    if n > 0 {
      CloseAtFinds(t[1..], room - Utf8Len(t[0]));
      forall i | 0 <= i < n ensures !ClosesAt(t, i) {
        assert i > 0 ==> !ClosesAt(t[1..], i - 1);
      }
      assert ClosesAt(t[1..], n - 1);
      assert t[..n][0] == t[0] && t[..n][1..] == t[1..][..n - 1];
    }
  }

  lemma {:induction false} CloseAtMisses(t: string, room: int, n: nat)
    requires ClosesAt(t, n) && (forall i | 0 <= i < n :: !ClosesAt(t, i)) && Bytes(t[..n]) <= room
    ensures CloseAt(t, room) == n
  {
    if n > 0 {
      assert !ClosesAt(t, 0);
      assert t[..n][0] == t[0] && t[..n][1..] == t[1..][..n - 1];
      forall i | 0 <= i < n - 1 ensures !ClosesAt(t[1..], i) {
        assert !ClosesAt(t, i + 1);
      }
      CloseAtMisses(t[1..], room - Utf8Len(t[0]), n - 1);
    }
  }

  /** Where a text starts with a known token, how long it is and what its parameter is. */
  lemma TokenAtMeans(v: Vocab, t: string, n: nat, param: string)
    ensures TokenAt(v, t) == Some((n, param)) <==> exists name :: n == |name| + 4 && IsTokenAt(v, t, name, param)
  {
    hide SgrParam, Knows, CloseAt;
    if TokenAt(v, t) == Some((n, param)) {
      var rest := t[2..];
      var name := rest[..n - 4];
      CloseAtFinds(rest, WINDOW);
      forall i | 2 <= i < n - 2 ensures !ClosesAt(t, i) {
        assert !ClosesAt(rest, i - 2);
      }
      SgrParamMeans(v, name, param);
      assert t[2..n - 2] == name;
      assert IsTokenAt(v, t, name, param);
    }
    if name :| n == |name| + 4 && IsTokenAt(v, t, name, param) {
      var rest := t[2..];
      assert rest[..|name|] == name;
      forall i | 0 <= i < |name| ensures !ClosesAt(rest, i) {
        assert !ClosesAt(t, i + 2);
      }
      CloseAtMisses(rest, WINDOW, |name|);
      SgrParamMeans(v, name, param);
    }
  }

  /** A piece is what the rest of the text starts with: a known token; a pair of opening braces that starts none; or a
      character that does not start such a pair. */
  ghost predicate PieceIs(v: Vocab, p: Piece, rest: string) {
    match p
    case Tok(text, param) =>
      && |text| <= |rest| && text == rest[..|text|]
      && exists name :: |text| == |name| + 4 && IsTokenAt(v, rest, name, param)
    case Pair => "{{" <= rest && forall name, param :: !IsTokenAt(v, rest, name, param)
    case Chr(c) => rest != [] && rest[0] == c && !("{{" <= rest)
  }

  /** The pieces of a text: they spell it, and each is what the text from there on starts with.  So they are the
      only such pieces. */
  lemma {:induction false} LexMeans(v: Vocab, s: string, k: nat)
    requires k < |Lex(v, s)|
    ensures Text(Lex(v, s)) == s && PieceIs(v, Lex(v, s)[k], Text(Lex(v, s)[k..]))
  {
    LexIsText(v, s);
    LexFirst(v, s);
    var n := |TextOf(Lex(v, s)[0])|;
    if k == 0 {
      assert Lex(v, s)[0..] == Lex(v, s);
    } else {
      LexMeans(v, s[n..], k - 1);
      assert Lex(v, s)[k..] == Lex(v, s[n..])[k - 1..];
    }
  }

  lemma LexFirst(v: Vocab, s: string)
    requires s != []
    ensures var p := Lex(v, s)[0];
            |TextOf(p)| <= |s| && Lex(v, s) == [p] + Lex(v, s[|TextOf(p)|..]) && PieceIs(v, p, s)
  {
    hide Lex, TokenAt, IsTokenAt;
    LexUnfolds(v, s);
    TokenOpens(v, s);
    if TokenAt(v, s).Some? {
      var (n, param) := TokenAt(v, s).value;
      TokenAtMeans(v, s, n, param);
      KnownLength(v, s);
    } else {
      forall name, param ensures !IsTokenAt(v, s, name, param) {
        TokenAtMeans(v, s, |name| + 4, param);
      }
    }
  }

  lemma KnownLength(v: Vocab, s: string)
    requires TokenAt(v, s).Some?
    ensures TokenAt(v, s).value.0 <= |s|
  {
  }
}
