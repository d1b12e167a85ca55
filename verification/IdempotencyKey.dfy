/** Idempotency keys "<author>:<number>": building, parsing, and the 64-bit decimal conversions they use. */
module IdempotencyKey {
  import opened Basics
  import opened Decimal

  const MAX64: nat := 0xFFFF_FFFF_FFFF_FFFF

  newtype uint64 = x: int | 0 <= x <= 0xFFFF_FFFF_FFFF_FFFF

  datatype Parsed = Key(author: string, number: uint64) | Malformed

  // ---- decimal text of a 64-bit number --------------------------------------------------------

  function Pow10(n: nat): nat { if n == 0 then 1 else 10 * Pow10(n - 1) }

  lemma TwentyDigits()
    ensures Pow10(20) > MAX64
  {
    assert Pow10(5) == 100000;
    assert Pow10(10) == 10000000000;
    assert Pow10(15) == 1000000000000000;
  }

  /** What is left to write in front of what is written: nothing once the number has run out. */
  function Front(v: nat): string { if v == 0 then "" else Text(v) }

  lemma FrontStep(v: nat)
    requires v > 0
    ensures Front(v) == Front(v / 10) + [Digit(v % 10)]
  {
    if v >= 10 {
      assert v / 10 > 0;
    }
  }

  lemma PowStep(v: nat, i: nat)
    requires 0 < v < Pow10(i)
    ensures i > 0 && v / 10 < Pow10(i - 1)
  {
  }

  /** One digit moves from the number to the text; there is room for it. */
  lemma DigitMoves(v: nat, i: nat, written: string)
    requires 0 < v < Pow10(i)
    ensures i > 0 && v / 10 < Pow10(i - 1)
    ensures Front(v) + written == Front(v / 10) + ([Digit(v % 10)] + written)
  {
    hide Front, Pow10, Digit;
    PowStep(v, i);
    FrontStep(v);
    Assoc(Front(v / 10), [Digit(v % 10)], written);
  }

  method Write(buf: array<char>, i: nat, c: char)
    requires i < buf.Length
    modifies buf
    ensures buf[i..] == [c] + old(buf[i + 1..])
  {
    buf[i] := c;
  }

  /** itoa: fills a 20-byte buffer from the end; the buffer is always long enough. */
  method Itoa(value: uint64) returns (s: string)
    ensures s == Text(value as nat)
  {
    if value == 0 {
      return "0";
    }
    hide Text, Pow10, Front, Digit;
    var buf := new char[20](_ => '0');
    var v: uint64 := value;
    var i: nat := 20;
    TwentyDigits();
    assert buf[20..] == [] && Front(value as nat) + [] == Front(value as nat);
    while v > 0
      invariant 0 <= i <= 20 && v as nat < Pow10(i)
      invariant Text(value as nat) == Front(v as nat) + buf[i..]
      decreases v
    {
      DigitMoves(v as nat, i, buf[i..]);
      i := i - 1;
      Write(buf, i, Digit((v % 10) as nat));
      v := v / 10;
    }
    s := buf[i..];
  }

  /** Whether a text is the decimal form of a 64-bit number. */
  predicate Fits(s: string) { IsNumeral(s) && Value(s) <= MAX64 }

  /** atou: accepts exactly the non-empty digit strings that fit; the guard keeps every step in range. */
  method Atou(s: string) returns (value: uint64, ok: bool)
    ensures ok <==> Fits(s)
    ensures ok ==> value as nat == Value(s)
    ensures !ok ==> value == 0
  {
    if s == "" {
      return 0, false;
    }
    var v: uint64 := 0;
    for i := 0 to |s|
      invariant IsDigits(s[..i]) && v as nat == Value(s[..i])
    {
      var c := s[i];
      if c < '0' || c > '9' {
        return 0, false;
      }
      assert s[..i + 1][..i] == s[..i];
      var d := (c as int - '0' as int) as uint64;
      if v > (0xFFFF_FFFF_FFFF_FFFF - d) / 10 {
        assert Value(s[..i + 1]) > MAX64;
        if IsDigits(s) {
          ValueGrows(s, i + 1);
        }
        return 0, false;
      }
      v := v * 10 + d;
    }
    assert s[..|s|] == s;
    return v, true;
  }

  // ---- keys -----------------------------------------------------------------------------------

  function NewKey(author: string, number: uint64): string { author + ":" + Text(number as nat) }

  function LastColon(key: string): (r: int)
    ensures -1 <= r < |key|
    ensures r >= 0 ==> key[r] == ':'
  {
    if key == [] then -1 else if key[|key| - 1] == ':' then |key| - 1 else LastColon(key[..|key| - 1])
  }

  function Parse(key: string): Parsed {
    var i := LastColon(key);
    if i < 0 || !Fits(key[i + 1..]) then Malformed
    else Key(key[..i], Value(key[i + 1..]) as uint64)
  }

  method ParseKey(key: string) returns (r: Parsed)
    ensures r == Parse(key)
  {
    var i := LastColon(key);
    if i < 0 {
      return Malformed;
    }
    var number, ok := Atou(key[i + 1..]);
    return if ok then Key(key[..i], number) else Malformed;
  }

  lemma {:induction false} LastColonIs(author: string, tail: string)
    requires ':' !in tail
    ensures LastColon(author + ":" + tail) == |author|
  {
    var key := author + ":" + tail;
    if tail != [] {
      var init := tail[..|tail| - 1];
      assert key[|key| - 1] == tail[|tail| - 1];
      LastColonIs(author, init);
      assert key[..|key| - 1] == author + ":" + init;
    }
  }

  /** Parsing undoes building, for every author (colons and all) and every 64-bit number. */
  lemma ParseOfNewKey(author: string, number: uint64)
    ensures Parse(NewKey(author, number)) == Key(author, number)
  {
    var (key, tail) := (NewKey(author, number), Text(number as nat));
    ValueOfText(number as nat);
    TextIsDigits(number as nat);
    assert ':' !in tail;
    LastColonIs(author, tail);
    assert key[|author| + 1..] == tail && key[..|author|] == author;
  }

  lemma KeysAreDistinct(a: string, m: uint64, b: string, n: uint64)
    ensures NewKey(a, m) == NewKey(b, n) <==> a == b && m == n
  {
    ParseOfNewKey(a, m);
    ParseOfNewKey(b, n);
  }

  /** Building undoes parsing exactly for keys whose number has no leading zero. */
  lemma NewKeyOfParse(key: string)
    requires Parse(key).Key?
    ensures var (r, i) := (Parse(key), LastColon(key));
            |key| > i + 1 && (NewKey(r.author, r.number) == key <==> |key| == i + 2 || key[i + 1] != '0')
  {
    hide LastColon, Value, Text, NewKey, Fits;
    var i := LastColon(key);
    var (author, tail) := (key[..i], key[i + 1..]);
    Rebuilt(author, tail);
    Split(key, i);
  }

  lemma Split(key: string, i: nat)
    requires i < |key| && key[i] == ':'
    ensures key == key[..i] + ":" + key[i + 1..]
  {
  }

  lemma Rebuilt(author: string, tail: string)
    requires Fits(tail)
    ensures tail != []
    ensures NewKey(author, Value(tail) as uint64) == author + ":" + tail <==> |tail| == 1 || tail[0] != '0'
  {
    hide Value, Text;
    TextOfValue(tail);
    SameFront(author + ":", Text(Value(tail)), tail);
  }

  lemma SameFront(a: string, x: string, y: string)
    ensures a + x == a + y <==> x == y
  {
    assert (a + x)[|a|..] == x && (a + y)[|a|..] == y;
  }

  /** A key is its author, a colon, and its number in decimal without leading zeros. */
  lemma NewKeyMeans(author: string, number: uint64) returns (tail: string)
    ensures NewKey(author, number) == author + ":" + tail && IsDigits(tail) && Value(tail) == number as nat
    ensures |tail| > 0 && (|tail| == 1 || tail[0] != '0')
  {
    tail := Text(number as nat);
    ValueOfText(number as nat);
    TextIsDigits(number as nat);
    TextOfValue(tail);
  }
}
