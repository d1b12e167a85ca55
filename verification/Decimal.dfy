/** Decimal text of natural numbers: the common ground of idempotency keys and the content-hash framing. */
module Decimal {

  function Digit(d: nat): char
    requires d < 10
  {
    '0' + d as char
  }

  /** The decimal text of n without leading zeros; "0" for zero. */
  function Text(n: nat): string { if n < 10 then [Digit(n)] else Text(n / 10) + [Digit(n % 10)] }

  predicate IsDigit(c: char) { '0' <= c <= '9' }

  predicate IsDigits(s: string) { forall i | 0 <= i < |s| :: IsDigit(s[i]) }

  predicate IsNumeral(s: string) { s != [] && IsDigits(s) }

  function Value(s: string): nat
    requires IsDigits(s)
  {
    if s == [] then 0 else 10 * Value(s[..|s| - 1]) + (s[|s| - 1] - '0') as nat
  }

  lemma {:induction false} TextIsDigits(n: nat)
    ensures IsDigits(Text(n)) && Text(n) != []
  {
    if n >= 10 {
      TextIsDigits(n / 10);
    }
  }

  lemma {:induction false} ValueOfText(n: nat)
    ensures IsDigits(Text(n)) && Value(Text(n)) == n
  {
    TextIsDigits(n);
    if n >= 10 {
      ValueOfText(n / 10);
      assert Text(n)[..|Text(n)| - 1] == Text(n / 10);
    }
  }

  /** A number without leading zeros is the text of its value, and no other digit string is. */
  lemma {:induction false} TextOfValue(s: string)
    requires IsDigits(s) && s != []
    ensures Text(Value(s)) == s <==> |s| == 1 || s[0] != '0'
    ensures s[0] != '0' ==> Value(s) > 0
  {
    var (init, d) := (s[..|s| - 1], (s[|s| - 1] - '0') as nat);
    assert Digit(d) == s[|s| - 1] && s == init + [s[|s| - 1]];
    if init == [] {
      assert Value(init) == 0;
    } else {
      TextOfValue(init);
      assert Value(s) / 10 == Value(init) && Value(s) % 10 == d;
      if Value(init) > 0 {
        assert Text(Value(s)) == Text(Value(init)) + [Digit(d)];
        assert Text(Value(s))[..|Text(Value(s))| - 1] == Text(Value(init));
      } else if s[0] == '0' {
        assert |Text(Value(s))| == 1;
      }
    }
  }

  lemma {:induction false} ValueGrows(s: string, n: nat)
    requires IsDigits(s) && n <= |s|
    ensures IsDigits(s[..n]) && Value(s[..n]) <= Value(s)
    decreases |s| - n
  {
    if n == |s| {
      assert s[..n] == s;
    } else {
      ValueGrows(s, n + 1);
      assert s[..n + 1][..n] == s[..n];
    }
  }

  /** A number is read back from in front of any text that does not begin with a digit. */
  lemma TextCancels(m: nat, x: string, n: nat, y: string)
    requires Text(m) + x == Text(n) + y
    requires x != [] && !IsDigit(x[0]) && y != [] && !IsDigit(y[0])
    ensures m == n && x == y
  {
    TextIsDigits(m);
    TextIsDigits(n);
    var (s, t, a, b) := (Text(m) + x, Text(n) + y, |Text(m)|, |Text(n)|);
    assert s[a] == x[0] && t[b] == y[0];
    assert a == b;
    assert s[..a] == Text(m) && t[..a] == Text(n) && s[a..] == x && t[a..] == y;
    ValueOfText(m);
    ValueOfText(n);
  }
}
