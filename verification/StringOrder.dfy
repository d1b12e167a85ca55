/** Go's string order and sorting by it. */
module StringOrder {

  /** By element, a prefix before its extensions. */
  predicate Less(a: string, b: string) {
    b != [] && (a == [] || a[0] < b[0] || (a[0] == b[0] && Less(a[1..], b[1..])))
  }

  /** One text is before another exactly if it is a proper prefix of it, or at the first place where they differ its
      character is the smaller one. */
  lemma {:induction false} LessMeans(a: string, b: string)
    ensures Less(a, b) <==>
            exists i :: 0 <= i <= |a| && i < |b| && a[..i] == b[..i] && (i == |a| || a[i] < b[i])
  {
    if a != [] && b != [] && a[0] == b[0] {
      var (a', b') := (a[1..], b[1..]);
      LessMeans(a', b');
      if i :| 0 <= i <= |a'| && i < |b'| && a'[..i] == b'[..i] && (i == |a'| || a'[i] < b'[i]) {
        assert a[..i + 1] == [a[0]] + a'[..i] && b[..i + 1] == [b[0]] + b'[..i];
        assert i + 1 == |a| || a[i + 1] < b[i + 1];
      }
      if i :| 0 <= i <= |a| && i < |b| && a[..i] == b[..i] && (i == |a| || a[i] < b[i]) {
        assert a'[..i - 1] == a[..i][1..] && b'[..i - 1] == b[..i][1..];
        assert i - 1 == |a'| || a'[i - 1] < b'[i - 1];
      }
    } else if Less(a, b) {
      assert a[..0] == b[..0] && (0 == |a| || a[0] < b[0]);
    } else if i :| 0 <= i <= |a| && i < |b| && a[..i] == b[..i] && (i == |a| || a[i] < b[i]) {
      assert i > 0 ==> a[..i][0] == b[..i][0];
    }
  }

  lemma {:induction false} LessIsTotal(a: string, b: string)
    ensures a == b || Less(a, b) || Less(b, a)
    ensures !(Less(a, b) && Less(b, a)) && !Less(a, a)
  {
    if a != [] && b != [] {
      LessIsTotal(a[1..], b[1..]);
      LessIsTotal(a[1..], a[1..]);
      assert a == [a[0]] + a[1..] && b == [b[0]] + b[1..];
    } else if a != [] {
      LessIsTotal(a[1..], a[1..]);
    }
  }

  lemma {:induction false} LessIsTransitive(a: string, b: string, c: string)
    requires Less(a, b) && Less(b, c)
    ensures Less(a, c)
  {
    if a != [] && a[0] == b[0] == c[0] {
      LessIsTransitive(a[1..], b[1..], c[1..]);
    }
  }

  /** No later text is before an earlier one. */
  predicate Sorted(xs: seq<string>) { forall i, j | 0 <= i < j < |xs| :: !Less(xs[j], xs[i]) }

  function Insert(x: string, xs: seq<string>): seq<string> {
    if xs == [] || !Less(xs[0], x) then [x] + xs else [xs[0]] + Insert(x, xs[1..])
  }

  function Sort(xs: seq<string>): seq<string> {
    if xs == [] then [] else Insert(xs[|xs| - 1], Sort(xs[..|xs| - 1]))
  }

  lemma {:induction false} InsertKeeps(x: string, xs: seq<string>)
    ensures multiset(Insert(x, xs)) == multiset(xs) + multiset{x}
  {
    if xs != [] {
      assert xs == [xs[0]] + xs[1..];
      if Less(xs[0], x) {
        InsertKeeps(x, xs[1..]);
      }
    }
  }

  lemma {:induction false} InsertSorts(x: string, xs: seq<string>)
    requires Sorted(xs)
    ensures Sorted(Insert(x, xs))
  {
    if xs != [] {
      var (h, rest) := (xs[0], xs[1..]);
      assert forall i | 0 <= i < |rest| :: rest[i] == xs[i + 1];
      if Less(h, x) {
        InsertSorts(x, rest);
        InsertKeeps(x, rest);
        var out := Insert(x, rest);
        LessIsTotal(h, x);
        forall j | 0 <= j < |out| ensures !Less(out[j], h) {
          assert out[j] in multiset(out);
          assert out[j] == x || out[j] in rest;
        }
      } else {
        forall j | 0 <= j < |xs| ensures !Less(xs[j], x) {
          if Less(xs[j], x) {
            NotBefore(x, h, xs[j]);
          }
        }
      }
    }
  }

  lemma NotBefore(x: string, h: string, y: string)
    requires !Less(h, x) && (y == h || !Less(y, h))
    ensures !Less(y, x)
  {
    LessIsTotal(h, y);
    LessIsTotal(h, x);
    if Less(y, x) && Less(h, y) {
      LessIsTransitive(h, y, x);
    }
  }

  lemma {:induction false} SortIs(xs: seq<string>)
    ensures Sorted(Sort(xs)) && multiset(Sort(xs)) == multiset(xs)
  {
    if xs != [] {
      var (init, x) := (xs[..|xs| - 1], xs[|xs| - 1]);
      SortIs(init);
      InsertSorts(x, Sort(init));
      InsertKeeps(x, Sort(init));
      assert xs == init + [x];
    }
  }

  /** Sorting has one answer: two sorted lists of the same texts are equal. */
  lemma {:induction false} SortedIsUnique(a: seq<string>, b: seq<string>)
    requires Sorted(a) && Sorted(b) && multiset(a) == multiset(b)
    ensures a == b
  {
    hide Sorted, Less;
    SameSize(a, b);
    if a != [] {
      FirstIsLeast(a, b);
      FirstIsLeast(b, a);
      LessIsTotal(a[0], b[0]);
      TailMultiset(a);
      TailMultiset(b);
      TailSorted(a);
      TailSorted(b);
      SortedIsUnique(a[1..], b[1..]);
      assert a == [a[0]] + a[1..] && b == [b[0]] + b[1..];
    }
  }

  lemma SameSize(a: seq<string>, b: seq<string>)
    requires multiset(a) == multiset(b)
    ensures |a| == |b|
  {
    assert |a| == |multiset(a)| && |b| == |multiset(b)|;
  }

  lemma TailSorted(a: seq<string>)
    requires Sorted(a) && a != []
    ensures Sorted(a[1..])
  {
  }

  lemma FirstIsLeast(a: seq<string>, b: seq<string>)
    requires Sorted(a) && multiset(a) == multiset(b) && a != [] && b != []
    ensures !Less(b[0], a[0])
  {
    assert b[0] in multiset(a);
    var j :| 0 <= j < |a| && a[j] == b[0];
    LessIsTotal(a[0], a[0]);
  }

  lemma TailMultiset(a: seq<string>)
    requires a != []
    ensures multiset(a[1..]) == multiset(a) - multiset{a[0]}
  {
    assert a == [a[0]] + a[1..];
  }

  lemma SameSort(a: seq<string>, b: seq<string>)
    requires multiset(a) == multiset(b)
    ensures Sort(a) == Sort(b)
  {
    SortIs(a);
    SortIs(b);
    SortedIsUnique(Sort(a), Sort(b));
  }

  // ---- lists without repetitions --------------------------------------------------------------

  predicate NoRepeats(xs: seq<string>) { forall i, j | 0 <= i < j < |xs| :: xs[i] != xs[j] }

  lemma {:induction false} OnceEach(xs: seq<string>, x: string)
    requires NoRepeats(xs)
    ensures multiset(xs)[x] == if x in xs then 1 else 0
  {
    if xs != [] {
      OnceEach(xs[..|xs| - 1], x);
      assert xs == xs[..|xs| - 1] + [xs[|xs| - 1]];
    }
  }

  lemma {:induction false} SameElements(a: seq<string>, b: seq<string>)
    requires NoRepeats(a) && NoRepeats(b) && forall x :: x in a <==> x in b
    ensures multiset(a) == multiset(b)
  {
    forall x ensures multiset(a)[x] == multiset(b)[x] {
      OnceEach(a, x);
      OnceEach(b, x);
    }
  }

  lemma TwiceInMultiset(xs: seq<string>, i: nat, j: nat)
    requires i < j < |xs| && xs[i] == xs[j]
    ensures multiset(xs)[xs[i]] >= 2
  {
    assert xs == xs[..j] + [xs[j]] + xs[j + 1..];
    assert xs[..j][i] == xs[i] && xs[i] in multiset(xs[..j]);
  }

  lemma SortKeepsNoRepeats(xs: seq<string>)
    requires NoRepeats(xs)
    ensures NoRepeats(Sort(xs)) && forall x :: x in Sort(xs) <==> x in xs
  {
    SortIs(xs);
    var out := Sort(xs);
    forall x ensures x in out <==> x in xs {
      assert x in out <==> x in multiset(out);
      assert x in xs <==> x in multiset(xs);
    }
    forall i, j | 0 <= i < j < |out| ensures out[i] != out[j] {
      if out[i] == out[j] {
        TwiceInMultiset(out, i, j);
        OnceEach(xs, out[i]);
      }
    }
  }
}
