/** What several modules share. */
module Basics {

  datatype Option<+T> = None | Some(value: T)

  function Sum(ns: seq<nat>): nat { if ns == [] then 0 else Sum(ns[..|ns| - 1]) + ns[|ns| - 1] }

  /** Drops trailing characters of one kind. */
  function TrimEnd(s: string, drop: char -> bool): string {
    if s != [] && drop(s[|s| - 1]) then TrimEnd(s[..|s| - 1], drop) else s
  }

  /** A property of every element, in order; and many lists as one. */
  function Each<A, B>(xs: seq<A>, f: A -> B): seq<B> { seq(|xs|, i requires 0 <= i < |xs| => f(xs[i])) }

  function Flatten<T>(xss: seq<seq<T>>): seq<T> {
    if xss == [] then [] else Flatten(xss[..|xss| - 1]) + xss[|xss| - 1]
  }

  lemma EachNext<A, B>(xs: seq<A>, f: A -> B)
    requires xs != []
    ensures Each(xs, f) == Each(xs[..|xs| - 1], f) + [f(xs[|xs| - 1])]
  {
  }

  lemma FlattenNext<A, T>(xs: seq<A>, f: A -> seq<T>)
    requires xs != []
    ensures Flatten(Each(xs, f)) == Flatten(Each(xs[..|xs| - 1], f)) + f(xs[|xs| - 1])
  {
    EachNext(xs, f);
    var e := Each(xs, f);
    assert e[..|e| - 1] == Each(xs[..|xs| - 1], f);
  }

  lemma Assoc<T>(a: seq<T>, b: seq<T>, c: seq<T>)
    ensures a + b + c == a + (b + c)
  {
  }
}
