/**
  Last-write-wins merging of keyed lists: a value whose key is already present replaces it in place, a
  new key is appended.  The pack merge and the content loader each do this in their own loop.
*/
module KeyedMerge {

  function Keys<T>(xs: seq<T>, key: T -> string): seq<string> { seq(|xs|, i requires 0 <= i < |xs| => key(xs[i])) }

  /** The last position of a key, or -1. */
  function LastAt<T>(xs: seq<T>, key: T -> string, k: string): (r: int)
    ensures -1 <= r < |xs|
    ensures r >= 0 ==> key(xs[r]) == k
  {
    if xs == [] then -1
    else if key(xs[|xs| - 1]) == k then |xs| - 1
    else LastAt(xs[..|xs| - 1], key, k)
  }

  predicate Has<T>(xs: seq<T>, key: T -> string, k: string) { LastAt(xs, key, k) >= 0 }

  /** The last value with a key. */
  function Last<T>(xs: seq<T>, key: T -> string, k: string): T
    requires Has(xs, key, k)
  {
    xs[LastAt(xs, key, k)]
  }

  function Put<T>(dst: seq<T>, key: T -> string, v: T): seq<T> {
    var j := LastAt(dst, key, key(v));
    if j >= 0 then dst[j := v] else dst + [v]
  }

  function Merge<T>(dst: seq<T>, src: seq<T>, key: T -> string): seq<T> {
    if src == [] then dst else Put(Merge(dst, src[..|src| - 1], key), key, src[|src| - 1])
  }

  predicate Distinct<T>(xs: seq<T>, key: T -> string) {
    forall i, j | 0 <= i < j < |xs| :: key(xs[i]) != key(xs[j])
  }

  // ---- positions ------------------------------------------------------------------------------

  lemma {:induction false} LastAtIsLast<T>(xs: seq<T>, key: T -> string, k: string)
    ensures forall i | LastAt(xs, key, k) < i < |xs| :: key(xs[i]) != k
  {
    if xs != [] && key(xs[|xs| - 1]) != k {
      LastAtIsLast(xs[..|xs| - 1], key, k);
    }
  }

  /** The last position is the one position with the key that no later position shares. */
  lemma LastAtIs<T>(xs: seq<T>, key: T -> string, k: string, j: int)
    requires -1 <= j < |xs| && (j >= 0 ==> key(xs[j]) == k)
    requires forall i | j < i < |xs| :: key(xs[i]) != k
    ensures LastAt(xs, key, k) == j
  {
    LastAtIsLast(xs, key, k);
  }

  lemma HasAt<T>(xs: seq<T>, key: T -> string, i: nat)
    requires i < |xs|
    ensures Has(xs, key, key(xs[i])) && LastAt(xs, key, key(xs[i])) >= i
    ensures Distinct(xs, key) ==> LastAt(xs, key, key(xs[i])) == i
  {
    LastAtIsLast(xs, key, key(xs[i]));
  }

  // ---- what merging does to keys and values ---------------------------------------------------

  /** Putting a value: it becomes the last value of its key, and nothing else changes. */
  lemma PutIs<T>(dst: seq<T>, key: T -> string, v: T, k: string)
    ensures var out := Put(dst, key, v);
            && (Has(out, key, k) <==> Has(dst, key, k) || k == key(v))
            && (Has(out, key, k) ==> Last(out, key, k) == if k == key(v) then v else Last(dst, key, k))
  {
    var (out, j) := (Put(dst, key, v), LastAt(dst, key, key(v)));
    LastAtIsLast(dst, key, key(v));
    LastAtIsLast(dst, key, k);
    if k == key(v) {
      LastAtIs(out, key, k, if j >= 0 then j else |dst|);
    } else {
      LastAtIs(out, key, k, LastAt(dst, key, k));
    }
  }

  lemma PutKeys<T>(dst: seq<T>, key: T -> string, v: T)
    ensures Keys(Put(dst, key, v), key) == if Has(dst, key, key(v)) then Keys(dst, key) else Keys(dst, key) + [key(v)]
    ensures Distinct(dst, key) ==> Distinct(Put(dst, key, v), key)
  {
    LastAtIsLast(dst, key, key(v));
  }

  /** Merging: the last value of a key is the source's if it has the key, else the destination's. */
  lemma {:induction false} MergeIs<T>(dst: seq<T>, src: seq<T>, key: T -> string, k: string)
    ensures var out := Merge(dst, src, key);
            && (Has(out, key, k) <==> Has(dst, key, k) || Has(src, key, k))
            && (Has(out, key, k) ==> Last(out, key, k) == if Has(src, key, k) then Last(src, key, k)
               else Last(dst, key, k))
  {
    if src != [] {
      var (init, v) := (src[..|src| - 1], src[|src| - 1]);
      MergeIs(dst, init, key, k);
      PutIs(Merge(dst, init, key), key, v, k);
    }
  }

  /** Merging in place: of the destination's values only the last of a key the source has is replaced, by the
      source's last. */
  lemma {:induction false} MergeAt<T>(dst: seq<T>, src: seq<T>, key: T -> string, i: nat)
    requires i < |dst|
    ensures var out := Merge(dst, src, key);
            && i < |out| && key(out[i]) == key(dst[i])
            && out[i] == (if LastAt(dst, key, key(dst[i])) == i && Has(src, key, key(dst[i]))
                          then Last(src, key, key(dst[i])) else dst[i])
            && (LastAt(dst, key, key(dst[i])) == i ==> LastAt(out, key, key(dst[i])) == i)
  {
    if src != [] {
      var (init, v) := (src[..|src| - 1], src[|src| - 1]);
      var was := Merge(dst, init, key);
      MergeAt(dst, init, key, i);
      PutAt(was, key, v, i);
      HasAt(dst, key, i);
      if LastAt(dst, key, key(dst[i])) != i {
        MergeAt(dst, init, key, LastAt(dst, key, key(dst[i])));
      }
    }
  }

  lemma PutAt<T>(dst: seq<T>, key: T -> string, v: T, i: nat)
    requires i < |dst|
    ensures var out := Put(dst, key, v);
            && i < |out| && out[i] == (if LastAt(dst, key, key(v)) == i then v else dst[i])
            && (LastAt(dst, key, key(dst[i])) == i ==> LastAt(out, key, key(dst[i])) == i)
  {
    LastAtIsLast(dst, key, key(v));
    LastAtIsLast(dst, key, key(dst[i]));
    if LastAt(dst, key, key(dst[i])) == i {
      LastAtIs(Put(dst, key, v), key, key(dst[i]), i);
    }
  }

  lemma {:induction false} MergeKeepsDistinct<T>(dst: seq<T>, src: seq<T>, key: T -> string)
    requires Distinct(dst, key)
    ensures Distinct(Merge(dst, src, key), key)
  {
    if src != [] {
      MergeKeepsDistinct(dst, src[..|src| - 1], key);
      PutKeys(Merge(dst, src[..|src| - 1], key), key, src[|src| - 1]);
    }
  }

  // ---- the order of keys ----------------------------------------------------------------------

  function AddKey(ks: seq<string>, k: string): seq<string> { if k in ks then ks else ks + [k] }

  /** The keys of a merge: the destination's, then each new key at its first appearance. */
  function AddKeys(ks: seq<string>, more: seq<string>): seq<string> {
    if more == [] then ks else AddKey(AddKeys(ks, more[..|more| - 1]), more[|more| - 1])
  }

  lemma HasIsKey<T>(xs: seq<T>, key: T -> string, k: string)
    ensures Has(xs, key, k) <==> k in Keys(xs, key)
  {
    LastAtIsLast(xs, key, k);
    if Has(xs, key, k) {
      assert Keys(xs, key)[LastAt(xs, key, k)] == k;
    }
  }

  lemma {:induction false} MergeKeys<T>(dst: seq<T>, src: seq<T>, key: T -> string)
    ensures Keys(Merge(dst, src, key), key) == AddKeys(Keys(dst, key), Keys(src, key))
  {
    if src != [] {
      var (init, v) := (src[..|src| - 1], src[|src| - 1]);
      var was := Merge(dst, init, key);
      MergeKeys(dst, init, key);
      PutKeys(was, key, v);
      HasIsKey(was, key, key(v));
      assert Keys(src, key)[..|src| - 1] == Keys(init, key);
    } else {
      assert Keys(src, key) == [];
    }
  }

  lemma {:induction false} AddKeysHas(ks: seq<string>, more: seq<string>, k: string)
    ensures k in AddKeys(ks, more) <==> k in ks || k in more
  {
    if more != [] {
      AddKeysHas(ks, more[..|more| - 1], k);
      assert more == more[..|more| - 1] + [more[|more| - 1]];
    }
  }

  lemma {:induction false} AddKeysOfUnion(ks: seq<string>, more: seq<string>)
    ensures AddKeys(ks, AddKeys([], more)) == AddKeys(ks, more)
  {
    if more != [] {
      var (init, k) := (more[..|more| - 1], more[|more| - 1]);
      var u := AddKeys([], init);
      AddKeysOfUnion(ks, init);
      AddKeysHas([], init, k);
      AddKeysHas(ks, init, k);
      if k !in u {
        assert (u + [k])[..|u|] == u;
      }
    }
  }

  // ---- merging twice --------------------------------------------------------------------------

  /** A list without repeated keys is determined by its keys in order and its values. */
  lemma SameList<T>(a: seq<T>, b: seq<T>, key: T -> string)
    requires Distinct(a, key) && Distinct(b, key) && Keys(a, key) == Keys(b, key)
    requires forall k | Has(a, key, k) && Has(b, key, k) :: Last(a, key, k) == Last(b, key, k)
    ensures a == b
  {
    assert |a| == |Keys(a, key)| == |b|;
    forall i | 0 <= i < |a| ensures a[i] == b[i] {
      assert Keys(a, key)[i] == Keys(b, key)[i];
      HasAt(a, key, i);
      HasAt(b, key, i);
    }
  }

  /** Merging a list that was merged by itself first gives the same list, in value and order. */
  lemma MergeOfMerged<T>(dst: seq<T>, src: seq<T>, key: T -> string)
    requires Distinct(dst, key)
    ensures Merge(dst, Merge([], src, key), key) == Merge(dst, src, key)
  {
    hide Merge, AddKeys;
    var own := Merge([], src, key);
    var (a, b) := (Merge(dst, own, key), Merge(dst, src, key));
    MergeKeepsDistinct(dst, own, key);
    MergeKeepsDistinct(dst, src, key);
    MergeKeys([], src, key);
    MergeKeys(dst, own, key);
    MergeKeys(dst, src, key);
    assert Keys<T>([], key) == [];
    AddKeysOfUnion(Keys(dst, key), Keys(src, key));
    forall k | Has(a, key, k) && Has(b, key, k) ensures Last(a, key, k) == Last(b, key, k) {
      MergeIs([], src, key, k);
      MergeIs(dst, own, key, k);
      MergeIs(dst, src, key, k);
    }
    SameList(a, b, key);
  }

  lemma {:induction false} MergeInTwo<T>(dst: seq<T>, a: seq<T>, b: seq<T>, key: T -> string)
    ensures Merge(Merge(dst, a, key), b, key) == Merge(dst, a + b, key)
  {
    if b == [] {
      assert a + b == a;
    } else {
      MergeInTwo(dst, a, b[..|b| - 1], key);
      assert (a + b)[..|a + b| - 1] == a + b[..|b| - 1];
    }
  }

  // ---- what a merged list is, position by position ---------------------------------------------

  /** The value at position p is the last of its key. */
  ghost predicate IsLastOf<T>(all: seq<T>, key: T -> string, p: int) {
    0 <= p < |all| && forall q | p < q < |all| :: key(all[q]) != key(all[p])
  }

  /** Some value has the key and comes before any value with the key `later`. */
  ghost predicate ComesBefore<T(!new)>(all: seq<T>, key: T -> string, k: string, later: string) {
    exists p :: 0 <= p < |all| && key(all[p]) == k && forall q | 0 <= q <= p :: key(all[q]) != later
  }

  ghost predicate HasKey<T(!new)>(xs: seq<T>, key: T -> string, k: string) {
    exists i :: 0 <= i < |xs| && key(xs[i]) == k
  }

  ghost predicate HoldsLast<T(!new)>(all: seq<T>, key: T -> string, v: T) {
    exists p :: IsLastOf(all, key, p) && all[p] == v
  }

  /** out holds, for every key of all and once each, the last value with that key, in the order in which the
      keys first come. */
  ghost predicate MergedFrom<T(!new)>(out: seq<T>, all: seq<T>, key: T -> string) {
    && (forall i, j | 0 <= i < j < |out| :: key(out[i]) != key(out[j]))
    && (forall p | 0 <= p < |all| :: HasKey(out, key, key(all[p])))
    && (forall i | 0 <= i < |out| :: HoldsLast(all, key, out[i]))
    && (forall i, j | 0 <= i < j < |out| :: ComesBefore(all, key, key(out[i]), key(out[j])))
  }

  lemma {:induction false} MergeMeans<T(!new)>(all: seq<T>, key: T -> string)
    ensures MergedFrom(Merge([], all, key), all, key)
  {
    if all != [] {
      MergeMeans(all[..|all| - 1], key);
      PutMeans(Merge([], all[..|all| - 1], key), all, key);
    }
  }

  lemma PutMeans<T(!new)>(was: seq<T>, all: seq<T>, key: T -> string)
    requires all != [] && MergedFrom(was, all[..|all| - 1], key)
    ensures MergedFrom(Put(was, key, all[|all| - 1]), all, key)
  {
    var (init, v) := (all[..|all| - 1], all[|all| - 1]);
    var out := Put(was, key, v);
    LastAtIsLast(was, key, key(v));
    hide HoldsLast, HasKey, ComesBefore;
    forall i | 0 <= i < |out| ensures HoldsLast(all, key, out[i]) {
      if key(out[i]) != key(v) {
        StillLast(all, key, out[i]);
      } else {
        NewestIsLast(all, key);
      }
    }
    forall p | 0 <= p < |all| ensures HasKey(out, key, key(all[p])) {
      if p < |init| {
        assert HasKey(was, key, key(init[p]));
      }
      PutHasKey(was, key, v, key(all[p]));
    }
    forall i, j | 0 <= i < j < |out| ensures ComesBefore(all, key, key(out[i]), key(out[j])) {
      if j < |was| {
        assert ComesBefore(init, key, key(was[i]), key(was[j]));
        StillBefore(all, key, key(was[i]), key(was[j]));
      } else {
        NewKeyComesLast(was, all, key, i);
      }
    }
  }

  lemma StillLast<T(!new)>(all: seq<T>, key: T -> string, v: T)
    requires all != [] && HoldsLast(all[..|all| - 1], key, v) && key(v) != key(all[|all| - 1])
    ensures HoldsLast(all, key, v)
  {
    var p :| IsLastOf(all[..|all| - 1], key, p) && all[..|all| - 1][p] == v;
    assert IsLastOf(all, key, p);
  }

  lemma NewestIsLast<T(!new)>(all: seq<T>, key: T -> string)
    requires all != []
    ensures HoldsLast(all, key, all[|all| - 1])
  {
    assert IsLastOf(all, key, |all| - 1);
  }

  lemma PutHasKey<T(!new)>(was: seq<T>, key: T -> string, v: T, k: string)
    requires HasKey(was, key, k) || k == key(v)
    ensures HasKey(Put(was, key, v), key, k)
  {
    var (out, j) := (Put(was, key, v), LastAt(was, key, key(v)));
    assert key(out[if j >= 0 then j else |was|]) == key(v);
    if i :| 0 <= i < |was| && key(was[i]) == k {
      assert key(out[i]) == k;
    }
  }

  lemma StillBefore<T(!new)>(all: seq<T>, key: T -> string, k: string, later: string)
    requires all != [] && ComesBefore(all[..|all| - 1], key, k, later)
    ensures ComesBefore(all, key, k, later)
  {
    var init := all[..|all| - 1];
    var p :| 0 <= p < |init| && key(init[p]) == k && forall q | 0 <= q <= p :: key(init[q]) != later;
    assert key(all[p]) == k;
    forall q | 0 <= q <= p ensures key(all[q]) != later {
      assert all[q] == init[q];
    }
  }

  lemma NewKeyComesLast<T(!new)>(was: seq<T>, all: seq<T>, key: T -> string, i: nat)
    requires all != [] && MergedFrom(was, all[..|all| - 1], key) && i < |was| && !Has(was, key, key(all[|all| - 1]))
    ensures ComesBefore(all, key, key(was[i]), key(all[|all| - 1]))
  {
    var (init, k) := (all[..|all| - 1], key(all[|all| - 1]));
    LastAtIsLast(was, key, k);
    assert HoldsLast(init, key, was[i]);
    var p :| IsLastOf(init, key, p) && init[p] == was[i];
    assert key(all[p]) == key(was[i]);
    forall q | 0 <= q <= p ensures key(all[q]) != k {
      assert HasKey(was, key, key(init[q]));
    }
  }

  // ---- the loop -------------------------------------------------------------------------------

  /** An index map: each key's last position, and nothing else. */
  ghost predicate Indexes<T>(xs: seq<T>, key: T -> string, idx: map<string, nat>) {
    forall k :: (k in idx <==> Has(xs, key, k)) && (k in idx ==> idx[k] == LastAt(xs, key, k))
  }

  lemma PutIndexes<T>(dst: seq<T>, key: T -> string, idx: map<string, nat>, v: T)
    requires Indexes(dst, key, idx)
    ensures key(v) in idx ==>
              idx[key(v)] < |dst| && Put(dst, key, v) == dst[idx[key(v)] := v] && Indexes(Put(dst, key, v), key, idx)
    ensures key(v) !in idx ==> Put(dst, key, v) == dst + [v] && Indexes(dst + [v], key, idx[key(v) := |dst|])
  {
    forall k ensures LastAt(Put(dst, key, v), key, k) ==
                     if k == key(v) && !Has(dst, key, k) then |dst| else LastAt(dst, key, k) {
      LastAtIsLast(dst, key, k);
      LastAtIsLast(dst, key, key(v));
      LastAtIs(Put(dst, key, v), key, k, if k == key(v) && !Has(dst, key, k) then |dst| else LastAt(dst, key, k));
    }
  }

  /** The merge loop: replace through the index map, or append and index. */
  method Overlay<T>(
    dst: seq<T>, index: map<string, nat>, src: seq<T>, key: T -> string) returns (out: seq<T>, idx: map<string, nat>)
    requires Indexes(dst, key, index)
    ensures out == Merge(dst, src, key) && Indexes(out, key, idx)
  {
    hide Indexes, Put;
    out, idx := dst, index;
    for i := 0 to |src|
      invariant out == Merge(dst, src[..i], key) && Indexes(out, key, idx)
    {
      assert src[..i + 1][..i] == src[..i];
      var v := src[i];
      PutIndexes(out, key, idx, v);
      if key(v) in idx {
        out := out[idx[key(v)] := v];
      } else {
        idx := idx[key(v) := |out|];
        out := out + [v];
      }
    }
    assert src[..|src|] == src;
  }

  /** mergeByKey: index the destination, then overlay the source. */
  method MergeByKey<T>(dst: seq<T>, src: seq<T>, key: T -> string) returns (out: seq<T>)
    ensures out == Merge(dst, src, key)
  {
    if |src| == 0 {
      return dst;
    }
    hide LastAt;
    var idx: map<string, nat> := map[];
    for i := 0 to |dst|
      invariant Indexes(dst[..i], key, idx)
    {
      IndexNext(dst, key, idx, i);
      idx := idx[key(dst[i]) := i];
    }
    assert dst[..|dst|] == dst;
    var done;
    out, done := Overlay(dst, idx, src, key);
  }

  lemma IndexNext<T>(dst: seq<T>, key: T -> string, idx: map<string, nat>, i: nat)
    requires i < |dst| && Indexes(dst[..i], key, idx)
    ensures Indexes(dst[..i + 1], key, idx[key(dst[i]) := i])
  {
    assert dst[..i + 1][..i] == dst[..i];
  }
}
