/**
  Zones of one pack, unioned across its files: what the merged zone holds in terms of all the zones
  declared under its ref, in file order.
*/
module ZoneUnion {
  import opened Basics
  import opened KeyedMerge
  import opened PackMerge
  import opened LoadMeans

  // ---- the loop -------------------------------------------------------------------------------

  /** mergeZones: the same index map as a keyed merge, but a known zone is merged, not replaced. */
  method MergeZonesLoop(dst: seq<Zone>, src: seq<Zone>) returns (out: seq<Zone>)
    ensures out == MergeZones(dst, src)
  {
    hide MergeZone, LastAt, PutZone;
    var idx: map<string, nat> := map[];
    for i := 0 to |dst|
      invariant Indexes(dst[..i], ZONE_REF, idx)
    {
      IndexNext(dst, ZONE_REF, idx, i);
      idx := idx[dst[i].ref := i];
    }
    assert dst[..|dst|] == dst;
    out := dst;
    for i := 0 to |src|
      invariant out == MergeZones(dst, src[..i]) && Indexes(out, ZONE_REF, idx)
    {
      assert src[..i + 1][..i] == src[..i];
      var z := src[i];
      PutZoneIndexes(out, idx, z);
      if z.ref in idx {
        var j := idx[z.ref];
        out := out[j := MergeZone(out[j], z)];
      } else {
        idx := idx[z.ref := |out|];
        out := out + [z];
      }
    }
    assert src[..|src|] == src;
  }

  lemma PutZoneIndexes(dst: seq<Zone>, idx: map<string, nat>, z: Zone)
    requires Indexes(dst, ZONE_REF, idx)
    ensures z.ref in idx ==>
              var j := idx[z.ref];
              j < |dst| && PutZone(dst, z) == dst[j := MergeZone(dst[j], z)] && Indexes(PutZone(dst, z), ZONE_REF, idx)
    ensures z.ref !in idx ==> PutZone(dst, z) == dst + [z] && Indexes(dst + [z], ZONE_REF, idx[z.ref := |dst|])
  {
    PutIndexes(dst, ZONE_REF, idx, PutValue(dst, z));
  }

  /** Unioning a zone is putting the union of what is there and the zone. */
  function PutValue(dst: seq<Zone>, z: Zone): Zone {
    var j := LastAt(dst, ZONE_REF, z.ref);
    if j >= 0 then MergeZone(dst[j], z) else z
  }

  // ---- what a merged zone is ------------------------------------------------------------------

  /** The zones declared under a ref, in order. */
  function Declared(zs: seq<Zone>, ref: string): seq<Zone> {
    if zs == [] then []
    else
      var (init, z) := (Declared(zs[..|zs| - 1], ref), zs[|zs| - 1]);
      if z.ref == ref then init + [z] else init
  }

  function Union(zs: seq<Zone>): Zone
    requires zs != []
  {
    if |zs| == 1 then zs[0] else MergeZone(Union(zs[..|zs| - 1]), zs[|zs| - 1])
  }

  lemma {:induction false} MergedZone(zs: seq<Zone>, ref: string)
    ensures var out := MergeZones([], zs);
            && (Has(out, ZONE_REF, ref) <==> Declared(zs, ref) != [])
            && (Has(out, ZONE_REF, ref) ==> Last(out, ZONE_REF, ref) == Union(Declared(zs, ref)))
  {
    if zs != [] {
      var (init, z) := (zs[..|zs| - 1], zs[|zs| - 1]);
      var was := MergeZones([], init);
      MergedZone(init, ref);
      PutIs(was, ZONE_REF, PutValue(was, z), ref);
    }
  }

  lemma {:induction false} MergedZoneOrder(zs: seq<Zone>)
    ensures Distinct(MergeZones([], zs), ZONE_REF)
    ensures Keys(MergeZones([], zs), ZONE_REF) == AddKeys([], Keys(zs, ZONE_REF))
  {
    if zs == [] {
      assert Keys(zs, ZONE_REF) == [];
    } else {
      var (init, z) := (zs[..|zs| - 1], zs[|zs| - 1]);
      var was := MergeZones([], init);
      MergedZoneOrder(init);
      PutKeys(was, ZONE_REF, PutValue(was, z));
      HasIsKey(was, ZONE_REF, z.ref);
      assert Keys(zs, ZONE_REF)[..|zs| - 1] == Keys(init, ZONE_REF);
    }
  }

  // ---- what a union holds ---------------------------------------------------------------------

  /** r is the last of the numbers that is not zero; zero if there is none. */
  ghost predicate IsLastNonZero(ns: seq<int>, r: int) {
    if r == 0 then forall i | 0 <= i < |ns| :: ns[i] == 0
    else exists i :: 0 <= i < |ns| && ns[i] == r && forall j | i < j < |ns| :: ns[j] == 0
  }

  lemma NonZeroNext(ns: seq<int>, was: int, n: int)
    requires IsLastNonZero(ns, was)
    ensures IsLastNonZero(ns + [n], if n != 0 then n else was)
  {
    var all := ns + [n];
    if n != 0 {
      assert all[|ns|] == n;
    } else if was != 0 {
      var i :| 0 <= i < |ns| && ns[i] == was && forall j | i < j < |ns| :: ns[j] == 0;
      assert all[i] == was;
    }
  }

  /** All the definitions of one kind that some zones declare, in order. */
  function All(zs: seq<Zone>, children: Zone -> seq<Def>): seq<Def> { Flatten(Each(zs, children)) }

  /** out holds, for every key, the last value of all. */
  ghost predicate KeepsLast(out: seq<Def>, all: seq<Def>) { forall k :: SameLast(out, all, k) }

  predicate SameLast(out: seq<Def>, all: seq<Def>, k: string) {
    && (Has(out, DEF_REF, k) <==> Has(all, DEF_REF, k))
    && (Has(out, DEF_REF, k) ==> Last(out, DEF_REF, k) == Last(all, DEF_REF, k))
  }

  lemma KeepsLastNext(out: seq<Def>, all: seq<Def>, more: seq<Def>)
    requires KeepsLast(out, all)
    ensures KeepsLast(Merge(out, more, DEF_REF), all + more)
  {
    forall k ensures SameLast(Merge(out, more, DEF_REF), all + more, k) {
      assert SameLast(out, all, k);
      MergeIs(out, more, DEF_REF, k);
      LastOfConcat(all, more, k);
    }
  }

  lemma LastOfConcat(a: seq<Def>, b: seq<Def>, k: string)
    ensures Has(a + b, DEF_REF, k) <==> Has(a, DEF_REF, k) || Has(b, DEF_REF, k)
    ensures Has(a + b, DEF_REF, k) ==>
              Last(a + b, DEF_REF, k) == if Has(b, DEF_REF, k) then Last(b, DEF_REF, k) else Last(a, DEF_REF, k)
  {
    LastAtIsLast(a, DEF_REF, k);
    LastAtIsLast(b, DEF_REF, k);
    var (i, j) := (LastAt(a, DEF_REF, k), LastAt(b, DEF_REF, k));
    LastAtIs(a + b, DEF_REF, k, if j >= 0 then |a| + j else i);
  }

  ghost predicate IsUnion(u: Zone, zs: seq<Zone>)
    requires zs != []
  {
    && u.ref == zs[0].ref
    && u.resets == Flatten(Each(zs, (z: Zone) => z.resets))
    && (u.instanceable <==> exists i :: 0 <= i < |zs| && zs[i].instanceable)
    && IsLastNonEmpty(Each(zs, (z: Zone) => z.name), u.name)
    && IsLastNonEmpty(Each(zs, (z: Zone) => z.startRoom), u.startRoom)
    && IsLastNonZero(Each(zs, (z: Zone) => z.resetSecs), u.resetSecs)
    && Unioned(u.rooms, zs, (z: Zone) => z.rooms)
    && Unioned(u.items, zs, (z: Zone) => z.items)
    && Unioned(u.mobs, zs, (z: Zone) => z.mobs)
  }

  /** The children of a union: the first file's, with those of the later files merged in, so that every ref has
      the last definition any file gives it. */
  ghost predicate Unioned(out: seq<Def>, zs: seq<Zone>, children: Zone -> seq<Def>)
    requires zs != []
  {
    && out == Merge(children(zs[0]), All(zs[1..], children), DEF_REF)
    && KeepsLast(out, All(zs, children))
  }

  lemma UnionedNext(out: seq<Def>, zs: seq<Zone>, children: Zone -> seq<Def>)
    requires |zs| > 1 && Unioned(out, zs[..|zs| - 1], children)
    ensures Unioned(Merge(out, children(zs[|zs| - 1]), DEF_REF), zs, children)
  {
    var (init, z) := (zs[..|zs| - 1], zs[|zs| - 1]);
    hide Merge;
    assert zs[1..][..|zs| - 2] == init[1..];
    FlattenNext(zs, children);
    FlattenNext(zs[1..], children);
    MergeInTwo(children(zs[0]), All(init[1..], children), children(z), DEF_REF);
    KeepsLastNext(out, All(init, children), children(z));
  }

  lemma UnionedAlone(z: Zone, children: Zone -> seq<Def>)
    ensures Unioned(children(z), [z], children)
  {
    assert Each([z][1..], children) == [];
    FlattenNext([z], children);
    assert Each([z][..0], children) == [];
    assert All([z], children) == [] + children(z) == children(z);
  }

  /** A union: resets concatenated in order, instanceable iff some file says so, the last non-empty name
      and start room, the last non-zero reset time, and for every ref the last room, item and mob, merged into
      the first file's list in order. */
  lemma {:induction false} UnionHolds(zs: seq<Zone>)
    requires zs != []
    ensures IsUnion(Union(zs), zs)
  {
    hide Merge, KeepsLast, Unioned, IsLastNonEmpty, IsLastNonZero, Flatten, Each, Newer;
    var (init, z) := (zs[..|zs| - 1], zs[|zs| - 1]);
    if |zs| == 1 {
      assert zs == [z];
      Alone(z);
      UnionedAlone(z, (z: Zone) => z.rooms);
      UnionedAlone(z, (z: Zone) => z.items);
      UnionedAlone(z, (z: Zone) => z.mobs);
    } else {
      UnionHolds(init);
      ScalarsNext(Union(init), zs);
      UnionedNext(Union(init).rooms, zs, (z: Zone) => z.rooms);
      UnionedNext(Union(init).items, zs, (z: Zone) => z.items);
      UnionedNext(Union(init).mobs, zs, (z: Zone) => z.mobs);
    }
  }

  lemma ScalarsNext(was: Zone, zs: seq<Zone>)
    requires zs != []
    requires IsLastNonEmpty(Each(zs[..|zs| - 1], (z: Zone) => z.name), was.name)
    requires IsLastNonEmpty(Each(zs[..|zs| - 1], (z: Zone) => z.startRoom), was.startRoom)
    requires IsLastNonZero(Each(zs[..|zs| - 1], (z: Zone) => z.resetSecs), was.resetSecs)
    ensures var (u, z) := (MergeZone(was, zs[|zs| - 1]), zs[|zs| - 1]);
            && IsLastNonEmpty(Each(zs, (z: Zone) => z.name), u.name)
            && IsLastNonEmpty(Each(zs, (z: Zone) => z.startRoom), u.startRoom)
            && IsLastNonZero(Each(zs, (z: Zone) => z.resetSecs), u.resetSecs)
            && Flatten(Each(zs, (z: Zone) => z.resets)) == Flatten(Each(zs[..|zs| - 1], (z: Zone) => z.resets))
               + z.resets
  {
    hide Merge, IsLastNonEmpty, IsLastNonZero, Flatten, Each, Newer;
    var (init, z) := (zs[..|zs| - 1], zs[|zs| - 1]);
    EachNext(zs, (z: Zone) => z.name);
    EachNext(zs, (z: Zone) => z.startRoom);
    EachNext(zs, (z: Zone) => z.resetSecs);
    FlattenNext(zs, (z: Zone) => z.resets);
    NewerIsLast(Each(init, (z: Zone) => z.name), was.name, z.name);
    NewerIsLast(Each(init, (z: Zone) => z.startRoom), was.startRoom, z.startRoom);
    NonZeroNext(Each(init, (z: Zone) => z.resetSecs), was.resetSecs, z.resetSecs);
  }

  lemma Alone(z: Zone)
    ensures IsLastNonEmpty(Each([z], (z: Zone) => z.name), z.name)
    ensures IsLastNonEmpty(Each([z], (z: Zone) => z.startRoom), z.startRoom)
    ensures IsLastNonZero(Each([z], (z: Zone) => z.resetSecs), z.resetSecs)
    ensures Flatten(Each([z], (z: Zone) => z.resets)) == z.resets
  {
    FlattenNext([z], (z: Zone) => z.resets);
    assert Each([z][..0], (z: Zone) => z.resets) == [];
    assert [] + z.resets == z.resets;
    assert Each([z], (z: Zone) => z.name)[0] == z.name;
    assert Each([z], (z: Zone) => z.startRoom)[0] == z.startRoom;
    assert Each([z], (z: Zone) => z.resetSecs)[0] == z.resetSecs;
  }

  // ---- the whole pack -------------------------------------------------------------------------

  function AllZones(parts: seq<Pack>): seq<Zone> { Flatten(Each(parts, (p: Pack) => p.zones)) }

  lemma {:induction false} ZonesInTwo(dst: seq<Zone>, a: seq<Zone>, b: seq<Zone>)
    ensures MergeZones(MergeZones(dst, a), b) == MergeZones(dst, a + b)
  {
    hide PutZone;
    if b == [] {
      assert a + b == a;
    } else {
      ZonesInTwo(dst, a, b[..|b| - 1]);
      assert (a + b)[..|a + b| - 1] == a + b[..|b| - 1];
    }
  }

  lemma {:induction false} PackZones(parts: seq<Pack>)
    ensures MergePacks(parts).zones == MergeZones([], AllZones(parts))
  {
    if parts != [] {
      hide MergeZones, MergeGlobals;
      PackZones(parts[..|parts| - 1]);
      FlattenNext(parts, (p: Pack) => p.zones);
      ZonesInTwo([], AllZones(parts[..|parts| - 1]), parts[|parts| - 1].zones);
    }
  }

  /** Loading a pack merged from files finds, under every ref some file declares a zone for, the union of
      all the zones declared under it, and keeps zones in the order of first declaration. */
  lemma LoadedZoneIsUnion(parts: seq<Pack>, ref: string)
    ensures var (lc, declared) := (Load([MergePacks(parts)]), Declared(AllZones(parts), ref));
            && Keys(lc.zones, ZONE_REF) == AddKeys([], Keys(AllZones(parts), ZONE_REF))
            && (Has(lc.zones, ZONE_REF, ref) <==> declared != [])
            && (declared != [] ==> IsUnion(Last(lc.zones, ZONE_REF, ref), declared))
  {
    hide MergeZones, Merge, MergePacks, Declared, IsUnion, AllZones, AddKeys;
    var m := MergePacks(parts);
    AddOne(NO_CONTENT, m);
    PackZones(parts);
    MergedZoneOrder(AllZones(parts));
    MergeSelf(m.zones, ZONE_REF);
    MergedZone(AllZones(parts), ref);
    if Declared(AllZones(parts), ref) != [] {
      UnionHolds(Declared(AllZones(parts), ref));
    }
  }
}
