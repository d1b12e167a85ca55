/**
  Folding the files of one pack into a pack, and loading packs into content.  The two do their
  last-write-wins merging separately and must agree; zones are the exception, which the files of one pack
  union and separate packs replace.
*/
module PackMerge {
  import opened KeyedMerge

  /** The pack-global definition kinds that are merged by key. */
  datatype Kind =
    | Attribute | Resource | DamageType | Affect | Ability | CombatProfile | Channel | Toggle | Region | Track
    | Bundle | RarityTier | Affix | LootTable | SpawnSchedule | Recipe | Help | WearSlot | Chargen | TrustTier

  /** A definition: its key (a ref, or a trust tier's name) and everything else. */
  datatype Def = Def(ref: string, body: string)

  datatype Zone = Zone(
    ref: string, name: string, startRoom: string, resetSecs: int, instanceable: bool,
    rooms: seq<Def>, items: seq<Def>, mobs: seq<Def>, resets: seq<string>)

  datatype Pack = Pack(
    name: string, defaultCombat: string, pvpLua: string, worldScript: string, license: string, attribution: string,
    formulas: map<string, string>, commands: seq<string>, displayDefs: seq<string>,
    zones: seq<Zone>, globals: map<Kind, seq<Def>>)

  datatype Credit = Credit(pack: string, license: string, attribution: string)

  datatype Content = Content(
    defaultCombat: string, pvpLua: string, worldScript: string,
    formulas: map<string, string>, commands: seq<string>, displayDefs: seq<string>,
    zones: seq<Zone>, globals: map<Kind, seq<Def>>, credits: seq<Credit>)

  const NO_PACK := Pack("", "", "", "", "", "", map[], [], [], [], map[])
  const NO_CONTENT := Content("", "", "", map[], [], [], [], map[], [])

  const DEF_REF := (d: Def) => d.ref
  const ZONE_REF := (z: Zone) => z.ref

  function At(globals: map<Kind, seq<Def>>, kind: Kind): seq<Def> { if kind in globals then globals[kind] else [] }

  function MergeGlobals(a: map<Kind, seq<Def>>, b: map<Kind, seq<Def>>): map<Kind, seq<Def>> {
    map kind | kind in a.Keys + b.Keys :: Merge(At(a, kind), At(b, kind), DEF_REF)
  }

  function Newer(was: string, now: string): string { if now != "" then now else was }

  // ---- the files of one pack ------------------------------------------------------------------

  function MergeZone(dst: Zone, src: Zone): Zone {
    Zone(dst.ref, Newer(dst.name, src.name), Newer(dst.startRoom, src.startRoom),
         if src.resetSecs != 0 then src.resetSecs else dst.resetSecs,
         dst.instanceable || src.instanceable,
         Merge(dst.rooms, src.rooms, DEF_REF), Merge(dst.items, src.items, DEF_REF), Merge(dst.mobs, src.mobs, DEF_REF),
         dst.resets + src.resets)
  }

  function PutZone(dst: seq<Zone>, z: Zone): seq<Zone> {
    var j := LastAt(dst, ZONE_REF, z.ref);
    if j >= 0 then dst[j := MergeZone(dst[j], z)] else dst + [z]
  }

  function MergeZones(dst: seq<Zone>, src: seq<Zone>): seq<Zone> {
    if src == [] then dst else PutZone(MergeZones(dst, src[..|src| - 1]), src[|src| - 1])
  }

  function AddFile(out: Pack, p: Pack): Pack {
    Pack(if out.name == "" then p.name else out.name,
         Newer(out.defaultCombat, p.defaultCombat), Newer(out.pvpLua, p.pvpLua), Newer(out.worldScript, p.worldScript),
         Newer(out.license, p.license), Newer(out.attribution, p.attribution),
         out.formulas + p.formulas, out.commands + p.commands, out.displayDefs + p.displayDefs,
         MergeZones(out.zones, p.zones), MergeGlobals(out.globals, p.globals))
  }

  function MergePacks(parts: seq<Pack>): Pack {
    if parts == [] then NO_PACK else AddFile(MergePacks(parts[..|parts| - 1]), parts[|parts| - 1])
  }

  // ---- loading packs --------------------------------------------------------------------------

  function AddPack(lc: Content, p: Pack): Content {
    Content(Newer(lc.defaultCombat, p.defaultCombat), Newer(lc.pvpLua, p.pvpLua), Newer(lc.worldScript, p.worldScript),
            lc.formulas + p.formulas, lc.commands + p.commands, lc.displayDefs + p.displayDefs,
            Merge(lc.zones, p.zones, ZONE_REF), MergeGlobals(lc.globals, p.globals),
            if p.license == "" && p.attribution == "" then lc.credits
            else lc.credits + [Credit(p.name, p.license, p.attribution)])
  }

  function AddPacks(lc: Content, packs: seq<Pack>): Content {
    if packs == [] then lc else AddPack(AddPacks(lc, packs[..|packs| - 1]), packs[|packs| - 1])
  }

  function Load(packs: seq<Pack>): Content { AddPacks(NO_CONTENT, packs) }

  /** One kind's loop in the loader: the index map lives across all the packs. */
  method LoadKind(packs: seq<Pack>, kind: Kind) returns (out: seq<Def>)
    ensures out == At(Load(packs).globals, kind)
  {
    hide Merge;
    var idx: map<string, nat> := map[];
    out := [];
    for i := 0 to |packs|
      invariant out == At(Load(packs[..i]).globals, kind) && Indexes(out, DEF_REF, idx)
    {
      assert packs[..i + 1][..i] == packs[..i];
      GlobalsAt(Load(packs[..i]).globals, packs[i].globals, kind);
      out, idx := Overlay(out, idx, At(packs[i].globals, kind), DEF_REF);
    }
    assert packs[..|packs|] == packs;
  }

  lemma GlobalsAt(a: map<Kind, seq<Def>>, b: map<Kind, seq<Def>>, kind: Kind)
    ensures At(MergeGlobals(a, b), kind) == Merge(At(a, kind), At(b, kind), DEF_REF)
  {
  }

  // ---- the two merges agree -------------------------------------------------------------------

  /** The same content, zones and credits aside. */
  ghost predicate Agree(a: Content, b: Content) {
    && a.defaultCombat == b.defaultCombat && a.pvpLua == b.pvpLua && a.worldScript == b.worldScript
    && a.formulas == b.formulas && a.commands == b.commands && a.displayDefs == b.displayDefs
    && forall kind :: At(a.globals, kind) == At(b.globals, kind)
  }

  ghost predicate DistinctGlobals(globals: map<Kind, seq<Def>>) {
    forall kind :: Distinct(At(globals, kind), DEF_REF)
  }

  lemma MergeGlobalsDistinct(a: map<Kind, seq<Def>>, b: map<Kind, seq<Def>>)
    requires DistinctGlobals(a)
    ensures DistinctGlobals(MergeGlobals(a, b))
  {
    forall kind ensures Distinct(At(MergeGlobals(a, b), kind), DEF_REF) {
      GlobalsAt(a, b, kind);
      MergeKeepsDistinct(At(a, kind), At(b, kind), DEF_REF);
    }
  }

  lemma {:induction false} MergedIsDistinct(parts: seq<Pack>)
    ensures DistinctGlobals(MergePacks(parts).globals)
  {
    if parts != [] {
      var init := parts[..|parts| - 1];
      MergedIsDistinct(init);
      MergeGlobalsDistinct(MergePacks(init).globals, parts[|parts| - 1].globals);
    }
  }

  lemma {:induction false} LoadedIsDistinct(lc: Content, packs: seq<Pack>)
    requires DistinctGlobals(lc.globals)
    ensures DistinctGlobals(AddPacks(lc, packs).globals)
  {
    if packs != [] {
      var init := packs[..|packs| - 1];
      LoadedIsDistinct(lc, init);
      MergeGlobalsDistinct(AddPacks(lc, init).globals, packs[|packs| - 1].globals);
    }
  }

  /** A list without repeated keys is its own merge. */
  lemma {:induction false} MergeSelf<T>(xs: seq<T>, key: T -> string)
    requires Distinct(xs, key)
    ensures Merge([], xs, key) == xs
  {
    if xs != [] {
      var (init, v) := (xs[..|xs| - 1], xs[|xs| - 1]);
      MergeSelf(init, key);
      LastAtIsLast(init, key, key(v));
      assert xs == init + [v];
    }
  }

  lemma MergeAssociates<T>(dst: seq<T>, mid: seq<T>, src: seq<T>, key: T -> string)
    requires Distinct(dst, key) && Distinct(mid, key)
    ensures Merge(dst, Merge(mid, src, key), key) == Merge(Merge(dst, mid, key), src, key)
  {
    hide Merge;
    MergeSelf(mid, key);
    MergeInTwo([], mid, src, key);
    MergeOfMerged(dst, mid + src, key);
    MergeInTwo(dst, mid, src, key);
  }

  lemma OneMoreGlobals(a: map<Kind, seq<Def>>, m: map<Kind, seq<Def>>, p: map<Kind, seq<Def>>, kind: Kind)
    requires DistinctGlobals(a) && DistinctGlobals(m)
    ensures At(MergeGlobals(a, MergeGlobals(m, p)), kind) == At(MergeGlobals(MergeGlobals(a, m), p), kind)
  {
    hide Merge, MergeGlobals;
    GlobalsAt(m, p, kind);
    GlobalsAt(a, MergeGlobals(m, p), kind);
    GlobalsAt(a, m, kind);
    GlobalsAt(MergeGlobals(a, m), p, kind);
    MergeAssociates(At(a, kind), At(m, kind), At(p, kind), DEF_REF);
  }

  lemma OneMoreFormulas(a: map<string, string>, m: map<string, string>, p: map<string, string>)
    ensures a + (m + p) == a + m + p
  {
  }

  /** Loading a pack with one more file is loading the pack and then the file. */
  lemma OneMoreFile(lc: Content, m: Pack, p: Pack)
    requires DistinctGlobals(lc.globals) && DistinctGlobals(m.globals)
    ensures Agree(AddPack(lc, AddFile(m, p)), AddPack(AddPack(lc, m), p))
  {
    hide Merge, MergeGlobals, MergeZones, DistinctGlobals, At;
    OneMoreFormulas(lc.formulas, m.formulas, p.formulas);
    forall kind ensures At(MergeGlobals(lc.globals, MergeGlobals(m.globals, p.globals)), kind) ==
                        At(MergeGlobals(MergeGlobals(lc.globals, m.globals), p.globals), kind) {
      OneMoreGlobals(lc.globals, m.globals, p.globals, kind);
    }
  }

  lemma AddPackAgrees(a: Content, b: Content, p: Pack)
    requires Agree(a, b)
    ensures Agree(AddPack(a, p), AddPack(b, p))
  {
    hide Merge, MergeGlobals;
    forall kind ensures At(AddPack(a, p).globals, kind) == At(AddPack(b, p).globals, kind) {
      GlobalsAt(a.globals, p.globals, kind);
      GlobalsAt(b.globals, p.globals, kind);
    }
  }

  lemma {:induction false} AddPacksAgree(a: Content, b: Content, packs: seq<Pack>)
    requires Agree(a, b)
    ensures Agree(AddPacks(a, packs), AddPacks(b, packs))
  {
    hide AddPack, Agree;
    if packs != [] {
      AddPacksAgree(a, b, packs[..|packs| - 1]);
      AddPackAgrees(AddPacks(a, packs[..|packs| - 1]), AddPacks(b, packs[..|packs| - 1]), packs[|packs| - 1]);
    }
  }

  lemma {:induction false} MergedLoadsAlike(lc: Content, parts: seq<Pack>)
    requires DistinctGlobals(lc.globals)
    ensures Agree(AddPack(lc, MergePacks(parts)), AddPacks(lc, parts))
  {
    if parts != [] {
      var (init, p) := (parts[..|parts| - 1], parts[|parts| - 1]);
      var m := MergePacks(init);
      MergedLoadsAlike(lc, init);
      MergedIsDistinct(init);
      OneMoreFile(lc, m, p);
      AddPackAgrees(AddPack(lc, m), AddPacks(lc, init), p);
    }
  }

  lemma {:induction false} AddPacksInTwo(lc: Content, a: seq<Pack>, b: seq<Pack>)
    ensures AddPacks(lc, a + b) == AddPacks(AddPacks(lc, a), b)
  {
    hide AddPack;
    if b == [] {
      assert a + b == a;
    } else {
      AddPacksInTwo(lc, a, b[..|b| - 1]);
      assert (a + b)[..|a + b| - 1] == a + b[..|b| - 1];
    }
  }

  /** The main law: wherever it stands among other packs, a pack merged from files loads exactly as its
      files would as packs of their own, in value and in order, zones and credits aside. */
  lemma MergedPackIsInterchangeable(before: seq<Pack>, parts: seq<Pack>, after: seq<Pack>)
    ensures Agree(Load(before + [MergePacks(parts)] + after), Load(before + parts + after))
  {
    var (m, lc) := (MergePacks(parts), Load(before));
    LoadedIsDistinct(NO_CONTENT, before);
    MergedLoadsAlike(lc, parts);
    AddPacksInTwo(NO_CONTENT, before, [m]);
    AddPacksInTwo(NO_CONTENT, before + [m], after);
    AddPacksInTwo(NO_CONTENT, before, parts);
    AddPacksInTwo(NO_CONTENT, before + parts, after);
    AddOne(lc, m);
    AddPacksAgree(AddPack(lc, m), AddPacks(lc, parts), after);
  }

  lemma AddOne(lc: Content, m: Pack)
    ensures AddPacks(lc, [m]) == AddPack(lc, m)
  {
    hide AddPack;
    assert [m][..0] == [];
  }
}
