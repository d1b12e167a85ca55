/**
  What loading packs and folding the files of a pack give, field by field, in terms of all the packs or files in
  order: the last non-empty scalar, the last formula of a name, lists appended, keyed lists merged.
*/
module LoadMeans {
  import opened Basics
  import opened KeyedMerge
  import opened PackMerge

  /** r is the last of the texts that is not empty; empty if there is none. */
  ghost predicate IsLastNonEmpty(ts: seq<string>, r: string) {
    if r == "" then forall i | 0 <= i < |ts| :: ts[i] == ""
    else exists i :: 0 <= i < |ts| && ts[i] == r && forall j | i < j < |ts| :: ts[j] == ""
  }

  /** r is the first of the texts that is not empty; empty if there is none. */
  ghost predicate IsFirstNonEmpty(ts: seq<string>, r: string) {
    if r == "" then forall i | 0 <= i < |ts| :: ts[i] == ""
    else exists i :: 0 <= i < |ts| && ts[i] == r && forall j | 0 <= j < i :: ts[j] == ""
  }

  /** m has the names of all the maps, each with its value in the last map that has it. */
  ghost predicate IsLastOfEach(ms: seq<map<string, string>>, m: map<string, string>) {
    && (forall i, k | 0 <= i < |ms| && k in ms[i] :: k in m)
    && (forall k | k in m :: LastHas(ms, k, m[k]))
  }

  /** The last of the maps that has k gives it this value. */
  predicate LastHas(ms: seq<map<string, string>>, k: string, v: string) {
    exists i :: 0 <= i < |ms| && k in ms[i] && ms[i][k] == v && NoneHas(ms[i + 1..], k)
  }

  predicate NoneHas(ms: seq<map<string, string>>, k: string) { forall j | 0 <= j < |ms| :: k !in ms[j] }

  function OfKind(p: Pack, kind: Kind): seq<Def> { if kind in p.globals then p.globals[kind] else [] }

  /** A pack that names a license or an attribution is credited. */
  function CreditOf(p: Pack): seq<Credit> {
    if p.license == "" && p.attribution == "" then [] else [Credit(p.name, p.license, p.attribution)]
  }

  ghost predicate LoadedFrom(lc: Content, packs: seq<Pack>) {
    && IsLastNonEmpty(Each(packs, (p: Pack) => p.defaultCombat), lc.defaultCombat)
    && IsLastNonEmpty(Each(packs, (p: Pack) => p.pvpLua), lc.pvpLua)
    && IsLastNonEmpty(Each(packs, (p: Pack) => p.worldScript), lc.worldScript)
    && IsLastOfEach(Each(packs, (p: Pack) => p.formulas), lc.formulas)
    && lc.commands == Flatten(Each(packs, (p: Pack) => p.commands))
    && lc.displayDefs == Flatten(Each(packs, (p: Pack) => p.displayDefs))
    && lc.credits == Flatten(Each(packs, CreditOf))
    && MergedFrom(lc.zones, Flatten(Each(packs, (p: Pack) => p.zones)), (z: Zone) => z.ref)
    && forall kind: Kind ::
         MergedFrom(if kind in lc.globals then lc.globals[kind] else [],
                    Flatten(Each(packs, (p: Pack) => OfKind(p, kind))), (d: Def) => d.ref)
  }

  /** The pack folded from the files of its tree; its zones are in ZoneUnion. */
  ghost predicate FoldedFrom(out: Pack, parts: seq<Pack>) {
    && IsFirstNonEmpty(Each(parts, (p: Pack) => p.name), out.name)
    && IsLastNonEmpty(Each(parts, (p: Pack) => p.defaultCombat), out.defaultCombat)
    && IsLastNonEmpty(Each(parts, (p: Pack) => p.pvpLua), out.pvpLua)
    && IsLastNonEmpty(Each(parts, (p: Pack) => p.worldScript), out.worldScript)
    && IsLastNonEmpty(Each(parts, (p: Pack) => p.license), out.license)
    && IsLastNonEmpty(Each(parts, (p: Pack) => p.attribution), out.attribution)
    && IsLastOfEach(Each(parts, (p: Pack) => p.formulas), out.formulas)
    && out.commands == Flatten(Each(parts, (p: Pack) => p.commands))
    && out.displayDefs == Flatten(Each(parts, (p: Pack) => p.displayDefs))
    && forall kind: Kind ::
         MergedFrom(OfKind(out, kind), Flatten(Each(parts, (p: Pack) => OfKind(p, kind))), (d: Def) => d.ref)
  }

  // ---- scalars and formulas -------------------------------------------------------------------

  lemma NewerIsLast(ts: seq<string>, was: string, t: string)
    requires IsLastNonEmpty(ts, was)
    ensures IsLastNonEmpty(ts + [t], Newer(was, t))
  {
    var all := ts + [t];
    if t != "" {
      assert all[|ts|] == t;
    } else if was != "" {
      var i :| 0 <= i < |ts| && ts[i] == was && forall j | i < j < |ts| :: ts[j] == "";
      assert all[i] == was;
    }
  }

  lemma {:induction false} ScalarLoaded(packs: seq<Pack>, field: Pack -> string, out: Content -> string)
    requires forall lc, p :: out(AddPack(lc, p)) == Newer(out(lc), field(p))
    requires out(NO_CONTENT) == ""
    ensures IsLastNonEmpty(Each(packs, field), out(Load(packs)))
  {
    if packs != [] {
      var init := packs[..|packs| - 1];
      ScalarLoaded(init, field, out);
      EachNext(packs, field);
      NewerIsLast(Each(init, field), out(Load(init)), field(packs[|packs| - 1]));
    }
  }

  lemma {:induction false} ScalarFolded(parts: seq<Pack>, field: Pack -> string)
    requires forall out, p :: field(AddFile(out, p)) == Newer(field(out), field(p))
    requires field(NO_PACK) == ""
    ensures IsLastNonEmpty(Each(parts, field), field(MergePacks(parts)))
  {
    if parts != [] {
      var init := parts[..|parts| - 1];
      ScalarFolded(init, field);
      EachNext(parts, field);
      NewerIsLast(Each(init, field), field(MergePacks(init)), field(parts[|parts| - 1]));
    }
  }

  lemma {:induction false} NameFolded(parts: seq<Pack>)
    ensures IsFirstNonEmpty(Each(parts, (p: Pack) => p.name), MergePacks(parts).name)
  {
    var name := (p: Pack) => p.name;
    if parts != [] {
      var (init, t) := (parts[..|parts| - 1], parts[|parts| - 1].name);
      NameFolded(init);
      EachNext(parts, name);
      var (ts, was) := (Each(init, name), MergePacks(init).name);
      if was != "" {
        var i :| 0 <= i < |ts| && ts[i] == was && forall j | 0 <= j < i :: ts[j] == "";
        assert (ts + [t])[i] == was;
      } else if t != "" {
        assert (ts + [t])[|ts|] == t;
      }
    }
  }

  lemma MapNext(ms: seq<map<string, string>>, m: map<string, string>, more: map<string, string>)
    requires IsLastOfEach(ms, m)
    ensures IsLastOfEach(ms + [more], m + more)
  {
    var all := ms + [more];
    hide NoneHas;
    forall k | k in m + more ensures LastHas(all, k, (m + more)[k]) {
      if k in more {
        NewestHas(ms, more, k);
      } else {
        assert LastHas(ms, k, m[k]);
        StillHas(ms, more, k, m[k]);
      }
    }
    forall i, k | 0 <= i < |all| && k in all[i] ensures k in m + more {
      assert i < |ms| ==> all[i] == ms[i];
    }
  }

  lemma NewestHas(ms: seq<map<string, string>>, more: map<string, string>, k: string)
    requires k in more
    ensures LastHas(ms + [more], k, more[k])
  {
    var all := ms + [more];
    assert all[|ms|] == more && all[|ms| + 1..] == [];
  }

  lemma StillHas(ms: seq<map<string, string>>, more: map<string, string>, k: string, v: string)
    requires LastHas(ms, k, v) && k !in more
    ensures LastHas(ms + [more], k, v)
  {
    var all := ms + [more];
    var i :| 0 <= i < |ms| && k in ms[i] && ms[i][k] == v && NoneHas(ms[i + 1..], k);
    assert all[i] == ms[i] && all[i + 1..] == ms[i + 1..] + [more];
  }

  lemma {:induction false} FormulasLoaded(packs: seq<Pack>)
    ensures IsLastOfEach(Each(packs, (p: Pack) => p.formulas), Load(packs).formulas)
  {
    var field := (p: Pack) => p.formulas;
    if packs != [] {
      FormulasLoaded(packs[..|packs| - 1]);
      EachNext(packs, field);
      MapNext(Each(packs[..|packs| - 1], field), Load(packs[..|packs| - 1]).formulas, packs[|packs| - 1].formulas);
    }
  }

  lemma {:induction false} FormulasFolded(parts: seq<Pack>)
    ensures IsLastOfEach(Each(parts, (p: Pack) => p.formulas), MergePacks(parts).formulas)
  {
    var field := (p: Pack) => p.formulas;
    if parts != [] {
      FormulasFolded(parts[..|parts| - 1]);
      EachNext(parts, field);
      MapNext(Each(parts[..|parts| - 1], field), MergePacks(parts[..|parts| - 1]).formulas,
        parts[|parts| - 1].formulas);
    }
  }

  // ---- lists ----------------------------------------------------------------------------------

  lemma {:induction false} ListsLoaded(packs: seq<Pack>)
    ensures var lc := Load(packs);
            && lc.commands == Flatten(Each(packs, (p: Pack) => p.commands))
            && lc.displayDefs == Flatten(Each(packs, (p: Pack) => p.displayDefs))
            && lc.credits == Flatten(Each(packs, CreditOf))
  {
    if packs != [] {
      hide MergeGlobals, Merge, Flatten, Each;
      ListsLoaded(packs[..|packs| - 1]);
      FlattenNext(packs, (p: Pack) => p.commands);
      FlattenNext(packs, (p: Pack) => p.displayDefs);
      FlattenNext(packs, CreditOf);
    }
  }

  lemma {:induction false} ListsFolded(parts: seq<Pack>)
    ensures var out := MergePacks(parts);
            && out.commands == Flatten(Each(parts, (p: Pack) => p.commands))
            && out.displayDefs == Flatten(Each(parts, (p: Pack) => p.displayDefs))
  {
    if parts != [] {
      hide MergeGlobals, MergeZones, Flatten, Each;
      ListsFolded(parts[..|parts| - 1]);
      FlattenNext(parts, (p: Pack) => p.commands);
      FlattenNext(parts, (p: Pack) => p.displayDefs);
    }
  }

  // ---- keyed lists ----------------------------------------------------------------------------

  lemma {:induction false} ZonesLoaded(packs: seq<Pack>)
    ensures Load(packs).zones == Merge([], Flatten(Each(packs, (p: Pack) => p.zones)), ZONE_REF)
  {
    if packs != [] {
      hide MergeGlobals, Merge, Flatten, Each;
      var init := packs[..|packs| - 1];
      ZonesLoaded(init);
      FlattenNext(packs, (p: Pack) => p.zones);
      MergeInTwo([], Flatten(Each(init, (p: Pack) => p.zones)), packs[|packs| - 1].zones, ZONE_REF);
    }
  }

  lemma {:induction false} GlobalsLoaded(packs: seq<Pack>, kind: Kind)
    ensures At(Load(packs).globals, kind) == Merge([], Flatten(Each(packs, (p: Pack) => OfKind(p, kind))), DEF_REF)
  {
    var field := (p: Pack) => OfKind(p, kind);
    if packs != [] {
      hide MergeGlobals, Merge, Flatten, Each;
      var (init, p) := (packs[..|packs| - 1], packs[|packs| - 1]);
      GlobalsLoaded(init, kind);
      FlattenNext(packs, field);
      GlobalsAt(Load(init).globals, p.globals, kind);
      MergeInTwo([], Flatten(Each(init, field)), OfKind(p, kind), DEF_REF);
    }
  }

  lemma {:induction false} GlobalsFolded(parts: seq<Pack>, kind: Kind)
    ensures At(MergePacks(parts).globals, kind) ==
            Merge([], Flatten(Each(parts, (p: Pack) => OfKind(p, kind))), DEF_REF)
  {
    var field := (p: Pack) => OfKind(p, kind);
    if parts != [] {
      hide MergeGlobals, Merge, MergeZones, Flatten, Each;
      var (init, p) := (parts[..|parts| - 1], parts[|parts| - 1]);
      GlobalsFolded(init, kind);
      FlattenNext(parts, field);
      GlobalsAt(MergePacks(init).globals, p.globals, kind);
      MergeInTwo([], Flatten(Each(init, field)), OfKind(p, kind), DEF_REF);
    }
  }

  // ---- the main theorems ----------------------------------------------------------------------

  /** Loading packs gives exactly what LoadedFrom says: the last pack wins, for every scalar, formula, zone and
      definition, and commands, display definitions and credits accumulate. */
  lemma LoadIs(packs: seq<Pack>)
    ensures LoadedFrom(Load(packs), packs)
  {
    hide Merge, Flatten, Each, MergedFrom, IsLastNonEmpty, IsLastOfEach, Load;
    LoadedScalars(packs);
    FormulasLoaded(packs);
    ListsLoaded(packs);
    ZonesLoaded(packs);
    MergeMeans(Flatten(Each(packs, (p: Pack) => p.zones)), ZONE_REF);
    var globals := Load(packs).globals;
    forall kind: Kind ensures MergedFrom(if kind in globals then globals[kind] else [],
                                         Flatten(Each(packs, (p: Pack) => OfKind(p, kind))), (d: Def) => d.ref) {
      GlobalsLoaded(packs, kind);
      MergeMeans(Flatten(Each(packs, (p: Pack) => OfKind(p, kind))), DEF_REF);
    }
  }

  lemma LoadedScalars(packs: seq<Pack>)
    ensures IsLastNonEmpty(Each(packs, (p: Pack) => p.defaultCombat), Load(packs).defaultCombat)
    ensures IsLastNonEmpty(Each(packs, (p: Pack) => p.pvpLua), Load(packs).pvpLua)
    ensures IsLastNonEmpty(Each(packs, (p: Pack) => p.worldScript), Load(packs).worldScript)
  {
    hide Merge, MergeGlobals, Newer, Load, IsLastNonEmpty;
    ScalarLoaded(packs, (p: Pack) => p.defaultCombat, (lc: Content) => lc.defaultCombat);
    ScalarLoaded(packs, (p: Pack) => p.pvpLua, (lc: Content) => lc.pvpLua);
    ScalarLoaded(packs, (p: Pack) => p.worldScript, (lc: Content) => lc.worldScript);
  }

  /** Folding the files of a pack gives exactly what FoldedFrom says: the first name, the last file's scalars,
      license and attribution included, and the rest as in a load. */
  lemma FoldIs(parts: seq<Pack>)
    ensures FoldedFrom(MergePacks(parts), parts)
  {
    hide Merge, Flatten, Each, MergedFrom, IsLastNonEmpty, IsLastOfEach, IsFirstNonEmpty, MergePacks;
    FoldedScalars(parts);
    NameFolded(parts);
    FormulasFolded(parts);
    ListsFolded(parts);
    forall kind: Kind ensures MergedFrom(OfKind(MergePacks(parts), kind),
                                         Flatten(Each(parts, (p: Pack) => OfKind(p, kind))), DEF_REF) {
      GlobalsFolded(parts, kind);
      MergeMeans(Flatten(Each(parts, (p: Pack) => OfKind(p, kind))), DEF_REF);
    }
  }

  lemma FoldedScalars(parts: seq<Pack>)
    ensures IsLastNonEmpty(Each(parts, (p: Pack) => p.defaultCombat), MergePacks(parts).defaultCombat)
    ensures IsLastNonEmpty(Each(parts, (p: Pack) => p.pvpLua), MergePacks(parts).pvpLua)
    ensures IsLastNonEmpty(Each(parts, (p: Pack) => p.worldScript), MergePacks(parts).worldScript)
    ensures IsLastNonEmpty(Each(parts, (p: Pack) => p.license), MergePacks(parts).license)
    ensures IsLastNonEmpty(Each(parts, (p: Pack) => p.attribution), MergePacks(parts).attribution)
  {
    hide MergeZones, MergeGlobals, Newer, MergePacks, IsLastNonEmpty;
    ScalarFolded(parts, (p: Pack) => p.defaultCombat);
    ScalarFolded(parts, (p: Pack) => p.pvpLua);
    ScalarFolded(parts, (p: Pack) => p.worldScript);
    ScalarFolded(parts, (p: Pack) => p.license);
    ScalarFolded(parts, (p: Pack) => p.attribution);
  }
}
