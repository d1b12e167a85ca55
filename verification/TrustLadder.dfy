/**
  The trust ladder: tier names resolved to a rank and granted flags, and the questions the promote
  ceilings ask of it.
*/
module TrustLadder {
  import opened StringOrder

  const HOLYLIGHT := "holylight"
  const BUILDER := "builder"
  const ADMIN := "admin"
  const WIZINVIS := "wizinvis"

  const RESERVED: set<string> := {HOLYLIGHT, BUILDER, ADMIN, WIZINVIS}
  const NON_CAPABILITY: set<string> := {WIZINVIS}
  const CAPABILITIES: set<string> := RESERVED - NON_CAPABILITY

  datatype Tier = Tier(name: string, rank: int, flags: seq<string>)

  type Ladder = map<string, Tier>

  // ---- building the ladder --------------------------------------------------------------------

  const DEFAULT_TIERS: seq<Tier> := [
    Tier("player", 0, []),
    Tier("builder", 20, [HOLYLIGHT, BUILDER]),
    Tier("admin", 40, [HOLYLIGHT, BUILDER, ADMIN])
  ]

  /** Rung n of a ladder defines a name: it is named, and no later rung has the same name. */
  predicate Defines(tiers: seq<Tier>, i: nat) {
    && i < |tiers| && tiers[i].name != ""
    && forall j | i < j < |tiers| :: tiers[j].name != tiers[i].name
  }

  /** What resolving a tier list means: each name maps to its last rung, and nothing else is defined. */
  ghost predicate Resolves(tiers: seq<Tier>, l: Ladder) {
    && (forall i | 0 <= i < |tiers| && Defines(tiers, i) :: tiers[i].name in l && l[tiers[i].name] == tiers[i])
    && (forall n | n in l :: exists i :: 0 <= i < |tiers| && Defines(tiers, i) && tiers[i].name == n)
  }

  function AddTier(l: Ladder, t: Tier): Ladder { if t.name == "" then l else l[t.name := t] }

  function LadderOf(tiers: seq<Tier>): Ladder {
    if tiers == [] then map[] else AddTier(LadderOf(tiers[..|tiers| - 1]), tiers[|tiers| - 1])
  }

  lemma {:induction false} LadderResolves(tiers: seq<Tier>)
    ensures Resolves(tiers, LadderOf(tiers))
  {
    if tiers != [] {
      var (init, t) := (tiers[..|tiers| - 1], tiers[|tiers| - 1]);
      LadderResolves(init);
      AddRung(init, LadderOf(init), t);
      assert tiers == init + [t];
    }
  }

  lemma LadderHasNoEmptyName(tiers: seq<Tier>)
    ensures "" !in LadderOf(tiers)
  {
    LadderResolves(tiers);
  }

  method NewLadder(declared: seq<Tier>) returns (l: Ladder)
    ensures l == LadderOf(if declared == [] then DEFAULT_TIERS else declared)
  {
    var tiers := declared;
    if |tiers| == 0 {
      tiers := DEFAULT_TIERS;
    }
    l := map[];
    for k := 0 to |tiers|
      invariant l == LadderOf(tiers[..k])
    {
      var t := tiers[k];
      assert tiers[..k + 1][..k] == tiers[..k];
      if t.name != "" {
        l := l[t.name := t];
      }
    }
    assert tiers[..|tiers|] == tiers;
  }

  lemma AddRung(tiers: seq<Tier>, l: Ladder, t: Tier)
    requires Resolves(tiers, l)
    ensures Resolves(tiers + [t], AddTier(l, t))
  {
    var (all, m) := (tiers + [t], AddTier(l, t));
    forall i | 0 <= i < |all| && Defines(all, i) ensures all[i].name in m && m[all[i].name] == all[i] {
      if i < |tiers| {
        DefinesBefore(tiers, t, i);
      }
    }
    forall n | n in m ensures exists i :: 0 <= i < |all| && Defines(all, i) && all[i].name == n {
      if n == t.name && t.name != "" {
        assert Defines(all, |tiers|);
      } else {
        var i :| 0 <= i < |tiers| && Defines(tiers, i) && tiers[i].name == n;
        DefinesBefore(tiers, t, i);
      }
    }
  }

  lemma DefinesBefore(tiers: seq<Tier>, t: Tier, i: nat)
    requires i < |tiers|
    ensures Defines(tiers + [t], i) <==> Defines(tiers, i) && tiers[i].name != t.name
    ensures (tiers + [t])[i] == tiers[i]
  {
    var all := tiers + [t];
    assert all[|tiers|] == t;
    assert forall j | 0 <= j < |tiers| :: all[j] == tiers[j];
  }

  predicate DistinctNames(tiers: seq<Tier>) {
    forall i, j | 0 <= i < j < |tiers| :: tiers[i].name != tiers[j].name
  }

  /** With distinct names the order of the rungs does not matter. */
  lemma OrderDoesNotMatter(a: seq<Tier>, b: seq<Tier>)
    requires DistinctNames(a) && DistinctNames(b) && forall t :: t in a <==> t in b
    ensures LadderOf(a) == LadderOf(b)
  {
    hide LadderOf;
    SameRungs(a, b);
    SameRungs(b, a);
    assert LadderOf(a).Keys == LadderOf(b).Keys;
  }

  lemma SameRungs(a: seq<Tier>, b: seq<Tier>)
    requires DistinctNames(b) && forall t :: t in a <==> t in b
    ensures forall n | n in LadderOf(a) :: n in LadderOf(b) && LadderOf(b)[n] == LadderOf(a)[n]
  {
    hide LadderOf;
    LadderResolves(a);
    LadderResolves(b);
    var (la, lb) := (LadderOf(a), LadderOf(b));
    forall n | n in la ensures n in lb && lb[n] == la[n] {
      var i :| 0 <= i < |a| && Defines(a, i) && a[i].name == n;
      assert a[i] in b;
      var j :| 0 <= j < |b| && b[j] == a[i];
      assert Defines(b, j);
    }
  }

  // ---- reading the ladder ---------------------------------------------------------------------

  /** An unknown or empty tier has rank 0 and grants nothing. */
  function Rank(l: Ladder, name: string): int { if name != "" && name in l then l[name].rank else 0 }

  function Flags(l: Ladder, name: string): seq<string> { if name in l then l[name].flags else [] }

  predicate Grants(l: Ladder, name: string, flag: string) { flag in Flags(l, name) }

  /** The capabilities a tier confers: its flags that are capabilities. */
  function Capabilities(l: Ladder, name: string): set<string> {
    set f | f in Flags(l, name) && f in CAPABILITIES
  }

  /** holder vouches for other: it is defined and holds every capability other grants. */
  predicate Dominates(l: Ladder, holder: string, other: string) {
    holder in l && Capabilities(l, other) <= Capabilities(l, holder)
  }

  method GrantsFlag(l: Ladder, name: string, flag: string) returns (r: bool)
    ensures r == Grants(l, name, flag)
  {
    var flags := Flags(l, name);
    for i := 0 to |flags|
      invariant flag !in flags[..i]
    {
      if flags[i] == flag {
        return true;
      }
    }
    return false;
  }

  method TierDominates(l: Ladder, holder: string, other: string) returns (r: bool)
    ensures r == Dominates(l, holder, other)
  {
    if holder !in l {
      return false;
    }
    var flags := Flags(l, other);
    for i := 0 to |flags|
      invariant forall k | 0 <= k < i :: flags[k] in CAPABILITIES ==> flags[k] in Capabilities(l, holder)
    {
      var held := GrantsFlag(l, holder, flags[i]);
      if flags[i] in CAPABILITIES && !held {
        assert flags[i] in Capabilities(l, other);
        return false;
      }
    }
    return true;
  }

  /** The capability flags among some flags that a tier lacks, in order. */
  function Lacking(l: Ladder, holder: string, flags: seq<string>): seq<string> {
    if flags == [] then []
    else
      var (init, f) := (Lacking(l, holder, flags[..|flags| - 1]), flags[|flags| - 1]);
      if f in CAPABILITIES && !Grants(l, holder, f) then init + [f] else init
  }

  lemma {:induction false} LackingMeans(l: Ladder, holder: string, flags: seq<string>, f: string)
    ensures f in Lacking(l, holder, flags) <==> f in flags && f in CAPABILITIES && !Grants(l, holder, f)
  {
    if flags != [] {
      LackingMeans(l, holder, flags[..|flags| - 1], f);
      assert flags == flags[..|flags| - 1] + [flags[|flags| - 1]];
    }
  }

  /** The capabilities a refusal names, sorted: exactly those that make domination fail. */
  method MissingCapabilities(l: Ladder, holder: string, other: string) returns (missing: seq<string>)
    ensures missing == Sort(Lacking(l, holder, Flags(l, other))) && Sorted(missing)
    ensures forall f :: f in missing <==> f in Capabilities(l, other) - Capabilities(l, holder)
    ensures holder in l ==> (missing == [] <==> Dominates(l, holder, other))
  {
    hide Sort, Sorted;
    missing := [];
    var flags := Flags(l, other);
    for i := 0 to |flags|
      invariant missing == Lacking(l, holder, flags[..i])
    {
      assert flags[..i + 1][..i] == flags[..i];
      var held := GrantsFlag(l, holder, flags[i]);
      if flags[i] in CAPABILITIES && !held {
        missing := missing + [flags[i]];
      }
    }
    assert flags[..|flags|] == flags;
    SortIs(missing);
    LackingSorted(l, holder, other, missing, Sort(missing));
    missing := Sort(missing);
  }

  lemma LackingSorted(l: Ladder, holder: string, other: string, lacking: seq<string>, missing: seq<string>)
    requires lacking == Lacking(l, holder, Flags(l, other)) && multiset(missing) == multiset(lacking)
    ensures forall f :: f in missing <==> f in Capabilities(l, other) - Capabilities(l, holder)
    ensures holder in l ==> (missing == [] <==> Dominates(l, holder, other))
  {
    forall f ensures f in missing <==> f in Capabilities(l, other) - Capabilities(l, holder) {
      LackingMeans(l, holder, Flags(l, other), f);
      assert f in missing <==> f in multiset(missing);
      assert f in lacking <==> f in multiset(lacking);
    }
    var gap := Capabilities(l, other) - Capabilities(l, holder);
    if missing == [] {
      assert gap == {} by {
        assert forall f :: f in gap ==> f in missing;
      }
    } else {
      assert missing[0] in missing && missing[0] in gap;
    }
  }

  // ---- the baseline ---------------------------------------------------------------------------

  /** Rung a comes before rung b: lower rank, or the same rank and the smaller name. */
  predicate Below(l: Ladder, a: string, b: string)
    requires a in l && b in l
  {
    l[a].rank < l[b].rank || (l[a].rank == l[b].rank && Less(a, b))
  }

  /** The lowest rung among some names; "" if there are none. */
  ghost predicate IsLowest(l: Ladder, names: set<string>, best: string)
    requires names <= l.Keys
  {
    if names == {} then best == ""
    else best in names && forall n | n in names :: n == best || Below(l, best, n)
  }

  ghost predicate IsBaseline(l: Ladder, best: string) { IsLowest(l, l.Keys, best) }

  /** Map iteration order is arbitrary; the answer is not. */
  lemma BaselineIsUnique(l: Ladder, a: string, b: string)
    requires IsBaseline(l, a) && IsBaseline(l, b)
    ensures a == b
  {
    LessIsTotal(a, b);
  }

  method Baseline(l: Ladder) returns (best: string)
    requires "" !in l
    ensures IsBaseline(l, best)
  {
    best := "";
    var todo := l.Keys;
    ghost var done: set<string> := {};
    while todo != {}
      invariant todo + done == l.Keys && todo !! done
      invariant IsLowest(l, done, best)
      decreases todo
    {
      var name :| name in todo;
      todo := todo - {name};
      LowestStep(l, done, best, name);
      if best == "" || l[name].rank < l[best].rank || (l[name].rank == l[best].rank && Less(name, best)) {
        best := name;
      }
      done := done + {name};
    }
    assert done == l.Keys;
  }

  lemma LowestStep(l: Ladder, done: set<string>, best: string, name: string)
    requires "" !in l && done <= l.Keys && IsLowest(l, done, best) && name in l && name !in done
    ensures best == "" ==> IsLowest(l, done + {name}, name)
    ensures best != "" ==>
              best in l && IsLowest(l, done + {name}, if Below(l, name, best) then name else best)
  {
    if best != "" {
      LessIsTotal(name, best);
      forall n | n in done && Below(l, name, best) ensures Below(l, name, n) {
        if n != best && Less(name, best) && Less(best, n) {
          LessIsTransitive(name, best, n);
        }
      }
    }
  }

  // ---- what the questions mean ----------------------------------------------------------------

  /** The questions, in terms of the rungs: an undefined tier has rank 0, grants nothing and vouches for nothing; the
      capabilities are holylight, builder and admin. */
  lemma QuestionsMean(l: Ladder, name: string, other: string, flag: string)
    ensures Rank(l, name) == if name != "" && name in l then l[name].rank else 0
    ensures Grants(l, name, flag) <==> name in l && flag in l[name].flags
    ensures flag in Capabilities(l, name) <==>
            name in l && flag in l[name].flags && flag in {"holylight", "builder", "admin"}
    ensures Dominates(l, name, other) <==>
            name in l && forall f | f in {"holylight", "builder", "admin"} ::
              other in l && f in l[other].flags ==> f in l[name].flags
  {
    CapabilitiesAre();
    assert forall f :: f in Capabilities(l, other) <==> f in Flags(l, other) && f in CAPABILITIES;
    assert forall f :: f in Capabilities(l, name) <==> f in Flags(l, name) && f in CAPABILITIES;
  }

  lemma CapabilitiesAre()
    ensures forall f :: f in CAPABILITIES <==> f in {"holylight", "builder", "admin"}
  {
  }

  /** The ladder of a pack that declares none. */
  lemma DefaultLadder()
    ensures var l := LadderOf(DEFAULT_TIERS);
            && l.Keys == {"player", "builder", "admin"}
            && l["player"] == Tier("player", 0, [])
            && l["builder"] == Tier("builder", 20, ["holylight", "builder"])
            && l["admin"] == Tier("admin", 40, ["holylight", "builder", "admin"])
  {
    var d := DEFAULT_TIERS;
    assert d[..1] == [d[0]] && d[..2] == [d[0], d[1]] && d[..3] == d;
    assert LadderOf(d[..0]) == map[];
    assert d[..1][..0] == [] && d[..2][..1] == d[..1] && d[..2] == d[..2];
    assert LadderOf(d[..1]) == map["player" := d[0]];
    assert LadderOf(d[..2]) == map["player" := d[0], "builder" := d[1]];
  }
}
