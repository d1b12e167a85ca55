/**
  The lint's report read off the declared tiers: each group of findings is one pass over the tiers, with one
  finding for each place that deserves it, and every condition in terms of the rungs themselves.
*/
module TrustLadderReport {
  import opened Basics
  import opened StringOrder
  import opened TrustLadder
  import opened TrustLadderLint

  const GRANTABLE: set<string> := {"holylight", "builder", "admin"}

  function IfNamed(t: Tier): seq<Tier> { if t.name == "" then [] else [t] }

  function NamedOnes(tiers: seq<Tier>): seq<Tier> { Flatten(Each(tiers, IfNamed)) }

  function NamesOfRank(named: seq<Tier>, rank: int): seq<string> {
    Flatten(Each(named, (t: Tier) => if t.rank == rank then [t.name] else []))
  }

  // ---- what deserves a finding ----------------------------------------------------------------

  function IfNameless(t: Tier): seq<Finding> { if t.name == "" then [Nameless(t.rank, t.flags)] else [] }

  function IfShared(named: seq<Tier>, rank: int): seq<Finding> {
    if |NamesOfRank(named, rank)| >= 2 then [SharedRank(rank, NamesOfRank(named, rank))] else []
  }

  function IfFlagged(baseline: string, name: string, flag: string): seq<Finding> {
    if flag !in GRANTABLE then [NotGrantable(name, flag)]
    else if name == baseline then [BaselineGrants(name, flag)]
    else []
  }

  function OfFlags(baseline: string, t: Tier): seq<Finding> {
    Flatten(Each(t.flags, (f: string) => IfFlagged(baseline, t.name, f)))
  }

  /** Rung a is an admin, outranks rung b, and lacks a capability that b's tier has. */
  ghost predicate CannotGrant(l: Ladder, a: Tier, b: Tier) {
    && a.name in l && "admin" in l[a.name].flags && b.name != a.name && b.rank < a.rank
    && exists f :: f in GRANTABLE && b.name in l && f in l[b.name].flags && f !in l[a.name].flags
  }

  ghost function IfUnnested(l: Ladder, a: Tier, b: Tier): seq<Finding> {
    if CannotGrant(l, a, b) then [NotNested(a.name, b.name)] else []
  }

  ghost function OfPairs(l: Ladder, named: seq<Tier>, a: Tier): seq<Finding> {
    Flatten(Each(named, (b: Tier) => IfUnnested(l, a, b)))
  }

  /** The lowest rung, by name among equals; none in an empty ladder. */
  ghost predicate IsLowestRung(l: Ladder, best: string) {
    if l == map[] then best == ""
    else best in l && forall n | n in l && n != best ::
                        l[best].rank < l[n].rank || (l[best].rank == l[n].rank && Less(best, n))
  }

  ghost predicate Reads(tiers: seq<Tier>, l: Ladder, ranks: seq<int>, baseline: string, out: seq<Finding>) {
    var named := NamedOnes(tiers);
    && Resolves(tiers, l) && IsLowestRung(l, baseline)
    && (forall i, j | 0 <= i < j < |ranks| :: ranks[i] < ranks[j])
    && (forall r :: r in ranks <==> NamesOfRank(named, r) != [])
    && out == Flatten(Each(tiers, IfNameless))
              + Flatten(Each(ranks, (r: int) => IfShared(named, r)))
              + Flatten(Each(named, (t: Tier) => OfFlags(baseline, t)))
              + Flatten(Each(named, (a: Tier) => OfPairs(l, named, a)))
  }

  // ---- the passes -----------------------------------------------------------------------------

  lemma {:induction false} NamedReads(tiers: seq<Tier>)
    ensures Named(tiers) == NamedOnes(tiers)
  {
    if tiers != [] {
      NamedReads(tiers[..|tiers| - 1]);
      FlattenNext(tiers, IfNamed);
    }
  }

  lemma {:induction false} NamesAtReads(named: seq<Tier>, rank: int)
    ensures NamesAt(named, rank) == NamesOfRank(named, rank)
  {
    if named != [] {
      NamesAtReads(named[..|named| - 1], rank);
      FlattenNext(named, (t: Tier) => if t.rank == rank then [t.name] else []);
    }
  }

  lemma {:induction false} NamelessReads(tiers: seq<Tier>)
    ensures NamelessIn(tiers) == Flatten(Each(tiers, IfNameless))
  {
    if tiers != [] {
      NamelessReads(tiers[..|tiers| - 1]);
      FlattenNext(tiers, IfNameless);
    }
  }

  lemma {:induction false} SharedReads(named: seq<Tier>, ranks: seq<int>)
    ensures SharedIn(named, ranks) == Flatten(Each(ranks, (r: int) => IfShared(named, r)))
  {
    if ranks != [] {
      SharedReads(named, ranks[..|ranks| - 1]);
      FlattenNext(ranks, (r: int) => IfShared(named, r));
      NamesAtReads(named, ranks[|ranks| - 1]);
    }
  }

  lemma {:induction false} RungFlagsRead(baseline: string, name: string, flags: seq<string>)
    ensures RungFlagsIn(baseline, name, flags) == Flatten(Each(flags, (f: string) => IfFlagged(baseline, name, f)))
  {
    if flags != [] {
      RungFlagsRead(baseline, name, flags[..|flags| - 1]);
      FlattenNext(flags, (f: string) => IfFlagged(baseline, name, f));
      CapabilitiesAre();
    }
  }

  lemma {:induction false} FlagsRead(baseline: string, named: seq<Tier>)
    ensures FlagsIn(baseline, named) == Flatten(Each(named, (t: Tier) => OfFlags(baseline, t)))
  {
    if named != [] {
      var t := named[|named| - 1];
      FlagsRead(baseline, named[..|named| - 1]);
      FlattenNext(named, (t: Tier) => OfFlags(baseline, t));
      RungFlagsRead(baseline, t.name, t.flags);
    }
  }

  lemma UnnestedReads(l: Ladder, a: Tier, b: Tier)
    ensures Unnested(l, a, b) <==> CannotGrant(l, a, b)
  {
    QuestionsMean(l, a.name, b.name, "admin");
  }

  lemma {:induction false} UnderReads(l: Ladder, a: Tier, others: seq<Tier>)
    ensures UnderIn(l, a, others) == Flatten(Each(others, (b: Tier) => IfUnnested(l, a, b)))
  {
    hide Unnested, CannotGrant;
    if others != [] {
      UnderReads(l, a, others[..|others| - 1]);
      FlattenNext(others, (b: Tier) => IfUnnested(l, a, b));
      UnnestedReads(l, a, others[|others| - 1]);
    }
  }

  lemma {:induction false} NestingReads(l: Ladder, actors: seq<Tier>, named: seq<Tier>)
    ensures NestingIn(l, actors, named) == Flatten(Each(actors, (a: Tier) => OfPairs(l, named, a)))
  {
    if actors != [] {
      NestingReads(l, actors[..|actors| - 1], named);
      FlattenNext(actors, (a: Tier) => OfPairs(l, named, a));
      UnderReads(l, actors[|actors| - 1], named);
    }
  }

  /** The report of a list of tiers, finding by finding and in order. */
  lemma ReportReads(tiers: seq<Tier>, out: seq<Finding>) returns (ranks: seq<int>, baseline: string)
    requires Reports(tiers, out)
    ensures Reads(tiers, LadderOf(tiers), ranks, baseline, out)
  {
    hide NamelessIn, SharedIn, FlagsIn, NestingIn, Named, NamesAt, LadderOf, NamesOfRank, NamedOnes;
    ranks, baseline :| ReportsWith(tiers, ranks, baseline, out);
    var (named, l) := (Named(tiers), LadderOf(tiers));
    LadderResolves(tiers);
    NamedReads(tiers);
    NamelessReads(tiers);
    SharedReads(named, ranks);
    FlagsRead(baseline, named);
    NestingReads(l, named, named);
    forall r ensures r in ranks <==> NamesOfRank(named, r) != [] {
      NamesAtReads(named, r);
    }
  }

  // ---- the reload gate ------------------------------------------------------------------------

  /** Every rung has a name and a rank of its own, and the tier the ladder calls lowest declares no grantable flag. */
  ghost predicate Reloadable(tiers: seq<Tier>) {
    && (forall t | t in tiers :: t.name != "")
    && (forall i, j | 0 <= i < j < |tiers| :: tiers[i].rank != tiers[j].rank)
    && forall t, f | t in tiers && f in t.flags && IsLowestRung(LadderOf(tiers), t.name) :: f !in GRANTABLE
  }

  /** No finding rejects a reload exactly for such ladders, whatever else is reported. */
  lemma PassesReloadIff(tiers: seq<Tier>)
    ensures (forall f | SeverityOf(f) == Reject :: !Found(tiers, f)) <==> Reloadable(tiers)
  {
    hide LadderOf, IsBaseline;
    if forall f | SeverityOf(f) == Reject :: !Found(tiers, f) {
      forall t | t in tiers ensures t.name != "" {
        assert !Found(tiers, Nameless(t.rank, t.flags));
      }
      forall i, j | 0 <= i < j < |tiers| ensures tiers[i].rank != tiers[j].rank {
        RejectFreeRanks(tiers, i, j);
      }
      forall t, f | t in tiers && f in t.flags && IsLowestRung(LadderOf(tiers), t.name) ensures f !in GRANTABLE {
        LowestIsBaseline(LadderOf(tiers), t.name);
        RejectFreeBaseline(tiers, t, f);
        CapabilitiesAre();
      }
    }
    if Reloadable(tiers) {
      forall f | SeverityOf(f) == Reject ensures !Found(tiers, f) {
        ReloadableFinds(tiers, f);
      }
    }
  }

  lemma LowestIsBaseline(l: Ladder, best: string)
    ensures IsBaseline(l, best) <==> IsLowestRung(l, best)
  {
  }

  lemma ReloadableFinds(tiers: seq<Tier>, f: Finding)
    requires Reloadable(tiers) && SeverityOf(f) == Reject
    ensures !Found(tiers, f)
  {
    hide LadderOf, IsBaseline, IsLowestRung;
    match f
    case Nameless(rank, flags) =>
      assert Tier("", rank, flags) in tiers ==> Tier("", rank, flags).name != "";
    case SharedRank(rank, names) =>
      AllNamed(tiers);
      NamesAtCounts(tiers, rank);
    case BaselineGrants(tier, flag) =>
      LowestIsBaseline(LadderOf(tiers), tier);
      CapabilitiesAre();
  }
}
