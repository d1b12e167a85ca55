/**
  The ladder lint of one pack: which findings it reports, in order; every finding is justified, every
  footgun is found, and a ladder without findings satisfies what the promote ceilings need.
*/
module TrustLadderLint {
  import opened StringOrder
  import opened TrustLadder

  datatype Severity = Warn | Reject

  datatype Finding =
    | Nameless(rank: int, flags: seq<string>)
    | SharedRank(rank: int, names: seq<string>)
    | NotGrantable(tier: string, flag: string)
    | BaselineGrants(tier: string, flag: string)
    | NotNested(tier: string, other: string)

  function SeverityOf(f: Finding): Severity {
    if f.NotGrantable? || f.NotNested? then Warn else Reject
  }

  function Named(tiers: seq<Tier>): seq<Tier> {
    if tiers == [] then []
    else
      var (init, t) := (Named(tiers[..|tiers| - 1]), tiers[|tiers| - 1]);
      if t.name == "" then init else init + [t]
  }

  function NamesAt(tiers: seq<Tier>, rank: int): seq<string> {
    if tiers == [] then []
    else
      var (init, t) := (NamesAt(tiers[..|tiers| - 1], rank), tiers[|tiers| - 1]);
      if t.rank == rank then init + [t.name] else init
  }

  /** What justifies each finding, in terms of the declared tiers and the ladder they resolve to. */
  ghost predicate Found(tiers: seq<Tier>, f: Finding) {
    var l := LadderOf(tiers);
    match f
    case Nameless(rank, flags) => Tier("", rank, flags) in tiers
    case SharedRank(rank, names) => names == NamesAt(Named(tiers), rank) && |names| >= 2
    case NotGrantable(tier, flag) => flag !in CAPABILITIES && Declares(tiers, tier, flag)
    case BaselineGrants(tier, flag) => flag in CAPABILITIES && Declares(tiers, tier, flag) && IsBaseline(l, tier)
    case NotNested(tier, other) => Outranks(tiers, tier, other) && Grants(l, tier, ADMIN) && !Dominates(l, tier, other)
  }

  ghost predicate Declares(tiers: seq<Tier>, tier: string, flag: string) {
    tier != "" && exists t :: t in tiers && t.name == tier && flag in t.flags
  }

  /** Some rung named `tier` ranks strictly above some rung of another name. */
  ghost predicate Outranks(tiers: seq<Tier>, tier: string, other: string) {
    && tier != "" && other != "" && tier != other
    && exists a, b :: a in tiers && b in tiers && a.name == tier && b.name == other && b.rank < a.rank
  }

  // ---- dropping nameless rungs ----------------------------------------------------------------

  lemma {:induction false} NamedIs(tiers: seq<Tier>)
    ensures forall t :: t in Named(tiers) <==> t in tiers && t.name != ""
  {
    if tiers != [] {
      var (init, t) := (tiers[..|tiers| - 1], tiers[|tiers| - 1]);
      NamedIs(init);
      assert tiers == init + [t];
    }
  }

  lemma {:induction false} NamedLadder(tiers: seq<Tier>)
    ensures LadderOf(Named(tiers)) == LadderOf(tiers)
  {
    if tiers != [] {
      NamedLadder(tiers[..|tiers| - 1]);
    }
  }

  lemma FoundInNamed(tiers: seq<Tier>, f: Finding)
    requires !f.Nameless?
    ensures Found(Named(tiers), f) <==> Found(tiers, f)
  {
    hide LadderOf;
    NamedIs(tiers);
    NamedLadder(tiers);
    NamedTwice(tiers);
  }

  lemma {:induction false} NamedTwice(tiers: seq<Tier>)
    ensures Named(Named(tiers)) == Named(tiers)
  {
    if tiers != [] {
      var (init, t) := (tiers[..|tiers| - 1], tiers[|tiers| - 1]);
      NamedTwice(init);
      if t.name != "" {
        assert Named(tiers)[..|Named(tiers)| - 1] == Named(init);
      }
    }
  }

  // ---- what the lint reports, in order --------------------------------------------------------

  function NamelessIn(tiers: seq<Tier>): seq<Finding> {
    if tiers == [] then []
    else
      var (init, t) := (NamelessIn(tiers[..|tiers| - 1]), tiers[|tiers| - 1]);
      if t.name == "" then init + [Nameless(t.rank, t.flags)] else init
  }

  predicate Ascending(ranks: seq<int>) { forall i, j | 0 <= i < j < |ranks| :: ranks[i] < ranks[j] }

  /** The ranks in use: ascending, each once. */
  ghost predicate AreRanks(named: seq<Tier>, ranks: seq<int>) {
    Ascending(ranks) && forall r :: r in ranks <==> NamesAt(named, r) != []
  }

  function SharedIn(named: seq<Tier>, ranks: seq<int>): seq<Finding> {
    if ranks == [] then []
    else
      var (init, r) := (SharedIn(named, ranks[..|ranks| - 1]), ranks[|ranks| - 1]);
      if |NamesAt(named, r)| >= 2 then init + [SharedRank(r, NamesAt(named, r))] else init
  }

  function FlagIn(baseline: string, name: string, flag: string): seq<Finding> {
    if flag !in CAPABILITIES then [NotGrantable(name, flag)]
    else if name == baseline then [BaselineGrants(name, flag)]
    else []
  }

  function RungFlagsIn(baseline: string, name: string, flags: seq<string>): seq<Finding> {
    if flags == [] then []
    else RungFlagsIn(baseline, name, flags[..|flags| - 1]) + FlagIn(baseline, name, flags[|flags| - 1])
  }

  function FlagsIn(baseline: string, named: seq<Tier>): seq<Finding> {
    if named == [] then []
    else
      var t := named[|named| - 1];
      FlagsIn(baseline, named[..|named| - 1]) + RungFlagsIn(baseline, t.name, t.flags)
  }

  /** An admin-capable rung that outranks another rung without dominating it. */
  predicate Unnested(l: Ladder, a: Tier, b: Tier) {
    Grants(l, a.name, ADMIN) && b.name != a.name && b.rank < a.rank && !Dominates(l, a.name, b.name)
  }

  function UnderIn(l: Ladder, a: Tier, others: seq<Tier>): seq<Finding> {
    if others == [] then []
    else
      var b := others[|others| - 1];
      UnderIn(l, a, others[..|others| - 1]) + if Unnested(l, a, b) then [NotNested(a.name, b.name)] else []
  }

  function NestingIn(l: Ladder, actors: seq<Tier>, named: seq<Tier>): seq<Finding> {
    if actors == [] then []
    else NestingIn(l, actors[..|actors| - 1], named) + UnderIn(l, actors[|actors| - 1], named)
  }

  /** The whole report: nameless rungs, shared ranks in ascending order, flags, nesting; one finding for each
      occurrence. */
  ghost predicate Reports(tiers: seq<Tier>, out: seq<Finding>) {
    exists ranks, baseline :: ReportsWith(tiers, ranks, baseline, out)
  }

  ghost predicate ReportsWith(tiers: seq<Tier>, ranks: seq<int>, baseline: string, out: seq<Finding>) {
    var (named, l) := (Named(tiers), LadderOf(tiers));
    && AreRanks(named, ranks) && IsBaseline(l, baseline)
    && out == NamelessIn(tiers) + SharedIn(named, ranks) + FlagsIn(baseline, named) + NestingIn(l, named, named)
  }

  lemma {:induction false} AscendingIsUnique(a: seq<int>, b: seq<int>)
    requires Ascending(a) && Ascending(b) && forall r :: r in a <==> r in b
    ensures a == b
  {
    if a == [] && b != [] {
      SameLast(b, a);
    } else if a != [] {
      SameLast(a, b);
      var (x, y) := (a[|a| - 1], b[|b| - 1]);
      var (a', b') := (a[..|a| - 1], b[..|b| - 1]);
      forall r ensures r in a' <==> r in b' {
        InInit(a, r);
        InInit(b, r);
      }
      AscendingIsUnique(a', b');
      assert a == a' + [x] && b == b' + [y];
    }
  }

  lemma SameLast(a: seq<int>, b: seq<int>)
    requires a != [] && Ascending(a) && Ascending(b) && forall r :: r in a <==> r in b
    ensures b != [] && a[|a| - 1] == b[|b| - 1]
  {
    var x := a[|a| - 1];
    assert x in b;
    var i :| 0 <= i < |b| && b[i] == x;
    var y := b[|b| - 1];
    assert y in a;
    var j :| 0 <= j < |a| && a[j] == y;
  }

  lemma InInit(a: seq<int>, r: int)
    requires a != [] && Ascending(a)
    ensures r in a[..|a| - 1] <==> r in a && r != a[|a| - 1]
  {
    var n := |a| - 1;
    if r in a && r != a[n] {
      var i :| 0 <= i < |a| && a[i] == r;
      assert a[..n][i] == r;
    }
  }

  /** There is one report. */
  lemma ReportIsUnique(tiers: seq<Tier>, a: seq<Finding>, b: seq<Finding>)
    requires Reports(tiers, a) && Reports(tiers, b)
    ensures a == b
  {
    hide LadderOf, IsBaseline, NamelessIn, SharedIn, FlagsIn, NestingIn, Named, NamesAt, Ascending;
    var r, x :| ReportsWith(tiers, r, x, a);
    var q, y :| ReportsWith(tiers, q, y, b);
    AscendingIsUnique(r, q);
    BaselineIsUnique(LadderOf(tiers), x, y);
  }

  // ---- the report is justified and complete ---------------------------------------------------

  lemma {:induction false} NamelessFound(tiers: seq<Tier>, f: Finding)
    ensures f in NamelessIn(tiers) <==> f.Nameless? && Tier("", f.rank, f.flags) in tiers
  {
    if tiers != [] {
      NamelessFound(tiers[..|tiers| - 1], f);
      assert tiers == tiers[..|tiers| - 1] + [tiers[|tiers| - 1]];
    }
  }

  lemma {:induction false} SharedFound(named: seq<Tier>, ranks: seq<int>, f: Finding)
    ensures f in SharedIn(named, ranks) <==>
            f.SharedRank? && f.rank in ranks && f.names == NamesAt(named, f.rank) && |f.names| >= 2
  {
    if ranks != [] {
      SharedFound(named, ranks[..|ranks| - 1], f);
      assert ranks == ranks[..|ranks| - 1] + [ranks[|ranks| - 1]];
    }
  }

  lemma {:induction false} RungFlagsFound(baseline: string, name: string, flags: seq<string>, f: Finding)
    ensures f in RungFlagsIn(baseline, name, flags) <==>
            (f.NotGrantable? || f.BaselineGrants?) && f.flag in flags && f in FlagIn(baseline, name, f.flag)
  {
    if flags != [] {
      var (init, g) := (flags[..|flags| - 1], flags[|flags| - 1]);
      RungFlagsFound(baseline, name, init, f);
      assert flags == init + [g];
    }
  }

  /** The finding is about a flag of this rung. */
  predicate AboutFlag(baseline: string, t: Tier, f: Finding) {
    (f.NotGrantable? || f.BaselineGrants?) && f.flag in t.flags && f in FlagIn(baseline, t.name, f.flag)
  }

  lemma {:induction false} FlagsFound(baseline: string, named: seq<Tier>, f: Finding)
    ensures f in FlagsIn(baseline, named) <==> exists t :: t in named && AboutFlag(baseline, t, f)
  {
    if named != [] {
      var (init, t) := (named[..|named| - 1], named[|named| - 1]);
      FlagsFound(baseline, init, f);
      RungFlagsFound(baseline, t.name, t.flags, f);
      assert named == init + [t];
      assert t in named;
      if s :| s in init && AboutFlag(baseline, s, f) {
        assert s in named;
      }
      if s :| s in named && AboutFlag(baseline, s, f) {
        assert s == t || s in init;
      }
    }
  }

  lemma {:induction false} UnderFound(l: Ladder, a: Tier, others: seq<Tier>, f: Finding)
    ensures f in UnderIn(l, a, others) <==>
            exists b :: b in others && Unnested(l, a, b) && f == NotNested(a.name, b.name)
  {
    hide Grants, Dominates;
    if others != [] {
      var (init, b) := (others[..|others| - 1], others[|others| - 1]);
      UnderFound(l, a, init, f);
      assert others == init + [b];
      assert b in others;
      if c :| c in init && Unnested(l, a, c) && f == NotNested(a.name, c.name) {
        assert c in others;
      }
      if c :| c in others && Unnested(l, a, c) && f == NotNested(a.name, c.name) {
        assert c == b || c in init;
      }
    }
  }

  predicate AboutPair(l: Ladder, a: Tier, b: Tier, f: Finding) { Unnested(l, a, b) && f == NotNested(a.name, b.name) }

  lemma {:induction false} NestingFound(l: Ladder, actors: seq<Tier>, named: seq<Tier>, f: Finding)
    ensures f in NestingIn(l, actors, named) <==> exists a, b :: a in actors && b in named && AboutPair(l, a, b, f)
  {
    hide Unnested;
    if actors != [] {
      var (init, a) := (actors[..|actors| - 1], actors[|actors| - 1]);
      NestingFound(l, init, named, f);
      UnderFound(l, a, named, f);
      assert actors == init + [a];
      if b :| b in named && Unnested(l, a, b) && f == NotNested(a.name, b.name) {
        assert AboutPair(l, a, b, f);
      }
      if x, b :| x in init && b in named && AboutPair(l, x, b, f) {
        assert x in actors;
      }
      if x, b :| x in actors && b in named && AboutPair(l, x, b, f) {
        assert x == a || x in init;
      }
    }
  }

  lemma FlagsJustified(named: seq<Tier>, l: Ladder, baseline: string, f: Finding)
    requires l == LadderOf(named) && IsBaseline(l, baseline) && forall t | t in named :: t.name != ""
    ensures f in FlagsIn(baseline, named) <==> (f.NotGrantable? || f.BaselineGrants?) && Found(named, f)
  {
    hide IsBaseline, LadderOf, FlagsIn;
    FlagsFound(baseline, named, f);
    if f.NotGrantable? || f.BaselineGrants? {
      SameBaseline(l, baseline, f.tier);
    }
    if t :| t in named && AboutFlag(baseline, t, f) {
      assert Declares(named, t.name, f.flag);
    }
    if (f.NotGrantable? || f.BaselineGrants?) && Found(named, f) {
      var t :| t in named && t.name == f.tier && f.flag in t.flags;
      assert AboutFlag(baseline, t, f);
    }
  }

  lemma SameBaseline(l: Ladder, baseline: string, name: string)
    requires IsBaseline(l, baseline)
    ensures IsBaseline(l, name) <==> name == baseline
  {
    if IsBaseline(l, name) {
      BaselineIsUnique(l, baseline, name);
    }
  }

  lemma NestingJustified(named: seq<Tier>, l: Ladder, f: Finding)
    requires l == LadderOf(named) && forall t | t in named :: t.name != ""
    ensures f in NestingIn(l, named, named) <==> f.NotNested? && Found(named, f)
  {
    hide Grants, Dominates, LadderOf, NestingIn;
    NestingFound(l, named, named, f);
    if a, b :| a in named && b in named && AboutPair(l, a, b, f) {
      assert Outranks(named, a.name, b.name);
    }
  }

  lemma SharedJustified(named: seq<Tier>, ranks: seq<int>, f: Finding)
    requires Named(named) == named && AreRanks(named, ranks)
    ensures f in SharedIn(named, ranks) <==> f.SharedRank? && Found(named, f)
  {
    hide LadderOf, SharedIn, NamesAt;
    SharedFound(named, ranks, f);
  }

  /** The report holds exactly the justified findings. */
  lemma ReportIsExact(tiers: seq<Tier>, out: seq<Finding>, f: Finding)
    requires Reports(tiers, out)
    ensures f in out <==> Found(tiers, f)
  {
    var (named, l) := (Named(tiers), LadderOf(tiers));
    var ranks, baseline :| ReportsWith(tiers, ranks, baseline, out);
    NamedIs(tiers);
    NamedLadder(tiers);
    NamedTwice(tiers);
    NamelessFound(tiers, f);
    SharedJustified(named, ranks, f);
    FlagsJustified(named, l, baseline, f);
    NestingJustified(named, l, f);
    if !f.Nameless? {
      FoundInNamed(tiers, f);
    }
  }

  // ---- the lint loops -------------------------------------------------------------------------

  method LintNames(tiers: seq<Tier>) returns (named: seq<Tier>, out: seq<Finding>)
    ensures named == Named(tiers) && out == NamelessIn(tiers)
  {
    named, out := [], [];
    for k := 0 to |tiers|
      invariant named == Named(tiers[..k]) && out == NamelessIn(tiers[..k])
    {
      var t := tiers[k];
      assert tiers[..k + 1][..k] == tiers[..k];
      if t.name == "" {
        out := out + [Nameless(t.rank, t.flags)];
      } else {
        named := named + [t];
      }
    }
    assert tiers[..|tiers|] == tiers;
  }

  lemma SomeRank(ranks: set<int>)
    ensures ranks == {} || exists r :: r in ranks
  {
    if forall r :: r !in ranks {
      assert ranks == {};
    }
  }

  function InsertRank(r: int, ranks: seq<int>): seq<int> {
    if ranks == [] || ranks[|ranks| - 1] < r then ranks + [r]
    else InsertRank(r, ranks[..|ranks| - 1]) + [ranks[|ranks| - 1]]
  }

  lemma {:induction false} InsertRankIs(r: int, ranks: seq<int>)
    requires Ascending(ranks) && r !in ranks
    ensures Ascending(InsertRank(r, ranks)) && forall x :: x in InsertRank(r, ranks) <==> x == r || x in ranks
  {
    if ranks != [] && ranks[|ranks| - 1] > r {
      var (init, last) := (ranks[..|ranks| - 1], ranks[|ranks| - 1]);
      InsertRankIs(r, init);
      assert ranks == init + [last];
      var out := InsertRank(r, init);
      forall i | 0 <= i < |out| ensures out[i] < last {
        assert out[i] in out;
      }
    }
  }

  /** The ranks of a map, gathered in any order and sorted. */
  method SortedRanks(byRank: map<int, seq<string>>) returns (ranks: seq<int>)
    ensures Ascending(ranks) && forall r :: r in ranks <==> r in byRank
  {
    ranks := [];
    var todo := byRank.Keys;
    while todo != {}
      invariant todo <= byRank.Keys && Ascending(ranks)
      invariant forall r :: r in ranks <==> r in byRank && r !in todo
      decreases todo
    {
      SomeRank(todo);
      var r :| r in todo;
      todo := todo - {r};
      InsertRankIs(r, ranks);
      ranks := InsertRank(r, ranks);
    }
  }

  method LintRanks(named: seq<Tier>) returns (out: seq<Finding>, ranks: seq<int>)
    ensures AreRanks(named, ranks) && out == SharedIn(named, ranks)
  {
    var byRank: map<int, seq<string>> := map[];
    for k := 0 to |named|
      invariant forall r :: r in byRank <==> NamesAt(named[..k], r) != []
      invariant forall r | r in byRank :: byRank[r] == NamesAt(named[..k], r)
    {
      var t := named[k];
      assert named[..k + 1][..k] == named[..k];
      byRank := byRank[t.rank := (if t.rank in byRank then byRank[t.rank] else []) + [t.name]];
    }
    assert named[..|named|] == named;
    var sorted := SortedRanks(byRank);
    out, ranks := [], sorted;
    for k := 0 to |sorted|
      invariant out == SharedIn(named, sorted[..k])
    {
      assert sorted[..k + 1][..k] == sorted[..k];
      assert sorted[k] in sorted;
      var names := byRank[sorted[k]];
      if |names| < 2 {
        continue;
      }
      out := out + [SharedRank(sorted[k], names)];
    }
    assert sorted[..|sorted|] == sorted;
  }

  method LintRungFlags(baseline: string, name: string, flags: seq<string>) returns (out: seq<Finding>)
    ensures out == RungFlagsIn(baseline, name, flags)
  {
    out := [];
    for i := 0 to |flags|
      invariant out == RungFlagsIn(baseline, name, flags[..i])
    {
      assert flags[..i + 1][..i] == flags[..i];
      if flags[i] !in CAPABILITIES {
        out := out + [NotGrantable(name, flags[i])];
        continue;
      }
      if name == baseline {
        out := out + [BaselineGrants(name, flags[i])];
      }
    }
    assert flags[..|flags|] == flags;
  }

  method LintFlags(named: seq<Tier>, baseline: string) returns (out: seq<Finding>)
    ensures out == FlagsIn(baseline, named)
  {
    hide RungFlagsIn;
    out := [];
    for k := 0 to |named|
      invariant out == FlagsIn(baseline, named[..k])
    {
      assert named[..k + 1][..k] == named[..k];
      var more := LintRungFlags(baseline, named[k].name, named[k].flags);
      out := out + more;
    }
    assert named[..|named|] == named;
  }

  method LintNesting(named: seq<Tier>, l: Ladder) returns (out: seq<Finding>)
    ensures out == NestingIn(l, named, named)
  {
    hide Grants, Dominates;
    out := [];
    for i := 0 to |named|
      invariant out == NestingIn(l, named[..i], named)
    {
      assert named[..i + 1][..i] == named[..i];
      var under := LintUnder(l, named[i], named);
      out := out + under;
    }
    assert named[..|named|] == named;
  }

  /** The inner loop, skipped for a rung that is not admin-capable. */
  method LintUnder(l: Ladder, actor: Tier, named: seq<Tier>) returns (out: seq<Finding>)
    ensures out == UnderIn(l, actor, named)
  {
    hide Grants, Dominates;
    out := [];
    var admin := GrantsFlag(l, actor.name, ADMIN);
    if !admin {
      NothingUnder(l, actor, named);
      return;
    }
    for j := 0 to |named|
      invariant out == UnderIn(l, actor, named[..j])
    {
      assert named[..j + 1][..j] == named[..j];
      var dominated := TierDominates(l, actor.name, named[j].name);
      if named[j].name == actor.name || named[j].rank >= actor.rank || dominated {
        continue;
      }
      out := out + [NotNested(actor.name, named[j].name)];
    }
    assert named[..|named|] == named;
  }

  lemma {:induction false} NothingUnder(l: Ladder, actor: Tier, named: seq<Tier>)
    requires !Grants(l, actor.name, ADMIN)
    ensures UnderIn(l, actor, named) == []
  {
    hide Dominates, Grants;
    if named != [] {
      NothingUnder(l, actor, named[..|named| - 1]);
    }
  }

  /** The whole lint of a sorted ladder; a pack without a ladder has no findings. */
  method Lint(tiers: seq<Tier>) returns (out: seq<Finding>)
    ensures Reports(tiers, out)
  {
    hide LadderOf, IsBaseline, NamelessIn, SharedIn, FlagsIn, NestingIn, Named, NamesAt, AreRanks;
    var named, names := LintNames(tiers);
    NamedLadder(tiers);
    if |named| == 0 {
      SilentWhenUnnamed(tiers, names);
      return names;
    }
    var shared, ranks := LintRanks(named);
    var l := NewLadder(named);
    LadderHasNoEmptyName(named);
    var baseline := Baseline(l);
    var flags := LintFlags(named, baseline);
    var nesting := LintNesting(named, l);
    out := names + shared + flags + nesting;
    assert ReportsWith(tiers, ranks, baseline, out);
  }

  lemma SilentWhenUnnamed(tiers: seq<Tier>, names: seq<Finding>)
    requires Named(tiers) == [] && names == NamelessIn(tiers)
    ensures Reports(tiers, names)
  {
    hide NamelessIn, Named;
    NamedLadder(tiers);
    var ranks: seq<int> := [];
    assert ReportsWith(tiers, ranks, "", names);
  }

  // ---- sorting by name ------------------------------------------------------------------------

  predicate NameSorted(tiers: seq<Tier>) { forall i, j | 0 <= i < j < |tiers| :: !Less(tiers[j].name, tiers[i].name) }

  /** The lint of a pack: its tiers are sorted by name first, by any sort; the report names them in that
      order. */
  method LintPack(declared: seq<Tier>) returns (out: seq<Finding>, tiers: seq<Tier>)
    ensures multiset(tiers) == multiset(declared) && NameSorted(tiers) && Reports(tiers, out)
  {
    hide Reports, NameSorted;
    tiers := SortTiers(declared);
    out := Lint(tiers);
  }

  method SortTiers(declared: seq<Tier>) returns (tiers: seq<Tier>)
    ensures multiset(tiers) == multiset(declared) && NameSorted(tiers)
  {
    tiers := [];
    for k := 0 to |declared|
      invariant multiset(tiers) == multiset(declared[..k]) && NameSorted(tiers)
    {
      assert declared[..k + 1] == declared[..k] + [declared[k]];
      InsertTierKeeps(declared[k], tiers);
      InsertTierSorts(declared[k], tiers);
      tiers := InsertTier(declared[k], tiers);
    }
    assert declared[..|declared|] == declared;
  }

  function InsertTier(t: Tier, tiers: seq<Tier>): seq<Tier> {
    if tiers == [] || !Less(t.name, tiers[|tiers| - 1].name) then tiers + [t]
    else InsertTier(t, tiers[..|tiers| - 1]) + [tiers[|tiers| - 1]]
  }

  lemma {:induction false} InsertTierKeeps(t: Tier, tiers: seq<Tier>)
    ensures multiset(InsertTier(t, tiers)) == multiset(tiers) + multiset{t}
  {
    if tiers != [] && Less(t.name, tiers[|tiers| - 1].name) {
      InsertTierKeeps(t, tiers[..|tiers| - 1]);
      assert tiers == tiers[..|tiers| - 1] + [tiers[|tiers| - 1]];
    }
  }

  lemma {:induction false} InsertTierSorts(t: Tier, tiers: seq<Tier>)
    requires NameSorted(tiers)
    ensures NameSorted(InsertTier(t, tiers))
  {
    hide Less;
    if tiers == [] || !Less(t.name, tiers[|tiers| - 1].name) {
      forall i | 0 <= i < |tiers| ensures !Less(t.name, tiers[i].name) {
        if i < |tiers| - 1 {
          NotBefore(tiers[i].name, tiers[|tiers| - 1].name, t.name);
        }
      }
    } else {
      var (init, last) := (tiers[..|tiers| - 1], tiers[|tiers| - 1]);
      InsertTierSorts(t, init);
      assert tiers == init + [last];
      forall i | 0 <= i < |InsertTier(t, init)| ensures !Less(last.name, InsertTier(t, init)[i].name) {
        InsertedBefore(t, init, last, i);
      }
    }
  }

  lemma InsertedBefore(t: Tier, init: seq<Tier>, last: Tier, i: nat)
    requires NameSorted(init + [last]) && Less(t.name, last.name) && i < |InsertTier(t, init)|
    ensures !Less(last.name, InsertTier(t, init)[i].name)
  {
    hide Less, InsertTier;
    var (tiers, out) := (init + [last], InsertTier(t, init));
    InsertTierKeeps(t, init);
    assert out[i] in multiset(out);
    assert out[i] == t || out[i] in init;
    if out[i] in init {
      var k :| 0 <= k < |init| && init[k] == out[i];
      assert tiers[k] == out[i] && tiers[|init|] == last;
    }
    LessIsTotal(t.name, last.name);
  }

  // ---- what a clean ladder gives --------------------------------------------------------------

  predicate DistinctRanks(tiers: seq<Tier>) {
    forall i, j | 0 <= i < j < |tiers| :: tiers[i].rank != tiers[j].rank
  }

  ghost predicate Clean(tiers: seq<Tier>) {
    var l := LadderOf(tiers);
    && (forall t | t in tiers :: t.name != "" && forall f | f in t.flags :: f in CAPABILITIES)
    && DistinctRanks(tiers)
    && (forall t | t in tiers && IsBaseline(l, t.name) :: t.flags == [])
    && (forall a, b | a in tiers && b in tiers && b.rank < a.rank && a.name != b.name && Grants(l, a.name, ADMIN) ::
          Dominates(l, a.name, b.name))
  }

  lemma {:induction false} NamesAtCounts(tiers: seq<Tier>, rank: int)
    ensures NamesAt(tiers, rank) != [] <==> exists i :: 0 <= i < |tiers| && tiers[i].rank == rank
    ensures |NamesAt(tiers, rank)| >= 2 <==>
            exists i, j :: 0 <= i < j < |tiers| && tiers[i].rank == rank && tiers[j].rank == rank
  {
    if tiers != [] {
      var (n, init) := (|tiers| - 1, tiers[..|tiers| - 1]);
      NamesAtCounts(init, rank);
      assert forall i | 0 <= i < n :: init[i] == tiers[i];
      if i, j :| 0 <= i < j < |init| && init[i].rank == rank && init[j].rank == rank {
        assert tiers[i].rank == rank && tiers[j].rank == rank;
      }
      if i :| 0 <= i < |init| && init[i].rank == rank {
        assert tiers[i].rank == rank && tiers[n] == tiers[n];
      }
    }
  }

  lemma {:induction false} AllNamed(tiers: seq<Tier>)
    ensures Named(tiers) == tiers <==> forall t | t in tiers :: t.name != ""
    ensures |Named(tiers)| <= |tiers|
  {
    if tiers != [] {
      var (init, t) := (tiers[..|tiers| - 1], tiers[|tiers| - 1]);
      AllNamed(init);
      assert tiers == init + [t];
    }
  }

  /** The lint is silent exactly on the clean ladders. */
  lemma SilentIffClean(tiers: seq<Tier>)
    ensures (forall f :: !Found(tiers, f)) <==> Clean(tiers)
  {
    hide LadderOf, IsBaseline, Grants, Dominates, Named, NamesAt;
    AllNamed(tiers);
    if forall f :: !Found(tiers, f) {
      SilentIsClean(tiers);
    }
    if Clean(tiers) {
      forall f ensures !Found(tiers, f) {
        if f.SharedRank? {
          NamesAtCounts(tiers, f.rank);
        }
      }
    }
  }

  /** The report is empty exactly for the clean ladders. */
  lemma EmptyReportIffClean(tiers: seq<Tier>, out: seq<Finding>)
    requires Reports(tiers, out)
    ensures out == [] <==> Clean(tiers)
  {
    hide Found, Reports, Clean;
    forall f ensures f in out <==> Found(tiers, f) {
      ReportIsExact(tiers, out, f);
    }
    SilentIffClean(tiers);
    assert out != [] ==> out[0] in out;
  }

  lemma SilentFlag(tiers: seq<Tier>, t: Tier, f: string)
    requires (forall g :: !Found(tiers, g)) && t in tiers && f in t.flags
    ensures f in CAPABILITIES && !IsBaseline(LadderOf(tiers), t.name)
  {
    hide LadderOf, IsBaseline;
    assert !Found(tiers, Nameless(t.rank, t.flags));
    assert Declares(tiers, t.name, f);
    assert !Found(tiers, NotGrantable(t.name, f));
    assert !Found(tiers, BaselineGrants(t.name, f));
  }

  lemma SilentIsClean(tiers: seq<Tier>)
    requires forall f :: !Found(tiers, f)
    ensures Clean(tiers)
  {
    hide LadderOf, IsBaseline, Grants, Dominates, Named, NamesAt;
    AllNamed(tiers);
    forall t | t in tiers ensures t.name != "" {
      assert !Found(tiers, Nameless(t.rank, t.flags));
    }
    forall t, f | t in tiers && f in t.flags ensures f in CAPABILITIES {
      SilentFlag(tiers, t, f);
    }
    forall t | t in tiers && IsBaseline(LadderOf(tiers), t.name) ensures t.flags == [] {
      if t.flags != [] {
        SilentFlag(tiers, t, t.flags[0]);
      }
    }
    forall i, j | 0 <= i < j < |tiers| ensures tiers[i].rank != tiers[j].rank {
      var r := tiers[i].rank;
      NamesAtCounts(tiers, r);
      assert !Found(tiers, SharedRank(r, NamesAt(Named(tiers), r)));
    }
    forall a, b | a in tiers && b in tiers && b.rank < a.rank && a.name != b.name
      && Grants(LadderOf(tiers), a.name, ADMIN)
      ensures Dominates(LadderOf(tiers), a.name, b.name)
    {
      assert !Found(tiers, NotNested(a.name, b.name));
      assert Outranks(tiers, a.name, b.name);
    }
  }

  lemma RungOf(tiers: seq<Tier>, n: string) returns (i: nat)
    requires n in LadderOf(tiers)
    ensures i < |tiers| && tiers[i].name == n && tiers[i] == LadderOf(tiers)[n] && n != ""
  {
    hide LadderOf;
    LadderResolves(tiers);
    i :| 0 <= i < |tiers| && Defines(tiers, i) && tiers[i].name == n;
  }

  /** On a ladder the lint is silent about: ranks are injective, the baseline grants no capability, and an
      admin-capable tier dominates every tier ranked at or below it. */
  lemma CleanLadder(tiers: seq<Tier>)
    requires forall f :: !Found(tiers, f)
    ensures var l := LadderOf(tiers);
            && (forall m, n | m in l && n in l && Rank(l, m) == Rank(l, n) :: m == n)
            && (forall n | IsBaseline(l, n) :: Capabilities(l, n) == {})
            && (forall m, n | m in l && n in l && Grants(l, m, ADMIN) && Rank(l, n) <= Rank(l, m) :: Dominates(l, m, n))
  {
    SilentIsClean(tiers);
    var l := LadderOf(tiers);
    forall m, n | m in l && n in l && Rank(l, m) == Rank(l, n) ensures m == n {
      var i := RungOf(tiers, m);
      var j := RungOf(tiers, n);
    }
    forall n | IsBaseline(l, n) ensures Capabilities(l, n) == {} {
      if n in l {
        var i := RungOf(tiers, n);
        assert tiers[i] in tiers;
      }
    }
    forall m, n | m in l && n in l && Grants(l, m, ADMIN) && Rank(l, n) <= Rank(l, m) ensures Dominates(l, m, n) {
      var i := RungOf(tiers, m);
      var j := RungOf(tiers, n);
      assert tiers[i] in tiers && tiers[j] in tiers;
    }
  }

  /** What passing the reload gate alone gives: without a Reject finding, ranks are injective and the
      baseline grants no capability, whatever warnings remain. */
  lemma RejectFreeLadder(tiers: seq<Tier>)
    requires forall f | SeverityOf(f) == Reject :: !Found(tiers, f)
    ensures var l := LadderOf(tiers);
            && (forall m, n | m in l && n in l && Rank(l, m) == Rank(l, n) :: m == n)
            && (forall n | IsBaseline(l, n) :: Capabilities(l, n) == {})
  {
    hide LadderOf, IsBaseline, Found;
    var l := LadderOf(tiers);
    forall m, n | m in l && n in l && Rank(l, m) == Rank(l, n) ensures m == n {
      var i := RungOf(tiers, m);
      var j := RungOf(tiers, n);
      if i != j {
        RejectFreeRanks(tiers, if i < j then i else j, if i < j then j else i);
      }
    }
    forall n | IsBaseline(l, n) ensures Capabilities(l, n) == {} {
      if n in l {
        var i := RungOf(tiers, n);
        forall f | f in tiers[i].flags ensures f !in CAPABILITIES {
          RejectFreeBaseline(tiers, tiers[i], f);
        }
      }
    }
  }

  lemma RejectFreeRanks(tiers: seq<Tier>, i: nat, j: nat)
    requires (forall f | SeverityOf(f) == Reject :: !Found(tiers, f)) && i < j < |tiers|
    ensures tiers[i].rank != tiers[j].rank
  {
    hide LadderOf, IsBaseline, Named, NamesAt;
    AllNamed(tiers);
    forall t | t in tiers ensures t.name != "" {
      assert !Found(tiers, Nameless(t.rank, t.flags));
    }
    var r := tiers[i].rank;
    NamesAtCounts(tiers, r);
    assert !Found(tiers, SharedRank(r, NamesAt(Named(tiers), r)));
  }

  lemma RejectFreeBaseline(tiers: seq<Tier>, t: Tier, f: string)
    requires (forall g | SeverityOf(g) == Reject :: !Found(tiers, g)) && t in tiers && t.name != "" && f in t.flags
    requires IsBaseline(LadderOf(tiers), t.name)
    ensures f !in CAPABILITIES
  {
    hide LadderOf, IsBaseline;
    assert Declares(tiers, t.name, f);
    assert !Found(tiers, BaselineGrants(t.name, f));
  }
}
