/**
  Any number of concurrent SetAccountTier calls over one fixed ladder.  Each call reads the actor's tier,
  resolves its target, reads the target's tier and writes by compare-and-set; those steps interleave
  freely, any read or write may fail, and a write may commit although the caller sees an error.
*/
module TierProtocol {
  import opened Basics
  import opened TrustLadder
  import opened TierService

  datatype Phase =
    | Started
    | Authorized(actorTier: string)
    | Resolved(actorTier: string, target: Account)
    | Checked(actorTier: string, target: Account, targetTier: string)
    | Done

  datatype Call = Call(req: Request, phase: Phase)

  datatype Sys = Sys(tiers: map<Account, string>, calls: seq<Call>)

  datatype Step =
    | Begin(req: Request)
    | ReadActor(call: nat)
    | Resolve(call: nat, target: Account)
    | ReadTarget(call: nat)
    | Write(call: nat)
    | GiveUp(call: nat)                       // a failed read or write, or a missing character

  function TierIn(s: Sys, a: Account): Option<string> { if a in s.tiers then Some(s.tiers[a]) else None }

  predicate Enabled(s: Sys, step: Step) {
    match step
    case Begin(_) => true
    case ReadActor(c) => c < |s.calls| && s.calls[c].phase.Started?
    case Resolve(c, _) => c < |s.calls| && s.calls[c].phase.Authorized?
    case ReadTarget(c) => c < |s.calls| && s.calls[c].phase.Resolved?
    case Write(c) => c < |s.calls| && s.calls[c].phase.Checked?
    case GiveUp(c) => c < |s.calls|
  }

  /** The row-locked write: it changes the tier only if it is still the one that was checked. */
  function Cas(tiers: map<Account, string>, target: Account, expected: string, newTier: string): map<Account, string> {
    if target in tiers && tiers[target] == expected then tiers[target := newTier] else tiers
  }

  /** Where a step takes its call. */
  function NextPhase(l: Ladder, baseline: string, s: Sys, step: Step): Phase
    requires Enabled(s, step) && !step.Begin?
  {
    var call := s.calls[step.call];
    match step
    case ReadActor(_) =>
      var tier := TierIn(s, call.req.actor);
      if CheckGrant(l, tier, Requested(call.req.newTier, baseline)).Some? then Done else Authorized(tier.value)
    case Resolve(_, target) => Resolved(call.phase.actorTier, target)
    case ReadTarget(_) =>
      var (actorTier, target) := (call.phase.actorTier, call.phase.target);
      var tier := TierText(TierIn(s, target));
      if CheckTarget(l, actorTier, tier).Some? then Done else Checked(actorTier, target, tier)
    case Write(_) => Done
    case GiveUp(_) => Done
  }

  function NextTiers(baseline: string, s: Sys, step: Step): map<Account, string>
    requires Enabled(s, step) && !step.Begin?
  {
    if step.Write? then
      var call := s.calls[step.call];
      Cas(s.tiers, call.phase.target, call.phase.targetTier, Requested(call.req.newTier, baseline))
    else s.tiers
  }

  function Apply(l: Ladder, baseline: string, s: Sys, step: Step): Sys
    requires Enabled(s, step)
  {
    if step.Begin? then s.(calls := s.calls + [Call(step.req, Started)])
    else
      var c := step.call;
      Sys(NextTiers(baseline, s, step), s.calls[c := s.calls[c].(phase := NextPhase(l, baseline, s, step))])
  }

  ghost predicate Behavior(l: Ladder, baseline: string, run: seq<Sys>, steps: seq<Step>) {
    && |run| == |steps| + 1 && run[0].calls == []
    && forall k | 0 <= k < |steps| :: Enabled(run[k], steps[k]) && run[k + 1] == Apply(l, baseline, run[k], steps[k])
  }

  // ---- what every call in flight has established ----------------------------------------------

  /** Some account holds, in the given state, a tier that confers at least what t confers. */
  ghost predicate Backed(l: Ladder, first: Sys, t: string) {
    exists a :: a in first.tiers && Within(l, t, first.tiers[a])
  }

  ghost predicate CallOk(l: Ladder, baseline: string, first: Sys, c: Call) {
    && (c.phase.Authorized? || c.phase.Resolved? || c.phase.Checked? ==>
          && Grants(l, c.phase.actorTier, ADMIN)
          && MayGrant(l, c.phase.actorTier, Requested(c.req.newTier, baseline))
          && Backed(l, first, c.phase.actorTier))
    && (c.phase.Checked? ==> MayTouch(l, c.phase.actorTier, c.phase.targetTier))
  }

  /** The invariant, relative to the state the run began in. */
  ghost predicate Inv(l: Ladder, baseline: string, first: Sys, s: Sys) {
    && s.tiers.Keys == first.tiers.Keys
    && (forall a | a in s.tiers :: Backed(l, first, s.tiers[a]))
    && (forall c | 0 <= c < |s.calls| :: CallOk(l, baseline, first, s.calls[c]))
  }

  lemma InvStarts(l: Ladder, baseline: string, first: Sys)
    requires first.calls == []
    ensures Inv(l, baseline, first, first)
  {
    forall a | a in first.tiers ensures Backed(l, first, first.tiers[a]) {
      assert Within(l, first.tiers[a], first.tiers[a]);
    }
  }

  lemma InvStep(l: Ladder, baseline: string, first: Sys, s: Sys, step: Step)
    requires Inv(l, baseline, first, s) && Enabled(s, step)
    ensures Inv(l, baseline, first, Apply(l, baseline, s, step))
  {
    hide CallOk, Backed, NextPhase, NextTiers;
    if step.Begin? {
      FreshCallOk(l, baseline, first, step.req);
    } else {
      assert CallOk(l, baseline, first, s.calls[step.call]);
      CallStaysOk(l, baseline, first, s, step);
      TiersStayBacked(l, baseline, first, s, step);
    }
  }

  lemma FreshCallOk(l: Ladder, baseline: string, first: Sys, req: Request)
    ensures CallOk(l, baseline, first, Call(req, Started))
  {
  }

  lemma CallStaysOk(l: Ladder, baseline: string, first: Sys, s: Sys, step: Step)
    requires Enabled(s, step) && !step.Begin? && CallOk(l, baseline, first, s.calls[step.call])
    requires forall a | a in s.tiers :: Backed(l, first, s.tiers[a])
    ensures CallOk(l, baseline, first, s.calls[step.call].(phase := NextPhase(l, baseline, s, step)))
  {
    var call := s.calls[step.call];
    if step.ReadActor? {
      var tier := TierIn(s, call.req.actor);
      ChecksAreCeilings(l, tier, Requested(call.req.newTier, baseline), "");
    } else if step.ReadTarget? {
      ChecksAreCeilings(l, Some(call.phase.actorTier), "", TierText(TierIn(s, call.phase.target)));
    }
  }

  lemma TiersStayBacked(l: Ladder, baseline: string, first: Sys, s: Sys, step: Step)
    requires Enabled(s, step) && !step.Begin? && CallOk(l, baseline, first, s.calls[step.call])
    requires forall a | a in s.tiers :: Backed(l, first, s.tiers[a])
    ensures var tiers := NextTiers(baseline, s, step);
            tiers.Keys == s.tiers.Keys && forall a | a in tiers :: Backed(l, first, tiers[a])
  {
    if step.Write? {
      var call := s.calls[step.call];
    }
  }

  lemma {:induction false} InvAlways(l: Ladder, baseline: string, run: seq<Sys>, steps: seq<Step>, k: nat)
    requires Behavior(l, baseline, run, steps) && k < |run|
    ensures Inv(l, baseline, run[0], run[k])
  {
    if k == 0 {
      InvStarts(l, baseline, run[0]);
    } else {
      InvAlways(l, baseline, run, steps, k - 1);
      InvStep(l, baseline, run[0], run[k - 1], steps[k - 1]);
    }
  }

  // ---- the main theorems ----------------------------------------------------------------------

  /** Conservation: at every moment of every run, whatever an account's tier confers, rank and capabilities
      together, was already conferred by the tier of one single account when the run began. */
  lemma NothingIsMinted(l: Ladder, baseline: string, run: seq<Sys>, steps: seq<Step>, k: nat, a: Account)
    returns (b: Account)
    requires Behavior(l, baseline, run, steps) && k < |run| && a in run[k].tiers
    ensures b in run[0].tiers
    ensures RankOf(l, run[k].tiers[a]) <= RankOf(l, run[0].tiers[b])
    ensures Covers(l, run[0].tiers[b], run[k].tiers[a])
    ensures Rank(l, run[k].tiers[a]) <= Rank(l, run[0].tiers[b])
    ensures Capabilities(l, run[k].tiers[a]) <= Capabilities(l, run[0].tiers[b])
  {
    InvAlways(l, baseline, run, steps, k);
    b :| b in run[0].tiers && Within(l, run[k].tiers[a], run[0].tiers[b]);
    WithinMeans(l, run[k].tiers[a], run[0].tiers[b]);
  }

  /** A tier changes only by a write step, only on that write's target, and only if at that very instant
      the target's tier passed both target ceilings and the new tier both grant ceilings, against a tier
      the actor really held at an earlier instant of the same run. */
  lemma WritesAreAuthorized(l: Ladder, baseline: string, run: seq<Sys>, steps: seq<Step>, k: nat, a: Account)
    requires Behavior(l, baseline, run, steps) && k < |steps| && a in run[k].tiers
    requires a !in run[k + 1].tiers || run[k + 1].tiers[a] != run[k].tiers[a]
    ensures steps[k].Write? && steps[k].call < |run[k].calls|
    ensures var c := run[k].calls[steps[k].call];
            && c.phase.Checked? && a in run[k + 1].tiers
            && var (actor, was, now) := (c.phase.actorTier, run[k].tiers[a], run[k + 1].tiers[a]);
               && Confers(l, actor, "admin")
               && (was == "" || was in l) && RankOf(l, was) <= RankOf(l, actor)
               && (RankOf(l, was) == RankOf(l, actor) ==> Covers(l, actor, was))
               && now in l && RankOf(l, now) <= RankOf(l, actor) && Covers(l, actor, now)
    ensures var c := run[k].calls[steps[k].call];
            && c.phase.Checked? && a == c.phase.target && a in run[k + 1].tiers
            && run[k + 1].tiers[a] == Requested(c.req.newTier, baseline)
            && HeldBefore(run, k, c.req.actor, c.phase.actorTier)
  {
    hide MayTouch, MayGrant, Grants, Behavior, HeldBefore, Backed, NextPhase;
    StepOf(l, baseline, run, steps, k);
    InvAlways(l, baseline, run, steps, k);
    var c := steps[k].call;
    assert CallOk(l, baseline, run[0], run[k].calls[c]);
    ActorHeldTier(l, baseline, run, steps, k, c);
    var actor := run[k].calls[c].phase.actorTier;
    assert MayManage(l, Some(actor));
    CeilingsMean(l, Some(actor), run[k].tiers[a]);
    CeilingsMean(l, Some(actor), run[k + 1].tiers[a]);
  }

  lemma StepOf(l: Ladder, baseline: string, run: seq<Sys>, steps: seq<Step>, k: nat)
    requires Behavior(l, baseline, run, steps) && k < |steps|
    ensures |run| == |steps| + 1 && Enabled(run[k], steps[k]) && run[k + 1] == Apply(l, baseline, run[k], steps[k])
  {
  }

  ghost predicate HeldBefore(run: seq<Sys>, k: nat, actor: Account, tier: string)
    requires k < |run|
  {
    exists j :: 0 <= j <= k && TierIn(run[j], actor) == Some(tier)
  }

  /** The actor tier a call carries is one its actor held when the call read it. */
  lemma {:induction false} ActorHeldTier(l: Ladder, baseline: string, run: seq<Sys>, steps: seq<Step>, k: nat, c: nat)
    requires Behavior(l, baseline, run, steps) && k < |run| && c < |run[k].calls|
    ensures var x := run[k].calls[c];
            x.phase.Authorized? || x.phase.Resolved? || x.phase.Checked? ==>
              HeldBefore(run, k, x.req.actor, x.phase.actorTier)
  {
    if k > 0 {
      StepOf(l, baseline, run, steps, k - 1);
      if c < |run[k - 1].calls| {
        ActorHeldTier(l, baseline, run, steps, k - 1, c);
      }
    }
  }

  lemma WithinMeans(l: Ladder, a: string, b: string)
    requires Within(l, a, b)
    ensures RankOf(l, a) <= RankOf(l, b) && Covers(l, b, a)
  {
    QuestionsMean(l, a, b, ADMIN);
    QuestionsMean(l, b, a, ADMIN);
    forall f | f in {"holylight", "builder", "admin"} && Confers(l, a, f) ensures Confers(l, b, f) {
      QuestionsMean(l, a, b, f);
      QuestionsMean(l, b, a, f);
      assert f in Capabilities(l, a);
    }
  }

  // ---- a call left alone ----------------------------------------------------------------------

  /** Nothing stands in the way of a call that passes both ceilings and meets no other: it ends with the target on the
      new tier and nobody else changed. */
  lemma CallAloneCommits(l: Ladder, baseline: string, tiers: map<Account, string>, req: Request, target: Account)
    returns (run: seq<Sys>, steps: seq<Step>)
    requires req.actor in tiers && target in tiers
    requires var (actor, was) := (tiers[req.actor], tiers[target]);
             var to := if req.newTier == "" then baseline else req.newTier;
             && Confers(l, actor, "admin")
             && to in l && RankOf(l, to) <= RankOf(l, actor) && Covers(l, actor, to)
             && (was == "" || was in l) && RankOf(l, was) <= RankOf(l, actor)
             && (RankOf(l, was) == RankOf(l, actor) ==> Covers(l, actor, was))
    ensures Behavior(l, baseline, run, steps) && run[0].tiers == tiers && |steps| == 5
    ensures run[5].tiers == tiers[target := if req.newTier == "" then baseline else req.newTier]
  {
    var (actor, was, to) := (tiers[req.actor], tiers[target], Requested(req.newTier, baseline));
    CeilingsMean(l, Some(actor), to);
    CeilingsMean(l, Some(actor), was);
    ChecksAreCeilings(l, Some(actor), to, was);
    hide CheckGrant, CheckTarget, MayGrant, MayTouch, MayManage, Covers, Confers, RankOf;
    steps := [Begin(req), ReadActor(0), Resolve(0, target), ReadTarget(0), Step.Write(0)];
    run := [Sys(tiers, []), Sys(tiers, [Call(req, Started)]), Sys(tiers, [Call(req, Authorized(actor))]),
            Sys(tiers, [Call(req, Resolved(actor, target))]), Sys(tiers, [Call(req, Checked(actor, target, was))]),
            Sys(tiers[target := to], [Call(req, Done)])];
  }
}
