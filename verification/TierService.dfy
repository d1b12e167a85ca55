/**
  SetAccountTier: the ordered reads, checks and one compare-and-set of a promote or demote.  The two
  check functions are shared with TierProtocol, where calls interleave.
*/
module TierService {
  import opened Basics
  import opened TrustLadder

  type Account = string

  /** A store reply: a value, or a failure. */
  datatype Reply<+T> = Reply(value: T) | Failed

  datatype Request = Request(actor: Account, character: string, newTier: string)

  datatype Response =
    | InvalidArgument
    | Unavailable
    | Internal
    | NotAuthorized
    | UnknownTier
    | GrantOutranks
    | GrantExceeds(missing: set<string>)
    | NoSuchCharacter
    | TargetTierUndefined
    | TargetOutranks
    | TargetExceeds(missing: set<string>)
    | Conflict
    | Changed(oldTier: string, newTier: string)

  /** The result of the write: a conflict carries the tier the store saw under its row lock. */
  datatype CasReply = Committed(previous: string) | TierConflict(observed: string) | CasFailed

  // ---- the checks -----------------------------------------------------------------------------

  predicate MayManage(l: Ladder, actorTier: Option<string>) {
    actorTier.Some? && Grants(l, actorTier.value, ADMIN)
  }

  /** The grant ceilings: rank and capability, both unconditional. */
  predicate MayGrant(l: Ladder, actorTier: string, newTier: string) {
    newTier in l && Rank(l, newTier) <= Rank(l, actorTier) && Dominates(l, actorTier, newTier)
  }

  /** The target ceilings: rank always, capability only between equal ranks. */
  predicate MayTouch(l: Ladder, actorTier: string, targetTier: string) {
    && (targetTier != "" ==> targetTier in l)
    && Rank(l, targetTier) <= Rank(l, actorTier)
    && (Rank(l, targetTier) == Rank(l, actorTier) ==> Dominates(l, actorTier, targetTier))
  }

  function Missing(l: Ladder, holder: string, other: string): set<string> {
    Capabilities(l, other) - Capabilities(l, holder)
  }

  function Requested(newTier: string, baseline: string): string { if newTier == "" then baseline else newTier }

  /** Why the first half refuses, if it does. */
  function CheckGrant(l: Ladder, actorTier: Option<string>, newTier: string): Option<Response> {
    if !MayManage(l, actorTier) then Some(NotAuthorized)
    else if newTier !in l then Some(UnknownTier)
    else if Rank(l, newTier) > Rank(l, actorTier.value) then Some(GrantOutranks)
    else if !Dominates(l, actorTier.value, newTier) then Some(GrantExceeds(Missing(l, actorTier.value, newTier)))
    else None
  }

  /** Why the second half refuses, if it does. */
  function CheckTarget(l: Ladder, actorTier: string, targetTier: string): Option<Response> {
    if targetTier != "" && targetTier !in l then Some(TargetTierUndefined)
    else if Rank(l, targetTier) > Rank(l, actorTier) then Some(TargetOutranks)
    else if Rank(l, targetTier) == Rank(l, actorTier) && !Dominates(l, actorTier, targetTier) then
      Some(TargetExceeds(Missing(l, actorTier, targetTier)))
    else None
  }

  lemma ChecksAreCeilings(l: Ladder, actorTier: Option<string>, newTier: string, targetTier: string)
    ensures CheckGrant(l, actorTier, newTier).None? <==>
            MayManage(l, actorTier) && MayGrant(l, actorTier.value, newTier)
    ensures MayManage(l, actorTier) ==>
              (CheckTarget(l, actorTier.value, targetTier).None? <==> MayTouch(l, actorTier.value, targetTier))
    ensures MayManage(l, actorTier) ==> actorTier.value in l
  {
  }

  // ---- one call, with every store reply as a parameter ----------------------------------------

  datatype Replies = Replies(
    liveVersion: Option<Reply<int>>,           // None: no version source is wired
    actorTier: Reply<Option<string>>,
    target: Reply<Option<Account>>,
    targetTier: Reply<Option<string>>,
    cas: CasReply)

  datatype Write = Write(actor: Account, target: Account, newTier: string, expected: string)

  function TierText(t: Option<string>): string { if t.Some? then t.value else "" }

  /** One call's circumstances: the ladder and its state, the request, and every store reply. */
  datatype Case = Case(l: Ladder, unavailable: bool, ladderVersion: int, req: Request, rs: Replies)

  // How far a call gets, one gate at a time.

  predicate IsValid(c: Case) { c.req.actor != "" && c.req.character != "" }

  predicate LadderIsFresh(c: Case) {
    && IsValid(c) && !c.unavailable
    && (c.rs.liveVersion.Some? ==> c.rs.liveVersion.value.Reply? && c.rs.liveVersion.value.value <= c.ladderVersion)
  }

  predicate ActorManages(c: Case) { LadderIsFresh(c) && c.rs.actorTier.Reply? && MayManage(c.l, c.rs.actorTier.value) }

  predicate ActorGrants(c: Case, baseline: string) {
    ActorManages(c) && MayGrant(c.l, c.rs.actorTier.value.value, Requested(c.req.newTier, baseline))
  }

  predicate TargetIsKnown(c: Case, baseline: string) {
    ActorGrants(c, baseline) && c.rs.target.Reply? && c.rs.target.value.Some? && c.rs.targetTier.Reply?
  }

  /** The write a call issues, if it gets that far: exactly when no reply failed and both checks pass. */
  predicate Issues(c: Case, baseline: string, w: Write) {
    && TargetIsKnown(c, baseline)
    && MayTouch(c.l, c.rs.actorTier.value.value, TierText(c.rs.targetTier.value))
    && w == Write(c.req.actor, c.rs.target.value.value, Requested(c.req.newTier, baseline),
       TierText(c.rs.targetTier.value))
  }

  /** What every response means, in terms of the circumstances alone. */
  predicate Means(c: Case, baseline: string, resp: Response) {
    var (l, rs) := (c.l, c.rs);
    var (actor, newTier, targetTier) :=
      (if rs.actorTier.Reply? then TierText(rs.actorTier.value) else "", Requested(c.req.newTier, baseline),
       if rs.targetTier.Reply? then TierText(rs.targetTier.value) else "");
    match resp
    case InvalidArgument => !IsValid(c)
    case Unavailable => IsValid(c) && !LadderIsFresh(c)
    case NotAuthorized => LadderIsFresh(c) && rs.actorTier.Reply? && !ActorManages(c)
    case UnknownTier => ActorManages(c) && newTier !in l
    case GrantOutranks => ActorManages(c) && newTier in l && Rank(l, newTier) > Rank(l, actor)
    case GrantExceeds(missing) =>
      && ActorManages(c) && newTier in l && Rank(l, newTier) <= Rank(l, actor)
      && missing == Missing(l, actor, newTier) != {}
    case NoSuchCharacter => ActorGrants(c, baseline) && rs.target == Reply(None)
    case TargetTierUndefined => TargetIsKnown(c, baseline) && targetTier != "" && targetTier !in l
    case TargetOutranks =>
      TargetIsKnown(c, baseline) && (targetTier != "" ==> targetTier in l) && Rank(l, targetTier) > Rank(l, actor)
    case TargetExceeds(missing) =>
      && TargetIsKnown(c, baseline) && (targetTier != "" ==> targetTier in l) && Rank(l, targetTier) == Rank(l, actor)
      && missing == Missing(l, actor, targetTier) != {}
    case Conflict => TargetIsKnown(c, baseline) && MayTouch(l, actor, targetTier) && rs.cas.TierConflict?
    case Changed(oldTier, tier) =>
      && TargetIsKnown(c, baseline) && MayTouch(l, actor, targetTier) && rs.cas.Committed?
      && oldTier == rs.cas.previous && tier == newTier
    case Internal =>
      || (LadderIsFresh(c) && rs.actorTier.Failed?)
      || (ActorGrants(c, baseline) && (rs.target.Failed? || (rs.target.value.Some? && rs.targetTier.Failed?)))
      || (TargetIsKnown(c, baseline) && MayTouch(l, actor, targetTier) && rs.cas.CasFailed?)
  }

  lemma MissingMeans(l: Ladder, holder: string, other: string)
    requires holder in l
    ensures Missing(l, holder, other) == {} <==> Dominates(l, holder, other)
  {
  }

  /** The meanings exclude each other: no circumstances justify two responses. */
  lemma ResponseIsForced(c: Case, baseline: string, a: Response, b: Response)
    requires Means(c, baseline, a) && Means(c, baseline, b)
    ensures a == b
  {
    if ActorManages(c) {
      MissingMeans(c.l, c.rs.actorTier.value.value, Requested(c.req.newTier, baseline));
      if c.rs.targetTier.Reply? {
        MissingMeans(c.l, c.rs.actorTier.value.value, TierText(c.rs.targetTier.value));
      }
    }
  }

  method SetAccountTier(l: Ladder, unavailable: bool, ladderVersion: int, req: Request, rs: Replies)
    returns (resp: Response, write: Option<Write>)
    requires "" !in l
    ensures forall baseline | IsBaseline(l, baseline) ::
              Means(Case(l, unavailable, ladderVersion, req, rs), baseline, resp)
    ensures forall baseline, w | IsBaseline(l, baseline) ::
              write == Some(w) <==> Issues(Case(l, unavailable, ladderVersion, req, rs), baseline, w)
  {
    hide IsBaseline, Grants, Capabilities, Missing, Rank;
    write := None;
    if req.actor == "" || req.character == "" {
      return InvalidArgument, None;
    }
    if unavailable {
      return Unavailable, None;
    }
    if rs.liveVersion.Some? {
      if rs.liveVersion.value.Failed? || rs.liveVersion.value.value > ladderVersion {
        return Unavailable, None;
      }
    }
    if rs.actorTier.Failed? {
      return Internal, None;
    }
    var actorTier := rs.actorTier.value;
    if !MayManage(l, actorTier) {
      return NotAuthorized, None;
    }
    var newTier := req.newTier;
    var baseline := Baseline(l);
    if newTier == "" {
      newTier := baseline;
    }
    forall b | IsBaseline(l, b) ensures Requested(req.newTier, b) == newTier {
      BaselineIsUnique(l, baseline, b);
    }
    var refusal := CheckGrant(l, actorTier, newTier);
    ChecksAreCeilings(l, actorTier, newTier, "");
    MissingMeans(l, actorTier.value, newTier);
    if refusal.Some? {
      return refusal.value, None;
    }
    if rs.target.Failed? {
      return Internal, None;
    }
    if rs.target.value.None? {
      return NoSuchCharacter, None;
    }
    if rs.targetTier.Failed? {
      return Internal, None;
    }
    var targetTier := TierText(rs.targetTier.value);
    refusal := CheckTarget(l, actorTier.value, targetTier);
    ChecksAreCeilings(l, actorTier, newTier, targetTier);
    MissingMeans(l, actorTier.value, targetTier);
    if refusal.Some? {
      return refusal.value, None;
    }
    write := Some(Write(req.actor, rs.target.value.value, newTier, targetTier));
    match rs.cas
    case Committed(previous) => resp := Changed(previous, newTier);
    case TierConflict(_) => resp := Conflict;
    case CasFailed => resp := Internal;
  }

  // ---- what the ceilings give -----------------------------------------------------------------

  /** Everything tier a confers, tier b has too: rank and capabilities. */
  predicate Within(l: Ladder, a: string, b: string) {
    Rank(l, a) <= Rank(l, b) && Capabilities(l, a) <= Capabilities(l, b)
  }

  /** A granted tier never exceeds the granting tier. */
  lemma GrantIsWithin(l: Ladder, actorTier: string, newTier: string)
    ensures MayGrant(l, actorTier, newTier) ==> Within(l, newTier, actorTier)
  {
  }

  /** Revocation is never lost: a tier that may manage can demote every defined, strictly lower tier to a
      baseline that confers nothing, even one that holds capabilities it lacks. */
  lemma DemoteIsNeverRefused(l: Ladder, actorTier: string, targetTier: string, baseline: string)
    requires Grants(l, actorTier, ADMIN) && "" !in l && IsBaseline(l, baseline) && Capabilities(l, baseline) == {}
    requires targetTier in l && Rank(l, targetTier) < Rank(l, actorTier)
    ensures CheckGrant(l, Some(actorTier), Requested("", baseline)).None?
    ensures CheckTarget(l, actorTier, targetTier).None?
  {
  }

  // ---- the ceilings and the gates, in terms of the rungs ---------------------------------------

  /** A tier's rank, 0 if it is not defined; and whether it confers a flag. */
  function RankOf(l: Ladder, tier: string): int { if tier != "" && tier in l then l[tier].rank else 0 }

  predicate Confers(l: Ladder, tier: string, flag: string) { tier in l && flag in l[tier].flags }

  /** Every capability one tier confers, the other confers too. */
  predicate Covers(l: Ladder, actor: string, tier: string) {
    forall f | f in {"holylight", "builder", "admin"} :: Confers(l, tier, f) ==> Confers(l, actor, f)
  }

  /** Who may manage tiers, which tiers he may give, and whose he may change: a new tier must be defined, rank no
      higher and confer nothing the actor's does not; a target's tier, if it has one, must be defined and rank no
      higher, and at equal rank confer nothing the actor's does not. */
  lemma CeilingsMean(l: Ladder, actor: Option<string>, tier: string)
    ensures MayManage(l, actor) <==> actor.Some? && Confers(l, actor.value, "admin")
    ensures MayManage(l, actor) ==>
              (MayGrant(l, actor.value, tier) <==>
               tier in l && RankOf(l, tier) <= RankOf(l, actor.value) && Covers(l, actor.value, tier))
    ensures MayManage(l, actor) ==>
              (MayTouch(l, actor.value, tier) <==>
               && (tier == "" || tier in l) && RankOf(l, tier) <= RankOf(l, actor.value)
               && (RankOf(l, tier) == RankOf(l, actor.value) ==> Covers(l, actor.value, tier)))
    ensures MayManage(l, actor) ==> forall f ::
              f in Missing(l, actor.value, tier) <==>
              f in {"holylight", "builder", "admin"} && Confers(l, tier, f) && !Confers(l, actor.value, f)
  {
    if actor.Some? {
      QuestionsMean(l, actor.value, tier, "admin");
      QuestionsMean(l, tier, actor.value, "admin");
      forall f ensures f in Capabilities(l, tier) <==> Confers(l, tier, f) && f in {"holylight", "builder", "admin"} {
        QuestionsMean(l, tier, tier, f);
      }
      forall f ensures f in Capabilities(l, actor.value) <==>
                       Confers(l, actor.value, f) && f in {"holylight", "builder", "admin"} {
        QuestionsMean(l, actor.value, tier, f);
      }
    }
  }

  /** How far a call gets: it names both parties; the ladder is there and no older than the live content; the actor's
      tier was read and may manage; it may give the requested tier, or the baseline if none was named; and the
      target and its tier were read. */
  lemma GatesMean(c: Case, baseline: string)
    ensures IsValid(c) <==> c.req.actor != "" && c.req.character != ""
    ensures LadderIsFresh(c) <==>
            && IsValid(c) && !c.unavailable
            && (c.rs.liveVersion.None? || exists n :: c.rs.liveVersion == Some(Reply(n)) && n <= c.ladderVersion)
    ensures ActorManages(c) <==>
            LadderIsFresh(c) && exists t :: c.rs.actorTier == Reply(t) && MayManage(c.l, t)
    ensures ActorGrants(c, baseline) <==>
            ActorManages(c) &&
            MayGrant(c.l, c.rs.actorTier.value.value, if c.req.newTier == "" then baseline else c.req.newTier)
    ensures TargetIsKnown(c, baseline) <==>
            ActorGrants(c, baseline) && (exists a :: c.rs.target == Reply(Some(a)))
              && exists t :: c.rs.targetTier == Reply(t)
    ensures forall w :: Issues(c, baseline, w) <==>
              && TargetIsKnown(c, baseline)
              && var (actor, target) := (c.rs.actorTier.value.value, c.rs.target.value.value);
                 var (was, to) := (c.rs.targetTier.value, if c.req.newTier == "" then baseline else c.req.newTier);
                 var before := if was.Some? then was.value else "";
                 MayTouch(c.l, actor, before) && w == Write(c.req.actor, target, to, before)
  {
  }
}
