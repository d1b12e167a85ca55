/**
  Any number of directors running schedules one after another, each starting with a cold cache, while reads
  fail and saves are lost or land unnoticed: every spawn is justified by what happened to its schedule
  before.
*/
module SpawnRuns {
  import opened Basics
  import opened DirectorCore
  import opened ScopeStore
  import opened SpawnSchedule

  // ---- writes ---------------------------------------------------------------------------------

  /** What a write does to one schedule's versions and to the version the director sees. */
  ghost predicate Written(c: Codec, w: World, w1: World, ref: string, st: ScheduleState, kept: bool, lands: bool) {
    var (key, h) := (KeyOf(ref), History(w.store, KeyOf(ref)));
    && History(w1.store, key) == h + (if lands then [c.encode(st)] else [])
    && (kept ==> lands && key in w1.local.versions && w1.local.versions[key] == |h| + 1)
    && (!kept && key in w1.local.versions ==>
          (key in w.local.versions && w1.local.versions[key] == w.local.versions[key]) || w1.local.versions[key] == |h|)
  }

  /** Nothing about this schedule changes. */
  ghost predicate SameFor(w: World, w1: World, ref: string) {
    && History(w1.store, KeyOf(ref)) == History(w.store, KeyOf(ref))
    && Visible(w1, ref) == Visible(w, ref) && WritersOf(w1, ref) == WritersOf(w, ref)
    && (Cached(w1, ref) <==> Cached(w, ref))
  }

  lemma WriteIs(c: Codec, w: World, ref: string, st: ScheduleState, who: Writer, f: Faults)
    requires Faithful(c) && Sound(c, w)
    ensures var (w1, kept) := WriteState(c, w, ref, st, who, f);
            Written(c, w, w1, ref, st, kept, Lands(c, w, ref, st, f)) && w1.events == w.events
  {
    hide CacheReal, SetAgainst, TagsOk;
    SetHistories(w.store, w.local, KeyOf(ref), c.encode(st), f.save, KeyOf(ref));
    SetCaches(w.store, w.local, KeyOf(ref), c.encode(st), f.save);
  }

  lemma WriteLeaves(c: Codec, w: World, ref: string, st: ScheduleState, who: Writer, f: Faults, other: string)
    requires Sound(c, w) && other != ref
    ensures SameFor(w, WriteState(c, w, ref, st, who, f).0, other)
  {
    hide CacheReal, SetAgainst, TagsOk;
    KeysDiffer(ref, other);
    SetHistories(w.store, w.local, KeyOf(ref), c.encode(st), f.save, KeyOf(other));
    SetCaches(w.store, w.local, KeyOf(ref), c.encode(st), f.save);
  }

  lemma WriteIsSound(c: Codec, w: World, ref: string, st: ScheduleState, who: Writer, f: Faults)
    requires Faithful(c) && Sound(c, w) && (st.active <==> who == BySpawn)
    ensures Sound(c, WriteState(c, w, ref, st, who, f).0)
  {
    var w1 := WriteState(c, w, ref, st, who, f).0;
    SetStaysReal(w.store, w.local, KeyOf(ref), c.encode(st), f.save);
    SetCaches(w.store, w.local, KeyOf(ref), c.encode(st), f.save);
    SetHistories(w.store, w.local, KeyOf(ref), c.encode(st), f.save, KeyOf(ref));
    forall r ensures TagsOk(c, w1, r) {
      assert TagsOk(c, w, r);
      if r == ref {
        WriteIs(c, w, ref, st, who, f);
        TagsGrow(c, w, w1, ref, st, who, Lands(c, w, ref, st, f));
      } else {
        WriteLeaves(c, w, ref, st, who, f, r);
      }
    }
  }

  lemma TagsGrow(c: Codec, w: World, w1: World, ref: string, st: ScheduleState, who: Writer, lands: bool)
    requires Faithful(c) && TagsOk(c, w, ref) && (st.active <==> who == BySpawn)
    requires History(w1.store, KeyOf(ref)) == History(w.store, KeyOf(ref)) + (if lands then [c.encode(st)] else [])
    requires WritersOf(w1, ref) == WritersOf(w, ref) + (if lands then [who] else [])
    ensures TagsOk(c, w1, ref)
  {
  }

  // ---- what an event guarantees about every copy of the state ---------------------------------

  /** The boss is alive; or it is dead and its interval ends by the next spawn time, or is over. */
  datatype Claim = Alive | Waiting(until: int, now: nat)

  predicate Meets(claim: Claim, st: ScheduleState) {
    match claim
    case Alive => st.active
    case Waiting(until, now) => !st.active && (until <= st.nextSpawnAt || until <= now)
  }

  /** Both the head and the version the director sees meet the claim. */
  ghost predicate Safe(c: Codec, w: World, ref: string, claim: Claim) {
    var h := History(w.store, KeyOf(ref));
    && |h| > 0 && 0 < Visible(w, ref) <= |h|
    && Meets(claim, StateAt(c, w, ref, |h|)) && Meets(claim, StateSeen(c, w, ref))
  }

  /** A write that lands only what meets the claim keeps it. */
  lemma WriteKeepsSafe(
    c: Codec, w: World, w1: World, ref: string, st: ScheduleState, kept: bool, lands: bool, claim: Claim)
    requires Faithful(c) && Safe(c, w, ref, claim) && Written(c, w, w1, ref, st, kept, lands)
             && (lands ==> Meets(claim, st))
    ensures Safe(c, w1, ref, claim)
  {
  }

  /** A write that is reported as made establishes it. */
  lemma WriteMakesSafe(c: Codec, w: World, w1: World, ref: string, st: ScheduleState, lands: bool, claim: Claim)
    requires Faithful(c) && Written(c, w, w1, ref, st, true, lands) && Meets(claim, st)
    ensures Safe(c, w1, ref, claim)
  {
  }

  // ---- the history of one schedule ------------------------------------------------------------

  /** The last event of a schedule, or -1. */
  function LastOf(events: seq<Event>, ref: string): (r: int)
    ensures -1 <= r < |events| && (r >= 0 ==> events[r].ref == ref)
    ensures forall i | r < i < |events| :: events[i].ref != ref
  {
    if events == [] then -1
    else if events[|events| - 1].ref == ref then |events| - 1
    else LastOf(events[..|events| - 1], ref)
  }

  /** What the last event guarantees: a kept spawn, that the boss is alive; a kept death, that it is not due
      before its interval is over; anything else, nothing. */
  function ClaimOf(events: seq<Event>, ref: string, interval: int, now: nat): Option<Claim> {
    var p := LastOf(events, ref);
    if p < 0 then None
    else match events[p]
      case Spawn(_, _, _, kept) => if kept then Some(Alive) else None
      case Death(_, at, kept) => if kept then Some(Waiting(at + interval, now)) else None
      case Overwrite(_, _) => None
  }

  /** Why a spawn may follow what happened before: its read failed; or nothing happened before; or the state
      was overwritten unread; or the save of the event before was not reported as made; or the event before
      was a death at least the interval ago. */
  predicate Justified(before: seq<Event>, e: Event, interval: int)
    requires e.Spawn?
  {
    var p := LastOf(before, e.ref);
    || e.blind || p < 0 || before[p].Overwrite? || !before[p].kept
    || (before[p].Death? && before[p].at + interval <= e.at)
  }

  predicate AllJustified(events: seq<Event>, ref: string, interval: int) {
    forall j | 0 <= j < |events| && events[j].Spawn? && events[j].ref == ref ::
      Justified(events[..j], events[j], interval)
  }

  ghost predicate Inv(c: Codec, w: World, ref: string, interval: int, now: nat) {
    var claim := ClaimOf(w.events, ref, interval, now);
    (claim.Some? ==> Safe(c, w, ref, claim.value)) && AllJustified(w.events, ref, interval)
  }

  lemma JustifiedNext(events: seq<Event>, e: Event, ref: string, interval: int)
    requires AllJustified(events, ref, interval) && (e.Spawn? && e.ref == ref ==> Justified(events, e, interval))
    ensures AllJustified(events + [e], ref, interval)
  {
    hide Justified;
    var all := events + [e];
    forall j | 0 <= j < |all| && all[j].Spawn? && all[j].ref == ref ensures Justified(all[..j], all[j], interval) {
      if j < |events| {
        assert all[..j] == events[..j] && all[j] == events[j];
      } else {
        assert all[..j] == events;
      }
    }
  }

  // ---- each operation keeps the invariant -----------------------------------------------------

  /** A schedule the step is not about. */
  lemma OthersKeepInv(c: Codec, w: World, w1: World, ref: string, interval: int, now: nat)
    requires Inv(c, w, ref, interval, now) && SameFor(w, w1, ref)
    requires w1.events == w.events || (|w1.events| == |w.events| + 1 && w1.events[..|w.events|] == w.events
             && w1.events[|w.events|].ref != ref)
    ensures Inv(c, w1, ref, interval, now)
  {
    if w1.events != w.events {
      var e := w1.events[|w.events|];
      assert w1.events == w.events + [e];
      JustifiedNext(w.events, e, ref, interval);
    }
    var claim := ClaimOf(w.events, ref, interval, now);
  }

  lemma ReadKeepsInv(c: Codec, w: World, ref: string, f: Faults, interval: int, now: nat)
    requires Sound(c, w) && Inv(c, w, ref, interval, now)
    ensures Inv(c, ReadState(c, w, ref, f).0, ref, interval, now)
  {
    ReadIs(c, w, ref, f);
  }

  lemma StartupKeepsInv(c: Codec, s: Schedule, w: World, now: nat, f: Faults, interval: int)
    requires Faithful(c) && Sound(c, w) && Inv(c, w, s.ref, interval, now)
    ensures Inv(c, StartupOne(c, s, w, now, f), s.ref, interval, now)
  {
    var (w1, st) := ReadState(c, w, s.ref, f);
    var adjusted := ApplyMissed(s, st, now);
    ReadIs(c, w, s.ref, f);
    ReadKeepsInv(c, w, s.ref, f, interval, now);
    if adjusted != st {
      var (w2, kept) := WriteState(c, w1, s.ref, adjusted, ByStartup, f);
      var lands := Lands(c, w1, s.ref, adjusted, f);
      WriteIs(c, w1, s.ref, adjusted, ByStartup, f);
      if IsBlind(w, s.ref, f) && lands {
        JustifiedNext(w2.events, Overwrite(s.ref, now), s.ref, interval);
      } else {
        var claim := ClaimOf(w1.events, s.ref, interval, now);
        if claim.Some? {
          WriteKeepsSafe(c, w1, w2, s.ref, adjusted, kept, lands, claim.value);
        }
      }
    }
  }

  /** A spawn is justified by the claim of the event before it. */
  lemma DueIsJustified(c: Codec, s: Schedule, w: World, now: nat, f: Faults, interval: int, kept: bool)
    requires Sound(c, w) && Inv(c, w, s.ref, interval, now) && Spawns(c, s, w, now, f)
    ensures Justified(w.events, Spawn(s.ref, now, IsBlind(w, s.ref, f), kept), interval)
  {
    ReadIs(c, w, s.ref, f);
  }

  lemma CheckKeepsInv(c: Codec, s: Schedule, w: World, now: nat, f: Faults, interval: int)
    requires Faithful(c) && Sound(c, w) && Inv(c, w, s.ref, interval, now)
    ensures Inv(c, CheckOne(c, s, w, now, f), s.ref, interval, now)
  {
    hide Safe, AllJustified, Sound, WriteState, Lands, Written, ReadState, Justified;
    var (w1, st) := ReadState(c, w, s.ref, f);
    ReadIs(c, w, s.ref, f);
    ReadKeepsInv(c, w, s.ref, f, interval, now);
    if IsDue(st, now) {
      var (w2, kept) := WriteState(c, w1, s.ref, AfterSpawn(st), BySpawn, f);
      WriteIs(c, w1, s.ref, AfterSpawn(st), BySpawn, f);
      var e := Spawn(s.ref, now, IsBlind(w, s.ref, f), kept);
      DueIsJustified(c, s, w, now, f, interval, kept);
      JustifiedNext(w2.events, e, s.ref, interval);
      if kept {
        WriteMakesSafe(c, w1, w2, s.ref, AfterSpawn(st), Lands(c, w1, s.ref, AfterSpawn(st), f), Alive);
        NoteKeepsSafe(c, w2, e, s.ref, Alive);
      }
    }
  }

  lemma NoteKeepsSafe(c: Codec, w: World, e: Event, ref: string, claim: Claim)
    requires Safe(c, w, ref, claim)
    ensures Safe(c, Note(w, e), ref, claim)
  {
  }

  lemma DeathKeepsInv(c: Codec, s: Schedule, w: World, at: nat, f: Faults)
    requires Faithful(c) && Sound(c, w) && Inv(c, w, s.ref, s.interval, at)
    ensures Inv(c, DeathOne(c, s, w, at, f), s.ref, s.interval, at)
  {
    hide Safe, AllJustified, Sound, WriteState, Lands, Written;
    var (w1, kept) := WriteState(c, w, s.ref, AfterDeath(s, at), ByDeath, f);
    var lands := Lands(c, w, s.ref, AfterDeath(s, at), f);
    WriteIs(c, w, s.ref, AfterDeath(s, at), ByDeath, f);
    if lands {
      var e := Death(s.ref, at, kept);
      JustifiedNext(w1.events, e, s.ref, s.interval);
      if kept {
        WriteMakesSafe(c, w, w1, s.ref, AfterDeath(s, at), lands, Waiting(at + s.interval, at));
        NoteKeepsSafe(c, w1, e, s.ref, Waiting(at + s.interval, at));
      }
    } else {
      var claim := ClaimOf(w.events, s.ref, s.interval, at);
      if claim.Some? {
        WriteKeepsSafe(c, w, w1, s.ref, AfterDeath(s, at), kept, lands, claim.value);
      }
    }
  }

  // ---- operations on other schedules ----------------------------------------------------------

  /** An operation on one schedule leaves every other one alone and appends at most one event, its own. */
  ghost predicate Leaves(w: World, w1: World, ref: string, at: nat) {
    && (forall other | other != ref :: SameFor(w, w1, other))
    && (w1.events == w.events || (|w1.events| == |w.events| + 1 && w1.events[..|w.events|] == w.events
                                  && w1.events[|w.events|].ref == ref && w1.events[|w.events|].at == at))
  }

  lemma LeavesQuietly(w: World, w1: World, w2: World, ref: string, at: nat)
    requires (forall other | other != ref :: SameFor(w, w1, other)) && w1.events == w.events
    requires (forall other | other != ref :: SameFor(w1, w2, other)) && w2.events == w1.events
    ensures Leaves(w, w2, ref, at)
  {
    forall other | other != ref ensures SameFor(w, w2, other) {
      assert SameFor(w, w1, other) && SameFor(w1, w2, other);
    }
  }

  lemma LeavesNoted(w: World, w2: World, e: Event)
    requires Leaves(w, w2, e.ref, e.at) && w2.events == w.events
    ensures Leaves(w, Note(w2, e), e.ref, e.at)
  {
    forall other | other != e.ref ensures SameFor(w, Note(w2, e), other) {
      assert SameFor(w, w2, other);
    }
    assert (w.events + [e])[..|w.events|] == w.events;
  }

  lemma ReadLeaves(c: Codec, w: World, ref: string, f: Faults)
    requires Sound(c, w)
    ensures forall other | other != ref :: SameFor(w, ReadState(c, w, ref, f).0, other)
  {
    hide ReadState, Sound;
    ReadIs(c, w, ref, f);
    forall other | other != ref ensures SameFor(w, ReadState(c, w, ref, f).0, other) {
      ReadCaches(c, w, ref, f, other);
    }
  }

  lemma StartupLeaves(c: Codec, s: Schedule, w: World, now: nat, f: Faults)
    requires Faithful(c) && Sound(c, w)
    ensures Leaves(w, StartupOne(c, s, w, now, f), s.ref, now) && Sound(c, StartupOne(c, s, w, now, f))
  {
    hide Sound, WriteState, Lands, ReadState;
    var (w1, st) := ReadState(c, w, s.ref, f);
    ReadIs(c, w, s.ref, f);
    ReadLeaves(c, w, s.ref, f);
    var adjusted := ApplyMissed(s, st, now);
    if adjusted != st {
      WriteIs(c, w1, s.ref, adjusted, ByStartup, f);
      WriteIsSound(c, w1, s.ref, adjusted, ByStartup, f);
      forall other | other != s.ref ensures SameFor(w1, WriteState(c, w1, s.ref, adjusted, ByStartup, f).0, other) {
        WriteLeaves(c, w1, s.ref, adjusted, ByStartup, f, other);
      }
      var w2 := WriteState(c, w1, s.ref, adjusted, ByStartup, f).0;
      NoteIsSound(c, w2, Overwrite(s.ref, now));
      LeavesQuietly(w, w1, w2, s.ref, now);
      LeavesNoted(w, w2, Overwrite(s.ref, now));
    } else {
      LeavesQuietly(w, w1, w1, s.ref, now);
    }
  }

  lemma CheckLeaves(c: Codec, s: Schedule, w: World, now: nat, f: Faults)
    requires Faithful(c) && Sound(c, w)
    ensures Leaves(w, CheckOne(c, s, w, now, f), s.ref, now) && Sound(c, CheckOne(c, s, w, now, f))
  {
    hide Sound, WriteState, Lands, ReadState;
    var (w1, st) := ReadState(c, w, s.ref, f);
    ReadIs(c, w, s.ref, f);
    ReadLeaves(c, w, s.ref, f);
    if IsDue(st, now) {
      var (w2, kept) := WriteState(c, w1, s.ref, AfterSpawn(st), BySpawn, f);
      WriteIs(c, w1, s.ref, AfterSpawn(st), BySpawn, f);
      WriteIsSound(c, w1, s.ref, AfterSpawn(st), BySpawn, f);
      forall other | other != s.ref ensures SameFor(w1, w2, other) {
        WriteLeaves(c, w1, s.ref, AfterSpawn(st), BySpawn, f, other);
      }
      var e := Spawn(s.ref, now, IsBlind(w, s.ref, f), kept);
      NoteIsSound(c, w2, e);
      LeavesQuietly(w, w1, w2, s.ref, now);
      LeavesNoted(w, w2, e);
    } else {
      LeavesQuietly(w, w1, w1, s.ref, now);
    }
  }

  lemma DeathLeaves(c: Codec, s: Schedule, w: World, at: nat, f: Faults)
    requires Faithful(c) && Sound(c, w)
    ensures Leaves(w, DeathOne(c, s, w, at, f), s.ref, at) && Sound(c, DeathOne(c, s, w, at, f))
  {
    hide Sound, WriteState, Lands;
    var (w1, kept) := WriteState(c, w, s.ref, AfterDeath(s, at), ByDeath, f);
    WriteIs(c, w, s.ref, AfterDeath(s, at), ByDeath, f);
    WriteIsSound(c, w, s.ref, AfterDeath(s, at), ByDeath, f);
    forall other | other != s.ref ensures SameFor(w, w1, other) {
      WriteLeaves(c, w, s.ref, AfterDeath(s, at), ByDeath, f, other);
    }
    NoteIsSound(c, w1, Death(s.ref, at, kept));
    LeavesQuietly(w, w, w1, s.ref, at);
    LeavesNoted(w, w1, Death(s.ref, at, kept));
  }

  lemma NoteIsSound(c: Codec, w: World, e: Event)
    requires Sound(c, w)
    ensures Sound(c, Note(w, e))
  {
    hide TagsOk, CacheReal;
    forall r ensures TagsOk(c, Note(w, e), r) {
      assert TagsOk(c, w, r);
      SameTags(c, w, Note(w, e), r);
    }
  }

  // ---- runs -----------------------------------------------------------------------------------

  datatype Sys = Sys(world: World, now: nat)

  /** One schedule handled by the startup pass, by a tick, or because its boss died; or the director replaced
      by a fresh one.  A tick is a step for each schedule, preceded by the startup steps the first time; the
      steps may come in any order here, so every run of the director is among these. */
  datatype Step =
    | Startup(i: nat, at: nat, f: Faults)
    | Check(i: nat, at: nat, f: Faults)
    | BossDied(ref: string, at: nat, f: Faults)
    | Restart

  predicate Enabled(ss: seq<Schedule>, s: Sys, step: Step) {
    match step
    case Startup(i, at, _) => i < |ss| && s.now <= at
    case Check(i, at, _) => i < |ss| && s.now <= at
    case BossDied(_, at, _) => s.now <= at
    case Restart => true
  }

  function Apply(c: Codec, ss: seq<Schedule>, s: Sys, step: Step): Sys
    requires Enabled(ss, s, step)
  {
    match step
    case Startup(i, at, f) => Sys(StartupOne(c, ss[i], s.world, at, f), at)
    case Check(i, at, f) => Sys(CheckOne(c, ss[i], s.world, at, f), at)
    case BossDied(ref, at, f) =>
      var i := Find(ss, ref);
      Sys(if ref == "" || i < 0 then s.world else DeathOne(c, ss[i], s.world, at, f), at)
    case Restart => s.(world := s.world.(local := LEADING))
  }

  ghost predicate Behavior(c: Codec, ss: seq<Schedule>, run: seq<Sys>, steps: seq<Step>) {
    && Faithful(c) && |run| == |steps| + 1 && run[0] == Sys(World(map[], LEADING, map[], []), 0)
    && forall k | 0 <= k < |steps| :: Enabled(ss, run[k], steps[k]) && run[k + 1] == Apply(c, ss, run[k], steps[k])
  }

  lemma RestartIsSound(c: Codec, w: World)
    requires Sound(c, w)
    ensures Sound(c, w.(local := LEADING))
  {
    hide TagsOk;
    forall r ensures TagsOk(c, w.(local := LEADING), r) {
      assert TagsOk(c, w, r);
      SameTags(c, w, w.(local := LEADING), r);
    }
  }

  /** The schedule a step is about, if any. */
  function About(ss: seq<Schedule>, s: Sys, step: Step): Option<string>
    requires Enabled(ss, s, step)
  {
    match step
    case Startup(i, _, _) => Some(ss[i].ref)
    case Check(i, _, _) => Some(ss[i].ref)
    case BossDied(ref, _, _) => if ref == "" || Find(ss, ref) < 0 then None else Some(ref)
    case Restart => None
  }

  /** A step leaves everything alone that it is not about. */
  lemma StepLeaves(c: Codec, ss: seq<Schedule>, s: Sys, step: Step)
    requires Faithful(c) && Sound(c, s.world) && Enabled(ss, s, step)
    ensures Sound(c, Apply(c, ss, s, step).world)
    ensures var (ref, w1) := (About(ss, s, step), Apply(c, ss, s, step).world);
            if ref.Some? then !step.Restart? && Leaves(s.world, w1, ref.value, step.at)
            else w1 == s.world.(local := if step.Restart? then LEADING else s.world.local)
  {
    hide Sound, StartupOne, CheckOne, DeathOne, Leaves;
    match step {
      case Startup(i, at, f) => StartupLeaves(c, ss[i], s.world, at, f);
      case Check(i, at, f) => CheckLeaves(c, ss[i], s.world, at, f);
      case BossDied(r, at, f) =>
        if r != "" && Find(ss, r) >= 0 {
          DeathLeaves(c, ss[Find(ss, r)], s.world, at, f);
        }
      case Restart => RestartIsSound(c, s.world);
    }
  }

  lemma {:induction false} SoundAlways(c: Codec, ss: seq<Schedule>, run: seq<Sys>, steps: seq<Step>, n: nat)
    requires Behavior(c, ss, run, steps) && n < |run|
    ensures Sound(c, run[n].world)
  {
    if n > 0 {
      SoundAlways(c, ss, run, steps, n - 1);
      StepLeaves(c, ss, run[n - 1], steps[n - 1]);
      assert run[n] == Apply(c, ss, run[n - 1], steps[n - 1]);
    }
  }

  lemma InvLater(c: Codec, w: World, ref: string, interval: int, now: nat, at: nat)
    requires Inv(c, w, ref, interval, now) && now <= at
    ensures Inv(c, w, ref, interval, at)
  {
    hide AllJustified;
  }

  lemma InvStep(c: Codec, ss: seq<Schedule>, s: Sys, step: Step, ref: string, interval: int)
    requires Faithful(c) && Sound(c, s.world) && Enabled(ss, s, step)
    requires Find(ss, ref) >= 0 && interval == ss[Find(ss, ref)].interval && Inv(c, s.world, ref, interval, s.now)
    ensures Inv(c, Apply(c, ss, s, step).world, ref, interval, Apply(c, ss, s, step).now)
  {
    StepLeaves(c, ss, s, step);
    var about := About(ss, s, step);
    if !step.Restart? {
      InvLater(c, s.world, ref, interval, s.now, step.at);
      if about == Some(ref) {
        match step {
          case Startup(i, at, f) => StartupKeepsInv(c, ss[i], s.world, at, f, interval);
          case Check(i, at, f) => CheckKeepsInv(c, ss[i], s.world, at, f, interval);
          case BossDied(r, at, f) => DeathKeepsInv(c, ss[Find(ss, r)], s.world, at, f);
        }
      } else if about.Some? {
        OthersKeepInv(c, s.world, Apply(c, ss, s, step).world, ref, interval, step.at);
      }
    }
  }

  lemma {:induction false} InvAlways(
    c: Codec, ss: seq<Schedule>, run: seq<Sys>, steps: seq<Step>, n: nat, ref: string, interval: int)
    requires Behavior(c, ss, run, steps) && n < |run| && Find(ss, ref) >= 0 && interval == ss[Find(ss, ref)].interval
    ensures Inv(c, run[n].world, ref, interval, run[n].now)
  {
    if n > 0 {
      InvAlways(c, ss, run, steps, n - 1, ref, interval);
      SoundAlways(c, ss, run, steps, n - 1);
      InvStep(c, ss, run[n - 1], steps[n - 1], ref, interval);
      assert run[n] == Apply(c, ss, run[n - 1], steps[n - 1]);
    }
  }

  // ---- the main theorems ----------------------------------------------------------------------

  /** In every run, whatever fails: each spawn was blind, or the first, or followed an overwrite or an event
      whose save was not reported as made, or came at least the interval after the death before it. */
  lemma EverySpawnIsJustified(c: Codec, ss: seq<Schedule>, run: seq<Sys>, steps: seq<Step>, n: nat, j: nat)
    requires Behavior(c, ss, run, steps) && n < |run| && j < |run[n].world.events| && run[n].world.events[j].Spawn?
    requires Find(ss, run[n].world.events[j].ref) >= 0
    ensures var e := run[n].world.events[j];
            Justified(run[n].world.events[..j], e, ss[Find(ss, e.ref)].interval)
  {
    hide Behavior, Find, Justified, Safe, ClaimOf;
    var ref := run[n].world.events[j].ref;
    InvAlways(c, ss, run, steps, n, ref, ss[Find(ss, ref)].interval);
  }

  /** Exactly when a boss that was spawned, and whose death has not reached the store since, spawns again at a
      tick: its read fails; or the save after the spawn was not reported as made, the version the director
      sees is still not one a spawn saved, and that version's time has come.  SpawnFaults and
      SpawnRestarts say it of the faults. */
  lemma SpawnsAgainIff(c: Codec, ss: seq<Schedule>, run: seq<Sys>, steps: seq<Step>, n: nat)
    requires Behavior(c, ss, run, steps) && n < |steps| && steps[n].Check? && steps[n].i < |ss|
    requires var (events, p) := (run[n].world.events, LastOf(run[n].world.events, ss[steps[n].i].ref));
             p >= 0 && events[p].Spawn?
    ensures var (w, s, at, f) := (run[n].world, ss[steps[n].i], steps[n].at, steps[n].f);
            var last := w.events[LastOf(w.events, s.ref)];
            && (Spawns(c, s, w, at, f) <==>
                  || IsBlind(w, s.ref, f)
                  || (!last.kept && !SeesSpawn(w, s.ref) && at >= StateSeen(c, w, s.ref).nextSpawnAt))
            && (Spawns(c, s, w, at, f) <==>
                  |run[n + 1].world.events| == |w.events| + 1 && run[n + 1].world.events[|w.events|].Spawn?)
  {
    SoundAlways(c, ss, run, steps, n);
    var (w, s, at, f) := (run[n].world, ss[steps[n].i], steps[n].at, steps[n].f);
    SpawnsIff(c, s, w, at, f);
    assert run[n + 1] == Apply(c, ss, run[n], steps[n]) && Enabled(ss, run[n], steps[n]);
    InvAlways(c, ss, run, steps, n, s.ref, ss[Find(ss, s.ref)].interval);
    if w.events[LastOf(w.events, s.ref)].kept {
      AliveIsSeen(c, w, s.ref);
    }
  }

  lemma AliveIsSeen(c: Codec, w: World, ref: string)
    requires Sound(c, w) && Safe(c, w, ref, Alive)
    ensures SeesSpawn(w, ref)
  {
    assert TagsOk(c, w, ref);
  }

  // ---- a tick that works settles its schedule -------------------------------------------------

  /** After a tick that could read, and whose save, if it spawned, was made, the boss is alive or its next
      spawn time lies ahead. */
  lemma CheckSettles(c: Codec, s: Schedule, w: World, now: nat, f: Faults)
    requires Faithful(c) && Sound(c, w) && !IsBlind(w, s.ref, f)
    requires Spawns(c, s, w, now, f) ==>
               var (w1, st) := ReadState(c, w, s.ref, f);
               WriteState(c, w1, s.ref, AfterSpawn(st), BySpawn, f).1
    ensures var st := StateSeen(c, CheckOne(c, s, w, now, f), s.ref);
            st.active || st.nextSpawnAt > now
  {
    var (w1, st) := ReadState(c, w, s.ref, f);
    ReadIs(c, w, s.ref, f);
    if Spawns(c, s, w, now, f) {
      var w2 := WriteState(c, w1, s.ref, AfterSpawn(st), BySpawn, f).0;
      WriteIs(c, w1, s.ref, AfterSpawn(st), BySpawn, f);
      assert CheckOne(c, s, w, now, f).store == w2.store && CheckOne(c, s, w, now, f).local == w2.local;
    } else {
      assert StateSeen(c, w1, s.ref) == StateSeen(c, w, s.ref);
    }
  }

  // ---- runs without faults --------------------------------------------------------------------

  predicate NoFaults(steps: seq<Step>) { forall k | 0 <= k < |steps| :: steps[k].Restart? || steps[k].f == NONE }

  /** Every event so far was seen and kept. */
  predicate AllKept(events: seq<Event>) {
    forall i | 0 <= i < |events| :: !events[i].Overwrite? && events[i].kept && (events[i].Spawn? ==> !events[i].blind)
  }

  ghost predicate Quiet(w: World) { forall ref :: UpToDate(w.store, w.local, KeyOf(ref)) }

  lemma QuietRead(c: Codec, w: World, ref: string)
    requires Sound(c, w) && Quiet(w)
    ensures var w1 := ReadState(c, w, ref, NONE).0;
            Sound(c, w1) && Quiet(w1) && w1.events == w.events && !IsBlind(w, ref, NONE)
  {
    ReadIs(c, w, ref, NONE);
    var w1 := ReadState(c, w, ref, NONE).0;
    forall other ensures UpToDate(w1.store, w1.local, KeyOf(other)) {
    }
  }

  lemma QuietWrite(c: Codec, w: World, ref: string, st: ScheduleState, who: Writer)
    requires Faithful(c) && Sound(c, w) && Quiet(w) && (st.active <==> who == BySpawn)
    ensures var (w1, kept) := WriteState(c, w, ref, st, who, NONE);
            kept && Quiet(w1) && w1.events == w.events
  {
    var w1 := WriteState(c, w, ref, st, who, NONE).0;
    WriteIsSound(c, w, ref, st, who, NONE);
    WriteIs(c, w, ref, st, who, NONE);
    forall other ensures UpToDate(w1.store, w1.local, KeyOf(other)) {
      if other != ref {
        WriteLeaves(c, w, ref, st, who, NONE, other);
      }
    }
  }

  lemma QuietStep(c: Codec, ss: seq<Schedule>, s: Sys, step: Step)
    requires Faithful(c) && Sound(c, s.world) && Enabled(ss, s, step) && (step.Restart? || step.f == NONE)
    requires Quiet(s.world) && AllKept(s.world.events)
    ensures Quiet(Apply(c, ss, s, step).world) && AllKept(Apply(c, ss, s, step).world.events)
  {
    match step {
      case Startup(i, at, f) => QuietStartup(c, ss[i], s.world, at);
      case Check(i, at, f) => QuietCheck(c, ss[i], s.world, at);
      case BossDied(r, at, f) =>
        if r != "" && Find(ss, r) >= 0 {
          QuietWrite(c, s.world, r, AfterDeath(ss[Find(ss, r)], at), ByDeath);
        }
      case Restart =>
    }
  }

  lemma QuietStartup(c: Codec, s: Schedule, w: World, now: nat)
    requires Faithful(c) && Sound(c, w) && Quiet(w) && AllKept(w.events)
    ensures var w2 := StartupOne(c, s, w, now, NONE);
            Quiet(w2) && AllKept(w2.events)
  {
    hide Sound, WriteState, Lands, ReadState, UpToDate, Faithful;
    QuietRead(c, w, s.ref);
    var (w1, st) := ReadState(c, w, s.ref, NONE);
    var adjusted := ApplyMissed(s, st, now);
    if adjusted != st {
      QuietWrite(c, w1, s.ref, adjusted, ByStartup);
    }
  }

  lemma QuietCheck(c: Codec, s: Schedule, w: World, now: nat)
    requires Faithful(c) && Sound(c, w) && Quiet(w) && AllKept(w.events)
    ensures var w2 := CheckOne(c, s, w, now, NONE);
            Quiet(w2) && AllKept(w2.events)
  {
    hide Sound, WriteState, Lands, ReadState, UpToDate, Faithful;
    QuietRead(c, w, s.ref);
    var (w1, st) := ReadState(c, w, s.ref, NONE);
    if IsDue(st, now) {
      QuietWrite(c, w1, s.ref, AfterSpawn(st), BySpawn);
    }
  }

  lemma {:induction false} QuietAlways(c: Codec, ss: seq<Schedule>, run: seq<Sys>, steps: seq<Step>, n: nat)
    requires Behavior(c, ss, run, steps) && n < |run| && NoFaults(steps)
    ensures Quiet(run[n].world) && AllKept(run[n].world.events)
  {
    if n > 0 {
      QuietAlways(c, ss, run, steps, n - 1);
      SoundAlways(c, ss, run, steps, n - 1);
      QuietStep(c, ss, run[n - 1], steps[n - 1]);
      assert run[n] == Apply(c, ss, run[n - 1], steps[n - 1]);
    }
  }

  /** So without faults scope state is a plain map to a sole fresh director: a read returns what was written
      last, by whichever director, and the zero state if nothing was. */
  lemma ReadsLastWrite(c: Codec, ss: seq<Schedule>, run: seq<Sys>, steps: seq<Step>, n: nat, ref: string)
    requires Behavior(c, ss, run, steps) && n < |run| && NoFaults(steps)
    ensures var (w, h) := (run[n].world, History(run[n].world.store, KeyOf(ref)));
            ReadState(c, w, ref, NONE).1 == if h == [] then NEVER_SPAWNED else c.decode(h[|h| - 1])
  {
    hide Behavior, ReadState;
    QuietAlways(c, ss, run, steps, n);
    SoundAlways(c, ss, run, steps, n);
    var w := run[n].world;
    ReadIs(c, w, ref, NONE);
    assert UpToDate(w.store, w.local, KeyOf(ref));
  }

  // ---- event times ----------------------------------------------------------------------------

  predicate Ordered(events: seq<Event>, now: nat) {
    && (forall i | 0 <= i < |events| :: events[i].at <= now)
    && (forall i, j | 0 <= i < j < |events| :: events[i].at <= events[j].at)
  }

  lemma OrderedNext(w: World, w1: World, ref: string, now: nat, at: nat)
    requires Ordered(w.events, now) && now <= at && Leaves(w, w1, ref, at)
    ensures Ordered(w1.events, at)
  {
    assert forall i | 0 <= i < |w.events| :: w1.events[i] == w.events[i] by {
      assert w1.events == w.events || w1.events[..|w.events|] == w.events;
    }
  }

  lemma {:induction false} EventsOrdered(c: Codec, ss: seq<Schedule>, run: seq<Sys>, steps: seq<Step>, n: nat)
    requires Behavior(c, ss, run, steps) && n < |run|
    ensures Ordered(run[n].world.events, run[n].now)
  {
    hide Sound, Faithful, StartupOne, CheckOne, DeathOne, Leaves;
    if n > 0 {
      EventsOrdered(c, ss, run, steps, n - 1);
      SoundAlways(c, ss, run, steps, n - 1);
      var (s, step) := (run[n - 1], steps[n - 1]);
      StepLeaves(c, ss, s, step);
      var ref := About(ss, s, step);
      assert run[n] == Apply(c, ss, s, step);
      if ref.Some? {
        OrderedNext(s.world, run[n].world, ref.value, s.now, step.at);
      }
    }
  }

  /** With every read and write succeeding: between two spawns of one schedule a death was processed, and the
      later spawn is at least the interval after every such death, across any number of restarts. */
  lemma SpawnsAreSpaced(
    c: Codec, ss: seq<Schedule>, run: seq<Sys>, steps: seq<Step>, n: nat, ref: string, i: nat, j: nat)
    requires Behavior(c, ss, run, steps) && n < |run| && NoFaults(steps) && Find(ss, ref) >= 0
    requires i < j < |run[n].world.events|
    requires run[n].world.events[i].Spawn? && run[n].world.events[i].ref == ref
    requires run[n].world.events[j].Spawn? && run[n].world.events[j].ref == ref
    ensures exists k :: i < k < j && run[n].world.events[k].Death? && run[n].world.events[k].ref == ref
    ensures forall k | i < k < j && run[n].world.events[k].Death? && run[n].world.events[k].ref == ref ::
              run[n].world.events[k].at + ss[Find(ss, ref)].interval <= run[n].world.events[j].at
  {
    hide Behavior, Find;
    var (events, interval) := (run[n].world.events, ss[Find(ss, ref)].interval);
    EverySpawnIsJustified(c, ss, run, steps, n, j);
    QuietAlways(c, ss, run, steps, n);
    EventsOrdered(c, ss, run, steps, n);
    var p := LastOf(events[..j], ref);
    assert events[..j][i] == events[i] && i <= p;
    assert events[p].Death?;
    forall k | i < k < j && events[k].Death? && events[k].ref == ref ensures events[k].at + interval <= events[j].at {
      assert events[..j][k] == events[k] && k <= p;
    }
  }
}
