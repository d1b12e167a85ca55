/**
  What the next director does.  It starts with a cold cache and handles each schedule in its startup pass before
  any tick; so whether it spawns a boss that an earlier director spawned depends on both reads, on what the
  startup pass writes, and on the time.
*/
module SpawnRestarts {
  import opened Basics
  import opened DirectorCore
  import opened ScopeStore
  import opened SpawnSchedule
  import opened SpawnRuns
  import opened SpawnFaults

  // ---- the condition --------------------------------------------------------------------------

  /** The startup pass takes a state for missed and postpones it by an interval. */
  predicate Postpones(s: Schedule, st: ScheduleState, now: nat) { ApplyMissed(s, st, now) != st }

  /** The startup pass postpones the state it reads, or takes for read, and the director then goes by what it
      wrote: the save was confirmed, or it landed as the first of its key and a tick reads it back. */
  predicate StartsOver(s: Schedule, head: ScheduleState, stored: bool, now: nat, f: Faults, unread: bool) {
    && Postpones(s, if f.readFails then NEVER_SPAWNED else head, now)
    && (!f.save.seedFails || (stored && !f.readFails))
    && (f.save.save.Fine? || (f.save.save.ErrorAfter? && !stored && !unread))
  }

  /** Whether a new director's tick spawns, by what the store held when it started: its startup faults f at
      `now`, and whether no tick so far has managed to read. */
  predicate NewDirectorSpawns(
    s: Schedule, head: ScheduleState, stored: bool, now: nat, f: Faults, later: nat, unread: bool) {
    if StartsOver(s, head, stored, now, f, unread) then later >= now + s.interval
    else IsDue(head, later) || (f.readFails && unread && (Postpones(s, NEVER_SPAWNED, now) ==> f.save.seedFails))
  }

  /** The same for a boss that is alive. */
  predicate SpawnsLiving(s: Schedule, now: nat, f: Faults, later: nat, unread: bool) {
    && f.readFails
    && if Postpones(s, NEVER_SPAWNED, now) && !f.save.seedFails then f.save.save.Fine? && later >= now + s.interval
       else unread
  }

  lemma LivingCase(s: Schedule, head: ScheduleState, now: nat, f: Faults, later: nat, unread: bool)
    requires head.active
    ensures NewDirectorSpawns(s, head, true, now, f, later, unread) <==> SpawnsLiving(s, now, f, later, unread)
  {
  }

  /** The same for a boss that is due already. */
  lemma DueCase(s: Schedule, head: ScheduleState, stored: bool, now: nat, f: Faults, later: nat, unread: bool)
    requires IsDue(head, later)
    ensures NewDirectorSpawns(s, head, stored, now, f, later, unread) <==>
            (StartsOver(s, head, stored, now, f, unread) ==> later >= now + s.interval)
  {
  }

  // ---- startup, then a tick -------------------------------------------------------------------

  /** What a startup pass from a cold cache leaves: whether the schedule is cached, and the state seen. */
  lemma StartupSees(c: Codec, s: Schedule, w: World, now: nat, f: Faults)
    requires Faithful(c) && Sound(c, w) && !Cached(w, s.ref)
    ensures var (w1, ex, sv) := (StartupOne(c, s, w, now, f), Exists(w, s.ref), f.save);
            var moves := Postpones(s, if f.readFails then NEVER_SPAWNED else Head(c, w, s.ref), now);
            && (Cached(w1, s.ref) <==> (ex && !f.readFails) || (moves && !sv.seedFails && (sv.save.Fine? || ex)))
            && StateSeen(c, w1, s.ref) ==
               if moves && (!sv.seedFails || (ex && !f.readFails)) && (sv.save.Fine? || (sv.save.ErrorAfter? && !ex))
               then ScheduleState(now + s.interval, false) else Head(c, w, s.ref)
  {
    hide ReadState, WriteState, Lands, TagsOk, CacheReal, Faithful;
    var (w1, st) := ReadState(c, w, s.ref, f);
    ReadIs(c, w, s.ref, f);
    ReadCaches(c, w, s.ref, f, s.ref);
    ColdRead(c, w, s.ref, f);
    var adjusted := ApplyMissed(s, st, now);
    assert Exists(w, s.ref) <==> History(w.store, KeyOf(s.ref)) != [];
    assert StateSeen(c, w, s.ref) == StateSeen(c, w1, s.ref) == Head(c, w, s.ref);
    if adjusted != st {
      CurrentWrite(c, w1, s.ref, adjusted, ByStartup, f);
      WriteIs(c, w1, s.ref, adjusted, ByStartup, f);
      Decodes(c, adjusted);
    }
  }

  lemma ColdRead(c: Codec, w: World, ref: string, f: Faults)
    requires Sound(c, w) && !Cached(w, ref)
    ensures Current(ReadState(c, w, ref, f).0, ref) && (IsBlind(w, ref, f) <==> f.readFails)
  {
  }

  /** Exactly when a new director's tick spawns: for every state of the store, every fault of its startup pass and
      every fault of its ticks. */
  lemma StartupThenTick(
    c: Codec, s: Schedule, w: World, now: nat, f: Faults, s': Schedule, w': World, later: nat, looked: bool, g: Faults)
    requires Faithful(c) && Sound(c, w) && !Cached(w, s.ref) && Sound(c, w') && s'.ref == s.ref && now <= later
    requires Kept(StartupOne(c, s, w, now, f), w', s.ref, looked)
    ensures Spawns(c, s', w', later, g) <==>
            NewDirectorSpawns(s, Head(c, w, s.ref), Exists(w, s.ref), now, f, later, g.readFails && !looked)
  {
    hide StartupOne, Spawns, TagsOk, CacheReal, Faithful;
    StartupSees(c, s, w, now, f);
    SpawnIsDecided(c, s', w', later, g);
    assert StateSeen(c, w', s.ref) == StateSeen(c, StartupOne(c, s, w, now, f), s.ref);
  }

  /** In the call that starts a director, with a living boss: both its reads must fail, and under skip_to_next the
      load before the startup save as well. */
  lemma FirstTickSpawnsLivingIff(c: Codec, s: Schedule, w: World, now: nat, f: Faults, g: Faults)
    requires Faithful(c) && Sound(c, w) && !Cached(w, s.ref) && Head(c, w, s.ref).active
    requires now > 0 && s.interval > 0
    ensures Spawns(c, s, StartupOne(c, s, w, now, f), now, g) <==>
            f.readFails && g.readFails && (s.onMissed == SKIP_TO_NEXT ==> f.save.seedFails)
  {
    hide StartupOne, Spawns, Sound, Faithful;
    StartupLeaves(c, s, w, now, f);
    StartupThenTick(c, s, w, now, f, s, StartupOne(c, s, w, now, f), now, false, g);
    LivingCase(s, Head(c, w, s.ref), now, f, now, g.readFails);
  }

  /** After a save that landed unconfirmed, the boss is alive to the next director, which spawns it again only if
      its own startup read fails. */
  lemma UnconfirmedSaveIsSeenNext(
    c: Codec, s: Schedule, w: World, at: nat, e: Faults, now: nat, f: Faults, later: nat, g: Faults)
    requires Faithful(c) && Sound(c, w) && Current(w, s.ref) && !IsBlind(w, s.ref, e) && Spawns(c, s, w, at, e)
    requires e.save.save.ErrorAfter? && Exists(w, s.ref) && now <= later
    ensures var next := CheckOne(c, s, w, at, e).(local := LEADING);
            && (Spawns(c, s, StartupOne(c, s, next, now, f), later, g) <==> SpawnsLiving(s, now, f, later, g.readFails))
            && (!f.readFails ==> !Spawns(c, s, StartupOne(c, s, next, now, f), later, g))
  {
    hide StartupOne, CheckOne, Spawns, Sound, Faithful;
    var w2 := CheckOne(c, s, w, at, e);
    var next := w2.(local := LEADING);
    CheckLeaves(c, s, w, at, e);
    RestartIsSound(c, w2);
    UnconfirmedSaveSpawnsAgain(c, s, w, at, e, at, g);
    ThereIfLiving(c, next, s.ref);
    StartupLeaves(c, s, next, now, f);
    StartupThenTick(c, s, next, now, f, s, StartupOne(c, s, next, now, f), later, false, g);
    LivingCase(s, Head(c, next, s.ref), now, f, later, g.readFails);
  }

  lemma ThereIfLiving(c: Codec, w: World, ref: string)
    requires Head(c, w, ref).active
    ensures Exists(w, ref)
  {
  }

  // ---- new directors in runs ------------------------------------------------------------------

  /** No step from a to b is about this schedule. */
  ghost predicate LeftAlone(c: Codec, ss: seq<Schedule>, run: seq<Sys>, steps: seq<Step>, a: nat, b: nat, ref: string)
    requires Behavior(c, ss, run, steps) && b <= |steps|
  {
    forall k | a <= k < b :: About(ss, run[k], steps[k]) != Some(ref)
  }

  /** A director starts at r, and at p its startup pass comes to this schedule. */
  ghost predicate StartsAt(c: Codec, ss: seq<Schedule>, run: seq<Sys>, steps: seq<Step>, r: nat, p: nat, ref: string)
    requires Behavior(c, ss, run, steps) && p < |steps|
  {
    && r < p && steps[r].Restart? && LeftAlone(c, ss, run, steps, r + 1, p, ref)
    && steps[p].Startup? && About(ss, run[p], steps[p]) == Some(ref)
  }

  /** The store is as it was, and the cache is cold. */
  predicate Cold(w: World, w1: World, ref: string) {
    History(w1.store, KeyOf(ref)) == History(w.store, KeyOf(ref)) && !Cached(w1, ref)
  }

  lemma StepStaysCold(c: Codec, ss: seq<Schedule>, s: Sys, step: Step, ref: string)
    requires Faithful(c) && Sound(c, s.world) && Enabled(ss, s, step) && About(ss, s, step) != Some(ref)
    requires step.Restart? || !Cached(s.world, ref)
    ensures Cold(s.world, Apply(c, ss, s, step).world, ref)
  {
    hide Sound, StartupOne, CheckOne, DeathOne, Faithful;
    StepLeaves(c, ss, s, step);
    if About(ss, s, step).Some? {
      assert SameFor(s.world, Apply(c, ss, s, step).world, ref);
    }
  }

  lemma StepOf(c: Codec, ss: seq<Schedule>, run: seq<Sys>, steps: seq<Step>, k: nat)
    requires Behavior(c, ss, run, steps) && k < |steps|
    ensures |run| == |steps| + 1 && Faithful(c)
    ensures Enabled(ss, run[k], steps[k]) && run[k + 1] == Apply(c, ss, run[k], steps[k])
  {
    hide Apply, Enabled, Faithful;
  }

  lemma {:induction false} ColdSinceStart(
    c: Codec, ss: seq<Schedule>, run: seq<Sys>, steps: seq<Step>, r: nat, p: nat, ref: string)
    requires Behavior(c, ss, run, steps) && r < p <= |steps| && steps[r].Restart?
    requires LeftAlone(c, ss, run, steps, r + 1, p, ref)
    ensures Cold(run[r].world, run[p].world, ref)
  {
    hide Behavior, Sound, Apply, Enabled, Faithful;
    StepOf(c, ss, run, steps, p - 1);
    SoundAlways(c, ss, run, steps, p - 1);
    if r + 1 < p {
      ColdSinceStart(c, ss, run, steps, r, p - 1, ref);
    }
    StepStaysCold(c, ss, run[p - 1], steps[p - 1], ref);
  }

  lemma SameHead(c: Codec, w: World, w1: World, ref: string)
    requires Sound(c, w) && Sound(c, w1) && History(w1.store, KeyOf(ref)) == History(w.store, KeyOf(ref))
    ensures Head(c, w1, ref) == Head(c, w, ref) && (Exists(w1, ref) <==> Exists(w, ref))
  {
    assert Exists(w, ref) <==> History(w.store, KeyOf(ref)) != [];
    assert Exists(w1, ref) <==> History(w1.store, KeyOf(ref)) != [];
  }

  /** Exactly when a new director spawns a boss, in every run and whatever happened before it started: by the state
      the store held then, the faults of its startup pass and of its ticks, and the time. */
  lemma NewDirectorSpawnsIff(
    c: Codec, ss: seq<Schedule>, run: seq<Sys>, steps: seq<Step>, r: nat, p: nat, m: nat, ref: string)
    requires Behavior(c, ss, run, steps) && p < m < |steps| && StartsAt(c, ss, run, steps, r, p, ref)
    requires Watched(c, ss, run, steps, p + 1, m, ref) && steps[m].Check? && About(ss, run[m], steps[m]) == Some(ref)
    ensures var unread := steps[m].f.readFails && !Looked(c, ss, run, steps, p + 1, m, ref);
            Spawns(c, ss[steps[m].i], run[m].world, steps[m].at, steps[m].f) <==>
            NewDirectorSpawns(ss[steps[p].i], Head(c, run[r].world, ref), Exists(run[r].world, ref),
                              steps[p].at, steps[p].f, steps[m].at, unread)
  {
    hide Sound, Spawns, NewDirectorSpawns, Kept, StartupOne, Faithful, Looked, Watched, Head, Exists;
    SoundAlways(c, ss, run, steps, r);
    SoundAlways(c, ss, run, steps, p);
    SoundAlways(c, ss, run, steps, m);
    ColdSinceStart(c, ss, run, steps, r, p, ref);
    SameHead(c, run[r].world, run[p].world, ref);
    WatchedIsKept(c, ss, run, steps, p + 1, m, ref);
    TimeGrows(c, ss, run, steps, p + 1, m);
    assert run[p + 1] == Apply(c, ss, run[p], steps[p]);
    StartupThenTick(c, ss[steps[p].i], run[p].world, steps[p].at, steps[p].f,
                    ss[steps[m].i], run[m].world, steps[m].at, Looked(c, ss, run, steps, p + 1, m, ref), steps[m].f);
  }

  /** What a spawn from a current read has left in the store when the director is replaced. */
  lemma LeftByASpawn(c: Codec, ss: seq<Schedule>, run: seq<Sys>, steps: seq<Step>, n: nat, r: nat, ref: string)
    requires Behavior(c, ss, run, steps) && n < r < |steps| && SpawnsSoundly(c, ss, run, steps, n, ref)
    requires Watched(c, ss, run, steps, n + 1, r, ref)
    ensures var (w, st) := (run[n].world, StateSeen(c, run[n].world, ref));
            && steps[n].Check? && IsDue(st, steps[n].at)
            && if Unsaved(w, ref, steps[n].f)
               then Head(c, run[r].world, ref) == st && (Exists(run[r].world, ref) <==> Exists(w, ref))
               else Head(c, run[r].world, ref).active && Exists(run[r].world, ref)
  {
    hide Spawns, CheckOne, Faithful, Looked, Watched, TagsOk, CacheReal, IsBlind;
    SoundAlways(c, ss, run, steps, n);
    SoundAlways(c, ss, run, steps, n + 1);
    SoundAlways(c, ss, run, steps, r);
    WatchedIsKept(c, ss, run, steps, n + 1, r, ref);
    assert run[n + 1] == Apply(c, ss, run[n], steps[n]);
    SpawnLeaves(c, ss[steps[n].i], run[n].world, steps[n].at, steps[n].f);
    Decodes(c, AfterSpawn(StateSeen(c, run[n].world, ref)));
    SameHead(c, run[n + 1].world, run[r].world, ref);
    if Unsaved(run[n].world, ref, steps[n].f) {
      SameHead(c, run[n].world, run[n + 1].world, ref);
    }
  }

  /** Exactly when a boss that one director spawned is spawned again by the next, in every run.  If the first save
      never reached the store the boss is still due, and only a startup pass that postpones it holds it back, for
      an interval.  If it did, the next director must fail to read at startup; then it overwrites the state under
      skip_to_next, and spawns when the interval is over, or a tick must fail to read too. */
  lemma SpawnsAfterRestartIff(
    c: Codec, ss: seq<Schedule>, run: seq<Sys>, steps: seq<Step>, n: nat, r: nat, p: nat, m: nat, ref: string)
    requires Behavior(c, ss, run, steps) && n < r < p < m < |steps| && SpawnsSoundly(c, ss, run, steps, n, ref)
    requires Watched(c, ss, run, steps, n + 1, r, ref) && StartsAt(c, ss, run, steps, r, p, ref)
    requires Watched(c, ss, run, steps, p + 1, m, ref) && steps[m].Check? && About(ss, run[m], steps[m]) == Some(ref)
    ensures var (s, now, f, later) := (ss[steps[p].i], steps[p].at, steps[p].f, steps[m].at);
            var unread := steps[m].f.readFails && !Looked(c, ss, run, steps, p + 1, m, ref);
            Spawns(c, ss[steps[m].i], run[m].world, later, steps[m].f) <==>
            if Unsaved(run[n].world, ref, steps[n].f) then
              StartsOver(s, StateSeen(c, run[n].world, ref), Exists(run[n].world, ref), now, f, unread) ==>
                later >= now + s.interval
            else SpawnsLiving(s, now, f, later, unread)
  {
    hide Spawns, NewDirectorSpawns, Looked, Watched, Head, Exists, StartsOver, SpawnsLiving, Unsaved, SpawnsSoundly,
      Apply, Faithful, StateSeen;
    var (s, now, f, later) := (ss[steps[p].i], steps[p].at, steps[p].f, steps[m].at);
    var unread := steps[m].f.readFails && !Looked(c, ss, run, steps, p + 1, m, ref);
    LeftByASpawn(c, ss, run, steps, n, r, ref);
    NewDirectorSpawnsIff(c, ss, run, steps, r, p, m, ref);
    StepTimes(c, ss, run, steps, n, m);
    if Unsaved(run[n].world, ref, steps[n].f) {
      DueCase(s, Head(c, run[r].world, ref), Exists(run[r].world, ref), now, f, later, unread);
    } else {
      LivingCase(s, Head(c, run[r].world, ref), now, f, later, unread);
    }
  }

  lemma StepTimes(c: Codec, ss: seq<Schedule>, run: seq<Sys>, steps: seq<Step>, n: nat, m: nat)
    requires Behavior(c, ss, run, steps) && n < m < |steps| && !steps[n].Restart? && !steps[m].Restart?
    ensures steps[n].at <= steps[m].at
  {
    hide Faithful, StartupOne, CheckOne, DeathOne;
    StepOf(c, ss, run, steps, n);
    StepOf(c, ss, run, steps, m);
    TimeGrows(c, ss, run, steps, n + 1, m);
  }
}
