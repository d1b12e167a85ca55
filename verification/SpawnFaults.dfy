/**
  Which faults let one director spawn a boss twice.  A spawn from a current read is followed by another, with
  only other schedules and idle ticks in between, exactly as the faults of its save and of the later read say;
  the cache is out of date only after a save that landed unconfirmed; and each way to spawn twice is shown.
  SpawnRestarts has the spawns of the next director.
*/
module SpawnFaults {
  import opened Basics
  import opened DirectorCore
  import opened ScopeStore
  import opened SpawnSchedule
  import opened SpawnRuns

  predicate Current(w: World, ref: string) { UpToDate(w.store, w.local, KeyOf(ref)) }

  predicate Exists(w: World, ref: string) { KeyOf(ref) in w.store }

  /** The state the store holds now. */
  function Head(c: Codec, w: World, ref: string): ScheduleState { StateAt(c, w, ref, |History(w.store, KeyOf(ref))|) }

  // ---- the condition --------------------------------------------------------------------------

  /** The save after a spawn never reaches the store: it fails before taking effect, or the load that must
      come before the first save of a key fails. */
  predicate Unsaved(w: World, ref: string, f: Faults) {
    f.save.save.ErrorBefore? || (f.save.seedFails && !Exists(w, ref))
  }

  /** The faults that make the same director spawn a boss again: the save after the first spawn never reached the
      store; or it landed unconfirmed, and the director goes on with the old version it has cached or, having
      none cached, cannot read. */
  predicate FaultsRespawn(w: World, ref: string, f: Faults, unread: bool) {
    Unsaved(w, ref, f) || (f.save.save.ErrorAfter? && (Exists(w, ref) || unread))
  }

  // ---- what a spawn leaves --------------------------------------------------------------------

  lemma CurrentRead(c: Codec, w: World, ref: string, f: Faults)
    requires Sound(c, w) && Current(w, ref) && !IsBlind(w, ref, f)
    ensures var w1 := ReadState(c, w, ref, f).0;
            && Current(w1, ref) && (Cached(w1, ref) <==> Exists(w, ref)) && w1.store == w.store
  {
    ReadCaches(c, w, ref, f, ref);
  }

  /** A write from a current view, fault by fault. */
  lemma CurrentWrite(c: Codec, w: World, ref: string, st: ScheduleState, who: Writer, f: Faults)
    requires Faithful(c) && Sound(c, w) && Current(w, ref)
    ensures var (w1, h) := (WriteState(c, w, ref, st, who, f).0, History(w.store, KeyOf(ref)));
            var lands := Lands(c, w, ref, st, f);
            && (lands <==> !f.save.save.ErrorBefore? && (Cached(w, ref) || !f.save.seedFails))
            && (Cached(w1, ref) <==> Cached(w, ref) || (!f.save.seedFails && (f.save.save.Fine? || h != [])))
            && Visible(w1, ref) == |h| + if lands && (f.save.save.Fine? || !Cached(w1, ref)) then 1 else 0
  {
    hide TagsOk;
    WriteIs(c, w, ref, st, who, f);
  }

  /** What a tick that spawns from a current read leaves of its schedule. */
  lemma SpawnLeaves(c: Codec, s: Schedule, w: World, now: nat, f: Faults)
    requires Faithful(c) && Sound(c, w) && Current(w, s.ref) && !IsBlind(w, s.ref, f) && Spawns(c, s, w, now, f)
    ensures var (w2, h, st) := (CheckOne(c, s, w, now, f), History(w.store, KeyOf(s.ref)), StateSeen(c, w, s.ref));
            && IsDue(st, now) && st == StateAt(c, w, s.ref, |h|)
            && History(w2.store, KeyOf(s.ref)) == h + (if Unsaved(w, s.ref, f) then [] else [c.encode(AfterSpawn(st))])
            && (Cached(w2, s.ref) <==> Exists(w, s.ref) || (f.save.save.Fine? && !f.save.seedFails))
            && Visible(w2, s.ref) == (if Exists(w, s.ref) && !f.save.save.Fine? then |h|
                                      else |History(w2.store, KeyOf(s.ref))|)
  {
    hide ReadState, WriteState, Lands, TagsOk, CacheReal, Faithful;
    var (w1, st) := ReadState(c, w, s.ref, f);
    ReadIs(c, w, s.ref, f);
    CurrentRead(c, w, s.ref, f);
    CurrentWrite(c, w1, s.ref, AfterSpawn(st), BySpawn, f);
    WriteIs(c, w1, s.ref, AfterSpawn(st), BySpawn, f);
    assert Exists(w, s.ref) <==> History(w.store, KeyOf(s.ref)) != [];
  }

  // ---- between two ticks of a director --------------------------------------------------------

  predicate Restarted(steps: seq<Step>, a: nat, b: nat) { exists k :: a <= k < b && k < |steps| && steps[k].Restart? }

  /** A tick that looks at its schedule and does not spawn. */
  predicate IsIdle(c: Codec, ss: seq<Schedule>, s: Sys, step: Step)
    requires Enabled(ss, s, step)
  {
    step.Check? && !Spawns(c, ss[step.i], s.world, step.at, step.f)
  }

  /** From a to b the director goes on running, and every step about this schedule is an idle tick. */
  ghost predicate Watched(c: Codec, ss: seq<Schedule>, run: seq<Sys>, steps: seq<Step>, a: nat, b: nat, ref: string)
    requires Behavior(c, ss, run, steps) && b <= |steps|
  {
    forall k | a <= k < b ::
      !steps[k].Restart? && (About(ss, run[k], steps[k]) == Some(ref) ==> IsIdle(c, ss, run[k], steps[k]))
  }

  /** Some step from a to b is about this schedule. */
  ghost predicate Looked(c: Codec, ss: seq<Schedule>, run: seq<Sys>, steps: seq<Step>, a: nat, b: nat, ref: string)
    requires Behavior(c, ss, run, steps) && b <= |steps|
  {
    exists k :: a <= k < b && About(ss, run[k], steps[k]) == Some(ref)
  }

  /** Nothing has happened to the schedule; it is cached at the latest when somebody has looked. */
  predicate Kept(w: World, w1: World, ref: string, looked: bool) {
    && History(w1.store, KeyOf(ref)) == History(w.store, KeyOf(ref))
    && Visible(w1, ref) == Visible(w, ref) && (Cached(w1, ref) <==> Cached(w, ref) || looked)
  }

  /** An idle tick has read a state that is there. */
  lemma IdleKeeps(c: Codec, s: Schedule, w: World, now: nat, f: Faults)
    requires Sound(c, w) && !Spawns(c, s, w, now, f)
    ensures Kept(w, CheckOne(c, s, w, now, f), s.ref, true)
  {
    hide TagsOk;
    ReadIs(c, w, s.ref, f);
    ReadCaches(c, w, s.ref, f, s.ref);
  }

  lemma StepKeeps(c: Codec, ss: seq<Schedule>, s: Sys, step: Step, ref: string)
    requires Faithful(c) && Sound(c, s.world) && Enabled(ss, s, step) && !step.Restart?
    requires About(ss, s, step) == Some(ref) ==> IsIdle(c, ss, s, step)
    ensures Kept(s.world, Apply(c, ss, s, step).world, ref, About(ss, s, step) == Some(ref))
  {
    hide Sound, StartupOne, CheckOne, DeathOne, Faithful, Spawns;
    if About(ss, s, step) == Some(ref) {
      IdleKeeps(c, ss[step.i], s.world, step.at, step.f);
    } else {
      StepLeaves(c, ss, s, step);
      if About(ss, s, step).Some? {
        assert SameFor(s.world, Apply(c, ss, s, step).world, ref);
      }
    }
  }

  lemma KeptTwice(w: World, w1: World, w2: World, ref: string, first: bool, second: bool)
    requires Kept(w, w1, ref, first) && Kept(w1, w2, ref, second)
    ensures Kept(w, w2, ref, first || second)
  {
  }

  /** The last step before b, and what came before it. */
  lemma WatchedNext(c: Codec, ss: seq<Schedule>, run: seq<Sys>, steps: seq<Step>, a: nat, b: nat, ref: string)
    requires Behavior(c, ss, run, steps) && a < b <= |steps| && Watched(c, ss, run, steps, a, b, ref)
    ensures Watched(c, ss, run, steps, a, b - 1, ref)
    ensures Enabled(ss, run[b - 1], steps[b - 1]) && run[b] == Apply(c, ss, run[b - 1], steps[b - 1])
    ensures !steps[b - 1].Restart?
    ensures var about := About(ss, run[b - 1], steps[b - 1]) == Some(ref);
            && (about ==> IsIdle(c, ss, run[b - 1], steps[b - 1]))
            && (Looked(c, ss, run, steps, a, b, ref) <==> Looked(c, ss, run, steps, a, b - 1, ref) || about)
  {
    hide Apply, Enabled, Faithful, About, IsIdle;
    assert run[b - 1 + 1] == Apply(c, ss, run[b - 1], steps[b - 1]);
  }

  lemma KeptAtOnce(c: Codec, ss: seq<Schedule>, run: seq<Sys>, steps: seq<Step>, a: nat, ref: string)
    requires Behavior(c, ss, run, steps) && a <= |steps|
    ensures Kept(run[a].world, run[a].world, ref, Looked(c, ss, run, steps, a, a, ref))
  {
  }

  lemma RunLength(c: Codec, ss: seq<Schedule>, run: seq<Sys>, steps: seq<Step>)
    requires Behavior(c, ss, run, steps)
    ensures |run| == |steps| + 1 && Faithful(c)
  {
  }

  lemma WatchedStep(c: Codec, ss: seq<Schedule>, run: seq<Sys>, steps: seq<Step>, a: nat, b: nat, ref: string)
    requires Behavior(c, ss, run, steps) && a < b <= |steps| && Watched(c, ss, run, steps, a, b, ref)
    requires Kept(run[a].world, run[b - 1].world, ref, Looked(c, ss, run, steps, a, b - 1, ref))
    ensures Kept(run[a].world, run[b].world, ref, Looked(c, ss, run, steps, a, b, ref))
  {
    hide *;
    RunLength(c, ss, run, steps);
    SoundAlways(c, ss, run, steps, b - 1);
    WatchedNext(c, ss, run, steps, a, b, ref);
    var (s, step) := (run[b - 1], steps[b - 1]);
    StepKeeps(c, ss, s, step, ref);
    var (before, about) := (Looked(c, ss, run, steps, a, b - 1, ref), About(ss, s, step) == Some(ref));
    KeptTwice(run[a].world, s.world, run[b].world, ref, before, about);
  }

  lemma {:induction false} WatchedIsKept(
    c: Codec, ss: seq<Schedule>, run: seq<Sys>, steps: seq<Step>, a: nat, b: nat, ref: string)
    requires Behavior(c, ss, run, steps) && a <= b <= |steps| && Watched(c, ss, run, steps, a, b, ref)
    ensures Kept(run[a].world, run[b].world, ref, Looked(c, ss, run, steps, a, b, ref))
    decreases b
  {
    hide *;
    RunLength(c, ss, run, steps);
    if a < b {
      WatchedNext(c, ss, run, steps, a, b, ref);
      WatchedIsKept(c, ss, run, steps, a, b - 1, ref);
      WatchedStep(c, ss, run, steps, a, b, ref);
    } else {
      KeptAtOnce(c, ss, run, steps, a, ref);
    }
  }

  // ---- the exact condition --------------------------------------------------------------------

  lemma SpawnsAfterSpawn(
    c: Codec, s: Schedule, w: World, now: nat, f: Faults, s': Schedule, w': World, later: nat, looked: bool, g: Faults)
    requires Faithful(c) && Sound(c, w) && Current(w, s.ref) && !IsBlind(w, s.ref, f) && Spawns(c, s, w, now, f)
    requires Sound(c, w') && s'.ref == s.ref && now <= later && Kept(CheckOne(c, s, w, now, f), w', s.ref, looked)
    ensures Spawns(c, s', w', later, g) <==> FaultsRespawn(w, s.ref, f, g.readFails && !looked)
  {
    hide CheckOne, Spawns, TagsOk, Faithful;
    SpawnLeaves(c, s, w, now, f);
    SpawnIsDecided(c, s', w', later, g);
    var (h, st) := (History(w.store, KeyOf(s.ref)), StateSeen(c, w, s.ref));
    assert c.decode(c.encode(AfterSpawn(st))) == AfterSpawn(st) by { Decodes(c, AfterSpawn(st)); }
    assert Visible(w', s.ref) <= |h| ==> StateSeen(c, w', s.ref) == st;
  }

  lemma Decodes(c: Codec, st: ScheduleState)
    requires Faithful(c)
    ensures c.decode(c.encode(st)) == st
  {
  }

  lemma SpawnIsDecided(c: Codec, s: Schedule, w: World, now: nat, f: Faults)
    requires Sound(c, w)
    ensures Spawns(c, s, w, now, f) <==> (f.readFails && !Cached(w, s.ref)) || IsDue(StateSeen(c, w, s.ref), now)
  {
    ReadIs(c, w, s.ref, f);
  }

  /** A tick spawns from a current read. */
  ghost predicate SpawnsSoundly(c: Codec, ss: seq<Schedule>, run: seq<Sys>, steps: seq<Step>, n: nat, ref: string)
    requires Behavior(c, ss, run, steps) && n < |steps|
  {
    && steps[n].Check? && About(ss, run[n], steps[n]) == Some(ref)
    && Current(run[n].world, ref) && !IsBlind(run[n].world, ref, steps[n].f)
    && Spawns(c, ss[steps[n].i], run[n].world, steps[n].at, steps[n].f)
  }

  /** Exactly which faults make one director spawn a boss twice, in every run: after a spawn from a current read,
      with only other schedules handled and idle ticks made in between, a tick spawns the boss again if and only
      if the faults of the first tick's save, and of this tick's read if it is the first since, say so. */
  lemma SpawnsTwiceIff(c: Codec, ss: seq<Schedule>, run: seq<Sys>, steps: seq<Step>, n: nat, m: nat, ref: string)
    requires Behavior(c, ss, run, steps) && n < m < |steps| && SpawnsSoundly(c, ss, run, steps, n, ref)
    requires Watched(c, ss, run, steps, n + 1, m, ref) && steps[m].Check? && About(ss, run[m], steps[m]) == Some(ref)
    ensures var unread := steps[m].f.readFails && !Looked(c, ss, run, steps, n + 1, m, ref);
            Spawns(c, ss[steps[m].i], run[m].world, steps[m].at, steps[m].f) <==>
            FaultsRespawn(run[n].world, ref, steps[n].f, unread)
  {
    hide Sound, Spawns, FaultsRespawn, Kept, CheckOne, Faithful, Looked;
    SoundAlways(c, ss, run, steps, n);
    SoundAlways(c, ss, run, steps, m);
    WatchedIsKept(c, ss, run, steps, n + 1, m, ref);
    TimeGrows(c, ss, run, steps, n + 1, m);
    assert run[n + 1] == Apply(c, ss, run[n], steps[n]);
    SpawnsAfterSpawn(c, ss[steps[n].i], run[n].world, steps[n].at, steps[n].f,
                     ss[steps[m].i], run[m].world, steps[m].at, Looked(c, ss, run, steps, n + 1, m, ref), steps[m].f);
  }

  lemma {:induction false} TimeGrows(c: Codec, ss: seq<Schedule>, run: seq<Sys>, steps: seq<Step>, a: nat, b: nat)
    requires Behavior(c, ss, run, steps) && a <= b <= |steps|
    ensures run[a].now <= run[b].now
    decreases b
  {
    if a < b {
      TimeGrows(c, ss, run, steps, a, b - 1);
      assert run[b - 1 + 1] == Apply(c, ss, run[b - 1], steps[b - 1]);
    }
  }

  // ---- when a cached entry is out of date -----------------------------------------------------

  /** A step about this schedule whose save landed, on top of an older version, without being confirmed. */
  ghost predicate Unconfirmed(c: Codec, ss: seq<Schedule>, run: seq<Sys>, steps: seq<Step>, k: nat, ref: string)
    requires Behavior(c, ss, run, steps) && k < |steps|
  {
    && About(ss, run[k], steps[k]) == Some(ref) && steps[k].f.save.save.ErrorAfter?
    && Appends(run[k].world, run[k + 1].world, ref)
  }

  predicate Appends(w: World, w1: World, ref: string) {
    0 < |History(w.store, KeyOf(ref))| < |History(w1.store, KeyOf(ref))|
  }

  lemma StepKeepsCurrent(c: Codec, ss: seq<Schedule>, s: Sys, step: Step, ref: string)
    requires Faithful(c) && Sound(c, s.world) && Enabled(ss, s, step) && (Current(s.world, ref) || step.Restart?)
    requires About(ss, s, step) == Some(ref) && step.f.save.save.ErrorAfter? ==>
               !Appends(s.world, Apply(c, ss, s, step).world, ref)
    ensures Current(Apply(c, ss, s, step).world, ref)
  {
    hide Sound, Current, StartupOne, CheckOne, DeathOne, Faithful, Appends;
    if About(ss, s, step) == Some(ref) {
      match step {
        case Startup(i, at, f) => StartupKeepsCurrent(c, ss[i], s.world, at, f);
        case Check(i, at, f) => CheckKeepsCurrent(c, ss[i], s.world, at, f);
        case BossDied(r, at, f) => DeathKeepsCurrent(c, ss[Find(ss, r)], s.world, at, f);
      }
    } else {
      StepLeaves(c, ss, s, step);
      if step.Restart? {
        ColdIsCurrent(s.world, ref);
      } else {
        SameIsCurrent(c, s.world, Apply(c, ss, s, step).world, ref);
      }
    }
  }

  lemma ColdIsCurrent(w: World, ref: string)
    ensures Current(w.(local := LEADING), ref)
  {
  }

  lemma SameIsCurrent(c: Codec, w: World, w1: World, ref: string)
    requires Sound(c, w) && Sound(c, w1) && Current(w, ref) && SameFor(w, w1, ref)
    ensures Current(w1, ref)
  {
    if Cached(w1, ref) {
      assert Held(w1.store, KeyOf(ref), w1.local.state[KeyOf(ref)], w1.local.versions[KeyOf(ref)]);
    }
  }

  lemma WriteKeepsCurrent(c: Codec, w: World, ref: string, st: ScheduleState, who: Writer, f: Faults)
    requires Faithful(c) && Sound(c, w) && Current(w, ref)
    requires f.save.save.ErrorAfter? ==> !Appends(w, WriteState(c, w, ref, st, who, f).0, ref)
    ensures Current(WriteState(c, w, ref, st, who, f).0, ref)
  {
    hide TagsOk;
    WriteIs(c, w, ref, st, who, f);
  }

  lemma StartupKeepsCurrent(c: Codec, s: Schedule, w: World, now: nat, f: Faults)
    requires Faithful(c) && Sound(c, w) && Current(w, s.ref)
    requires f.save.save.ErrorAfter? ==> !Appends(w, StartupOne(c, s, w, now, f), s.ref)
    ensures Current(StartupOne(c, s, w, now, f), s.ref)
  {
    hide Sound, WriteState, Lands, Faithful;
    ReadIs(c, w, s.ref, f);
    var (w1, st) := ReadState(c, w, s.ref, f);
    if ApplyMissed(s, st, now) != st {
      WriteKeepsCurrent(c, w1, s.ref, ApplyMissed(s, st, now), ByStartup, f);
    }
  }

  lemma CheckKeepsCurrent(c: Codec, s: Schedule, w: World, now: nat, f: Faults)
    requires Faithful(c) && Sound(c, w) && Current(w, s.ref)
    requires f.save.save.ErrorAfter? ==> !Appends(w, CheckOne(c, s, w, now, f), s.ref)
    ensures Current(CheckOne(c, s, w, now, f), s.ref)
  {
    hide Sound, WriteState, Lands, Faithful;
    ReadIs(c, w, s.ref, f);
    var (w1, st) := ReadState(c, w, s.ref, f);
    if IsDue(st, now) {
      WriteKeepsCurrent(c, w1, s.ref, AfterSpawn(st), BySpawn, f);
    }
  }

  lemma DeathKeepsCurrent(c: Codec, s: Schedule, w: World, at: nat, f: Faults)
    requires Faithful(c) && Sound(c, w) && Current(w, s.ref)
    requires f.save.save.ErrorAfter? ==> !Appends(w, DeathOne(c, s, w, at, f), s.ref)
    ensures Current(DeathOne(c, s, w, at, f), s.ref)
  {
    hide Sound, WriteState, Lands, Faithful;
    WriteKeepsCurrent(c, w, s.ref, AfterDeath(s, at), ByDeath, f);
  }

  /** A director's view of a schedule is out of date only if a save of its own landed unconfirmed since it started. */
  lemma {:induction false} StaleOnlyAfterUnconfirmed(
    c: Codec, ss: seq<Schedule>, run: seq<Sys>, steps: seq<Step>, n: nat, ref: string)
    requires Behavior(c, ss, run, steps) && n < |run| && !Current(run[n].world, ref)
    ensures exists k: nat :: k < n && Unconfirmed(c, ss, run, steps, k, ref) && !Restarted(steps, k + 1, n)
  {
    hide Sound, Current, Apply, Enabled, Faithful, About, Appends;
    if n == 0 {
      ColdIsCurrent(run[0].world, ref);
      assert false;
    }
    var (s, step) := (run[n - 1], steps[n - 1]);
    SoundAlways(c, ss, run, steps, n - 1);
    assert run[n - 1 + 1] == Apply(c, ss, s, step) && Enabled(ss, s, step);
    if Unconfirmed(c, ss, run, steps, n - 1, ref) {
      assert !Restarted(steps, n - 1 + 1, n);
    } else {
      if Current(s.world, ref) || step.Restart? {
        StepKeepsCurrent(c, ss, s, step, ref);
        assert false;
      }
      StaleOnlyAfterUnconfirmed(c, ss, run, steps, n - 1, ref);
      var k: nat :| k < n - 1 && Unconfirmed(c, ss, run, steps, k, ref) && !Restarted(steps, k + 1, n - 1);
      assert !Restarted(steps, k + 1, n);
    }
  }

  // ---- each way to spawn twice ----------------------------------------------------------------

  /** A save that fails before it takes effect: at any later tick that can read, the same director spawns the
      boss again, with no death in between. */
  lemma LostSaveSpawnsAgain(c: Codec, s: Schedule, w: World, now: nat, f: Faults, later: nat, g: Faults)
    requires Faithful(c) && Sound(c, w) && now <= later && f.save.save.ErrorBefore?
    requires !IsBlind(w, s.ref, f) && Spawns(c, s, w, now, f) && !g.readFails
    ensures Spawns(c, s, CheckOne(c, s, w, now, f), later, g)
  {
    hide Sound, Faithful;
    var (w1, st) := ReadState(c, w, s.ref, f);
    ReadIs(c, w, s.ref, f);
    var w2 := CheckOne(c, s, w, now, f);
    CheckLeaves(c, s, w, now, f);
    ReadIs(c, w2, s.ref, g);
    assert StateSeen(c, w2, s.ref) == StateSeen(c, w1, s.ref) == StateSeen(c, w, s.ref) == st;
  }

  /** A startup pass that cannot read the state of a living boss, under skip_to_next, and whose write goes
      through: the director spawns the boss again, with no death in between, exactly from the time on when the
      interval it wrote is over, whatever its later reads do. */
  lemma OverwriteSpawnsAgain(c: Codec, s: Schedule, w: World, now: nat, later: nat, g: Faults)
    requires Faithful(c) && Sound(c, w) && !Cached(w, s.ref)
    requires s.onMissed == SKIP_TO_NEXT && 0 < now && now + s.interval != 0
    ensures Spawns(c, s, StartupOne(c, s, w, now, Faults(true, NO_FAULTS)), later, g) <==> later >= now + s.interval
  {
    var f := Faults(true, NO_FAULTS);
    ReadIs(c, w, s.ref, f);
    var adjusted := ScheduleState(now + s.interval, false);
    assert ApplyMissed(s, NEVER_SPAWNED, now) == adjusted != NEVER_SPAWNED;
    var (w1, kept) := WriteState(c, w, s.ref, adjusted, ByStartup, f);
    WriteIs(c, w, s.ref, adjusted, ByStartup, f);
    var w2 := StartupOne(c, s, w, now, f);
    StartupLeaves(c, s, w, now, f);
    assert StateSeen(c, w2, s.ref) == adjusted && Visible(w2, s.ref) == Visible(w1, s.ref);
    ReadIs(c, w2, s.ref, g);
  }

  /** A save that lands but is not confirmed, over an older version: the same director keeps that version
      cached and spawns the boss again at any later tick, whatever its read does then, although the store has
      the boss alive. */
  lemma UnconfirmedSaveSpawnsAgain(c: Codec, s: Schedule, w: World, now: nat, f: Faults, later: nat, g: Faults)
    requires Faithful(c) && Sound(c, w) && now <= later && Current(w, s.ref)
    requires f.save.save.ErrorAfter? && Exists(w, s.ref) && !IsBlind(w, s.ref, f) && Spawns(c, s, w, now, f)
    ensures var w2 := CheckOne(c, s, w, now, f);
            Spawns(c, s, w2, later, g) && Head(c, w2, s.ref).active
  {
    hide Sound, Faithful, CheckOne, Spawns;
    var w2 := CheckOne(c, s, w, now, f);
    CheckLeaves(c, s, w, now, f);
    SpawnLeaves(c, s, w, now, f);
    SpawnsAfterSpawn(c, s, w, now, f, s, w2, later, false, g);
    Decodes(c, AfterSpawn(StateSeen(c, w, s.ref)));
  }

  // ---- a run in which it happens --------------------------------------------------------------

  const UNCONFIRMED := Faults(false, SetFaults(false, ErrorAfter, false))

  const START := World(map[], LEADING, map[], [])

  function Died(c: Codec, s: Schedule): World { DeathOne(c, s, CheckOne(c, s, START, 0, NONE), 0, NONE) }

  lemma FirstSpawn(c: Codec, s: Schedule)
    requires Faithful(c)
    ensures var w := CheckOne(c, s, START, 0, NONE);
            && Sound(c, w) && Current(w, s.ref) && Cached(w, s.ref)
            && w.events == [Spawn(s.ref, 0, false, true)]
  {
    assert Sound(c, START);
    SpawnIsDecided(c, s, START, 0, NONE);
    CheckLeaves(c, s, START, 0, NONE);
    SpawnLeaves(c, s, START, 0, NONE);
    CheckKeepsCurrent(c, s, START, 0, NONE);
  }

  lemma ThenDeath(c: Codec, s: Schedule)
    requires Faithful(c)
    ensures var w := Died(c, s);
            && Sound(c, w) && Current(w, s.ref) && Exists(w, s.ref)
            && StateSeen(c, w, s.ref) == ScheduleState(s.interval, false)
            && w.events == [Spawn(s.ref, 0, false, true), Death(s.ref, 0, true)]
  {
    hide Faithful, TagsOk, CacheReal, CheckOne;
    var (w, st) := (CheckOne(c, s, START, 0, NONE), AfterDeath(s, 0));
    FirstSpawn(c, s);
    DeathLeaves(c, s, w, 0, NONE);
    DeathKeepsCurrent(c, s, w, 0, NONE);
    CurrentWrite(c, w, s.ref, st, ByDeath, NONE);
    WriteIs(c, w, s.ref, st, ByDeath, NONE);
    Decodes(c, st);
  }

  /** The event a spawn adds. */
  lemma SpawnNoted(c: Codec, s: Schedule, w: World, now: nat, f: Faults)
    requires Sound(c, w) && Spawns(c, s, w, now, f)
    ensures var events := CheckOne(c, s, w, now, f).events;
            && |events| == |w.events| + 1 && events[..|w.events|] == w.events
            && events[|w.events|].Spawn? && events[|w.events|].ref == s.ref && events[|w.events|].at == now
            && (f.save.save.ErrorAfter? ==> !events[|w.events|].kept)
  {
    hide TagsOk, CacheReal;
    ReadIs(c, w, s.ref, f);
  }

  predicate SpawnsThrice(events: seq<Event>) {
    && |events| == 4 && events[0].Spawn? && events[1].Death?
    && events[2].Spawn? && !events[2].kept && events[3].Spawn?
  }

  /** A boss spawned, killed, spawned again once its interval is over with a save that lands unconfirmed, and
      spawned once more at the same time by the same director, with nothing failing then. */
  lemma UnconfirmedSaveHappens(c: Codec, s: Schedule) returns (run: seq<Sys>, steps: seq<Step>)
    requires Faithful(c) && s.ref != "" && s.interval >= 0
    ensures Behavior(c, [s], run, steps)
    ensures steps == [Check(0, 0, NONE), BossDied(s.ref, 0, NONE),
                      Check(0, s.interval, UNCONFIRMED), Check(0, s.interval, NONE)]
    ensures SpawnsThrice(run[4].world.events)
  {
    hide Faithful, Sound, CheckOne, DeathOne, Spawns;
    var (w1, w2, t) := (CheckOne(c, s, START, 0, NONE), Died(c, s), s.interval);
    var w3 := CheckOne(c, s, w2, t, UNCONFIRMED);
    steps := [Check(0, 0, NONE), BossDied(s.ref, 0, NONE), Check(0, t, UNCONFIRMED), Check(0, t, NONE)];
    run := [Sys(START, 0), Sys(w1, 0), Sys(w2, 0), Sys(w3, t), Sys(CheckOne(c, s, w3, t, NONE), t)];
    RespawnEvents(c, s);
    assert Find([s], s.ref) == 0;
  }

  lemma RespawnEvents(c: Codec, s: Schedule)
    requires Faithful(c) && s.interval >= 0
    ensures var (w2, t) := (Died(c, s), s.interval);
            var events := CheckOne(c, s, CheckOne(c, s, w2, t, UNCONFIRMED), t, NONE).events;
            SpawnsThrice(events)
  {
    hide Faithful, Sound, CheckOne, Died, Spawns, StateSeen, StateAt, Current, Exists;
    var (w2, t) := (Died(c, s), s.interval);
    var w3 := CheckOne(c, s, w2, t, UNCONFIRMED);
    ThenDeath(c, s);
    SpawnIsDecided(c, s, w2, t, UNCONFIRMED);
    UnconfirmedSaveSpawnsAgain(c, s, w2, t, UNCONFIRMED, t, NONE);
    CheckLeaves(c, s, w2, t, UNCONFIRMED);
    SpawnNoted(c, s, w2, t, UNCONFIRMED);
    SpawnNoted(c, s, w3, t, NONE);
    var events := CheckOne(c, s, w3, t, NONE).events;
    assert events[..3] == w3.events && events[..3][..2] == w2.events;
  }
}
