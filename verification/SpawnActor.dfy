/**
  The scheduler in the source's own form: loops over the schedules that read and save scope state through
  the director's cache.  The store answers as the faults given for each schedule say.
*/
module SpawnActor {
  import opened Basics
  import opened DirectorCore
  import opened DirectorActor
  import opened ScopeStore
  import opened SpawnSchedule
  import opened SpawnRuns
  import opened SpawnFaults
  import opened SpawnRestarts

  // ---- whole passes ---------------------------------------------------------------------------

  function StartupPass(c: Codec, ss: seq<Schedule>, w: World, now: nat, fs: nat -> Faults): World {
    if ss == [] then w
    else StartupOne(c, ss[|ss| - 1], StartupPass(c, ss[..|ss| - 1], w, now, fs), now, fs(|ss| - 1))
  }

  function CheckPass(c: Codec, ss: seq<Schedule>, w: World, now: nat, fs: nat -> Faults): World {
    if ss == [] then w
    else CheckOne(c, ss[|ss| - 1], CheckPass(c, ss[..|ss| - 1], w, now, fs), now, fs(|ss| - 1))
  }

  /** The steps of one runSchedules call: the startup steps unless they were made before, then a check of
      every schedule. */
  function CallSteps(
    ss: seq<Schedule>, started: bool, now: nat, startup: nat -> Faults, tick: nat -> Faults): seq<Step> {
    (if started then [] else StartupSteps(|ss|, now, startup)) + CheckSteps(|ss|, now, tick)
  }

  function StartupSteps(n: nat, now: nat, fs: nat -> Faults): seq<Step> {
    seq(n, i requires 0 <= i < n => Startup(i, now, fs(i)))
  }

  function CheckSteps(n: nat, now: nat, fs: nat -> Faults): seq<Step> {
    seq(n, i requires 0 <= i < n => Check(i, now, fs(i)))
  }

  /** The world one runSchedules call leaves. */
  function Call(
    c: Codec, ss: seq<Schedule>, started: bool, w: World, now: nat, startup: nat -> Faults,
    tick: nat -> Faults): World {
    CheckPass(c, ss, if started then w else StartupPass(c, ss, w, now, startup), now, tick)
  }

  // ---- passes are stretches of runs -----------------------------------------------------------

  /** A run extended by one step. */
  lemma OneMore(c: Codec, ss: seq<Schedule>, run: seq<Sys>, steps: seq<Step>, step: Step)
    requires Behavior(c, ss, run, steps) && Enabled(ss, run[|steps|], step)
    ensures Behavior(c, ss, run + [Apply(c, ss, run[|steps|], step)], steps + [step])
  {
    hide Apply, Enabled, Faithful;
  }

  lemma {:induction false} StartupPassRuns(
    c: Codec, ss: seq<Schedule>, run: seq<Sys>, steps: seq<Step>, now: nat, fs: nat -> Faults, n: nat)
    returns (after: seq<Sys>)
    requires Behavior(c, ss, run, steps) && run[|steps|].now <= now && n <= |ss|
    ensures Behavior(c, ss, after, steps + StartupSteps(n, now, fs)) && run <= after && after[|after| - 1].now <= now
    ensures after[|after| - 1].world == StartupPass(c, ss[..n], run[|steps|].world, now, fs)
  {
    hide StartupOne, Faithful;
    if n == 0 {
      after := run;
      assert steps + StartupSteps(0, now, fs) == steps;
    } else {
      after := StartupPassRuns(c, ss, run, steps, now, fs, n - 1);
      var step := Startup(n - 1, now, fs(n - 1));
      OneMore(c, ss, after, steps + StartupSteps(n - 1, now, fs), step);
      after := after + [Apply(c, ss, after[|after| - 1], step)];
      assert steps + StartupSteps(n - 1, now, fs) + [step] == steps + StartupSteps(n, now, fs);
      assert ss[..n][..n - 1] == ss[..n - 1];
    }
  }

  lemma {:induction false} CheckPassRuns(
    c: Codec, ss: seq<Schedule>, run: seq<Sys>, steps: seq<Step>, now: nat, fs: nat -> Faults, n: nat)
    returns (after: seq<Sys>)
    requires Behavior(c, ss, run, steps) && run[|steps|].now <= now && n <= |ss|
    ensures Behavior(c, ss, after, steps + CheckSteps(n, now, fs)) && run <= after && after[|after| - 1].now <= now
    ensures after[|after| - 1].world == CheckPass(c, ss[..n], run[|steps|].world, now, fs)
  {
    hide CheckOne, Faithful;
    if n == 0 {
      after := run;
      assert steps + CheckSteps(0, now, fs) == steps;
    } else {
      after := CheckPassRuns(c, ss, run, steps, now, fs, n - 1);
      var step := Check(n - 1, now, fs(n - 1));
      OneMore(c, ss, after, steps + CheckSteps(n - 1, now, fs), step);
      after := after + [Apply(c, ss, after[|after| - 1], step)];
      assert steps + CheckSteps(n - 1, now, fs) + [step] == steps + CheckSteps(n, now, fs);
      assert ss[..n][..n - 1] == ss[..n - 1];
    }
  }

  /** A whole runSchedules call, whatever fails in it, is a stretch of a run: any run up to it goes on by exactly
      the steps of the call, to the world the call leaves. */
  lemma CallIsAStretch(c: Codec, ss: seq<Schedule>, run: seq<Sys>, steps: seq<Step>,
                       started: bool, now: nat, startup: nat -> Faults, tick: nat -> Faults)
    returns (after: seq<Sys>)
    requires Behavior(c, ss, run, steps) && run[|steps|].now <= now
    ensures Behavior(c, ss, after, steps + CallSteps(ss, started, now, startup, tick)) && run <= after
    ensures after[|after| - 1].now <= now
    ensures after[|after| - 1].world == Call(c, ss, started, run[|steps|].world, now, startup, tick)
  {
    hide StartupSteps, CheckSteps, StartupPass, CheckPass, Apply, Enabled, Faithful;
    assert ss[..|ss|] == ss;
    var (before, taken) := (run, steps);
    if !started {
      before := StartupPassRuns(c, ss, run, steps, now, startup, |ss|);
      taken := steps + StartupSteps(|ss|, now, startup);
    }
    after := CheckPassRuns(c, ss, before, taken, now, tick, |ss|);
    var first := if started then [] else StartupSteps(|ss|, now, startup);
    Assoc(steps, first, CheckSteps(|ss|, now, tick));
  }

  /** This run, or some run, has come to this world by this time. */
  ghost predicate Reaches(c: Codec, ss: seq<Schedule>, run: seq<Sys>, steps: seq<Step>, w: World, now: nat) {
    Behavior(c, ss, run, steps) && run[|steps|].world == w && run[|steps|].now <= now
  }

  ghost predicate Happens(c: Codec, ss: seq<Schedule>, w: World, now: nat) {
    exists run, steps :: Reaches(c, ss, run, steps, w, now)
  }

  lemma CallHappens(
    c: Codec, ss: seq<Schedule>, w: World, started: bool, now: nat, startup: nat -> Faults, tick: nat -> Faults)
    requires Happens(c, ss, w, now)
    ensures Happens(c, ss, Call(c, ss, started, w, now, startup, tick), now)
  {
    hide Call, CallSteps, Apply, Enabled, Faithful;
    var run, steps :| Reaches(c, ss, run, steps, w, now);
    var after := CallIsAStretch(c, ss, run, steps, started, now, startup, tick);
    var taken := steps + CallSteps(ss, started, now, startup, tick);
    assert Reaches(c, ss, after, taken, Call(c, ss, started, w, now, startup, tick), now);
  }

  lemma StepHappens(c: Codec, ss: seq<Schedule>, w: World, now: nat, step: Step)
    requires Happens(c, ss, w, now) && (step.Restart? || (step.BossDied? && step.at == now))
    ensures Happens(c, ss, Apply(c, ss, Sys(w, now), step).world, now)
  {
    hide DeathOne, Faithful;
    var run, steps :| Reaches(c, ss, run, steps, w, now);
    OneMore(c, ss, run, steps, step);
    var next := Apply(c, ss, run[|steps|], step);
    assert Reaches(c, ss, run + [next], steps + [step], Apply(c, ss, Sys(w, now), step).world, now);
  }

  /** So the theorems about runs speak of the scheduler: every spawn it has made is justified. */
  lemma SchedulerSpawnsAreJustified(c: Codec, ss: seq<Schedule>, w: World, now: nat, j: nat)
    requires Happens(c, ss, w, now) && j < |w.events| && w.events[j].Spawn? && Find(ss, w.events[j].ref) >= 0
    ensures Justified(w.events[..j], w.events[j], ss[Find(ss, w.events[j].ref)].interval)
  {
    hide Justified;
    var run, steps :| Reaches(c, ss, run, steps, w, now);
    EverySpawnIsJustified(c, ss, run, steps, |steps|, j);
  }

  /** The call that starts a new director: exactly when it spawns a boss, if no other schedule has its ref. */
  lemma FirstCallSpawnsIff(c: Codec, ss: seq<Schedule>, run: seq<Sys>, steps: seq<Step>, after: seq<Sys>,
                           now: nat, startup: nat -> Faults, tick: nat -> Faults, i: nat)
    requires Behavior(c, ss, run, steps) && |steps| > 0 && steps[|steps| - 1].Restart? && i < |ss|
    requires Behavior(c, ss, after, steps + CallSteps(ss, false, now, startup, tick)) && run <= after
    requires forall j | 0 <= j < |ss| && j != i :: ss[j].ref != ss[i].ref
    ensures var w := run[|steps| - 1].world;
            Spawns(c, ss[i], after[|steps| + |ss| + i].world, now, tick(i)) <==>
            NewDirectorSpawns(ss[i], Head(c, w, ss[i].ref), Exists(w, ss[i].ref), now, startup(i), now,
              tick(i).readFails)
  {
    hide Spawns, NewDirectorSpawns, Head, Exists, Apply, Faithful;
    var all := steps + CallSteps(ss, false, now, startup, tick);
    var (r, p, m, ref) := (|steps| - 1, |steps| + i, |steps| + |ss| + i, ss[i].ref);
    assert all[r] == steps[r] && all[p] == Startup(i, now, startup(i)) && all[m] == Check(i, now, tick(i));
    forall k | r < k < m && k != p ensures !all[k].Restart? && About(ss, after[k], all[k]) != Some(ref) {
      if k < |steps| + |ss| {
        assert all[k] == Startup(k - |steps|, now, startup(k - |steps|));
      } else {
        assert all[k] == Check(k - |steps| - |ss|, now, tick(k - |steps| - |ss|));
      }
    }
    assert after[r] == run[r];
    NewDirectorSpawnsIff(c, ss, after, all, r, p, m, ref);
  }

  /** The bosses spawned, in order. */
  function SpawnRefs(events: seq<Event>): seq<string> {
    if events == [] then []
    else
      var (init, e) := (SpawnRefs(events[..|events| - 1]), events[|events| - 1]);
      if e.Spawn? then init + [e.ref] else init
  }

  lemma SpawnRefsNext(events: seq<Event>, e: Event)
    ensures SpawnRefs(events + [e]) == SpawnRefs(events) + if e.Spawn? then [e.ref] else []
  {
    assert (events + [e])[..|events|] == events;
  }

  class Scheduler {
    const schedules: seq<Schedule>
    const codec: Codec
    const director: Director
    var store: Store                          // the shared store, as this director finds and leaves it
    var scheduleInit: bool
    ghost var writers: map<string, seq<Writer>>
    ghost var events: seq<Event>

    ghost function View(): World
      reads this, director
    {
      World(store, director.View(), writers, events)
    }

    /** A fresh director that leads, over whatever is stored. */
    constructor (ss: seq<Schedule>, c: Codec, stored: Store, ghost past: World)
      requires past.store == stored
      ensures schedules == ss && codec == c && !scheduleInit && fresh(director)
      ensures View() == past.(local := LEADING)
      ensures forall t | Happens(c, ss, past, t) :: Happens(c, ss, View(), t)
    {
      var d := new Director();
      d.Campaign(true, false);
      schedules, codec, director, store, scheduleInit := ss, c, d, stored, false;
      writers, events := past.writers, past.events;
      forall t | Happens(c, ss, past, t) ensures Happens(c, ss, past.(local := LEADING), t) {
        StepHappens(c, ss, past, t, Restart);
      }
    }

    method LoadScheduleState(ref: string, f: Faults) returns (st: ScheduleState)
      modifies director
      ensures (View(), st) == ReadState(codec, old(View()), ref, f)
    {
      var key := KeyOf(ref);
      var r := director.Get(key, if f.readFails then LoadError else Load(store, key));
      if r.GetFailed? || r.Unset? || |r.value| == 0 {
        return NEVER_SPAWNED;
      }
      return codec.decode(r.value);
    }

    method SaveScheduleState(ref: string, st: ScheduleState, f: Faults, ghost who: Writer) returns (ok: bool)
      modifies this`store, this`writers, director
      ensures (View(), ok) == WriteState(codec, old(View()), ref, st, who, f)
    {
      var (key, body) := (KeyOf(ref), codec.encode(st));
      ghost var w := View();
      var l := director.View();
      var r := director.Set(key, body, IoAgainst(store, l, key, body, f.save));
      if Lands(codec, w, ref, st, f) {
        writers := writers[ref := WritersOf(w, ref) + [who]];
      }
      store := StoreAgainst(store, l, key, body, f.save);
      return r.Wrote?;
    }

    method StartSchedule(s: Schedule, now: nat, f: Faults)
      modifies this`store, this`writers, this`events, director
      ensures View() == StartupOne(codec, s, old(View()), now, f)
      ensures SpawnRefs(events) == SpawnRefs(old(events))
    {
      hide ReadState, WriteState, ApplyMissed, Lands, SpawnRefs;
      ghost var w := View();
      var st := LoadScheduleState(s.ref, f);
      var adjusted := ApplyMissed(s, st, now);
      if adjusted != st {
        ghost var w1 := View();
        var _ := SaveScheduleState(s.ref, adjusted, f, ByStartup);
        WriteKeepsEvents(codec, w1, s.ref, adjusted, ByStartup, f);
        if IsBlind(w, s.ref, f) && Lands(codec, w1, s.ref, adjusted, f) {
          SpawnRefsNext(events, Overwrite(s.ref, now));
          events := events + [Overwrite(s.ref, now)];
        }
      }
    }

    method CheckSchedule(s: Schedule, now: nat, f: Faults) returns (spawned: bool)
      modifies this`store, this`writers, this`events, director
      ensures View() == CheckOne(codec, s, old(View()), now, f)
      ensures spawned == Spawns(codec, s, old(View()), now, f)
      ensures SpawnRefs(events) == SpawnRefs(old(events)) + if spawned then [s.ref] else []
    {
      hide ReadState, WriteState, IsDue, Lands, SpawnRefs;
      ghost var w := View();
      var st := LoadScheduleState(s.ref, f);
      if !IsDue(st, now) {
        return false;
      }
      spawned := true;                        // the broadcast, before the save
      ghost var w1 := View();
      var kept := SaveScheduleState(s.ref, AfterSpawn(st), f, BySpawn);
      WriteKeepsEvents(codec, w1, s.ref, AfterSpawn(st), BySpawn, f);
      SpawnRefsNext(events, Spawn(s.ref, now, IsBlind(w, s.ref, f), kept));
      events := events + [Spawn(s.ref, now, IsBlind(w, s.ref, f), kept)];
    }

    /** runSchedules: the startup pass once, then every schedule that is due is spawned and saved. */
    method RunSchedules(now: nat, startup: nat -> Faults, tick: nat -> Faults) returns (spawned: seq<string>)
      modifies this, director
      ensures scheduleInit
      ensures View() == Call(codec, schedules, old(scheduleInit), old(View()), now, startup, tick)
      ensures old(Happens(codec, schedules, View(), now)) ==> Happens(codec, schedules, View(), now)
      ensures SpawnRefs(events) == SpawnRefs(old(events)) + spawned
    {
      hide StartupOne, CheckOne, Spawns, SpawnRefs, Happens;
      ghost var w := View();
      spawned := [];
      if !scheduleInit {
        for i := 0 to |schedules|
          invariant View() == StartupPass(codec, schedules[..i], w, now, startup) && scheduleInit == old(scheduleInit)
          invariant SpawnRefs(events) == SpawnRefs(old(events))
        {
          assert schedules[..i + 1][..i] == schedules[..i];
          StartSchedule(schedules[i], now, startup(i));
        }
        assert schedules[..|schedules|] == schedules;
        scheduleInit := true;
      }
      ghost var ready := View();
      for i := 0 to |schedules|
        invariant View() == CheckPass(codec, schedules[..i], ready, now, tick) && scheduleInit
        invariant SpawnRefs(events) == SpawnRefs(old(events)) + spawned
      {
        assert schedules[..i + 1][..i] == schedules[..i];
        var due := CheckSchedule(schedules[i], now, tick(i));
        if due {
          spawned := spawned + [schedules[i].ref];
        }
      }
      assert schedules[..|schedules|] == schedules;
      if Happens(codec, schedules, w, now) {
        CallHappens(codec, schedules, w, old(scheduleInit), now, startup, tick);
      }
    }

    /** onBossDied: the first schedule with the ref is rescheduled; an unsaved reschedule is reported so that
        the signal is redelivered. */
    method OnBossDied(ref: string, now: nat, f: Faults) returns (handled: bool)
      modifies this`store, this`writers, this`events, director
      ensures var i := Find(schedules, ref);
              if ref == "" || i < 0 then View() == old(View()) && handled
              else && View() == DeathOne(codec, schedules[i], old(View()), now, f)
                   && handled == WriteState(codec, old(View()), ref, AfterDeath(schedules[i], now), ByDeath, f).1
      ensures old(Happens(codec, schedules, View(), now)) ==> Happens(codec, schedules, View(), now)
    {
      handled := true;
      if ref == "" {
        return;
      }
      hide WriteState, Lands, Happens;
      for i := 0 to |schedules|
        invariant View() == old(View()) && handled
        invariant forall k | 0 <= k < i :: schedules[k].ref != ref
      {
        if schedules[i].ref == ref {
          assert Find(schedules, ref) == i;
          ghost var w := View();
          var s := schedules[i];
          handled := SaveScheduleState(ref, AfterDeath(s, now), f, ByDeath);
          WriteKeepsEvents(codec, w, ref, AfterDeath(s, now), ByDeath, f);
          if Lands(codec, w, ref, AfterDeath(s, now), f) {
            events := events + [Death(ref, now, handled)];
          }
          if Happens(codec, schedules, w, now) {
            StepHappens(codec, schedules, w, now, BossDied(ref, now, f));
          }
          return;
        }
      }
    }
  }

  lemma WriteKeepsEvents(c: Codec, w: World, ref: string, st: ScheduleState, who: Writer, f: Faults)
    ensures WriteState(c, w, ref, st, who, f).0.events == w.events
  {
  }
}
