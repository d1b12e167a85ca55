/**
  Cache and broadcast safety of the director system, for any number of directors that believe they lead
  and any interleaving of loads, saves and ambiguous save errors.
*/
module DirectorCache {
  import opened DirectorCore
  import opened ScopeStore
  import opened DirectorProtocol

  /** The local fields when the current window began running operations. */
  function WindowStart(pc: PC): Local
    requires pc.Busy?
  {
    if pc.work.OnSignal? then Arm(pc.start) else pc.start
  }

  predicate PendingOk(st: Store, l: Local, p: Pending) {
    p.InSet? ==>
      && l.leader
      && (p.stage.Seeding? ==> p.key !in l.versions)
      && (p.stage.Saving? || p.stage.Reloading? ==>
            ReplyReal(st, p.key, p.stage.seed) && (p.key in l.versions || !p.stage.seed.LoadError?))
  }

  /** One director against the store: its cache is real, the replies of its window are real, and its
      fields are what its window's operations make of the fields it started from. */
  predicate DirOk(st: Store, dir: Dir) {
    && CacheReal(st, dir.local)
    && (dir.pc.Busy? ==>
          && CacheReal(st, dir.pc.start)
          && OpsReal(st, dir.pc.ops)
          && dir.local == DoOps(WindowStart(dir.pc), dir.pc.ops)
          && PendingOk(st, dir.local, dir.pc.pending))
  }

  predicate DeltasOk(st: Store, deltas: seq<Delta>) {
    forall i | 0 <= i < |deltas| :: DeltaReal(st, deltas[i])
  }

  predicate CacheInv(s: Sys) {
    && WellFormed(s.store)
    && (forall d | d in s.dirs :: DirOk(s.store, s.dirs[d]))
    && DeltasOk(s.store, s.deltas)
  }

  lemma StoreMoves(s: Sys, st': Store)
    requires CacheInv(s) && Grows(s.store, st') && WellFormed(st')
    ensures CacheInv(s.(store := st'))
  {
    forall d | d in s.dirs ensures DirOk(st', s.dirs[d]) {
    }
    forall i | 0 <= i < |s.deltas| ensures DeltaReal(st', s.deltas[i]) {
      assert DeltaReal(s.store, s.deltas[i]);
    }
  }

  lemma CompleteKeeps(s: Sys, d: nat, op: HandlerOp)
    requires CacheInv(s) && d in s.dirs && s.dirs[d].pc.Busy? && OpReal(s.store, op)
    ensures CacheInv(Complete(s, d, op))
  {
    var dir := s.dirs[d];
    var ops' := dir.pc.ops + [op];
    assert ops'[..|ops'| - 1] == dir.pc.ops;
    OpKeepsCacheReal(s.store, dir.local, op);
    assert dir.pc.(ops := ops', pending := NoSet).start == dir.pc.start;
    assert DirOk(s.store, Complete(s, d, op).dirs[d]);
  }

  lemma SaveStepKeeps(s: Sys, d: nat, fault: Fault)
    requires CacheInv(s) && Enabled(s, CasSave(d, fault))
    ensures CacheInv(SaveStep(s, d, fault))
  {
    var p := s.dirs[d].pc.pending;
    assert DirOk(s.store, s.dirs[d]);
    var saved := SaveOf(s, d);
    SaveGrows(s.store, p.key, Normalize(p.value), Expected(s.dirs[d].local, p.key, p.stage.seed));
    StoreMoves(s, saved.0);
    var s1 := s.(store := saved.0);
    assert DirOk(s1.store, s1.dirs[d]);
    match fault {
      case ErrorBefore =>
        CompleteKeeps(s, d, SetOp(p.key, p.value, p.api, SetIO(p.stage.seed, SaveError, Absent)));
      case ErrorAfter =>
        CompleteKeeps(s1, d, SetOp(p.key, p.value, p.api, SetIO(p.stage.seed, SaveError, Absent)));
      case Fine =>
        if !saved.1.Lost? {
          CompleteKeeps(s1, d, SetOp(p.key, p.value, p.api, SetIO(p.stage.seed, saved.1, Absent)));
        }
    }
  }

  lemma GetKeeps(s: Sys, d: nat, key: Key, failed: bool)
    requires CacheInv(s) && BetweenOps(s, d)
    ensures CacheInv(Complete(s, d, GetOp(key, if failed then LoadError else Load(s.store, key))))
  {
    hide CacheInv, Complete;
    CompleteKeeps(s, d, GetOp(key, if failed then LoadError else Load(s.store, key)));
  }

  lemma BeginKeeps(s: Sys, d: nat, key: Key, value: Value, api: bool)
    requires CacheInv(s) && BetweenOps(s, d)
    ensures CacheInv(BeginSet(s, d, key, value, api))
  {
    if !s.dirs[d].local.leader {
      CompleteKeeps(s, d, SetOp(key, value, api, SetIO(Absent, Lost, Absent)));
    } else {
    }
  }

  lemma SeedKeeps(s: Sys, d: nat, failed: bool)
    requires CacheInv(s) && AtSet(s, d) && s.dirs[d].pc.pending.stage.Seeding?
    ensures CacheInv(SeedStep(s, d, failed))
  {
    var p := s.dirs[d].pc.pending;
    assert DirOk(s.store, s.dirs[d]);
    if failed {
      CompleteKeeps(s, d, SetOp(p.key, p.value, p.api, SetIO(LoadError, Lost, Absent)));
    } else {
    }
  }

  lemma ReloadKeeps(s: Sys, d: nat, failed: bool)
    requires CacheInv(s) && AtSet(s, d) && s.dirs[d].pc.pending.stage.Reloading?
    ensures CacheInv(ReloadStep(s, d, failed))
  {
    hide CacheReal, OpsReal, DoOps, DeltasOk, Complete;
    var p := s.dirs[d].pc.pending;
    assert DirOk(s.store, s.dirs[d]);
    CompleteKeeps(s, d, SetOp(p.key, p.value, p.api,
                              SetIO(p.stage.seed, Lost, if failed then LoadError else Load(s.store, p.key))));
  }

  lemma SetStepsKeep(s: Sys, step: Step)
    requires CacheInv(s) && Enabled(s, step)
    requires step.DoGet? || step.DoSet? || step.SeedLoad? || step.CasSave? || step.LossReload?
    ensures CacheInv(Apply(s, step))
  {
    hide CacheInv, Complete, BeginSet, SeedStep, SaveStep, ReloadStep;
    match step {
      case DoGet(d, key, failed) => GetKeeps(s, d, key, failed);
      case DoSet(d, key, value, api) => BeginKeeps(s, d, key, value, api);
      case SeedLoad(d, failed) => SeedKeeps(s, d, failed);
      case CasSave(d, fault) => SaveStepKeeps(s, d, fault);
      case LossReload(d, failed) => ReloadKeeps(s, d, failed);
    }
  }

  /** Steps that leave the store, the caches and the windows alone. */
  lemma BrokerStepsKeep(s: Sys, step: Step)
    requires CacheInv(s) && Enabled(s, step)
    requires step.Publish? || step.Deliver? || step.Redeliver? || step.Expire? || step.Relay? || step.Timeout?
             || step.Park?
    ensures CacheInv(Apply(s, step))
  {
    hide CacheReal, OpsReal, DoOps, PendingOk, DeltasOk;
    var s' := Apply(s, step);
    forall d | d in s'.dirs ensures DirOk(s'.store, s'.dirs[d]) {
      assert DirOk(s.store, s.dirs[d]);
      assert s'.dirs[d].local == s.dirs[d].local && s'.dirs[d].pc == s.dirs[d].pc;
    }
  }

  lemma TakeKeeps(s: Sys, d: nat)
    requires CacheInv(s) && Enabled(s, Take(d))
    ensures CacheInv(TakeSignal(s, d))
  {
    hide DeltasOk;
    assert DirOk(s.store, s.dirs[d]);
    assert DirOk(s.store, TakeSignal(s, d).dirs[d]);
  }

  lemma EndKeeps(s: Sys, d: nat)
    requires CacheInv(s) && Enabled(s, EndWork(d))
    ensures CacheInv(EndStep(s, d))
  {
    assert DirOk(s.store, s.dirs[d]);
    assert DirOk(s.store, EndStep(s, d).dirs[d]);
  }

  lemma CacheStep(s: Sys, step: Step)
    requires CacheInv(s) && Enabled(s, step)
    ensures CacheInv(Apply(s, step))
  {
    hide DeltasOk, SaveStep, SeedStep, ReloadStep, BeginSet, TakeSignal, EndStep, Complete, Hand;
    match step {
      case Campaign(d, held, _) => assert DirOk(s.store, s.dirs[d]);
      case Crash(d) =>
      case Take(d) => TakeKeeps(s, d);
      case Start(d, tick) => assert DirOk(s.store, s.dirs[d]);
      case EndWork(d) => EndKeeps(s, d);
      case DoGet(_, _, _) => SetStepsKeep(s, step);
      case DoSet(_, _, _, _) => SetStepsKeep(s, step);
      case SeedLoad(_, _) => SetStepsKeep(s, step);
      case CasSave(_, _) => SetStepsKeep(s, step);
      case LossReload(_, _) => SetStepsKeep(s, step);
      case _ => BrokerStepsKeep(s, step);
    }
  }

  /** In every state of every run, caches, in-flight replies and broadcasts are real. */
  lemma {:induction false} CacheAlways(run: seq<Sys>, steps: seq<Step>, n: nat)
    requires Behavior(run, steps) && n < |run|
    ensures CacheInv(run[n])
  {
    if n > 0 {
      CacheAlways(run, steps, n - 1);
      CacheStep(run[n - 1], steps[n - 1]);
    }
  }

  // ---- what it means --------------------------------------------------------------------------

  /** Every cached entry of every director is an entry the store really held, at a version the store has
      reached; keys and versions are cached together. */
  lemma CachedEntriesAreReal(run: seq<Sys>, steps: seq<Step>, n: nat, d: nat)
    requires Behavior(run, steps) && n < |run| && d in run[n].dirs
    ensures var s := run[n];
            var l := s.dirs[d].local;
            && l.state.Keys == l.versions.Keys
            && forall k | k in l.versions ::
                 k in s.store && 1 <= l.versions[k] <= |s.store[k]|
                 && s.store[k][l.versions[k] - 1] == l.state[k]
  {
    CacheAlways(run, steps, n);
    var s := run[n];
    assert DirOk(s.store, s.dirs[d]);
    forall k | k in s.dirs[d].local.versions
      ensures Held(s.store, k, s.dirs[d].local.state[k], s.dirs[d].local.versions[k])
    {
    }
  }

  /** A save lands on top of exactly what its director has cached: its cache (after the seeding load) is the
      head of the key's history, and its one value is appended to that head. */
  predicate ExtendsCachedHead(s: Sys, d: nat, st': Store)
    requires AtSet(s, d) && s.dirs[d].pc.pending.stage.Saving?
  {
    var p := s.dirs[d].pc.pending;
    var l := Seeded(s.dirs[d].local, p.key, p.stage.seed);
    var head := History(s.store, p.key);
    && |head| == (if p.key in l.versions then l.versions[p.key] else 0)
    && (p.key in l.state ==> head != [] && l.state[p.key] == head[|head| - 1])
    && st' == s.store[p.key := head + [Normalize(p.value)]]
  }

  /** What the director knows after its save: the new head if the store said so, otherwise no more than it
      had cached before. */
  predicate KnowsOutcome(s: Sys, d: nat, fault: Fault, s': Sys)
    requires AtSet(s, d) && s.dirs[d].pc.pending.stage.Saving? && d in s'.dirs
  {
    var p := s.dirs[d].pc.pending;
    var l := Seeded(s.dirs[d].local, p.key, p.stage.seed);
    if fault.Fine? && SaveOf(s, d).1.Saved? then
      s'.dirs[d].local == Cache(l, p.key, Normalize(p.value), |History(s.store, p.key)| + 1)
    else if fault.Fine? then s'.dirs[d].local == s.dirs[d].local
    else s'.dirs[d].local == Fail(l)
  }

  /** An accepted save appends to the cached head. */
  lemma AcceptedHead(s: Sys, d: nat)
    requires CacheInv(s) && AtSet(s, d) && s.dirs[d].pc.pending.stage.Saving? && SaveOf(s, d).1.Saved?
    ensures ExtendsCachedHead(s, d, SaveOf(s, d).0)
    ensures SaveOf(s, d).1 == Saved(|History(s.store, s.dirs[d].pc.pending.key)| + 1)
  {
    hide DeltasOk, OpsReal, DoOps;
    var p := s.dirs[d].pc.pending;
    assert DirOk(s.store, s.dirs[d]);
    var l := Seeded(s.dirs[d].local, p.key, p.stage.seed);
    if p.key in l.versions {
      assert Held(s.store, p.key, l.state[p.key], l.versions[p.key]);
    }
    assert [] + [Normalize(p.value)] == [Normalize(p.value)];
  }

  lemma AcceptedSave(s: Sys, d: nat, fault: Fault)
    requires CacheInv(s) && AtSet(s, d) && s.dirs[d].pc.pending.stage.Saving? && SaveOf(s, d).1.Saved?
    ensures fault.ErrorBefore? || ExtendsCachedHead(s, d, SaveStep(s, d, fault).store)
    ensures KnowsOutcome(s, d, fault, SaveStep(s, d, fault))
  {
    hide SaveOf, ExtendsCachedHead, CacheReal, DeltasOk, OpsReal, DoOps;
    AcceptedHead(s, d);
    assert DirOk(s.store, s.dirs[d]);
  }

  /** No lost update, in any run and for every outcome of a save: one that reaches the store and is accepted,
      whether or not its writer ever learns of it, appends one value to exactly the head its writer had
      cached; any other leaves the store as it was. */
  lemma SavesNeverOverwrite(run: seq<Sys>, steps: seq<Step>, n: nat, d: nat, fault: Fault)
    requires Behavior(run, steps) && n < |steps| && steps[n] == CasSave(d, fault)
    ensures Enabled(run[n], CasSave(d, fault)) && d in run[n + 1].dirs
    ensures if !fault.ErrorBefore? && SaveOf(run[n], d).1.Saved? then ExtendsCachedHead(run[n], d, run[n + 1].store)
            else run[n + 1].store == run[n].store
    ensures KnowsOutcome(run[n], d, fault, run[n + 1])
  {
    CacheAlways(run, steps, n);
    if !fault.ErrorBefore? && SaveOf(run[n], d).1.Saved? {
      AcceptedSave(run[n], d, fault);
    } else {
    }
  }

  lemma StoreStays(s: Sys, step: Step)
    requires Enabled(s, step) && !step.CasSave?
    ensures Apply(s, step).store == s.store
  {
    hide DoOp, OpDeltas, Admit, Finish, Answer, Settle;
  }

  /** Histories only grow, whatever the directors do: no step rewrites or drops a stored version. */
  lemma StoreOnlyGrows(s: Sys, step: Step)
    requires CacheInv(s) && Enabled(s, step)
    ensures Grows(s.store, Apply(s, step).store)
  {
    hide DirOk, DeltasOk, Complete, Load, DoOp;
    if step.CasSave? {
      SaveOnlyGrows(s, step.d, step.fault);
    } else {
      hide Apply, Enabled;
      StoreStays(s, step);
    }
  }

  lemma SaveOnlyGrows(s: Sys, d: nat, fault: Fault)
    requires CacheInv(s) && AtSet(s, d) && s.dirs[d].pc.pending.stage.Saving?
    ensures Grows(s.store, SaveStep(s, d, fault).store)
  {
    hide DirOk, DeltasOk, DoOp, OpDeltas;
    var p := s.dirs[d].pc.pending;
    SaveGrows(s.store, p.key, Normalize(p.value), Expected(s.dirs[d].local, p.key, p.stage.seed));
  }

  /** Every state broadcast by any director carries the value the store held at the stamped version, so
      two broadcasts with one stamp agree (nil and null being the same value). */
  lemma StampsIdentifyValues(run: seq<Sys>, steps: seq<Step>, n: nat, i: nat, j: nat)
    requires Behavior(run, steps) && n < |run| && i < |run[n].deltas| && j < |run[n].deltas|
    ensures var s := run[n];
            var (x, y) := (s.deltas[i], s.deltas[j]);
            && Held(s.store, x.key, Normalize(x.value), x.version)
            && (x.key == y.key && x.version == y.version ==> Normalize(x.value) == Normalize(y.value))
  {
    CacheAlways(run, steps, n);
    assert DeltaReal(run[n].store, run[n].deltas[i]) && DeltaReal(run[n].store, run[n].deltas[j]);
  }

  /** Every accepted and reported save of an API set is broadcast, once, with its key, its raw value and the version
      it was given, which is the new length of the key's history; and nothing else is ever broadcast. */
  lemma AcceptedSavesAreBroadcast(run: seq<Sys>, steps: seq<Step>, n: nat)
    requires Behavior(run, steps) && n < |steps|
    ensures Enabled(run[n], steps[n])
    ensures var (s, s', step) := (run[n], run[n + 1], steps[n]);
            if step.CasSave? && step.fault.Fine? && s.dirs[step.d].pc.pending.api && SaveOf(s, step.d).1.Saved? then
              var p := s.dirs[step.d].pc.pending;
              s'.deltas == s.deltas + [Delta(p.key, p.value, |History(s'.store, p.key)|)]
            else
              s'.deltas == s.deltas
  {
    CacheAlways(run, steps, n);
    assert run[n + 1] == Apply(run[n], steps[n]);
    if steps[n].CasSave? {
      SaveBroadcasts(run[n], steps[n].d, steps[n].fault);
    } else {
      QuietBroadcasts(run[n], steps[n]);
    }
  }

  lemma SaveBroadcasts(s: Sys, d: nat, fault: Fault)
    requires CacheInv(s) && AtSet(s, d) && s.dirs[d].pc.pending.stage.Saving?
    ensures var (s', p) := (SaveStep(s, d, fault), s.dirs[d].pc.pending);
            s'.deltas == s.deltas + if fault.Fine? && p.api && SaveOf(s, d).1.Saved?
                                    then [Delta(p.key, p.value, |History(s'.store, p.key)|)] else []
  {
    hide DeltasOk, OpsReal, DoOps, DoOp;
    if SaveOf(s, d).1.Saved? {
      AcceptedHead(s, d);
    }
    assert DirOk(s.store, s.dirs[d]);
  }

  lemma QuietBroadcasts(s: Sys, step: Step)
    requires Enabled(s, step) && !step.CasSave?
    ensures Apply(s, step).deltas == s.deltas
  {
    hide DoOp, Admit, Finish, Answer, Settle, Unresolved, NextInSource;
    assert s.deltas + [] == s.deltas;
  }
}
