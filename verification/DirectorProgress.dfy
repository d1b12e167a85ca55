/**
  When a save succeeds, in any interleaving: exactly when its director's view of the key is current, which
  a seeding load, a reload after a loss, a successful save, a read of an uncached key or a crash brings
  about, and which only somebody else's write, or a write of its own that it never learnt of, undoes.
*/
module DirectorProgress {
  import opened DirectorCore
  import opened ScopeStore
  import opened DirectorProtocol
  import opened DirectorCache

  /** A set of this key has loaded its seed and has not finished. */
  predicate PastSeed(p: Pending, key: Key) { p.InSet? && p.key == key && !p.stage.Seeding? }

  function PendingOf(dir: Dir): Pending { if dir.pc.Busy? then dir.pc.pending else NoSet }

  /** The director's view of a key is current: its cached version, or the seed its set has loaded for a key
      it has not cached, is the head of the key's history. */
  predicate ViewIsCurrent(st: Store, dir: Dir, key: Key) {
    && UpToDate(st, dir.local, key)
    && (PastSeed(PendingOf(dir), key) && key !in dir.local.versions ==> PendingOf(dir).stage.seed == Load(st, key))
  }

  predicate Current(s: Sys, d: nat, key: Key) { d in s.dirs && ViewIsCurrent(s.store, s.dirs[d], key) }

  // ---- what a current view is worth -----------------------------------------------------------

  /** The store accepts a save if and only if its director's view of the key is current. */
  lemma SaveAcceptedIff(s: Sys, d: nat)
    requires CacheInv(s) && AtSet(s, d) && s.dirs[d].pc.pending.stage.Saving?
    ensures SaveOf(s, d).1.Saved? <==> Current(s, d, s.dirs[d].pc.pending.key)
  {
    var (dir, p) := (s.dirs[d], s.dirs[d].pc.pending);
    assert DirOk(s.store, dir);
    if p.key in dir.local.versions {
      assert Held(s.store, p.key, dir.local.state[p.key], dir.local.versions[p.key]);
    }
  }

  // ---- what makes a view current --------------------------------------------------------------

  /** The step reads the head of the key into the director's view, writes it, or forgets the key. */
  predicate Refreshes(s: Sys, step: Step, d: nat, key: Key)
    requires Enabled(s, step)
  {
    match step
    case SeedLoad(e, failed) => e == d && !failed && s.dirs[d].pc.pending.key == key
    case LossReload(e, failed) => e == d && !failed && s.dirs[d].pc.pending.key == key
    case CasSave(e, fault) => e == d && fault.Fine? && s.dirs[d].pc.pending.key == key && SaveOf(s, d).1.Saved?
    case DoGet(e, k, failed) => e == d && !failed && k == key && key !in s.dirs[d].local.state
    case Crash(e) => e == d
    case _ => false
  }

  /** A reload after a loss leaves the entry current, whoever won and whatever happened since the loss. */
  lemma ReloadMakesCurrent(s: Sys, d: nat)
    requires CacheInv(s) && AtSet(s, d) && s.dirs[d].pc.pending.stage.Reloading?
    ensures Current(ReloadStep(s, d, false), d, s.dirs[d].pc.pending.key)
  {
    var (dir, p) := (s.dirs[d], s.dirs[d].pc.pending);
    assert DirOk(s.store, dir);
    var l := Seeded(dir.local, p.key, p.stage.seed);
    if p.key in l.versions {
      assert Held(s.store, p.key, l.state[p.key], l.versions[p.key]);
    }
  }

  lemma SaveMakesCurrent(s: Sys, d: nat)
    requires CacheInv(s) && AtSet(s, d) && s.dirs[d].pc.pending.stage.Saving? && SaveOf(s, d).1.Saved?
    ensures Current(SaveStep(s, d, Fine), d, s.dirs[d].pc.pending.key)
  {
  }

  lemma RefreshMakesCurrent(s: Sys, step: Step, d: nat, key: Key)
    requires CacheInv(s) && Enabled(s, step) && Refreshes(s, step, d, key)
    ensures Current(Apply(s, step), d, key)
  {
    match step {
      case SeedLoad(_, _) =>
      case LossReload(_, _) => ReloadMakesCurrent(s, d);
      case CasSave(_, _) => SaveMakesCurrent(s, d);
      case DoGet(_, k, _) =>
      case Crash(_) => CrashMakesCurrent(s, d, key);
    }
  }

  lemma CrashMakesCurrent(s: Sys, d: nat, key: Key)
    ensures Current(With(s, d, FRESH_DIR), d, key)
  {
  }

  // ---- what keeps a view current --------------------------------------------------------------

  /** A view depends on the director's cache, its pending set and the key's history, nothing else. */
  lemma ViewFrame(st: Store, st': Store, dir: Dir, dir': Dir, key: Key)
    requires ViewIsCurrent(st, dir, key) && History(st', key) == History(st, key) && (key in st <==> key in st')
    requires dir'.local.versions == dir.local.versions && PendingOf(dir') == PendingOf(dir)
    ensures ViewIsCurrent(st', dir', key)
  {
  }

  /** Between operations: what completing one makes of a current view. */
  lemma CompleteKeepsView(s: Sys, d: nat, op: HandlerOp, key: Key)
    requires d in s.dirs && s.dirs[d].pc.Busy? && UpToDate(s.store, DoOp(s.dirs[d].local, op), key)
    ensures Current(Complete(s, d, op), d, key)
  {
  }

  lemma CacheReplyKeeps(st: Store, l: Local, k: Key, reply: LoadReply, key: Key)
    requires UpToDate(st, l, key) && (k == key && reply.Found? ==> reply == Load(st, key))
    ensures UpToDate(st, CacheReply(l, k, reply), key)
  {
  }

  lemma GetKeepsView(s: Sys, d: nat, k: Key, failed: bool, key: Key)
    requires Current(s, d, key) && BetweenOps(s, d)
    ensures Current(Complete(s, d, GetOp(k, if failed then LoadError else Load(s.store, k))), d, key)
  {
    var reply := if failed then LoadError else Load(s.store, k);
    CacheReplyKeeps(s.store, s.dirs[d].local, k, reply, key);
    CompleteKeepsView(s, d, GetOp(k, reply), key);
  }

  lemma BeginKeepsView(s: Sys, d: nat, k: Key, value: Value, api: bool, key: Key)
    requires Current(s, d, key) && BetweenOps(s, d)
    ensures Current(BeginSet(s, d, k, value, api), d, key)
  {
    if !s.dirs[d].local.leader {
      CompleteKeepsView(s, d, SetOp(k, value, api, SetIO(Absent, Lost, Absent)), key);
    }
  }

  lemma SeedKeepsView(s: Sys, d: nat, failed: bool, key: Key)
    requires CacheInv(s) && Current(s, d, key) && AtSet(s, d) && s.dirs[d].pc.pending.stage.Seeding?
    ensures Current(SeedStep(s, d, failed), d, key)
  {
    var p := s.dirs[d].pc.pending;
    assert DirOk(s.store, s.dirs[d]);
    if failed {
      CompleteKeepsView(s, d, SetOp(p.key, p.value, p.api, SetIO(LoadError, Lost, Absent)), key);
    }
  }

  /** The cache after the seed is filled in, for a view that is current. */
  lemma SeededKeeps(s: Sys, d: nat, key: Key)
    requires Current(s, d, key) && AtSet(s, d) && !s.dirs[d].pc.pending.stage.Seeding?
    ensures var p := s.dirs[d].pc.pending;
            UpToDate(s.store, Seeded(s.dirs[d].local, p.key, p.stage.seed), key)
  {
  }

  lemma ReloadKeepsView(s: Sys, d: nat, failed: bool, key: Key)
    requires CacheInv(s) && Current(s, d, key) && AtSet(s, d) && s.dirs[d].pc.pending.stage.Reloading?
    ensures Current(ReloadStep(s, d, failed), d, key)
  {
    var (dir, p) := (s.dirs[d], s.dirs[d].pc.pending);
    assert DirOk(s.store, dir);
    SeededKeeps(s, d, key);
    var reply := if failed then LoadError else Load(s.store, p.key);
    var l := Seeded(dir.local, p.key, p.stage.seed);
    CacheReplyKeeps(s.store, l, p.key, reply, key);
    CompleteKeepsView(s, d, SetOp(p.key, p.value, p.api, SetIO(p.stage.seed, Lost, reply)), key);
  }

  /** A save of the key itself from a current view would change its history, so the one that does not was
      never made; a save of another key leaves the view alone. */
  lemma SaveKeepsView(s: Sys, d: nat, fault: Fault, key: Key)
    requires CacheInv(s) && Current(s, d, key) && AtSet(s, d) && s.dirs[d].pc.pending.stage.Saving?
    requires History(SaveStep(s, d, fault).store, key) == History(s.store, key)
    ensures Current(SaveStep(s, d, fault), d, key)
  {
    assert DirOk(s.store, s.dirs[d]);
    SeededKeeps(s, d, key);
    SaveAcceptedIff(s, d);
    if !fault.ErrorBefore? && SaveOf(s, d).1.Saved? {
      AcceptedSave(s, d, fault);
    }
  }

  /** Whether a step is an operation of a handler, a tick or a client call. */
  predicate IsOperation(step: Step) {
    step.DoGet? || step.DoSet? || step.SeedLoad? || step.CasSave? || step.LossReload?
  }

  /** What a view depends on, unchanged. */
  predicate SameView(s: Sys, s': Sys, d: nat) {
    && d in s.dirs && d in s'.dirs && s'.store == s.store
    && s'.dirs[d].local.versions == s.dirs[d].local.versions && PendingOf(s'.dirs[d]) == PendingOf(s.dirs[d])
  }

  lemma HandSameView(s: Sys, e: nat, i: nat, b: Broker, d: nat)
    requires e in s.dirs && i < |b.stream| && d in s.dirs
    ensures SameView(s, Hand(s, e, i, b), d)
  {
  }

  lemma TakeSameView(s: Sys, e: nat, d: nat)
    requires Enabled(s, Take(e)) && d in s.dirs
    ensures SameView(s, TakeSignal(s, e), d)
  {
    hide Admit;
  }

  lemma EndSameView(s: Sys, e: nat, d: nat)
    requires Enabled(s, EndWork(e)) && d in s.dirs
    ensures SameView(s, EndStep(s, e), d)
  {
  }

  lemma BoundarySameView(s: Sys, step: Step, d: nat)
    requires Enabled(s, step) && d in s.dirs && !IsOperation(step) && !step.Crash?
    ensures SameView(s, Apply(s, step), d)
  {
    hide Hand, TakeSignal, EndStep;
    match step {
      case Deliver(e) =>
        var b := s.broker;
        HandSameView(s, e, b.front, b.(front := b.front + 1, attempts := b.attempts[b.front := 1]), d);
      case Redeliver(e, i) =>
        HandSameView(s, e, i, s.broker.(attempts := s.broker.attempts[i := s.broker.attempts[i] + 1]), d);
      case Take(e) => TakeSameView(s, e, d);
      case EndWork(e) => EndSameView(s, e, d);
      case _ =>
    }
  }

  /** Steps outside any operation. */
  lemma BoundaryKeepsView(s: Sys, step: Step, d: nat, key: Key)
    requires Enabled(s, step) && Current(s, d, key) && !IsOperation(step) && !step.Crash?
    ensures Current(Apply(s, step), d, key)
  {
    hide Apply, Enabled, ViewIsCurrent;
    BoundarySameView(s, step, d);
    var s' := Apply(s, step);
    ViewFrame(s.store, s'.store, s.dirs[d], s'.dirs[d], key);
  }

  /** Another director's operation leaves this one's fields alone. */
  lemma ForeignDir(s: Sys, step: Step, d: nat)
    requires Enabled(s, step) && d in s.dirs && (IsOperation(step) || step.Crash?) && step.d != d
    ensures d in Apply(s, step).dirs && Apply(s, step).dirs[d] == s.dirs[d]
  {
    hide DoOp, OpDeltas, SaveOf;
  }

  lemma ForeignKeepsView(s: Sys, step: Step, d: nat, key: Key)
    requires CacheInv(s) && Enabled(s, step) && Current(s, d, key) && (IsOperation(step) || step.Crash?) && step.d != d
    requires History(Apply(s, step).store, key) == History(s.store, key)
    ensures Current(Apply(s, step), d, key)
  {
    StoreOnlyGrows(s, step);
    CacheStep(s, step);
    ForeignDir(s, step, d);
    ViewFrame(s.store, Apply(s, step).store, s.dirs[d], s.dirs[d], key);
  }

  /** A view stays current as long as the key's history does not change. */
  lemma CurrentStep(s: Sys, step: Step, d: nat, key: Key)
    requires CacheInv(s) && Enabled(s, step) && Current(s, d, key)
    requires History(Apply(s, step).store, key) == History(s.store, key)
    ensures Current(Apply(s, step), d, key)
  {
    hide CacheInv, Current, History, SeedStep, ReloadStep, SaveStep, BeginSet, Complete, Hand, TakeSignal, EndStep;
    if !IsOperation(step) && !step.Crash? {
      BoundaryKeepsView(s, step, d, key);
    } else if step.d != d {
      ForeignKeepsView(s, step, d, key);
    } else {
      match step {
        case DoGet(_, k, failed) => GetKeepsView(s, d, k, failed, key);
        case DoSet(_, k, value, api) => BeginKeepsView(s, d, k, value, api, key);
        case SeedLoad(_, failed) => SeedKeepsView(s, d, failed, key);
        case CasSave(_, fault) => SaveKeepsView(s, d, fault, key);
        case LossReload(_, failed) => ReloadKeepsView(s, d, failed, key);
        case Crash(_) => CrashMakesCurrent(s, d, key);
      }
    }
  }

  // ---- every run ------------------------------------------------------------------------------

  /** From state i to state j nobody's write to the key reached the store. */
  ghost predicate Unwritten(run: seq<Sys>, i: nat, j: nat, key: Key)
    requires i <= j < |run|
  {
    forall k | i <= k <= j :: History(run[k].store, key) == History(run[i].store, key)
  }

  lemma {:induction false} CurrentWhileUnwritten(run: seq<Sys>, steps: seq<Step>, i: nat, j: nat, d: nat, key: Key)
    requires Behavior(run, steps) && i <= j < |run| && Current(run[i], d, key) && Unwritten(run, i, j, key)
    ensures Current(run[j], d, key)
    decreases j - i
  {
    hide Current, History, Apply, Enabled, CacheInv, Init;
    if i < j {
      CurrentWhileUnwritten(run, steps, i, j - 1, d, key);
      CacheAlways(run, steps, j - 1);
      assert run[j] == Apply(run[j - 1], steps[j - 1]);
      CurrentStep(run[j - 1], steps[j - 1], d, key);
    }
  }

  /** In every run a save reaches a store that accepts it if and only if its director's view is current. */
  lemma SaveSucceedsIff(run: seq<Sys>, steps: seq<Step>, m: nat, d: nat, fault: Fault)
    requires Behavior(run, steps) && m < |steps| && steps[m] == CasSave(d, fault)
    ensures Enabled(run[m], CasSave(d, fault))
    ensures SaveOf(run[m], d).1.Saved? <==> Current(run[m], d, run[m].dirs[d].pc.pending.key)
  {
    hide Current, Apply, Init;
    CacheAlways(run, steps, m);
    SaveAcceptedIff(run[m], d);
  }

  /** No spurious loss: once a director has seeded, reloaded, saved, read or forgotten a key, its next saves of
      that key are accepted, whatever every director does meanwhile (this one may even crash), until some
      write of the key reaches the store. */
  lemma SavesSucceedAfterRefresh(run: seq<Sys>, steps: seq<Step>, n: nat, m: nat, d: nat, fault: Fault, key: Key)
    requires Behavior(run, steps) && n < m < |steps| && steps[m] == CasSave(d, fault)
    requires AtSet(run[m], d) && run[m].dirs[d].pc.pending.key == key
    requires Enabled(run[n], steps[n]) && Refreshes(run[n], steps[n], d, key)
    requires Unwritten(run, n + 1, m, key)
    ensures Enabled(run[m], CasSave(d, fault)) && SaveOf(run[m], d).1.Saved?
    ensures fault.Fine? ==> History(run[m + 1].store, key) ==
                            History(run[m].store, key) + [Normalize(run[m].dirs[d].pc.pending.value)]
  {
    hide Current, Apply, Init, CacheInv, Refreshes, SaveOf;
    CacheAlways(run, steps, n);
    RefreshMakesCurrent(run[n], steps[n], d, key);
    assert run[n + 1] == Apply(run[n], steps[n]);
    SavesSucceedWhileUnwritten(run, steps, n + 1, m, d, fault, key);
  }

  lemma SavesSucceedWhileUnwritten(run: seq<Sys>, steps: seq<Step>, i: nat, m: nat, d: nat, fault: Fault, key: Key)
    requires Behavior(run, steps) && i <= m < |steps| && steps[m] == CasSave(d, fault)
    requires AtSet(run[m], d) && run[m].dirs[d].pc.pending.key == key
    requires Current(run[i], d, key) && Unwritten(run, i, m, key)
    ensures Enabled(run[m], CasSave(d, fault)) && SaveOf(run[m], d).1.Saved?
    ensures fault.Fine? ==> History(run[m + 1].store, key) ==
                            History(run[m].store, key) + [Normalize(run[m].dirs[d].pc.pending.value)]
  {
    hide Current, Apply, Init, CacheInv, SaveOf;
    CurrentWhileUnwritten(run, steps, i, m, d, key);
    SaveSucceedsIff(run, steps, m, d, fault);
    SavesNeverOverwrite(run, steps, m, d, fault);
  }

  /** A cold cache is no obstacle: a director that has not cached a key, and is not already past the seeding
      load of a set of it, gets its next save of the key accepted unless some write reaches the store first. */
  lemma ColdSavesSucceed(run: seq<Sys>, steps: seq<Step>, n: nat, m: nat, d: nat, fault: Fault, key: Key)
    requires Behavior(run, steps) && n <= m < |steps| && steps[m] == CasSave(d, fault)
    requires AtSet(run[m], d) && run[m].dirs[d].pc.pending.key == key
    requires d in run[n].dirs && key !in run[n].dirs[d].local.versions && !PastSeed(PendingOf(run[n].dirs[d]), key)
    requires Unwritten(run, n, m, key)
    ensures Enabled(run[m], CasSave(d, fault)) && SaveOf(run[m], d).1.Saved?
  {
    hide Apply, Init, SaveOf, Behavior;
    SavesSucceedWhileUnwritten(run, steps, n, m, d, fault, key);
  }

  /** The set after a lost compare-and-set wins: the loss reloaded the winner's value, whoever that was and
      whatever was written between the loss and the reload, so the next save of the key is accepted unless
      some write reaches the store after the reload. */
  lemma RetryAfterLossWins(run: seq<Sys>, steps: seq<Step>, n: nat, m: nat, d: nat, fault: Fault)
    requires Behavior(run, steps) && n < m < |steps|
    requires steps[n] == LossReload(d, false) && steps[m] == CasSave(d, fault)
    requires AtSet(run[n], d) && AtSet(run[m], d) && run[m].dirs[d].pc.pending.key == run[n].dirs[d].pc.pending.key
    requires Unwritten(run, n + 1, m, run[n].dirs[d].pc.pending.key)
    ensures Enabled(run[m], CasSave(d, fault)) && SaveOf(run[m], d).1.Saved?
  {
    hide Apply, Init, SaveOf;
    SavesSucceedAfterRefresh(run, steps, n, m, d, fault, run[n].dirs[d].pc.pending.key);
  }
}
