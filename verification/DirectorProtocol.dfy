/**
  Any number of directors over one scope store and one durable signal stream, as an interleaved step
  system.  Loads and saves are separate atomic steps, a save may fail ambiguously, several directors may
  believe they lead at once, and a callback that times out leaves its message behind in the inbox.
*/
module DirectorProtocol {
  import opened Basics
  import opened DirectorCore
  import opened ScopeStore

  /** A delivered copy of stream[idx]; `token` names the callback that waits for its ack. */
  datatype InMsg = InMsg(idx: nat, token: nat)

  datatype Stage = Seeding | Saving(seed: LoadReply) | Reloading(seed: LoadReply)
  datatype Pending = NoSet | InSet(key: Key, value: Value, api: bool, stage: Stage)

  /** What the actor goroutine is busy with.  `start` and `ops` record the window so far. */
  datatype Work = OnSignal(idx: nat, token: nat) | OnTick | OnClient
  datatype PC = Idle | Busy(work: Work, start: Local, ops: seq<HandlerOp>, pending: Pending)

  /** `seen` records every signal this director session applied and acked: the full seen-set that the
      per-source high-water stands for. */
  datatype Dir = Dir(local: Local, inbox: seq<InMsg>, subscribed: bool, pc: PC, seen: set<nat>)

  /** The shared durable consumer.  `cap` is MaxAckPending, `budget` is MaxDeliver. */
  datatype Broker = Broker(
    stream: seq<Signal>,
    cap: nat,
    budget: nat,
    front: nat,                   // signals delivered at least once
    done: set<nat>,               // acked, dropped as poison, or parked
    parked: set<nat>,
    inflight: set<nat>,           // delivered and not yet answered
    attempts: map<nat, nat>,
    waiting: map<nat, nat>,       // live callback -> the signal it delivered
    replies: map<nat, bool>,      // what actors answered, by callback
    nextToken: nat)

  /** A run of a signal that its director acked: one HandleSignal call. */
  datatype SignalRun = SignalRun(start: Local, ops: seq<HandlerOp>)

  datatype Sys = Sys(
    store: Store,
    broker: Broker,
    dirs: map<nat, Dir>,
    deltas: seq<Delta>,           // state broadcasts, by any director
    clean: map<nat, SignalRun>)   // signal -> an acked run of it

  datatype Step =
    // the stream and the broker
    | Publish(sig: Signal)
    | Deliver(d: nat)
    | Redeliver(d: nat, i: nat)
    | Expire(i: nat)
    | Relay(t: nat)
    | Timeout(t: nat)
    | Park(i: nat)
    // a director outside any handler
    | Campaign(d: nat, held: bool, subscribes: bool)
    | Crash(d: nat)
    | Take(d: nat)
    | Start(d: nat, tick: bool)
    // a director inside a handler, a tick or a client call
    | DoGet(d: nat, key: Key, failed: bool)
    | DoSet(d: nat, key: Key, value: Value, api: bool)
    | SeedLoad(d: nat, failed: bool)
    | CasSave(d: nat, fault: Fault)
    | LossReload(d: nat, failed: bool)
    | EndWork(d: nat)

  const FRESH_DIR := Dir(FRESH, [], false, Idle, {})

  // ---- steps ----------------------------------------------------------------------------------

  function Unresolved(b: Broker): set<nat> { set i | 0 <= i < b.front && i !in b.done }

  predicate NextInSource(stream: seq<Signal>, sig: Signal) {
    sig.num.Some? ==>
      forall i | 0 <= i < |stream| && stream[i].source == sig.source && stream[i].num.Some? ::
        stream[i].num.value < sig.num.value
  }

  predicate AtSet(s: Sys, d: nat) {
    d in s.dirs && s.dirs[d].pc.Busy? && s.dirs[d].pc.pending.InSet?
  }

  predicate BetweenOps(s: Sys, d: nat) {
    d in s.dirs && s.dirs[d].pc.Busy? && s.dirs[d].pc.pending.NoSet?
  }

  predicate AtRest(s: Sys, d: nat) { d in s.dirs && s.dirs[d].pc.Idle? }

  predicate Enabled(s: Sys, step: Step) {
    var b := s.broker;
    match step
    case Publish(sig) => NextInSource(b.stream, sig)
    case Deliver(d) => d in s.dirs && s.dirs[d].subscribed && b.front < |b.stream| && |Unresolved(b)| < b.cap
    case Redeliver(d, i) =>
      && d in s.dirs && s.dirs[d].subscribed && i < b.front && i < |b.stream|
      && i !in b.done && i !in b.inflight && i in b.attempts && b.attempts[i] < b.budget
    case Expire(i) => i in b.inflight
    case Relay(t) => t in b.waiting && t in b.replies
    case Timeout(t) => t in b.waiting
    case Park(i) =>
      i < b.front && i !in b.done && i !in b.inflight && i in b.attempts && b.attempts[i] >= b.budget
    case Campaign(d, _, _) => AtRest(s, d)
    case Crash(d) => d in s.dirs
    case Take(d) => AtRest(s, d) && s.dirs[d].inbox != [] && s.dirs[d].inbox[0].idx < |b.stream|
    case Start(d, tick) => AtRest(s, d) && (tick ==> s.dirs[d].local.leader)
    case DoGet(d, _, _) => BetweenOps(s, d)
    case DoSet(d, _, _, _) => BetweenOps(s, d)
    case SeedLoad(d, _) => AtSet(s, d) && s.dirs[d].pc.pending.stage.Seeding?
    case CasSave(d, _) => AtSet(s, d) && s.dirs[d].pc.pending.stage.Saving?
    case LossReload(d, _) => AtSet(s, d) && s.dirs[d].pc.pending.stage.Reloading?
    case EndWork(d) =>
      BetweenOps(s, d) && (s.dirs[d].pc.work.OnSignal? ==> s.dirs[d].pc.work.idx < |b.stream|)
  }

  /** The callback posts the message to the inbox of the director that runs it; a malformed message is
      dropped by the callback itself. */
  function Hand(s: Sys, d: nat, i: nat, b: Broker): Sys
    requires d in s.dirs && i < |b.stream|
  {
    if b.stream[i].malformed then
      s.(broker := b.(done := b.done + {i}))
    else
      var t := b.nextToken;
      s.(broker := b.(inflight := b.inflight + {i}, waiting := b.waiting[t := i], nextToken := t + 1),
         dirs := s.dirs[d := s.dirs[d].(inbox := s.dirs[d].inbox + [InMsg(i, t)])])
  }

  function HandAgain(s: Sys, d: nat, i: nat): Sys
    requires d in s.dirs && i < |s.broker.stream| && i in s.broker.attempts
  {
    Hand(s, d, i, s.broker.(attempts := s.broker.attempts[i := s.broker.attempts[i] + 1]))
  }

  function With(s: Sys, d: nat, dir: Dir): Sys { s.(dirs := s.dirs[d := dir]) }

  /** The callback answers the broker: an ack resolves the signal, anything else frees it for redelivery. */
  function Settle(b: Broker, t: nat, ok: bool): Broker
    requires t in b.waiting
  {
    var i := b.waiting[t];
    b.(waiting := b.waiting - {t}, inflight := b.inflight - {i}, done := if ok then b.done + {i} else b.done)
  }

  function ParkAt(b: Broker, i: nat): Broker { b.(done := b.done + {i}, parked := b.parked + {i}) }

  function Answer(b: Broker, t: nat, ok: bool): Broker { b.(replies := b.replies[t := ok]) }

  function TakeSignal(s: Sys, d: nat): Sys
    requires Enabled(s, Take(d))
  {
    var dir := s.dirs[d];
    var m := dir.inbox[0];
    var rest := dir.(inbox := dir.inbox[1..]);
    match Admit(dir.local, s.broker.stream[m.idx])
    case Suppress => s.(dirs := s.dirs[d := rest], broker := Answer(s.broker, m.token, true))
    case Refuse => s.(dirs := s.dirs[d := rest], broker := Answer(s.broker, m.token, false))
    case Run =>
      s.(dirs := s.dirs[d := rest.(local := Arm(dir.local),
                                   pc := Busy(OnSignal(m.idx, m.token), dir.local, [], NoSet))])
  }

  /** One finished operation of the window: the cache moves as DirectorCore says. */
  function Complete(s: Sys, d: nat, op: HandlerOp): Sys
    requires d in s.dirs && s.dirs[d].pc.Busy?
  {
    var dir := s.dirs[d];
    s.(dirs := s.dirs[d := dir.(local := DoOp(dir.local, op),
                                pc := dir.pc.(ops := dir.pc.ops + [op], pending := NoSet))],
       deltas := s.deltas + OpDeltas(dir.local, op))
  }

  function Stay(s: Sys, d: nat, stage: Stage): Sys
    requires AtSet(s, d)
  {
    var dir := s.dirs[d];
    s.(dirs := s.dirs[d := dir.(pc := dir.pc.(pending := dir.pc.pending.(stage := stage)))])
  }

  function BeginSet(s: Sys, d: nat, key: Key, value: Value, api: bool): Sys
    requires BetweenOps(s, d)
  {
    var dir := s.dirs[d];
    if !dir.local.leader then
      Complete(s, d, SetOp(key, value, api, SetIO(Absent, Lost, Absent)))
    else
      var stage := if key in dir.local.versions then Saving(Absent) else Seeding;
      s.(dirs := s.dirs[d := dir.(pc := dir.pc.(pending := InSet(key, value, api, stage)))])
  }

  function SeedStep(s: Sys, d: nat, failed: bool): Sys
    requires AtSet(s, d)
  {
    var p := s.dirs[d].pc.pending;
    if failed then Complete(s, d, SetOp(p.key, p.value, p.api, SetIO(LoadError, Lost, Absent)))
    else Stay(s, d, Saving(Load(s.store, p.key)))
  }

  /** What the store does with this director's save. */
  function SaveOf(s: Sys, d: nat): (Store, SaveReply)
    requires AtSet(s, d) && s.dirs[d].pc.pending.stage.Saving?
  {
    var p := s.dirs[d].pc.pending;
    Save(s.store, p.key, Normalize(p.value), Expected(s.dirs[d].local, p.key, p.stage.seed))
  }

  function SaveStep(s: Sys, d: nat, fault: Fault): Sys
    requires AtSet(s, d) && s.dirs[d].pc.pending.stage.Saving?
  {
    var p := s.dirs[d].pc.pending;
    var saved := SaveOf(s, d);
    match fault
    case ErrorBefore =>
      Complete(s, d, SetOp(p.key, p.value, p.api, SetIO(p.stage.seed, SaveError, Absent)))
    case ErrorAfter =>
      Complete(s.(store := saved.0), d, SetOp(p.key, p.value, p.api, SetIO(p.stage.seed, SaveError, Absent)))
    case Fine =>
      if saved.1.Lost? then Stay(s, d, Reloading(p.stage.seed))
      else Complete(s.(store := saved.0), d, SetOp(p.key, p.value, p.api, SetIO(p.stage.seed, saved.1, Absent)))
  }

  function ReloadStep(s: Sys, d: nat, failed: bool): Sys
    requires AtSet(s, d) && s.dirs[d].pc.pending.stage.Reloading?
  {
    var p := s.dirs[d].pc.pending;
    var reply := if failed then LoadError else Load(s.store, p.key);
    Complete(s, d, SetOp(p.key, p.value, p.api, SetIO(p.stage.seed, Lost, reply)))
  }

  function EndStep(s: Sys, d: nat): Sys
    requires Enabled(s, EndWork(d))
  {
    var dir := s.dirs[d];
    match dir.pc.work
    case OnSignal(idx, token) =>
      var r := Finish(dir.local, s.broker.stream[idx]);
      var dir' := dir.(local := r.0, pc := Idle, seen := if r.1 then dir.seen + {idx} else dir.seen);
      s.(dirs := s.dirs[d := dir'],
         broker := Answer(s.broker, token, r.1),
         clean := if r.1 then s.clean[idx := SignalRun(dir.pc.start, dir.pc.ops)] else s.clean)
    case _ => s.(dirs := s.dirs[d := dir.(pc := Idle)])
  }

  function Apply(s: Sys, step: Step): Sys
    requires Enabled(s, step)
  {
    var b := s.broker;
    match step
    case Publish(sig) => s.(broker := b.(stream := b.stream + [sig]))
    case Deliver(d) =>
      Hand(s, d, b.front, b.(front := b.front + 1, attempts := b.attempts[b.front := 1]))
    case Redeliver(d, i) => HandAgain(s, d, i)
    case Expire(i) => s.(broker := b.(inflight := b.inflight - {i}))
    case Relay(t) => s.(broker := Settle(b, t, b.replies[t]))
    case Timeout(t) => s.(broker := Settle(b, t, false))
    case Park(i) => s.(broker := ParkAt(b, i))
    case Campaign(d, held, subscribes) =>
      With(s, d, s.dirs[d].(local := s.dirs[d].local.(leader := held),
                            subscribed := held && (s.dirs[d].subscribed || subscribes)))
    case Crash(d) => With(s, d, FRESH_DIR)
    case Take(d) => TakeSignal(s, d)
    case Start(d, tick) =>
      With(s, d, s.dirs[d].(pc := Busy(if tick then OnTick else OnClient, s.dirs[d].local, [], NoSet)))
    case DoGet(d, key, failed) =>
      Complete(s, d, GetOp(key, if failed then LoadError else Load(s.store, key)))
    case DoSet(d, key, value, api) => BeginSet(s, d, key, value, api)
    case SeedLoad(d, failed) => SeedStep(s, d, failed)
    case CasSave(d, fault) => SaveStep(s, d, fault)
    case LossReload(d, failed) => ReloadStep(s, d, failed)
    case EndWork(d) => EndStep(s, d)
  }

  predicate Init(s: Sys) {
    && WellFormed(s.store)
    && s.broker == Broker([], s.broker.cap, s.broker.budget, 0, {}, {}, {}, map[], map[], map[], 0)
    && (forall d | d in s.dirs :: s.dirs[d] == FRESH_DIR)
    && s.deltas == [] && s.clean == map[]
  }

  /** A run: each state is the previous one moved by an enabled step. */
  predicate Behavior(run: seq<Sys>, steps: seq<Step>) {
    && |run| == |steps| + 1
    && Init(run[0])
    && forall i | 0 <= i < |steps| :: Enabled(run[i], steps[i]) && run[i + 1] == Apply(run[i], steps[i])
  }
}
