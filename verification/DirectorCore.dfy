/**
  The director's scope-state cache and signal window as values: what one store reply, one `set`, one
  signal admission does to the actor-private fields (`state`, `versions`, `applied`, `leader`,
  `writeFailed`).  The class in DirectorActor is proved to compute exactly these functions, and the
  interleaved system in DirectorProtocol is built from them.
*/
module DirectorCore {
  import opened Basics

  type Key = string
  type Value = string   // raw JSON; the empty string is Go's nil/empty RawMessage
  type Source = string

  /** What the store answers.  `SaveError` is ambiguous: the write may or may not have landed. */
  datatype LoadReply = Found(value: Value, version: nat) | Absent | LoadError
  datatype SaveReply = Saved(version: nat) | Lost | SaveError

  /** The replies one `set` may observe: the seeding load, the save, the reload after a lost CAS. */
  datatype SetIO = SetIO(seed: LoadReply, save: SaveReply, reload: LoadReply)

  datatype GetResult = Hit(value: Value) | Unset | GetFailed
  datatype SetResult = Wrote(version: nat) | NotLeader | CasLost | StoreFailed

  /** The fields of a Director that only its own goroutine touches. */
  datatype Local = Local(
    state: map<Key, Value>,
    versions: map<Key, nat>,
    applied: map<Source, nat>,
    leader: bool,
    writeFailed: bool)

  const FRESH := Local(map[], map[], map[], false, false)

  const LEADING := FRESH.(leader := true)

  /** An empty value means delete; it is stored as the JSON null literal. */
  function Normalize(value: Value): Value {
    if |value| == 0 then "null" else value
  }

  function Cache(l: Local, key: Key, value: Value, version: nat): Local {
    l.(state := l.state[key := value], versions := l.versions[key := version])
  }

  function CacheReply(l: Local, key: Key, reply: LoadReply): Local {
    if reply.Found? then Cache(l, key, reply.value, reply.version) else l
  }

  function Fail(l: Local): Local { l.(writeFailed := true) }

  /** `get`: the cached value, else a load that fills the cache when it finds the key. */
  function GetSpec(l: Local, key: Key, reply: LoadReply): (Local, GetResult) {
    if key in l.state then (l, Hit(l.state[key]))
    else match reply
      case Found(v, _) => (CacheReply(l, key, reply), Hit(v))
      case Absent => (l, Unset)
      case LoadError => (l, GetFailed)
  }

  /** The cache after the seeding load of `set`, which only runs for a key without a cached version. */
  function Seeded(l: Local, key: Key, seed: LoadReply): Local {
    if key in l.versions then l else CacheReply(l, key, seed)
  }

  /** The version a save is made against: Go's zero for a key that is not in the map. */
  function Expected(l: Local, key: Key, seed: LoadReply): nat {
    var l1 := Seeded(l, key, seed);
    if key in l1.versions then l1.versions[key] else 0
  }

  /** `set`: leader check, seeding load, compare-and-set, reload on a loss. */
  function SetSpec(l: Local, key: Key, value: Value, io: SetIO): (Local, SetResult) {
    if !l.leader then (Fail(l), NotLeader)
    else if key !in l.versions && io.seed.LoadError? then (Fail(l), StoreFailed)
    else
      var l1 := Seeded(l, key, io.seed);
      match io.save
      case SaveError => (Fail(l1), StoreFailed)
      case Lost =>
        if io.reload.LoadError? then (Fail(l1), StoreFailed)
        else (Fail(CacheReply(l1, key, io.reload)), CasLost)
      case Saved(version) => (Cache(l1, key, Normalize(value), version), Wrote(version))
  }

  /** One event of the durable signal stream.  `num` is None when its key had no parseable sequence. */
  datatype Signal = Signal(source: Source, num: Option<nat>, malformed: bool)

  function HighWater(l: Local, source: Source): nat {
    if source in l.applied then l.applied[source] else 0
  }

  datatype Admission = Suppress | Refuse | Run

  /** Dedup first, then the leader gate: the order signals.go depends on. */
  function Admit(l: Local, sig: Signal): Admission {
    if sig.num.Some? && sig.num.value <= HighWater(l, sig.source) then Suppress
    else if !l.leader then Refuse
    else Run
  }

  function Arm(l: Local): Local { l.(writeFailed := false) }

  function Raise(l: Local, sig: Signal): Local {
    if sig.num.Some? && sig.num.value > HighWater(l, sig.source)
    then l.(applied := l.applied[sig.source := sig.num.value])
    else l
  }

  /** The end of an apply window: NAK when a write of the window failed, else advance and ack. */
  function Finish(l: Local, sig: Signal): (Local, bool) {
    if l.writeFailed then (l, false) else (Raise(l, sig), true)
  }

  /** What a handler does, with the replies the store gave it.  `api` marks a Set made through the
      script API, which broadcasts; the scheduler and the client call `set` directly. */
  datatype HandlerOp =
    | GetOp(key: Key, reply: LoadReply)
    | SetOp(key: Key, value: Value, api: bool, io: SetIO)
    | BroadcastOp

  /** A state broadcast: the raw value and the version it is stamped with. */
  datatype Delta = Delta(key: Key, value: Value, version: nat)

  function DoOp(l: Local, op: HandlerOp): Local {
    match op
    case GetOp(k, reply) => GetSpec(l, k, reply).0
    case SetOp(k, v, _, io) => SetSpec(l, k, v, io).0
    case BroadcastOp => l
  }

  function OpDeltas(l: Local, op: HandlerOp): seq<Delta> {
    if op.SetOp? && op.api && SetSpec(l, op.key, op.value, op.io).1.Wrote?
    then [Delta(op.key, op.value, SetSpec(l, op.key, op.value, op.io).1.version)]
    else []
  }

  function DoOps(l: Local, ops: seq<HandlerOp>): Local {
    if ops == [] then l else DoOp(DoOps(l, ops[..|ops| - 1]), ops[|ops| - 1])
  }

  function OpsDeltas(l: Local, ops: seq<HandlerOp>): seq<Delta> {
    if ops == [] then []
    else
      var n := |ops| - 1;
      OpsDeltas(l, ops[..n]) + OpDeltas(DoOps(l, ops[..n]), ops[n])
  }

  /** Operation i of the window was a Set, and it landed. */
  predicate LandedAt(l: Local, ops: seq<HandlerOp>, i: nat)
    requires i < |ops| && ops[i].SetOp?
  {
    SetSpec(DoOps(l, ops[..i]), ops[i].key, ops[i].value, ops[i].io).1.Wrote?
  }

  /** A whole delivered signal, as one call. */
  function HandleSpec(l: Local, sig: Signal, ops: seq<HandlerOp>): (Local, bool, seq<Delta>) {
    match Admit(l, sig)
    case Suppress => (l, true, [])
    case Refuse => (l, false, [])
    case Run =>
      var r := Finish(DoOps(Arm(l), ops), sig);
      (r.0, r.1, OpsDeltas(Arm(l), ops))
  }

  // ---- facts about one director ---------------------------------------------------------------

  predicate SameDomain(l: Local) { l.state.Keys == l.versions.Keys }

  /** The failure flag is sticky within a window, and a single op raises it exactly when it is a Set
      that did not land: whatever the handler does with the error, the flag remembers. */
  lemma OpFailureFlag(l: Local, op: HandlerOp)
    ensures DoOp(l, op).writeFailed <==>
            l.writeFailed || (op.SetOp? && !SetSpec(l, op.key, op.value, op.io).1.Wrote?)
  {
  }

  predicate MissedAt(l: Local, ops: seq<HandlerOp>, i: nat) { i < |ops| && ops[i].SetOp? && !LandedAt(l, ops, i) }

  lemma MissedEarlier(l: Local, ops: seq<HandlerOp>, i: nat)
    requires ops != [] && i < |ops| - 1
    ensures MissedAt(l, ops[..|ops| - 1], i) <==> MissedAt(l, ops, i)
  {
    hide DoOps, SetSpec;
    assert ops[..|ops| - 1][..i] == ops[..i];
  }

  lemma {:induction false} FlagMeansMissed(l: Local, ops: seq<HandlerOp>)
    requires !l.writeFailed
    ensures DoOps(l, ops).writeFailed <==> exists i: nat :: MissedAt(l, ops, i)
  {
    if ops != [] {
      hide DoOp, SetSpec;
      var (n, pre) := (|ops| - 1, ops[..|ops| - 1]);
      FlagMeansMissed(l, pre);
      OpFailureFlag(DoOps(l, pre), ops[n]);
      assert MissedAt(l, ops, n) <==>
             ops[n].SetOp? && !SetSpec(DoOps(l, pre), ops[n].key, ops[n].value, ops[n].io).1.Wrote?;
      hide MissedAt, DoOps;
      if i: nat :| MissedAt(l, pre, i) {
        assert i < n by { MissedIsAt(l, pre, i); }
        MissedEarlier(l, ops, i);
      }
      if i: nat :| MissedAt(l, ops, i) && i != n {
        MissedIsAt(l, ops, i);
        MissedEarlier(l, ops, i);
      }
    }
  }

  lemma MissedIsAt(l: Local, ops: seq<HandlerOp>, i: nat)
    requires MissedAt(l, ops, i)
    ensures i < |ops|
  {
  }

  /** A window acks only if every Set in it landed, and a write that failed before the window was
      armed (the tick path) plays no part in it. */
  lemma WindowFailureFlag(l: Local, ops: seq<HandlerOp>)
    ensures DoOps(Arm(l), ops).writeFailed <==>
            exists i :: 0 <= i < |ops| && ops[i].SetOp? && !LandedAt(Arm(l), ops, i)
  {
    hide DoOps, LandedAt;
    FlagMeansMissed(Arm(l), ops);
    if i :| 0 <= i < |ops| && ops[i].SetOp? && !LandedAt(Arm(l), ops, i) {
      assert MissedAt(Arm(l), ops, i);
    }
  }

  /** The tick path cannot leak: two directors that differ only in a stale failure flag decide every
      signal alike. */
  lemma StaleFailureIsIgnored(l: Local, sig: Signal, ops: seq<HandlerOp>)
    ensures HandleSpec(Fail(l), sig, ops).1 == HandleSpec(l, sig, ops).1
    ensures HandleSpec(Fail(l), sig, ops).2 == HandleSpec(l, sig, ops).2
    ensures HandleSpec(l, sig, ops).0.applied == HandleSpec(Fail(l), sig, ops).0.applied
  {
    assert Arm(Fail(l)) == Arm(l);
  }

  /** When a run signal is acked: exactly when no Set of its window failed. */
  lemma AckedIffEveryWriteLanded(l: Local, sig: Signal, ops: seq<HandlerOp>)
    requires Admit(l, sig) == Run
    ensures HandleSpec(l, sig, ops).1 <==>
            forall i :: 0 <= i < |ops| && ops[i].SetOp? ==> LandedAt(Arm(l), ops, i)
  {
    WindowFailureFlag(l, ops);
  }

  /** A redelivery of a signal this director acked after running it is acked without effect, also when the
      director has lost (or regained) leadership since: dedup comes before the leader gate. */
  lemma RedeliveryIsSuppressed(l: Local, sig: Signal, ops: seq<HandlerOp>, again: seq<HandlerOp>, leads: bool)
    requires sig.num.Some? && HandleSpec(l, sig, ops).1
    ensures var later := HandleSpec(l, sig, ops).0.(leader := leads);
            HandleSpec(later, sig, again) == (later, true, [])
  {
  }

  lemma {:induction false} OpsKeepHighWater(l: Local, ops: seq<HandlerOp>)
    ensures DoOps(l, ops).applied == l.applied && DoOps(l, ops).leader == l.leader
  {
    if ops != [] {
      OpsKeepHighWater(l, ops[..|ops| - 1]);
    }
  }

  /** Exactly when a signal is NAKed: it is new here, and either this director does not lead, or some set of
      its handler did not land.  A NAK leaves the high-water alone, so the signal stays new, and a director
      that does not lead is left exactly as it was. */
  lemma NakedIff(l: Local, sig: Signal, ops: seq<HandlerOp>)
    ensures var (after, ack, sent) := HandleSpec(l, sig, ops);
            && (!ack <==> && (sig.num.Some? ==> sig.num.value > HighWater(l, sig.source))
                          && (!l.leader || exists i :: 0 <= i < |ops| && ops[i].SetOp? && !LandedAt(Arm(l), ops, i)))
            && (!ack ==> after.applied == l.applied)
            && (!ack && !l.leader ==> after == l && sent == [])
  {
    hide DoOps, LandedAt;
    WindowFailureFlag(l, ops);
    OpsKeepHighWater(Arm(l), ops);
  }

  // ---- what a read, a set and a signal mean, in terms of the replies ---------------------------

  /** A read: a cached value is returned as it is; otherwise the store's answer decides, and only a value that
      was found is cached. */
  lemma GetMeans(l: Local, key: Key, reply: LoadReply)
    ensures var (after, r) := GetSpec(l, key, reply);
            && (key in l.state ==> r == Hit(l.state[key]) && after == l)
            && (key !in l.state ==>
                  && (r.Hit? <==> reply.Found?) && (r.Unset? <==> reply.Absent?)
                  && (if reply.Found? then
                        && r.value == reply.value
                        && after == l.(state := l.state[key := reply.value],
                           versions := l.versions[key := reply.version])
                      else after == l))
  {
  }

  /** The set makes the load that must come before the first save of a key. */
  predicate NeedsSeed(l: Local, key: Key) { l.leader && key !in l.versions }

  /** The value and version a set leaves cached for its key, if any. */
  ghost predicate CachedAfterSet(l: Local, key: Key, value: Value, io: SetIO, after: Local, r: SetResult) {
    var now := if key in after.state && key in after.versions then Some((after.state[key], after.versions[key]))
      else None;
    if r.Wrote? then now == Some((if value == "" then "null" else value, r.version))
    else if r == CasLost && io.reload.Found? then now == Some((io.reload.value, io.reload.version))
    else if NeedsSeed(l, key) && io.seed.Found? then now == Some((io.seed.value, io.seed.version))
    else
      && (key in after.state <==> key in l.state) && (key in after.versions <==> key in l.versions)
      && (key in l.state ==> after.state[key] == l.state[key])
      && (key in l.versions ==> after.versions[key] == l.versions[key])
  }

  /** Exactly when a set ends in which way, and what it changes. */
  lemma SetMeans(l: Local, key: Key, value: Value, io: SetIO)
    ensures var (after, r) := SetSpec(l, key, value, io);
            var seedFails := NeedsSeed(l, key) && io.seed.LoadError?;
            && (r.NotLeader? <==> !l.leader)
            && (r.StoreFailed? <==>
                  l.leader && (seedFails || io.save.SaveError? || (io.save.Lost? && io.reload.LoadError?)))
            && (r.CasLost? <==> l.leader && !seedFails && io.save.Lost? && !io.reload.LoadError?)
            && (r.Wrote? <==> l.leader && !seedFails && io.save.Saved?)
            && (r.Wrote? ==> r.version == io.save.version)
            && CachedAfterSet(l, key, value, io, after, r)
            && (forall k | k != key ::
                  && (k in after.state <==> k in l.state) && (k in l.state ==> after.state[k] == l.state[k])
                  && (k in after.versions <==> k in l.versions)
                  && (k in l.versions ==> after.versions[k] == l.versions[k]))
            && after.leader == l.leader && after.applied == l.applied
            && after.writeFailed == (l.writeFailed || !r.Wrote?)
  {
  }

  /** Operation i is a set through the script API, and it landed. */
  predicate Announces(l: Local, ops: seq<HandlerOp>, i: nat) {
    i < |ops| && ops[i].SetOp? && ops[i].api && LandedAt(l, ops, i)
  }

  /** One broadcast for each such operation, in their order, with its key and raw value and with the version
      the store gave its save, and no others.  `at` says which operation each broadcast is of. */
  ghost predicate SentFor(l: Local, ops: seq<HandlerOp>, sent: seq<Delta>, at: seq<nat>) {
    && |sent| == |at| && (forall j, k | 0 <= j < k < |at| :: at[j] < at[k])
    && (forall i: nat :: Announces(l, ops, i) <==> i in at)
    && forall j | 0 <= j < |at| ::
         && at[j] < |ops| && ops[at[j]].SetOp? && sent[j].key == ops[at[j]].key && sent[j].value == ops[at[j]].value
         && ops[at[j]].io.save == Saved(sent[j].version)
  }

  lemma AnnouncedEarlier(l: Local, ops: seq<HandlerOp>, i: nat)
    requires ops != [] && i < |ops| - 1
    ensures Announces(l, ops[..|ops| - 1], i) <==> Announces(l, ops, i)
  {
    hide DoOps, SetSpec;
    assert ops[..|ops| - 1][..i] == ops[..i];
  }

  lemma AnnouncedIsOp(l: Local, ops: seq<HandlerOp>, i: nat)
    requires Announces(l, ops, i)
    ensures i < |ops|
  {
  }

  lemma SentNext(l: Local, ops: seq<HandlerOp>, sent: seq<Delta>, at: seq<nat>)
    requires ops != [] && SentFor(l, ops[..|ops| - 1], sent, at)
    requires Announces(l, ops, |ops| - 1) ==> ops[|ops| - 1].SetOp? && ops[|ops| - 1].io.save.Saved?
    ensures var op := ops[|ops| - 1];
            if Announces(l, ops, |ops| - 1)
            then SentFor(l, ops, sent + [Delta(op.key, op.value, op.io.save.version)], at + [|ops| - 1])
            else SentFor(l, ops, sent, at)
  {
    hide Announces;
    var (n, pre) := (|ops| - 1, ops[..|ops| - 1]);
    var after := if Announces(l, ops, n) then at + [n] else at;
    assert forall j | 0 <= j < |at| :: at[j] in at;
    forall i: nat ensures Announces(l, ops, i) <==> i in after {
      if i < n {
        AnnouncedEarlier(l, ops, i);
      } else if i in at {
        assert false;
      } else if Announces(l, ops, i) {
        AnnouncedIsOp(l, ops, i);
      }
    }
  }

  lemma {:induction false} SentByOps(l: Local, ops: seq<HandlerOp>) returns (at: seq<nat>)
    ensures SentFor(l, ops, OpsDeltas(l, ops), at)
  {
    at := [];
    if ops == [] {
      NothingSent(l);
    } else {
      hide SentFor, Announces, OpsDeltas;
      at := SentByOps(l, ops[..|ops| - 1]);
      SetMeansLanded(l, ops, |ops| - 1);
      SentNext(l, ops, OpsDeltas(l, ops[..|ops| - 1]), at);
      if Announces(l, ops, |ops| - 1) {
        at := at + [|ops| - 1];
      }
    }
  }

  lemma NothingSent(l: Local)
    ensures SentFor(l, [], OpsDeltas(l, []), [])
  {
  }

  lemma SetMeansLanded(l: Local, ops: seq<HandlerOp>, n: nat)
    requires |ops| == n + 1
    ensures OpsDeltas(l, ops) == OpsDeltas(l, ops[..n]) +
              if Announces(l, ops, n) then [Delta(ops[n].key, ops[n].value, ops[n].io.save.version)] else []
    ensures Announces(l, ops, n) ==> ops[n].SetOp? && ops[n].io.save.Saved?
  {
    if ops[n].SetOp? {
      SetMeans(DoOps(l, ops[..n]), ops[n].key, ops[n].value, ops[n].io);
    }
  }

  /** The states a window goes through: a get and a set do what GetMeans and SetMeans say, a broadcast nothing. */
  ghost predicate Window(start: Local, ops: seq<HandlerOp>, states: seq<Local>) {
    && |states| == |ops| + 1 && states[0] == start
    && forall i | 0 <= i < |ops| ::
         match ops[i]
         case GetOp(k, reply) => states[i + 1] == GetSpec(states[i], k, reply).0
         case SetOp(k, v, _, io) => states[i + 1] == SetSpec(states[i], k, v, io).0
         case BroadcastOp => states[i + 1] == states[i]
  }

  lemma WindowStates(start: Local, ops: seq<HandlerOp>) returns (states: seq<Local>)
    ensures Window(start, ops, states) && states[|ops|] == DoOps(start, ops)
    ensures forall i | 0 <= i < |ops| && ops[i].SetOp? ::
              LandedAt(start, ops, i) <==> SetSpec(states[i], ops[i].key, ops[i].value, ops[i].io).1.Wrote?
  {
    hide GetSpec, SetSpec;
    states := seq(|ops| + 1, i requires 0 <= i <= |ops| => DoOps(start, ops[..i]));
    assert ops[..|ops|] == ops;
    forall i | 0 <= i < |ops| ensures states[i + 1] == DoOp(states[i], ops[i]) {
      assert ops[..i + 1][..i] == ops[..i] && ops[..i + 1][i] == ops[i];
    }
  }

  /** A whole signal.  An old number is acked without effect, whoever leads; a new one is refused without effect
      by a director that does not lead, and run by one that does.  The run acks exactly if every set landed;
      then the source's high-water is the signal's number, and otherwise no high-water moves.  It broadcasts
      its landed API sets. */
  lemma SignalMeans(l: Local, sig: Signal, ops: seq<HandlerOp>) returns (states: seq<Local>, at: seq<nat>)
    ensures Window(l.(writeFailed := false), ops, states)
    ensures var (after, ack, sent) := HandleSpec(l, sig, ops);
            var known := if sig.source in l.applied then l.applied[sig.source] else 0;
            if sig.num.Some? && sig.num.value <= known then (after, ack, sent) == (l, true, [])
            else if !l.leader then (after, ack, sent) == (l, false, [])
            else
              && (ack <==> forall i | 0 <= i < |ops| && ops[i].SetOp? ::
                             SetSpec(states[i], ops[i].key, ops[i].value, ops[i].io).1.Wrote?)
              && SentFor(l.(writeFailed := false), ops, sent, at)
              && (forall i: nat | i < |ops| && ops[i].SetOp? ::
                    LandedAt(l.(writeFailed := false), ops, i) <==>
                    SetSpec(states[i], ops[i].key, ops[i].value, ops[i].io).1.Wrote?)
              && after == states[|ops|].(applied := after.applied)
              && after.applied == (if ack && sig.num.Some? then l.applied[sig.source := sig.num.value] else l.applied)
  {
    states := WindowStates(Arm(l), ops);
    at := [];
    hide SetSpec, DoOps, LandedAt, Window;
    if Admit(l, sig) == Run {
      at := SentByOps(Arm(l), ops);
      WindowFailureFlag(l, ops);
      OpsKeepHighWater(Arm(l), ops);
    }
  }
}
