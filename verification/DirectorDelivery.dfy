/**
  Apply-once and no-silent-consumption for the durable signal stream, over every interleaving of
  deliveries, ack timeouts, stale inbox copies, failovers, crashes and re-promotions, for a consumer that
  has one message outstanding at a time (MaxAckPending = 1) or never redelivers.  DirectorHazards shows
  that every other consumer can lose a signal.
*/
module DirectorDelivery {
  import opened Basics
  import opened DirectorCore
  import opened ScopeStore
  import opened DirectorProtocol
  import opened DirectorCache

  /** Per-source sequence numbers increase in stream order. */
  predicate StreamOk(stream: seq<Signal>) {
    forall i, j | 0 <= i < j < |stream| && stream[i].source == stream[j].source
                  && stream[i].num.Some? && stream[j].num.Some? ::
      stream[i].num.value < stream[j].num.value
  }

  /** No message can overtake another: at most one is outstanding, or none is ever delivered twice. */
  predicate CannotOvertake(b: Broker) { b.cap <= 1 || b.budget <= 1 }

  /** Number 0 is below every high-water, the empty one included. */
  predicate IsZero(sig: Signal) { sig.num == Some(0) }

  predicate BrokerOk(b: Broker) {
    && StreamOk(b.stream)
    && b.front <= |b.stream|
    && (forall i | i in b.done :: i < b.front)
    && (b.cap <= 1 ==> forall i | 0 <= i < b.front - 1 :: i in b.done)
    && (forall t | t in b.waiting :: t < b.nextToken && b.waiting[t] < b.front)
  }

  /** The inbox is in stream order, nothing in it is ahead of the broker, and everything this session
      has already applied is at or before everything it still has to look at. */
  predicate OrderOk(b: Broker, dir: Dir) {
    && (forall p | 0 <= p < |dir.inbox| :: dir.inbox[p].idx < b.front)
    && (forall p, q | 0 <= p < q < |dir.inbox| :: dir.inbox[p].idx <= dir.inbox[q].idx)
    && (forall i | i in dir.seen :: i < b.front)
    && (forall i, p | i in dir.seen && 0 <= p < |dir.inbox| :: i <= dir.inbox[p].idx)
    && (dir.pc.Busy? && dir.pc.work.OnSignal? ==>
          && dir.pc.work.idx < b.front
          && (forall p | 0 <= p < |dir.inbox| :: dir.pc.work.idx <= dir.inbox[p].idx)
          && (forall i | i in dir.seen :: i <= dir.pc.work.idx))
  }

  predicate TokenOk(b: Broker, t: nat, idx: nat) {
    t < b.nextToken && (t in b.waiting ==> b.waiting[t] == idx)
  }

  predicate TokensOk(b: Broker, dir: Dir) {
    && (forall p | 0 <= p < |dir.inbox| :: TokenOk(b, dir.inbox[p].token, dir.inbox[p].idx))
    && (dir.pc.Busy? && dir.pc.work.OnSignal? ==> TokenOk(b, dir.pc.work.token, dir.pc.work.idx))
  }

  /** The high-water of a source is the sequence number of a signal this session applied. */
  predicate Reached(stream: seq<Signal>, seen: set<nat>, source: Source, num: nat) {
    exists i :: i in seen && i < |stream| && stream[i].source == source && stream[i].num == Some(num)
  }

  predicate DedupOk(b: Broker, clean: map<nat, SignalRun>, dir: Dir) {
    && (forall i | i in dir.seen :: i in clean && i < |b.stream|)
    && (forall i | i in dir.seen && i < |b.stream| && b.stream[i].num.Some? ::
          b.stream[i].num.value <= HighWater(dir.local, b.stream[i].source))
    && (forall src | src in dir.local.applied :: Reached(b.stream, dir.seen, src, dir.local.applied[src]))
    && (dir.pc.Busy? ==> dir.pc.start.applied == dir.local.applied && dir.pc.start.leader == dir.local.leader)
    && (dir.pc.Busy? && dir.pc.work.OnSignal? && dir.pc.work.idx < |b.stream| ==>
          Admit(dir.pc.start, b.stream[dir.pc.work.idx]) == Run)
  }

  /** An acked run: as one HandleSignal call it ran the handler and acked, on replies the store gave. */
  predicate CleanRun(st: Store, sig: Signal, r: SignalRun) {
    && Admit(r.start, sig) == Run
    && HandleSpec(r.start, sig, r.ops).1
    && OpsReal(st, r.ops)
  }

  predicate CleanOk(st: Store, stream: seq<Signal>, clean: map<nat, SignalRun>) {
    forall i | i in clean :: i < |stream| && CleanRun(st, stream[i], clean[i])
  }

  /** The signal may be acked: it has an acked run, or it is numbered 0. */
  predicate Settled(b: Broker, clean: map<nat, SignalRun>, i: nat) {
    i in clean || (i < |b.stream| && IsZero(b.stream[i]))
  }

  predicate RepliesOk(b: Broker, clean: map<nat, SignalRun>) {
    && (forall t | t in b.replies :: t < b.nextToken)
    && (forall t | t in b.waiting && t in b.replies && b.replies[t] :: Settled(b, clean, b.waiting[t]))
  }

  predicate Accounted(b: Broker, clean: map<nat, SignalRun>, i: nat) {
    i in b.parked || (i < |b.stream| && b.stream[i].malformed) || Settled(b, clean, i)
  }

  predicate DoneOk(b: Broker, clean: map<nat, SignalRun>) {
    forall i | i in b.done :: Accounted(b, clean, i)
  }

  predicate DirDeliveryOk(b: Broker, clean: map<nat, SignalRun>, dir: Dir) {
    OrderOk(b, dir) && TokensOk(b, dir) && DedupOk(b, clean, dir)
  }

  predicate SharedOk(s: Sys) {
    && CannotOvertake(s.broker)
    && BrokerOk(s.broker)
    && RepliesOk(s.broker, s.clean)
    && DoneOk(s.broker, s.clean)
    && CleanOk(s.store, s.broker.stream, s.clean)
  }

  predicate DirsOk(s: Sys) {
    forall d | d in s.dirs :: DirDeliveryOk(s.broker, s.clean, s.dirs[d])
  }

  predicate DeliveryInv(s: Sys) { SharedOk(s) && DirsOk(s) }

  // ---- the central fact -----------------------------------------------------------------------

  /** The high-water answers exactly like a full seen-set, for the message the actor looks at next. */
  lemma HighWaterIsSeenSet(b: Broker, clean: map<nat, SignalRun>, dir: Dir)
    requires StreamOk(b.stream) && DirDeliveryOk(b, clean, dir)
    requires dir.inbox != [] && dir.inbox[0].idx < |b.stream|
    ensures var sig := b.stream[dir.inbox[0].idx];
            Admit(dir.local, sig) == Suppress <==> sig.num.Some? && (dir.inbox[0].idx in dir.seen || IsZero(sig))
    ensures dir.inbox[0].idx in dir.seen ==> dir.inbox[0].idx in clean
  {
    var m := dir.inbox[0].idx;
    var sig := b.stream[m];
    if Admit(dir.local, sig) == Suppress && !IsZero(sig) {
      assert sig.source in dir.local.applied;
      var i :| i in dir.seen && i < |b.stream| && b.stream[i].source == sig.source
               && b.stream[i].num == Some(dir.local.applied[sig.source]);
      assert i <= m;
      assert !(i < m);
    }
  }

  // ---- frames: what the rest of the system may do under a director ----------------------------

  /** How the broker can move: the stream and the front grow, tokens are fresh. */
  predicate BrokerMoves(b: Broker, b': Broker) {
    && b.stream <= b'.stream && b.front <= b'.front && b.nextToken <= b'.nextToken
    && (forall t | t in b'.waiting :: t >= b.nextToken || (t in b.waiting && b'.waiting[t] == b.waiting[t]))
  }

  lemma ReachedStays(stream: seq<Signal>, stream': seq<Signal>, seen: set<nat>, seen': set<nat>, src: Source, num: nat)
    requires stream <= stream' && seen <= seen' && Reached(stream, seen, src, num)
    ensures Reached(stream', seen', src, num)
  {
    var i :| i in seen && i < |stream| && stream[i].source == src && stream[i].num == Some(num);
    assert i in seen' && stream'[i] == stream[i];
  }

  lemma DedupFrame(b: Broker, b': Broker, clean: map<nat, SignalRun>, clean': map<nat, SignalRun>, dir: Dir)
    requires DedupOk(b, clean, dir) && OrderOk(b, dir) && b.front <= |b.stream|
    requires b.stream <= b'.stream && clean.Keys <= clean'.Keys
    ensures DedupOk(b', clean', dir)
  {
    forall i | i in dir.seen ensures i in clean' && i < |b'.stream| && b'.stream[i] == b.stream[i] {
      assert i in clean.Keys;
    }
    forall src | src in dir.local.applied
      ensures Reached(b'.stream, dir.seen, src, dir.local.applied[src])
    {
      ReachedStays(b.stream, b'.stream, dir.seen, dir.seen, src, dir.local.applied[src]);
    }
    if dir.pc.Busy? && dir.pc.work.OnSignal? {
      assert b'.stream[dir.pc.work.idx] == b.stream[dir.pc.work.idx];
    }
  }

  lemma DirFrame(b: Broker, b': Broker, clean: map<nat, SignalRun>, clean': map<nat, SignalRun>, dir: Dir)
    requires DirDeliveryOk(b, clean, dir) && b.front <= |b.stream|
    requires BrokerMoves(b, b') && clean.Keys <= clean'.Keys
    ensures DirDeliveryOk(b', clean', dir)
  {
    DedupFrame(b, b', clean, clean', dir);
    assert OrderOk(b', dir);
    forall p | 0 <= p < |dir.inbox| ensures TokenOk(b', dir.inbox[p].token, dir.inbox[p].idx) {
      assert TokenOk(b, dir.inbox[p].token, dir.inbox[p].idx);
    }
  }

  lemma CleanFrame(st: Store, st': Store, stream: seq<Signal>, stream': seq<Signal>, clean: map<nat, SignalRun>)
    requires CleanOk(st, stream, clean) && Grows(st, st') && stream <= stream'
    ensures CleanOk(st', stream', clean)
  {
    forall i | i in clean ensures i < |stream'| && CleanRun(st', stream'[i], clean[i]) {
      assert stream'[i] == stream[i] && CleanRun(st, stream[i], clean[i]);
      RealStaysReal(st, st', clean[i].start, clean[i].ops);
    }
  }

  /** A step moves at most one director; the others are framed. */
  lemma DirsFrame(s: Sys, s': Sys, d: nat)
    requires DirsOk(s) && s.broker.front <= |s.broker.stream|
    requires BrokerMoves(s.broker, s'.broker) && s.clean.Keys <= s'.clean.Keys
    requires forall e | e in s'.dirs :: e in s.dirs && (e != d ==> s'.dirs[e] == s.dirs[e])
    requires d in s'.dirs ==> DirDeliveryOk(s'.broker, s'.clean, s'.dirs[d])
    ensures DirsOk(s')
  {
    forall e | e in s'.dirs ensures DirDeliveryOk(s'.broker, s'.clean, s'.dirs[e]) {
      if e != d {
        DirFrame(s.broker, s'.broker, s.clean, s'.clean, s.dirs[e]);
      }
    }
  }

  // ---- every step keeps it --------------------------------------------------------------------

  lemma PublishKeeps(s: Sys, sig: Signal)
    requires DeliveryInv(s) && Enabled(s, Publish(sig))
    ensures DeliveryInv(Apply(s, Publish(sig)))
  {
    var s' := Apply(s, Publish(sig));
    CleanFrame(s.store, s'.store, s.broker.stream, s'.broker.stream, s.clean);
    forall i | i in s'.broker.done ensures Accounted(s'.broker, s'.clean, i) {
      assert Accounted(s.broker, s.clean, i);
    }
    forall d | d in s'.dirs ensures DirDeliveryOk(s'.broker, s'.clean, s'.dirs[d]) {
      DirFrame(s.broker, s'.broker, s.clean, s'.clean, s.dirs[d]);
    }
  }

  /** Posting a copy keeps the inbox in stream order, because the copy is of the newest signal. */
  lemma PostKeeps(b: Broker, b': Broker, clean: map<nat, SignalRun>, dir: Dir, i: nat)
    requires DirDeliveryOk(b, clean, dir) && b.front <= |b.stream| && BrokerMoves(b, b')
    requires i == b'.front - 1 && b'.nextToken == b.nextToken + 1
    requires b.nextToken in b'.waiting && b'.waiting[b.nextToken] == i
    ensures DirDeliveryOk(b', clean, dir.(inbox := dir.inbox + [InMsg(i, b.nextToken)]))
  {
    DirFrame(b, b', clean, clean, dir);
    var dir' := dir.(inbox := dir.inbox + [InMsg(i, b.nextToken)]);
    assert OrderOk(b', dir');
    forall p | 0 <= p < |dir'.inbox| ensures TokenOk(b', dir'.inbox[p].token, dir'.inbox[p].idx) {
      assert p < |dir.inbox| ==> TokenOk(b', dir.inbox[p].token, dir.inbox[p].idx);
    }
  }

  /** Handing out the newest signal, to a callback or, when it is malformed, to nobody. */
  lemma HandBroker(s: Sys, d: nat, i: nat, b: Broker)
    requires BrokerOk(s.broker) && d in s.dirs
    requires b == s.broker.(front := b.front, attempts := b.attempts)
    requires s.broker.front <= b.front <= |b.stream| && i == b.front - 1
    requires b.cap <= 1 ==> forall j | 0 <= j < b.front - 1 :: j in s.broker.done
    ensures BrokerOk(Hand(s, d, i, b).broker) && BrokerMoves(s.broker, Hand(s, d, i, b).broker)
  {
    hide StreamOk;
  }

  lemma HandDone(s: Sys, d: nat, i: nat, b: Broker)
    requires DoneOk(s.broker, s.clean) && d in s.dirs && i < |b.stream|
    requires b == s.broker.(front := b.front, attempts := b.attempts)
    ensures DoneOk(Hand(s, d, i, b).broker, s.clean)
  {
    var s' := Hand(s, d, i, b);
    forall k | k in s'.broker.done ensures Accounted(s'.broker, s.clean, k) {
      assert k in s.broker.done ==> Accounted(s.broker, s.clean, k);
    }
  }

  lemma HandReplies(s: Sys, d: nat, i: nat, b: Broker)
    requires RepliesOk(s.broker, s.clean) && d in s.dirs && i < |b.stream|
    requires b == s.broker.(front := b.front, attempts := b.attempts)
    ensures RepliesOk(Hand(s, d, i, b).broker, s.clean)
  {
    var b' := Hand(s, d, i, b).broker;
    forall t | t in b'.waiting && t in b'.replies && b'.replies[t] ensures Settled(b', s.clean, b'.waiting[t]) {
      assert Settled(s.broker, s.clean, s.broker.waiting[t]);
    }
  }

  lemma HandShared(s: Sys, d: nat, i: nat, b: Broker)
    requires SharedOk(s) && d in s.dirs
    requires b == s.broker.(front := b.front, attempts := b.attempts)
    requires s.broker.front <= b.front <= |b.stream| && i == b.front - 1
    requires b.cap <= 1 ==> forall j | 0 <= j < b.front - 1 :: j in s.broker.done
    ensures SharedOk(Hand(s, d, i, b))
    ensures BrokerMoves(s.broker, Hand(s, d, i, b).broker)
  {
    hide CleanOk, BrokerOk, DoneOk, RepliesOk, BrokerMoves;
    HandBroker(s, d, i, b);
    HandDone(s, d, i, b);
    HandReplies(s, d, i, b);
  }

  /** What is handed out is never before anything already handled. */
  lemma HandKeeps(s: Sys, d: nat, i: nat, b: Broker)
    requires DeliveryInv(s) && d in s.dirs
    requires b == s.broker.(front := b.front, attempts := b.attempts)
    requires s.broker.front <= b.front <= |b.stream| && i == b.front - 1
    requires b.cap <= 1 ==> forall j | 0 <= j < b.front - 1 :: j in s.broker.done
    ensures DeliveryInv(Hand(s, d, i, b))
  {
    hide OrderOk, TokensOk, DedupOk;
    var s' := Hand(s, d, i, b);
    HandShared(s, d, i, b);
    assert DirDeliveryOk(s.broker, s.clean, s.dirs[d]);
    if b.stream[i].malformed {
      DirFrame(s.broker, s'.broker, s.clean, s'.clean, s.dirs[d]);
    } else {
      PostKeeps(s.broker, s'.broker, s.clean, s.dirs[d], i);
    }
    DirsFrame(s, s', d);
  }

  lemma AllResolved(b: Broker)
    requires |Unresolved(b)| == 0
    ensures forall j | 0 <= j < b.front :: j in b.done
  {
    assert Unresolved(b) == {};
    forall j | 0 <= j < b.front ensures j in b.done {
      assert j !in Unresolved(b);
    }
  }

  lemma DeliverKeeps(s: Sys, d: nat)
    requires DeliveryInv(s) && Enabled(s, Deliver(d))
    ensures DeliveryInv(Apply(s, Deliver(d)))
  {
    hide OrderOk, TokensOk, DedupOk;
    var b := s.broker;
    if b.cap <= 1 {
      AllResolved(b);
    }
    HandKeeps(s, d, b.front, b.(front := b.front + 1, attempts := b.attempts[b.front := 1]));
  }

  lemma RedeliverKeeps(s: Sys, d: nat, i: nat)
    requires DeliveryInv(s) && d in s.dirs && i < s.broker.front && i !in s.broker.done && i in s.broker.attempts
    requires BudgetOk(s.broker) && s.broker.attempts[i] < s.broker.budget
    ensures i < |s.broker.stream| && DeliveryInv(HandAgain(s, d, i))
  {
    hide OrderOk, TokensOk, DedupOk;
    HandKeeps(s, d, i, s.broker.(attempts := s.broker.attempts[i := s.broker.attempts[i] + 1]));
  }

  /** A bookkeeping step of the broker: callbacks may disappear and accounted signals may be resolved. */
  predicate Resolves(b: Broker, b': Broker, clean: map<nat, SignalRun>) {
    && b' == b.(waiting := b'.waiting, inflight := b'.inflight, done := b'.done, parked := b'.parked)
    && (forall t | t in b'.waiting :: t in b.waiting && b'.waiting[t] == b.waiting[t])
    && b.done <= b'.done && b.parked <= b'.parked
    && (forall i | i in b'.done && i !in b.done :: i < b.front && (i in b'.parked || Settled(b, clean, i)))
  }

  lemma ResolveKeeps(s: Sys, b': Broker)
    requires DeliveryInv(s) && Resolves(s.broker, b', s.clean)
    ensures DeliveryInv(s.(broker := b'))
  {
    var b, s' := s.broker, s.(broker := b');
    forall i | i in b'.done ensures Accounted(b', s'.clean, i) {
      assert i in b.done ==> Accounted(b, s.clean, i);
    }
    assert BrokerOk(b') && RepliesOk(b', s.clean);
    forall d | d in s'.dirs ensures DirDeliveryOk(b', s'.clean, s'.dirs[d]) {
      DirFrame(b, b', s.clean, s'.clean, s.dirs[d]);
    }
  }

  /** Expiry, relay, timeout and park only touch the broker's bookkeeping. */
  lemma SettleKeeps(s: Sys, t: nat, ok: bool)
    requires DeliveryInv(s) && t in s.broker.waiting && (ok ==> t in s.broker.replies && s.broker.replies[t])
    ensures DeliveryInv(s.(broker := Settle(s.broker, t, ok)))
  {
    ResolveKeeps(s, Settle(s.broker, t, ok));
  }

  lemma ExpireKeeps(s: Sys, i: nat)
    requires DeliveryInv(s)
    ensures DeliveryInv(s.(broker := s.broker.(inflight := s.broker.inflight - {i})))
  {
    ResolveKeeps(s, s.broker.(inflight := s.broker.inflight - {i}));
  }

  lemma ParkKeeps(s: Sys, i: nat)
    requires DeliveryInv(s) && i < s.broker.front
    ensures DeliveryInv(s.(broker := ParkAt(s.broker, i)))
  {
    ResolveKeeps(s, ParkAt(s.broker, i));
  }

  /** Popping the head of the inbox, into a window or not. */
  lemma PopKeeps(b: Broker, clean: map<nat, SignalRun>, dir: Dir)
    requires DirDeliveryOk(b, clean, dir) && dir.pc.Idle? && dir.inbox != []
    ensures DirDeliveryOk(b, clean, dir.(inbox := dir.inbox[1..]))
    ensures dir.inbox[0].idx < |b.stream| && Admit(dir.local, b.stream[dir.inbox[0].idx]) == Run ==>
              DirDeliveryOk(b, clean,
                dir.(inbox := dir.inbox[1..], local := Arm(dir.local),
                     pc := Busy(OnSignal(dir.inbox[0].idx, dir.inbox[0].token), dir.local, [], NoSet)))
  {
    var rest := dir.inbox[1..];
    assert forall p | 0 <= p < |rest| :: rest[p] == dir.inbox[p + 1];
    assert TokenOk(b, dir.inbox[0].token, dir.inbox[0].idx);
  }

  lemma AnswerKeeps(b: Broker, clean: map<nat, SignalRun>, t: nat, idx: nat, ok: bool)
    requires RepliesOk(b, clean) && TokenOk(b, t, idx) && (ok ==> Settled(b, clean, idx))
    ensures RepliesOk(Answer(b, t, ok), clean)
  {
  }

  lemma TakeAnswers(s: Sys, d: nat)
    requires SharedOk(s) && Enabled(s, Take(d)) && DirDeliveryOk(s.broker, s.clean, s.dirs[d])
    ensures var s' := TakeSignal(s, d);
            && RepliesOk(s'.broker, s'.clean) && s'.broker == s.broker.(replies := s'.broker.replies)
            && s'.clean == s.clean && s'.store == s.store && s'.dirs == s.dirs[d := s'.dirs[d]]
  {
    hide DedupOk, CleanOk, DoneOk, Reached, OrderOk;
    var dir := s.dirs[d];
    HighWaterIsSeenSet(s.broker, s.clean, dir);
    var m := dir.inbox[0];
    assert TokenOk(s.broker, m.token, m.idx);
    match Admit(dir.local, s.broker.stream[m.idx]) {
      case Suppress => AnswerKeeps(s.broker, s.clean, m.token, m.idx, true);
      case Refuse => AnswerKeeps(s.broker, s.clean, m.token, m.idx, false);
      case Run =>
    }
  }

  lemma TakeDelivers(s: Sys, d: nat)
    requires DeliveryInv(s) && Enabled(s, Take(d))
    ensures DeliveryInv(TakeSignal(s, d))
  {
    hide DedupOk, CleanOk, DoneOk, Reached, OrderOk, TokensOk, RepliesOk;
    var dir := s.dirs[d];
    assert DirDeliveryOk(s.broker, s.clean, dir);
    TakeAnswers(s, d);
    PopKeeps(s.broker, s.clean, dir);
    var s' := TakeSignal(s, d);
    AnsweredShared(s, s');
    DirFrame(s.broker, s'.broker, s.clean, s'.clean, s'.dirs[d]);
    DirsFrame(s, s', d);
  }

  /** The shared part survives a recorded answer, a grown store and a new clean run. */
  lemma AnsweredShared(s: Sys, s': Sys)
    requires SharedOk(s) && Grows(s.store, s'.store) && s.clean.Keys <= s'.clean.Keys
    requires s'.broker == s.broker.(replies := s'.broker.replies)
    requires RepliesOk(s'.broker, s'.clean)
    requires s'.clean == s.clean || CleanOk(s'.store, s.broker.stream, s'.clean)
    ensures SharedOk(s')
  {
    if s'.clean == s.clean {
      CleanFrame(s.store, s'.store, s.broker.stream, s'.broker.stream, s.clean);
    }
    forall i | i in s'.broker.done ensures Accounted(s'.broker, s'.clean, i) {
      assert Accounted(s.broker, s.clean, i);
      assert i in s.clean ==> i in s.clean.Keys;
    }
  }

  /** Finishing a window that acks: the signal joins the seen-set and the high-water rises to it. */
  lemma FinishKeepsDedup(b: Broker, clean: map<nat, SignalRun>, clean': map<nat, SignalRun>, dir: Dir)
    requires DirDeliveryOk(b, clean, dir) && b.front <= |b.stream| && clean.Keys <= clean'.Keys
    requires dir.pc.Busy? && dir.pc.work.OnSignal? && dir.pc.work.idx in clean'
    ensures dir.pc.work.idx < |b.stream|
    ensures DirDeliveryOk(b, clean',
              dir.(local := Raise(dir.local, b.stream[dir.pc.work.idx]), pc := Idle,
                seen := dir.seen + {dir.pc.work.idx}))
  {
    hide StreamOk;
    DedupFrame(b, b, clean, clean', dir);
    RaisedKeepsDedup(b, clean', dir);
    var dir' := dir.(local := Raise(dir.local, b.stream[dir.pc.work.idx]), pc := Idle,
      seen := dir.seen + {dir.pc.work.idx});
    hide DedupOk;
    assert OrderOk(b, dir') && TokensOk(b, dir');
  }

  lemma RaisedKeepsDedup(b: Broker, clean: map<nat, SignalRun>, dir: Dir)
    requires DedupOk(b, clean, dir) && dir.pc.Busy? && dir.pc.work.OnSignal? && dir.pc.work.idx in clean
             && dir.pc.work.idx < |b.stream|
    ensures DedupOk(b, clean, dir.(local := Raise(dir.local, b.stream[dir.pc.work.idx]), pc := Idle,
            seen := dir.seen + {dir.pc.work.idx}))
  {
    var idx := dir.pc.work.idx;
    var sig := b.stream[idx];
    var dir' := dir.(local := Raise(dir.local, sig), pc := Idle, seen := dir.seen + {idx});
    forall src | src in dir'.local.applied
      ensures Reached(b.stream, dir'.seen, src, dir'.local.applied[src])
    {
      if src in dir.local.applied && dir'.local.applied[src] == dir.local.applied[src] {
        ReachedStays(b.stream, b.stream, dir.seen, dir'.seen, src, dir.local.applied[src]);
      } else {
        assert idx in dir'.seen && sig.source == src && sig.num == Some(dir'.local.applied[src]);
      }
    }
  }

  /** The window that ends with an ack is a clean run of its signal. */
  lemma AckedWindowIsClean(st: Store, b: Broker, clean: map<nat, SignalRun>, dir: Dir)
    requires DirOk(st, dir) && DedupOk(b, clean, dir)
    requires dir.pc.Busy? && dir.pc.work.OnSignal? && dir.pc.work.idx < |b.stream|
    requires Finish(dir.local, b.stream[dir.pc.work.idx]).1
    ensures CleanRun(st, b.stream[dir.pc.work.idx], SignalRun(dir.pc.start, dir.pc.ops))
  {
  }

  lemma AckedShared(s: Sys, s': Sys, d: nat)
    requires CacheInv(s) && DeliveryInv(s) && Enabled(s, EndWork(d)) && s.dirs[d].pc.work.OnSignal?
    requires !s.dirs[d].local.writeFailed
    requires s'.broker == Answer(s.broker, s.dirs[d].pc.work.token, true) && s'.store == s.store
    requires s'.clean == s.clean[s.dirs[d].pc.work.idx := SignalRun(s.dirs[d].pc.start, s.dirs[d].pc.ops)]
    ensures SharedOk(s')
  {
    hide OrderOk, DoneOk;
    var dir := s.dirs[d];
    assert DirDeliveryOk(s.broker, s.clean, dir) && DirOk(s.store, dir);
    AckedWindowIsClean(s.store, s.broker, s.clean, dir);
    RepliesGrow(s.broker, s.clean, s'.clean);
    AnswerKeeps(s.broker, s'.clean, dir.pc.work.token, dir.pc.work.idx, true);
    AnsweredShared(s, s');
  }

  lemma AckedEnd(s: Sys, d: nat)
    requires CacheInv(s) && DeliveryInv(s) && Enabled(s, EndWork(d)) && s.dirs[d].pc.work.OnSignal?
    requires !s.dirs[d].local.writeFailed
    ensures DeliveryInv(EndStep(s, d))
  {
    hide OrderOk, TokensOk, DedupOk, CacheInv, CleanOk, RepliesOk, DoneOk, DoOps;
    var s' := EndStep(s, d);
    AckedShared(s, s', d);
    var dir := s.dirs[d];
    assert DirDeliveryOk(s.broker, s.clean, dir);
    FinishKeepsDedup(s.broker, s.clean, s'.clean, dir);
    DirFrame(s.broker, s'.broker, s'.clean, s'.clean, s'.dirs[d]);
    DirsFrame(s, s', d);
  }

  lemma UnackedEnd(s: Sys, d: nat)
    requires DeliveryInv(s) && Enabled(s, EndWork(d))
    requires s.dirs[d].pc.work.OnSignal? ==> s.dirs[d].local.writeFailed
    ensures DeliveryInv(EndStep(s, d))
  {
    hide OrderOk, DedupOk, CleanOk, DoneOk;
    var dir := s.dirs[d];
    assert DirDeliveryOk(s.broker, s.clean, dir);
    var s' := EndStep(s, d);
    EndWithoutAck(s.broker, s.clean, dir, dir.local);
    if dir.pc.work.OnSignal? {
      AnswerKeeps(s.broker, s.clean, dir.pc.work.token, dir.pc.work.idx, false);
    }
    DirFrame(s.broker, s'.broker, s.clean, s'.clean, dir.(pc := Idle));
    AnsweredShared(s, s');
    DirsFrame(s, s', d);
  }

  lemma RepliesGrow(b: Broker, clean: map<nat, SignalRun>, clean': map<nat, SignalRun>)
    requires RepliesOk(b, clean) && clean.Keys <= clean'.Keys
    ensures RepliesOk(b, clean')
  {
    forall t | t in b.waiting && t in b.replies && b.replies[t] ensures Settled(b, clean', b.waiting[t]) {
      assert Settled(b, clean, b.waiting[t]) && (b.waiting[t] in clean ==> b.waiting[t] in clean.Keys);
    }
  }

  /** Leaving or entering a window, or changing the flag between windows, keeps a director in order. */
  lemma EndWithoutAck(b: Broker, clean: map<nat, SignalRun>, dir: Dir, l: Local)
    requires DirDeliveryOk(b, clean, dir) && l.applied == dir.local.applied
    ensures DirDeliveryOk(b, clean, dir.(pc := Idle, local := l))
    ensures forall work: Work | !work.OnSignal? :: DirDeliveryOk(b, clean, dir.(pc := Busy(work, dir.local, [], NoSet)))
  {
  }

  /** Inside a window only the cache, the operations done and the pending set move. */
  predicate WindowMoves(s: Sys, s': Sys, d: nat) {
    && s'.broker == s.broker && s'.clean == s.clean
    && d in s.dirs && d in s'.dirs && s'.dirs == s.dirs[d := s'.dirs[d]]
    && var (dir, dir') := (s.dirs[d], s'.dirs[d]);
       && dir.pc.Busy? && dir'.pc.Busy?
       && dir' == dir.(local := dir'.local, pc := dir'.pc)
       && dir'.pc == dir.pc.(ops := dir'.pc.ops, pending := dir'.pc.pending)
       && dir'.local.applied == dir.local.applied && dir'.local.leader == dir.local.leader
  }

  lemma CompleteShape(s: Sys, d: nat, op: HandlerOp)
    requires d in s.dirs && s.dirs[d].pc.Busy?
    ensures WindowMoves(s, Complete(s, d, op), d)
  {
  }

  lemma SaveShape(s: Sys, d: nat, fault: Fault)
    requires AtSet(s, d) && s.dirs[d].pc.pending.stage.Saving?
    ensures WindowMoves(s, SaveStep(s, d, fault), d)
  {
    var (p, saved) := (s.dirs[d].pc.pending, SaveOf(s, d));
    var lost := SetOp(p.key, p.value, p.api, SetIO(p.stage.seed, SaveError, Absent));
    match fault {
      case ErrorBefore => CompleteShape(s, d, lost);
      case ErrorAfter => StoredShape(s, saved.0, d, lost);
      case Fine =>
        StoredShape(s, saved.0, d, SetOp(p.key, p.value, p.api, SetIO(p.stage.seed, saved.1, Absent)));
    }
  }

  lemma StoredShape(s: Sys, st: Store, d: nat, op: HandlerOp)
    requires d in s.dirs && s.dirs[d].pc.Busy?
    ensures WindowMoves(s, Complete(s.(store := st), d, op), d)
  {
    hide Complete;
    CompleteShape(s.(store := st), d, op);
  }

  lemma WorkShape(s: Sys, step: Step)
    requires Enabled(s, step)
    requires step.DoGet? || step.DoSet? || step.SeedLoad? || step.CasSave? || step.LossReload?
    ensures WindowMoves(s, Apply(s, step), step.d)
  {
    match step {
      case DoGet(d, key, failed) =>
        CompleteShape(s, d, GetOp(key, if failed then LoadError else Load(s.store, key)));
      case DoSet(d, key, value, api) =>
        CompleteShape(s, d, SetOp(key, value, api, SetIO(Absent, Lost, Absent)));
      case SeedLoad(d, failed) =>
        var p := s.dirs[d].pc.pending;
        CompleteShape(s, d, SetOp(p.key, p.value, p.api, SetIO(LoadError, Lost, Absent)));
      case CasSave(d, fault) => SaveShape(s, d, fault);
      case LossReload(d, failed) =>
        var p := s.dirs[d].pc.pending;
        CompleteShape(s, d, SetOp(p.key, p.value, p.api,
                                  SetIO(p.stage.seed, Lost, if failed then LoadError else Load(s.store, p.key))));
    }
  }

  lemma WindowDir(b: Broker, clean: map<nat, SignalRun>, dir: Dir, dir': Dir)
    requires DirDeliveryOk(b, clean, dir) && dir.pc.Busy? && dir'.pc.Busy?
    requires dir' == dir.(local := dir'.local, pc := dir'.pc)
    requires dir'.pc == dir.pc.(ops := dir'.pc.ops, pending := dir'.pc.pending)
    requires dir'.local.applied == dir.local.applied && dir'.local.leader == dir.local.leader
    ensures DirDeliveryOk(b, clean, dir')
  {
  }

  lemma WindowDelivers(s: Sys, s': Sys, d: nat)
    requires DeliveryInv(s) && WindowMoves(s, s', d) && Grows(s.store, s'.store)
    ensures DeliveryInv(s')
  {
    hide OrderOk, TokensOk, DedupOk, CleanOk, DoneOk;
    assert DirDeliveryOk(s.broker, s.clean, s.dirs[d]);
    WindowDir(s.broker, s.clean, s.dirs[d], s'.dirs[d]);
    AnsweredShared(s, s');
    DirsFrame(s, s', d);
  }

  /** Between windows a director may change its flag, lose everything in a crash, or start a window. */
  lemma BoundaryDelivers(s: Sys, d: nat, dir': Dir)
    requires DeliveryInv(s) && d in s.dirs && DirDeliveryOk(s.broker, s.clean, dir')
    ensures DeliveryInv(With(s, d, dir'))
  {
    DirsFrame(s, With(s, d, dir'), d);
  }

  lemma OutsideWindows(s: Sys, step: Step)
    requires DeliveryInv(s) && Enabled(s, step) && (step.Campaign? || step.Crash? || step.Start?)
    ensures DeliveryInv(Apply(s, step))
  {
    var dir := s.dirs[step.d];
    assert DirDeliveryOk(s.broker, s.clean, dir);
    match step {
      case Campaign(d, held, subscribes) =>
        EndWithoutAck(s.broker, s.clean, dir, dir.local.(leader := held));
        BoundaryDelivers(s, d, dir.(local := dir.local.(leader := held), subscribed := held
          && (dir.subscribed || subscribes)));
      case Crash(d) => BoundaryDelivers(s, d, FRESH_DIR);
      case Start(d, tick) =>
        EndWithoutAck(s.broker, s.clean, dir, dir.local);
        BoundaryDelivers(s, d, dir.(pc := Busy(if tick then OnTick else OnClient, dir.local, [], NoSet)));
    }
  }

  lemma BrokerDelivers(s: Sys, step: Step)
    requires DeliveryInv(s) && Enabled(s, step)
    requires step.Expire? || step.Relay? || step.Timeout? || step.Park?
    ensures DeliveryInv(Apply(s, step))
  {
    match step {
      case Expire(i) => ExpireKeeps(s, i);
      case Relay(t) => SettleKeeps(s, t, s.broker.replies[t]);
      case Timeout(t) => SettleKeeps(s, t, false);
      case Park(i) => ParkKeeps(s, i);
    }
  }

  lemma EndDelivers(s: Sys, d: nat)
    requires CacheInv(s) && DeliveryInv(s) && Enabled(s, EndWork(d))
    ensures DeliveryInv(EndStep(s, d))
  {
    if s.dirs[d].pc.work.OnSignal? && !s.dirs[d].local.writeFailed {
      AckedEnd(s, d);
    } else {
      UnackedEnd(s, d);
    }
  }

  lemma WorkDelivers(s: Sys, step: Step)
    requires CacheInv(s) && DeliveryInv(s) && Enabled(s, step)
    requires step.DoGet? || step.DoSet? || step.SeedLoad? || step.CasSave? || step.LossReload?
    ensures DeliveryInv(Apply(s, step))
  {
    StoreOnlyGrows(s, step);
    WorkShape(s, step);
    WindowDelivers(s, Apply(s, step), step.d);
  }

  lemma DeliveryStep(s: Sys, step: Step)
    requires CacheInv(s) && DeliveryInv(s) && BudgetOk(s.broker) && Enabled(s, step)
    ensures DeliveryInv(Apply(s, step))
  {
    hide OrderOk, TokensOk, DedupOk, BrokerOk, CleanOk, RepliesOk, DoneOk, CacheInv, SharedOk, DirsOk, BudgetOk;
    match step {
      case Campaign(_, _, _) => OutsideWindows(s, step);
      case Crash(_) => OutsideWindows(s, step);
      case Start(_, _) => OutsideWindows(s, step);
      case Take(d) => TakeDelivers(s, d);
      case EndWork(d) => EndDelivers(s, d);
      case DoGet(_, _, _) => WorkDelivers(s, step);
      case DoSet(_, _, _, _) => WorkDelivers(s, step);
      case SeedLoad(_, _) => WorkDelivers(s, step);
      case CasSave(_, _) => WorkDelivers(s, step);
      case LossReload(_, _) => WorkDelivers(s, step);
      case Publish(sig) => PublishKeeps(s, sig);
      case Deliver(d) => DeliverKeeps(s, d);
      case Redeliver(d, i) => RedeliverKeeps(s, d, i);
      case _ => BrokerDelivers(s, step);
    }
  }

  lemma {:induction false} DeliveryAlways(run: seq<Sys>, steps: seq<Step>, n: nat)
    requires Behavior(run, steps) && n < |run| && CannotOvertake(run[0].broker)
    ensures DeliveryInv(run[n])
  {
    if n > 0 {
      CacheAlways(run, steps, n - 1);
      ParkedOnlyAfterBudget(run, steps, n - 1);
      DeliveryAlways(run, steps, n - 1);
      DeliveryStep(run[n - 1], steps[n - 1]);
    }
  }

  // ---- what it means --------------------------------------------------------------------------

  /** In every run, whenever a director looks at the next message of its inbox, its per-source
      high-water suppresses it exactly when this same session already applied and acked that very
      signal, or the signal is numbered 0, which no publisher does. */
  lemma SuppressedIffAlreadyApplied(run: seq<Sys>, steps: seq<Step>, n: nat, d: nat)
    requires Behavior(run, steps) && n < |steps| && CannotOvertake(run[0].broker) && steps[n] == Take(d)
    ensures Enabled(run[n], Take(d))
    ensures var dir := run[n].dirs[d];
            var sig := run[n].broker.stream[dir.inbox[0].idx];
            && (Admit(dir.local, sig) == Suppress <==> sig.num.Some? && (dir.inbox[0].idx in dir.seen || IsZero(sig)))
            && (dir.inbox[0].idx in dir.seen ==> dir.inbox[0].idx in run[n].clean)
  {
    DeliveryAlways(run, steps, n);
    var s := run[n];
    assert DirDeliveryOk(s.broker, s.clean, s.dirs[d]);
    HighWaterIsSeenSet(s.broker, s.clean, s.dirs[d]);
  }

  /** The record of an acked signal: it was run by a director that believed it led, and every Set its
      handler attempted landed in the store, whether or not the handler looked at the error. */
  predicate RanWithEveryWrite(st: Store, sig: Signal, r: SignalRun) {
    && r.start.leader
    && Admit(r.start, sig) == Run
    && forall i | 0 <= i < |r.ops| && r.ops[i].SetOp? ::
         && r.ops[i].io.save.Saved?
         && LandedAt(Arm(r.start), r.ops, i)
         && Held(st, r.ops[i].key, Normalize(r.ops[i].value), r.ops[i].io.save.version)
  }

  lemma CleanRunLanded(st: Store, sig: Signal, r: SignalRun)
    requires CleanRun(st, sig, r)
    ensures RanWithEveryWrite(st, sig, r)
  {
    AckedIffEveryWriteLanded(r.start, sig, r.ops);
    forall i | 0 <= i < |r.ops| && r.ops[i].SetOp?
      ensures r.ops[i].io.save.Saved? && Held(st, r.ops[i].key, Normalize(r.ops[i].value), r.ops[i].io.save.version)
    {
      assert LandedAt(Arm(r.start), r.ops, i);
      assert OpReal(st, r.ops[i]);
    }
  }

  /** No silent consumption: a signal the stream has moved past was malformed or numbered 0, or was parked after its
      delivery budget, or was run by a believed leader with every scope write landing. */
  lemma NoSilentConsumption(run: seq<Sys>, steps: seq<Step>, n: nat, i: nat)
    requires Behavior(run, steps) && n < |run| && CannotOvertake(run[0].broker)
    requires i in run[n].broker.done
    ensures var (s, b) := (run[n], run[n].broker);
            && i < |b.stream|
            && (|| i in b.parked
                || b.stream[i].malformed || IsZero(b.stream[i])
                || (i in s.clean && RanWithEveryWrite(s.store, b.stream[i], s.clean[i])))
  {
    DeliveryAlways(run, steps, n);
    var s := run[n];
    assert Accounted(s.broker, s.clean, i);
    if i in s.clean {
      CleanRunLanded(s.store, s.broker.stream[i], s.clean[i]);
    }
  }

  /** Signals are resolved in stream order: everything before the newest delivered signal is resolved. */
  lemma ResolvedInOrder(run: seq<Sys>, steps: seq<Step>, n: nat, i: nat)
    requires Behavior(run, steps) && n < |run| && run[0].broker.cap <= 1
    requires i + 1 < run[n].broker.front
    ensures i in run[n].broker.done
  {
    DeliveryAlways(run, steps, n);
    SettingsAreFixed(run, steps, n);
  }

  lemma {:induction false} SettingsAreFixed(run: seq<Sys>, steps: seq<Step>, n: nat)
    requires Behavior(run, steps) && n < |run|
    ensures run[n].broker.cap == run[0].broker.cap && run[n].broker.budget == run[0].broker.budget
  {
    hide Apply, Enabled, Init;
    if n > 0 {
      SettingsAreFixed(run, steps, n - 1);
      assert run[n] == Apply(run[n - 1], steps[n - 1]);
      SettingsStay(run[n - 1], steps[n - 1]);
    }
  }

  lemma SettingsStay(s: Sys, step: Step)
    requires Enabled(s, step)
    ensures Apply(s, step).broker.cap == s.broker.cap && Apply(s, step).broker.budget == s.broker.budget
  {
    hide Hand, TakeSignal, EndStep, Complete, SaveStep, ReloadStep, SeedStep, BeginSet;
    var b := s.broker;
    match step {
      case Deliver(d) =>
        HandBudget(s, d, b.front, b.(front := b.front + 1, attempts := b.attempts[b.front := 1]));
      case Redeliver(d, i) =>
        HandBudget(s, d, i, b.(attempts := b.attempts[i := b.attempts[i] + 1]));
      case Park(i) =>
      case _ => DirectorStepsKeepBudget(s, step);
    }
  }

  // ---- the delivery budget --------------------------------------------------------------------

  /** Nothing is delivered beyond its budget, and only an exhausted signal is parked. */
  predicate BudgetOk(b: Broker) {
    && (forall i | i in b.attempts ::
          i < b.front && 1 <= b.attempts[i] && (b.attempts[i] == 1 || b.attempts[i] <= b.budget))
    && (forall i | i in b.parked :: i in b.attempts && b.attempts[i] >= b.budget)
  }

  predicate SameBudget(b: Broker, b': Broker) {
    b'.attempts == b.attempts && b'.front == b.front && b'.budget == b.budget && b'.cap == b.cap
      && b'.parked == b.parked
  }

  lemma OtherStepsKeepBudget(s: Sys, step: Step)
    requires Enabled(s, step)
    requires !step.Deliver? && !step.Redeliver? && !step.Park?
    requires !(step.DoGet? || step.DoSet? || step.SeedLoad? || step.CasSave? || step.LossReload?)
    ensures SameBudget(s.broker, Apply(s, step).broker)
  {
    hide TakeSignal, EndStep, Unresolved, NextInSource;
    match step {
      case Take(d) => TakeKeepsBudget(s, d);
      case EndWork(d) => EndKeepsBudget(s, d);
      case _ =>
    }
  }

  lemma TakeKeepsBudget(s: Sys, d: nat)
    requires Enabled(s, Take(d))
    ensures SameBudget(s.broker, TakeSignal(s, d).broker)
  {
    hide Admit;
  }

  lemma EndKeepsBudget(s: Sys, d: nat)
    requires Enabled(s, EndWork(d))
    ensures SameBudget(s.broker, EndStep(s, d).broker)
  {
    hide Finish;
  }

  lemma DirectorStepsKeepBudget(s: Sys, step: Step)
    requires Enabled(s, step)
    requires !step.Deliver? && !step.Redeliver? && !step.Park?
    ensures SameBudget(s.broker, Apply(s, step).broker)
  {
    hide Apply, Enabled;
    if step.DoGet? || step.DoSet? || step.SeedLoad? || step.CasSave? || step.LossReload? {
      WorkShape(s, step);
    } else {
      OtherStepsKeepBudget(s, step);
    }
  }

  lemma HandBudget(s: Sys, d: nat, i: nat, b: Broker)
    requires d in s.dirs && i < |b.stream|
    ensures SameBudget(b, Hand(s, d, i, b).broker)
  {
  }

  lemma BudgetStep(s: Sys, step: Step)
    requires BudgetOk(s.broker) && Enabled(s, step)
    ensures BudgetOk(Apply(s, step).broker)
  {
    hide Hand, TakeSignal, EndStep, Complete, SaveStep, ReloadStep, SeedStep, BeginSet;
    var b := s.broker;
    match step {
      case Deliver(d) =>
        HandBudget(s, d, b.front, b.(front := b.front + 1, attempts := b.attempts[b.front := 1]));
      case Redeliver(d, i) =>
        HandBudget(s, d, i, b.(attempts := b.attempts[i := b.attempts[i] + 1]));
      case Park(i) =>
      case _ => DirectorStepsKeepBudget(s, step);
    }
  }

  /** In every run: at most `budget` deliveries of any signal (one, if the budget is zero), and a parked
      signal has used all of them. */
  lemma {:induction false} ParkedOnlyAfterBudget(run: seq<Sys>, steps: seq<Step>, n: nat)
    requires Behavior(run, steps) && n < |run|
    ensures BudgetOk(run[n].broker)
  {
    if n > 0 {
      ParkedOnlyAfterBudget(run, steps, n - 1);
      BudgetStep(run[n - 1], steps[n - 1]);
    }
  }
}
