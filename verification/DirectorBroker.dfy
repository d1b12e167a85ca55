/**
  What happens to a signal, step by step and from any state: when it is resolved, delivered or freed again, whose
  inbox it is put into, and what is answered.
*/
module DirectorBroker {
  import opened Basics
  import opened DirectorCore
  import opened ScopeStore
  import opened DirectorProtocol

  /** The step hands signal i to director d. */
  predicate HandsOut(b: Broker, step: Step, d: nat, i: nat) {
    (step == Deliver(d) && i == b.front) || step == Redeliver(d, i)
  }

  /** The step answers the callback that delivered signal i, or gives that callback up. */
  predicate Returns(b: Broker, step: Step, i: nat) {
    (step.Relay? || step.Timeout?) && step.t in b.waiting && b.waiting[step.t] == i
  }

  // ---- work is local --------------------------------------------------------------------------

  /** What a director does while it works. */
  predicate Works(step: Step) {
    || step.DoGet? || step.DoSet? || step.SeedLoad? || step.CasSave? || step.LossReload?
  }

  /** What a director is busy with, and from what it started, whatever operation it is at. */
  function Engaged(pc: PC): Option<(Work, Local)> { if pc.Idle? then None else Some((pc.work, pc.start)) }

  /** The broker, the inbox of d, its session and what it is busy with are as they were. */
  predicate Untouched(s: Sys, now: Sys, d: nat) {
    && now.broker == s.broker
    && (d in s.dirs ==>
          && d in now.dirs && now.dirs[d].inbox == s.dirs[d].inbox && now.dirs[d].subscribed == s.dirs[d].subscribed
          && now.dirs[d].local.leader == s.dirs[d].local.leader && now.dirs[d].local.applied == s.dirs[d].local.applied
          && Engaged(now.dirs[d].pc) == Engaged(s.dirs[d].pc))
  }

  lemma OpKeepsSession(l: Local, op: HandlerOp)
    ensures DoOp(l, op).leader == l.leader && DoOp(l, op).applied == l.applied
  {
  }

  lemma CompleteIsLocal(s: Sys, worker: nat, op: HandlerOp, d: nat)
    requires worker in s.dirs && s.dirs[worker].pc.Busy?
    ensures Untouched(s, Complete(s, worker, op), d)
  {
    hide DoOp, OpDeltas;
    OpKeepsSession(s.dirs[worker].local, op);
  }

  lemma WorkIsLocal(s: Sys, step: Step, d: nat)
    requires Enabled(s, step) && Works(step)
    ensures Untouched(s, Apply(s, step), d)
  {
    hide Complete, Load, Save, Expected;
    match step
    case DoGet(_, key, failed) =>
      CompleteIsLocal(s, step.d, GetOp(key, if failed then LoadError else Load(s.store, key)), d);
    case DoSet(_, key, value, api) =>
      CompleteIsLocal(s, step.d, SetOp(key, value, api, SetIO(Absent, Lost, Absent)), d);
    case SeedLoad(_, _) =>
      var p := s.dirs[step.d].pc.pending;
      CompleteIsLocal(s, step.d, SetOp(p.key, p.value, p.api, SetIO(LoadError, Lost, Absent)), d);
    case CasSave(_, fault) =>
      hide SaveStep;
      SaveIsLocal(s, step.d, fault, d);
    case LossReload(_, failed) =>
      var p := s.dirs[step.d].pc.pending;
      var reply := if failed then LoadError else Load(s.store, p.key);
      CompleteIsLocal(s, step.d, SetOp(p.key, p.value, p.api, SetIO(p.stage.seed, Lost, reply)), d);
    case _ =>
  }

  lemma SaveIsLocal(s: Sys, saver: nat, fault: Fault, d: nat)
    requires AtSet(s, saver) && s.dirs[saver].pc.pending.stage.Saving?
    ensures Untouched(s, SaveStep(s, saver, fault), d)
  {
    hide Complete, Expected, Save;
    var (p, saved) := (s.dirs[saver].pc.pending, SaveOf(s, saver));
    var failed := SetOp(p.key, p.value, p.api, SetIO(p.stage.seed, SaveError, Absent));
    CompleteIsLocal(s, saver, failed, d);
    CompleteIsLocal(s.(store := saved.0), saver, failed, d);
    CompleteIsLocal(s.(store := saved.0), saver, SetOp(p.key, p.value, p.api, SetIO(p.stage.seed, saved.1, Absent)), d);
  }

  /** Taking a signal and ending a window only answer, and nothing else a director does reaches the broker. */
  lemma BrokerAfter(s: Sys, step: Step)
    requires Enabled(s, step)
    ensures var now := Apply(s, step).broker;
            && (Works(step) || step.Start? || step.Campaign? || step.Crash? ==> now == s.broker)
            && (step.Take? || step.EndWork? ==> now == s.broker.(replies := now.replies))
  {
    hide Complete, Admit, Finish;
    if Works(step) {
      WorkIsLocal(s, step, 0);
    }
  }

  // ---- the broker -----------------------------------------------------------------------------

  /** A signal is resolved exactly by the ack of its callback, by being malformed when it is delivered, or by being
      parked after its last attempt; and never unresolved. */
  lemma ResolvedExactly(s: Sys, step: Step, i: nat)
    requires Enabled(s, step)
    ensures var (b, now) := (s.broker, Apply(s, step).broker);
            && (i in now.done <==>
                  || i in b.done || step == Park(i) || (Returns(b, step, i) && step.Relay? && b.replies[step.t])
                  || (i < |b.stream| && b.stream[i].malformed && exists d :: HandsOut(b, step, d, i)))
            && (i in now.parked <==> i in b.parked || step == Park(i))
            && (step == Park(i) ==> i in b.attempts && b.attempts[i] >= b.budget && i !in b.done)
  {
    BrokerAfter(s, step);
    hide Complete, TakeSignal, EndStep, Admit;
    if step.Deliver? || step.Redeliver? {
      assert HandsOut(s.broker, step, step.d, if step.Deliver? then s.broker.front else step.i);
    }
  }

  /** A signal waits for an answer from the moment it is delivered unless it is malformed, until its callback is
      answered or times out or the broker's own wait expires. */
  lemma AwaitedExactly(s: Sys, step: Step, i: nat)
    requires Enabled(s, step)
    ensures var (b, now) := (s.broker, Apply(s, step).broker);
            i in now.inflight <==>
              || (i < |b.stream| && !b.stream[i].malformed && exists d :: HandsOut(b, step, d, i))
              || (i in b.inflight && step != Expire(i) && !Returns(b, step, i))
  {
    BrokerAfter(s, step);
    hide Complete, TakeSignal, EndStep, Admit;
    if step.Deliver? || step.Redeliver? {
      assert HandsOut(s.broker, step, step.d, if step.Deliver? then s.broker.front else step.i);
    }
  }

  /** Signals are first delivered in the order of the stream, and each delivery is counted. */
  lemma DeliveriesAreCounted(s: Sys, step: Step)
    requires Enabled(s, step)
    ensures var (b, now) := (s.broker, Apply(s, step).broker);
            && now.stream == (if step.Publish? then b.stream + [step.sig] else b.stream)
            && now.cap == b.cap && now.budget == b.budget
            && (if step.Deliver? then now.front == b.front + 1 <= |b.stream| && now.attempts == b.attempts[b.front := 1]
                else if step.Redeliver? then
                  && step.i < b.front == now.front && step.i in b.attempts && step.i !in b.inflight
                  && now.attempts == b.attempts[step.i := b.attempts[step.i] + 1] && now.attempts[step.i] <= b.budget
                else now.front == b.front && now.attempts == b.attempts)
  {
    BrokerAfter(s, step);
    hide Complete, TakeSignal, EndStep, Admit;
  }

  // ---- the inbox ------------------------------------------------------------------------------

  /** A director's inbox: a delivery to it queues the signal last, unless it is malformed; it takes the first; a
      crash loses all. */
  lemma InboxExactly(s: Sys, step: Step, d: nat)
    requires Enabled(s, step) && d in s.dirs
    ensures d in Apply(s, step).dirs
    ensures var (b, was, now) := (s.broker, s.dirs[d].inbox, Apply(s, step).dirs[d].inbox);
            if step == Take(d) then was != [] && was == [was[0]] + now
            else if step == Crash(d) then now == []
            else if step == Deliver(d) && !b.stream[b.front].malformed then now == was + [InMsg(b.front, b.nextToken)]
            else if step.Redeliver? && step.d == d && !b.stream[step.i].malformed then
              now == was + [InMsg(step.i, b.nextToken)]
            else now == was
  {
    hide Complete, Admit, Finish, Settle, ParkAt, Answer, BeginSet, SeedStep, SaveStep, ReloadStep;
    if Works(step) {
      WorkIsLocal(s, step, d);
    }
  }

  // ---- the answer -----------------------------------------------------------------------------

  /** A director answers a signal when it takes it, if it is suppressed or refused, and otherwise at the end of its
      window; nothing else is answered. */
  lemma AnsweredExactly(s: Sys, step: Step)
    requires Enabled(s, step)
    ensures var (was, now) := (s.broker.replies, Apply(s, step).broker.replies);
            if step.Take? then
              var (local, m) := (s.dirs[step.d].local, s.dirs[step.d].inbox[0]);
              var sig := s.broker.stream[m.idx];
              var known := if sig.source in local.applied then local.applied[sig.source] else 0;
              if sig.num.Some? && sig.num.value <= known then now == was[m.token := true]
              else if !local.leader then now == was[m.token := false]
              else now == was
            else if step.EndWork? && s.dirs[step.d].pc.work.OnSignal? then
              now == was[s.dirs[step.d].pc.work.token := !s.dirs[step.d].local.writeFailed]
            else now == was
  {
    BrokerAfter(s, step);
    hide Complete, BeginSet, SeedStep, SaveStep, ReloadStep;
  }

  // ---- the session ----------------------------------------------------------------------------

  /** A director's session: leadership and subscription move only with the lease, the high-water of a source only at
      the end of a window of it without a failed write, to that signal's number; a crash forgets all. */
  lemma SessionExactly(s: Sys, step: Step, d: nat)
    requires Enabled(s, step) && d in s.dirs
    ensures d in Apply(s, step).dirs
    ensures var (was, now) := (s.dirs[d], Apply(s, step).dirs[d]);
            var ends := step == EndWork(d) && was.pc.work.OnSignal? && !was.local.writeFailed;
            if step == Crash(d) then
              !now.local.leader && !now.subscribed && now.local.applied == map[] && now.local.versions == map[]
            else
              && (now.local.leader <==> if step.Campaign? && step.d == d then step.held else was.local.leader)
              && (now.subscribed <==>
                    if step.Campaign? && step.d == d then step.held && (was.subscribed || step.subscribes)
                    else was.subscribed)
              && now.local.applied == if ends then Raised(was.local.applied, s.broker.stream[was.pc.work.idx])
                                      else was.local.applied
  {
    hide EndStep, TakeSignal, Settle, ParkAt, Answer, Complete, Raised, BeginSet, SeedStep, SaveStep, ReloadStep;
    if Works(step) {
      WorkIsLocal(s, step, d);
    } else if step.EndWork? {
      EndOfWork(s, step.d, d);
    } else if step.Take? {
      TakenUp(s, step.d, d);
    }
  }

  lemma TakenUp(s: Sys, taker: nat, d: nat)
    requires Enabled(s, Take(taker)) && d in s.dirs
    ensures d in TakeSignal(s, taker).dirs
    ensures var (was, now) := (s.dirs[d], TakeSignal(s, taker).dirs[d]);
            && now.local.leader == was.local.leader && now.subscribed == was.subscribed
            && now.local.applied == was.local.applied
            && (taker != d ==> Engaged(now.pc) == Engaged(was.pc))
            && (taker == d ==>
                  var m := was.inbox[0];
                  Engaged(now.pc) == if Admit(was.local, s.broker.stream[m.idx]) == Run
                                     then Some((OnSignal(m.idx, m.token), was.local)) else None)
  {
    hide Admit;
  }

  lemma EndOfWork(s: Sys, ending: nat, d: nat)
    requires Enabled(s, EndWork(ending)) && d in s.dirs
    ensures d in EndStep(s, ending).dirs
    ensures var (was, now) := (s.dirs[d], EndStep(s, ending).dirs[d]);
            && now.local.leader == was.local.leader && now.subscribed == was.subscribed
            && now.local.applied == (if ending == d && was.pc.work.OnSignal? && !was.local.writeFailed
                                     then Raised(was.local.applied, s.broker.stream[was.pc.work.idx])
                                     else was.local.applied)
            && Engaged(now.pc) == (if ending == d then None else Engaged(was.pc))
            && now.local.state == was.local.state && now.local.versions == was.local.versions
  {
  }

  /** The high-waters with this signal's number at its source, unless that has come as far. */
  function Raised(applied: map<Source, nat>, sig: Signal): map<Source, nat> {
    if sig.num.Some? && (sig.source in applied ==> applied[sig.source] < sig.num.value) && 0 < sig.num.value
    then applied[sig.source := sig.num.value]
    else applied
  }

  // ---- one thing at a time --------------------------------------------------------------------

  /** A director does one thing at a time: it takes up a signal that is new to it while it leads, a tick while it
      leads, or a client's call, only at rest; it is done with it at its end, or by a crash, and not before. */
  lemma BusyExactly(s: Sys, step: Step, d: nat)
    requires Enabled(s, step) && d in s.dirs
    ensures d in Apply(s, step).dirs
    ensures var (was, now) := (s.dirs[d], Apply(s, step).dirs[d]);
            if step == Take(d) then
              var m := was.inbox[0];
              && Engaged(was.pc) == None
              && Engaged(now.pc) == if Admit(was.local, s.broker.stream[m.idx]) == Run
                                    then Some((OnSignal(m.idx, m.token), was.local)) else None
            else if step.Start? && step.d == d then
              && Engaged(was.pc) == None && (step.tick ==> was.local.leader)
              && Engaged(now.pc) == Some((if step.tick then OnTick else OnClient, was.local))
            else if step == EndWork(d) then
              && was.pc.Busy? && was.pc.pending.NoSet? && Engaged(now.pc) == None
              && now.local.state == was.local.state && now.local.versions == was.local.versions
            else Engaged(now.pc) == if step == Crash(d) then None else Engaged(was.pc)
  {
    hide EndStep, TakeSignal, Settle, ParkAt, Answer, Admit, Complete, BeginSet, SeedStep, SaveStep, ReloadStep;
    if Works(step) {
      WorkIsLocal(s, step, d);
    } else if step.EndWork? {
      EndOfWork(s, step.d, d);
    } else if step.Take? {
      TakenUp(s, step.d, d);
    }
  }
}
