/**
  Consumer goroutines over the durable log.  A consumer captures the wake channel, drains, hands the
  batch to its handler message by message, and waits on the captured channel when there was nothing.
  Appends, stops, closes and any number of consumers, one at a time per subject and consumer id,
  interleave between the critical sections.
*/
module DurableConsumer {
  import opened DurableLog

  datatype Pc =
    | Top
    | Captured(wake: Chan)
    | Open(wake: Chan)                                       // saw the stream open, about to drain
    | Batch(wake: Chan, rest: seq<Message>, busy: bool)      // busy: the handler is running
    | Waiting(wake: Chan)
    | Ended(rest: seq<Message>)                              // returned, with this much of a batch unhanded

  /** handed is every first attempt so far with its backlog flag; start and stored are the cursor and the
      length of the log when the consumer was made. */
  datatype Consumer = Consumer(
    pc: Pc, stop: bool, backlogRemaining: nat,
    start: nat, stored: nat, handed: seq<(Message, bool)>)

  type Key = (string, string)

  datatype Sys = Sys(js: Js, cs: map<Key, Consumer>)

  datatype Step =
    | Publish(subj: string, msg: Message)
    | WakeAll(subj: string)                                  // the wake of a Stop
    | Close(after: Js)
    | Consume(key: Key)
    | RequestStop(key: Key)
    | Run(key: Key, act: Act)

  /** One critical section of a consumer's loop. */
  datatype Act = Capture | CheckOpen | DrainLog | Hand | Return | Again | Wakeup | SeeStop

  function Rest(pc: Pc): seq<Message> { if pc.Batch? || pc.Ended? then pc.rest else [] }

  predicate Live(s: Sys, k: Key) { k in s.cs && !s.cs[k].pc.Ended? }

  predicate CanRun(js: Js, c: Consumer, act: Act) {
    match act
    case Capture => c.pc.Top?
    case CheckOpen => c.pc.Captured?
    case DrainLog => c.pc.Open?
    case Hand => c.pc.Batch? && !c.pc.busy && c.pc.rest != []
    case Return => c.pc.Batch? && c.pc.busy
    case Again => c.pc.Batch? && !c.pc.busy && c.pc.rest == []
    case Wakeup => c.pc.Waiting? && c.pc.wake in js.shut
    case SeeStop => c.pc.Waiting? && c.stop
  }

  /** What a step does to the stream and to the consumer taking it. */
  function RunJs(js: Js, k: Key, act: Act): Js {
    match act
    case Capture => WithChan(js, k.0)
    case DrainLog => Drain(js, k.0, k.1)
    case _ => js
  }

  function RunConsumer(js: Js, k: Key, c: Consumer, act: Act): Consumer
    requires CanRun(js, c, act)
  {
    match act
    case Capture => c.(pc := Captured(WithChan(js, k.0).wakers[k.0]))
    case CheckOpen => c.(pc := if js.closed then Waiting(c.pc.wake) else Open(c.pc.wake))
    case DrainLog =>
      var batch := Undelivered(js, k.0, k.1);
      c.(pc := if batch == [] then Waiting(c.pc.wake) else Batch(c.pc.wake, batch, false))
    case Hand =>
      var backlog := c.backlogRemaining > 0;
      c.(pc := Batch(c.pc.wake, c.pc.rest[1..], true),
         backlogRemaining := if backlog then c.backlogRemaining - 1 else 0,
         handed := c.handed + [(c.pc.rest[0], backlog)])
    case Return => c.(pc := if c.stop then Ended(c.pc.rest) else Batch(c.pc.wake, c.pc.rest, false))
    case Again => c.(pc := if c.stop then Ended([]) else Top)
    case Wakeup => c.(pc := Top)
    case SeeStop => c.(pc := Ended([]))
  }

  function NewConsumer(js: Js, k: Key): Consumer {
    Consumer(Top, false, Pending(js, k.0, k.1), Cursor(js, k.0, k.1), |Log(js, k.0)|, [])
  }

  ghost predicate Enabled(s: Sys, step: Step) {
    match step
    case Publish(_, _) => true
    case WakeAll(_) => true
    case Close(after) => Closes(s.js, after)
    case Consume(k) => !s.js.closed && !Live(s, k)
    case RequestStop(k) => Live(s, k)
    case Run(k, act) => k in s.cs && CanRun(s.js, s.cs[k], act)
  }

  ghost function Apply(s: Sys, step: Step): Sys
    requires Enabled(s, step)
  {
    match step
    case Publish(subj, msg) => s.(js := Append(s.js, subj, msg))
    case WakeAll(subj) => s.(js := Wake(s.js, subj))
    case Close(after) => s.(js := after)
    case Consume(k) => s.(cs := s.cs[k := NewConsumer(s.js, k)])
    case RequestStop(k) => s.(cs := s.cs[k := s.cs[k].(stop := true)])
    case Run(k, act) => Sys(RunJs(s.js, k, act), s.cs[k := RunConsumer(s.js, k, s.cs[k], act)])
  }

  ghost predicate Behavior(run: seq<Sys>, steps: seq<Step>) {
    && |run| == |steps| + 1 && run[0] == Sys(EMPTY, map[])
    && forall i | 0 <= i < |steps| :: Enabled(run[i], steps[i]) && run[i + 1] == Apply(run[i], steps[i])
  }

  // ---- the invariant of one consumer ----------------------------------------------------------

  /** Everything handed is a gap-free run of the log, flagged as backlog exactly if it was stored before
      the consumer was made, and the unhanded rest of the batch continues it up to the cursor. */
  ghost predicate InOrder(js: Js, k: Key, c: Consumer) {
    var (log, n) := (Log(js, k.0), |c.handed|);
    && c.start <= c.stored <= |log|
    && Cursor(js, k.0, k.1) == c.start + n + |Rest(c.pc)| <= |log|
    && (forall i | 0 <= i < n :: c.handed[i] == (log[c.start + i], c.start + i < c.stored))
    && (forall i | 0 <= i < |Rest(c.pc)| :: Rest(c.pc)[i] == log[c.start + n + i])
    && c.backlogRemaining == if c.stored > c.start + n then c.stored - c.start - n else 0
  }

  /** A captured channel is the current one until it is closed, and a consumer that waits on an open
      channel of an open stream has drained everything. */
  ghost predicate WakeOk(js: Js, k: Key, c: Consumer) {
    && (c.pc.Captured? || c.pc.Open? || c.pc.Waiting? ==>
          c.pc.wake < js.made && (c.pc.wake in js.shut || (k.0 in js.wakers && js.wakers[k.0] == c.pc.wake)))
    && (c.pc.Waiting? && c.pc.wake !in js.shut && !js.closed ==> Cursor(js, k.0, k.1) == |Log(js, k.0)|)
  }

  ghost predicate ConsumerOk(js: Js, k: Key, c: Consumer) { InOrder(js, k, c) && WakeOk(js, k, c) }

  ghost predicate Inv(s: Sys) { Wf(s.js) && forall k | k in s.cs :: ConsumerOk(s.js, k, s.cs[k]) }

  // ---- what the rest of the world may do to the stream between a consumer's steps --------------

  ghost predicate Grows(js: Js, after: Js, k: Key) {
    && Log(js, k.0) <= Log(after, k.0)
    && Cursor(after, k.0, k.1) == Cursor(js, k.0, k.1)
    && js.made <= after.made && js.shut <= after.shut && (js.closed ==> after.closed)
    && (k.0 in js.wakers && js.wakers[k.0] !in after.shut ==>
          && k.0 in after.wakers && after.wakers[k.0] == js.wakers[k.0]
          && Log(after, k.0) == Log(js, k.0))
  }

  lemma GrowsKeepsConsumer(js: Js, after: Js, k: Key, c: Consumer)
    requires ConsumerOk(js, k, c) && Grows(js, after, k)
    ensures ConsumerOk(after, k, c)
  {
    hide Log, Cursor;
  }

  lemma WakeGrows(js: Js, subj: string, k: Key)
    ensures Grows(js, Wake(js, subj), k)
  {
  }

  lemma AppendGrows(js: Js, subj: string, msg: Message, k: Key)
    ensures Grows(js, Append(js, subj, msg), k)
  {
    AppendIs(js, subj, msg, k.0);
  }

  lemma CloseGrows(js: Js, after: Js, k: Key)
    requires Closes(js, after)
    ensures Grows(js, after, k)
  {
  }

  lemma CaptureGrows(js: Js, subj: string, k: Key)
    ensures Grows(js, WithChan(js, subj), k)
  {
  }

  lemma CloseKeepsWf(js: Js, after: Js)
    requires Wf(js) && Closes(js, after)
    ensures Wf(after)
  {
    QuietKeepsWf(js, after);
  }

  // ---- a consumer's own steps -----------------------------------------------------------------

  lemma HandKeepsOrder(js: Js, k: Key, c: Consumer)
    requires InOrder(js, k, c) && CanRun(js, c, Hand)
    ensures InOrder(js, k, RunConsumer(js, k, c, Hand))
  {
    hide Log, Cursor;
    var (log, n, after) := (Log(js, k.0), |c.handed|, RunConsumer(js, k, c, Hand));
    assert c.pc.rest[0] == log[c.start + n];
    forall i | 0 <= i < |Rest(after.pc)| ensures Rest(after.pc)[i] == log[c.start + n + 1 + i] {
      assert Rest(after.pc)[i] == Rest(c.pc)[i + 1];
    }
  }

  lemma DrainKeepsOrder(js: Js, k: Key, c: Consumer)
    requires InOrder(js, k, c) && CanRun(js, c, DrainLog)
    ensures InOrder(Drain(js, k.0, k.1), k, RunConsumer(js, k, c, DrainLog))
  {
    hide Drain, Cursor, Log;
    DrainIs(js, k.0, k.1, k.0, k.1);
    SameLog(js, k);
  }

  lemma SameLog(js: Js, k: Key)
    ensures Log(Drain(js, k.0, k.1), k.0) == Log(js, k.0)
  {
    DrainFrame(js, k.0, k.1);
  }

  /** Steps that move neither the stream nor the batch. */
  lemma QuietKeepsOrder(js: Js, k: Key, c: Consumer, act: Act)
    requires InOrder(js, k, c) && CanRun(js, c, act) && !act.DrainLog? && !act.Hand? && !act.Capture?
    ensures InOrder(js, k, RunConsumer(js, k, c, act))
  {
    var after := RunConsumer(js, k, c, act);
    assert Rest(after.pc) == Rest(c.pc);
  }

  lemma QuietKeepsWake(js: Js, k: Key, c: Consumer, act: Act)
    requires WakeOk(js, k, c) && CanRun(js, c, act) && !act.DrainLog? && !act.Capture?
    ensures WakeOk(js, k, RunConsumer(js, k, c, act))
  {
  }

  lemma CaptureKeepsConsumer(js: Js, k: Key, c: Consumer)
    requires Wf(js) && ConsumerOk(js, k, c) && CanRun(js, c, Capture)
    ensures ConsumerOk(WithChan(js, k.0), k, RunConsumer(js, k, c, Capture))
  {
    CaptureGrows(js, k.0, k);
    GrowsKeepsConsumer(js, WithChan(js, k.0), k, c);
  }

  lemma RunKeepsConsumer(js: Js, k: Key, c: Consumer, act: Act)
    requires Wf(js) && ConsumerOk(js, k, c) && CanRun(js, c, act)
    ensures ConsumerOk(RunJs(js, k, act), k, RunConsumer(js, k, c, act))
  {
    match act
    case DrainLog =>
      DrainKeepsOrder(js, k, c);
    case Hand =>
      HandKeepsOrder(js, k, c);
      QuietKeepsWake(js, k, c, act);
    case Capture => CaptureKeepsConsumer(js, k, c);
    case _ =>
      QuietKeepsOrder(js, k, c, act);
      QuietKeepsWake(js, k, c, act);
  }

  lemma RunKeepsWf(js: Js, k: Key, act: Act)
    requires Wf(js)
    ensures Wf(RunJs(js, k, act))
  {
    hide Wf;
    match act
    case Capture => WithChanKeepsWf(js, k.0);
    case DrainLog => DrainKeepsWf(js, k.0, k.1);
    case _ =>
  }

  lemma OthersGrow(js: Js, k: Key, act: Act, other: Key)
    requires Wf(js) && k != other
    ensures Grows(js, RunJs(js, k, act), other)
  {
    hide Wf;
    match act
    case Capture => CaptureGrows(js, k.0, other);
    case DrainLog =>
    case _ =>
  }

  // ---- every run ------------------------------------------------------------------------------

  lemma StreamStep(s: Sys, step: Step)
    requires Inv(s) && Enabled(s, step) && (step.Publish? || step.WakeAll? || step.Close?)
    ensures Inv(Apply(s, step))
  {
    hide Wf, ConsumerOk, Grows;
    var after := Apply(s, step).js;
    match step {
      case Publish(subj, msg) => AppendKeepsWf(s.js, subj, msg);
      case WakeAll(subj) => WakeKeepsWf(s.js, subj);
      case Close(next) => CloseKeepsWf(s.js, next);
    }
    forall k | k in s.cs ensures ConsumerOk(after, k, s.cs[k]) {
      match step {
        case Publish(subj, msg) => AppendGrows(s.js, subj, msg, k);
        case WakeAll(subj) => WakeGrows(s.js, subj, k);
        case Close(next) => CloseGrows(s.js, next, k);
      }
      GrowsKeepsConsumer(s.js, after, k, s.cs[k]);
    }
  }

  lemma WakeKeepsWf(js: Js, subj: string)
    requires Wf(js)
    ensures Wf(Wake(js, subj))
  {
    WakeKeepsChans(js, subj);
    QuietKeepsWf(js, Wake(js, subj));
  }

  lemma RunStep(s: Sys, k: Key, act: Act)
    requires Inv(s) && Enabled(s, Run(k, act))
    ensures Inv(Apply(s, Run(k, act)))
  {
    hide Wf, ConsumerOk, Grows, RunConsumer, RunJs, CanRun;
    RunKeepsWf(s.js, k, act);
    RunKeepsConsumer(s.js, k, s.cs[k], act);
    forall other | other in s.cs && other != k ensures ConsumerOk(RunJs(s.js, k, act), other, s.cs[other]) {
      OthersGrow(s.js, k, act, other);
      GrowsKeepsConsumer(s.js, RunJs(s.js, k, act), other, s.cs[other]);
    }
  }

  lemma InvStep(s: Sys, step: Step)
    requires Inv(s) && Enabled(s, step)
    ensures Inv(Apply(s, step))
  {
    match step
    case Consume(k) =>
    case RequestStop(k) => StopKeepsConsumer(s.js, k, s.cs[k]);
    case Run(k, act) => RunStep(s, k, act);
    case _ => StreamStep(s, step);
  }

  lemma StopKeepsConsumer(js: Js, k: Key, c: Consumer)
    requires ConsumerOk(js, k, c)
    ensures ConsumerOk(js, k, c.(stop := true))
  {
  }

  lemma {:induction false} InvAlways(run: seq<Sys>, steps: seq<Step>, n: nat)
    requires Behavior(run, steps) && n < |run|
    ensures Inv(run[n])
  {
    hide Inv, Apply, Enabled;
    if n == 0 {
      InvStarts();
    } else {
      InvAlways(run, steps, n - 1);
      InvStep(run[n - 1], steps[n - 1]);
    }
  }

  lemma InvStarts()
    ensures Inv(Sys(EMPTY, map[]))
  {
  }

  // ---- the main theorems ----------------------------------------------------------------------

  /** No lost wakeup: in every reachable state, a consumer waiting on a channel that is still open has
      nothing pending, unless the whole stream was closed. */
  lemma NoLostWakeup(run: seq<Sys>, steps: seq<Step>, n: nat, k: Key)
    requires Behavior(run, steps) && n < |run| && k in run[n].cs && !run[n].js.closed
    ensures var (js, c) := (run[n].js, run[n].cs[k]);
            c.pc.Waiting? && c.pc.wake !in js.shut ==> Pending(js, k.0, k.1) == 0
  {
    InvAlways(run, steps, n);
  }

  /** So a live consumer with something pending is never stuck. */
  lemma PendingMeansProgress(run: seq<Sys>, steps: seq<Step>, n: nat, k: Key)
    requires Behavior(run, steps) && n < |run| && Live(run[n], k) && !run[n].js.closed
    requires Pending(run[n].js, k.0, k.1) > 0
    ensures exists act :: CanRun(run[n].js, run[n].cs[k], act)
  {
    hide Pending, Behavior;
    NoLostWakeup(run, steps, n, k);
    var (js, c) := (run[n].js, run[n].cs[k]);
    match c.pc
    case Top => assert CanRun(js, c, Capture);
    case Captured(_) => assert CanRun(js, c, CheckOpen);
    case Open(_) => assert CanRun(js, c, DrainLog);
    case Batch(_, rest, busy) => assert CanRun(js, c, if busy then Return else if rest == [] then Again else Hand);
    case Waiting(_) => assert CanRun(js, c, Wakeup);
  }

  /** First attempts are the log itself, from the cursor on, without gap or duplicate, and exactly those
      stored before the consumer was made are flagged as backlog. */
  lemma HandedInOrder(run: seq<Sys>, steps: seq<Step>, n: nat, k: Key, i: nat)
    requires Behavior(run, steps) && n < |run| && k in run[n].cs && i < |run[n].cs[k].handed|
    ensures var (c, log) := (run[n].cs[k], Log(run[n].js, k.0));
            && c.start + i < |log| && c.handed[i].0 == log[c.start + i]
            && (c.handed[i].1 <==> c.start + i < c.stored)
            && forall j | 0 <= j < i && c.handed[j].0.key != "" :: c.handed[j].0.key != c.handed[i].0.key
  {
    hide Behavior;
    InvAlways(run, steps, n);
    assert LogOk(run[n].js, k.0);
  }

  /** A key is stored at most once per subject, whatever is published. */
  lemma StoredOnce(run: seq<Sys>, steps: seq<Step>, n: nat, subj: string)
    requires Behavior(run, steps) && n < |run|
    ensures DistinctKeys(Log(run[n].js, subj))
  {
    hide Behavior;
    InvAlways(run, steps, n);
    assert LogOk(run[n].js, subj);
  }

  /** What a stop costs: a consumer made after another one under the same key ended resumes past the batch
      that one had drained, so past the unhanded rest of it. */
  lemma StopAbandonsTheRest(run: seq<Sys>, steps: seq<Step>, n: nat, k: Key)
    requires Behavior(run, steps) && n < |steps| && steps[n] == Consume(k) && k in run[n].cs
    ensures var (was, now) := (run[n].cs[k], run[n + 1].cs[k]);
            && was.pc.Ended?
            && now.start == was.start + |was.handed| + |was.pc.rest| <= |Log(run[n].js, k.0)|
            && was.pc.rest == Log(run[n].js, k.0)[was.start + |was.handed|..now.start]
  {
    StepOf(run, steps, n);
    InvAlways(run, steps, n);
  }

  lemma StepOf(run: seq<Sys>, steps: seq<Step>, n: nat)
    requires Behavior(run, steps) && n < |steps|
    ensures |run| == |steps| + 1 && Enabled(run[n], steps[n]) && run[n + 1] == Apply(run[n], steps[n])
  {
    hide Apply, Enabled;
  }

  // ---- what a stop abandoned stays abandoned --------------------------------------------------

  /** The first log entry not yet handed by this consumer. */
  function Reached(c: Consumer): nat { c.start + |c.handed| }

  /** Consumers under a key only move forward, and logs only grow. */
  ghost predicate Forward(s: Sys, after: Sys, k: Key) {
    && Log(s.js, k.0) <= Log(after.js, k.0)
    && (k in s.cs ==> && k in after.cs && s.cs[k].start <= after.cs[k].start
                      && Reached(s.cs[k]) <= Reached(after.cs[k]))
  }

  lemma StepIsForward(s: Sys, step: Step, k: Key)
    requires Inv(s) && Enabled(s, step)
    ensures Forward(s, Apply(s, step), k)
  {
    hide Wf, WakeOk;
    match step
    case Publish(subj, msg) => AppendIs(s.js, subj, msg, k.0);
    case Run(j, act) => RunIsForward(s.js, j, s.cs[j], act);
    case _ =>
  }

  lemma RunIsForward(js: Js, k: Key, c: Consumer, act: Act)
    requires CanRun(js, c, act)
    ensures RunJs(js, k, act).log == js.log
    ensures RunConsumer(js, k, c, act).start == c.start && Reached(c) <= Reached(RunConsumer(js, k, c, act))
  {
  }

  lemma {:induction false} AlwaysForward(run: seq<Sys>, steps: seq<Step>, a: nat, b: nat, k: Key)
    requires Behavior(run, steps) && a <= b < |run|
    ensures Forward(run[a], run[b], k)
    decreases b
  {
    hide Inv, Apply, Enabled, Log, Reached;
    if a < b {
      AlwaysForward(run, steps, a, b - 1, k);
      InvAlways(run, steps, b - 1);
      StepOf(run, steps, b - 1);
      StepIsForward(run[b - 1], steps[b - 1], k);
    }
  }

  /** At every moment of the run, what the consumer then under the key has been handed lies wholly before the
      abandoned rest or wholly behind it. */
  lemma RestIsSkipped(run: seq<Sys>, steps: seq<Step>, n: nat, k: Key, m: nat)
    requires Behavior(run, steps) && n < |steps| && steps[n] == Consume(k) && k in run[n].cs
    requires m < |run| && k in run[m].cs
    ensures k in run[n + 1].cs
    ensures Reached(run[m].cs[k]) <= Reached(run[n].cs[k]) || run[n + 1].cs[k].start <= run[m].cs[k].start
  {
    hide Inv, Apply, Enabled, Log, Reached;
    AlwaysForward(run, steps, n, n + 1, k);
    if m <= n {
      AlwaysForward(run, steps, m, n, k);
    } else {
      AlwaysForward(run, steps, n + 1, m, k);
    }
  }

  /** So no consumer under the key, before or after, is handed what a stop abandoned: none of its messages that
      carry an idempotency key is among those handed, at any moment of the run. */
  lemma RestIsNeverHanded(run: seq<Sys>, steps: seq<Step>, n: nat, k: Key, m: nat, lost: Message, i: nat)
    requires Behavior(run, steps) && n < |steps| && steps[n] == Consume(k) && k in run[n].cs
    requires m < |run| && k in run[m].cs && i < |run[m].cs[k].handed|
    requires lost in Rest(run[n].cs[k].pc) && lost.key != ""
    ensures run[m].cs[k].handed[i].0.key != lost.key
  {
    hide Behavior, Log, DistinctKeys;
    StepOf(run, steps, n);
    hide Apply, Enabled;
    RestIsSkipped(run, steps, n, k, m);
    StopAbandonsTheRest(run, steps, n, k);
    HandedInOrder(run, steps, m, k, i);
    var (was, c, e) := (run[n].cs[k], run[m].cs[k], if m <= n then n else m);
    AlwaysForward(run, steps, n, e, k);
    AlwaysForward(run, steps, m, e, k);
    StoredOnce(run, steps, e, k.0);
    var x :| 0 <= x < |was.pc.rest| && was.pc.rest[x] == lost;
    assert lost == Log(run[n].js, k.0)[Reached(was) + x];
    KeysApart(Log(run[e].js, k.0), Reached(was) + x, c.start + i);
  }

  lemma KeysApart(log: seq<Message>, x: nat, y: nat)
    requires DistinctKeys(log) && x < |log| && y < |log| && x != y && log[x].key != ""
    ensures log[y].key != log[x].key
  {
  }

  // ---- what ends a consumer -------------------------------------------------------------------

  /** A stop was requested at step j and the key's consumer is still the same at n. */
  predicate StoppedAt(steps: seq<Step>, j: nat, n: nat, k: Key) {
    j < n <= |steps| && steps[j] == RequestStop(k) && forall i | j < i < n :: steps[i] != Consume(k)
  }

  /** Only a stop request ends a consumer; closing the stream does not. */
  lemma {:induction false} EndsOnlyIfStopped(run: seq<Sys>, steps: seq<Step>, n: nat, k: Key)
    requires Behavior(run, steps) && n < |run| && k in run[n].cs && (run[n].cs[k].pc.Ended? || run[n].cs[k].stop)
    ensures run[n].cs[k].stop && exists j: nat :: StoppedAt(steps, j, n, k)
  {
    StepOf(run, steps, n - 1);
    var (s, step) := (run[n - 1], steps[n - 1]);
    if step == RequestStop(k) {
      assert StoppedAt(steps, n - 1, n, k);
    } else {
      StopComesFrom(s, step, k);
      EndsOnlyIfStopped(run, steps, n - 1, k);
      var j: nat :| StoppedAt(steps, j, n - 1, k);
      assert StoppedAt(steps, j, n, k);
    }
  }

  /** No other step stops a consumer, and none ends one that is not stopped. */
  lemma StopComesFrom(s: Sys, step: Step, k: Key)
    requires Enabled(s, step) && step != RequestStop(k) && k in Apply(s, step).cs
    requires var c := Apply(s, step).cs[k];
             c.pc.Ended? || c.stop
    ensures step != Consume(k) && k in s.cs && (s.cs[k].pc.Ended? || s.cs[k].stop)
    ensures s.cs[k].stop ==> Apply(s, step).cs[k].stop
  {
  }

  /** One step of anything but a new consumer keeps the stop, hands at most one message, and then only from a state
      after which the consumer ends. */
  lemma StoppedStep(s: Sys, step: Step, k: Key)
    requires Enabled(s, step) && step != Consume(k) && k in s.cs && s.cs[k].stop
    ensures k in Apply(s, step).cs && Apply(s, step).cs[k].stop
    ensures var (c, d) := (s.cs[k], Apply(s, step).cs[k]);
            || (d.handed == c.handed && (Last(c.pc) ==> Last(d.pc)))
            || (!Last(c.pc) && Last(d.pc) && |d.handed| == |c.handed| + 1)
  {
  }

  /** In the middle of a handler call, or done. */
  predicate Last(pc: Pc) { pc.Ended? || (pc.Batch? && pc.busy) }

  /** From a stop request on, the consumer is handed at most one more message, and it goes round again only when a
      wake won over the stop while it waited. */
  lemma {:induction false} StopIsPrompt(run: seq<Sys>, steps: seq<Step>, j: nat, n: nat, k: Key)
    requires Behavior(run, steps) && StoppedAt(steps, j, n, k)
    ensures k in run[j].cs && k in run[n].cs && run[n].cs[k].stop
    ensures |run[n].cs[k].handed| <= |run[j].cs[k].handed| + 1
    ensures |run[n].cs[k].handed| == |run[j].cs[k].handed| + 1 ==> Last(run[n].cs[k].pc)
    ensures forall act | n < |steps| && steps[n] == Run(k, act) && run[n + 1].cs[k].pc.Top? :: act == Wakeup
  {
    StepOf(run, steps, n - 1);
    if n < |steps| {
      StepOf(run, steps, n);
    }
    if n - 1 > j {
      StopIsPrompt(run, steps, j, n - 1, k);
      StoppedStep(run[n - 1], steps[n - 1], k);
    }
  }
}
