/**
  Three things the durable stand-in does, each shown by a run: a stop loses a message that was drained and not
  handed; a close leaves a consumer parked instead of ending it; and a message published to a waiting consumer
  wakes it and is handed to it.
*/
module DurableHazards {
  import opened DurableLog
  import opened DurableConsumer

  ghost predicate Goes(s: Sys, step: Step, after: Sys) { Enabled(s, step) && after == Apply(s, step) }

  function With(js: Js, k: Key, c: Consumer): Sys { Sys(js, map[k := c]) }

  // ---- a stop ---------------------------------------------------------------------------------

  /** Two messages a stream stores one after the other. */
  predicate Both(a: Message, b: Message) { b.key == "" || a.key != b.key }

  function OneStored(k: Key, a: Message): Js { Append(EMPTY, k.0, a) }

  function TwoStored(k: Key, a: Message, b: Message): Js { Append(OneStored(k, a), k.0, b) }

  lemma TwoStoredIs(k: Key, a: Message, b: Message)
    requires Both(a, b)
    ensures var js := TwoStored(k, a, b);
            && Log(js, k.0) == [a.(subject := k.0), b.(subject := k.0)] && Cursor(js, k.0, k.1) == 0
            && k.0 in js.wakers && js.wakers[k.0] == 1 && !js.closed
  {
    assert Log(OneStored(k, a), k.0) == [a.(subject := k.0)];
    assert Stores(OneStored(k, a), k.0, b);
  }

  lemma BothStored(k: Key, a: Message, b: Message)
    ensures Goes(Sys(EMPTY, map[]), Publish(k.0, a), Sys(OneStored(k, a), map[]))
    ensures Goes(Sys(OneStored(k, a), map[]), Publish(k.0, b), Sys(TwoStored(k, a, b), map[]))
  {
  }

  function Fresh(): Consumer { Consumer(Top, false, 2, 0, 2, []) }

  function Mid(k: Key, a: Message, b: Message): Consumer {
    Consumer(Batch(1, [b.(subject := k.0)], true), false, 1, 0, 2, [(a.(subject := k.0), true)])
  }

  lemma UpToDrain(k: Key, a: Message, b: Message)
    requires Both(a, b)
    ensures var js := TwoStored(k, a, b);
            var batch := [a.(subject := k.0), b.(subject := k.0)];
            && Goes(Sys(js, map[]), Consume(k), With(js, k, Fresh()))
            && Goes(With(js, k, Fresh()), Run(k, Capture), With(js, k, Fresh().(pc := Captured(1))))
            && Goes(With(js, k, Fresh().(pc := Captured(1))), Run(k, CheckOpen), With(js, k, Fresh().(pc := Open(1))))
            && Goes(With(js, k, Fresh().(pc := Open(1))), Run(k, DrainLog),
                    With(Drain(js, k.0, k.1), k, Fresh().(pc := Batch(1, batch, false))))
  {
    hide TwoStored, Drain;
    TwoStoredIs(k, a, b);
  }

  lemma UpToStop(k: Key, a: Message, b: Message, js: Js)
    ensures var (c, batch) := (Mid(k, a, b), [a.(subject := k.0), b.(subject := k.0)]);
            && Goes(With(js, k, Fresh().(pc := Batch(1, batch, false))), Run(k, Hand), With(js, k, c))
            && Goes(With(js, k, c), RequestStop(k), With(js, k, c.(stop := true)))
            && Goes(With(js, k, c.(stop := true)), Run(k, Return),
               With(js, k, c.(stop := true, pc := Ended(c.pc.rest))))
  {
    var batch := [a.(subject := k.0), b.(subject := k.0)];
    assert batch[1..] == [b.(subject := k.0)];
    assert [] + [(a.(subject := k.0), true)] == [(a.(subject := k.0), true)];
  }

  lemma ThenNext(k: Key, a: Message, b: Message, c: Consumer)
    requires Both(a, b) && c.pc.Ended?
    ensures var js := Drain(TwoStored(k, a, b), k.0, k.1);
            Goes(With(js, k, c), Consume(k), With(js, k, Consumer(Top, false, 0, 2, 2, [])))
  {
    hide TwoStored, Drain;
    var js := TwoStored(k, a, b);
    TwoStoredIs(k, a, b);
    DrainIs(js, k.0, k.1, k.0, k.1);
    DrainFrame(js, k.0, k.1);
  }

  function StopSteps(k: Key, a: Message, b: Message): seq<Step> {
    [Publish(k.0, a), Publish(k.0, b), Consume(k), Run(k, Capture), Run(k, CheckOpen), Run(k, DrainLog),
     Run(k, Hand), RequestStop(k), Run(k, Return), Consume(k)]
  }

  function StopRun(k: Key, a: Message, b: Message): seq<Sys> {
    var (js, c) := (TwoStored(k, a, b), Mid(k, a, b));
    var (drained, batch) := (Drain(js, k.0, k.1), [a.(subject := k.0), b.(subject := k.0)]);
    [Sys(EMPTY, map[]), Sys(OneStored(k, a), map[]), Sys(js, map[]), With(js, k, Fresh()),
     With(js, k, Fresh().(pc := Captured(1))), With(js, k, Fresh().(pc := Open(1))),
     With(drained, k, Fresh().(pc := Batch(1, batch, false))), With(drained, k, c), With(drained, k, c.(stop := true)),
     With(drained, k, c.(stop := true, pc := Ended(c.pc.rest))), With(drained, k, Consumer(Top, false, 0, 2, 2, []))]
  }

  lemma StopRunGoes(k: Key, a: Message, b: Message)
    requires Both(a, b)
    ensures forall i | 0 <= i < 10 :: Goes(StopRun(k, a, b)[i], StopSteps(k, a, b)[i], StopRun(k, a, b)[i + 1])
  {
    hide Goes, TwoStored, OneStored, Drain, With, Fresh;
    BothStored(k, a, b);
    UpToDrain(k, a, b);
    UpToStop(k, a, b, Drain(TwoStored(k, a, b), k.0, k.1));
    ThenNext(k, a, b, Mid(k, a, b).(stop := true, pc := Ended(Mid(k, a, b).pc.rest)));
  }

  lemma RunsAre(run: seq<Sys>, steps: seq<Step>)
    requires |run| == |steps| + 1 && run[0] == Sys(EMPTY, map[])
    requires forall i | 0 <= i < |steps| :: Goes(run[i], steps[i], run[i + 1])
    ensures Behavior(run, steps)
  {
    hide Enabled, Apply;
    forall i | 0 <= i < |steps| ensures Enabled(run[i], steps[i]) && run[i + 1] == Apply(run[i], steps[i]) {
      assert Goes(run[i], steps[i], run[i + 1]);
    }
  }

  /** Any two messages the stream stores: drained together, the first handed, a stop, and the next consumer
      under the key starts behind the second, which by RestIsNeverHanded nobody under the key ever gets. */
  lemma StopLosesAMessage(k: Key, a: Message, b: Message) returns (run: seq<Sys>, steps: seq<Step>)
    requires Both(a, b)
    ensures Behavior(run, steps) && |steps| == 10 && steps[9] == Consume(k) && k in run[9].cs && k in run[10].cs
    ensures Log(run[10].js, k.0) == [a.(subject := k.0), b.(subject := k.0)]
    ensures run[9].cs[k].handed == [(a.(subject := k.0), true)] && run[9].cs[k].pc == Ended([b.(subject := k.0)])
    ensures run[10].cs[k].start == 2
  {
    hide Goes, TwoStored, Drain, Behavior;
    run, steps := StopRun(k, a, b), StopSteps(k, a, b);
    StopRunGoes(k, a, b);
    RunsAre(run, steps);
    TwoStoredIs(k, a, b);
    DrainFrame(TwoStored(k, a, b), k.0, k.1);
  }

  // ---- a close --------------------------------------------------------------------------------

  function Watched(k: Key): Js { EMPTY.(wakers := map[k.0 := 0], made := 1) }

  function Emptied(k: Key): Js { Watched(k).(cursor := map[k.0 := map[]]) }

  function ClosedStream(k: Key): Js { Emptied(k).(closed := true, wakers := map[k.0 := 1], made := 2, shut := {0}) }

  function Idle(pc: Pc): Consumer { Consumer(pc, false, 0, 0, 0, []) }

  lemma UpToWait(k: Key)
    ensures Goes(Sys(EMPTY, map[]), Consume(k), With(EMPTY, k, Idle(Top)))
    ensures Goes(With(EMPTY, k, Idle(Top)), Run(k, Capture), With(Watched(k), k, Idle(Captured(0))))
    ensures Goes(With(Watched(k), k, Idle(Captured(0))), Run(k, CheckOpen), With(Watched(k), k, Idle(Open(0))))
    ensures Goes(With(Watched(k), k, Idle(Open(0))), Run(k, DrainLog), With(Emptied(k), k, Idle(Waiting(0))))
  {
  }

  lemma UpToPark(k: Key)
    ensures Goes(With(Emptied(k), k, Idle(Waiting(0))), Close(ClosedStream(k)),
            With(ClosedStream(k), k, Idle(Waiting(0))))
    ensures Goes(With(ClosedStream(k), k, Idle(Waiting(0))), Run(k, Wakeup), With(ClosedStream(k), k, Idle(Top)))
    ensures Goes(With(ClosedStream(k), k, Idle(Top)), Run(k, Capture), With(ClosedStream(k), k, Idle(Captured(1))))
    ensures Goes(With(ClosedStream(k), k, Idle(Captured(1))), Run(k, CheckOpen),
            With(ClosedStream(k), k, Idle(Waiting(1))))
  {
    var open := Emptied(k).wakers;
    assert open[k.0] == 0;
    assert {} + open.Values == {0};
  }

  /** A consumer waits, the stream is closed, the consumer wakes and waits again, on a channel nobody closes:
      it is live, was never stopped, and none of its steps is possible. */
  lemma CloseLeavesConsumerParked(k: Key) returns (run: seq<Sys>, steps: seq<Step>)
    ensures Behavior(run, steps) && |steps| == 8 && steps[4].Close?
    ensures Live(run[8], k) && run[8].js.closed && !run[8].cs[k].stop
    ensures forall act :: !CanRun(run[8].js, run[8].cs[k], act)
  {
    var (js, done) := (Emptied(k), ClosedStream(k));
    steps := [Consume(k), Run(k, Capture), Run(k, CheckOpen), Run(k, DrainLog), Close(done),
              Run(k, Wakeup), Run(k, Capture), Run(k, CheckOpen)];
    run := [Sys(EMPTY, map[]), With(EMPTY, k, Idle(Top)), With(Watched(k), k, Idle(Captured(0))),
            With(Watched(k), k, Idle(Open(0))),
            With(js, k, Idle(Waiting(0))), With(done, k, Idle(Waiting(0))), With(done, k, Idle(Top)),
            With(done, k, Idle(Captured(1))), With(done, k, Idle(Waiting(1)))];
    hide Goes, Behavior;
    UpToWait(k);
    UpToPark(k);
    RunsAre(run, steps);
  }

  // ---- what does work -------------------------------------------------------------------------

  function Woken(k: Key, msg: Message): Js { Append(Emptied(k), k.0, msg) }

  function Stamped(k: Key, msg: Message): Message { msg.(subject := k.0) }

  function Given(k: Key, msg: Message, pc: Pc): Consumer { Consumer(pc, false, 0, 0, 0, [(Stamped(k, msg), false)]) }

  lemma WokenIs(k: Key, msg: Message)
    ensures var js := Woken(k, msg);
            && Log(js, k.0) == [Stamped(k, msg)] && Cursor(js, k.0, k.1) == 0 && !js.closed
            && k.0 in js.wakers && js.wakers[k.0] == 1 && js.shut == {0}
  {
    assert Stores(Emptied(k), k.0, msg);
    assert [] + [Stamped(k, msg)] == [Stamped(k, msg)] && {} + {0} == {0};
  }

  lemma UpToDrained(k: Key, msg: Message)
    ensures var (js, idle) := (Woken(k, msg), With(Woken(k, msg), k, Idle(Top)));
            && Goes(With(Emptied(k), k, Idle(Waiting(0))), Publish(k.0, msg), With(js, k, Idle(Waiting(0))))
            && Goes(With(js, k, Idle(Waiting(0))), Run(k, Wakeup), idle)
            && Goes(idle, Run(k, Capture), With(js, k, Idle(Captured(1))))
            && Goes(With(js, k, Idle(Captured(1))), Run(k, CheckOpen), With(js, k, Idle(Open(1))))
            && Goes(With(js, k, Idle(Open(1))), Run(k, DrainLog),
                    With(Drain(js, k.0, k.1), k, Idle(Batch(1, [Stamped(k, msg)], false))))
  {
    WokenIs(k, msg);
    hide Drain, Log, Cursor;
  }

  lemma UpToTop(k: Key, msg: Message, js: Js)
    ensures Goes(With(js, k, Idle(Batch(1, [Stamped(k, msg)], false))), Run(k, Hand),
                 With(js, k, Given(k, msg, Batch(1, [], true))))
    ensures Goes(With(js, k, Given(k, msg, Batch(1, [], true))), Run(k, Return),
            With(js, k, Given(k, msg, Batch(1, [], false))))
    ensures Goes(With(js, k, Given(k, msg, Batch(1, [], false))), Run(k, Again), With(js, k, Given(k, msg, Top)))
  {
    assert [Stamped(k, msg)][1..] == [] && [] + [(Stamped(k, msg), false)] == [(Stamped(k, msg), false)];
  }

  lemma UpToEnded(k: Key, msg: Message)
    ensures var js := Drain(Woken(k, msg), k.0, k.1);
            && Goes(With(js, k, Given(k, msg, Top)), Run(k, Capture), With(js, k, Given(k, msg, Captured(1))))
            && Goes(With(js, k, Given(k, msg, Captured(1))), Run(k, CheckOpen), With(js, k, Given(k, msg, Open(1))))
            && Goes(With(js, k, Given(k, msg, Open(1))), Run(k, DrainLog),
                    With(Drain(js, k.0, k.1), k, Given(k, msg, Waiting(1))))
  {
    var was := Woken(k, msg);
    WokenIs(k, msg);
    DrainIs(was, k.0, k.1, k.0, k.1);
    DrainFrame(was, k.0, k.1);
    hide Drain, Cursor;
  }

  lemma UpToStopped(k: Key, msg: Message, js: Js)
    ensures var waits := Given(k, msg, Waiting(1));
            && Goes(With(js, k, waits), RequestStop(k), With(js, k, waits.(stop := true)))
            && Goes(With(js, k, waits.(stop := true)), WakeAll(k.0), With(Wake(js, k.0), k, waits.(stop := true)))
            && Goes(With(Wake(js, k.0), k, waits.(stop := true)), Run(k, SeeStop),
                    With(Wake(js, k.0), k, waits.(stop := true, pc := Ended([]))))
  {
  }

  function FirstSteps(k: Key, msg: Message): seq<Step> {
    [Consume(k), Run(k, Capture), Run(k, CheckOpen), Run(k, DrainLog), Publish(k.0, msg),
     Run(k, Wakeup), Run(k, Capture), Run(k, CheckOpen), Run(k, DrainLog)]
  }

  function FirstRun(k: Key, msg: Message): seq<Sys> {
    var w := Woken(k, msg);
    [Sys(EMPTY, map[]), With(EMPTY, k, Idle(Top)), With(Watched(k), k, Idle(Captured(0))),
     With(Watched(k), k, Idle(Open(0))), With(Emptied(k), k, Idle(Waiting(0))), With(w, k, Idle(Waiting(0))),
     With(w, k, Idle(Top)), With(w, k, Idle(Captured(1))), With(w, k, Idle(Open(1)))]
  }

  function LaterSteps(k: Key): seq<Step> {
    [Run(k, Hand), Run(k, Return), Run(k, Again), Run(k, Capture), Run(k, CheckOpen), Run(k, DrainLog), RequestStop(k),
     WakeAll(k.0), Run(k, SeeStop)]
  }

  function LaterRun(k: Key, msg: Message): seq<Sys> {
    var j := Drain(Woken(k, msg), k.0, k.1);
    var (j2, waits) := (Drain(j, k.0, k.1), Given(k, msg, Waiting(1)));
    [With(j, k, Idle(Batch(1, [Stamped(k, msg)], false))), With(j, k, Given(k, msg, Batch(1, [], true))),
     With(j, k, Given(k, msg, Batch(1, [], false))), With(j, k, Given(k, msg, Top)),
     With(j, k, Given(k, msg, Captured(1))), With(j, k, Given(k, msg, Open(1))), With(j2, k, waits),
     With(j2, k, waits.(stop := true)), With(Wake(j2, k.0), k, waits.(stop := true)),
     With(Wake(j2, k.0), k, waits.(stop := true, pc := Ended([])))]
  }

  lemma FirstGoes(k: Key, msg: Message)
    ensures var (run, steps) := (FirstRun(k, msg), FirstSteps(k, msg));
            && |run| == |steps| == 9 && (forall i | 0 <= i < |steps| - 1 :: Goes(run[i], steps[i], run[i + 1]))
            && Goes(run[8], steps[8], LaterRun(k, msg)[0])
  {
    hide Goes, Drain, Append, Wake, With, Idle;
    UpToWait(k);
    UpToDrained(k, msg);
  }

  lemma LaterGoes(k: Key, msg: Message)
    ensures var (run, steps) := (LaterRun(k, msg), LaterSteps(k));
            |run| == 10 && |steps| == 9 && forall i | 0 <= i < |steps| :: Goes(run[i], steps[i], run[i + 1])
  {
    hide Goes, Drain, Append, Wake, With, Idle, Stamped;
    var j := Drain(Woken(k, msg), k.0, k.1);
    UpToTop(k, msg, j);
    UpToEnded(k, msg);
    UpToStopped(k, msg, Drain(j, k.0, k.1));
  }

  /** Two stretches that meet are a run. */
  lemma StretchesMeet(a: seq<Sys>, x: seq<Step>, b: seq<Sys>, y: seq<Step>)
    requires |a| == |x| > 0 && |b| == |y| + 1 && a[0] == Sys(EMPTY, map[])
    requires forall i | 0 <= i < |x| - 1 :: Goes(a[i], x[i], a[i + 1])
    requires Goes(a[|x| - 1], x[|x| - 1], b[0])
    requires forall i | 0 <= i < |y| :: Goes(b[i], y[i], b[i + 1])
    ensures Behavior(a + b, x + y)
  {
    hide Goes, Behavior;
    var (run, steps) := (a + b, x + y);
    forall i | 0 <= i < |steps| ensures Goes(run[i], steps[i], run[i + 1]) {
      if i >= |x| {
        assert Goes(b[i - |x|], y[i - |x|], b[i - |x| + 1]);
      } else if i < |x| - 1 {
        assert Goes(a[i], x[i], a[i + 1]);
      }
    }
    RunsAre(run, steps);
  }

  /** A consumer waits; a message is published, wakes it and is handed to it, not as backlog; it waits again,
      is asked to stop, and ends with nothing left over. */
  lemma LiveMessageIsHanded(k: Key, msg: Message) returns (run: seq<Sys>, steps: seq<Step>)
    ensures Behavior(run, steps) && |steps| == 18 && steps[4] == Publish(k.0, msg) && steps[15] == RequestStop(k)
    ensures k in run[18].cs && run[18].cs[k].handed == [(Stamped(k, msg), false)] && run[18].cs[k].pc == Ended([])
  {
    hide Goes, Behavior, Drain, Append, Wake;
    FirstGoes(k, msg);
    LaterGoes(k, msg);
    run, steps := FirstRun(k, msg) + LaterRun(k, msg), FirstSteps(k, msg) + LaterSteps(k);
    StretchesMeet(FirstRun(k, msg), FirstSteps(k, msg), LaterRun(k, msg), LaterSteps(k));
  }
}
