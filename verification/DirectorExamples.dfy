/**
  Runs of the director protocol: a signal that is run, saved, broadcast and acked, and one that is given up.
*/
module DirectorExamples {
  import opened Basics
  import opened DirectorCore
  import opened ScopeStore
  import opened DirectorProtocol

  predicate Goes(s: Sys, step: Step, after: Sys) { Enabled(s, step) && after == Apply(s, step) }

  lemma RunsAre(run: seq<Sys>, steps: seq<Step>)
    requires |run| == |steps| + 1 && Init(run[0])
    requires forall i | 0 <= i < |steps| :: Goes(run[i], steps[i], run[i + 1])
    ensures Behavior(run, steps)
  {
    hide Enabled, Apply, Init;
    forall i | 0 <= i < |steps| ensures Enabled(run[i], steps[i]) && run[i + 1] == Apply(run[i], steps[i]) {
      assert Goes(run[i], steps[i], run[i + 1]);
    }
  }

  // ---- a signal that runs clean ---------------------------------------------------------------

  const SIGNAL := Signal("zone", Some(1), false)

  function Fresh(cap: nat, budget: nat): Broker { Broker([], cap, budget, 0, {}, {}, {}, map[], map[], map[], 0) }

  function Queued(cap: nat, budget: nat): Broker { Fresh(cap, budget).(stream := [SIGNAL]) }

  function Handed(cap: nat, budget: nat): Broker {
    Queued(cap, budget).(front := 1, attempts := map[0 := 1], inflight := {0}, waiting := map[0 := 0], nextToken := 1)
  }

  function Answered(cap: nat, budget: nat): Broker { Handed(cap, budget).(replies := map[0 := true]) }

  function Settled(cap: nat, budget: nat): Broker {
    Answered(cap, budget).(waiting := map[], inflight := {}, done := {0})
  }

  const LEADER: Dir := Dir(LEADING, [], true, Idle, {})

  function Running(ops: seq<HandlerOp>, pending: Pending, local: Local): Dir {
    Dir(local, [], true, Busy(OnSignal(0, 0), LEADING, ops, pending), {})
  }

  function Stage0(value: Value, stage: Stage): Pending { InSet("k", value, true, stage) }

  function TheOp(value: Value): HandlerOp { SetOp("k", value, true, SetIO(Absent, Saved(1), Absent)) }

  function Cached(value: Value): Local { LEADING.(state := map["k" := value], versions := map["k" := 1]) }

  function One(b: Broker, store: Store, d: Dir, deltas: seq<Delta>, clean: map<nat, SignalRun>): Sys {
    Sys(store, b, map[0 := d], deltas, clean)
  }

  lemma UpToLed(cap: nat, budget: nat)
    ensures Goes(One(Fresh(cap, budget), map[], FRESH_DIR, [], map[]), Publish(SIGNAL),
                 One(Queued(cap, budget), map[], FRESH_DIR, [], map[]))
    ensures Goes(One(Queued(cap, budget), map[], FRESH_DIR, [], map[]), Campaign(0, true, true),
                 One(Queued(cap, budget), map[], LEADER, [], map[]))
  {
    assert [] + [SIGNAL] == [SIGNAL];
    assert map[0 := FRESH_DIR][0 := LEADER] == map[0 := LEADER];
  }

  lemma UpToHanded(cap: nat, budget: nat)
    requires cap > 0
    ensures Goes(One(Queued(cap, budget), map[], LEADER, [], map[]), Deliver(0),
                 One(Handed(cap, budget), map[], LEADER.(inbox := [InMsg(0, 0)]), [], map[]))
  {
    assert Unresolved(Queued(cap, budget)) == {};
    var waits := LEADER.(inbox := [InMsg(0, 0)]);
    assert map[0 := LEADER][0 := waits] == map[0 := waits] && [] + [InMsg(0, 0)] == [InMsg(0, 0)];
    assert map[][0 := 1] == map[0 := 1] && map[][0 := 0] == map[0 := 0] && {} + {0} == {0};
  }

  lemma UpToTaken(cap: nat, budget: nat)
    ensures Goes(One(Handed(cap, budget), map[], LEADER.(inbox := [InMsg(0, 0)]), [], map[]), Take(0),
                 One(Handed(cap, budget), map[], Running([], NoSet, LEADING), [], map[]))
  {
    var waits := LEADER.(inbox := [InMsg(0, 0)]);
    assert [InMsg(0, 0)][1..] == [];
    assert map[0 := waits][0 := Running([], NoSet, LEADING)] == map[0 := Running([], NoSet, LEADING)];
  }

  lemma UpToSeeded(cap: nat, budget: nat, value: Value)
    ensures var b := Handed(cap, budget);
            && Goes(One(b, map[], Running([], NoSet, LEADING), [], map[]), DoSet(0, "k", value, true),
                    One(b, map[], Running([], Stage0(value, Seeding), LEADING), [], map[]))
            && Goes(One(b, map[], Running([], Stage0(value, Seeding), LEADING), [], map[]), SeedLoad(0, false),
                    One(b, map[], Running([], Stage0(value, Saving(Absent)), LEADING), [], map[]))
  {
    var (d0, d1) := (Running([], NoSet, LEADING), Running([], Stage0(value, Seeding), LEADING));
    var d2 := Running([], Stage0(value, Saving(Absent)), LEADING);
    assert map[0 := d0][0 := d1] == map[0 := d1] && map[0 := d1][0 := d2] == map[0 := d2];
  }

  lemma UpToSaved(cap: nat, budget: nat, value: Value)
    requires value != ""
    ensures var b := Handed(cap, budget);
            Goes(One(b, map[], Running([], Stage0(value, Saving(Absent)), LEADING), [], map[]), CasSave(0, Fine),
                 One(b, map["k" := [value]], Running([TheOp(value)], NoSet, Cached(value)), [Delta("k", value, 1)],
                   map[]))
  {
    var (d2, d3) := (Running([], Stage0(value, Saving(Absent)), LEADING),
      Running([TheOp(value)], NoSet, Cached(value)));
    assert map[0 := d2][0 := d3] == map[0 := d3];
    assert [] + [TheOp(value)] == [TheOp(value)] && [] + [Delta("k", value, 1)] == [Delta("k", value, 1)];
    assert map[]["k" := value] == map["k" := value] && map[]["k" := 1] == map["k" := 1];
    assert map[]["k" := [value]] == map["k" := [value]];
  }

  function Through(value: Value): Dir { Dir(Cached(value).(applied := map["zone" := 1]), [], true, Idle, {0}) }

  function Clean(value: Value): map<nat, SignalRun> { map[0 := SignalRun(LEADING, [TheOp(value)])] }

  lemma UpToAnswered(cap: nat, budget: nat, value: Value)
    ensures var (store, deltas) := (map["k" := [value]], [Delta("k", value, 1)]);
            Goes(One(Handed(cap, budget), store, Running([TheOp(value)], NoSet, Cached(value)), deltas, map[]),
                 EndWork(0),
                 One(Answered(cap, budget), store, Through(value), deltas, Clean(value)))
  {
    var (was, now) := (Running([TheOp(value)], NoSet, Cached(value)), Through(value));
    assert map[0 := was][0 := now] == map[0 := now];
    assert map[]["zone" := 1] == map["zone" := 1] && {} + {0} == {0} && map[][0 := true] == map[0 := true];
    assert map[][0 := SignalRun(LEADING, [TheOp(value)])] == Clean(value);
  }

  lemma UpToSettled(cap: nat, budget: nat, value: Value)
    ensures var (store, deltas) := (map["k" := [value]], [Delta("k", value, 1)]);
            Goes(One(Answered(cap, budget), store, Through(value), deltas, Clean(value)), Relay(0),
                 One(Settled(cap, budget), store, Through(value), deltas, Clean(value)))
  {
    assert map[0 := 0] - {0} == map[] && {0} - {0} == {} && {} + {0} == {0};
  }

  /** A signal is published, delivered to a leader, and run; its set lands, is cached and broadcast; and the stream
      moves past it. */
  lemma CleanRunHappens(cap: nat, budget: nat, value: Value) returns (run: seq<Sys>, steps: seq<Step>)
    requires cap > 0 && value != ""
    ensures Behavior(run, steps)
    ensures steps == [Publish(SIGNAL), Campaign(0, true, true), Deliver(0), Take(0), DoSet(0, "k", value, true),
                      SeedLoad(0, false), CasSave(0, Fine), EndWork(0), Relay(0)]
    ensures var s := run[9];
            && s.store == map["k" := [value]] && s.deltas == [Delta("k", value, 1)] && s.broker.done == {0}
            && 0 in s.dirs && s.dirs[0].local.state == map["k" := value] && s.dirs[0].local.applied == map["zone" := 1]
  {
    hide Goes, Behavior;
    var (b, store, deltas) := (Handed(cap, budget), map["k" := [value]], [Delta("k", value, 1)]);
    var (d, clean) := (Through(value), Clean(value));
    UpToLed(cap, budget);
    UpToHanded(cap, budget);
    UpToTaken(cap, budget);
    UpToSeeded(cap, budget, value);
    UpToSaved(cap, budget, value);
    UpToAnswered(cap, budget, value);
    UpToSettled(cap, budget, value);
    steps := [Publish(SIGNAL), Campaign(0, true, true), Deliver(0), Take(0), DoSet(0, "k", value, true),
              SeedLoad(0, false), CasSave(0, Fine), EndWork(0), Relay(0)];
    run := [One(Fresh(cap, budget), map[], FRESH_DIR, [], map[]), One(Queued(cap, budget), map[], FRESH_DIR, [], map[]),
            One(Queued(cap, budget), map[], LEADER, [], map[]),
            One(b, map[], LEADER.(inbox := [InMsg(0, 0)]), [], map[]),
              One(b, map[], Running([], NoSet, LEADING), [], map[]),
            One(b, map[], Running([], Stage0(value, Seeding), LEADING), [], map[]),
            One(b, map[], Running([], Stage0(value, Saving(Absent)), LEADING), [], map[]),
            One(b, store, Running([TheOp(value)], NoSet, Cached(value)), deltas, map[]),
            One(Answered(cap, budget), store, d, deltas, clean), One(Settled(cap, budget), store, d, deltas, clean)];
    RunsAre(run, steps);
  }

  // ---- a signal given up ----------------------------------------------------------------------

  function Freed(cap: nat, budget: nat): Broker { Handed(cap, budget).(inflight := {}) }

  function GivenUp(cap: nat, budget: nat): Broker { Freed(cap, budget).(done := {0}, parked := {0}) }

  lemma UpToParked(cap: nat, budget: nat)
    requires budget <= 1
    ensures var waits := LEADER.(inbox := [InMsg(0, 0)]);
            && Goes(One(Handed(cap, budget), map[], waits, [], map[]), Crash(0),
                    One(Handed(cap, budget), map[], FRESH_DIR, [], map[]))
            && Goes(One(Handed(cap, budget), map[], FRESH_DIR, [], map[]), Expire(0),
                    One(Freed(cap, budget), map[], FRESH_DIR, [], map[]))
            && Goes(One(Freed(cap, budget), map[], FRESH_DIR, [], map[]), Park(0),
                    One(GivenUp(cap, budget), map[], FRESH_DIR, [], map[]))
  {
    var waits := LEADER.(inbox := [InMsg(0, 0)]);
    assert map[0 := waits][0 := FRESH_DIR] == map[0 := FRESH_DIR];
    assert {0} - {0} == {} && {} + {0} == {0};
  }

  /** A director that crashes with a signal in its inbox leaves it to the broker, which parks it once its budget, here
      one delivery, is used up. */
  lemma ParkedRunHappens(cap: nat) returns (run: seq<Sys>, steps: seq<Step>)
    requires cap > 0
    ensures Behavior(run, steps)
    ensures steps == [Publish(SIGNAL), Campaign(0, true, true), Deliver(0), Crash(0), Expire(0), Park(0)]
    ensures run[6].broker.parked == run[6].broker.done == {0} && run[6].clean == map[]
  {
    hide Goes, Behavior;
    UpToLed(cap, 1);
    UpToHanded(cap, 1);
    UpToParked(cap, 1);
    steps := [Publish(SIGNAL), Campaign(0, true, true), Deliver(0), Crash(0), Expire(0), Park(0)];
    run := [One(Fresh(cap, 1), map[], FRESH_DIR, [], map[]), One(Queued(cap, 1), map[], FRESH_DIR, [], map[]),
            One(Queued(cap, 1), map[], LEADER, [], map[]),
            One(Handed(cap, 1), map[], LEADER.(inbox := [InMsg(0, 0)]), [], map[]),
            One(Handed(cap, 1), map[], FRESH_DIR, [], map[]), One(Freed(cap, 1), map[], FRESH_DIR, [], map[]),
            One(GivenUp(cap, 1), map[], FRESH_DIR, [], map[])];
    RunsAre(run, steps);
  }
}
