/**
  What the delivery theorems rest on, shown by a run that breaks them: whenever two messages may be
  outstanding and one may be delivered twice, a signal can be suppressed and consumed although nobody ever
  applied it.
*/
module DirectorHazards {
  import opened Basics
  import opened DirectorCore
  import opened DirectorProtocol

  const FIRST := Signal("zone", Some(1), false)
  const SECOND := Signal("zone", Some(2), false)

  /** Two signals, both outstanding.  The first loses its write and is NAK'd, the second is applied, and
      the redelivered first is suppressed, acked and gone. */
  const OVERTAKEN: seq<Step> := [
    Publish(FIRST), Publish(SECOND), Campaign(0, true, true), Deliver(0), Deliver(0),
    Take(0), DoSet(0, "k", "v", false), SeedLoad(0, true), EndWork(0), Relay(0),
    Take(0), EndWork(0), Redeliver(0, 0), Take(0), Relay(2)]

  const FAILED_SET := SetOp("k", "v", false, SetIO(LoadError, Lost, Absent))

  /** Any settings under which messages can overtake. */
  datatype Limits = Limits(cap: nat, budget: nat)

  predicate Overtaking(k: Limits) { k.cap >= 2 && k.budget >= 2 }

  function At(b: Broker, dir: Dir, clean: map<nat, SignalRun>): Sys {
    Sys(map[], b, map[0 := dir], [], clean)
  }

  function B0(k: Limits): Broker { Broker([], k.cap, k.budget, 0, {}, {}, {}, map[], map[], map[], 0) }
  function B2(k: Limits): Broker { B0(k).(stream := [FIRST, SECOND]) }
  function B4(k: Limits): Broker {
    B2(k).(front := 1, attempts := map[0 := 1], inflight := {0}, waiting := map[0 := 0], nextToken := 1)
  }
  function B5(k: Limits): Broker {
    B2(k).(front := 2, attempts := map[0 := 1, 1 := 1], inflight := {0, 1}, waiting := map[0 := 0, 1 := 1],
      nextToken := 2)
  }
  function B9(k: Limits): Broker { B5(k).(replies := map[0 := false]) }
  function B10(k: Limits): Broker { B9(k).(waiting := map[1 := 1], inflight := {1}) }
  function B12(k: Limits): Broker { B10(k).(replies := map[0 := false, 1 := true]) }
  function B13(k: Limits): Broker {
    B12(k).(attempts := map[0 := 2, 1 := 1], inflight := {0, 1}, waiting := map[1 := 1, 2 := 0], nextToken := 3)
  }
  function B14(k: Limits): Broker { B13(k).(replies := map[0 := false, 1 := true, 2 := true]) }
  function B15(k: Limits): Broker { B14(k).(waiting := map[1 := 1], inflight := {1}, done := {0}) }

  function D3(): Dir { Dir(LEADING, [], true, Idle, {}) }
  function D4(): Dir { D3().(inbox := [InMsg(0, 0)]) }
  function D5(): Dir { D3().(inbox := [InMsg(0, 0), InMsg(1, 1)]) }
  function D6(): Dir { D3().(inbox := [InMsg(1, 1)], pc := Busy(OnSignal(0, 0), LEADING, [], NoSet)) }
  function D7(): Dir { D6().(pc := Busy(OnSignal(0, 0), LEADING, [], InSet("k", "v", false, Seeding))) }
  function D8(): Dir { D6().(local := Fail(LEADING), pc := Busy(OnSignal(0, 0), LEADING, [FAILED_SET], NoSet)) }
  function D9(): Dir { D3().(inbox := [InMsg(1, 1)], local := Fail(LEADING)) }
  function D11(): Dir { D3().(pc := Busy(OnSignal(1, 1), Fail(LEADING), [], NoSet)) }
  function D12(): Dir { Dir(LEADING.(applied := map["zone" := 2]), [], true, Idle, {1}) }
  function D13(): Dir { D12().(inbox := [InMsg(0, 2)]) }
  function Clean12(): map<nat, SignalRun> { map[1 := SignalRun(Fail(LEADING), [])] }

  predicate Goes(s: Sys, step: Step, s': Sys) { Enabled(s, step) && s' == Apply(s, step) }

  lemma Go0(k: Limits)
    requires Overtaking(k)
    ensures Goes(At(B0(k), FRESH_DIR, map[]), Publish(FIRST), At(B0(k).(stream := [FIRST]), FRESH_DIR, map[]))
    ensures Goes(At(B0(k).(stream := [FIRST]), FRESH_DIR, map[]), Publish(SECOND), At(B2(k), FRESH_DIR, map[]))
    ensures Goes(At(B2(k), FRESH_DIR, map[]), Campaign(0, true, true), At(B2(k), D3(), map[]))
  {
    assert [] + [FIRST] == [FIRST];
    assert [FIRST] + [SECOND] == [FIRST, SECOND];
    assert map[0 := FRESH_DIR][0 := D3()] == map[0 := D3()];
  }

  lemma Go1(k: Limits)
    requires Overtaking(k)
    ensures Goes(At(B2(k), D3(), map[]), Deliver(0), At(B4(k), D4(), map[]))
  {
    assert Unresolved(B2(k)) == {};
    assert map[0 := D3()][0 := D4()] == map[0 := D4()];
    assert map[][0 := 1] == map[0 := 1] && map[][0 := 0] == map[0 := 0] && {} + {0} == {0};
    assert [] + [InMsg(0, 0)] == [InMsg(0, 0)];
  }

  lemma Go2(k: Limits)
    requires Overtaking(k)
    ensures Goes(At(B4(k), D4(), map[]), Deliver(0), At(B5(k), D5(), map[]))
    ensures Goes(At(B5(k), D5(), map[]), Take(0), At(B5(k), D6(), map[]))
  {
    assert Unresolved(B4(k)) == {0};
    assert map[0 := D4()][0 := D5()] == map[0 := D5()];
    assert map[0 := 1][1 := 1] == map[0 := 1, 1 := 1] && map[0 := 0][1 := 1] == map[0 := 0, 1 := 1];
    assert {0} + {1} == {0, 1};
    assert [InMsg(0, 0)] + [InMsg(1, 1)] == [InMsg(0, 0), InMsg(1, 1)];
    assert [InMsg(0, 0), InMsg(1, 1)][1..] == [InMsg(1, 1)];
    assert map[0 := D5()][0 := D6()] == map[0 := D6()];
  }

  lemma Go3(k: Limits)
    requires Overtaking(k)
    ensures Goes(At(B5(k), D6(), map[]), DoSet(0, "k", "v", false), At(B5(k), D7(), map[]))
    ensures Goes(At(B5(k), D7(), map[]), SeedLoad(0, true), At(B5(k), D8(), map[]))
  {
    assert map[0 := D6()][0 := D7()] == map[0 := D7()];
    assert [] + [FAILED_SET] == [FAILED_SET];
    assert map[0 := D7()][0 := D8()] == map[0 := D8()];
  }

  lemma Go4(k: Limits)
    requires Overtaking(k)
    ensures Goes(At(B5(k), D8(), map[]), EndWork(0), At(B9(k), D9(), map[]))
    ensures Goes(At(B9(k), D9(), map[]), Relay(0), At(B10(k), D9(), map[]))
  {
    assert map[][0 := false] == map[0 := false];
    assert map[0 := D8()][0 := D9()] == map[0 := D9()];
    assert map[0 := 0, 1 := 1] - {0} == map[1 := 1] && {0, 1} - {0} == {1};
  }

  lemma Go5(k: Limits)
    requires Overtaking(k)
    ensures Goes(At(B10(k), D9(), map[]), Take(0), At(B10(k), D11(), map[]))
    ensures Goes(At(B10(k), D11(), map[]), EndWork(0), At(B12(k), D12(), Clean12()))
  {
    assert [InMsg(1, 1)][1..] == [];
    assert map[0 := D9()][0 := D11()] == map[0 := D11()];
    assert map[0 := false][1 := true] == map[0 := false, 1 := true];
    assert map[][1 := SignalRun(Fail(LEADING), [])] == Clean12();
    assert {} + {1} == {1} && map[]["zone" := 2] == map["zone" := 2];
    assert map[0 := D11()][0 := D12()] == map[0 := D12()];
  }

  lemma Go6(k: Limits)
    requires Overtaking(k)
    ensures Goes(At(B12(k), D12(), Clean12()), Redeliver(0, 0), At(B13(k), D13(), Clean12()))
  {
    assert map[0 := 1, 1 := 1][0 := 2] == map[0 := 2, 1 := 1];
    assert map[1 := 1][2 := 0] == map[1 := 1, 2 := 0] && {1} + {0} == {0, 1};
    assert [] + [InMsg(0, 2)] == [InMsg(0, 2)];
    assert map[0 := D12()][0 := D13()] == map[0 := D13()];
  }

  lemma Go7(k: Limits)
    requires Overtaking(k)
    ensures Goes(At(B13(k), D13(), Clean12()), Take(0), At(B14(k), D12(), Clean12()))
    ensures Goes(At(B14(k), D12(), Clean12()), Relay(2), At(B15(k), D12(), Clean12()))
  {
    assert map[0 := false, 1 := true][2 := true] == map[0 := false, 1 := true, 2 := true];
    assert [InMsg(0, 2)][1..] == [];
    assert map[0 := D13()][0 := D12()] == map[0 := D12()];
    assert map[1 := 1, 2 := 0] - {2} == map[1 := 1] && {0, 1} - {0} == {1} && {} + {0} == {0};
  }

  function States(k: Limits): seq<Sys> {
    [ At(B0(k), FRESH_DIR, map[]), At(B0(k).(stream := [FIRST]), FRESH_DIR, map[]), At(B2(k), FRESH_DIR, map[]),
      At(B2(k), D3(), map[]), At(B4(k), D4(), map[]), At(B5(k), D5(), map[]), At(B5(k), D6(), map[]),
      At(B5(k), D7(), map[]), At(B5(k), D8(), map[]), At(B9(k), D9(), map[]), At(B10(k), D9(), map[]),
      At(B10(k), D11(), map[]), At(B12(k), D12(), Clean12()), At(B13(k), D13(), Clean12()),
      At(B14(k), D12(), Clean12()), At(B15(k), D12(), Clean12()) ]
  }

  lemma EachStepGoes(k: Limits, i: nat)
    requires Overtaking(k) && i < 15
    ensures Goes(States(k)[i], OVERTAKEN[i], States(k)[i + 1])
  {
    hide At, B0, B2, B4, B5, B9, B10, B12, B13, B14, B15, D3, D4, D5, D6, D7, D8, D9, D11, D12, D13, Clean12, Goes;
    Go0(k);
    Go1(k);
    Go2(k);
    Go3(k);
    Go4(k);
    Go5(k);
    Go6(k);
    Go7(k);
  }

  /** Why MaxAckPending must be 1: for every limit of two or more outstanding messages and every budget that
      allows a second delivery there is a run in which a director suppresses a signal it never applied, and
      the stream then moves past that signal although it was not malformed, was not numbered 0, was not
      parked, and has no acked run. */
  lemma OvertakingLosesASignal(k: Limits)
    requires Overtaking(k)
    ensures Behavior(States(k), OVERTAKEN)
    ensures States(k)[0].broker.cap == k.cap && States(k)[0].broker.budget == k.budget
    ensures var (s, end) := (States(k)[13], States(k)[15]);
            && 0 in s.dirs && s.dirs[0].inbox[0].idx == 0
            && Admit(s.dirs[0].local, s.broker.stream[0]) == Suppress
            && 0 !in s.dirs[0].seen && 0 !in s.clean
            && 0 in end.broker.done && 0 !in end.broker.parked
            && !end.broker.stream[0].malformed && end.broker.stream[0].num == Some(1) && 0 !in end.clean
  {
    forall i | 0 <= i < 15
      ensures Enabled(States(k)[i], OVERTAKEN[i]) && States(k)[i + 1] == Apply(States(k)[i], OVERTAKEN[i])
    {
      hide Apply, Enabled, States;
      EachStepGoes(k, i);
    }
    Assembled(k);
  }

  lemma Assembled(k: Limits)
    requires forall i | 0 <= i < 15 ::
               Enabled(States(k)[i], OVERTAKEN[i]) && States(k)[i + 1] == Apply(States(k)[i], OVERTAKEN[i])
    ensures Behavior(States(k), OVERTAKEN)
  {
    hide Apply, Enabled;
    assert Init(At(B0(k), FRESH_DIR, map[]));
  }
}
