/**
  The in-process fan-out bus: subscriptions with bounded queues, publishes delivered under one lock, and
  the rule that a gate handle may publish nothing under the comms root.  A subscription keeps, beside its
  queue, the history the theorems speak of: what it handled, what was offered to it, and what it dropped.
*/
module FanoutBus {

  const SUBJECT_ROOT := "telos.comms."
  const DEPTH: nat := 256

  datatype Role = World | Gate

  /** A message carries the role of the handle that published it. */
  datatype Message = Message(subject: string, body: string, role: Role)

  datatype Sub = Sub(
    pattern: string,
    inSet: bool,                 // still in the core's subscriber set
    shut: bool,                  // its channel was closed
    busy: bool,                  // its handler is running
    done: bool,                  // its delivery goroutine has returned
    queue: seq<Message>, handled: seq<Message>,
    offered: seq<Message>, drops: nat)

  datatype Bus = Bus(closed: bool, subs: seq<Sub>)

  datatype Outcome = Sent | Forbidden | BusClosed

  // ---- subjects -------------------------------------------------------------------------------

  predicate IsGuarded(subj: string) { SUBJECT_ROOT <= subj }

  predicate Matches(pattern: string, subject: string) {
    if pattern == subject then true
    else if |pattern| >= 2 && pattern[|pattern| - 2..] == ".*" then
      var prefix := pattern[..|pattern| - 1];
      prefix <= subject && subject[|prefix|..] != "" && '.' !in subject[|prefix|..]
    else false
  }

  /** A trailing star stands for exactly one non-empty token. */
  lemma MatchesMeans(pattern: string, subject: string)
    ensures Matches(pattern, subject) <==>
            || pattern == subject
            || exists stem: string, token: string ::
                 pattern == stem + ".*" && subject == stem + "." + token && token != "" && '.' !in token
  {
    if Matches(pattern, subject) && pattern != subject {
      var (stem, prefix) := (pattern[..|pattern| - 2], pattern[..|pattern| - 1]);
      assert prefix == stem + "." by {
        assert pattern[|pattern| - 2..][0] == '.';
      }
      assert pattern == stem + ".*" && subject == stem + "." + subject[|prefix|..];
    }
    if stem: string, token: string :|
         pattern == stem + ".*" && subject == stem + "." + token && token != "" && '.' !in token {
      var prefix := pattern[..|pattern| - 1];
      assert pattern[|pattern| - 2..] == ".*" && prefix == stem + ".";
      assert subject[|prefix|..] == token;
    }
  }

  // ---- the critical sections ------------------------------------------------------------------

  /** The non-blocking send to one subscription. */
  function Offer(s: Sub, m: Message): Sub {
    if !s.inSet || !Matches(s.pattern, m.subject) then s
    else if |s.queue| < DEPTH then s.(queue := s.queue + [m], offered := s.offered + [m])
    else s.(offered := s.offered + [m], drops := s.drops + 1)
  }

  function Verdict(b: Bus, role: Role, subj: string): Outcome {
    if role == Gate && IsGuarded(subj) then Forbidden else if b.closed then BusClosed else Sent
  }

  function Publish(b: Bus, role: Role, subj: string, body: string): Bus {
    if Verdict(b, role, subj) != Sent then b
    else b.(subs := seq(|b.subs|, i requires 0 <= i < |b.subs| => Offer(b.subs[i], Message(subj, body, role))))
  }

  function NewSub(pattern: string): Sub { Sub(pattern, true, false, false, false, [], [], [], 0) }

  function Subscribe(b: Bus, pattern: string): Bus {
    if b.closed then b else b.(subs := b.subs + [NewSub(pattern)])
  }

  function Close(b: Bus): Bus {
    Bus(true, seq(|b.subs|, i requires 0 <= i < |b.subs| => b.subs[i].(inSet := false)))
  }

  function Take(s: Sub): Sub
    requires s.queue != []
  {
    s.(queue := s.queue[1..], handled := s.handled + [s.queue[0]], busy := true)
  }

  // ---- the object -----------------------------------------------------------------------------

  /** Whatever is still in the subscriber set has an open channel. */
  ghost predicate SendsAreSafe(b: Bus) { forall i | 0 <= i < |b.subs| :: b.subs[i].inSet ==> !b.subs[i].shut }

  class MemCore {
    var closed: bool
    var subs: seq<Sub>

    ghost function View(): Bus
      reads this
    {
      Bus(closed, subs)
    }

    constructor ()
      ensures View() == Bus(false, [])
    {
      closed, subs := false, [];
    }

    method PublishMessage(role: Role, subj: string, body: string) returns (r: Outcome)
      requires SendsAreSafe(View())
      modifies this
      ensures View() == Publish(old(View()), role, subj, body) && SendsAreSafe(View())
      ensures r == Verdict(old(View()), role, subj)
    {
      if role == Gate && IsGuarded(subj) {
        return Forbidden;
      }
      if closed {
        return BusClosed;
      }
      hide Matches;
      var m := Message(subj, body, role);
      for i := 0 to |subs|
        invariant closed == old(closed) && |subs| == |old(subs)|
        invariant forall k | 0 <= k < |subs| :: subs[k] == if k < i then Offer(old(subs[k]), m) else old(subs[k])
      {
        var s := subs[i];
        if s.inSet && Matches(s.pattern, subj) {
          assert !s.shut;                        // a send on a closed channel would panic
          if |s.queue| < DEPTH {
            subs := subs[i := s.(queue := s.queue + [m], offered := s.offered + [m])];
          } else {
            subs := subs[i := s.(offered := s.offered + [m], drops := s.drops + 1)];
          }
        }
      }
      return Sent;
    }

    method SubscribeTo(pattern: string) returns (ok: bool)
      requires SendsAreSafe(View())
      modifies this
      ensures View() == Subscribe(old(View()), pattern) && SendsAreSafe(View()) && ok == !old(closed)
    {
      if closed {
        return false;
      }
      subs := subs + [NewSub(pattern)];
      return true;
    }

    method CloseCore()
      requires SendsAreSafe(View())
      modifies this
      ensures old(closed) ==> View() == old(View())
      ensures !old(closed) ==> View() == Close(old(View()))
      ensures SendsAreSafe(View())
    {
      if closed {
        return;
      }
      closed := true;
      for i := 0 to |subs|
        invariant closed && |subs| == |old(subs)|
        invariant forall k | 0 <= k < |subs| :: subs[k] == if k < i then old(subs[k]).(inSet := false) else old(subs[k])
      {
        subs := subs[i := subs[i].(inSet := false)];
      }
    }
  }

  // ---- every interleaving ---------------------------------------------------------------------

  /** A caller of Unsubscribe or Close past its locked section: it stops the subscriptions it removed one
      after another, closing each channel and then waiting for its goroutine. */
  datatype StopCall = StopCall(ids: seq<nat>, at: nat, waiting: bool)

  datatype Sys = Sys(bus: Bus, calls: seq<StopCall>)

  datatype Step =
    | DoPublish(role: Role, subj: string, body: string)
    | DoSubscribe(pattern: string)
    | Unsubscribe(id: nat)
    | DoClose(order: seq<nat>)              // the order the map is walked in
    | CloseChan(call: nat)
    | Join(call: nat)
    | Handle(id: nat)
    | Return(id: nat)
    | Exit(id: nat)

  ghost predicate ListsLive(b: Bus, order: seq<nat>) {
    forall id: nat :: id in order <==> id < |b.subs| && b.subs[id].inSet
  }

  ghost predicate Enabled(s: Sys, step: Step) {
    var b := s.bus;
    match step
    case DoPublish(_, _, _) => true
    case DoSubscribe(_) => true
    case Unsubscribe(id) => id < |b.subs|
    case DoClose(order) => ListsLive(b, order)
    case CloseChan(c) =>
      c < |s.calls| && s.calls[c].at < |s.calls[c].ids| && !s.calls[c].waiting
        && s.calls[c].ids[s.calls[c].at] < |b.subs|
    case Join(c) =>
      && c < |s.calls| && s.calls[c].waiting && s.calls[c].at < |s.calls[c].ids|
      && s.calls[c].ids[s.calls[c].at] < |b.subs| && b.subs[s.calls[c].ids[s.calls[c].at]].done
    case Handle(id) => id < |b.subs| && !b.subs[id].busy && b.subs[id].queue != []
    case Return(id) => id < |b.subs| && b.subs[id].busy
    case Exit(id) => id < |b.subs| && b.subs[id].shut && !b.subs[id].busy && b.subs[id].queue == []
  }

  function With(b: Bus, id: nat, s: Sub): Bus
    requires id < |b.subs|
  {
    b.(subs := b.subs[id := s])
  }

  ghost function Apply(s: Sys, step: Step): Sys
    requires Enabled(s, step)
  {
    var b := s.bus;
    match step
    case DoPublish(role, subj, body) => s.(bus := Publish(b, role, subj, body))
    case DoSubscribe(pattern) => s.(bus := Subscribe(b, pattern))
    case Unsubscribe(id) => Sys(With(b, id, b.subs[id].(inSet := false)), s.calls + [StopCall([id], 0, false)])
    case DoClose(order) => if b.closed then s else Sys(Close(b), s.calls + [StopCall(order, 0, false)])
    case CloseChan(c) =>
      var id := s.calls[c].ids[s.calls[c].at];
      Sys(With(b, id, b.subs[id].(shut := true)), s.calls[c := s.calls[c].(waiting := true)])
    case Join(c) => s.(calls := s.calls[c := s.calls[c].(at := s.calls[c].at + 1, waiting := false)])
    case Handle(id) => s.(bus := With(b, id, Take(b.subs[id])))
    case Return(id) => s.(bus := With(b, id, b.subs[id].(busy := false)))
    case Exit(id) => s.(bus := With(b, id, b.subs[id].(done := true)))
  }

  ghost predicate Behavior(run: seq<Sys>, steps: seq<Step>) {
    && |run| == |steps| + 1 && run[0] == Sys(Bus(false, []), [])
    && forall k | 0 <= k < |steps| :: Enabled(run[k], steps[k]) && run[k + 1] == Apply(run[k], steps[k])
  }

  /** xs is what is left of ys after leaving some elements out. */
  predicate Subsequence<T(==)>(xs: seq<T>, ys: seq<T>) {
    if ys == [] then xs == []
    else
      || Subsequence(xs, ys[..|ys| - 1])
      || (xs != [] && xs[|xs| - 1] == ys[|ys| - 1] && Subsequence(xs[..|xs| - 1], ys[..|ys| - 1]))
  }

  ghost predicate SubOk(s: Sub) {
    && (s.shut ==> !s.inSet) && (s.done ==> s.shut && s.queue == [] && !s.busy)
    && Subsequence(s.handled + s.queue, s.offered)
    && |s.handled| + |s.queue| + s.drops == |s.offered|
    && (s.drops == 0 ==> s.handled + s.queue == s.offered)
    && |s.queue| <= DEPTH
    && (forall m | m in s.offered :: Matches(s.pattern, m.subject) && (m.role == Gate ==> !IsGuarded(m.subject)))
  }

  /** What a stopping caller has established: it only ever closes channels of subscriptions that were removed
      before, and those it is through with have no goroutine left. */
  ghost predicate CallOk(b: Bus, c: StopCall) {
    && c.at <= |c.ids| && (forall k | 0 <= k < |c.ids| :: c.ids[k] < |b.subs| && !b.subs[c.ids[k]].inSet)
    && (forall k | 0 <= k < c.at :: b.subs[c.ids[k]].done)
    && (c.waiting ==> c.at < |c.ids| && b.subs[c.ids[c.at]].shut)
  }

  ghost predicate Inv(s: Sys) {
    && (forall i | 0 <= i < |s.bus.subs| :: SubOk(s.bus.subs[i]))
    && (forall c | 0 <= c < |s.calls| :: CallOk(s.bus, s.calls[c]))
  }

  lemma OfferKeeps(s: Sub, m: Message)
    requires SubOk(s) && !(m.role == Gate && IsGuarded(m.subject))
    ensures SubOk(Offer(s, m))
  {
    assert s.handled + (s.queue + [m]) == s.handled + s.queue + [m];
    var after := Offer(s, m);
    forall x | x in after.offered ensures Matches(s.pattern, x.subject) && (x.role == Gate ==> !IsGuarded(x.subject)) {
      assert x in s.offered || (x == m && after != s);
    }
  }

  lemma TakeKeeps(s: Sub)
    requires SubOk(s) && s.queue != []
    ensures SubOk(Take(s))
  {
    hide Matches, IsGuarded, Subsequence;
    assert s.handled + [s.queue[0]] + s.queue[1..] == s.handled + s.queue;
  }

  /** A step changes each subscription only forwards. */
  predicate SubMoves(s: Sub, after: Sub) {
    (after.inSet ==> s.inSet) && (s.shut ==> after.shut) && (s.done ==> after.done)
  }

  lemma CallStaysOk(b: Bus, after: Bus, c: StopCall)
    requires CallOk(b, c) && |b.subs| <= |after.subs|
    requires forall i | 0 <= i < |b.subs| :: SubMoves(b.subs[i], after.subs[i])
    ensures CallOk(after, c)
  {
  }

  lemma SubsStayOk(s: Sys, step: Step)
    requires Inv(s) && Enabled(s, step)
    ensures forall i | 0 <= i < |Apply(s, step).bus.subs| :: SubOk(Apply(s, step).bus.subs[i])
  {
    var (b, after) := (s.bus, Apply(s, step).bus);
    match step {
      case DoPublish(role, subj, body) =>
        if Verdict(b, role, subj) == Sent {
          forall i | 0 <= i < |after.subs| ensures SubOk(after.subs[i]) {
            OfferKeeps(b.subs[i], Message(subj, body, role));
          }
        }
      case DoSubscribe(pattern) =>
      case CloseChan(c) => assert CallOk(b, s.calls[c]);
      case Handle(id) => TakeKeeps(b.subs[id]);
      case _ =>
    }
  }

  lemma CallsStayOk(s: Sys, step: Step)
    requires Inv(s) && Enabled(s, step)
    ensures forall c | 0 <= c < |Apply(s, step).calls| :: CallOk(Apply(s, step).bus, Apply(s, step).calls[c])
  {
    var after := Apply(s, step);
    forall c | 0 <= c < |s.calls| ensures CallOk(after.bus, s.calls[c]) {
      CallStaysOk(s.bus, after.bus, s.calls[c]);
    }
    CallAdvances(s, step);
  }

  /** The call a step makes or moves. */
  lemma CallAdvances(s: Sys, step: Step)
    requires Inv(s) && Enabled(s, step)
    requires forall c | 0 <= c < |s.calls| :: CallOk(Apply(s, step).bus, s.calls[c])
    ensures var after := Apply(s, step);
            && (step.Unsubscribe? || (step.DoClose? && !s.bus.closed) ==>
                  |after.calls| == |s.calls| + 1 && CallOk(after.bus, after.calls[|s.calls|]))
            && (step.CloseChan? || step.Join? ==> CallOk(after.bus, after.calls[step.call]))
  {
    hide SubOk, Publish, Subscribe, Take;
    if step.DoClose? && !s.bus.closed {
      forall k | 0 <= k < |step.order| ensures step.order[k] < |s.bus.subs| {
        assert step.order[k] in step.order;
      }
    }
  }

  lemma InvStep(s: Sys, step: Step)
    requires Inv(s) && Enabled(s, step)
    ensures Inv(Apply(s, step))
  {
    hide SubOk, CallOk, Apply, Enabled;
    SubsStayOk(s, step);
    CallsStayOk(s, step);
  }

  lemma {:induction false} InvAlways(run: seq<Sys>, steps: seq<Step>, n: nat)
    requires Behavior(run, steps) && n < |run|
    ensures Inv(run[n])
  {
    hide Apply, Enabled, SubOk, CallOk;
    if n > 0 {
      InvAlways(run, steps, n - 1);
      InvStep(run[n - 1], steps[n - 1]);
    }
  }

  // ---- the main theorems ----------------------------------------------------------------------

  /** In every interleaving: no subscription that could still be sent to has a closed channel; what a
      subscription handled and still has queued is, in order, a part of the matching publishes accepted
      while it was subscribed, all of them if it never dropped; and nothing under the comms root that
      reaches anyone was published by a gate. */
  lemma DeliveryIsOrderedAndSafe(run: seq<Sys>, steps: seq<Step>, n: nat, id: nat)
    requires Behavior(run, steps) && n < |run| && id < |run[n].bus.subs|
    ensures var s := run[n].bus.subs[id];
            && (s.inSet ==> !s.shut)
            && Subsequence(s.handled + s.queue, s.offered) && |s.handled| + |s.queue| + s.drops == |s.offered|
            && (s.drops == 0 ==> s.handled + s.queue == s.offered)
            && (forall m | m in s.handled :: Matches(s.pattern, m.subject))
            && (forall m, rest | m in s.handled && m.subject == "telos.comms." + rest :: m.role == World)
  {
    hide Matches, IsGuarded, Behavior;
    InvAlways(run, steps, n);
    var s := run[n].bus.subs[id];
    assert SubOk(s);
    forall m | m in s.handled ensures m in s.offered {
      assert m in s.handled + s.queue;
      SubsequenceHas(s.handled + s.queue, s.offered, m);
    }
    forall m, rest | m in s.handled && m.subject == "telos.comms." + rest ensures m.role == World {
      GuardedMeans(m.subject);
    }
  }

  lemma GuardedMeans(subj: string)
    ensures IsGuarded(subj) <==> exists rest :: subj == "telos.comms." + rest
  {
    if IsGuarded(subj) {
      assert subj == "telos.comms." + subj[|SUBJECT_ROOT|..];
    }
  }

  /** The answer to a publish: a gate may not publish anything under the comms root, on an open bus or a closed
      one; anything else is sent exactly if the bus is open. */
  lemma VerdictMeans(b: Bus, role: Role, subj: string)
    ensures Verdict(b, role, subj) == Forbidden <==> role == Gate && exists rest :: subj == "telos.comms." + rest
    ensures Verdict(b, role, subj) == BusClosed <==> b.closed && Verdict(b, role, subj) != Forbidden
    ensures Verdict(b, role, subj) == Sent <==> !b.closed && Verdict(b, role, subj) != Forbidden
  {
    GuardedMeans(subj);
  }

  lemma {:induction false} SubsequenceHas<T>(xs: seq<T>, ys: seq<T>, v: T)
    requires Subsequence(xs, ys) && v in xs
    ensures v in ys
  {
    if ys != [] {
      var (init, last) := (ys[..|ys| - 1], ys[|ys| - 1]);
      assert ys == init + [last];
      if Subsequence(xs, init) {
        SubsequenceHas(xs, init, v);
      } else if v != last {
        assert xs == xs[..|xs| - 1] + [last];
        SubsequenceHas(xs[..|xs| - 1], init, v);
      }
    }
  }

  /** An accepted publish that matches a subscription in the set. */
  predicate Reaches(b: Bus, s: Sub, step: Step) {
    && step.DoPublish? && Verdict(b, step.role, step.subj) == Sent && s.inSet && Matches(s.pattern, step.subj)
  }

  /** What every step does to a subscription, and to no other: an accepted publish that matches it is offered, and
      queued behind the rest unless 256 messages are queued already, when it is dropped; its goroutine takes
      the oldest; nothing else moves a message. */
  lemma OfferedExactly(run: seq<Sys>, steps: seq<Step>, n: nat, id: nat)
    requires Behavior(run, steps) && n < |steps| && id < |run[n].bus.subs|
    ensures id < |run[n + 1].bus.subs|
    ensures var (s, now, step) := (run[n].bus.subs[id], run[n + 1].bus.subs[id], steps[n]);
            if Reaches(run[n].bus, s, step) then
              var m := Message(step.subj, step.body, step.role);
              && now.offered == s.offered + [m] && now.handled == s.handled
              && (if |s.queue| < 256 then now.queue == s.queue + [m] && now.drops == s.drops
                  else now.queue == s.queue && now.drops == s.drops + 1)
            else if step == Handle(id) then
              && s.queue == [now.handled[|now.handled| - 1]] + now.queue && now.offered == s.offered
              && now.handled == s.handled + [s.queue[0]] && now.drops == s.drops
            else
              && now.queue == s.queue && now.handled == s.handled
              && now.offered == s.offered && now.drops == s.drops
  {
    hide Matches, ListsLive;
    assert Enabled(run[n], steps[n]) && run[n + 1] == Apply(run[n], steps[n]);
  }

  /** Who is in the set: a subscription joins it when it is made, on an open bus only, empty and with its pattern,
      and leaves it when it is unsubscribed or the bus is closed; a bus never opens again. */
  lemma MembersExactly(run: seq<Sys>, steps: seq<Step>, n: nat)
    requires Behavior(run, steps) && n < |steps|
    ensures var (b, now, step) := (run[n].bus, run[n + 1].bus, steps[n]);
            && (now.closed <==> b.closed || step.DoClose?)
            && (if step.DoSubscribe? && !b.closed then
                  && |now.subs| == |b.subs| + 1
                  && now.subs[|b.subs|] == Sub(step.pattern, true, false, false, false, [], [], [], 0)
                else |now.subs| == |b.subs|)
            && forall id: nat | id < |b.subs| ::
                 && now.subs[id].pattern == b.subs[id].pattern
                 && (now.subs[id].inSet <==>
                       b.subs[id].inSet && step != Unsubscribe(id) && !(step.DoClose? && !b.closed))
  {
    hide Matches, ListsLive;
    assert Enabled(run[n], steps[n]) && run[n + 1] == Apply(run[n], steps[n]);
  }

  /** A subscription whose goroutine has returned never changes again. */
  lemma DoneIsFinal(s: Sys, step: Step, id: nat)
    requires Inv(s) && Enabled(s, step) && id < |s.bus.subs| && s.bus.subs[id].done
    ensures id < |Apply(s, step).bus.subs|
    ensures var (was, now) := (s.bus.subs[id], Apply(s, step).bus.subs[id]);
            now.done && now.handled == was.handled && !now.busy
  {
    hide Matches, IsGuarded, Subsequence;
    assert SubOk(s.bus.subs[id]);
  }

  lemma {:induction false} DoneStaysQuiet(run: seq<Sys>, steps: seq<Step>, n: nat, k: nat, id: nat)
    requires Behavior(run, steps) && n <= k < |run| && id < |run[n].bus.subs| && run[n].bus.subs[id].done
    ensures id < |run[k].bus.subs| && run[k].bus.subs[id].done
    ensures run[k].bus.subs[id].handled == run[n].bus.subs[id].handled && (n < k ==> !run[k].bus.subs[id].busy)
    decreases k - n
  {
    hide Apply, Enabled, Inv;
    if n < k {
      DoneStaysQuiet(run, steps, n, k - 1, id);
      InvAlways(run, steps, k - 1);
      assert Enabled(run[k - 1], steps[k - 1]) && run[k] == Apply(run[k - 1], steps[k - 1]);
      DoneIsFinal(run[k - 1], steps[k - 1], id);
    }
  }

  /** What returning from Unsubscribe or Close promises: once the call is through with a subscription, no
      handler call of it is in flight and none is ever made again, whatever anyone publishes. */
  lemma StoppedStaysQuiet(run: seq<Sys>, steps: seq<Step>, n: nat, k: nat, call: nat, id: nat)
    requires Behavior(run, steps) && n <= k < |run| && call < |run[n].calls|
    requires run[n].calls[call].at == |run[n].calls[call].ids| && id in run[n].calls[call].ids
    ensures id < |run[n].bus.subs| && id < |run[k].bus.subs|
    ensures run[k].bus.subs[id].handled == run[n].bus.subs[id].handled && !run[k].bus.subs[id].busy
  {
    hide Behavior, Subsequence, Matches, IsGuarded;
    InvAlways(run, steps, n);
    var c := run[n].calls[call];
    assert CallOk(run[n].bus, c);
    var i :| 0 <= i < |c.ids| && c.ids[i] == id;
    assert SubOk(run[n].bus.subs[id]);
    DoneStaysQuiet(run, steps, n, k, id);
  }

  // ---- one life of a subscription -------------------------------------------------------------

  ghost predicate Goes(s: Sys, step: Step, after: Sys) { Enabled(s, step) && after == Apply(s, step) }

  lemma RunsAre(run: seq<Sys>, steps: seq<Step>)
    requires |run| == |steps| + 1 && run[0] == Sys(Bus(false, []), [])
    requires forall k | 0 <= k < |steps| :: Goes(run[k], steps[k], run[k + 1])
    ensures Behavior(run, steps)
  {
    hide Enabled, Apply;
    forall k | 0 <= k < |steps| ensures Enabled(run[k], steps[k]) && run[k + 1] == Apply(run[k], steps[k]) {
      assert Goes(run[k], steps[k], run[k + 1]);
    }
  }

  function Held(pattern: string, m: Message): Sub { Sub(pattern, true, false, false, false, [m], [], [m], 0) }

  function Stopping(pattern: string, m: Message): Sub { Sub(pattern, false, false, false, false, [], [m], [m], 0) }

  lemma UpToHandled(subj: string, m: Message)
    requires m == Message(subj, m.body, World)
    ensures Goes(Sys(Bus(false, []), []), DoSubscribe(subj), Sys(Bus(false, [NewSub(subj)]), []))
    ensures Goes(Sys(Bus(false, [NewSub(subj)]), []), DoPublish(World, subj, m.body),
            Sys(Bus(false, [Held(subj, m)]), []))
    ensures Goes(Sys(Bus(false, [Held(subj, m)]), []), Handle(0),
                 Sys(Bus(false, [Held(subj, m).(queue := [], handled := [m], busy := true)]), []))
    ensures Goes(Sys(Bus(false, [Held(subj, m).(queue := [], handled := [m], busy := true)]), []), Return(0),
                 Sys(Bus(false, [Held(subj, m).(queue := [], handled := [m])]), []))
  {
    assert [] + [NewSub(subj)] == [NewSub(subj)] && [] + [m] == [m] && [m][1..] == [];
    assert Publish(Bus(false, [NewSub(subj)]), World, subj, m.body).subs == [Held(subj, m)];
  }

  lemma UpToJoined(pattern: string, m: Message)
    ensures var (s, call) := (Stopping(pattern, m), StopCall([0], 0, false));
            && Goes(Sys(Bus(false, [Held(pattern, m).(queue := [], handled := [m])]), []), Unsubscribe(0),
                    Sys(Bus(false, [s]), [call]))
            && Goes(Sys(Bus(false, [s]), [call]), CloseChan(0),
               Sys(Bus(false, [s.(shut := true)]), [call.(waiting := true)]))
            && Goes(Sys(Bus(false, [s.(shut := true)]), [call.(waiting := true)]), Exit(0),
                    Sys(Bus(false, [s.(shut := true, done := true)]), [call.(waiting := true)]))
            && Goes(Sys(Bus(false, [s.(shut := true, done := true)]), [call.(waiting := true)]), Join(0),
                    Sys(Bus(false, [s.(shut := true, done := true)]), [StopCall([0], 1, false)]))
  {
    assert [] + [StopCall([0], 0, false)] == [StopCall([0], 0, false)];
  }

  lemma ThenClosed(s: Sub, call: StopCall)
    requires !s.inSet
    ensures Goes(Sys(Bus(false, [s]), [call]), DoClose([]), Sys(Bus(true, [s]), [call, StopCall([], 0, false)]))
  {
    assert Close(Bus(false, [s])).subs == [s];
    assert [call] + [StopCall([], 0, false)] == [call, StopCall([], 0, false)];
  }

  /** Nothing the theorems forbid is all that happens: a subscription is made, a publish of the world's reaches its
      handler, and an unsubscribe stops its goroutine and returns, before the bus is closed. */
  lemma OneLife(subj: string, body: string) returns (run: seq<Sys>, steps: seq<Step>)
    ensures Behavior(run, steps)
    ensures steps == [DoSubscribe(subj), DoPublish(World, subj, body), Handle(0), Return(0),
                      Unsubscribe(0), CloseChan(0), Exit(0), Join(0), DoClose([])]
    ensures run[9].bus == Bus(true, [Stopping(subj, Message(subj, body, World)).(shut := true, done := true)])
    ensures |run[9].calls| == 2 && run[9].calls[0] == StopCall([0], 1, false)
  {
    hide Goes, Behavior;
    var m := Message(subj, body, World);
    var (h, s, call) := (Held(subj, m).(queue := [], handled := [m]), Stopping(subj, m), StopCall([0], 0, false));
    UpToHandled(subj, m);
    UpToJoined(subj, m);
    ThenClosed(s.(shut := true, done := true), StopCall([0], 1, false));
    steps := [DoSubscribe(subj), DoPublish(World, subj, body), Handle(0), Return(0), Unsubscribe(0), CloseChan(0),
              Exit(0), Join(0), DoClose([])];
    run := [Sys(Bus(false, []), []), Sys(Bus(false, [NewSub(subj)]), []), Sys(Bus(false, [Held(subj, m)]), []),
            Sys(Bus(false, [h.(busy := true)]), []), Sys(Bus(false, [h]), []), Sys(Bus(false, [s]), [call]),
            Sys(Bus(false, [s.(shut := true)]), [call.(waiting := true)]),
            Sys(Bus(false, [s.(shut := true, done := true)]), [call.(waiting := true)]),
            Sys(Bus(false, [s.(shut := true, done := true)]), [StopCall([0], 1, false)]),
            Sys(Bus(true, [s.(shut := true, done := true)]), [StopCall([0], 1, false), StopCall([], 0, false)])];
    RunsAre(run, steps);
  }
}
