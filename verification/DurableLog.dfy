/**
  The in-memory durable stream: an append log per subject with publish dedup, a delivered cursor per
  consumer, and a wake channel per subject that every append closes and replaces.  A channel is its
  number; `made` counts the channels made so far and `shut` holds the closed ones.
*/
module DurableLog {

  datatype Message = Message(subject: string, key: string, body: string)

  type Chan = nat

  datatype Js = Js(
    log: map<string, seq<Message>>,
    seen: map<string, set<string>>,
    cursor: map<string, map<string, nat>>,
    wakers: map<string, Chan>,
    made: nat,
    shut: set<Chan>,
    closed: bool)

  const EMPTY: Js := Js(map[], map[], map[], map[], 0, {}, false)

  function Log(js: Js, subj: string): seq<Message> { if subj in js.log then js.log[subj] else [] }

  function Seen(js: Js, subj: string): set<string> { if subj in js.seen then js.seen[subj] else {} }

  function Cursors(js: Js, subj: string): map<string, nat> { if subj in js.cursor then js.cursor[subj] else map[] }

  function Cursor(js: Js, subj: string, id: string): nat {
    if id in Cursors(js, subj) then Cursors(js, subj)[id] else 0
  }

  // ---- the operations, each one critical section ----------------------------------------------

  /** Closes the subject's channel, if there is one, and installs a fresh one. */
  function Wake(js: Js, subj: string): Js {
    js.(wakers := js.wakers[subj := js.made], made := js.made + 1,
        shut := if subj in js.wakers then js.shut + {js.wakers[subj]} else js.shut)
  }

  predicate Stores(js: Js, subj: string, msg: Message) { msg.key == "" || msg.key !in Seen(js, subj) }

  /** The message and its key entered, before the wake. */
  function Entered(js: Js, subj: string, msg: Message): Js {
    js.(seen := if msg.key == "" then js.seen else js.seen[subj := Seen(js, subj) + {msg.key}],
        log := js.log[subj := Log(js, subj) + [msg.(subject := subj)]])
  }

  function Append(js: Js, subj: string, msg: Message): Js {
    if !Stores(js, subj, msg) then js else Wake(Entered(js, subj, msg), subj)
  }

  function Pending(js: Js, subj: string, id: string): nat {
    if Cursor(js, subj, id) >= |Log(js, subj)| then 0 else |Log(js, subj)| - Cursor(js, subj, id)
  }

  function Undelivered(js: Js, subj: string, id: string): seq<Message> {
    if Cursor(js, subj, id) >= |Log(js, subj)| then [] else Log(js, subj)[Cursor(js, subj, id)..]
  }

  /** The cursor moves past everything returned. */
  function Drain(js: Js, subj: string, id: string): Js {
    var from := Cursor(js, subj, id);
    if from >= |Log(js, subj)| then js.(cursor := js.cursor[subj := Cursors(js, subj)])
    else js.(cursor := js.cursor[subj := Cursors(js, subj)[id := |Log(js, subj)|]])
  }

  /** The subject's current channel, made on first use. */
  function WithChan(js: Js, subj: string): Js {
    if subj in js.wakers then js else js.(wakers := js.wakers[subj := js.made], made := js.made + 1)
  }

  /** Closing: every current channel is closed and replaced by a fresh one of its own, in any order. */
  ghost predicate Closes(js: Js, after: Js) {
    if js.closed then after == js
    else
      && after == js.(closed := true, wakers := after.wakers, made := after.made, shut := js.shut + js.wakers.Values)
      && after.made >= js.made && after.wakers.Keys == js.wakers.Keys
      && (forall s | s in after.wakers :: js.made <= after.wakers[s] < after.made)
      && (forall s, t | s in after.wakers && t in after.wakers && after.wakers[s] == after.wakers[t] :: s == t)
  }

  // ---- what every state satisfies -------------------------------------------------------------

  /** Channels are fresh, a current one is open, and no two subjects share one. */
  ghost predicate ChansOk(js: Js) {
    && (forall c | c in js.shut :: c < js.made)
    && (forall s | s in js.wakers :: js.wakers[s] < js.made && js.wakers[s] !in js.shut)
    && (forall s, t | s in js.wakers && t in js.wakers && js.wakers[s] == js.wakers[t] :: s == t)
  }

  predicate DistinctKeys(log: seq<Message>) {
    forall i, j | 0 <= i < j < |log| && log[i].key != "" :: log[i].key != log[j].key
  }

  /** The dedup set is exactly the keys stored, each stored once. */
  ghost predicate LogOk(js: Js, subj: string) {
    && DistinctKeys(Log(js, subj))
    && (forall m | m in Log(js, subj) :: m.subject == subj)
    && (forall k :: k in Seen(js, subj) <==> k != "" && exists m :: m in Log(js, subj) && m.key == k)
  }

  ghost predicate Wf(js: Js) {
    && ChansOk(js)
    && (forall subj :: LogOk(js, subj))
    && (forall subj, id :: Cursor(js, subj, id) <= |Log(js, subj)|)
  }

  lemma WakeKeepsChans(js: Js, subj: string)
    requires ChansOk(js)
    ensures ChansOk(Wake(js, subj))
  {
  }

  lemma AppendIs(js: Js, subj: string, msg: Message, s: string)
    ensures var after := Append(js, subj, msg);
            if s == subj && Stores(js, subj, msg) then
              && Log(after, s) == Log(js, s) + [msg.(subject := s)]
              && Seen(after, s) == (if msg.key == "" then Seen(js, s) else Seen(js, s) + {msg.key})
            else Log(after, s) == Log(js, s) && Seen(after, s) == Seen(js, s)
  {
  }

  lemma AppendKeepsLog(js: Js, subj: string, msg: Message, s: string)
    requires LogOk(js, s)
    ensures LogOk(Append(js, subj, msg), s)
  {
    hide Append, Log, Seen;
    AppendIs(js, subj, msg, s);
    if Stores(js, subj, msg) && s == subj {
      var (was, m, after) := (Log(js, s), msg.(subject := s), Append(js, subj, msg));
      forall i | 0 <= i < |was| ensures was[i].key != "" ==> was[i].key != m.key {
        assert was[i] in was;
      }
      forall k ensures k in Seen(after, s) <==> k != "" && exists x :: x in Log(after, s) && x.key == k {
      }
    }
  }

  lemma AppendKeepsWf(js: Js, subj: string, msg: Message)
    requires Wf(js)
    ensures Wf(Append(js, subj, msg))
  {
    hide LogOk;
    var after := Append(js, subj, msg);
    forall s ensures LogOk(after, s) {
      AppendKeepsLog(js, subj, msg, s);
    }
    forall s, id ensures Cursor(after, s, id) <= |Log(after, s)| {
      assert Cursor(after, s, id) == Cursor(js, s, id);
    }
  }

  lemma AppendIsWake(js: Js, subj: string, msg: Message)
    ensures Append(js, subj, msg) == if Stores(js, subj, msg) then Wake(Entered(js, subj, msg), subj) else js
  {
  }

  /** Two states with the same logs, dedup sets and cursors up to what is drained. */
  lemma QuietKeepsWf(js: Js, after: Js)
    requires Wf(js) && ChansOk(after) && after.log == js.log && after.seen == js.seen
    requires forall subj, id ::
               Cursor(after, subj, id) == Cursor(js, subj, id) || Cursor(after, subj, id) == |Log(js, subj)|
    ensures Wf(after)
  {
    forall subj ensures LogOk(after, subj) {
      assert Log(after, subj) == Log(js, subj) && Seen(after, subj) == Seen(js, subj);
      assert LogOk(js, subj);
    }
  }

  lemma DrainIs(js: Js, subj: string, id: string, s: string, i: string)
    requires Cursor(js, subj, id) <= |Log(js, subj)|
    ensures Cursor(Drain(js, subj, id), s, i) == if (s, i) == (subj, id) then |Log(js, subj)| else Cursor(js, s, i)
  {
  }

  lemma DrainKeepsWf(js: Js, subj: string, id: string)
    requires Wf(js)
    ensures Wf(Drain(js, subj, id))
  {
    hide LogOk, Drain;
    forall s, i ensures Cursor(Drain(js, subj, id), s, i) ==
                        if (s, i) == (subj, id) then |Log(js, subj)| else Cursor(js, s, i) {
      DrainIs(js, subj, id, s, i);
    }
    DrainFrame(js, subj, id);
    QuietKeepsWf(js, Drain(js, subj, id));
  }

  lemma DrainFrame(js: Js, subj: string, id: string)
    ensures Drain(js, subj, id) == js.(cursor := Drain(js, subj, id).cursor)
  {
  }

  lemma WithChanKeepsWf(js: Js, subj: string)
    requires Wf(js)
    ensures Wf(WithChan(js, subj))
  {
    hide LogOk;
    QuietKeepsWf(js, WithChan(js, subj));
  }

  // ---- closing, one subject at a time ---------------------------------------------------------

  /** Part of the way through a close: the subjects still to do have their old channel, the others a
      fresh one. */
  ghost predicate Closing(js: Js, cur: Js, todo: set<string>) {
    && ChansOk(cur) && todo <= js.wakers.Keys
    && cur == js.(closed := true, wakers := cur.wakers, made := cur.made, shut := cur.shut)
    && cur.made >= js.made && cur.wakers.Keys == js.wakers.Keys
    && (forall s | s in cur.wakers :: if s in todo then cur.wakers[s] == js.wakers[s] else cur.wakers[s] >= js.made)
    && cur.shut == js.shut + set s | s in js.wakers && s !in todo :: js.wakers[s]
  }

  lemma WfHasChans(js: Js)
    requires Wf(js)
    ensures ChansOk(js)
  {
  }

  lemma ClosingStep(js: Js, cur: Js, todo: set<string>, subj: string)
    requires Closing(js, cur, todo) && subj in todo
    ensures Closing(js, Wake(cur, subj), todo - {subj})
  {
    hide ChansOk;
    WakeKeepsChans(cur, subj);
  }

  lemma ClosingDone(js: Js, cur: Js)
    requires Wf(js) && !js.closed && Closing(js, cur, {})
    ensures Closes(js, cur) && Wf(cur)
  {
    hide LogOk;
    assert (set s | s in js.wakers && s !in {} :: js.wakers[s]) == js.wakers.Values;
    QuietKeepsWf(js, cur);
  }

  // ---- the object -----------------------------------------------------------------------------

  class MemJetStream {
    var log: map<string, seq<Message>>
    var seen: map<string, set<string>>
    var cursor: map<string, map<string, nat>>
    var wakers: map<string, Chan>
    var closed: bool
    var made: nat
    ghost var shut: set<Chan>

    ghost function View(): Js
      reads this
    {
      Js(log, seen, cursor, wakers, made, shut, closed)
    }

    ghost predicate Valid()
      reads this
    {
      Wf(View())
    }

    constructor ()
      ensures Valid() && View() == EMPTY
    {
      log, seen, cursor, wakers, closed := map[], map[], map[], map[], false;
      made, shut := 0, {};
    }

    method WakeLocked(subj: string)
      requires ChansOk(View())
      modifies this
      ensures View() == Wake(old(View()), subj) && ChansOk(View())
      ensures subj in old(wakers) ==> old(wakers[subj]) !in old(shut)      // nothing is closed twice
    {
      WakeKeepsChans(View(), subj);
      if subj in wakers {
        shut := shut + {wakers[subj]};
      }
      wakers := wakers[subj := made];
      made := made + 1;
    }

    method AppendMessage(subj: string, msg: Message) returns (stored: bool)
      requires Valid()
      modifies this
      ensures Valid() && View() == Append(old(View()), subj, msg)
      ensures stored == Stores(old(View()), subj, msg)
    {
      hide Wf, ChansOk, Append, Wake;
      ghost var js := View();
      WfHasChans(js);
      AppendKeepsWf(js, subj, msg);
      AppendIsWake(js, subj, msg);
      if msg.key != "" {
        var keys := if subj in seen then seen[subj] else {};
        if msg.key in keys {
          return false;
        }
        seen := seen[subj := keys + {msg.key}];
      }
      log := log[subj := (if subj in log then log[subj] else []) + [msg.(subject := subj)]];
      assert View() == Entered(js, subj, msg);
      WakeLocked(subj);
      return true;
    }

    method DeliverPending(subj: string, id: string) returns (out: seq<Message>)
      requires Valid()
      modifies this
      ensures Valid() && View() == Drain(old(View()), subj, id)
      ensures out == Undelivered(old(View()), subj, id)
    {
      hide Wf;
      DrainKeepsWf(View(), subj, id);
      var entries := if subj in log then log[subj] else [];
      var cm: map<string, nat> := if subj in cursor then cursor[subj] else map[];
      var from := if id in cm then cm[id] else 0;
      out := [];
      if from < |entries| {
        out := entries[from..];
        cm := cm[id := |entries|];
      }
      cursor := cursor[subj := cm];
    }

    method WakeChan(subj: string) returns (ch: Chan)
      requires Valid()
      modifies this
      ensures Valid() && View() == WithChan(old(View()), subj) && ch == View().wakers[subj]
    {
      hide Wf;
      WithChanKeepsWf(View(), subj);
      if subj !in wakers {
        wakers := wakers[subj := made];
        made := made + 1;
      }
      ch := wakers[subj];
    }

    method Close()
      requires Valid()
      modifies this
      ensures Closes(old(View()), View()) && Valid()
    {
      if closed {
        return;
      }
      hide Wf, ChansOk, Closes, Closing, Wake;
      ghost var js := View();
      WfHasChans(js);
      closed := true;
      var todo := wakers.Keys;
      while todo != {}
        invariant Closing(js, View(), todo)
        decreases todo
      {
        var subj :| subj in todo;
        ClosingStep(js, View(), todo, subj);
        todo := todo - {subj};
        WakeLocked(subj);
      }
      ClosingDone(js, View());
    }
  }
}
