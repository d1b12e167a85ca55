/**
  Per-channel rosters: inverting the presence list, publishing only what changed, and republishing
  everything on every tenth successful poll.
*/
module ChannelRoster {
  import opened StringOrder

  const RESYNC_EVERY: nat := 10

  datatype Entry = Entry(playerId: string, name: string, concealed: bool, channels: seq<string>)

  type Rosters = map<string, seq<string>>

  // ---- inverting the presence list ------------------------------------------------------------

  predicate Hears(e: Entry, ref: string) { !e.concealed && ref in e.channels }

  /** Who hears a channel: player id to name, the last entry of a player counting. */
  function HeardBy(entries: seq<Entry>, ref: string): map<string, string> {
    if entries == [] then map[]
    else
      var (m, e) := (HeardBy(entries[..|entries| - 1], ref), entries[|entries| - 1]);
      if Hears(e, ref) then m[e.playerId := e.name] else m
  }

  /** A visible entry of this player, with the channel in its hear-set. */
  predicate ListensAt(entries: seq<Entry>, i: int, ref: string, id: string) {
    0 <= i < |entries| && entries[i].playerId == id && !entries[i].concealed && ref in entries[i].channels
  }

  /** Exactly the players with a visible entry that has the channel in its hear-set, each under the name the last such
      entry gives. */
  lemma HeardByMeans(entries: seq<Entry>, ref: string, id: string)
    ensures id in HeardBy(entries, ref) <==> exists i :: ListensAt(entries, i, ref, id)
    ensures id in HeardBy(entries, ref) ==>
              exists i :: ListensAt(entries, i, ref, id) && HeardBy(entries, ref)[id] == entries[i].name
                          && forall j | i < j :: !ListensAt(entries, j, ref, id)
  {
    HeardByIs(entries, ref, id);
    if i :| 0 <= i < |entries| && entries[i].playerId == id && Hears(entries[i], ref) {
      assert ListensAt(entries, i, ref, id);
    }
    if id in HeardBy(entries, ref) {
      var i :| && 0 <= i < |entries| && entries[i].playerId == id && Hears(entries[i], ref)
               && HeardBy(entries, ref)[id] == entries[i].name
               && forall j | i < j < |entries| && entries[j].playerId == id :: !Hears(entries[j], ref);
      assert ListensAt(entries, i, ref, id);
    }
  }

  lemma {:induction false} HeardByIs(entries: seq<Entry>, ref: string, id: string)
    ensures id in HeardBy(entries, ref) <==>
            exists i :: 0 <= i < |entries| && entries[i].playerId == id && Hears(entries[i], ref)
    ensures id in HeardBy(entries, ref) ==>
            exists i :: && 0 <= i < |entries| && entries[i].playerId == id && Hears(entries[i], ref)
                        && HeardBy(entries, ref)[id] == entries[i].name
                        && forall j | i < j < |entries| && entries[j].playerId == id :: !Hears(entries[j], ref)
  {
    if entries != [] {
      var (init, e, n) := (entries[..|entries| - 1], entries[|entries| - 1], |entries| - 1);
      HeardByIs(init, ref, id);
      if Hears(e, ref) && e.playerId == id {
        assert entries[n] == e;
      } else if id in HeardBy(init, ref) {
        var i :| && 0 <= i < |init| && init[i].playerId == id && Hears(init[i], ref)
                 && HeardBy(init, ref)[id] == init[i].name
                 && forall j | i < j < |init| && init[j].playerId == id :: !Hears(init[j], ref);
        assert entries[i] == init[i];
        assert forall j | i < j < |entries| && entries[j].playerId == id :: j == n || entries[j] == init[j];
      }
    }
  }

  function Values(m: map<string, string>, ids: seq<string>): seq<string>
    requires forall id | id in ids :: id in m
  {
    seq(|ids|, i requires 0 <= i < |ids| => m[ids[i]])
  }

  /** ids lists the keys of m, each once. */
  ghost predicate Lists(m: map<string, string>, ids: seq<string>) {
    NoRepeats(ids) && forall id :: id in ids <==> id in m
  }

  /** A roster: the names of a channel's listeners, one per player, sorted. */
  ghost predicate IsRoster(m: map<string, string>, names: seq<string>) {
    Sorted(names) && exists ids :: Lists(m, ids) && multiset(Values(m, ids)) == multiset(names)
  }

  lemma {:induction false} SameValues(m: map<string, string>, a: seq<string>, b: seq<string>)
    requires multiset(a) == multiset(b) && (forall id | id in a :: id in m) && (forall id | id in b :: id in m)
    ensures multiset(Values(m, a)) == multiset(Values(m, b))
    decreases |a|
  {
    assert |a| == |multiset(a)| == |multiset(b)| == |b|;
    if a != [] {
      assert a[0] in multiset(b);
      var j :| 0 <= j < |b| && b[j] == a[0];
      Without(a, 0);
      Without(b, j);
      ValuesWithout(m, a, 0);
      ValuesWithout(m, b, j);
      SameValues(m, Omit(a, 0), Omit(b, j));
    }
  }

  function Omit(xs: seq<string>, i: nat): seq<string>
    requires i < |xs|
  {
    xs[..i] + xs[i + 1..]
  }

  lemma Without(xs: seq<string>, i: nat)
    requires i < |xs|
    ensures multiset(Omit(xs, i)) == multiset(xs) - multiset{xs[i]}
  {
    assert xs == xs[..i] + [xs[i]] + xs[i + 1..];
  }

  lemma ValuesWithout(m: map<string, string>, ids: seq<string>, i: nat)
    requires i < |ids| && forall id | id in ids :: id in m
    ensures multiset(Values(m, ids)) == multiset(Values(m, Omit(ids, i))) + multiset{m[ids[i]]}
  {
    var (vs, rest) := (Values(m, ids), Values(m, Omit(ids, i)));
    assert vs == rest[..i] + [m[ids[i]]] + rest[i..];
    assert rest == rest[..i] + rest[i..];
  }

  /** Map iteration order is arbitrary; the roster is not. */
  lemma RosterIsUnique(m: map<string, string>, names: seq<string>, other: seq<string>)
    requires IsRoster(m, names) && IsRoster(m, other)
    ensures names == other
  {
    var a :| Lists(m, a) && multiset(Values(m, a)) == multiset(names);
    var b :| Lists(m, b) && multiset(Values(m, b)) == multiset(other);
    SameElements(a, b);
    SameValues(m, a, b);
    SortedIsUnique(names, other);
  }

  /** One channel's names, collected in any order and sorted. */
  method SortedNames(byId: map<string, string>) returns (names: seq<string>)
    ensures IsRoster(byId, names) && |names| == |byId|
  {
    names := [];
    var todo := byId.Keys;
    ghost var ids: seq<string> := [];
    while todo != {}
      invariant todo <= byId.Keys && NoRepeats(ids) && |ids| + |todo| == |byId|
      invariant forall id :: id in ids <==> id in byId && id !in todo
      invariant names == Values(byId, ids)
      decreases todo
    {
      var id :| id in todo;
      todo := todo - {id};
      names := names + [byId[id]];
      ids := ids + [id];
    }
    SortIs(names);
    assert Lists(byId, ids) && multiset(Values(byId, ids)) == multiset(Sort(names));
    assert |multiset(names)| == |multiset(Sort(names))|;
    names := Sort(names);
  }

  /** What inverting a presence list must give: a roster for every channel with a listener, no other. */
  ghost predicate Inverts(entries: seq<Entry>, out: Rosters) {
    forall ref :: && (ref in out <==> HeardBy(entries, ref) != map[])
                  && (ref in out ==> IsRoster(HeardBy(entries, ref), out[ref]) && out[ref] != [])
  }

  /** The nested maps after some entries, and some channels of the next one. */
  ghost predicate Heard(entries: seq<Entry>, byRef: map<string, map<string, string>>) {
    forall ref :: && (ref in byRef <==> HeardBy(entries, ref) != map[])
                  && (ref in byRef ==> byRef[ref] == HeardBy(entries, ref))
  }

  method InvertRoster(entries: seq<Entry>) returns (out: Rosters)
    ensures Inverts(entries, out)
  {
    var byRef: map<string, map<string, string>> := map[];
    for i := 0 to |entries|
      invariant Heard(entries[..i], byRef)
    {
      var e := entries[i];
      assert entries[..i + 1] == entries[..i] + [e];
      if e.concealed {
        continue;
      }
      byRef := AddListener(entries[..i], e, byRef);
    }
    assert entries[..|entries|] == entries;
    out := map[];
    var todo := byRef.Keys;
    while todo != {}
      invariant todo <= byRef.Keys && out.Keys == byRef.Keys - todo
      invariant forall ref | ref in out :: IsRoster(HeardBy(entries, ref), out[ref]) && out[ref] != []
      decreases todo
    {
      var ref :| ref in todo;
      todo := todo - {ref};
      var names := SortedNames(byRef[ref]);
      assert byRef[ref] == HeardBy(entries, ref) && |byRef[ref]| > 0;
      out := out[ref := names];
    }
  }

  lemma HeardNext(entries: seq<Entry>, e: Entry, ref: string)
    ensures HeardBy(entries + [e], ref) ==
            if Hears(e, ref) then HeardBy(entries, ref)[e.playerId := e.name] else HeardBy(entries, ref)
  {
    assert (entries + [e])[..|entries|] == entries;
  }

  /** The inner loop: one visible player added to every channel of its hear-set. */
  method AddListener(ghost entries: seq<Entry>, e: Entry, before: map<string, map<string, string>>)
    returns (byRef: map<string, map<string, string>>)
    requires Heard(entries, before) && !e.concealed
    ensures Heard(entries + [e], byRef)
  {
    hide HeardBy, Heard;
    byRef := before;
    for j := 0 to |e.channels|
      invariant forall ref | ref !in e.channels[..j] ::
                  (ref in byRef <==> ref in before) && (ref in byRef ==> byRef[ref] == before[ref])
      invariant forall ref | ref in e.channels[..j] ::
                  ref in byRef && byRef[ref] == At(before, ref)[e.playerId := e.name]
    {
      var ref := e.channels[j];
      assert e.channels[..j + 1] == e.channels[..j] + [ref];
      var byId := if ref in byRef then byRef[ref] else map[];
      assert byId[e.playerId := e.name] == At(before, ref)[e.playerId := e.name];
      byRef := byRef[ref := byId[e.playerId := e.name]];
    }
    assert e.channels[..|e.channels|] == e.channels;
    HeardAfter(entries, e, before, byRef);
  }

  function At(byRef: map<string, map<string, string>>, ref: string): map<string, string> {
    if ref in byRef then byRef[ref] else map[]
  }

  lemma HeardAfter(
    entries: seq<Entry>, e: Entry, before: map<string, map<string, string>>, byRef: map<string, map<string, string>>)
    requires Heard(entries, before) && !e.concealed
    requires forall ref | ref !in e.channels ::
               (ref in byRef <==> ref in before) && (ref in byRef ==> byRef[ref] == before[ref])
    requires forall ref | ref in e.channels :: ref in byRef && byRef[ref] == At(before, ref)[e.playerId := e.name]
    ensures Heard(entries + [e], byRef)
  {
    hide HeardBy;
    forall ref ensures (ref in byRef <==> HeardBy(entries + [e], ref) != map[])
      && (ref in byRef ==> byRef[ref] == HeardBy(entries + [e], ref)) {
      HeardNext(entries, e, ref);
      if ref in e.channels {
        assert e.playerId in HeardBy(entries + [e], ref);
      }
    }
  }

  // ---- polling --------------------------------------------------------------------------------

  /** The aggregator's memory. */
  datatype Memory = Memory(last: Rosters, polls: nat)

  predicate Full(m: Memory) { m.polls % RESYNC_EVERY == 0 }

  /** Whether a poll publishes a channel: on a full poll always, otherwise if its roster changed. */
  predicate Publishes(m: Memory, current: Rosters, ref: string) {
    ref in current && (Full(m) || current[ref] != (if ref in m.last then m.last[ref] else []))
  }

  function Published(m: Memory, current: Rosters): Rosters {
    map ref | ref in current && Publishes(m, current, ref) :: current[ref]
  }

  /** The publishing loop, over the channels in any order. */
  method Diff(rosters: Rosters, last: Rosters, polls: nat) returns (published: Rosters)
    ensures published == Published(Memory(last, polls), rosters)
  {
    var full := polls % RESYNC_EVERY == 0;
    published := map[];
    var todo := rosters.Keys;
    while todo != {}
      invariant todo <= rosters.Keys
      invariant forall ref :: ref in published <==>
                  ref in rosters && ref !in todo && Publishes(Memory(last, polls), rosters, ref)
      invariant forall ref | ref in published :: published[ref] == rosters[ref]
      decreases todo
    {
      var ref :| ref in todo;
      todo := todo - {ref};
      if full || rosters[ref] != (if ref in last then last[ref] else []) {
        published := published[ref := rosters[ref]];
      }
    }
  }

  class Aggregator {
    var lastRosters: Rosters
    var rosterPolls: nat

    ghost function View(): Memory
      reads this
    {
      Memory(lastRosters, rosterPolls)
    }

    constructor ()
      ensures View() == Memory(map[], 0)
    {
      lastRosters, rosterPolls := map[], 0;
    }

    /** A poll: a failed listing changes nothing. */
    method Aggregate(listing: seq<Entry>, failed: bool) returns (published: Rosters, ghost current: Rosters)
      modifies this
      ensures failed ==> View() == old(View()) && published == map[]
      ensures !failed ==> Inverts(listing, current) && published == Published(old(View()), current)
                          && View() == Memory(current, old(rosterPolls) + 1)
    {
      published, current := map[], map[];
      if failed {
        return;
      }
      hide Inverts;
      var rosters := InvertRoster(listing);
      current := rosters;
      published := Diff(rosters, lastRosters, rosterPolls);
      rosterPolls := rosterPolls + 1;
      lastRosters := rosters;
    }
  }

  // ---- every run of polls, by any number of directors ------------------------------------------

  /** Every director's memory, which survives losing and regaining the lead and dies with the process, and
      what each channel's subscribers last received. */
  datatype Sys = Sys(memories: map<nat, Memory>, received: Rosters)

  const FRESH := Memory(map[], 0)

  function MemoryOf(s: Sys, d: nat): Memory { if d in s.memories then s.memories[d] else FRESH }

  /** A successful poll by a director that believes it leads, with the channels whose publish was lost on
      the way; or a director starting over. */
  datatype Step = Poll(d: nat, current: Rosters, dropped: set<string>) | Restart(d: nat)

  predicate Enabled(step: Step) { step.Poll? ==> forall ref | ref in step.current :: step.current[ref] != [] }

  function Apply(s: Sys, step: Step): Sys {
    match step
    case Poll(d, current, dropped) =>
      var m := MemoryOf(s, d);
      Sys(s.memories[d := Memory(current, m.polls + 1)], s.received + (Published(m, current) - dropped))
    case Restart(d) => s.(memories := s.memories[d := FRESH])
  }

  ghost predicate Behavior(run: seq<Sys>, steps: seq<Step>) {
    && |run| == |steps| + 1 && run[0] == Sys(map[], map[])
    && forall k | 0 <= k < |steps| :: Enabled(steps[k]) && run[k + 1] == Apply(run[k], steps[k])
  }

  predicate Holds(s: Sys, ref: string, names: seq<string>) { ref in s.received && s.received[ref] == names }

  /** The subscribers of a channel hold what this director last saw of it. */
  predicate Fresh(s: Sys, d: nat, ref: string) {
    ref in MemoryOf(s, d).last ==> Holds(s, ref, MemoryOf(s, d).last[ref])
  }

  // ---- one step -------------------------------------------------------------------------------

  /** A poll delivers a channel's roster. */
  predicate Delivers(s: Sys, step: Step, ref: string) {
    step.Poll? && ref !in step.dropped && Publishes(MemoryOf(s, step.d), step.current, ref)
  }

  lemma ReceivedAfter(s: Sys, step: Step, ref: string, names: seq<string>)
    ensures Holds(Apply(s, step), ref, names) <==>
            if Delivers(s, step, ref) then names == step.current[ref] else Holds(s, ref, names)
  {
  }

  /** After a director's own poll its snapshot is what the subscribers hold, if the poll was full or they held
      the old snapshot before. */
  lemma OwnPollKeepsFresh(s: Sys, step: Step, ref: string)
    requires step.Poll? && Enabled(step) && ref !in step.dropped
    requires Full(MemoryOf(s, step.d)) || Fresh(s, step.d, ref)
    ensures Fresh(Apply(s, step), step.d, ref)
  {
    if ref in step.current {
      ReceivedAfter(s, step, ref, step.current[ref]);
    }
  }

  // ---- whole runs -----------------------------------------------------------------------------

  /** No other director polls, and nothing published for the channel is lost, from step i to step j. */
  predicate Undisturbed(steps: seq<Step>, i: nat, j: nat, d: nat, ref: string)
    requires i <= j <= |steps|
  {
    forall k | i <= k < j && steps[k].Poll? :: steps[k].d == d && ref !in steps[k].dropped
  }

  lemma {:induction false} FreshWhileUndisturbed(run: seq<Sys>, steps: seq<Step>, i: nat, j: nat, d: nat, ref: string)
    requires Behavior(run, steps) && i <= j < |run| && Fresh(run[i], d, ref) && Undisturbed(steps, i, j, d, ref)
    ensures Fresh(run[j], d, ref)
    decreases j - i
  {
    if i < j {
      FreshWhileUndisturbed(run, steps, i, j - 1, d, ref);
      assert run[j] == Apply(run[j - 1], steps[j - 1]);
    }
  }

  /** A director is current from its first full poll on, as long as it is undisturbed: after each of its polls
      the subscribers of every channel with a listener hold exactly its current roster, also after the
      channel emptied and filled again. */
  lemma CurrentSinceFullPoll(run: seq<Sys>, steps: seq<Step>, f: nat, n: nat, d: nat, ref: string)
    requires Behavior(run, steps) && f <= n < |steps| && Undisturbed(steps, f, n + 1, d, ref)
    requires steps[f].Poll? && Full(MemoryOf(run[f], d)) && steps[n].Poll? && ref in steps[n].current
    ensures Holds(run[n + 1], ref, steps[n].current[ref])
  {
    hide Full;
    OwnPollKeepsFresh(run[f], steps[f], ref);
    assert run[f + 1] == Apply(run[f], steps[f]) && run[n + 1] == Apply(run[n], steps[n]);
    FreshWhileUndisturbed(run, steps, f + 1, n + 1, d, ref);
  }

  /** The director started at r, at the beginning or by a restart, and did nothing since. */
  predicate StartedAt(steps: seq<Step>, r: nat, n: nat, d: nat) {
    r <= n <= |steps| && (r == 0 || steps[r - 1] == Restart(d)) && forall k | r <= k < n :: steps[k].d != d
  }

  /** A director is fresh exactly until its first poll after a start. */
  lemma {:induction false} FreshIffStarted(run: seq<Sys>, steps: seq<Step>, n: nat, d: nat)
    requires Behavior(run, steps) && n <= |steps|
    ensures MemoryOf(run[n], d) == FRESH <==> exists r: nat :: StartedAt(steps, r, n, d)
  {
    if n == 0 {
      assert StartedAt(steps, 0, 0, d);
    } else {
      var m := n - 1;
      FreshIffStarted(run, steps, m, d);
      assert run[n] == Apply(run[m], steps[m]);
      assert forall r: nat | r < n && StartedAt(steps, r, n, d) :: StartedAt(steps, r, m, d);
      assert steps[m].d != d ==> forall r: nat | StartedAt(steps, r, m, d) :: StartedAt(steps, r, n, d);
      assert steps[m] == Restart(d) ==> StartedAt(steps, n, n, d);
    }
  }

  /** So a fresh director is current at once, whatever its predecessors left behind. */
  lemma FreshDirectorIsCurrent(run: seq<Sys>, steps: seq<Step>, f: nat, n: nat, d: nat, ref: string)
    requires Behavior(run, steps) && f <= n < |steps| && Undisturbed(steps, f, n + 1, d, ref)
    requires steps[f].Poll? && MemoryOf(run[f], d) == FRESH && steps[n].Poll? && ref in steps[n].current
    ensures Holds(run[n + 1], ref, steps[n].current[ref])
  {
    CurrentSinceFullPoll(run, steps, f, n, d, ref);
  }

  /** The exact condition for a director that polled before, whatever others did meanwhile: it leaves the
      subscribers behind if and only if its poll is not full, the roster is again what it saw at its previous
      poll, and the subscribers have been given something else since. */
  lemma ReturningDirectorIsStaleIff(run: seq<Sys>, steps: seq<Step>, p: nat, n: nat, d: nat, ref: string)
    requires Behavior(run, steps) && p < n < |steps| && steps[p].Poll? && steps[n].Poll?
             && steps[p].d == d == steps[n].d
    requires forall k | p < k < n :: steps[k].d != d
    requires ref in steps[n].current && ref !in steps[n].dropped
    ensures !Holds(run[n + 1], ref, steps[n].current[ref]) <==>
            && !Full(MemoryOf(run[n], d))
            && ref in steps[p].current && steps[p].current[ref] == steps[n].current[ref]
            && !Holds(run[n], ref, steps[p].current[ref])
  {
    hide Full;
    MemoryStays(run, steps, p, n, d);
    assert run[n + 1] == Apply(run[n], steps[n]) && Enabled(steps[n]);
    ReceivedAfter(run[n], steps[n], ref, steps[n].current[ref]);
  }

  /** Between its own steps a director remembers its last poll. */
  lemma {:induction false} MemoryStays(run: seq<Sys>, steps: seq<Step>, p: nat, n: nat, d: nat)
    requires Behavior(run, steps) && p < n < |run| && steps[p].Poll? && steps[p].d == d
    requires forall k | p < k < n :: steps[k].d != d
    ensures MemoryOf(run[n], d) == Memory(steps[p].current, MemoryOf(run[p], d).polls + 1)
  {
    hide Published;
    assert run[n] == Apply(run[n - 1], steps[n - 1]);
    if p + 1 < n {
      MemoryStays(run, steps, p, n - 1, d);
    }
  }

  /** That really happens, for every two rosters: one director publishes the first, a second one the second,
      and when the first roster is back the first director says nothing. */
  lemma ReturningDirectorSkips(ref: string, a: seq<string>, b: seq<string>) returns (run: seq<Sys>, steps: seq<Step>)
    requires a != [] && b != [] && a != b
    ensures Behavior(run, steps) && |steps| == 3 && forall k | 0 <= k < 3 :: steps[k].Poll? && steps[k].dropped == {}
    ensures steps[2].current == map[ref := a] && Holds(run[3], ref, b)
  {
    hide Apply, Published;
    var (first, second) := (Poll(0, map[ref := a], {}), Poll(1, map[ref := b], {}));
    steps := [first, second, first];
    var s0 := Sys(map[], map[]);
    var s1 := Apply(s0, first);
    var s2 := Apply(s1, second);
    run := [s0, s1, s2, Apply(s2, first)];
    PollRemembers(s0, first, 0);
    PollRemembers(s0, first, 1);
    PollRemembers(s1, second, 0);
    ReceivedAfter(s1, second, ref, b);
    ReceivedAfter(s2, first, ref, b);
  }

  lemma PollRemembers(s: Sys, step: Step, e: nat)
    requires step.Poll?
    ensures MemoryOf(Apply(s, step), e) ==
            if e == step.d then Memory(step.current, MemoryOf(s, e).polls + 1) else MemoryOf(s, e)
  {
  }

  // ---- how often everything is republished ----------------------------------------------------

  /** How many of the steps from i to j are polls by one of these directors. */
  function PollsBy(steps: seq<Step>, i: nat, j: nat, ds: set<nat>): nat
    requires i <= j <= |steps|
    decreases j - i
  {
    if i == j then 0 else PollsBy(steps, i, j - 1, ds) + if steps[j - 1].Poll? && steps[j - 1].d in ds then 1 else 0
  }

  predicate NoRestart(steps: seq<Step>, i: nat, j: nat, d: nat)
    requires i <= j <= |steps|
  {
    forall k | i <= k < j && steps[k].Restart? :: steps[k].d != d
  }

  lemma {:induction false} CountsPolls(run: seq<Sys>, steps: seq<Step>, i: nat, j: nat, d: nat)
    requires Behavior(run, steps) && i <= j <= |steps| && NoRestart(steps, i, j, d)
    ensures MemoryOf(run[j], d).polls == MemoryOf(run[i], d).polls + PollsBy(steps, i, j, {d})
    decreases j - i
  {
    hide Published;
    if i < j {
      CountsPolls(run, steps, i, j - 1, d);
      assert run[j] == Apply(run[j - 1], steps[j - 1]);
    }
  }

  /** The n-th poll of a director in a window. */
  lemma {:induction false} NthPoll(steps: seq<Step>, i: nat, j: nat, d: nat, n: nat) returns (k: nat)
    requires i <= j <= |steps| && n < PollsBy(steps, i, j, {d})
    ensures i <= k < j && steps[k].Poll? && steps[k].d == d && PollsBy(steps, i, k, {d}) == n
    decreases j - i
  {
    if n < PollsBy(steps, i, j - 1, {d}) {
      k := NthPoll(steps, i, j - 1, d, n);
    } else {
      k := j - 1;
    }
  }

  /** Among ten polls of one director that does not start over, one publishes every channel with a listener,
      however many others poll in between. */
  lemma TenOwnPollsResync(run: seq<Sys>, steps: seq<Step>, i: nat, j: nat, d: nat) returns (k: nat)
    requires Behavior(run, steps) && i <= j <= |steps| && NoRestart(steps, i, j, d)
    requires PollsBy(steps, i, j, {d}) >= RESYNC_EVERY
    ensures i <= k < j && steps[k].Poll? && steps[k].d == d && Full(MemoryOf(run[k], d))
    ensures forall ref | ref in steps[k].current :: Publishes(MemoryOf(run[k], d), steps[k].current, ref)
  {
    var m := MemoryOf(run[i], d).polls;
    k := NthPoll(steps, i, j, d, (RESYNC_EVERY - m % RESYNC_EVERY) % RESYNC_EVERY);
    CountsPolls(run, steps, i, k, d);
  }

  /** So with any finite set of directors some full poll comes within nine polls of each and one more. */
  lemma ManyPollsResync(run: seq<Sys>, steps: seq<Step>, i: nat, j: nat, ds: set<nat>) returns (d: nat, k: nat)
    requires Behavior(run, steps) && i <= j <= |steps| && (forall e | e in ds :: NoRestart(steps, i, j, e))
    requires PollsBy(steps, i, j, ds) > (RESYNC_EVERY - 1) * |ds|
    ensures d in ds && i <= k < j && steps[k].Poll? && steps[k].d == d && Full(MemoryOf(run[k], d))
  {
    d := SomeonePollsTen(steps, i, j, ds);
    k := TenOwnPollsResync(run, steps, i, j, d);
  }

  lemma {:induction false} SomeonePollsTen(steps: seq<Step>, i: nat, j: nat, ds: set<nat>) returns (d: nat)
    requires i <= j <= |steps| && PollsBy(steps, i, j, ds) > (RESYNC_EVERY - 1) * |ds|
    ensures d in ds && PollsBy(steps, i, j, {d}) >= RESYNC_EVERY
    decreases |ds|
  {
    if ds == {} {
      NobodyPolls(steps, i, j);
    }
    d :| d in ds;
    if PollsBy(steps, i, j, {d}) < RESYNC_EVERY {
      var rest := ds - {d};
      PollsSplit(steps, i, j, d, rest);
      assert rest + {d} == ds;
      d := SomeonePollsTen(steps, i, j, rest);
    }
  }

  lemma {:induction false} NobodyPolls(steps: seq<Step>, i: nat, j: nat)
    requires i <= j <= |steps|
    ensures PollsBy(steps, i, j, {}) == 0
    decreases j - i
  {
    if i < j {
      NobodyPolls(steps, i, j - 1);
    }
  }

  lemma {:induction false} PollsSplit(steps: seq<Step>, i: nat, j: nat, d: nat, rest: set<nat>)
    requires i <= j <= |steps| && d !in rest
    ensures PollsBy(steps, i, j, rest + {d}) == PollsBy(steps, i, j, rest) + PollsBy(steps, i, j, {d})
    decreases j - i
  {
    if i < j {
      PollsSplit(steps, i, j - 1, d, rest);
    }
  }

  /** Bounded staleness: whatever was lost or overtaken before, ten undisturbed polls bring a channel's
      subscribers up to date. */
  lemma TenCleanPollsHeal(run: seq<Sys>, steps: seq<Step>, i: nat, n: nat, d: nat, ref: string)
    requires Behavior(run, steps) && i <= n < |steps| && Undisturbed(steps, i, n + 1, d, ref)
             && NoRestart(steps, i, n + 1, d)
    requires PollsBy(steps, i, n + 1, {d}) >= RESYNC_EVERY && steps[n].Poll? && ref in steps[n].current
    ensures Holds(run[n + 1], ref, steps[n].current[ref])
  {
    var f := TenOwnPollsResync(run, steps, i, n + 1, d);
    CurrentSinceFullPoll(run, steps, f, n, d, ref);
  }

  /** Ten polls in a row are not enough when two directors take turns: after their first polls, none of the
      next ten is full. */
  lemma TakingTurnsMissesResync() returns (run: seq<Sys>, steps: seq<Step>)
    ensures Behavior(run, steps) && |steps| == 12
    ensures forall k | 2 <= k < 12 :: steps[k].Poll? && !Full(MemoryOf(run[k], steps[k].d))
  {
    steps := seq(12, k requires 0 <= k => Poll(k % 2, map[], {}));
    run := seq(13, k requires 0 <= k => TurnState(k));
    forall k | 0 <= k < 12 ensures run[k + 1] == Apply(run[k], steps[k]) {
      TurnGoes(k);
    }
  }

  function TurnState(k: nat): Sys {
    Sys(if k == 0 then map[] else if k == 1 then map[0 := Memory(map[], 1)]
        else map[0 := Memory(map[], (k + 1) / 2), 1 := Memory(map[], k / 2)], map[])
  }

  lemma TurnGoes(k: nat)
    ensures TurnState(k + 1) == Apply(TurnState(k), Poll(k % 2, map[], {}))
  {
    var (s, t) := (TurnState(k), TurnState(k + 1));
    var m := MemoryOf(s, k % 2);
    assert Published(m, map[]) == map[];
    assert s.memories[k % 2 := Memory(map[], m.polls + 1)] == t.memories;
  }
}
