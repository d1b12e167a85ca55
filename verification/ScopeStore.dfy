/**
  The versioned scope-state store, as the history of each key: version n of a key is the n-th value ever
  written to it.  Rows are never deleted, so histories only grow.
*/
module ScopeStore {
  import opened DirectorCore

  type Store = map<Key, seq<Value>>

  /** Every value a key has had, in order. */
  function History(s: Store, key: Key): seq<Value> { if key in s then s[key] else [] }

  predicate WellFormed(s: Store) { forall k | k in s :: |s[k]| > 0 }

  function Load(s: Store, key: Key): LoadReply {
    if key in s && |s[key]| > 0 then Found(s[key][|s[key]| - 1], |s[key]|) else Absent
  }

  /** INSERT .. ON CONFLICT DO UPDATE .. WHERE version = expected: an absent key is inserted at version
      1 whatever was expected, an existing key moves only from the expected version. */
  function Save(s: Store, key: Key, value: Value, expected: nat): (Store, SaveReply) {
    if key !in s then (s[key := [value]], Saved(1))
    else if |s[key]| == expected then (s[key := s[key] + [value]], Saved(expected + 1))
    else (s, Lost)
  }

  /** The store held `value` for `key` at `version`. */
  predicate Held(s: Store, key: Key, value: Value, version: nat) {
    key in s && 1 <= version <= |s[key]| && s[key][version - 1] == value
  }

  predicate Grows(s: Store, t: Store) {
    forall k | k in s :: k in t && s[k] <= t[k]
  }

  predicate ReplyReal(s: Store, key: Key, r: LoadReply) {
    r.Found? ==> Held(s, key, r.value, r.version)
  }

  /** Every cached entry is a past store entry, and keys and versions are cached together. */
  predicate CacheReal(s: Store, l: Local) {
    SameDomain(l) && forall k | k in l.versions :: Held(s, k, l.state[k], l.versions[k])
  }

  /** The replies inside an operation are replies this store has really given. */
  predicate OpReal(s: Store, op: HandlerOp) {
    match op
    case GetOp(k, reply) => ReplyReal(s, k, reply)
    case SetOp(k, v, _, io) =>
      && ReplyReal(s, k, io.seed) && ReplyReal(s, k, io.reload)
      && (io.save.Saved? ==> Held(s, k, Normalize(v), io.save.version))
    case BroadcastOp => true
  }

  predicate OpsReal(s: Store, ops: seq<HandlerOp>) {
    forall i | 0 <= i < |ops| :: OpReal(s, ops[i])
  }

  predicate DeltaReal(s: Store, d: Delta) { Held(s, d.key, Normalize(d.value), d.version) }

  lemma SaveGrows(s: Store, key: Key, value: Value, expected: nat)
    requires WellFormed(s)
    ensures WellFormed(Save(s, key, value, expected).0)
    ensures Grows(s, Save(s, key, value, expected).0)
    ensures Save(s, key, value, expected).1.Saved? ==>
              Held(Save(s, key, value, expected).0, key, value, Save(s, key, value, expected).1.version)
    ensures var (t, r) := Save(s, key, value, expected);
            if key !in s || |s[key]| == expected then
              && r == Saved(|t[key]|) && t.Keys == s.Keys + {key}
              && t[key] == (if key in s then s[key] else []) + [value]
              && forall k | k in s && k != key :: t[k] == s[k]
            else r == Lost && t == s
  {
  }

  lemma RealStaysReal(s: Store, t: Store, l: Local, ops: seq<HandlerOp>)
    requires Grows(s, t)
    ensures CacheReal(s, l) ==> CacheReal(t, l)
    ensures OpsReal(s, ops) ==> OpsReal(t, ops)
  {
    if CacheReal(s, l) {
      forall k | k in l.versions ensures Held(t, k, l.state[k], l.versions[k]) {
        assert Held(s, k, l.state[k], l.versions[k]);
      }
    }
    if OpsReal(s, ops) {
      forall i | 0 <= i < |ops| ensures OpReal(t, ops[i]) {
        assert OpReal(s, ops[i]);
      }
    }
  }

  lemma CachingKeepsReal(s: Store, l: Local, key: Key, reply: LoadReply)
    requires CacheReal(s, l) && ReplyReal(s, key, reply)
    ensures CacheReal(s, CacheReply(l, key, reply))
  {
  }

  lemma SetKeepsReal(s: Store, l: Local, key: Key, value: Value, io: SetIO)
    requires CacheReal(s, l) && OpReal(s, SetOp(key, value, true, io))
    ensures CacheReal(s, SetSpec(l, key, value, io).0)
  {
    var l1 := Seeded(l, key, io.seed);
    CachingKeepsReal(s, l, key, io.seed);
    CachingKeepsReal(s, l1, key, io.reload);
    FailKeepsReal(s, l);
    FailKeepsReal(s, l1);
    FailKeepsReal(s, CacheReply(l1, key, io.reload));
    if io.save.Saved? {
      var saved := Found(Normalize(value), io.save.version);
      CachingKeepsReal(s, l1, key, saved);
    }
  }

  lemma FailKeepsReal(s: Store, l: Local)
    requires CacheReal(s, l)
    ensures CacheReal(s, Fail(l))
  {
  }

  lemma OpKeepsCacheReal(s: Store, l: Local, op: HandlerOp)
    requires CacheReal(s, l) && OpReal(s, op)
    ensures CacheReal(s, DoOp(l, op))
    ensures forall d | d in OpDeltas(l, op) :: DeltaReal(s, d)
  {
    hide CacheReal;
    match op {
      case GetOp(k, reply) => CachingKeepsReal(s, l, k, reply);
      case SetOp(k, v, _, io) => SetKeepsReal(s, l, k, v, io);
      case BroadcastOp =>
    }
  }

  /** What a read returns is real: a value the store held, or a real absence when the load was made. */
  lemma ReadsAreReal(s: Store, l: Local, key: Key)
    requires WellFormed(s) && CacheReal(s, l)
    ensures var (after, r) := GetSpec(l, key, Load(s, key));
            && (r.Hit? ==>
                  key in after.versions && after.state[key] == r.value && Held(s, key, r.value, after.versions[key]))
            && (r.Unset? ==> key !in l.state && key !in s && after == l)
            && !r.GetFailed?
  {
    if key in l.state {
      assert Held(s, key, l.state[key], l.versions[key]);
    }
  }

  /** A director reads its own writes, and a successful set is the only way a set changes what it reads,
      apart from the reload after a lost compare-and-set. */
  lemma ReadYourWrites(l: Local, key: Key, value: Value, io: SetIO, reply: LoadReply)
    requires SetSpec(l, key, value, io).1.Wrote?
    ensures var after := SetSpec(l, key, value, io).0;
            && GetSpec(after, key, reply) == (after, Hit(Normalize(value)))
            && forall other | other != key ::
                 (other in after.state <==> other in l.state)
                   && (other in l.state ==> after.state[other] == l.state[other])
  {
  }

  // ---- one uninterrupted set against the store ------------------------------------------------

  /** How a store call may go wrong: not at all, before it takes effect, or after, unnoticed by the caller. */
  datatype Fault = Fine | ErrorBefore | ErrorAfter

  /** What goes wrong during one set: its seeding load, its save, its reload after a loss. */
  datatype SetFaults = SetFaults(seedFails: bool, save: Fault, reloadFails: bool)

  const NO_FAULTS := SetFaults(false, Fine, false)

  function SeedReply(s: Store, key: Key, f: SetFaults): LoadReply { if f.seedFails then LoadError else Load(s, key) }

  /** The set gets as far as its save. */
  predicate ReachesSave(l: Local, key: Key, f: SetFaults) { l.leader && (key in l.versions || !f.seedFails) }

  function SaveMade(s: Store, l: Local, key: Key, value: Value, f: SetFaults): (Store, SaveReply) {
    Save(s, key, Normalize(value), Expected(l, key, SeedReply(s, key, f)))
  }

  /** The replies the set sees, and the store it leaves. */
  function IoAgainst(s: Store, l: Local, key: Key, value: Value, f: SetFaults): SetIO {
    SetIO(SeedReply(s, key, f),
          if f.save.Fine? then SaveMade(s, l, key, value, f).1 else SaveError,
          if f.reloadFails then LoadError else Load(s, key))
  }

  function StoreAgainst(s: Store, l: Local, key: Key, value: Value, f: SetFaults): Store {
    if ReachesSave(l, key, f) && !f.save.ErrorBefore? then SaveMade(s, l, key, value, f).0 else s
  }

  /** A whole `set` with no other writer in between. */
  function SetAgainst(s: Store, l: Local, key: Key, value: Value, f: SetFaults): (Store, Local, SetResult) {
    var r := SetSpec(l, key, value, IoAgainst(s, l, key, value, f));
    (StoreAgainst(s, l, key, value, f), r.0, r.1)
  }

  /** The set's value reached the store. */
  predicate Landed(s: Store, l: Local, key: Key, value: Value, f: SetFaults) {
    ReachesSave(l, key, f) && !f.save.ErrorBefore? && SaveMade(s, l, key, value, f).1.Saved?
  }

  function QuietSet(s: Store, l: Local, key: Key, value: Value): (Store, Local, SetResult) {
    SetAgainst(s, l, key, value, NO_FAULTS)
  }

  /** Exactly when the value lands: a leader, a store call that took effect, and a cached version, or else one that
      could be loaded, which is the store's unless the store has none.  The caller is told so exactly if that call
      was confirmed; and a loss is told apart from an error by the reload. */
  lemma LandedMeans(s: Store, l: Local, key: Key, value: Value, f: SetFaults)
    requires WellFormed(s)
    ensures Landed(s, l, key, value, f) <==>
            && l.leader && f.save != ErrorBefore
            && (if key in l.versions then key !in s || l.versions[key] == |s[key]| else !f.seedFails)
    ensures var (_, l', r) := SetAgainst(s, l, key, value, f);
            var tried := l.leader && (key in l.versions || !f.seedFails) && f.save == Fine;
            && (r.Wrote? <==> Landed(s, l, key, value, f) && f.save == Fine)
            && (r.CasLost? <==> tried && !Landed(s, l, key, value, f) && !f.reloadFails)
            && (r.CasLost? && key in s ==> key in l'.versions && l'.versions[key] == |History(s, key)|)
  {
  }

  /** What a set does to histories: it appends its value to its own key's if it landed, and nothing else. */
  lemma SetHistories(s: Store, l: Local, key: Key, value: Value, f: SetFaults, other: Key)
    requires WellFormed(s) && CacheReal(s, l)
    ensures var s' := SetAgainst(s, l, key, value, f).0;
            && WellFormed(s') && Grows(s, s')
            && History(s', other) ==
               History(s, other) + if other == key && Landed(s, l, key, value, f) then [Normalize(value)] else []
  {
    hide CacheReal, SetSpec;
    SaveGrows(s, key, Normalize(value), Expected(l, key, SeedReply(s, key, f)));
  }

  /** What a set does to the cache: a reported success caches the new head; otherwise an entry is kept as it
      was or refreshed from the head before the set; other entries are untouched. */
  lemma SetCaches(s: Store, l: Local, key: Key, value: Value, f: SetFaults)
    requires WellFormed(s) && CacheReal(s, l)
    ensures var (s', l', r) := SetAgainst(s, l, key, value, f);
            && l'.leader == l.leader
            && (r.Wrote? ==> && Landed(s, l, key, value, f) && key in l'.versions && key in l'.state
                             && l'.versions[key] == |History(s', key)| && l'.state[key] == Normalize(value))
            && (!r.Wrote? && key in l'.versions ==>
                  || (key in l.versions && l'.versions[key] == l.versions[key])
                  || l'.versions[key] == |History(s, key)|)
            && (forall other | other != key :: (other in l'.versions <==> other in l.versions) &&
                                                (other in l.versions ==> l'.versions[other] == l.versions[other]))
  {
    hide CacheReal;
    SetTouchesOneEntry(l, key, value, IoAgainst(s, l, key, value, f));
    SetEntry(s, l, key, value, f);
  }

  lemma SetTouchesOneEntry(l: Local, key: Key, value: Value, io: SetIO)
    ensures var l' := SetSpec(l, key, value, io).0;
            && l'.leader == l.leader
            && (forall other | other != key :: (other in l'.versions <==> other in l.versions) &&
                                                (other in l.versions ==> l'.versions[other] == l.versions[other]))
  {
    hide SetSpec, CachedAfterSet;
    SetMeans(l, key, value, io);
  }

  lemma SetEntry(s: Store, l: Local, key: Key, value: Value, f: SetFaults)
    requires WellFormed(s) && CacheReal(s, l)
    ensures var (s', l', r) := SetAgainst(s, l, key, value, f);
            && (r.Wrote? ==> && Landed(s, l, key, value, f) && key in l'.versions && key in l'.state
                             && l'.versions[key] == |History(s', key)| && l'.state[key] == Normalize(value))
            && (!r.Wrote? && key in l'.versions ==>
                  || (key in l.versions && l'.versions[key] == l.versions[key])
                  || l'.versions[key] == |History(s, key)|)
  {
    if key in l.versions {
      assert Held(s, key, l.state[key], l.versions[key]);
    }
  }

  lemma SetStaysReal(s: Store, l: Local, key: Key, value: Value, f: SetFaults)
    requires WellFormed(s) && CacheReal(s, l)
    ensures CacheReal(SetAgainst(s, l, key, value, f).0, SetAgainst(s, l, key, value, f).1)
  {
    hide CacheReal;
    var (s', io) := (StoreAgainst(s, l, key, value, f), IoAgainst(s, l, key, value, f));
    SaveGrows(s, key, Normalize(value), Expected(l, key, SeedReply(s, key, f)));
    RealStaysReal(s, s', l, []);
    if ReachesSave(l, key, f) {
      hide SetSpec;
      assert OpReal(s', SetOp(key, value, true, io)) by {
        LoadStaysReal(s, s', key);
      }
      SetKeepsReal(s', l, key, value, io);
    } else {
      FailKeepsReal(s, l);
    }
  }

  lemma LoadStaysReal(s: Store, s': Store, key: Key)
    requires Grows(s, s')
    ensures ReplyReal(s', key, Load(s, key))
  {
  }

  /** The cached version of the key, if there is one, is the store's current version. */
  predicate UpToDate(s: Store, l: Local, key: Key) {
    key in l.versions ==> key in s && l.versions[key] == |s[key]|
  }

  /** A read never refreshes: it is current afterwards exactly if the entry was absent or current before.
      Only a director with a fresh cache is sure to read the present. */
  lemma ReadIsCurrentIff(s: Store, l: Local, key: Key)
    requires WellFormed(s) && CacheReal(s, l)
    ensures UpToDate(s, GetSpec(l, key, Load(s, key)).0, key) <==> UpToDate(s, l, key)
    ensures key !in l.state ==> UpToDate(s, GetSpec(l, key, Load(s, key)).0, key)
  {
  }

  /** What a set with no other writer should do: append when the cache entry is absent (a cold cache) or
      current, and otherwise leave the store alone and report the loss. */
  predicate QuietOutcome(s: Store, l: Local, key: Key, value: Value, s': Store, r: SetResult) {
    if UpToDate(s, l, key) then
      && s' == s[key := (if key in s then s[key] else []) + [Normalize(value)]]
      && r == Wrote(|s'[key]|)
    else
      s' == s && r == CasLost
  }

  lemma QuietSetOutcome(s: Store, l: Local, key: Key, value: Value)
    requires WellFormed(s) && CacheReal(s, l) && l.leader
    ensures var (s', l', r) := QuietSet(s, l, key, value);
            QuietOutcome(s, l, key, value, s', r) && UpToDate(s', l', key)
  {
    if key in l.versions {
      assert Held(s, key, l.state[key], l.versions[key]);
    }
    assert [] + [Normalize(value)] == [Normalize(value)];
  }

  /** An uninterrupted set without store errors succeeds exactly when its cache entry is absent or current;
      either way its cache is current and real afterwards.  DirectorProgress has the same over every
      interleaving. */
  lemma QuietSetSucceedsIff(s: Store, l: Local, key: Key, value: Value)
    requires WellFormed(s) && CacheReal(s, l) && l.leader
    ensures var (s', l', r) := QuietSet(s, l, key, value);
            && (r.Wrote? <==> UpToDate(s, l, key))
            && QuietOutcome(s, l, key, value, s', r)
            && UpToDate(s', l', key) && CacheReal(s', l')
  {
    hide CacheReal, SetSpec;
    QuietSetOutcome(s, l, key, value);
    SetStaysReal(s, l, key, value, NO_FAULTS);
  }
}
