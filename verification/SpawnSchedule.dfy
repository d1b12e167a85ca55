/**
  Scheduled boss spawns: the decisions, and the director that runs them over its scope-state cache and the
  versioned store.  Any read may fail and any save may be lost or land unnoticed.  Times count from the
  zero time.
*/
module SpawnSchedule {
  import Decimal
  import opened DirectorCore
  import opened ScopeStore

  const SKIP_TO_NEXT := "skip_to_next"

  datatype Schedule = Schedule(ref: string, interval: int, onMissed: string)

  datatype ScheduleState = ScheduleState(nextSpawnAt: int, active: bool)

  const NEVER_SPAWNED := ScheduleState(0, false)

  // ---- the decisions --------------------------------------------------------------------------

  predicate IsDue(st: ScheduleState, now: nat) { !st.active && now >= st.nextSpawnAt }

  function AfterSpawn(st: ScheduleState): ScheduleState { st.(active := true) }

  function AfterDeath(s: Schedule, at: nat): ScheduleState { ScheduleState(at + s.interval, false) }

  function ApplyMissed(s: Schedule, st: ScheduleState, now: nat): ScheduleState {
    if st.active || st.nextSpawnAt >= now then st
    else if s.onMissed == SKIP_TO_NEXT then st.(nextSpawnAt := now + s.interval)
    else st
  }

  /** The startup pass never makes a spawn possible that was not, from now on, and changes no liveness. */
  lemma MissedNeverHastens(s: Schedule, st: ScheduleState, now: nat, at: nat)
    requires now <= at
    ensures IsDue(ApplyMissed(s, st, now), at) ==> IsDue(st, at)
    ensures ApplyMissed(s, st, now).active == st.active
  {
  }

  /** A schedule that has never spawned counts as overdue, so under skip_to_next its first spawn, too,
      waits a whole interval after the director's start. */
  lemma SkipDelaysFirstSpawn(s: Schedule, now: nat, at: nat)
    requires s.onMissed == SKIP_TO_NEXT && now > 0
    ensures IsDue(ApplyMissed(s, NEVER_SPAWNED, now), at) <==> at >= now + s.interval
  {
  }

  // ---- schedule states in scope state ---------------------------------------------------------

  /** The JSON form of a state: any text that reads back as the state it was written from. */
  datatype Codec = Codec(encode: ScheduleState -> string, decode: string -> ScheduleState)

  ghost predicate Faithful(c: Codec) { forall st :: c.encode(st) != "" && c.decode(c.encode(st)) == st }

  /** Such a codec exists: a letter for liveness, a sign, and the time in decimal. */
  const PLAIN_CODEC := Codec(PlainText, FromPlainText)

  function PlainText(st: ScheduleState): string {
    [if st.active then 'a' else 'd', if st.nextSpawnAt < 0 then '-' else '+']
    + Decimal.Text(if st.nextSpawnAt < 0 then -st.nextSpawnAt else st.nextSpawnAt)
  }

  function FromPlainText(s: string): ScheduleState {
    if |s| < 2 || !Decimal.IsDigits(s[2..]) then NEVER_SPAWNED
    else
      var n: int := Decimal.Value(s[2..]);
      ScheduleState(if s[1] == '-' then -n else n, s[0] == 'a')
  }

  lemma CodecExists()
    ensures Faithful(PLAIN_CODEC)
  {
    forall st ensures PlainText(st) != "" && FromPlainText(PlainText(st)) == st {
      var n: nat := if st.nextSpawnAt < 0 then -st.nextSpawnAt else st.nextSpawnAt;
      Decimal.ValueOfText(n);
      assert PlainText(st)[2..] == Decimal.Text(n);
    }
  }

  const PREFIX := "schedule:"

  function KeyOf(ref: string): Key { PREFIX + ref }

  /** Schedules live under their own keys. */
  lemma KeysDiffer(a: string, b: string)
    ensures KeyOf(a) == "schedule:" + a && (KeyOf(a) == KeyOf(b) <==> a == b)
  {
    assert KeyOf(a)[|PREFIX|..] == a && KeyOf(b)[|PREFIX|..] == b;
  }

  /** Which code wrote a version. */
  datatype Writer = BySpawn | ByDeath | ByStartup

  /** What happened to a schedule.  A spawn is blind if the read before it failed, and kept if the save after
      it was reported as made; likewise a death, which is an event once its save reached the store.  An
      overwrite is a startup pass that could not read the state and wrote one all the same. */
  datatype Event =
    | Spawn(ref: string, at: nat, blind: bool, kept: bool)
    | Death(ref: string, at: nat, kept: bool)
    | Overwrite(ref: string, at: nat)

  /** The store, the running director's fields, the writer of every version, and everything that happened. */
  datatype World = World(store: Store, local: Local, writers: map<string, seq<Writer>>, events: seq<Event>)

  function WritersOf(w: World, ref: string): seq<Writer> { if ref in w.writers then w.writers[ref] else [] }

  /** What goes wrong while one schedule is handled: its read, and its save. */
  datatype Faults = Faults(readFails: bool, save: SetFaults)

  const NONE := Faults(false, NO_FAULTS)

  /** Only a key that is not cached is really read from the store. */
  predicate IsBlind(w: World, ref: string, f: Faults) { f.readFails && KeyOf(ref) !in w.local.state }

  function Reply(w: World, ref: string, f: Faults): LoadReply {
    if f.readFails then LoadError else Load(w.store, KeyOf(ref))
  }

  /** loadScheduleState: a failed read, like an absent or empty value, gives the zero state. */
  function StateRead(c: Codec, r: GetResult): ScheduleState {
    if r.Hit? && |r.value| > 0 then c.decode(r.value) else NEVER_SPAWNED
  }

  function ReadState(c: Codec, w: World, ref: string, f: Faults): (World, ScheduleState) {
    var (l, r) := GetSpec(w.local, KeyOf(ref), Reply(w, ref, f));
    (w.(local := l), StateRead(c, r))
  }

  predicate Lands(c: Codec, w: World, ref: string, st: ScheduleState, f: Faults) {
    Landed(w.store, w.local, KeyOf(ref), c.encode(st), f.save)
  }

  /** saveScheduleState: the new world, and whether the save was reported as made. */
  function WriteState(c: Codec, w: World, ref: string, st: ScheduleState, who: Writer, f: Faults): (World, bool) {
    var (s, l, r) := SetAgainst(w.store, w.local, KeyOf(ref), c.encode(st), f.save);
    var writers := if Lands(c, w, ref, st, f) then w.writers[ref := WritersOf(w, ref) + [who]] else w.writers;
    (World(s, l, writers, w.events), r.Wrote?)
  }

  function Note(w: World, e: Event): World { w.(events := w.events + [e]) }

  // ---- one schedule in the startup pass, in a tick, at a death --------------------------------

  function StartupOne(c: Codec, s: Schedule, w: World, now: nat, f: Faults): World {
    var (w1, st) := ReadState(c, w, s.ref, f);
    var adjusted := ApplyMissed(s, st, now);
    if adjusted == st then w1
    else
      var w2 := WriteState(c, w1, s.ref, adjusted, ByStartup, f).0;
      if IsBlind(w, s.ref, f) && Lands(c, w1, s.ref, adjusted, f) then Note(w2, Overwrite(s.ref, now)) else w2
  }

  /** The state a tick reads for a schedule decides whether it spawns; the broadcast comes before the save. */
  predicate Spawns(c: Codec, s: Schedule, w: World, now: nat, f: Faults) {
    IsDue(ReadState(c, w, s.ref, f).1, now)
  }

  function CheckOne(c: Codec, s: Schedule, w: World, now: nat, f: Faults): World {
    var (w1, st) := ReadState(c, w, s.ref, f);
    if !IsDue(st, now) then w1
    else
      var (w2, kept) := WriteState(c, w1, s.ref, AfterSpawn(st), BySpawn, f);
      Note(w2, Spawn(s.ref, now, IsBlind(w, s.ref, f), kept))
  }

  function DeathOne(c: Codec, s: Schedule, w: World, at: nat, f: Faults): World {
    var (w1, kept) := WriteState(c, w, s.ref, AfterDeath(s, at), ByDeath, f);
    if Lands(c, w, s.ref, AfterDeath(s, at), f) then Note(w1, Death(s.ref, at, kept)) else w1
  }

  /** The first schedule with a ref. */
  function Find(ss: seq<Schedule>, ref: string): (r: int)
    ensures -1 <= r < |ss| && (r >= 0 ==> ss[r].ref == ref) && (r < 0 ==> forall i | 0 <= i < |ss| :: ss[i].ref != ref)
    ensures r >= 0 ==> forall i | 0 <= i < r :: ss[i].ref != ref
  {
    if ss == [] then -1
    else
      var r := Find(ss[..|ss| - 1], ref);
      if r >= 0 then r else if ss[|ss| - 1].ref == ref then |ss| - 1 else -1
  }

  // ---- what a director sees -------------------------------------------------------------------

  predicate Cached(w: World, ref: string) { KeyOf(ref) in w.local.versions }

  /** The version of a schedule's state that a read returns unless it fails: the cached one, else the head. */
  function Visible(w: World, ref: string): nat {
    if Cached(w, ref) then w.local.versions[KeyOf(ref)] else |History(w.store, KeyOf(ref))|
  }

  /** The state at a version; the zero state before the first. */
  function StateAt(c: Codec, w: World, ref: string, version: nat): ScheduleState {
    if 0 < version <= |History(w.store, KeyOf(ref))|
    then c.decode(History(w.store, KeyOf(ref))[version - 1])
    else NEVER_SPAWNED
  }

  function StateSeen(c: Codec, w: World, ref: string): ScheduleState { StateAt(c, w, ref, Visible(w, ref)) }

  /** The version a director sees is one that a spawn saved. */
  predicate SeesSpawn(w: World, ref: string) {
    0 < Visible(w, ref) <= |WritersOf(w, ref)| && WritersOf(w, ref)[Visible(w, ref) - 1] == BySpawn
  }

  /** Every version has a writer, and says that the boss is alive exactly if a spawn wrote it. */
  ghost predicate TagsOk(c: Codec, w: World, ref: string) {
    var h := History(w.store, KeyOf(ref));
    && |WritersOf(w, ref)| == |h|
    && forall i | 0 <= i < |h| :: h[i] != "" && (c.decode(h[i]).active <==> WritersOf(w, ref)[i] == BySpawn)
  }

  ghost predicate Sound(c: Codec, w: World) {
    && WellFormed(w.store) && CacheReal(w.store, w.local) && w.local.leader
    && forall ref :: TagsOk(c, w, ref)
  }

  /** Reading: the state seen, unless the read is blind. */
  lemma ReadIs(c: Codec, w: World, ref: string, f: Faults)
    requires Sound(c, w)
    ensures var (w1, st) := ReadState(c, w, ref, f);
            && st == (if IsBlind(w, ref, f) then NEVER_SPAWNED else StateSeen(c, w, ref))
            && w1 == w.(local := w1.local) && Sound(c, w1)
            && (forall r :: Visible(w1, r) == Visible(w, r))
            && (IsBlind(w, ref, f) ==> w1 == w)
  {
    assert TagsOk(c, w, ref);
    ReadReal(c, w, ref, f);
  }

  /** What a read caches: its own key, if it finds it. */
  lemma ReadCaches(c: Codec, w: World, ref: string, f: Faults, other: string)
    requires Sound(c, w)
    ensures var w1 := ReadState(c, w, ref, f).0;
            Cached(w1, other) <==> Cached(w, other) || (other == ref && !f.readFails && KeyOf(ref) in w.store)
  {
    KeysDiffer(ref, other);
  }

  lemma ReadReal(c: Codec, w: World, ref: string, f: Faults)
    requires Sound(c, w)
    ensures var w1 := ReadState(c, w, ref, f).0;
            w1 == w.(local := w1.local) && Sound(c, w1)
  {
    hide TagsOk, CacheReal;
    LoadStaysReal(w.store, w.store, KeyOf(ref));
    CachingKeepsReal(w.store, w.local, KeyOf(ref), Reply(w, ref, f));
    var w1 := ReadState(c, w, ref, f).0;
    forall r ensures TagsOk(c, w1, r) {
      SameTags(c, w, w1, r);
    }
  }

  lemma SameTags(c: Codec, w: World, w1: World, ref: string)
    requires TagsOk(c, w, ref) && w1.writers == w.writers && w1.store == w.store
    ensures TagsOk(c, w1, ref)
  {
  }

  /** Exactly when a tick spawns: its read failed, or the version it sees was not saved by a spawn and its
      time has come. */
  lemma SpawnsIff(c: Codec, s: Schedule, w: World, now: nat, f: Faults)
    requires Sound(c, w)
    ensures Spawns(c, s, w, now, f) <==>
            IsBlind(w, s.ref, f) || (!SeesSpawn(w, s.ref) && now >= StateSeen(c, w, s.ref).nextSpawnAt)
  {
    ReadIs(c, w, s.ref, f);
    assert TagsOk(c, w, s.ref);
  }
}
