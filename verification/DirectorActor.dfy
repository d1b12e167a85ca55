/**
  The director actor in the source's own form: a class whose methods update its fields.  Store replies
  and the handler's script are parameters; every method is proved to do what DirectorCore says.
*/
module DirectorActor {
  import opened Basics
  import opened DirectorCore

  class Director {
    var state: map<Key, Value>
    var versions: map<Key, nat>
    var applied: map<Source, nat>
    var leader: bool
    var writeFailed: bool
    var subscribed: bool

    function View(): Local
      reads this
    {
      Local(state, versions, applied, leader, writeFailed)
    }

    constructor ()
      ensures View() == FRESH && !subscribed
    {
      state, versions, applied := map[], map[], map[];
      leader, writeFailed, subscribed := false, false, false;
    }

    /** campaign: a claim error steps down; otherwise the flag is what the lease said. */
    method Campaign(held: bool, claimError: bool)
      modifies this`leader
      ensures leader == (held && !claimError)
      ensures View() == old(View()).(leader := held && !claimError)
    {
      if claimError {
        leader := false;
        return;
      }
      leader := held;
    }

    /** syncScopeSubscription: the durable consumer follows the leader flag. */
    method SyncSubscription(subscribeFails: bool)
      modifies this`subscribed
      ensures subscribed == (leader && (old(subscribed) || !subscribeFails))
    {
      if leader && !subscribed {
        subscribed := !subscribeFails;
      } else if !leader && subscribed {
        subscribed := false;
      }
    }

    method Get(key: Key, reply: LoadReply) returns (r: GetResult)
      modifies this`state, this`versions
      ensures (View(), r) == GetSpec(old(View()), key, reply)
    {
      if key in state {
        return Hit(state[key]);
      }
      match reply {
        case LoadError => r := GetFailed;
        case Found(v, ver) =>
          state := state[key := v];
          versions := versions[key := ver];
          r := Hit(v);
        case Absent => r := Unset;
      }
    }

    /** set, with the deferred failure record as an explicit last statement. */
    method Set(key: Key, value: Value, io: SetIO) returns (r: SetResult)
      modifies this`state, this`versions, this`writeFailed
      ensures (View(), r) == SetSpec(old(View()), key, value, io)
      ensures !r.Wrote? ==> writeFailed
    {
      r := TrySet(key, value, io);
      if !r.Wrote? {
        writeFailed := true;
      }
    }

    /** The body of set without its deferred block. */
    method TrySet(key: Key, value: Value, io: SetIO) returns (r: SetResult)
      modifies this`state, this`versions
      ensures r == SetSpec(old(View()), key, value, io).1
      ensures View().(writeFailed := SetSpec(old(View()), key, value, io).0.writeFailed)
              == SetSpec(old(View()), key, value, io).0
    {
      var stored := if |value| == 0 then "null" else value;
      if !leader {
        return NotLeader;
      }
      if key !in versions {
        match io.seed {
          case LoadError => return StoreFailed;
          case Found(v, ver) =>
            state := state[key := v];
            versions := versions[key := ver];
          case Absent =>
        }
      }
      match io.save {
        case SaveError => return StoreFailed;
        case Lost =>
          match io.reload {
            case LoadError => return StoreFailed;
            case Found(v, ver) =>
              state := state[key := v];
              versions := versions[key := ver];
            case Absent =>
          }
          return CasLost;
        case Saved(newVer) =>
          state := state[key := stored];
          versions := versions[key := newVer];
          return Wrote(newVer);
      }
    }

    /** handleSignal over an arbitrary handler, given as the operations it performed. */
    method HandleSignal(sig: Signal, script: seq<HandlerOp>) returns (ack: bool, sent: seq<Delta>)
      modifies this`state, this`versions, this`applied, this`writeFailed
      ensures (View(), ack, sent) == HandleSpec(old(View()), sig, script)
    {
      sent := [];
      if sig.num.Some? && sig.num.value <= (if sig.source in applied then applied[sig.source] else 0) {
        return true, [];
      }
      if !leader {
        return false, [];
      }
      ghost var start := View();
      writeFailed := false;
      var i := 0;
      while i < |script|
        invariant 0 <= i <= |script|
        invariant View() == DoOps(Arm(start), script[..i])
        invariant sent == OpsDeltas(Arm(start), script[..i])
        invariant leader && applied == start.applied
      {
        assert script[..i + 1][..i] == script[..i];
        assert script[..i + 1][i] == script[i];
        match script[i] {
          case GetOp(k, reply) =>
            var _ := Get(k, reply);
          case SetOp(k, v, api, io) =>
            var r := Set(k, v, io);
            if r.Wrote? && api {
              sent := sent + [Delta(k, v, r.version)];
            }
          case BroadcastOp =>
        }
        i := i + 1;
      }
      assert script[..i] == script;
      if writeFailed {
        return false, sent;
      }
      if sig.num.Some? && sig.num.value > (if sig.source in applied then applied[sig.source] else 0) {
        applied := applied[sig.source := sig.num.value];
      }
      ack := true;
    }
  }
}
