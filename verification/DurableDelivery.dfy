/**
  Bounded redelivery of one durable message: the backoff schedule, the attempt loop and its outcomes.
  The budget and the schedule are parameters, as the source lets both be changed; a handler is any
  function from the attempt number to a decision, and `stopped` says after which attempts a stop is seen.
*/
module DurableDelivery {
  import opened Basics

  const STALL_ATTEMPT: nat := 5
  const DEFAULT_MAX_DELIVER: nat := 10
  const NAK_BACKOFF_MS: seq<nat> := [200, 1000, 3000, 10000, 30000]

  datatype Decision = Delivered | RetryTransient | DropPoison

  datatype End = Acked | Poisoned | Parked | Abandoned

  // ---- the schedule ---------------------------------------------------------------------------

  /** A schedule read at a 1-based position; past its end the last entry repeats. */
  function Hold(schedule: seq<nat>, n: int): nat {
    if |schedule| == 0 then 0
    else schedule[if n - 1 < 0 then 0 else if n - 1 >= |schedule| then |schedule| - 1 else n - 1]
  }

  /** The delays after attempts a to b-1, and after attempts 1 to k. */
  function GapsFrom(schedule: seq<nat>, a: nat, b: nat): seq<nat>
    decreases b - a
  {
    if a >= b then [] else [Hold(schedule, a)] + GapsFrom(schedule, a + 1, b)
  }

  function Gaps(schedule: seq<nat>, k: nat): seq<nat> { GapsFrom(schedule, 1, k + 1) }

  lemma {:induction false} GapsAre(schedule: seq<nat>, a: nat, b: nat)
    requires a <= b
    ensures |GapsFrom(schedule, a, b)| == b - a
    ensures forall i | 0 <= i < b - a :: GapsFrom(schedule, a, b)[i] == Hold(schedule, a + i)
    decreases b - a
  {
    if a < b {
      GapsAre(schedule, a + 1, b);
    }
  }

  lemma GapsNext(schedule: seq<nat>, k: nat)
    ensures Gaps(schedule, k + 1) == Gaps(schedule, k) + [Hold(schedule, k + 1)]
    ensures Sum(Gaps(schedule, k + 1)) == Sum(Gaps(schedule, k)) + Hold(schedule, k + 1)
  {
    GapsAre(schedule, 1, k + 1);
    GapsAre(schedule, 1, k + 2);
    assert Gaps(schedule, k + 1) == Gaps(schedule, k) + [Hold(schedule, k + 1)];
  }

  lemma {:induction false} GapsGrow(schedule: seq<nat>, j: nat, k: nat)
    requires j <= k
    ensures Sum(Gaps(schedule, j)) <= Sum(Gaps(schedule, k))
    decreases k - j
  {
    if j < k {
      GapsNext(schedule, j);
      GapsGrow(schedule, j + 1, k);
    }
  }

  /** The window the retries of one message cover. */
  method TotalNakWindow(max: int, schedule: seq<nat>) returns (total: nat)
    ensures total == Sum(Gaps(schedule, if max > 1 then max - 1 else 0))
  {
    total := 0;
    var attempt := 1;
    while attempt < max
      invariant 1 <= attempt && (attempt <= max || attempt == 1)
      invariant total == Sum(Gaps(schedule, attempt - 1))
    {
      GapsNext(schedule, attempt - 1);
      total := total + Hold(schedule, attempt);
      attempt := attempt + 1;
    }
  }

  function ConsumerBackoff(max: int, schedule: seq<nat>): seq<nat> {
    var room := max - 1;
    if room <= 0 then [] else if room >= |schedule| then schedule else schedule[..room]
  }

  /** The broker's copy of the schedule is strictly shorter than the budget, and paces every attempt that
      has a successor exactly as the client does. */
  lemma BrokerPacesAlike(max: int, schedule: seq<nat>, attempt: int)
    requires max >= 1
    ensures |ConsumerBackoff(max, schedule)| < max
    ensures 1 <= attempt < max ==> Hold(ConsumerBackoff(max, schedule), attempt) == Hold(schedule, attempt)
  {
  }

  // ---- one message ----------------------------------------------------------------------------

  datatype Delivery = Delivery(calls: nat, delays: seq<nat>, stalls: seq<nat>, end: End)

  function StallsAt(attempt: nat): seq<nat> { if attempt == STALL_ATTEMPT then [attempt] else [] }

  /** From the given attempt on: handler calls, recorded delays, reported stalls and how it ends. */
  function Deliver(max: nat, schedule: seq<nat>, handler: nat -> Decision, stopped: nat -> bool, attempt: nat): Delivery
    decreases max + 1 - attempt
  {
    if attempt > max then Delivery(0, [], [], Parked)
    else
      match handler(attempt)
      case Delivered => Delivery(1, [], StallsAt(attempt), Acked)
      case DropPoison => Delivery(1, [], StallsAt(attempt), Poisoned)
      case RetryTransient =>
        var d := [Hold(schedule, attempt)];
        if stopped(attempt) then Delivery(1, d, StallsAt(attempt), Abandoned)
        else
          var rest := Deliver(max, schedule, handler, stopped, attempt + 1);
          Delivery(1 + rest.calls, d + rest.delays, StallsAt(attempt) + rest.stalls, rest.end)
  }

  /** Attempts a..b-1 were all retried, with no stop seen. */
  predicate Retried(handler: nat -> Decision, stopped: nat -> bool, a: nat, b: nat) {
    forall i: nat | a <= i < b :: handler(i) == RetryTransient && !stopped(i)
  }

  /** What a delivery record must say about a run of attempts that began at `a`. */
  predicate Explains(
    max: nat, schedule: seq<nat>, handler: nat -> Decision, stopped: nat -> bool, a: nat, r: Delivery) {
    var last := a + r.calls - 1;
    && a + r.calls <= max + 1
    && r.stalls == (if a <= STALL_ATTEMPT < a + r.calls then [STALL_ATTEMPT] else [])
    && match r.end
       case Parked =>
         && a + r.calls == max + 1 && Retried(handler, stopped, a, max + 1)
         && r.delays == GapsFrom(schedule, a, max + 1)
       case Abandoned =>
         && r.calls > 0 && Retried(handler, stopped, a, last) && handler(last) == RetryTransient && stopped(last)
         && r.delays == GapsFrom(schedule, a, last + 1)
       case Acked =>
         && r.calls > 0 && Retried(handler, stopped, a, last) && handler(last) == Delivered
         && r.delays == GapsFrom(schedule, a, last)
       case Poisoned =>
         && r.calls > 0 && Retried(handler, stopped, a, last) && handler(last) == DropPoison
         && r.delays == GapsFrom(schedule, a, last)
  }

  lemma {:induction false} DeliverExplains(
    max: nat, schedule: seq<nat>, handler: nat -> Decision, stopped: nat -> bool, a: nat)
    requires 1 <= a <= max + 1
    ensures Explains(max, schedule, handler, stopped, a, Deliver(max, schedule, handler, stopped, a))
    decreases max + 1 - a
  {
    if a <= max && handler(a) == RetryTransient && !stopped(a) {
      DeliverExplains(max, schedule, handler, stopped, a + 1);
      ExplainsRetry(max, schedule, handler, stopped, a, Deliver(max, schedule, handler, stopped, a + 1));
    } else {
    }
  }

  lemma ExplainsRetry(
    max: nat, schedule: seq<nat>, handler: nat -> Decision, stopped: nat -> bool, a: nat, rest: Delivery)
    requires a <= max && handler(a) == RetryTransient && !stopped(a)
    requires Explains(max, schedule, handler, stopped, a + 1, rest)
    ensures Explains(max, schedule, handler, stopped, a,
                     Delivery(1 + rest.calls, [Hold(schedule, a)] + rest.delays, StallsAt(a) + rest.stalls, rest.end))
  {
    hide Hold;
  }

  lemma WindowNext(schedule: seq<nat>, k: nat)
    ensures Sum(Gaps(schedule, k + 1)) == Sum(Gaps(schedule, k)) + Hold(schedule, k + 1)
  {
    GapsNext(schedule, k);
  }

  /** The shipped schedule covers 164.2 seconds. */
  lemma DefaultWindow()
    ensures Sum(Gaps(NAK_BACKOFF_MS, DEFAULT_MAX_DELIVER - 1)) == 164200
  {
    hide Gaps, Sum;
    RampUp();
    WindowNext(NAK_BACKOFF_MS, 5);
    WindowNext(NAK_BACKOFF_MS, 6);
    WindowNext(NAK_BACKOFF_MS, 7);
    WindowNext(NAK_BACKOFF_MS, 8);
  }

  lemma RampUp()
    ensures Sum(Gaps(NAK_BACKOFF_MS, 5)) == 44200
  {
    hide Gaps, Sum;
    NoGaps(NAK_BACKOFF_MS);
    WindowNext(NAK_BACKOFF_MS, 0);
    WindowNext(NAK_BACKOFF_MS, 1);
    WindowNext(NAK_BACKOFF_MS, 2);
    WindowNext(NAK_BACKOFF_MS, 3);
    WindowNext(NAK_BACKOFF_MS, 4);
  }

  lemma NoGaps(schedule: seq<nat>)
    ensures Sum(Gaps(schedule, 0)) == 0
  {
  }

  /** Every message ends in exactly one way, which the handler alone decides: acked or poisoned by the
      first attempt that is not retried, parked when the whole budget was retried, abandoned exactly when
      a retried attempt saw a stop, so never without one.  Its recorded delays are the schedule from the first
      entry on, a stall is reported once exactly when attempt 5 was reached, and the time waited stays inside
      the advertised window, which a parked message exceeds by exactly the delay recorded for its last
      attempt. */
  lemma DeliveryIsConserved(max: nat, schedule: seq<nat>, handler: nat -> Decision, stopped: nat -> bool)
    ensures var r := Deliver(max, schedule, handler, stopped, 1);
            && r.calls <= max
            && r.delays == Gaps(schedule, if r.end.Acked? || r.end.Poisoned? then r.calls - 1 else r.calls)
            && r.stalls == (if r.calls >= 5 then [5] else [])
            && (r.end.Acked? <==> exists n: nat ::
                 1 <= n <= max && handler(n) == Delivered && Retried(handler, stopped, 1, n))
            && (r.end.Poisoned? <==> exists n: nat ::
                 1 <= n <= max && handler(n) == DropPoison && Retried(handler, stopped, 1, n))
            && (r.end.Parked? <==> Retried(handler, stopped, 1, max + 1))
            && (r.end.Abandoned? <==> exists n: nat :: && 1 <= n <= max && handler(n) == RetryTransient && stopped(n)
                                                       && Retried(handler, stopped, 1, n))
            && (r.end.Acked? || r.end.Poisoned? ==> Sum(r.delays) <= Sum(Gaps(schedule, max - 1)))
            && (r.end.Parked? && max > 0 ==>
                  r.calls == max && Sum(r.delays) == Sum(Gaps(schedule, max - 1)) + Hold(schedule, max))
  {
    hide Deliver, Retried, GapsFrom;
    var r := Deliver(max, schedule, handler, stopped, 1);
    DeliverExplains(max, schedule, handler, stopped, 1);
    EndIsDecided(max, schedule, handler, stopped, r);
    if r.end.Acked? || r.end.Poisoned? {
      GapsGrow(schedule, r.calls - 1, max - 1);
    } else if r.end.Parked? && max > 0 {
      GapsNext(schedule, max - 1);
    }
  }

  /** The end is determined by the first attempt that is not a plain retry. */
  lemma EndIsDecided(max: nat, schedule: seq<nat>, handler: nat -> Decision, stopped: nat -> bool, r: Delivery)
    requires Explains(max, schedule, handler, stopped, 1, r)
    ensures r.end.Acked? <==> exists n: nat ::
              1 <= n <= max && handler(n) == Delivered && Retried(handler, stopped, 1, n)
    ensures r.end.Poisoned? <==> exists n: nat ::
              1 <= n <= max && handler(n) == DropPoison && Retried(handler, stopped, 1, n)
    ensures r.end.Parked? <==> Retried(handler, stopped, 1, max + 1)
    ensures r.end.Abandoned? <==> exists n: nat :: && 1 <= n <= max && handler(n) == RetryTransient && stopped(n)
                                                   && Retried(handler, stopped, 1, n)
  {
    hide Explains, Retried;
    EndIsExplained(max, schedule, handler, stopped, r);
    forall n: nat | 1 <= n <= max && (handler(n) != RetryTransient || stopped(n)) && Retried(handler, stopped, 1, n)
      ensures r.calls == n && !r.end.Parked?
    {
      BreaksOnce(max, schedule, handler, stopped, r, n);
    }
  }

  /** What the last attempt of each ending was. */
  lemma EndIsExplained(max: nat, schedule: seq<nat>, handler: nat -> Decision, stopped: nat -> bool, r: Delivery)
    requires Explains(max, schedule, handler, stopped, 1, r)
    ensures r.end.Parked? ==> Retried(handler, stopped, 1, max + 1)
    ensures !r.end.Parked? ==> 1 <= r.calls <= max && Retried(handler, stopped, 1, r.calls)
    ensures r.end.Acked? ==> handler(r.calls) == Delivered
    ensures r.end.Poisoned? ==> handler(r.calls) == DropPoison
    ensures r.end.Abandoned? ==> handler(r.calls) == RetryTransient && stopped(r.calls)
    ensures !r.end.Parked? ==> !Retried(handler, stopped, 1, max + 1)
  {
    hide GapsFrom;
  }

  /** There is only one attempt that is not a plain retry and follows none. */
  lemma BreaksOnce(max: nat, schedule: seq<nat>, handler: nat -> Decision, stopped: nat -> bool, r: Delivery, n: nat)
    requires Explains(max, schedule, handler, stopped, 1, r) && 1 <= n <= max
    requires (handler(n) != RetryTransient || stopped(n)) && Retried(handler, stopped, 1, n)
    ensures r.calls == n && !r.end.Parked?
  {
    hide GapsFrom;
  }

  // ---- the loop -------------------------------------------------------------------------------

  /** The stand-in's records for one consumer. */
  class Records<M> {
    var nakDelays: seq<nat>
    var parked: seq<M>
    var poisoned: seq<M>
    var stalls: seq<nat>

    constructor ()
      ensures nakDelays == [] && parked == [] && poisoned == [] && stalls == []
    {
      nakDelays, parked, poisoned, stalls := [], [], [], [];
    }

    /** Runs the handler on one message until it is resolved, recording what happens. */
    method DeliverBounded(msg: M, max: nat, schedule: seq<nat>, handler: nat -> Decision, stopped: nat -> bool)
      returns (end: End, calls: nat)
      modifies this
      ensures var r := Deliver(max, schedule, handler, stopped, 1);
              && end == r.end && calls == r.calls
              && nakDelays == old(nakDelays) + r.delays
              && stalls == old(stalls) + r.stalls
              && parked == old(parked) + (if r.end.Parked? then [msg] else [])
              && poisoned == old(poisoned) + (if r.end.Poisoned? then [msg] else [])
    {
      hide Deliver;
      ghost var (n0, s0) := (nakDelays, stalls);
      var attempt := 1;
      calls := 0;
      while attempt <= max
        invariant 1 <= attempt <= max + 1 && calls == attempt - 1
        invariant parked == old(parked) && poisoned == old(poisoned)
        invariant Unfolded(Deliver(max, schedule, handler, stopped, 1),
                           Deliver(max, schedule, handler, stopped, attempt),
                           calls, n0, nakDelays, s0, stalls)
      {
        Turn(max, schedule, handler, stopped, attempt, calls, n0, nakDelays, s0, stalls);
        if attempt == STALL_ATTEMPT {
          stalls := stalls + [attempt];
        }
        calls := calls + 1;
        match handler(attempt)
        case Delivered =>
          end := Acked;
          return;
        case DropPoison =>
          poisoned := poisoned + [msg];
          end := Poisoned;
          return;
        case RetryTransient =>
          nakDelays := nakDelays + [Hold(schedule, attempt)];
        if stopped(attempt) {
          end := Abandoned;
          return;
        }
        attempt := attempt + 1;
      }
      NoMoreTurns(max, schedule, handler, stopped, attempt);
      parked := parked + [msg];
      end := Parked;
    }
  }

  /** One more attempt: either it is the last, or the rest follows it. */
  lemma Turn(max: nat, schedule: seq<nat>, handler: nat -> Decision, stopped: nat -> bool, attempt: nat, calls: nat,
             n0: seq<nat>, n: seq<nat>, s0: seq<nat>, s: seq<nat>)
    requires attempt <= max
    requires Unfolded(Deliver(max, schedule, handler, stopped, 1), Deliver(max, schedule, handler, stopped, attempt),
             calls, n0, n, s0, s)
    ensures var (whole, s', d) := (Deliver(max, schedule, handler, stopped, 1), s + StallsAt(attempt),
            [Hold(schedule, attempt)]);
            match handler(attempt)
            case RetryTransient =>
              if stopped(attempt) then
                whole.calls == calls + 1 && whole.end == Abandoned && n0 + whole.delays == n + d
                  && s0 + whole.stalls == s'
              else Unfolded(whole, Deliver(max, schedule, handler, stopped, attempt + 1), calls + 1, n0, n + d, s0, s')
            case decision =>
              && whole.calls == calls + 1 && whole.end == (if decision == Delivered then Acked else Poisoned)
              && n0 + whole.delays == n && s0 + whole.stalls == s'
  {
    var rest := Deliver(max, schedule, handler, stopped, attempt + 1);
    Assoc(n, [Hold(schedule, attempt)], rest.delays);
    Assoc(s, StallsAt(attempt), rest.stalls);
    assert n + [] == n;
  }

  lemma NoMoreTurns(max: nat, schedule: seq<nat>, handler: nat -> Decision, stopped: nat -> bool, attempt: nat)
    requires attempt > max
    ensures Deliver(max, schedule, handler, stopped, attempt) == Delivery(0, [], [], Parked)
  {
  }

  /** The whole delivery is what was recorded so far followed by the rest. */
  predicate Unfolded(
    whole: Delivery, rest: Delivery, calls: nat, n0: seq<nat>, n: seq<nat>, s0: seq<nat>, s: seq<nat>) {
    && whole.end == rest.end && whole.calls == calls + rest.calls
    && n0 + whole.delays == n + rest.delays && s0 + whole.stalls == s + rest.stalls
  }

  // ---- the schedule, entry by entry -----------------------------------------------------------

  /** The hold after an attempt: the entry at its position, the last entry beyond the end, none in an empty
      schedule. */
  lemma HoldMeans(schedule: seq<nat>, attempt: nat)
    requires attempt >= 1
    ensures schedule == [] ==> Hold(schedule, attempt) == 0
    ensures 0 < attempt <= |schedule| ==> Hold(schedule, attempt) == schedule[attempt - 1]
    ensures 0 < |schedule| < attempt ==> Hold(schedule, attempt) == schedule[|schedule| - 1]
  {
  }

  /** The shipped holds, in milliseconds. */
  lemma DefaultPacing(attempt: nat)
    requires attempt >= 1
    ensures Hold(NAK_BACKOFF_MS, attempt) ==
            if attempt == 1 then 200 else if attempt == 2 then 1000 else if attempt == 3 then 3000
            else if attempt == 4 then 10000 else 30000
  {
  }

  /** The recorded delays, one by one. */
  lemma GapsMean(schedule: seq<nat>, k: nat)
    ensures |Gaps(schedule, k)| == k && forall i | 0 <= i < k :: Gaps(schedule, k)[i] == Hold(schedule, i + 1)
  {
    GapsAre(schedule, 1, k + 1);
  }
}
