// The resubscribe state machine of the Kubernetes watcher
// (security/ChangeDetector.java), run sequentially: a delay is a number of
// seconds, and a scheduled attempt happens when its outcome is supplied.
module ChangeDetection {
  import opened Strings

  /** `AtomicInteger.getAndIncrement`: the counter wraps at 32 bits. */
  function Inc32(x: int): (r: int)
    requires IntMin <= x <= IntMax
    ensures IntMin <= r <= IntMax
    ensures x < IntMax ==> r == x + 1
    ensures x == IntMax ==> r == IntMin
  {
    if x == IntMax then IntMin else x + 1
  }

  function Pow2(n: nat): (r: nat)
    ensures r >= 1
  {
    if n == 0 then 1 else 2 * Pow2(n - 1)
  }

  /** A Java `long` result: the value reduced to 64-bit two's complement. */
  function WrapLong(x: int): (r: int)
    ensures LongMin <= r <= LongMax
    ensures LongMin <= x <= LongMax ==> r == x
  {
    (x - LongMin) % 0x1_0000_0000_0000_0000 + LongMin
  }

  /** `nextResubscribeInterval` for a counter value: the power is capped at
   *  `maxTimeoutPower`, and `<<` on a long uses only the low six bits of the
   *  distance. */
  function BackoffDelay(initialTimeout: int, maxTimeoutPower: int, attempt: int): int
  {
    var power := if attempt > maxTimeoutPower then maxTimeoutPower else attempt;
    WrapLong(initialTimeout * Pow2(power % 64))
  }

  lemma {:induction false} Pow2Monotone(m: nat, n: nat)
    requires m <= n
    ensures Pow2(m) <= Pow2(n)
    decreases n
  {
    if m < n {
      Pow2Monotone(m, n - 1);
    }
  }

  /** Below the wrap, the delay is `initialTimeout * 2^min(attempt, max)`:
   *  it never decreases and never exceeds `initialTimeout * 2^max`. */
  lemma BackoffMonotoneAndCapped(initialTimeout: int, maxTimeoutPower: int, a: int, b: int)
    requires 0 <= initialTimeout && 0 <= maxTimeoutPower < 64
    requires initialTimeout * Pow2(maxTimeoutPower) <= LongMax
    requires 0 <= a <= b
    ensures BackoffDelay(initialTimeout, maxTimeoutPower, a) <= BackoffDelay(initialTimeout, maxTimeoutPower, b)
    ensures BackoffDelay(initialTimeout, maxTimeoutPower, b) <= initialTimeout * Pow2(maxTimeoutPower)
    ensures BackoffDelay(initialTimeout, maxTimeoutPower, b) == initialTimeout * Pow2(if b > maxTimeoutPower then maxTimeoutPower else b)
  {
    var pa := if a > maxTimeoutPower then maxTimeoutPower else a;
    var pb := if b > maxTimeoutPower then maxTimeoutPower else b;
    DelayBelowWrap(initialTimeout, maxTimeoutPower, a);
    DelayBelowWrap(initialTimeout, maxTimeoutPower, b);
    Pow2Monotone(pa, pb);
    ScaleMonotone(initialTimeout, Pow2(pa), Pow2(pb));
  }

  /** A capped, non-negative attempt count: no wrap happens. */
  lemma DelayBelowWrap(initialTimeout: int, maxTimeoutPower: int, attempt: int)
    requires 0 <= initialTimeout && 0 <= maxTimeoutPower < 64
    requires initialTimeout * Pow2(maxTimeoutPower) <= LongMax
    requires 0 <= attempt
    ensures var p := if attempt > maxTimeoutPower then maxTimeoutPower else attempt;
            && BackoffDelay(initialTimeout, maxTimeoutPower, attempt) == initialTimeout * Pow2(p)
            && initialTimeout * Pow2(p) <= initialTimeout * Pow2(maxTimeoutPower)
  {
    var p := if attempt > maxTimeoutPower then maxTimeoutPower else attempt;
    assert p % 64 == p;
    Pow2Monotone(p, maxTimeoutPower);
    ScaleMonotone(initialTimeout, Pow2(p), Pow2(maxTimeoutPower));
    ScaleMonotone(initialTimeout, 0, Pow2(p));
  }

  lemma ScaleMonotone(x: int, p: int, q: int)
    requires 0 <= x && p <= q
    ensures x * p <= x * q
  {
  }

  /** After 2^31 attempts the counter is negative, the cap no longer applies
   *  and the masked shift distance is 0: the delay drops back to 8 seconds. */
  lemma DelayAfterCounterWrap()
    ensures BackoffDelay(8, 4, IntMax) == 128
    ensures BackoffDelay(8, 4, Inc32(IntMax)) == 8
  {
  }

  /** How a resubscribe request ended. A shut-down executor rejects the
   *  submission; otherwise at most one attempt is pending at a time. */
  datatype ScheduleOutcome = Rejected | AlreadyPending | Scheduled(delaySeconds: int)

  datatype DetectorState = DetectorState(
    resubscribePending: bool,
    currentReconnectAttempt: int,
    executorShutdown: bool)

  predicate ValidState(s: DetectorState)
  {
    IntMin <= s.currentReconnectAttempt <= IntMax
  }

  /** `scheduleResubscribe` when it runs to completion. */
  function Schedule(s: DetectorState, initialTimeout: int, maxTimeoutPower: int): (ScheduleOutcome, DetectorState)
    requires ValidState(s)
  {
    if s.executorShutdown then (Rejected, s)
    else if s.resubscribePending then (AlreadyPending, s)
    else
      (Scheduled(BackoffDelay(initialTimeout, maxTimeoutPower, s.currentReconnectAttempt)),
       s.(resubscribePending := true, currentReconnectAttempt := Inc32(s.currentReconnectAttempt)))
  }

  /** The scheduled attempt: success clears the flag, failure shuts down. */
  function Attempt(s: DetectorState, subscribed: bool): DetectorState
  {
    if subscribed then s.(resubscribePending := false) else s.(executorShutdown := true)
  }

  /** `Subscriber.onClose`. */
  function CloseTransition(s: DetectorState, initialTimeout: int, maxTimeoutPower: int): (ScheduleOutcome, DetectorState)
    requires ValidState(s)
  {
    if s.executorShutdown then (Rejected, s) else Schedule(s, initialTimeout, maxTimeoutPower)
  }

  lemma ScheduleAdvancesCounterByOne(s: DetectorState, initialTimeout: int, maxTimeoutPower: int)
    requires ValidState(s) && !s.executorShutdown && !s.resubscribePending
    requires s.currentReconnectAttempt < IntMax
    ensures Schedule(s, initialTimeout, maxTimeoutPower).1.currentReconnectAttempt == s.currentReconnectAttempt + 1
    ensures Schedule(s, initialTimeout, maxTimeoutPower).1.resubscribePending
    ensures ValidState(Schedule(s, initialTimeout, maxTimeoutPower).1)
  {
  }

  /** While an attempt is pending, a request schedules nothing and leaves the
   *  counter alone. */
  lemma PendingRequestIsNoop(s: DetectorState, initialTimeout: int, maxTimeoutPower: int)
    requires ValidState(s) && s.resubscribePending
    ensures Schedule(s, initialTimeout, maxTimeoutPower).1 == s
    ensures Schedule(s, initialTimeout, maxTimeoutPower).0.Scheduled? == false
  {
  }

  /** No transition ever lowers the counter except the 32-bit wrap: a
   *  successful attempt does not reset it. */
  lemma AttemptKeepsCounter(s: DetectorState, subscribed: bool)
    ensures Attempt(s, subscribed).currentReconnectAttempt == s.currentReconnectAttempt
    ensures subscribed ==> !Attempt(s, subscribed).resubscribePending
    ensures !subscribed ==> Attempt(s, subscribed).executorShutdown &&
                            Attempt(s, subscribed).resubscribePending == s.resubscribePending
  {
  }

  /** Once shut down, closing the watcher schedules nothing. */
  lemma ClosedAfterShutdownStays(s: DetectorState, initialTimeout: int, maxTimeoutPower: int)
    requires ValidState(s) && s.executorShutdown
    ensures CloseTransition(s, initialTimeout, maxTimeoutPower) == (Rejected, s)
  {
  }

  /** The watcher's resubscribe bookkeeping. */
  class ChangeDetector {
    var resubscribePending: bool
    var currentReconnectAttempt: int
    var executorShutdown: bool
    const initialTimeout: int
    const maxTimeoutPower: int

    function State(): DetectorState
      reads this
    {
      DetectorState(resubscribePending, currentReconnectAttempt, executorShutdown)
    }

    predicate Valid()
      reads this
    {
      ValidState(State())
    }

    /** The default backoff: 8 seconds, doubling at most 4 times. */
    constructor()
      ensures State() == DetectorState(false, 0, false)
      ensures initialTimeout == 8 && maxTimeoutPower == 4
      ensures Valid()
    {
      initialTimeout, maxTimeoutPower := 8, 4;
      resubscribePending, currentReconnectAttempt, executorShutdown := false, 0, false;
    }

    constructor WithBackoff(initial: int, maxPower: int)
      ensures State() == DetectorState(false, 0, false)
      ensures initialTimeout == initial && maxTimeoutPower == maxPower
      ensures Valid()
    {
      initialTimeout, maxTimeoutPower := initial, maxPower;
      resubscribePending, currentReconnectAttempt, executorShutdown := false, 0, false;
    }

    /** `nextResubscribeInterval`: reads the counter and increments it. */
    method NextResubscribeInterval() returns (delay: int)
      modifies this
      requires Valid()
      ensures delay == BackoffDelay(initialTimeout, maxTimeoutPower, old(currentReconnectAttempt))
      ensures currentReconnectAttempt == Inc32(old(currentReconnectAttempt))
      ensures resubscribePending == old(resubscribePending) && executorShutdown == old(executorShutdown)
      ensures Valid()
    {
      var powerOfTwo := currentReconnectAttempt;
      currentReconnectAttempt := Inc32(currentReconnectAttempt);
      if powerOfTwo > maxTimeoutPower {
        powerOfTwo := maxTimeoutPower;
      }
      delay := WrapLong(initialTimeout * Pow2(powerOfTwo % 64));
    }

    method ScheduleResubscribe() returns (outcome: ScheduleOutcome)
      modifies this
      requires Valid()
      ensures (outcome, State()) == Schedule(old(State()), initialTimeout, maxTimeoutPower)
      ensures Valid()
    {
      if executorShutdown {
        return Rejected;
      }
      if resubscribePending {
        return AlreadyPending;
      }
      resubscribePending := true;
      var delay := NextResubscribeInterval();
      outcome := Scheduled(delay);
    }

    /** The scheduled task, given whether `subscribe` succeeded. */
    method ResubscribeAttempt(subscribed: bool)
      modifies this
      ensures State() == Attempt(old(State()), subscribed)
    {
      if subscribed {
        resubscribePending := false;
      } else {
        Shutdown();
      }
    }

    method Shutdown()
      modifies this
      ensures State() == old(State()).(executorShutdown := true)
    {
      executorShutdown := true;
    }

    method OnClose() returns (outcome: ScheduleOutcome)
      modifies this
      requires Valid()
      ensures (outcome, State()) == CloseTransition(old(State()), initialTimeout, maxTimeoutPower)
      ensures Valid()
    {
      if executorShutdown {
        return Rejected;
      }
      outcome := ScheduleResubscribe();
    }
  }

  /** With the default settings, a watcher that keeps closing and
   *  resubscribing successfully waits 8, 16, 32, 64, 128, 128 seconds. */
  method DefaultBackoffSequence() returns (delays: seq<int>)
    ensures delays == [8, 16, 32, 64, 128, 128]
  {
    var d := new ChangeDetector();
    delays := [];
    var i := 0;
    while i < 6
      invariant 0 <= i <= 6
      invariant d.Valid() && d.initialTimeout == 8 && d.maxTimeoutPower == 4
      invariant d.State() == DetectorState(false, i, false)
      invariant delays == [8, 16, 32, 64, 128, 128][..i]
    {
      var outcome := d.OnClose();
      assert outcome == Scheduled(BackoffDelay(8, 4, i));
      delays := delays + [outcome.delaySeconds];
      d.ResubscribeAttempt(true);
      i := i + 1;
    }
  }
}
