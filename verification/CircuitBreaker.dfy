/** The circuit breaker, against a stateless function of its completion history. Calls overlap:
    a call begins, and completes any time later. */
module CircuitBreakers {
  import opened Wrappers

  datatype CircuitState = CLOSED | OPEN | HALF_OPEN

  datatype Completion = Succeeded | Failed(at: int) | WasReset

  /** Failures since the last success or reset. */
  function Failures(h: seq<Completion>): nat {
    if h == [] || !h[|h| - 1].Failed? then 0 else 1 + Failures(h[..|h| - 1])
  }

  function LastFailure(h: seq<Completion>): Option<int> {
    if h == [] || !h[|h| - 1].Failed? then None else Some(h[|h| - 1].at)
  }

  /** Too many failures in a row, at least one. */
  predicate Tripped(h: seq<Completion>, threshold: int) {
    Failures(h) > 0 && Failures(h) >= threshold
  }

  /** The timeout has passed since the last failure. The time zero reads as "never failed". */
  predicate Recovered(h: seq<Completion>, timeout: int, now: int) {
    LastFailure(h).Some? && LastFailure(h).value != 0 && now - LastFailure(h).value >= timeout
  }

  /** What the breaker's state ought to be, from the history alone. */
  function StateOf(h: seq<Completion>, threshold: int, timeout: int, now: int): CircuitState {
    if !Tripped(h, threshold) then CLOSED
    else if Recovered(h, timeout, now) then HALF_OPEN
    else OPEN
  }

  function Wait(h: seq<Completion>, timeout: int, now: int): int {
    if LastFailure(h).None? || LastFailure(h).value == 0 then 0
    else if timeout > now - LastFailure(h).value then timeout - (now - LastFailure(h).value) else 0
  }

  class CircuitBreaker {
    const failureThreshold: int
    const recoveryTimeout: int
    var state: CircuitState
    var failures: nat
    var lastFailureTime: Option<int>
    /** The completions so far, and the latest time the breaker has read. */
    ghost var history: seq<Completion>
    ghost var clock: int

    ghost predicate Valid()
      reads this
    {
      && failures == Failures(history) && lastFailureTime == LastFailure(history)
      && (state == CLOSED <==> !Tripped(history, failureThreshold))
      && (state == HALF_OPEN ==> Recovered(history, recoveryTimeout, clock))
    }

    constructor (failureThreshold: int, recoveryTimeout: int, now: int)
      ensures Valid() && history == [] && clock == now
      ensures this.failureThreshold == failureThreshold && this.recoveryTimeout == recoveryTimeout
    {
      this.failureThreshold, this.recoveryTimeout := failureThreshold, recoveryTimeout;
      state, failures, lastFailureTime := CLOSED, 0, None;
      history, clock := [], now;
    }

    predicate ShouldAttemptRecovery(now: int)
      reads this
    {
      lastFailureTime.Some? && lastFailureTime.value != 0 && now - lastFailureTime.value >= recoveryTimeout
    }

    /** The guard of execute: None lets the call through, Some is the wait it is rejected with. */
    method Begin(now: int) returns (rejected: Option<int>)
      requires Valid() && now >= clock
      modifies this
      ensures Valid() && history == old(history) && clock == now
      ensures rejected.Some? <==> StateOf(history, failureThreshold, recoveryTimeout, now) == OPEN
      ensures rejected.Some? ==> rejected.value == Wait(history, recoveryTimeout, now)
    {
      clock := now;
      rejected := None;
      if state == OPEN {
        if ShouldAttemptRecovery(now) {
          state := HALF_OPEN;
        } else {
          rejected := Some(RemainingRecoveryTime(now));
        }
      }
    }

    method GetState(now: int) returns (r: CircuitState)
      requires Valid() && now >= clock
      modifies this
      ensures Valid() && history == old(history) && clock == now
      ensures r == StateOf(history, failureThreshold, recoveryTimeout, now)
    {
      clock := now;
      if state == OPEN && ShouldAttemptRecovery(now) {
        state := HALF_OPEN;
      }
      r := state;
    }

    function RemainingRecoveryTime(now: int): int
      reads this
    {
      if lastFailureTime.None? || lastFailureTime.value == 0 then 0
      else
        var left := recoveryTimeout - (now - lastFailureTime.value);
        if left > 0 then left else 0
    }

    /** Any call in flight may succeed, whatever the state by then. */
    method OnSuccess()
      requires Valid()
      modifies this
      ensures Valid() && history == old(history) + [Succeeded] && clock == old(clock)
    {
      failures, state, lastFailureTime := 0, CLOSED, None;
      history := history + [Succeeded];
    }

    method OnFailure(now: int)
      requires Valid() && now >= clock
      modifies this
      ensures Valid() && history == old(history) + [Failed(now)] && clock == now
    {
      clock := now;
      failures := failures + 1;
      lastFailureTime := Some(now);
      if failures >= failureThreshold {
        state := OPEN;
      }
      history := history + [Failed(now)];
      assert history[..|history| - 1] == old(history);
    }

    method Reset()
      requires Valid()
      modifies this
      ensures Valid() && history == old(history) + [WasReset] && clock == old(clock)
    {
      state, failures, lastFailureTime := CLOSED, 0, None;
      history := history + [WasReset];
    }
  }

  lemma FailuresAfter(h: seq<Completion>, c: Completion)
    ensures Failures(h + [c]) == if c.Failed? then Failures(h) + 1 else 0
    ensures LastFailure(h + [c]) == if c.Failed? then Some(c.at) else None
  {
    assert (h + [c])[..|h|] == h;
  }

  /** retryAfterMs is exact: with no completion in between, the breaker stays open for every
      shorter wait and lets a call through after it. */
  lemma RetryAfterIsExact(h: seq<Completion>, threshold: int, timeout: int, now: int, later: int)
    requires StateOf(h, threshold, timeout, now) == OPEN && later >= now
    requires LastFailure(h) != Some(0)
    ensures StateOf(h, threshold, timeout, later) == OPEN <==> later < now + Wait(h, timeout, now)
  {
  }

  /** Only a failure at time zero never recovers by itself. */
  lemma RecoversUnlessAtZero(h: seq<Completion>, threshold: int, timeout: int)
    requires Tripped(h, threshold)
    ensures (forall now :: StateOf(h, threshold, timeout, now) == OPEN) <==> LastFailure(h) == Some(0)
  {
    if LastFailure(h) != Some(0) {
      assert StateOf(h, threshold, timeout, LastFailure(h).value + timeout) == HALF_OPEN;
    }
  }

  /** The first call admitted after the timeout decides: success closes the breaker, failure
      opens it again for a full timeout. Nothing limits half-open to that one call. */
  lemma HalfOpenDecides(h: seq<Completion>, threshold: int, timeout: int, now: int)
    requires StateOf(h, threshold, timeout, now) == HALF_OPEN
    ensures StateOf(h + [Succeeded], threshold, timeout, now) == CLOSED
    ensures timeout > 0 && now != 0 ==>
              StateOf(h + [Failed(now)], threshold, timeout, now) == OPEN && Wait(h + [Failed(now)], timeout, now) == timeout
  {
    FailuresAfter(h, Succeeded);
    FailuresAfter(h, Failed(now));
  }

  /** A run of failures closes only below the threshold, and any success or reset closes. */
  lemma {:induction false} ClosedIff(h: seq<Completion>, fails: seq<int>, threshold: int, timeout: int, now: int)
    requires h == [] || !h[|h| - 1].Failed?
    ensures Failures(h + Fails(fails)) == |fails|
    ensures StateOf(h + Fails(fails), threshold, timeout, now) == CLOSED <==> fails == [] || |fails| < threshold
  {
    if fails == [] {
      assert h + Fails(fails) == h;
    } else {
      var last := |fails| - 1;
      ClosedIff(h, fails[..last], threshold, timeout, now);
      assert h + Fails(fails) == h + Fails(fails[..last]) + [Failed(fails[last])];
      FailuresAfter(h + Fails(fails[..last]), Failed(fails[last]));
    }
  }

  /** The state after a run of failures, in numbers: closed below the threshold; from there on open
      until the timeout after the last failure, and half-open from then on. */
  lemma StateInNumbers(h: seq<Completion>, fails: seq<int>, threshold: int, timeout: int, now: int)
    requires (h == [] || !h[|h| - 1].Failed?) && fails != [] && fails[|fails| - 1] != 0
    ensures
      var last := fails[|fails| - 1];
      && StateOf(h + Fails(fails), threshold, timeout, now)
         == (if |fails| < threshold then CLOSED else if now >= last + timeout then HALF_OPEN else OPEN)
      && Wait(h + Fails(fails), timeout, now) == (if last + timeout > now then last + timeout - now else 0)
  {
    ClosedIff(h, fails, threshold, timeout, now);
    var all := h + Fails(fails);
    assert all[|all| - 1] == Failed(fails[|fails| - 1]);
  }

  function Fails(times: seq<int>): seq<Completion> {
    seq(|times|, i requires 0 <= i < |times| => Failed(times[i]))
  }
}
