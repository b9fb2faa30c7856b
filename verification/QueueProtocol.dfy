/** The job queue as a protocol: any number of workers claim, complete, fail, crash and reclaim
    in any order. Each SQL statement is one step; NOW() is a clock that never goes back. */
module QueueProtocol {
  import opened Wrappers
  import opened SqlOrder
  import opened JobTable
  import opened Backoff

  /** What has happened to one job so far: the attempt numbers handed out, those still held by
      a live worker, the delay of each attempt rescheduled by backoff or as the caller asked, and
      the reclaims. */
  datatype History = History(claims: seq<nat>, held: set<nat>, delays: map<nat, nat>, asked: map<nat, int>, reclaims: nat)

  datatype System = System(jobs: seq<Job>, hist: seq<History>, now: int)

  datatype Options = Options(baseMs: nat, maxMs: nat)

  datatype Step =
    | Enqueue(job: NewJob)
    | ClaimBatch(queue: string, limit: nat, worker: string, chosen: set<nat>)
      /** The worker of an attempt reports success; if the reply is lost it goes on to fail. */
    | Complete(id: nat, attempt: nat, replyLost: bool)
      /** The worker of an attempt reports failure and draws this delay, should it retry. */
    | Fail(id: nat, attempt: nat, handlerMissing: bool, delay: nat)
      /** The caller of fail names the delay itself, which may be negative. */
    | FailAfter(id: nat, attempt: nat, delayMs: int)
    | Crash(id: nat, attempt: nat)
    | Reclaim(timeoutMs: int)
    | Tick(ms: nat)

  predicate Holds(s: System, id: nat, attempt: nat) {
    id < |s.jobs| && id < |s.hist| && attempt in s.hist[id].held
  }

  ghost predicate Enabled(o: Options, s: System, step: Step) {
    match step
    case Enqueue(_) => true
    case ClaimBatch(queue, limit, _, chosen) => IsBatch(s.jobs, queue, s.now, limit, chosen)
    case Complete(id, attempt, _) => Holds(s, id, attempt)
    case Fail(id, attempt, _, delay) =>
      && Holds(s, id, attempt)
      && Half(attempt, o.baseMs, o.maxMs) <= delay < 2 * Half(attempt, o.baseMs, o.maxMs)
    case FailAfter(id, attempt, _) => Holds(s, id, attempt)
    case Crash(id, attempt) => Holds(s, id, attempt)
    case Reclaim(_) => true
    case Tick(_) => true
  }

  /** Failing looks at the attempt number of the claim it holds, not at the row. */
  predicate Exhausted(job: Job, attempt: nat, handlerMissing: bool) {
    (if handlerMissing then job.maxAttempts else attempt) >= job.maxAttempts
  }

  function Release(h: History, attempt: nat): History {
    h.(held := h.held - {attempt})
  }

  function ClaimHistory(job: Job, h: History): History {
    h.(claims := h.claims + [job.attempts + 1], held := h.held + {job.attempts + 1})
  }

  function ReclaimHistory(job: Job, h: History, now: int, timeoutMs: int): History {
    if Stale(job, now, timeoutMs) then h.(reclaims := h.reclaims + 1) else h
  }

  /** The effect of an enabled step. */
  function Effect(s: System, step: Step): System
    requires |s.hist| == |s.jobs|
    requires !step.ClaimBatch? && !step.Reclaim? && !step.Enqueue? && !step.Tick? ==> Holds(s, step.id, step.attempt)
  {
    match step
    case Enqueue(job) =>
      if HasKey(s.jobs, job.key) then s else
      s.(jobs := Insert(s.jobs, job, s.now), hist := s.hist + [History([], {}, map[], map[], 0)])
    case ClaimBatch(queue, limit, worker, chosen) =>
      s.(jobs := ClaimRows(s.jobs, chosen, worker, s.now),
      hist := seq(|s.hist|, i requires 0 <= i < |s.hist| =>
                if i in chosen then ClaimHistory(s.jobs[i], s.hist[i]) else s.hist[i]))
    case Complete(id, attempt, replyLost) =>
      s.(jobs := SetRow(s.jobs, id, Succeeded, s.jobs[id].runAt),
      hist := if replyLost then s.hist else s.hist[id := Release(s.hist[id], attempt)])
    case Fail(id, attempt, handlerMissing, delay) =>
      if Exhausted(s.jobs[id], attempt, handlerMissing) then
        s.(jobs := SetRow(s.jobs, id, DeadLettered, s.jobs[id].runAt),
        hist := s.hist[id := Release(s.hist[id], attempt)])
      else
        s.(jobs := SetRow(s.jobs, id, Pending, s.now + delay),
        hist := s.hist[id := Release(s.hist[id], attempt).(delays := s.hist[id].delays[attempt := delay])])
    case FailAfter(id, attempt, delayMs) =>
      if Exhausted(s.jobs[id], attempt, false) then
        s.(jobs := SetRow(s.jobs, id, DeadLettered, s.jobs[id].runAt),
        hist := s.hist[id := Release(s.hist[id], attempt)])
      else
        s.(jobs := SetRow(s.jobs, id, Pending, s.now + delayMs),
        hist := s.hist[id := Release(s.hist[id], attempt).(asked := s.hist[id].asked[attempt := delayMs])])
    case Crash(id, attempt) =>
      s.(hist := s.hist[id := Release(s.hist[id], attempt)])
    case Reclaim(timeoutMs) =>
      s.(jobs := ReclaimRows(s.jobs, s.now, timeoutMs),
      hist := seq(|s.hist|, i requires 0 <= i < |s.hist| =>
                ReclaimHistory(s.jobs[i], s.hist[i], s.now, timeoutMs)))
    case Tick(ms) => s.(now := s.now + ms)
  }

  /** One move of the system: a step that is not possible does nothing. */
  ghost function Next(o: Options, s: System, step: Step): System
    requires |s.hist| == |s.jobs|
    ensures |Next(o, s, step).hist| == |Next(o, s, step).jobs| >= |s.jobs|
  {
    if Enabled(o, s, step) then Effect(s, step) else s
  }

  ghost function Run(o: Options, s: System, steps: seq<Step>): System
    requires |s.hist| == |s.jobs|
    ensures |Run(o, s, steps).hist| == |Run(o, s, steps).jobs|
    decreases |steps|
  {
    if steps == [] then s else Run(o, Next(o, s, steps[0]), steps[1..])
  }

  function Empty(now: int): System {
    System([], [], now)
  }

  /** What every reachable job satisfies. Attempts that were rescheduled are below the limit
      and never held again, and each way of becoming pending pays for one more claim. */
  ghost predicate JobOk(o: Options, job: Job, h: History) {
    && h.claims == seq(job.attempts, i requires 0 <= i < job.attempts => i + 1)
    && (forall a :: a in h.held ==> 1 <= a <= job.attempts)
    && (forall a :: a in h.delays ==>
          && 1 <= a <= job.attempts && a < job.maxAttempts && a !in h.held
          && Half(a, o.baseMs, o.maxMs) <= h.delays[a] < 2 * Half(a, o.baseMs, o.maxMs))
    && (forall a :: a in h.asked ==> 1 <= a <= job.attempts && a < job.maxAttempts && a !in h.held && a !in h.delays)
    && job.attempts + (if job.status == Pending then 1 else 0) <= 1 + h.reclaims + |h.delays| + |h.asked|
    && (job.status == Running ==> job.lockedAt.Some?)
  }

  ghost predicate WellKept(o: Options, s: System) {
    && |s.hist| == |s.jobs|
    && UniqueKeys(s.jobs)
    && forall i :: 0 <= i < |s.jobs| ==> JobOk(o, s.jobs[i], s.hist[i])
  }

  lemma ClaimKeepsInvariant(o: Options, job: Job, h: History, worker: string, now: int)
    requires JobOk(o, job, h) && job.status == Pending
    ensures JobOk(o, ClaimRow(job, worker, now), ClaimHistory(job, h))
  {
  }

  lemma RetryKeepsInvariant(o: Options, job: Job, h: History, attempt: nat, delay: nat, now: int)
    requires JobOk(o, job, h) && attempt in h.held && attempt < job.maxAttempts
    requires Half(attempt, o.baseMs, o.maxMs) <= delay < 2 * Half(attempt, o.baseMs, o.maxMs)
    ensures JobOk(o, Unlocked(job, Pending, now + delay), Release(h, attempt).(delays := h.delays[attempt := delay]))
  {
    assert attempt !in h.delays;
    assert |h.delays[attempt := delay]| == |h.delays| + 1;
  }

  lemma AskedRetryKeepsInvariant(o: Options, job: Job, h: History, attempt: nat, delayMs: int, now: int)
    requires JobOk(o, job, h) && attempt in h.held && attempt < job.maxAttempts
    ensures JobOk(o, Unlocked(job, Pending, now + delayMs), Release(h, attempt).(asked := h.asked[attempt := delayMs]))
  {
    assert attempt !in h.delays && attempt !in h.asked;
    assert |h.asked[attempt := delayMs]| == |h.asked| + 1;
  }

  lemma EnqueueKeepsInvariant(o: Options, s: System, step: Step)
    requires WellKept(o, s) && step.Enqueue?
    ensures WellKept(o, Effect(s, step))
  {
    var t := Effect(s, step);
    forall i | 0 <= i < |t.jobs|
      ensures JobOk(o, t.jobs[i], t.hist[i])
    {
      if i < |s.jobs| {
        assert JobOk(o, s.jobs[i], s.hist[i]);
      }
    }
  }

  lemma ClaimBatchKeepsInvariant(o: Options, s: System, step: Step)
    requires WellKept(o, s) && step.ClaimBatch? && Enabled(o, s, step)
    ensures WellKept(o, Effect(s, step))
  {
    var t := Effect(s, step);
    assert forall i :: 0 <= i < |s.jobs| ==> t.jobs[i].key == s.jobs[i].key;
    forall i | 0 <= i < |t.jobs|
      ensures JobOk(o, t.jobs[i], t.hist[i])
    {
      assert JobOk(o, s.jobs[i], s.hist[i]);
      if i in step.chosen {
        assert i in ClaimableRows(s.jobs, step.queue, s.now);
        ClaimKeepsInvariant(o, s.jobs[i], s.hist[i], step.worker, s.now);
      }
    }
  }

  lemma FinishKeepsInvariant(o: Options, job: Job, h: History, status: Status, runAt: int)
    requires JobOk(o, job, h) && status in {Succeeded, DeadLettered}
    ensures JobOk(o, Unlocked(job, status, runAt), h)
  {
  }

  lemma ReleaseKeepsInvariant(o: Options, job: Job, h: History, attempt: nat)
    requires JobOk(o, job, h)
    ensures JobOk(o, job, Release(h, attempt))
  {
  }

  lemma OneRowKeepsInvariant(o: Options, s: System, id: nat, job: Job, h: History)
    requires WellKept(o, s) && id < |s.jobs| && job.key == s.jobs[id].key && JobOk(o, job, h)
    ensures WellKept(o, s.(jobs := s.jobs[id := job], hist := s.hist[id := h]))
  {
  }

  lemma CompleteKeepsInvariant(o: Options, s: System, step: Step)
    requires WellKept(o, s) && step.Complete? && Enabled(o, s, step)
    ensures WellKept(o, Effect(s, step))
  {
    var job, h := s.jobs[step.id], s.hist[step.id];
    var left := if step.replyLost then h else Release(h, step.attempt);
    ReleaseKeepsInvariant(o, job, h, step.attempt);
    FinishKeepsInvariant(o, job, left, Succeeded, job.runAt);
    OneRowKeepsInvariant(o, s, step.id, Unlocked(job, Succeeded, job.runAt), left);
    assert s.hist[step.id := h] == s.hist;
  }

  lemma FailKeepsInvariant(o: Options, s: System, step: Step)
    requires WellKept(o, s) && step.Fail? && Enabled(o, s, step)
    ensures WellKept(o, Effect(s, step))
  {
    var job, h := s.jobs[step.id], s.hist[step.id];
    var left := Release(h, step.attempt);
    if Exhausted(job, step.attempt, step.handlerMissing) {
      ReleaseKeepsInvariant(o, job, h, step.attempt);
      FinishKeepsInvariant(o, job, left, DeadLettered, job.runAt);
      OneRowKeepsInvariant(o, s, step.id, Unlocked(job, DeadLettered, job.runAt), left);
    } else {
      RetryKeepsInvariant(o, job, h, step.attempt, step.delay, s.now);
      OneRowKeepsInvariant(o, s, step.id, Unlocked(job, Pending, s.now + step.delay),
                           left.(delays := h.delays[step.attempt := step.delay]));
    }
  }

  lemma FailAfterKeepsInvariant(o: Options, s: System, step: Step)
    requires WellKept(o, s) && step.FailAfter? && Enabled(o, s, step)
    ensures WellKept(o, Effect(s, step))
  {
    var job, h := s.jobs[step.id], s.hist[step.id];
    var left := Release(h, step.attempt);
    if Exhausted(job, step.attempt, false) {
      ReleaseKeepsInvariant(o, job, h, step.attempt);
      FinishKeepsInvariant(o, job, left, DeadLettered, job.runAt);
      OneRowKeepsInvariant(o, s, step.id, Unlocked(job, DeadLettered, job.runAt), left);
    } else {
      AskedRetryKeepsInvariant(o, job, h, step.attempt, step.delayMs, s.now);
      OneRowKeepsInvariant(o, s, step.id, Unlocked(job, Pending, s.now + step.delayMs),
                           left.(asked := h.asked[step.attempt := step.delayMs]));
    }
  }

  lemma CrashKeepsInvariant(o: Options, s: System, step: Step)
    requires WellKept(o, s) && step.Crash? && Enabled(o, s, step)
    ensures WellKept(o, Effect(s, step))
  {
    var job, h := s.jobs[step.id], s.hist[step.id];
    ReleaseKeepsInvariant(o, job, h, step.attempt);
    OneRowKeepsInvariant(o, s, step.id, job, Release(h, step.attempt));
    assert s.jobs[step.id := job] == s.jobs;
  }

  lemma ReclaimKeepsInvariant(o: Options, s: System, step: Step)
    requires WellKept(o, s) && step.Reclaim?
    ensures WellKept(o, Effect(s, step))
  {
  }

  lemma NextKeepsInvariant(o: Options, s: System, step: Step)
    requires WellKept(o, s)
    ensures WellKept(o, Next(o, s, step))
  {
    if Enabled(o, s, step) {
      match step
      case Enqueue(_) => EnqueueKeepsInvariant(o, s, step);
      case ClaimBatch(_, _, _, _) => ClaimBatchKeepsInvariant(o, s, step);
      case Reclaim(_) => ReclaimKeepsInvariant(o, s, step);
      case Tick(_) =>
      case Complete(_, _, _) => CompleteKeepsInvariant(o, s, step);
      case Fail(_, _, _, _) => FailKeepsInvariant(o, s, step);
      case FailAfter(_, _, _) => FailAfterKeepsInvariant(o, s, step);
      case Crash(_, _) => CrashKeepsInvariant(o, s, step);
    }
  }

  lemma {:induction false} RunKeepsInvariant(o: Options, s: System, steps: seq<Step>)
    requires WellKept(o, s)
    ensures WellKept(o, Run(o, s, steps))
    decreases |steps|
  {
    if steps != [] {
      NextKeepsInvariant(o, s, steps[0]);
      RunKeepsInvariant(o, Next(o, s, steps[0]), steps[1..]);
    }
  }

  lemma BoundedSet(s: set<nat>, n: nat)
    requires forall a :: a in s ==> 1 <= a <= n
    ensures |s| <= n
  {
    if n == 0 {
      assert s == {};
    } else {
      BoundedSet(s - {n}, n - 1);
    }
  }

  /** For any workers, whether live, crashed or late: the attempt count of a job never passes
      its limit (at least one) by more than the times it was reclaimed, and its claims carry
      the attempt numbers 1, 2, 3, ... in this order. */
  lemma AttemptsBounded(o: Options, start: int, steps: seq<Step>, id: nat)
    requires id < |Run(o, Empty(start), steps).jobs|
    ensures
      var s := Run(o, Empty(start), steps);
      && s.jobs[id].attempts <= Max(1, s.jobs[id].maxAttempts) + s.hist[id].reclaims
      && |s.hist[id].claims| == s.jobs[id].attempts
      && forall k :: 0 <= k < s.jobs[id].attempts ==> s.hist[id].claims[k] == k + 1
  {
    var s := Run(o, Empty(start), steps);
    RunKeepsInvariant(o, Empty(start), steps);
    var h := s.hist[id];
    assert |h.delays.Keys + h.asked.Keys| == |h.delays| + |h.asked|;
    BoundedSet(h.delays.Keys + h.asked.Keys, Max(0, s.jobs[id].maxAttempts - 1));
  }

  /** However a run goes, the backoff delays scheduled between the first n attempts of a job total at
      most n-1 ceilings and at most base * (2^(n-1) - 1); all its delays are among the first
      maxAttempts - 1. */
  lemma DelaysBounded(o: Options, start: int, steps: seq<Step>, id: nat, n: nat)
    requires o.baseMs >= 1 && o.maxMs >= 1 && n >= 1
    requires id < |Run(o, Empty(start), steps).jobs|
    ensures
      var s := Run(o, Empty(start), steps);
      && TotalDelay(s.hist[id].delays, n - 1) <= (n - 1) * o.maxMs
      && TotalDelay(s.hist[id].delays, n - 1) <= o.baseMs * (Pow2(n - 1) - 1)
      && forall a :: a in s.hist[id].delays ==> 1 <= a < s.jobs[id].maxAttempts
  {
    RunKeepsInvariant(o, Empty(start), steps);
    TotalDelayBound(Run(o, Empty(start), steps).hist[id].delays, n - 1, o.baseMs, o.maxMs);
  }

  /** And where each of the first n-1 attempts was rescheduled by backoff below its ceiling, they
      total at least half as much, but for rounding. */
  lemma DelaysAtLeast(o: Options, start: int, steps: seq<Step>, id: nat, n: nat)
    requires n >= 1 && (n > 1 ==> o.baseMs * Pow2(n - 2) <= o.maxMs)
    requires id < |Run(o, Empty(start), steps).jobs|
    requires forall a :: 1 <= a < n ==> a in Run(o, Empty(start), steps).hist[id].delays
    ensures o.baseMs * (Pow2(n - 1) - 1) <= 2 * TotalDelay(Run(o, Empty(start), steps).hist[id].delays, n - 1) + (n - 1)
  {
    RunKeepsInvariant(o, Empty(start), steps);
    TotalDelayAtLeast(Run(o, Empty(start), steps).hist[id].delays, n - 1, o.baseMs, o.maxMs);
  }

  /** Enqueueing a key that was ever enqueued changes nothing. */
  lemma OneJobPerKey(o: Options, start: int, steps: seq<Step>, i: nat, j: nat)
    requires
      var s := Run(o, Empty(start), steps);
      i < |s.jobs| && j < |s.jobs| && s.jobs[i].key == s.jobs[j].key
    ensures i == j
  {
    RunKeepsInvariant(o, Empty(start), steps);
  }

  predicate Finished(job: Job) {
    job.status == Succeeded || job.status == DeadLettered
  }

  /** A finished row can still change exactly when some worker holds one of its attempts. */
  lemma FinishedIsFinal(o: Options, s: System, id: nat)
    requires WellKept(o, s) && id < |s.jobs| && Finished(s.jobs[id])
    ensures (exists step :: Next(o, s, step).jobs[id] != s.jobs[id]) <==> StillHeld(s, id)
  {
    if StillHeld(s, id) {
      var attempt :| attempt in s.hist[id].held;
      var step := if s.jobs[id].status == Succeeded
                  then Fail(id, attempt, true, Half(attempt, o.baseMs, o.maxMs))
                  else Complete(id, attempt, false);
      assert Next(o, s, step).jobs[id] != s.jobs[id];
    }
    forall step | Next(o, s, step).jobs[id] != s.jobs[id]
      ensures StillHeld(s, id)
    {
      if step.ClaimBatch? {
        assert id in step.chosen ==> id in ClaimableRows(s.jobs, step.queue, s.now);
      }
    }
  }

  predicate StillHeld(s: System, id: nat)
    requires id < |s.hist|
  {
    s.hist[id].held != {}
  }

  lemma {:induction false} RunSnoc(o: Options, s: System, steps: seq<Step>, last: Step)
    requires |s.hist| == |s.jobs|
    ensures Run(o, s, steps + [last]) == Next(o, Run(o, s, steps), last)
    decreases |steps|
  {
    if steps == [] {
      assert [] + [last] == [last] && [last][1..] == [];
    } else {
      RunSnoc(o, Next(o, s, steps[0]), steps[1..], last);
      assert (steps + [last])[1..] == steps[1..] + [last];
    }
  }

  /** One row, claimed n times and reclaimed r times; its latest attempt is held while it runs. */
  ghost predicate Sole(s: System, job: NewJob, status: Status, n: nat, r: nat) {
    && |s.jobs| == |s.hist| == 1
    && s.jobs[0].status == status && s.jobs[0].queue == job.queue && s.jobs[0].maxAttempts == job.maxAttempts
    && s.jobs[0].attempts == n && s.hist[0].reclaims == r
    && (status == Pending ==> s.jobs[0].runAt <= s.now)
    && (status == Running ==> s.jobs[0].lockedAt.Some? && s.jobs[0].lockedAt.value <= s.now && n in s.hist[0].held)
  }

  lemma SoleClaimed(o: Options, s: System, job: NewJob, n: nat, r: nat, limit: nat)
    requires Sole(s, job, Pending, n, r) && limit >= 1
    ensures var t := Next(o, s, ClaimBatch(job.queue, limit, "worker", {0}));
            Sole(t, job, Running, n + 1, r) && t.hist[0].held == s.hist[0].held + {n + 1}
  {
    OnlyRow(s, job.queue, limit);
  }

  lemma SoleRetried(o: Options, s: System, job: NewJob, n: nat, r: nat, delay: nat)
    requires Sole(s, job, Running, n, r) && n < job.maxAttempts && delay == Half(n, o.baseMs, o.maxMs)
    ensures Sole(Next(o, Next(o, s, Fail(0, n, false, delay)), Tick(delay)), job, Pending, n, r)
  {
  }

  lemma SoleReclaimed(o: Options, s: System, job: NewJob, n: nat, r: nat)
    requires Sole(s, job, Running, n, r)
    ensures var t := Next(o, Next(o, s, Tick(2)), Reclaim(1));
            Sole(t, job, Pending, n, r + 1) && t.hist[0].held == s.hist[0].held
  {
  }

  /** Each attempt within the limit may fail and be retried, */
  lemma {:induction false} ByRetries(o: Options, start: int, job: NewJob, limit: nat, n: nat) returns (steps: seq<Step>)
    requires job.delayMs == 0 && limit >= 1 && 1 <= n <= Max(1, job.maxAttempts)
    ensures Sole(Run(o, Empty(start), steps), job, Running, n, 0)
  {
    var claim := ClaimBatch(job.queue, limit, "worker", {0});
    if n == 1 {
      RunSnoc(o, Empty(start), [], Enqueue(job));
      steps := [] + [Enqueue(job)];
      SoleClaimed(o, Run(o, Empty(start), steps), job, 0, 0, limit);
    } else {
      var before := ByRetries(o, start, job, limit, n - 1);
      var delay := Half(n - 1, o.baseMs, o.maxMs);
      SoleRetried(o, Run(o, Empty(start), before), job, n - 1, 0, delay);
      steps := TwoSteps(o, Empty(start), before, Fail(0, n - 1, false, delay), Tick(delay));
      SoleClaimed(o, Run(o, Empty(start), steps), job, n - 1, 0, limit);
    }
    RunSnoc(o, Empty(start), steps, claim);
    steps := steps + [claim];
  }

  /** and after the last one any number of reclaims may each add another. */
  lemma {:induction false} ByReclaims(o: Options, start: int, job: NewJob, limit: nat, r: nat) returns (steps: seq<Step>)
    requires job.delayMs == 0 && limit >= 1
    ensures var s := Run(o, Empty(start), steps);
            Sole(s, job, Running, Max(1, job.maxAttempts) + r, r) && Max(1, job.maxAttempts) in s.hist[0].held
  {
    var n := Max(1, job.maxAttempts);
    if r == 0 {
      steps := ByRetries(o, start, job, limit, n);
    } else {
      var before := ByReclaims(o, start, job, limit, r - 1);
      steps := OneReclaim(o, start, job, limit, before, n + r - 1, r - 1);
    }
  }

  lemma OneReclaim(o: Options, start: int, job: NewJob, limit: nat, before: seq<Step>, n: nat, r: nat) returns (steps: seq<Step>)
    requires limit >= 1 && Sole(Run(o, Empty(start), before), job, Running, n, r)
    ensures var s, t := Run(o, Empty(start), before), Run(o, Empty(start), steps);
            Sole(t, job, Running, n + 1, r + 1) && t.hist[0].held == s.hist[0].held + {n + 1}
  {
    var claim := ClaimBatch(job.queue, limit, "worker", {0});
    SoleReclaimed(o, Run(o, Empty(start), before), job, n, r);
    steps := TwoSteps(o, Empty(start), before, Tick(2), Reclaim(1));
    SoleClaimed(o, Run(o, Empty(start), steps), job, n, r + 1, limit);
    RunSnoc(o, Empty(start), steps, claim);
    steps := steps + [claim];
  }

  lemma TwoSteps(o: Options, s: System, steps: seq<Step>, a: Step, b: Step) returns (longer: seq<Step>)
    requires |s.hist| == |s.jobs|
    ensures Run(o, s, longer) == Next(o, Next(o, Run(o, s, steps), a), b)
  {
    RunSnoc(o, s, steps, a);
    RunSnoc(o, s, steps + [a], b);
    longer := steps + [a] + [b];
  }

  /** The bound of AttemptsBounded is reached for every limit and every number of reclaims. */
  lemma AttemptsReached(o: Options, start: int, job: NewJob, limit: nat, r: nat) returns (steps: seq<Step>)
    requires job.delayMs == 0 && limit >= 1
    ensures
      var s := Run(o, Empty(start), steps);
      && |s.jobs| == 1 && s.jobs[0].maxAttempts == job.maxAttempts && s.hist[0].reclaims == r
      && s.jobs[0].attempts == Max(1, job.maxAttempts) + r
  {
    steps := ByReclaims(o, start, job, limit, r);
  }

  /** No outcome is final: after any number of reclaims the latest attempt may succeed, and then
      the worker of the attempt that was reclaimed first reports a failure. */
  lemma LateWorkerOverturns(o: Options, start: int, job: NewJob, limit: nat, r: nat) returns (steps: seq<Step>, late: Step)
    requires job.delayMs == 0 && limit >= 1 && r >= 1
    ensures
      var s := Run(o, Empty(start), steps);
      && |s.jobs| == 1 && s.jobs[0].status == Succeeded && s.hist[0].reclaims == r
      && s.jobs[0].attempts == Max(1, s.jobs[0].maxAttempts) + r
      && Next(o, s, late).jobs[0].status == DeadLettered
  {
    var n := Max(1, job.maxAttempts);
    steps := ByReclaims(o, start, job, limit, r);
    var done := Complete(0, n + r, false);
    RunSnoc(o, Empty(start), steps, done);
    steps := steps + [done];
    late := Fail(0, n, false, Half(n, o.baseMs, o.maxMs));
  }

  lemma OnlyRow(s: System, queue: string, limit: nat)
    requires |s.jobs| == 1 && Claimable(s.jobs[0], queue, s.now) && limit >= 1
    ensures IsBatch(s.jobs, queue, s.now, limit, {0})
  {
    assert ClaimableRows(s.jobs, queue, s.now) == {0};
  }
}
