/** With one live worker and no crash, any finite set of jobs drains. */
module Draining {
  import opened SqlOrder
  import opened JobTable
  import opened Backoff
  import opened JobQueues

  /** The claims a row can still cost. */
  function Left(job: Job, queue: string): nat {
    if job.queue == queue && job.status == Pending then Max(0, Max(1, job.maxAttempts) - job.attempts) else 0
  }

  function Budget(jobs: seq<Job>, queue: string): nat {
    if jobs == [] then 0 else Budget(jobs[..|jobs| - 1], queue) + Left(jobs[|jobs| - 1], queue)
  }

  /** Between cycles nothing runs, and a pending job has attempts left. */
  predicate AtRest(jobs: seq<Job>, queue: string) {
    forall i :: 0 <= i < |jobs| && jobs[i].queue == queue ==>
      jobs[i].status != Running && (jobs[i].status == Pending ==> jobs[i].attempts < Max(1, jobs[i].maxAttempts))
  }

  predicate Drained(jobs: seq<Job>, queue: string) {
    forall i :: 0 <= i < |jobs| && jobs[i].queue == queue ==> jobs[i].status in {Succeeded, DeadLettered}
  }

  predicate SomeDue(jobs: seq<Job>, queue: string, now: int) {
    exists i :: 0 <= i < |jobs| && Claimable(jobs[i], queue, now)
  }

  predicate AllDue(jobs: seq<Job>, queue: string, now: int) {
    forall i :: 0 <= i < |jobs| && jobs[i].queue == queue && jobs[i].status == Pending ==> jobs[i].runAt <= now
  }

  /** The rows that identify a job never change: none is lost, none is replaced. */
  predicate SameJobs(before: seq<Job>, after: seq<Job>) {
    |before| == |after|
    && forall i :: 0 <= i < |before| ==>
         && before[i].key == after[i].key && before[i].queue == after[i].queue
         && before[i].jobType == after[i].jobType && before[i].payload == after[i].payload
         && before[i].maxAttempts == after[i].maxAttempts
  }

  /** One pass of the polling loop, claiming at `now` and reporting by `done`. */
  datatype CycleRun = CycleRun(queue: string, now: int, done: int, pace: Pace, limit: nat, worker: string, handlers: set<string>,
                               handle: JobRecord -> bool, batch: set<nat>)

  /** What a cycle reschedules is due by then. */
  function Latest(c: CycleRun): int {
    c.done + Max(1, c.pace.maxMs)
  }

  ghost predicate IsCycle(before: seq<Job>, after: seq<Job>, c: CycleRun) {
    Cycle(before, after, c.queue, c.now, c.done, c.pace, c.limit, c.worker, c.handlers, c.handle, c.batch)
  }

  lemma CycleKeepsRest(before: seq<Job>, after: seq<Job>, c: CycleRun)
    requires IsCycle(before, after, c) && AtRest(before, c.queue)
    ensures AtRest(after, c.queue) && SameJobs(before, after)
  {
    forall i | 0 <= i < |before| && i in c.batch
      ensures Claimable(before[i], c.queue, c.now)
    {
      assert i in ClaimableRows(before, c.queue, c.now);
    }
  }

  /** Each row of the batch spends one claim of the budget, and no other row gains one. */
  lemma RowSpends(before: seq<Job>, after: seq<Job>, c: CycleRun, i: nat)
    requires IsCycle(before, after, c) && AtRest(before, c.queue) && i < |before|
    ensures Left(after[i], c.queue) + (if i in c.batch then 1 else 0) <= Left(before[i], c.queue)
  {
    if i in c.batch {
      assert i in ClaimableRows(before, c.queue, c.now);
    }
  }

  function Below(batch: set<nat>, n: nat): set<nat> {
    set i: nat | i in batch && i < n
  }

  lemma BelowNext(batch: set<nat>, n: nat)
    ensures |Below(batch, n + 1)| == |Below(batch, n)| + if n in batch then 1 else 0
  {
    assert Below(batch, n + 1) == Below(batch, n) + if n in batch then {n} else {};
  }

  lemma {:induction false} BudgetDrops(before: seq<Job>, after: seq<Job>, batch: set<nat>, queue: string, n: nat)
    requires |before| == |after| && n <= |before|
    requires forall i: nat :: i < |before| ==>
               Left(after[i], queue) + (if i in batch then 1 else 0) <= Left(before[i], queue)
    ensures Budget(after[..n], queue) + |Below(batch, n)| <= Budget(before[..n], queue)
  {
    if n == 0 {
      assert Below(batch, 0) == {};
    } else {
      BudgetDrops(before, after, batch, queue, n - 1);
      BelowNext(batch, n - 1);
      assert before[..n][..n - 1] == before[..n - 1] && after[..n][..n - 1] == after[..n - 1];
    }
  }

  lemma CycleSpendsBudget(before: seq<Job>, after: seq<Job>, c: CycleRun)
    requires IsCycle(before, after, c) && AtRest(before, c.queue)
    ensures Budget(after, c.queue) + |c.batch| <= Budget(before, c.queue)
  {
    forall i: nat | i < |before|
      ensures Left(after[i], c.queue) + (if i in c.batch then 1 else 0) <= Left(before[i], c.queue)
    {
      RowSpends(before, after, c, i);
    }
    BudgetDrops(before, after, c.batch, c.queue, |before|);
    assert before[..|before|] == before && after[..|before|] == after;
    assert c.batch <= ClaimableRows(before, c.queue, c.now);
    assert Below(c.batch, |before|) == c.batch;
  }

  /** A cycle with room claims something exactly when something is due. */
  lemma CycleMakesProgress(before: seq<Job>, after: seq<Job>, c: CycleRun)
    requires IsCycle(before, after, c) && c.limit >= 1
    ensures |c.batch| >= 1 <==> SomeDue(before, c.queue, c.now)
    ensures c.batch == {} ==> after == before
  {
    if SomeDue(before, c.queue, c.now) {
      var i :| 0 <= i < |before| && Claimable(before[i], c.queue, c.now);
      assert i in ClaimableRows(before, c.queue, c.now);
    }
    if i :| i in c.batch {
      assert i in ClaimableRows(before, c.queue, c.now);
    }
  }

  /** At rest, something is due once everything is, unless nothing is left. */
  lemma DueOrDrained(jobs: seq<Job>, queue: string, now: int)
    requires AtRest(jobs, queue) && AllDue(jobs, queue, now)
    ensures SomeDue(jobs, queue, now) <==> !Drained(jobs, queue)
  {
    if !Drained(jobs, queue) {
      var i :| 0 <= i < |jobs| && jobs[i].queue == queue && jobs[i].status !in {Succeeded, DeadLettered};
      assert Claimable(jobs[i], queue, now);
    }
  }

  /** The reclaim that precedes each cycle finds nothing of a queue at rest. */
  lemma ReclaimLeavesRest(jobs: seq<Job>, queue: string, now: int, timeoutMs: int, i: nat)
    requires AtRest(jobs, queue) && i < |jobs| && jobs[i].queue == queue
    ensures ReclaimRows(jobs, now, timeoutMs)[i] == jobs[i]
  {
  }

  ghost predicate IsRun(tables: seq<seq<Job>>, cycles: seq<CycleRun>, queue: string) {
    && |tables| == |cycles| + 1
    && forall k :: 0 <= k < |cycles| ==>
         && cycles[k].queue == queue && cycles[k].limit >= 1
         && IsCycle(tables[k], tables[k + 1], cycles[k])
  }

  function Claims(cycles: seq<CycleRun>): nat {
    if cycles == [] then 0 else Claims(cycles[..|cycles| - 1]) + |cycles[|cycles| - 1].batch|
  }

  /** The cycles at which something was due. */
  function BusyCycles(tables: seq<seq<Job>>, cycles: seq<CycleRun>, queue: string): nat
    requires |tables| == |cycles| + 1
    decreases |cycles|
  {
    if cycles == [] then 0 else
    var last := |cycles| - 1;
    BusyCycles(tables[..|cycles|], cycles[..last], queue) + if SomeDue(tables[last], queue, cycles[last].now) then 1 else 0
  }

  /** The cycles at which everything pending was due. */
  function CaughtUpCycles(tables: seq<seq<Job>>, cycles: seq<CycleRun>, queue: string): nat
    requires |tables| == |cycles| + 1
    decreases |cycles|
  {
    if cycles == [] then 0 else
    var last := |cycles| - 1;
    CaughtUpCycles(tables[..|cycles|], cycles[..last], queue) + if AllDue(tables[last], queue, cycles[last].now) then 1 else 0
  }

  lemma {:induction false} RunSpends(tables: seq<seq<Job>>, cycles: seq<CycleRun>, queue: string)
    requires IsRun(tables, cycles, queue) && AtRest(tables[0], queue)
    ensures AtRest(tables[|cycles|], queue) && SameJobs(tables[0], tables[|cycles|])
    ensures Claims(cycles) + Budget(tables[|cycles|], queue) <= Budget(tables[0], queue)
    decreases |cycles|
  {
    if cycles != [] {
      var last := |cycles| - 1;
      RunSpends(tables[..|cycles|], cycles[..last], queue);
      CycleKeepsRest(tables[last], tables[last + 1], cycles[last]);
      CycleSpendsBudget(tables[last], tables[last + 1], cycles[last]);
    }
  }

  /** A run without its last cycle, and that cycle, which starts at rest. */
  lemma LastCycle(tables: seq<seq<Job>>, cycles: seq<CycleRun>, queue: string)
    requires IsRun(tables, cycles, queue) && AtRest(tables[0], queue) && cycles != []
    ensures var last := |cycles| - 1;
            && IsRun(tables[..|cycles|], cycles[..last], queue) && tables[..|cycles|][0] == tables[0]
            && tables[..|cycles|][last] == tables[last] && AtRest(tables[last], queue)
            && IsCycle(tables[last], tables[last + 1], cycles[last])
            && cycles[last].queue == queue && cycles[last].limit >= 1
  {
    RunSpends(tables[..|cycles|], cycles[..|cycles| - 1], queue);
  }

  /** Whatever happens in the other cycles, each one with something due claims something, */
  lemma {:induction false} BusyCyclesClaim(tables: seq<seq<Job>>, cycles: seq<CycleRun>, queue: string)
    requires IsRun(tables, cycles, queue) && AtRest(tables[0], queue)
    ensures BusyCycles(tables, cycles, queue) <= Claims(cycles)
    decreases |cycles|
  {
    if cycles != [] {
      var last := |cycles| - 1;
      LastCycle(tables, cycles, queue);
      BusyCyclesClaim(tables[..|cycles|], cycles[..last], queue);
      CycleMakesProgress(tables[last], tables[last + 1], cycles[last]);
    }
  }

  /** and so does each one with everything due, until all is finished. */
  lemma {:induction false} CaughtUpCyclesClaim(tables: seq<seq<Job>>, cycles: seq<CycleRun>, queue: string)
    requires IsRun(tables, cycles, queue) && AtRest(tables[0], queue)
    ensures CaughtUpCycles(tables, cycles, queue) <= Claims(cycles) || Drained(tables[|cycles|], queue)
    decreases |cycles|
  {
    if cycles != [] {
      var last := |cycles| - 1;
      LastCycle(tables, cycles, queue);
      CaughtUpCyclesClaim(tables[..|cycles|], cycles[..last], queue);
      CaughtUpCycleClaims(tables[last], tables[last + 1], cycles[last]);
    }
  }

  lemma CaughtUpCycleClaims(before: seq<Job>, after: seq<Job>, c: CycleRun)
    requires IsCycle(before, after, c) && AtRest(before, c.queue) && c.limit >= 1
    ensures Drained(before, c.queue) ==> Drained(after, c.queue)
    ensures AllDue(before, c.queue, c.now) ==> Drained(after, c.queue) || |c.batch| >= 1
  {
    if Drained(before, c.queue) {
      StaysDrained(before, after, c);
    } else if AllDue(before, c.queue, c.now) {
      DueOrDrained(before, c.queue, c.now);
      CycleMakesProgress(before, after, c);
    }
  }

  lemma StaysDrained(before: seq<Job>, after: seq<Job>, c: CycleRun)
    requires IsCycle(before, after, c) && Drained(before, c.queue)
    ensures Drained(after, c.queue)
  {
    forall i | 0 <= i < |before| && i in c.batch
      ensures Claimable(before[i], c.queue, c.now)
    {
      assert i in ClaimableRows(before, c.queue, c.now);
    }
  }

  lemma {:induction false} EmptyBudget(jobs: seq<Job>, queue: string)
    requires AtRest(jobs, queue) && Budget(jobs, queue) == 0
    ensures Drained(jobs, queue)
  {
    if jobs != [] {
      EmptyBudget(jobs[..|jobs| - 1], queue);
    }
  }

  /** The sum of the attempt limits of a queue. */
  function Limits(jobs: seq<Job>, queue: string): nat {
    if jobs == [] then 0
    else
      Limits(jobs[..|jobs| - 1], queue)
      + if jobs[|jobs| - 1].queue == queue then Max(1, jobs[|jobs| - 1].maxAttempts) else 0
  }

  lemma {:induction false} BudgetWithinLimits(jobs: seq<Job>, queue: string)
    ensures Budget(jobs, queue) <= Limits(jobs, queue)
  {
    if jobs != [] {
      BudgetWithinLimits(jobs[..|jobs| - 1], queue);
    }
  }

  /** However many cycles are idle: no run claims more often than the limits add up to, nor has
      more cycles with something due; once it claimed that often, or had that many cycles with
      everything due, every job is finished; and no row is lost. */
  lemma Drains(tables: seq<seq<Job>>, cycles: seq<CycleRun>, queue: string)
    requires IsRun(tables, cycles, queue) && AtRest(tables[0], queue)
    ensures BusyCycles(tables, cycles, queue) <= Claims(cycles) <= Limits(tables[0], queue)
    ensures Claims(cycles) == Limits(tables[0], queue) ==> Drained(tables[|cycles|], queue)
    ensures CaughtUpCycles(tables, cycles, queue) >= Limits(tables[0], queue) ==> Drained(tables[|cycles|], queue)
    ensures SameJobs(tables[0], tables[|cycles|])
  {
    RunSpends(tables, cycles, queue);
    BusyCyclesClaim(tables, cycles, queue);
    CaughtUpCyclesClaim(tables, cycles, queue);
    BudgetWithinLimits(tables[0], queue);
    if Budget(tables[|cycles|], queue) == 0 {
      EmptyBudget(tables[|cycles|], queue);
    }
  }

  // Draining by the clock.

  /** The worker polls at least this often, and what a cycle reschedules is due within so long of
      it: the time its handlers take, plus the backoff ceiling. */
  predicate Regular(cycles: seq<CycleRun>, every: nat, within: nat) {
    && (forall k :: 0 <= k < |cycles| ==> Latest(cycles[k]) <= cycles[k].now + within)
    && forall k :: 0 < k < |cycles| ==> cycles[k].now <= cycles[k - 1].now + every
  }

  lemma StaysDue(before: seq<Job>, after: seq<Job>, c: CycleRun, due: int, later: int)
    requires IsCycle(before, after, c) && AllDue(before, c.queue, due) && due <= later && Latest(c) <= later
    ensures AllDue(after, c.queue, later)
  {
    forall i | 0 <= i < |after| && after[i].queue == c.queue && after[i].status == Pending
      ensures after[i].runAt <= later
    {
      assert before[i].queue == c.queue;
      if i in c.batch {
        var half := Half(before[i].attempts + 1, c.pace.baseMs, c.pace.maxMs);
        WithinCeiling(before[i].attempts + 1, c.pace.baseMs, c.pace.maxMs, 2 * half - 1);
      }
    }
  }

  /** A claiming cycle puts the time everything pending is due off by at most one interval and
      one backoff; an idle cycle of an unfinished queue comes before that time. */
  lemma NextDue(before: seq<Job>, after: seq<Job>, c: CycleRun, due: int, every: nat, within: nat) returns (later: int)
    requires IsCycle(before, after, c) && AtRest(before, c.queue) && AllDue(before, c.queue, due)
    requires c.limit >= 1 && Latest(c) <= c.now + within
    requires c.now <= due + every || Drained(before, c.queue)
    ensures AllDue(after, c.queue, later) && later <= due + if c.batch == {} then 0 else every + within
    ensures c.now <= later || Drained(after, c.queue)
  {
    CycleMakesProgress(before, after, c);
    if c.batch == {} {
      later := due;
      if AllDue(before, c.queue, c.now) {
        DueOrDrained(before, c.queue, c.now);
      }
    } else {
      later := Max(due, c.now + within);
      StaysDue(before, after, c, due, later);
    }
  }

  /** The time so many intervals after the first. */
  function Deadline(due: int, n: nat, interval: nat): int {
    if n == 0 then due else Deadline(due, n - 1, interval) + interval
  }

  lemma {:induction false} DeadlineGrows(due: int, m: nat, n: nat, interval: nat)
    requires m <= n
    ensures Deadline(due, m, interval) <= Deadline(due, n, interval)
  {
    if m < n {
      DeadlineGrows(due, m, n - 1, interval);
    }
  }

  lemma {:induction false} DeadlineIs(due: int, n: nat, interval: nat)
    ensures Deadline(due, n, interval) == due + n * interval
  {
    if n > 0 {
      DeadlineIs(due, n - 1, interval);
      assert n * interval == (n - 1) * interval + interval;
    }
  }

  lemma DeadlineOfLast(due: int, cycles: seq<CycleRun>, interval: nat)
    requires cycles != []
    ensures var last := |cycles| - 1;
            Deadline(due, Claims(cycles[..last]), interval) + (if cycles[last].batch == {} then 0 else interval)
            <= Deadline(due, Claims(cycles), interval)
  {
    var before := Claims(cycles[..|cycles| - 1]);
    if cycles[|cycles| - 1].batch != {} {
      DeadlineGrows(due, before + 1, Claims(cycles), interval);
    }
  }

  /** The latest the next cycle may start. */
  function NextBy(cycles: seq<CycleRun>, due: int, every: nat): int {
    if cycles == [] then due + every else cycles[|cycles| - 1].now + every
  }

  lemma RegularBefore(cycles: seq<CycleRun>, due: int, every: nat, within: nat)
    requires Regular(cycles, every, within) && cycles != [] && cycles[0].now <= due + every
    ensures var last := |cycles| - 1;
            && Regular(cycles[..last], every, within) && (last > 0 ==> cycles[..last][0] == cycles[0])
            && Latest(cycles[last]) <= cycles[last].now + within
            && cycles[last].now <= NextBy(cycles[..last], due, every)
  {
  }

  lemma {:induction false} DueBy(tables: seq<seq<Job>>, cycles: seq<CycleRun>, queue: string, due: int, every: nat, within: nat)
    returns (h: int)
    requires IsRun(tables, cycles, queue) && AtRest(tables[0], queue) && Regular(cycles, every, within)
    requires AllDue(tables[0], queue, due) && (cycles != [] ==> cycles[0].now <= due + every)
    ensures AllDue(tables[|cycles|], queue, h) && h <= Deadline(due, Claims(cycles), every + within)
    ensures NextBy(cycles, due, every) <= h + every || Drained(tables[|cycles|], queue)
    decreases |cycles|
  {
    h := due;
    if cycles != [] {
      var last := |cycles| - 1;
      LastCycle(tables, cycles, queue);
      RegularBefore(cycles, due, every, within);
      var before := DueBy(tables[..|cycles|], cycles[..last], queue, due, every, within);
      h := NextDue(tables[last], tables[last + 1], cycles[last], before, every, within);
      DeadlineOfLast(due, cycles, every + within);
    }
  }

  /** One live worker that polls regularly finishes everything in bounded time: one interval and
      one backoff for each attempt the limits allow, and one interval more. */
  lemma DrainsInTime(tables: seq<seq<Job>>, cycles: seq<CycleRun>, queue: string, due: int, every: nat, within: nat)
    requires IsRun(tables, cycles, queue) && AtRest(tables[0], queue) && Regular(cycles, every, within)
    requires cycles != [] && AllDue(tables[0], queue, due) && cycles[0].now <= due + every
    requires cycles[|cycles| - 1].now > due + Limits(tables[0], queue) * (every + within) + every
    ensures Drained(tables[|cycles|], queue) && SameJobs(tables[0], tables[|cycles|])
  {
    var last := |cycles| - 1;
    DeadlineIs(due, Limits(tables[0], queue), every + within);
    LastCycle(tables, cycles, queue);
    RegularBefore(cycles, due, every, within);
    DrainedBefore(tables[..|cycles|], cycles[..last], queue, due, every, within, cycles[last].now);
    StaysDrained(tables[last], tables[last + 1], cycles[last]);
    RunSpends(tables, cycles, queue);
  }

  lemma DrainedBefore(tables: seq<seq<Job>>, cycles: seq<CycleRun>, queue: string, due: int, every: nat, within: nat, next: int)
    requires IsRun(tables, cycles, queue) && AtRest(tables[0], queue) && Regular(cycles, every, within)
    requires AllDue(tables[0], queue, due)
    requires (cycles != [] ==> cycles[0].now <= due + every) && next <= NextBy(cycles, due, every)
    requires next > Deadline(due, Limits(tables[0], queue), every + within) + every
    ensures Drained(tables[|cycles|], queue)
  {
    var h := DueBy(tables, cycles, queue, due, every, within);
    Drains(tables, cycles, queue);
    DeadlineGrows(due, Claims(cycles), Limits(tables[0], queue), every + within);
  }
}
