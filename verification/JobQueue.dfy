/** The JobQueue class of one worker process, over the shared `jobs` table. */
module JobQueues {
  import opened Wrappers
  import opened SqlOrder
  import opened JobTable
  import opened Backoff

  const DEFAULT_QUEUE := "default"

  class JobDatabase {
    var jobs: seq<Job>

    constructor ()
      ensures jobs == []
    {
      jobs := [];
    }
  }

  datatype EnqueueOptions = EnqueueOptions(
    jobType: string,
    payload: JobPayload,
    idempotencyKey: string,
    queue: Option<string>,
    maxAttempts: Option<int>,
    delayMs: Option<int>)

  function WithDefaults(options: EnqueueOptions, defaultMaxAttempts: int): NewJob {
    NewJob(options.jobType, options.payload, options.idempotencyKey,
           if options.queue.Some? then options.queue.value else DEFAULT_QUEUE,
           if options.maxAttempts.Some? then options.maxAttempts.value else defaultMaxAttempts,
           if options.delayMs.Some? then options.delayMs.value else 0)
  }

  function CountStatus(jobs: seq<Job>, status: Status): nat {
    if jobs == [] then 0
    else CountStatus(jobs[..|jobs| - 1], status) + if jobs[|jobs| - 1].status == status then 1 else 0
  }

  lemma {:induction false} EveryRowIsCounted(jobs: seq<Job>)
    ensures CountStatus(jobs, Pending) + CountStatus(jobs, Running)
            + CountStatus(jobs, Succeeded) + CountStatus(jobs, DeadLettered) == |jobs|
  {
    if jobs != [] {
      EveryRowIsCounted(jobs[..|jobs| - 1]);
    }
  }

  function RowsWith(jobs: seq<Job>, status: Status): set<nat> {
    set i: nat | i < |jobs| && jobs[i].status == status
  }

  /** Each count is the number of rows with that status. */
  lemma {:induction false} CountsRows(jobs: seq<Job>, status: Status)
    ensures CountStatus(jobs, status) == |RowsWith(jobs, status)|
  {
    if jobs != [] {
      var last := |jobs| - 1;
      CountsRows(jobs[..last], status);
      assert RowsWith(jobs, status) == RowsWith(jobs[..last], status) + if jobs[last].status == status then {last} else {};
    } else {
      assert RowsWith(jobs, status) == {};
    }
  }

  /** The backoff configuration. */
  datatype Pace = Pace(baseMs: nat, maxMs: nat)

  /** How a claimed row ends up when its own worker reports on it: by handler and limit. A retry
      is due one backoff of its attempt after the report, which comes between `now` and `done`. */
  predicate Processed(claimed: Job, after: Job, handlers: set<string>, succeeds: bool, now: int, done: int, pace: Pace) {
    && after == Unlocked(claimed, after.status, after.runAt)
    && (after.status != Pending ==> after.runAt == claimed.runAt)
    && if claimed.jobType !in handlers then after.status == DeadLettered
       else if succeeds then after.status == Succeeded
       else if claimed.attempts >= claimed.maxAttempts then after.status == DeadLettered
       else
         && after.status == Pending
         && now + Half(claimed.attempts, pace.baseMs, pace.maxMs) <= after.runAt < done + 2 * Half(claimed.attempts, pace.baseMs, pace.maxMs)
  }

  /** One cycle of the only live worker: a batch is claimed and each of its rows processed,
      and no other row is touched. */
  ghost predicate Cycle(before: seq<Job>, after: seq<Job>, queue: string, now: int, done: int, pace: Pace, limit: nat, worker: string,
                        handlers: set<string>, handle: JobRecord -> bool, batch: set<nat>) {
    && IsBatch(before, queue, now, limit, batch)
    && |after| == |before|
    && forall i :: 0 <= i < |before| ==>
         if i in batch
         then Processed(ClaimRow(before[i], worker, now), after[i], handlers,
                        handle(JobRecord(i, ClaimRow(before[i], worker, now))), now, done, pace)
         else after[i] == before[i]
  }

  /** What a cycle does to each row, in full: a claimed one has an attempt more and is unlocked; it
      succeeds exactly if its handler did, is dead-lettered without a handler or at its limit, and
      is pending again otherwise. */
  lemma CycleInFull(before: seq<Job>, after: seq<Job>, queue: string, now: int, done: int, pace: Pace, limit: nat, worker: string,
                    handlers: set<string>, handle: JobRecord -> bool, batch: set<nat>, i: nat)
    requires Cycle(before, after, queue, now, done, pace, limit, worker, handlers, handle, batch) && i < |before|
    ensures i !in batch ==> after[i] == before[i]
    ensures i in batch ==>
              var handled := handle(JobRecord(i, ClaimRow(before[i], worker, now)));
              && after[i].attempts == before[i].attempts + 1 && after[i].lockedAt == None && after[i].lockedBy == None
              && after[i].maxAttempts == before[i].maxAttempts && after[i].key == before[i].key
              && (after[i].status == Succeeded <==> before[i].jobType in handlers && handled)
              && (after[i].status == DeadLettered <==>
                    before[i].jobType !in handlers || (!handled && before[i].attempts + 1 >= before[i].maxAttempts))
              && (after[i].status == Pending <==>
                    before[i].jobType in handlers && !handled && before[i].attempts + 1 < before[i].maxAttempts)
              && (after[i].status == Pending ==>
                    var half := Half(before[i].attempts + 1, pace.baseMs, pace.maxMs); now + half <= after[i].runAt < done + 2 * half)
  {
  }

  /** The batch names distinct rows of the table it was claimed into. */
  ghost predicate ClaimedBatch(table: seq<Job>, batch: seq<JobRecord>) {
    && (forall k :: 0 <= k < |batch| ==> batch[k].id < |table| && table[batch[k].id] == batch[k].row)
    && forall k, l :: 0 <= k < l < |batch| ==> batch[k].id != batch[l].id
  }

  /** The first k jobs of a batch are processed and every other row is still as claimed. */
  ghost predicate ProcessedUpTo(table: seq<Job>, jobs: seq<Job>, batch: seq<JobRecord>, k: nat,
                                handlers: set<string>, handle: JobRecord -> bool, now: int, done: int, pace: Pace) {
    && |jobs| == |table| && k <= |batch|
    && (forall l :: 0 <= l < k ==> batch[l].id < |jobs| && Processed(batch[l].row, jobs[batch[l].id], handlers, handle(batch[l]), now, done, pace))
    && forall i :: 0 <= i < |jobs| && jobs[i] != table[i] ==> exists l :: 0 <= l < k && batch[l].id == i
  }

  lemma StillAsClaimed(table: seq<Job>, jobs: seq<Job>, batch: seq<JobRecord>, k: nat,
                       handlers: set<string>, handle: JobRecord -> bool, now: int, done: int, pace: Pace)
    requires ClaimedBatch(table, batch) && ProcessedUpTo(table, jobs, batch, k, handlers, handle, now, done, pace) && k < |batch|
    ensures batch[k].id < |jobs| && jobs[batch[k].id] == batch[k].row
  {
  }

  lemma ProcessedOneMore(table: seq<Job>, jobs: seq<Job>, after: seq<Job>, batch: seq<JobRecord>, k: nat,
                         handlers: set<string>, handle: JobRecord -> bool,
                         now: int, done: int, pace: Pace, reportedAt: int)
    requires ClaimedBatch(table, batch) && ProcessedUpTo(table, jobs, batch, k, handlers, handle, now, done, pace)
    requires k < |batch| && |after| == |jobs| && now <= reportedAt <= done
    requires Processed(batch[k].row, after[batch[k].id], handlers, handle(batch[k]), reportedAt, reportedAt, pace)
    requires forall i :: 0 <= i < |jobs| && i != batch[k].id ==> after[i] == jobs[i]
    ensures ProcessedUpTo(table, after, batch, k + 1, handlers, handle, now, done, pace)
  {
  }

  lemma BatchIsCycle(before: seq<Job>, after: seq<Job>, queue: string, now: int, done: int, pace: Pace, limit: nat, worker: string,
                     handlers: set<string>, handle: JobRecord -> bool, batch: seq<JobRecord>, claimed: set<nat>)
    requires IsBatch(before, queue, now, limit, claimed)
    requires forall id :: id in claimed <==> exists k :: 0 <= k < |batch| && batch[k].id == id
    requires ClaimedBatch(ClaimRows(before, claimed, worker, now), batch)
    requires ProcessedUpTo(ClaimRows(before, claimed, worker, now), after, batch, |batch|, handlers, handle, now, done, pace)
    ensures Cycle(before, after, queue, now, done, pace, limit, worker, handlers, handle, claimed)
  {
    forall i | 0 <= i < |before| && i in claimed
      ensures Processed(ClaimRow(before[i], worker, now), after[i], handlers,
                        handle(JobRecord(i, ClaimRow(before[i], worker, now))), now, done, pace)
    {
      var l :| 0 <= l < |batch| && batch[l].id == i;
      assert batch[l] == JobRecord(i, ClaimRow(before[i], worker, now));
    }
  }

  class JobQueue {
    const db: JobDatabase
    const workerId: string
    const concurrency: nat
    const defaultMaxAttempts: int
    const baseMs: nat
    const maxMs: nat
    const visibilityTimeoutMs: int
    var handlers: set<string>

    constructor (db: JobDatabase, workerId: string, concurrency: nat, defaultMaxAttempts: int,
                 baseMs: nat, maxMs: nat, visibilityTimeoutMs: int)
      ensures this.db == db && this.workerId == workerId && this.concurrency == concurrency
      ensures this.defaultMaxAttempts == defaultMaxAttempts
      ensures this.baseMs == baseMs && this.maxMs == maxMs
      ensures this.visibilityTimeoutMs == visibilityTimeoutMs && handlers == {}
    {
      this.db, this.workerId, this.concurrency := db, workerId, concurrency;
      this.defaultMaxAttempts, this.baseMs, this.maxMs := defaultMaxAttempts, baseMs, maxMs;
      this.visibilityTimeoutMs, handlers := visibilityTimeoutMs, {};
    }

    /** Registering a type twice is an error and changes nothing. */
    method RegisterHandler(jobType: string) returns (ok: bool)
      modifies this
      ensures ok <==> jobType !in old(handlers)
      ensures handlers == old(handlers) + {jobType}
    {
      ok := jobType !in handlers;
      if ok {
        handlers := handlers + {jobType};
      }
    }

    /** The result says whether a row was created; a known key creates none. */
    method Enqueue(options: EnqueueOptions, now: int) returns (created: bool)
      modifies db
      ensures db.jobs == Insert(old(db.jobs), WithDefaults(options, defaultMaxAttempts), now)
      ensures created <==> !HasKey(old(db.jobs), options.idempotencyKey)
      ensures created ==>
                && |db.jobs| == |old(db.jobs)| + 1
                && var row := db.jobs[|old(db.jobs)|];
                   && row.key == options.idempotencyKey && row.jobType == options.jobType && row.payload == options.payload
                   && row.queue == (if options.queue.Some? then options.queue.value else "default")
                   && row.maxAttempts == (if options.maxAttempts.Some? then options.maxAttempts.value else defaultMaxAttempts)
                   && row.runAt == now + (if options.delayMs.Some? then options.delayMs.value else 0)
                   && row.status == Pending && row.attempts == 0
    {
      var job := WithDefaults(options, defaultMaxAttempts);
      created := !HasKey(db.jobs, job.key);
      db.jobs := Insert(db.jobs, job, now);
    }

    method ClaimBatch(limit: nat, queue: string, now: int)
      returns (batch: seq<JobRecord>, ghost claimed: set<nat>)
      modifies db
      ensures IsBatch(old(db.jobs), queue, now, limit, claimed)
      ensures db.jobs == ClaimRows(old(db.jobs), claimed, workerId, now)
      ensures |batch| == |claimed| && forall id :: id in claimed <==> exists k :: 0 <= k < |batch| && batch[k].id == id
      ensures ClaimedBatch(db.jobs, batch)
    {
      var jobs := db.jobs;
      var ids;
      ids, claimed := TakeFirst<nat>(ClaimableRows(jobs, queue, now), RunAt(jobs), limit);
      assert forall k :: 0 <= k < |ids| ==> ids[k] in ClaimableRows(jobs, queue, now);
      batch := seq(|ids|, k requires 0 <= k < |ids| && ids[k] < |jobs| =>
                     JobRecord(ids[k], ClaimRow(jobs[ids[k]], workerId, now)));
      var picked := set i | i in ids;
      assert picked == claimed;
      db.jobs := ClaimRows(jobs, picked, workerId, now);
      assert forall k :: 0 <= k < |ids| ==> batch[k].id == ids[k];
    }

    method CompleteJob(id: nat)
      modifies db
      ensures db.jobs == if id < |old(db.jobs)|
                         then SetRow(old(db.jobs), id, Succeeded, old(db.jobs)[id].runAt) else old(db.jobs)
    {
      if id < |db.jobs| {
        db.jobs := SetRow(db.jobs, id, Succeeded, db.jobs[id].runAt);
      }
    }

    /** Dead-letters once the record's own attempt number is at the limit, else reschedules. */
    method FailJob(job: JobRecord, attemptCount: int, delayMs: Option<int>, now: int, random: real)
      returns (deadLettered: bool)
      requires 0.0 <= random < 1.0
      modifies db
      ensures deadLettered <==> attemptCount >= job.row.maxAttempts
      ensures job.id >= |old(db.jobs)| ==> db.jobs == old(db.jobs)
      ensures deadLettered && job.id < |old(db.jobs)| ==>
                db.jobs == SetRow(old(db.jobs), job.id, DeadLettered, old(db.jobs)[job.id].runAt)
      ensures !deadLettered && delayMs.Some? ==>
                db.jobs == SetRow(old(db.jobs), job.id, Pending, now + delayMs.value)
      ensures !deadLettered && delayMs.None? ==>
                db.jobs == SetRow(old(db.jobs), job.id, Pending,
                                  now + ComputeBackoffMs(attemptCount, baseMs, maxMs, random))
    {
      deadLettered := attemptCount >= job.row.maxAttempts;
      if deadLettered {
        if job.id < |db.jobs| {
          db.jobs := SetRow(db.jobs, job.id, DeadLettered, db.jobs[job.id].runAt);
        }
        return;
      }
      var delay;
      if delayMs.Some? {
        delay := delayMs.value;
      } else {
        delay := ComputeBackoffMs(attemptCount, baseMs, maxMs, random);
      }
      db.jobs := SetRow(db.jobs, job.id, Pending, now + delay);
    }

    method ReclaimStale(now: int) returns (reclaimed: nat)
      modifies db
      ensures db.jobs == ReclaimRows(old(db.jobs), now, visibilityTimeoutMs)
      ensures reclaimed == |set i | 0 <= i < |old(db.jobs)| && Stale(old(db.jobs)[i], now, visibilityTimeoutMs)|
    {
      var jobs := db.jobs;
      reclaimed := |set i | 0 <= i < |jobs| && Stale(jobs[i], now, visibilityTimeoutMs)|;
      db.jobs := ReclaimRows(jobs, now, visibilityTimeoutMs);
    }

    /** Runs one claimed job; handle says whether its handler returns or throws. */
    method Process(job: JobRecord, handle: JobRecord -> bool, now: int, random: real)
      requires job.id < |db.jobs| && db.jobs[job.id] == job.row && 0.0 <= random < 1.0
      modifies db
      ensures |db.jobs| == |old(db.jobs)|
      ensures Processed(job.row, db.jobs[job.id], handlers, handle(job), now, now, Pace(baseMs, maxMs))
      ensures forall i :: 0 <= i < |db.jobs| && i != job.id ==> db.jobs[i] == old(db.jobs)[i]
    {
      if job.row.jobType !in handlers {
        var _ := FailJob(job, job.row.maxAttempts, None, now, random);
      } else if handle(job) {
        CompleteJob(job.id);
      } else {
        DrawInRange(Half(job.row.attempts, baseMs, maxMs), random);
        var _ := FailJob(job, job.row.attempts, None, now, random);
      }
    }

    /** Processes a batch as claimed, one job after the other. */
    method ProcessBatch(batch: seq<JobRecord>, now: int, done: int, handle: JobRecord -> bool,
                        reportAt: nat -> int, random: nat -> real)
      requires ClaimedBatch(db.jobs, batch) && forall k :: now <= reportAt(k) <= done && 0.0 <= random(k) < 1.0
      modifies db
      ensures ProcessedUpTo(old(db.jobs), db.jobs, batch, |batch|, handlers, handle, now, done, Pace(baseMs, maxMs))
    {
      ghost var table := db.jobs;
      ghost var pace := Pace(baseMs, maxMs);
      for k := 0 to |batch|
        invariant ProcessedUpTo(table, db.jobs, batch, k, handlers, handle, now, done, pace)
      {
        ghost var jobs := db.jobs;
        StillAsClaimed(table, jobs, batch, k, handlers, handle, now, done, pace);
        Process(batch[k], handle, reportAt(k), random(k));
        ProcessedOneMore(table, jobs, db.jobs, batch, k, handlers, handle,
                         now, done, pace, reportAt(k));
      }
    }

    /** Claims one batch and processes it; the k-th report reaches the database at reportAt(k),
        the last by `done`. */
    method RunOnce(queue: string, now: int, done: int, handle: JobRecord -> bool, reportAt: nat -> int, random: nat -> real)
      returns (processed: nat, ghost claimed: set<nat>)
      requires forall k :: now <= reportAt(k) <= done && 0.0 <= random(k) < 1.0
      modifies db
      ensures processed == |claimed|
      ensures Cycle(old(db.jobs), db.jobs, queue, now, done, Pace(baseMs, maxMs), concurrency, workerId, handlers, handle, claimed)
    {
      ghost var before := db.jobs;
      ghost var pace := Pace(baseMs, maxMs);
      var batch;
      batch, claimed := ClaimBatch(concurrency, queue, now);
      ProcessBatch(batch, now, done, handle, reportAt, random);
      processed := |batch|;
      BatchIsCycle(before, db.jobs, queue, now, done, pace, concurrency, workerId, handlers, handle, batch, claimed);
    }

    method Stats() returns (pending: nat, running: nat, succeeded: nat, deadLettered: nat)
      ensures pending == CountStatus(db.jobs, Pending) && running == CountStatus(db.jobs, Running)
      ensures succeeded == CountStatus(db.jobs, Succeeded) && deadLettered == CountStatus(db.jobs, DeadLettered)
      ensures pending + running + succeeded + deadLettered == |db.jobs|
    {
      pending, running, succeeded, deadLettered := 0, 0, 0, 0;
      for i := 0 to |db.jobs|
        invariant pending == CountStatus(db.jobs[..i], Pending)
        invariant running == CountStatus(db.jobs[..i], Running)
        invariant succeeded == CountStatus(db.jobs[..i], Succeeded)
        invariant deadLettered == CountStatus(db.jobs[..i], DeadLettered)
      {
        assert db.jobs[..i + 1][..i] == db.jobs[..i];
        match db.jobs[i].status
        case Pending => pending := pending + 1;
        case Running => running := running + 1;
        case Succeeded => succeeded := succeeded + 1;
        case DeadLettered => deadLettered := deadLettered + 1;
      }
      assert db.jobs[..|db.jobs|] == db.jobs;
      EveryRowIsCounted(db.jobs);
    }
  }
}
