/** The `jobs` table and the SQL statements of the durable queue, each as one atomic change of
    the table. Rows are never deleted, so a row's position stands for its id. */
module JobTable {
  import opened Wrappers
  import opened SqlOrder

  datatype Status = Pending | Running | Succeeded | DeadLettered

  /** A JSON value in a job payload. NaN and infinities become null on the way in. */
  datatype Field = Text(text: string) | Number(number: real) | Null

  type JobPayload = map<string, Field>

  datatype Job = Job(
    queue: string,
    jobType: string,
    payload: JobPayload,
    key: string,
    status: Status,
    attempts: nat,
    maxAttempts: int,
    runAt: int,
    lockedAt: Option<int>,
    lockedBy: Option<string>)

  /** What a worker holds after a claim: the row as the claim returned it. */
  datatype JobRecord = JobRecord(id: nat, row: Job)

  datatype NewJob = NewJob(
    jobType: string,
    payload: JobPayload,
    key: string,
    queue: string,
    maxAttempts: int,
    delayMs: int)

  predicate HasKey(jobs: seq<Job>, key: string) {
    exists i :: 0 <= i < |jobs| && jobs[i].key == key
  }

  function Insert(jobs: seq<Job>, job: NewJob, now: int): seq<Job> {
    if HasKey(jobs, job.key) then jobs else
    jobs + [Job(job.queue, job.jobType, job.payload, job.key, Pending, 0, job.maxAttempts,
                now + job.delayMs, None, None)]
  }

  predicate Claimable(job: Job, queue: string, now: int) {
    job.queue == queue && job.status == Pending && job.runAt <= now
  }

  function ClaimableRows(jobs: seq<Job>, queue: string, now: int): set<nat> {
    set i: nat | i < |jobs| && Claimable(jobs[i], queue, now)
  }

  function RunAt(jobs: seq<Job>): nat -> int {
    (i: nat) => if i < |jobs| then jobs[i].runAt else 0
  }

  /** chosen is a batch the claim query may pick: the rows due first, up to the limit. */
  ghost predicate IsBatch(jobs: seq<Job>, queue: string, now: int, limit: nat, chosen: set<nat>) {
    IsFirst<nat>(ClaimableRows(jobs, queue, now), RunAt(jobs), limit, chosen)
  }

  function ClaimRow(job: Job, worker: string, now: int): Job {
    job.(status := Running, lockedAt := Some(now), lockedBy := Some(worker), attempts := job.attempts + 1)
  }

  function ClaimRows(jobs: seq<Job>, chosen: set<nat>, worker: string, now: int): seq<Job> {
    seq(|jobs|, i requires 0 <= i < |jobs| => if i in chosen then ClaimRow(jobs[i], worker, now) else jobs[i])
  }

  function Unlocked(job: Job, status: Status, runAt: int): Job {
    job.(status := status, runAt := runAt, lockedAt := None, lockedBy := None)
  }

  /** `UPDATE jobs ... WHERE id = $1`: neither the status nor the lock holder is checked. */
  function SetRow(jobs: seq<Job>, id: nat, status: Status, runAt: int): seq<Job> {
    if id < |jobs| then jobs[id := Unlocked(jobs[id], status, runAt)] else jobs
  }

  predicate Stale(job: Job, now: int, timeoutMs: int) {
    job.status == Running && job.lockedAt.Some? && job.lockedAt.value < now - timeoutMs
  }

  function ReclaimRow(job: Job, now: int, timeoutMs: int): Job {
    if Stale(job, now, timeoutMs) then Unlocked(job, Pending, now) else job
  }

  function ReclaimRows(jobs: seq<Job>, now: int, timeoutMs: int): seq<Job> {
    seq(|jobs|, i requires 0 <= i < |jobs| => ReclaimRow(jobs[i], now, timeoutMs))
  }

  /** Idempotency keys are unique, and inserting keeps them so. */
  predicate UniqueKeys(jobs: seq<Job>) {
    forall i, j :: 0 <= i < j < |jobs| ==> jobs[i].key != jobs[j].key
  }

  /** A claimed row is running under its worker's lock, with one attempt more; what identifies the
      job and when it was due stays. */
  lemma ClaimInFull(job: Job, worker: string, now: int)
    ensures var row := ClaimRow(job, worker, now);
            && row.status == Running && row.lockedAt == Some(now) && row.lockedBy == Some(worker)
            && row.attempts == job.attempts + 1 && row.runAt == job.runAt && row.maxAttempts == job.maxAttempts
            && row.queue == job.queue && row.jobType == job.jobType && row.payload == job.payload && row.key == job.key
  {
  }

  /** A running job is reclaimed exactly once more than the timeout has passed since its claim; it
      is then due at once, unlocked, with its attempts counted. No other row is touched. */
  lemma ReclaimedAfterTimeout(job: Job, worker: string, claimedAt: int, now: int, timeoutMs: int)
    ensures
      var claimed := ClaimRow(job, worker, claimedAt);
      var row := ReclaimRow(claimed, now, timeoutMs);
      if now - claimedAt > timeoutMs
      then && row.status == Pending && row.runAt == now && row.lockedAt == None && row.lockedBy == None
           && row.attempts == job.attempts + 1 && row.maxAttempts == job.maxAttempts && row.key == job.key
           && row.queue == job.queue && row.jobType == job.jobType && row.payload == job.payload
      else row == claimed
    ensures job.status != Running ==> ReclaimRow(job, now, timeoutMs) == job
  {
  }

  /** A report sets status and time and takes the lock off; attempts and identity stay. */
  lemma ReportInFull(jobs: seq<Job>, id: nat, status: Status, runAt: int)
    requires id < |jobs|
    ensures var t := SetRow(jobs, id, status, runAt);
            && |t| == |jobs| && (forall i :: 0 <= i < |jobs| && i != id ==> t[i] == jobs[i])
            && t[id].status == status && t[id].runAt == runAt && t[id].lockedAt == None && t[id].lockedBy == None
            && t[id].attempts == jobs[id].attempts && t[id].maxAttempts == jobs[id].maxAttempts && t[id].key == jobs[id].key
            && t[id].queue == jobs[id].queue && t[id].jobType == jobs[id].jobType && t[id].payload == jobs[id].payload
  {
  }

  /** A new row is pending, without attempts, due after its delay. */
  lemma InsertInFull(jobs: seq<Job>, job: NewJob, now: int)
    ensures var t := Insert(jobs, job, now);
            if exists i :: 0 <= i < |jobs| && jobs[i].key == job.key then t == jobs
            else && |t| == |jobs| + 1 && t[..|jobs|] == jobs
                 && var row := t[|jobs|];
                    && row.status == Pending && row.attempts == 0 && row.runAt == now + job.delayMs && row.maxAttempts == job.maxAttempts
                    && row.queue == job.queue && row.jobType == job.jobType && row.payload == job.payload && row.key == job.key
                    && row.lockedAt == None && row.lockedBy == None
  {
  }

  /** A batch holds rows of the queue that are pending and due, the earliest due, as many as the
      limit allows. */
  lemma BatchInFull(jobs: seq<Job>, queue: string, now: int, limit: nat, chosen: set<nat>)
    requires IsBatch(jobs, queue, now, limit, chosen)
    ensures |chosen| <= limit
    ensures forall i :: i in chosen ==>
              i < |jobs| && jobs[i].queue == queue && jobs[i].status == Pending && jobs[i].runAt <= now
    ensures forall i: nat :: i < |jobs| && jobs[i].queue == queue && jobs[i].status == Pending && jobs[i].runAt <= now && i !in chosen ==>
              |chosen| == limit && forall j :: j in chosen ==> jobs[j].runAt <= jobs[i].runAt
  {
    var all := ClaimableRows(jobs, queue, now);
    forall i: nat | i < |jobs| && jobs[i].queue == queue && jobs[i].status == Pending && jobs[i].runAt <= now && i !in chosen
      ensures |chosen| == limit && forall j :: j in chosen ==> jobs[j].runAt <= jobs[i].runAt
    {
      assert i in all;
      PassedOver<nat>(all, RunAt(jobs), limit, chosen, i);
      assert forall j :: j in chosen ==> RunAt(jobs)(j) <= RunAt(jobs)(i);
    }
  }
}
