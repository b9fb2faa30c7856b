/** The sweep that turns a deep enough deposit into a durable confirm job. */
module ConfirmationTrackers {
  import opened Wrappers
  import opened SqlOrder
  import opened IntentStates
  import opened IntentStore
  import opened JobTable
  import opened JobQueues
  import opened IdempotencyKeys

  const QUEUE_DEPOSITS := "deposits"
  const JOB_DEPOSIT_CONFIRM := "deposit.confirm"
  const JOB_DEPOSIT_RECORD := "deposit.record"
  const JOB_DEPOSIT_UNATTRIBUTED := "deposit.unattributed"

  /** What a chain client answers about a transaction, if it answers. */
  datatype StatusReply = Unreachable | Reply(failed: bool, confirmations: int)

  /** The hash a log's k-th event records, if it is a detection with a usable one. */
  predicate RecordsHash(e: Event, hash: string) {
    e.eventType == DepositDetected && e.payload.txHash == Some(hash) && hash != ""
  }

  /** The hash of the latest detection that has one. */
  ghost predicate IsDepositHash(log: seq<Event>, hash: string) {
    exists k :: 0 <= k < |log| && RecordsHash(log[k], hash)
                && forall l, h :: k < l < |log| ==> !RecordsHash(log[l], h)
  }

  function ConfirmPayload(id: IntentId, txHash: string, confirmations: int): JobPayload {
    map["intentId" := Text(id), "txHash" := Text(txHash), "confirmations" := Number(confirmations as real)]
  }

  function ConfirmJob(id: IntentId, chainId: string, txHash: string, confirmations: int, maxAttempts: int): NewJob {
    NewJob(JOB_DEPOSIT_CONFIRM, ConfirmPayload(id, txHash, confirmations), ConfirmKey(chainId, txHash),
           QUEUE_DEPOSITS, maxAttempts, 0)
  }

  /** The intent's own chain is configured here and reports the deposit of the intent's own log
      as not failed and at the chain's depth. */
  ghost predicate ReadyToConfirm(s: Store, depths: map<string, int>, status: (string, string) -> StatusReply,
                                 id: IntentId, chainId: string, hash: string) {
    && id in s.rows && s.rows[id].depositChain == Some(chainId) && chainId in depths
    && IsDepositHash(LogOf(s, id), hash)
    && var reply := status(chainId, hash);
       reply.Reply? && !reply.failed && reply.confirmations >= depths[chainId]
  }

  /** The same deposit, still short of its chain's depth. */
  ghost predicate NotYet(s: Store, depths: map<string, int>, status: (string, string) -> StatusReply,
                         id: IntentId, chainId: string, hash: string) {
    && id in s.rows && s.rows[id].depositChain == Some(chainId) && chainId in depths
    && IsDepositHash(LogOf(s, id), hash)
    && status(chainId, hash).Reply? && !status(chainId, hash).failed && status(chainId, hash).confirmations < depths[chainId]
  }

  class ConfirmationTracker {
    const repository: IntentRepository
    const queue: JobQueue
    /** The chains enabled on this worker, with their confirmation depths. */
    const depths: map<string, int>
    var sweeps: nat
    var examined: nat
    var confirmed: nat
    var awaiting: nat

    constructor (repository: IntentRepository, queue: JobQueue, depths: map<string, int>)
      ensures this.repository == repository && this.queue == queue && this.depths == depths
      ensures sweeps == examined == confirmed == awaiting == 0
    {
      this.repository, this.queue, this.depths := repository, queue, depths;
      sweeps, examined, confirmed, awaiting := 0, 0, 0, 0;
    }

    method FindDepositTxHash(id: IntentId) returns (r: Option<string>)
      ensures r.Some? ==> IsDepositHash(LogOf(repository.Value(), id), r.value)
      ensures r.None? ==> forall hash :: !IsDepositHash(LogOf(repository.Value(), id), hash)
    {
      var events := repository.GetEvents(id);
      var i := |events|;
      while i > 0
        invariant 0 <= i <= |events|
        invariant forall l, h :: i <= l < |events| ==> !RecordsHash(events[l], h)
      {
        i := i - 1;
        if events[i].eventType == DepositDetected {
          var hash := events[i].payload.txHash;
          if hash.Some? && hash.value != "" {
            assert RecordsHash(events[i], hash.value);
            return Some(hash.value);
          }
        }
      }
      return None;
    }

    /** Examines one DETECTED intent. */
    method Examine(id: IntentId, status: (string, string) -> StatusReply, now: int)
      requires id in repository.rows
      modifies this, queue.db
      ensures sweeps == old(sweeps) && examined == old(examined) + 1
      ensures (forall chainId, hash :: !ReadyToConfirm(repository.Value(), depths, status, id, chainId, hash)) ==>
                queue.db.jobs == old(queue.db.jobs) && confirmed == old(confirmed)
      ensures forall chainId, hash :: ReadyToConfirm(repository.Value(), depths, status, id, chainId, hash) ==>
                && queue.db.jobs == Insert(old(queue.db.jobs),
                                           ConfirmJob(id, chainId, hash, status(chainId, hash).confirmations,
                                                      queue.defaultMaxAttempts), now)
                && confirmed == old(confirmed) + 1
      ensures awaiting == old(awaiting) || awaiting == old(awaiting) + 1
      ensures forall chainId, hash :: NotYet(repository.Value(), depths, status, id, chainId, hash) ==> awaiting == old(awaiting) + 1
      ensures (forall chainId, hash :: !NotYet(repository.Value(), depths, status, id, chainId, hash)) ==> awaiting == old(awaiting)
    {
      examined := examined + 1;
      var intent := repository.FindById(id);
      if intent.None? || intent.value.depositChain.None? || intent.value.depositChain.value !in depths {
        return;
      }
      var chainId := intent.value.depositChain.value;
      var txHash := FindDepositTxHash(id);
      if txHash.None? {
        return;
      }
      OneDepositHash(LogOf(repository.Value(), id), txHash.value);
      var reply := status(chainId, txHash.value);
      if reply.Unreachable? || reply.failed {
        return;
      }
      if reply.confirmations < depths[chainId] {
        awaiting := awaiting + 1;
        assert NotYet(repository.Value(), depths, status, id, chainId, txHash.value);
        return;
      }
      var _ := queue.Enqueue(EnqueueOptions(JOB_DEPOSIT_CONFIRM, ConfirmPayload(id, txHash.value, reply.confirmations),
                                            ConfirmKey(chainId, txHash.value), Some(QUEUE_DEPOSITS), None, None), now);
      confirmed := confirmed + 1;
      assert ReadyToConfirm(repository.Value(), depths, status, id, chainId, txHash.value);
    }

    /** One sweep: it adds confirm jobs for ready intents and nothing else, and afterwards every
        ready intent it examined has a job under its transaction's key. */
    method RunOnce(batchSize: nat, status: (string, string) -> StatusReply, now: int)
      returns (count: nat, ghost ids: seq<IntentId>, ghost detected: set<IntentId>)
      modifies this, queue.db
      ensures forall id :: id in ids <==> id in detected
      ensures IsFirst((set id | id in repository.rows && repository.rows[id].state == Detected),
                      UpdatedAt(repository.rows), batchSize, detected)
      ensures count == |detected| && sweeps == old(sweeps) + 1 && examined == old(examined) + count
      ensures SweptUpTo(repository.Value(), depths, status, ids, old(queue.db.jobs), queue.db.jobs)
    {
      ghost var before := queue.db.jobs;
      ghost var s := repository.Value();
      var found;
      found, detected := repository.FindByState(Detected, batchSize);
      ids := found;
      sweeps := sweeps + 1;
      for i := 0 to |found|
        invariant sweeps == old(sweeps) + 1 && examined == old(examined) + i
        invariant SweptUpTo(s, depths, status, ids[..i], before, queue.db.jobs)
      {
        ghost var jobs := queue.db.jobs;
        Examine(found[i], status, now);
        SweepStep(s, depths, status, ids[i], jobs, queue.db.jobs, queue.defaultMaxAttempts, now);
        SweepOneMore(s, depths, status, ids[..i], ids[i], before, jobs, queue.db.jobs);
        assert ids[..i + 1] == ids[..i] + [ids[i]];
      }
      count := |found|;
      assert ids[..|ids|] == ids;
    }
  }

  /** What a sweep has added once it has examined these intents. */
  ghost predicate SweptUpTo(s: Store, depths: map<string, int>, status: (string, string) -> StatusReply,
                            ids: seq<IntentId>, before: seq<Job>, jobs: seq<Job>) {
    && before <= jobs
    && (forall k :: |before| <= k < |jobs| ==> ConfirmJobIsJustified(jobs[k], s, depths, status, ids))
    && (forall id, chainId, hash :: id in ids && ReadyToConfirm(s, depths, status, id, chainId, hash) ==>
          HasKey(jobs, ConfirmKey(chainId, hash)))
  }

  lemma SweepOneMore(s: Store, depths: map<string, int>, status: (string, string) -> StatusReply,
                     ids: seq<IntentId>, id: IntentId, before: seq<Job>, jobs: seq<Job>, after: seq<Job>)
    requires SweptUpTo(s, depths, status, ids, before, jobs)
    requires jobs <= after && |after| <= |jobs| + 1
    requires forall key :: HasKey(jobs, key) ==> HasKey(after, key)
    requires |after| > |jobs| ==> ConfirmJobIsJustified(after[|jobs|], s, depths, status, [id])
    requires forall chainId, hash :: ReadyToConfirm(s, depths, status, id, chainId, hash) ==>
               HasKey(after, ConfirmKey(chainId, hash))
    ensures SweptUpTo(s, depths, status, ids + [id], before, after)
  {
    forall k | |before| <= k < |after|
      ensures ConfirmJobIsJustified(after[k], s, depths, status, ids + [id])
    {
      if k < |jobs| {
        assert ConfirmJobIsJustified(jobs[k], s, depths, status, ids);
      }
    }
  }

  /** A confirm job of the sweep carries what the chain reported about a ready intent. */
  ghost predicate ConfirmJobIsJustified(job: Job, s: Store, depths: map<string, int>,
                                        status: (string, string) -> StatusReply, ids: seq<IntentId>) {
    exists id, chainId, hash ::
      && id in ids && ReadyToConfirm(s, depths, status, id, chainId, hash)
      && job.jobType == JOB_DEPOSIT_CONFIRM && job.queue == QUEUE_DEPOSITS && job.key == ConfirmKey(chainId, hash)
      && job.payload == ConfirmPayload(id, hash, status(chainId, hash).confirmations)
  }

  /** A later detection with a hash takes over; any other event leaves the hash as it was. */
  lemma LatestHashCounts(log: seq<Event>, e: Event, hash: string)
    ensures IsDepositHash(log + [e], hash) <==>
            if e.eventType == DepositDetected && e.payload.txHash.Some? && e.payload.txHash.value != ""
            then hash == e.payload.txHash.value else IsDepositHash(log, hash)
  {
    var longer := log + [e];
    assert longer[|log|] == e && forall k :: 0 <= k < |log| ==> longer[k] == log[k];
    if IsDepositHash(log, hash) && !(e.eventType == DepositDetected && e.payload.txHash.Some? && e.payload.txHash.value != "") {
      var k :| 0 <= k < |log| && RecordsHash(log[k], hash) && forall l, h :: k < l < |log| ==> !RecordsHash(log[l], h);
      assert RecordsHash(longer[k], hash);
    }
    if RecordsHash(e, hash) {
      assert RecordsHash(longer[|log|], hash);
    }
    if IsDepositHash(longer, hash) {
      var k :| 0 <= k < |longer| && RecordsHash(longer[k], hash) && forall l, h :: k < l < |longer| ==> !RecordsHash(longer[l], h);
      if k < |log| {
        assert RecordsHash(log[k], hash);
        assert e.payload.txHash.Some? ==> !RecordsHash(longer[|log|], e.payload.txHash.value);
        assert forall l, h :: k < l < |log| ==> !RecordsHash(log[l], h) by {
          forall l, h | k < l < |log| ensures !RecordsHash(log[l], h) { assert !RecordsHash(longer[l], h); }
        }
      }
    }
  }

  lemma OneDepositHash(log: seq<Event>, hash: string)
    requires IsDepositHash(log, hash)
    ensures forall other :: IsDepositHash(log, other) ==> other == hash
  {
  }

  lemma SweepStep(s: Store, depths: map<string, int>, status: (string, string) -> StatusReply, id: IntentId,
                  before: seq<Job>, after: seq<Job>, maxAttempts: int, now: int)
    requires (forall chainId, hash :: !ReadyToConfirm(s, depths, status, id, chainId, hash)) ==> after == before
    requires forall chainId, hash :: ReadyToConfirm(s, depths, status, id, chainId, hash) ==>
               after == Insert(before, ConfirmJob(id, chainId, hash, status(chainId, hash).confirmations, maxAttempts), now)
    ensures before <= after && |after| <= |before| + 1
    ensures forall key :: HasKey(before, key) ==> HasKey(after, key)
    ensures |after| > |before| ==> ConfirmJobIsJustified(after[|before|], s, depths, status, [id])
    ensures forall chainId, hash :: ReadyToConfirm(s, depths, status, id, chainId, hash) ==>
              HasKey(after, ConfirmKey(chainId, hash))
  {
    forall chainId, hash | ReadyToConfirm(s, depths, status, id, chainId, hash)
      ensures HasKey(after, ConfirmKey(chainId, hash))
      ensures before <= after && |after| <= |before| + 1
    {
      if !HasKey(before, ConfirmKey(chainId, hash)) {
        assert after[|before|].key == ConfirmKey(chainId, hash);
      }
    }
    forall key | HasKey(before, key)
      ensures HasKey(after, key)
    {
      var k :| 0 <= k < |before| && before[k].key == key;
      assert after[k].key == key;
    }
  }
}
