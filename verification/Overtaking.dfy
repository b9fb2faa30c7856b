/** Bounded overtaking: how many batches of its queue can pass a job that is already due. */
module Overtaking {
  import opened SqlOrder
  import opened JobTable
  import opened QueueProtocol

  /** Pending, and due strictly before the present instant. */
  predicate Waits(s: System, id: nat) {
    id < |s.jobs| && s.jobs[id].status == Pending && s.jobs[id].runAt < s.now
  }

  /** The other rows a claim of the same queue may prefer. */
  function Ahead(s: System, id: nat): set<nat>
    requires id < |s.jobs|
  {
    set i: nat | i < |s.jobs| && i != id
                 && s.jobs[i].queue == s.jobs[id].queue && s.jobs[i].status == Pending
                 && s.jobs[i].runAt <= s.jobs[id].runAt
  }

  /** No report of an attempt at this very job, and no job enqueued or retried into the past. */
  predicate Quiet(step: Step, id: nat) {
    && (step.Complete? || step.Fail? || step.FailAfter? ==> step.id != id)
    && (step.Enqueue? ==> step.job.delayMs >= 0)
    && (step.FailAfter? ==> step.delayMs >= 0)
  }

  ghost predicate Takes(o: Options, s: System, step: Step, id: nat) {
    step.ClaimBatch? && Enabled(o, s, step) && id in step.chosen
  }

  ghost predicate Taken(o: Options, s: System, steps: seq<Step>, id: nat)
    requires |s.hist| == |s.jobs|
    decreases |steps|
  {
    steps != [] && (Takes(o, s, steps[0], id) || Taken(o, Next(o, s, steps[0]), steps[1..], id))
  }

  /** The rows the claims of a queue had room for, over a run. */
  ghost function Room(o: Options, s: System, steps: seq<Step>, queue: string): nat
    requires |s.hist| == |s.jobs|
    decreases |steps|
  {
    if steps == [] then 0 else
    var rest := Room(o, Next(o, s, steps[0]), steps[1..], queue);
    if steps[0].ClaimBatch? && Enabled(o, s, steps[0]) && steps[0].queue == queue
    then steps[0].limit + rest else rest
  }

  /** No step puts a job ahead, and the waiting row itself stays as it is. */
  lemma NobodyJumpsAhead(o: Options, s: System, step: Step, id: nat)
    requires |s.hist| == |s.jobs| && Waits(s, id) && Quiet(step, id) && !Takes(o, s, step, id)
    ensures Waits(Next(o, s, step), id) && Next(o, s, step).jobs[id] == s.jobs[id]
    ensures Ahead(Next(o, s, step), id) <= Ahead(s, id)
  {
  }

  /** A new job gets ahead exactly if it is enqueued into the past of the one waiting. */
  lemma EnqueueJumpsAhead(o: Options, s: System, job: NewJob, id: nat)
    requires |s.hist| == |s.jobs| && Waits(s, id)
    ensures Ahead(Next(o, s, Enqueue(job)), id) != Ahead(s, id)
            <==> !HasKey(s.jobs, job.key) && job.queue == s.jobs[id].queue && s.now + job.delayMs <= s.jobs[id].runAt
  {
    var t := Next(o, s, Enqueue(job));
    assert |s.jobs| !in Ahead(s, id);
    assert forall i: nat :: i < |s.jobs| ==> (i in Ahead(t, id) <==> i in Ahead(s, id));
  }

  /** A failed attempt with a delay of the caller's gets ahead exactly if it may be retried and the
      delay reaches into the past of the one waiting. */
  lemma RetryJumpsAhead(o: Options, s: System, other: nat, attempt: nat, delayMs: int, id: nat)
    requires |s.hist| == |s.jobs| && Waits(s, id) && other != id && Holds(s, other, attempt)
    ensures var t := Next(o, s, FailAfter(other, attempt, delayMs));
            && (other in Ahead(t, id) <==>
                  attempt < s.jobs[other].maxAttempts && s.jobs[other].queue == s.jobs[id].queue
                  && s.now + delayMs <= s.jobs[id].runAt)
            && Ahead(t, id) - {other} == Ahead(s, id) - {other}
  {
  }

  /** A batch of the queue that leaves the job waiting takes its whole room from those ahead. */
  lemma BatchTakesFromAhead(o: Options, s: System, step: Step, id: nat)
    requires |s.hist| == |s.jobs| && Waits(s, id)
    requires step.ClaimBatch? && Enabled(o, s, step) && step.queue == s.jobs[id].queue && id !in step.chosen
    ensures step.chosen <= Ahead(s, id) && |step.chosen| == step.limit
    ensures Ahead(Next(o, s, step), id) == Ahead(s, id) - step.chosen
  {
    PassedOver(ClaimableRows(s.jobs, step.queue, s.now), RunAt(s.jobs), step.limit, step.chosen, id);
    assert forall i :: i in step.chosen ==> RunAt(s.jobs)(i) <= RunAt(s.jobs)(id);
  }

  /** A job that no claim took has seen claims with room for at most the jobs ahead of it. */
  lemma {:induction false} RoomBounded(o: Options, s: System, steps: seq<Step>, id: nat)
    requires |s.hist| == |s.jobs| && Waits(s, id)
    requires forall k :: 0 <= k < |steps| ==> Quiet(steps[k], id)
    requires !Taken(o, s, steps, id)
    ensures Room(o, s, steps, s.jobs[id].queue) <= |Ahead(s, id)|
    decreases |steps|
  {
    if steps != [] {
      var t := Next(o, s, steps[0]);
      NobodyJumpsAhead(o, s, steps[0], id);
      RoomBounded(o, t, steps[1..], id);
      if steps[0].ClaimBatch? && Enabled(o, s, steps[0]) && steps[0].queue == s.jobs[id].queue {
        BatchTakesFromAhead(o, s, steps[0], id);
        assert |Ahead(s, id) - steps[0].chosen| == |Ahead(s, id)| - |steps[0].chosen|;
      } else {
        Subset(Ahead(t, id), Ahead(s, id));
      }
    }
  }

  lemma Subset(a: set<nat>, b: set<nat>)
    requires a <= b
    ensures |a| <= |b|
  {
    assert |b - a| == |b| - |a|;
  }

  /** How many claims of a queue a run holds. */
  ghost function Batches(o: Options, s: System, steps: seq<Step>, queue: string): nat
    requires |s.hist| == |s.jobs|
    decreases |steps|
  {
    if steps == [] then 0 else
    var rest := Batches(o, Next(o, s, steps[0]), steps[1..], queue);
    if steps[0].ClaimBatch? && Enabled(o, s, steps[0]) && steps[0].queue == queue then 1 + rest else rest
  }

  lemma {:induction false} RoomOfBatches(o: Options, s: System, steps: seq<Step>, queue: string, limit: nat)
    requires |s.hist| == |s.jobs|
    requires forall k :: 0 <= k < |steps| && steps[k].ClaimBatch? ==> steps[k].limit == limit
    ensures Room(o, s, steps, queue) == limit * Batches(o, s, steps, queue)
    decreases |steps|
  {
    if steps != [] {
      var t := Next(o, s, steps[0]);
      var rest := steps[1..];
      assert forall k :: 0 <= k < |rest| ==> rest[k] == steps[k + 1];
      RoomOfBatches(o, t, rest, queue, limit);
      Distribute(limit, Batches(o, t, rest, queue));
    }
  }

  lemma Distribute(a: nat, b: nat)
    ensures a * (1 + b) == a + a * b
  {
  }

  lemma FullBatches(ahead: nat, limit: nat, batches: nat)
    requires limit >= 1 && batches >= ahead / limit + 1
    ensures limit * batches > ahead
  {
    assert limit * batches >= limit * (ahead / limit + 1);
    assert limit * (ahead / limit) + ahead % limit == ahead;
  }

  /** A due job is claimed within floor(ahead / limit) + 1 batches of its queue. */
  lemma ClaimedWithin(o: Options, s: System, steps: seq<Step>, id: nat, limit: nat)
    requires |s.hist| == |s.jobs| && Waits(s, id) && limit >= 1
    requires forall k :: 0 <= k < |steps| ==> Quiet(steps[k], id)
    requires forall k :: 0 <= k < |steps| && steps[k].ClaimBatch? ==> steps[k].limit == limit
    requires Batches(o, s, steps, s.jobs[id].queue) >= |Ahead(s, id)| / limit + 1
    ensures Taken(o, s, steps, id)
  {
    FullBatches(|Ahead(s, id)|, limit, Batches(o, s, steps, s.jobs[id].queue));
    RoomOfBatches(o, s, steps, s.jobs[id].queue, limit);
    if !Taken(o, s, steps, id) {
      RoomBounded(o, s, steps, id);
    }
  }
}
