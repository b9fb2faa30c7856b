/** Runs of the pipeline, move by move: that a deposit can be confirmed, that a late quote can
    part an intent from the chain whose depth was met, and that one transaction can leave two
    intents detected. */
module PipelineRuns {
  import opened Wrappers
  import opened SqlOrder
  import opened IntentStates
  import opened IntentStore
  import opened JobTable
  import opened Backoff
  import opened QueueProtocol
  import opened IdempotencyKeys
  import opened JobHandlers
  import opened ConfirmationTrackers
  import opened DepositWatchers
  import opened Pipeline
  import opened PipelineTheorems

  ghost function Steps(c: Config, w: World, moves: seq<Move>): World
    requires |w.queue.hist| == |w.queue.jobs|
    ensures |Steps(c, w, moves).queue.hist| == |Steps(c, w, moves).queue.jobs|
  {
    if moves == [] then w else Advance(c, Steps(c, w, moves[..|moves| - 1]), moves[|moves| - 1])
  }

  lemma OneStep(c: Config, w: World, moves: seq<Move>, m: Move)
    requires |w.queue.hist| == |w.queue.jobs|
    ensures Steps(c, w, moves + [m]) == Advance(c, Steps(c, w, moves), m)
  {
    assert (moves + [m])[..|moves|] == moves;
  }

  lemma {:induction false} StepsReach(c: Config, now: int, before: seq<Move>, moves: seq<Move>)
    ensures Reach(c, now, before + moves) == Steps(c, Reach(c, now, before), moves)
  {
    if moves == [] {
      assert before + moves == before;
    } else {
      var last := |moves| - 1;
      StepsReach(c, now, before, moves[..last]);
      assert (before + moves)[..|before + moves| - 1] == before + moves[..last];
    }
  }

  /** Every job is done, so that the next one is the only one to claim. */
  predicate AllDone(q: System) {
    |q.hist| == |q.jobs| && forall i :: 0 <= i < |q.jobs| ==> q.jobs[i].status == Succeeded
  }

  /** The last job, newly claimed. */
  predicate LastTaken(q: System, before: System, job: NewJob) {
    && |q.hist| == |q.jobs| == |before.jobs| + 1 && q.jobs[..|before.jobs|] == before.jobs && q.now == before.now
    && Holds(q, |before.jobs|, 1)
    && var j := q.jobs[|before.jobs|];
       j.jobType == job.jobType && j.payload == job.payload && j.key == job.key
  }

  const TAKE := 1

  ghost function Taking(o: QueueProtocol.Options, q: System, job: NewJob): System
    requires |q.hist| == |q.jobs|
  {
    Next(o, Next(o, q, Enqueue(job)), ClaimBatch(QUEUE_DEPOSITS, TAKE, "worker", {|q.jobs|}))
  }

  lemma JobTaken(o: QueueProtocol.Options, q: System, job: NewJob)
    requires AllDone(q) && !HasKey(q.jobs, job.key) && job.queue == QUEUE_DEPOSITS && job.delayMs == 0
    ensures LastTaken(Taking(o, q, job), q, job)
  {
    var n := |q.jobs|;
    var r := Next(o, q, Enqueue(job));
    assert r.jobs[..n] == q.jobs;
    assert ClaimableRows(r.jobs, QUEUE_DEPOSITS, r.now) == {n} by {
      assert forall i: nat :: i < n ==> r.jobs[i] == q.jobs[i];
    }
    assert IsBatch(r.jobs, QUEUE_DEPOSITS, r.now, TAKE, {n});
    var t := Next(o, r, ClaimBatch(QUEUE_DEPOSITS, TAKE, "worker", {n}));
    assert t.jobs[..n] == q.jobs;
  }

  lemma JobDone(o: QueueProtocol.Options, q: System, before: System, job: NewJob)
    requires AllDone(before) && LastTaken(q, before, job)
    ensures var t := Next(o, q, Complete(|before.jobs|, 1, false));
            && AllDone(t) && |t.jobs| == |before.jobs| + 1 && t.jobs[..|before.jobs|] == before.jobs
            && t.jobs[|before.jobs|].key == job.key && t.jobs[|before.jobs|].payload == job.payload && t.now == q.now
  {
    var t := Next(o, q, Complete(|before.jobs|, 1, false));
    forall i | 0 <= i < |before.jobs|
      ensures t.jobs[i] == before.jobs[i]
    {
      assert q.jobs[i] == q.jobs[..|before.jobs|][i];
    }
  }

  ghost predicate OthersKept(s: Store, t: Store, id: IntentId) {
    forall o :: o != id ==>
      && (o in t.rows <==> o in s.rows) && (o in s.rows ==> t.rows[o] == s.rows[o])
      && (o in t.logs <==> o in s.logs) && (o in s.logs ==> t.logs[o] == s.logs[o])
  }

  /** The gateway creates, quotes and opens an intent for payment. */
  lemma Opens(c: Config, w: World, id: IntentId, d: Deposit) returns (moves: seq<Move>)
    requires |w.queue.hist| == |w.queue.jobs| && id !in w.store.rows && id !in w.store.logs
    ensures var t := Steps(c, w, moves);
            && t.queue == w.queue && t.facts == w.facts && OthersKept(w.store, t.store, id)
            && id in t.store.rows && id in t.store.logs && t.store.rows[id].state == AwaitingPayment
            && t.store.rows[id].depositChain == Some(d.chain) && t.store.rows[id].depositAddress == Some(d.address)
  {
    var now := w.queue.now;
    moves := FourSteps(c, w, Gateway(Create(id, 1.0, now)), Gateway(UpdateQuote(id, 1.0, now, Some(d), now)),
                       Gateway(Transition(id, QuoteGenerated, NoPayload, now)),
                       Gateway(Transition(id, PaymentAwaited, NoPayload, now)));
  }

  lemma FourSteps(c: Config, w: World, m1: Move, m2: Move, m3: Move, m4: Move) returns (moves: seq<Move>)
    requires |w.queue.hist| == |w.queue.jobs|
    ensures Steps(c, w, moves) == Advance(c, Advance(c, Advance(c, Advance(c, w, m1), m2), m3), m4)
  {
    OneStep(c, w, [], m1);
    OneStep(c, w, [] + [m1], m2);
    OneStep(c, w, [] + [m1] + [m2], m3);
    OneStep(c, w, [] + [m1] + [m2] + [m3], m4);
    moves := [] + [m1] + [m2] + [m3] + [m4];
  }

  lemma StepsJoin(c: Config, w: World, before: seq<Move>, after: seq<Move>)
    requires |w.queue.hist| == |w.queue.jobs|
    ensures Steps(c, w, before + after) == Steps(c, Steps(c, w, before), after)
    decreases |after|
  {
    if after == [] {
      assert before + after == before;
    } else {
      var last := |after| - 1;
      StepsJoin(c, w, before, after[..last]);
      assert (before + after)[..|before + after| - 1] == before + after[..last];
    }
  }

  lemma RecordReads(id: IntentId, chainId: string, t: Transfer, now: int)
    requires id != "" && chainId != "" && t.txHash != ""
    ensures var p := RecordPayload(id, chainId, t, "asset", Number(1.0));
            && IsRecordPayload(p)
            && RecordTx(p, DepositDetected, now) == Transition(id, DepositDetected, Payload(Some(t.txHash), None), now)
  {
    var p := RecordPayload(id, chainId, t, "asset", Number(1.0));
    assert p["intentId"] == Text(id) && p["txHash"] == Text(t.txHash) && p["sourceChain"] == Text(chainId)
        && p["sourceAsset"] == Text("asset") && p["amount"] == Number(1.0);
  }

  function RecordJob(id: IntentId, chainId: string, t: Transfer): NewJob {
    DepositJob(chainId, t, "asset", Number(1.0), Some(id), 5)
  }

  /** A transfer is delivered and becomes a job, and a worker takes it. */
  lemma TransferIsTaken(c: Config, w: World, id: IntentId, chainId: string, t: Transfer) returns (moves: seq<Move>)
    requires AllDone(w.queue) && !HasKey(w.queue.jobs, DepositKey(chainId, t))
    requires IsAwaiting(w.store, chainId, t.to, Some(id))
    ensures var v := Steps(c, w, moves);
            && v.store == w.store && v.facts.sighted == w.facts.sighted
            && LastTaken(v.queue, w.queue, RecordJob(id, chainId, t))
  {
    var seen := TwoSteps(c, w, Deliver(chainId, t), Resolve(chainId, t, Some(id)));
    var enqueue := EnqueueDeposit(chainId, t, Some(id), "asset", Number(1.0), 5);
    var claim := Queue(ClaimBatch(QUEUE_DEPOSITS, TAKE, "worker", {|w.queue.jobs|}));
    OneStep(c, w, seen, enqueue);
    OneStep(c, w, seen + [enqueue], claim);
    moves := seen + [enqueue] + [claim];
    DepositEnqueued(c, Steps(c, w, seen), id, chainId, t);
    QueueMoves(c, Steps(c, w, seen + [enqueue]), claim.step);
    JobTaken(c.options, w.queue, RecordJob(id, chainId, t));
  }

  lemma TwoSteps(c: Config, w: World, m1: Move, m2: Move) returns (moves: seq<Move>)
    requires |w.queue.hist| == |w.queue.jobs|
    ensures Steps(c, w, moves) == Advance(c, Advance(c, w, m1), m2)
  {
    OneStep(c, w, [], m1);
    OneStep(c, w, [] + [m1], m2);
    moves := [] + [m1] + [m2];
  }

  lemma DepositEnqueued(c: Config, w: World, id: IntentId, chainId: string, t: Transfer)
    requires |w.queue.hist| == |w.queue.jobs| && (chainId, t, Some(id)) in w.facts.resolved
    ensures Advance(c, w, EnqueueDeposit(chainId, t, Some(id), "asset", Number(1.0), 5))
         == w.(queue := Next(c.options, w.queue, Enqueue(RecordJob(id, chainId, t))))
  {
  }

  /** The worker that took it records the deposit. */
  lemma TransferIsRecorded(c: Config, w: World, before: System, id: IntentId, chainId: string, t: Transfer) returns (moves: seq<Move>)
    requires AllDone(before) && LastTaken(w.queue, before, RecordJob(id, chainId, t))
    requires id != "" && chainId != "" && t.txHash != ""
    requires id in w.store.rows && id in w.store.logs && w.store.rows[id].state == AwaitingPayment
    ensures var v := Steps(c, w, moves);
            && AllDone(v.queue) && v.facts == w.facts && OthersKept(w.store, v.store, id)
            && |v.queue.jobs| == |before.jobs| + 1 && v.queue.jobs[..|before.jobs|] == before.jobs
            && v.queue.jobs[|before.jobs|].key == DepositKey(chainId, t)
            && id in v.store.rows && v.store.rows[id] == w.store.rows[id].(state := Detected, version := w.store.rows[id].version + 1,
                                                                          updatedAt := w.queue.now)
            && id in v.store.logs && |v.store.logs[id]| == |w.store.logs[id]| + 1
            && RecordsHash(v.store.logs[id][|w.store.logs[id]|], t.txHash)
  {
    RecordReads(id, chainId, t, w.queue.now);
    var record, done := HandleRecord(|before.jobs|, 1, DepositDetected), Queue(Complete(|before.jobs|, 1, false));
    JobDone(c.options, w.queue, before, RecordJob(id, chainId, t));
    OneStep(c, w, [], record);
    OneStep(c, w, [] + [record], done);
    moves := [] + [record] + [done];
  }

  /** An opened intent gets its deposit. */
  lemma Detects(c: Config, w: World, id: IntentId, chainId: string, t: Transfer) returns (moves: seq<Move>)
    requires AllDone(w.queue) && !HasKey(w.queue.jobs, DepositKey(chainId, t))
    requires IsAwaiting(w.store, chainId, t.to, Some(id)) && id in w.store.logs && w.store.rows[id].state == AwaitingPayment
    requires id != "" && chainId != "" && t.txHash != ""
    ensures var v := Steps(c, w, moves);
            && AllDone(v.queue) && v.facts.sighted == w.facts.sighted && OthersKept(w.store, v.store, id)
            && |v.queue.jobs| == |w.queue.jobs| + 1 && v.queue.jobs[..|w.queue.jobs|] == w.queue.jobs
            && v.queue.jobs[|w.queue.jobs|].key == DepositKey(chainId, t)
            && id in v.store.rows && v.store.rows[id].state == Detected && v.store.rows[id].depositChain == Some(chainId)
            && id in v.store.logs && IsDepositHash(v.store.logs[id], t.txHash)
  {
    var taken := TransferIsTaken(c, w, id, chainId, t);
    var recorded := TransferIsRecorded(c, Steps(c, w, taken), w.queue, id, chainId, t);
    StepsJoin(c, w, taken, recorded);
    moves := taken + recorded;
  }

  /** The tracker finds a detected deposit deep enough, */
  lemma DepthIsSeen(c: Config, w: World, id: IntentId, chainId: string, hash: string, n: int) returns (moves: seq<Move>)
    requires |w.queue.hist| == |w.queue.jobs|
    requires id in w.store.rows && w.store.rows[id].state == Detected && w.store.rows[id].depositChain == Some(chainId)
    requires IsDepositHash(LogOf(w.store, id), hash) && chainId in c.depths && n >= c.depths[chainId]
    ensures var v := Steps(c, w, moves);
            && v.store == w.store && v.queue == w.queue && v.facts.sighted == w.facts.sighted + {(id, chainId)}
            && Justified(v.facts, c.depths, id, chainId, hash, n)
  {
    var sight, read, answer := Sight(id, chainId), ReadHash(id, chainId, hash), Answer(Report(chainId, hash, false, n));
    OneStep(c, w, [], sight);
    var v := Steps(c, w, [] + [sight]);
    Sighted(c, w, id, chainId);
    OneStep(c, w, [] + [sight], read);
    HashRead(c, v, id, chainId, hash);
    OneStep(c, w, [] + [sight] + [read], answer);
    moves := [] + [sight] + [read] + [answer];
  }

  lemma Sighted(c: Config, w: World, id: IntentId, chainId: string)
    requires |w.queue.hist| == |w.queue.jobs| && Possible(c, w, Sight(id, chainId))
    ensures Advance(c, w, Sight(id, chainId)) == w.(facts := w.facts.(sighted := w.facts.sighted + {(id, chainId)}))
  {
  }

  lemma HashRead(c: Config, w: World, id: IntentId, chainId: string, hash: string)
    requires |w.queue.hist| == |w.queue.jobs| && Possible(c, w, ReadHash(id, chainId, hash))
    ensures Advance(c, w, ReadHash(id, chainId, hash)) == w.(facts := w.facts.(hashes := w.facts.hashes + {(id, chainId, hash)}))
  {
  }

  /** and a worker takes the confirm job. */
  lemma ConfirmIsTaken(c: Config, w: World, id: IntentId, chainId: string, hash: string, n: int) returns (moves: seq<Move>)
    requires AllDone(w.queue) && !HasKey(w.queue.jobs, ConfirmKey(chainId, hash))
    requires id in w.store.rows && w.store.rows[id].state == Detected && w.store.rows[id].depositChain == Some(chainId)
    requires IsDepositHash(LogOf(w.store, id), hash) && chainId in c.depths && n >= c.depths[chainId]
    ensures var v := Steps(c, w, moves);
            && v.store == w.store && v.facts.sighted == w.facts.sighted + {(id, chainId)}
            && LastTaken(v.queue, w.queue, ConfirmJob(id, chainId, hash, n, 5))
  {
    var seen := DepthIsSeen(c, w, id, chainId, hash, n);
    var enqueue := EnqueueConfirm(id, chainId, hash, n, 5);
    var claim := Queue(ClaimBatch(QUEUE_DEPOSITS, TAKE, "worker", {|w.queue.jobs|}));
    OneStep(c, w, seen, enqueue);
    OneStep(c, w, seen + [enqueue], claim);
    moves := seen + [enqueue] + [claim];
    ConfirmEnqueued(c, Steps(c, w, seen), id, chainId, hash, n);
    QueueMoves(c, Steps(c, w, seen + [enqueue]), claim.step);
    JobTaken(c.options, w.queue, ConfirmJob(id, chainId, hash, n, 5));
  }

  lemma ConfirmEnqueued(c: Config, w: World, id: IntentId, chainId: string, hash: string, n: int)
    requires |w.queue.hist| == |w.queue.jobs| && Justified(w.facts, c.depths, id, chainId, hash, n)
    ensures Advance(c, w, EnqueueConfirm(id, chainId, hash, n, 5))
         == w.(queue := Next(c.options, w.queue, Enqueue(ConfirmJob(id, chainId, hash, n, 5))))
  {
  }

  lemma QueueMoves(c: Config, w: World, step: Step)
    requires |w.queue.hist| == |w.queue.jobs| && !step.Enqueue?
    ensures Advance(c, w, Queue(step)) == w.(queue := Next(c.options, w.queue, step))
  {
  }

  /** The worker that took it confirms the deposit, whatever the row's chain is by then. */
  lemma Confirms(c: Config, w: World, before: System, id: IntentId, chainId: string, hash: string, n: int) returns (move: Move)
    requires LastTaken(w.queue, before, ConfirmJob(id, chainId, hash, n, 5)) && id != ""
    requires id in w.store.rows && id in w.store.logs && w.store.rows[id].state == Detected
    ensures var v := Advance(c, w, move);
            && v.facts == w.facts && id in v.store.rows && v.store.rows[id].depositChain == w.store.rows[id].depositChain
            && id in v.store.logs && |v.store.logs[id]| == |w.store.logs[id]| + 1
            && v.store.logs[id][|w.store.logs[id]|].eventType == ConfirmationReceived
            && v.store.logs[id][|w.store.logs[id]|].payload.confirmations == Some(n as real)
  {
    var p := ConfirmPayload(id, hash, n);
    assert p["intentId"] == Text(id) && p["confirmations"] == Number(n as real);
    ConfirmReads(id, hash, n, w.queue.now);
    move := HandleConfirm(|before.jobs|, 1);
  }

  const INTENT := "intent"
  const HASH := "hash"

  function Details(chainId: string, address: string): Deposit {
    Deposit(address, "asset", chainId)
  }

  function Paying(address: string): Transfer {
    Transfer(HASH, address, "asset", "1")
  }

  /** From nothing to a taken confirm job, on a chain of the configuration. */
  lemma ReadyToConfirm(c: Config, now: int, chainId: string, n: int) returns (moves: seq<Move>, before: System)
    requires chainId != "" && chainId in c.depths && n >= c.depths[chainId]
    ensures var w := Reach(c, now, moves);
            && LastTaken(w.queue, before, ConfirmJob(INTENT, chainId, HASH, n, 5)) && w.facts.sighted == {(INTENT, chainId)}
            && INTENT in w.store.rows && INTENT in w.store.logs && w.store.rows[INTENT].state == Detected
            && w.store.rows[INTENT].depositChain == Some(chainId)
  {
    var t := Paying("address");
    var w0 := Start(now);
    var opening := Opens(c, w0, INTENT, Details(chainId, "address"));
    var w1 := Steps(c, w0, opening);
    var detecting := Detects(c, w1, INTENT, chainId, t);
    var w2 := Steps(c, w1, detecting);
    KeysDiffer(chainId, t);
    var confirming := ConfirmIsTaken(c, w2, INTENT, chainId, HASH, n);
    StepsJoin(c, w0, opening, detecting);
    StepsJoin(c, w0, opening + detecting, confirming);
    moves := opening + detecting + confirming;
    before := w2.queue;
    StepsReach(c, now, [], moves);
    assert [] + moves == moves;
  }

  lemma KeysDiffer(chainId: string, t: Transfer)
    ensures DepositKey(chainId, t) != ConfirmKey(chainId, t.txHash)
  {
    assert DepositParts(chainId, t)[0] == "deposit";
    assert DepositKey(chainId, t)[0] == 'd' && ConfirmKey(chainId, t.txHash)[0] == 'c';
  }

  /** On the deposits queue a deposit can be confirmed, at any depth its chain asks for. */
  lemma ConfirmationReachable(c: Config, now: int, chainId: string, n: int) returns (moves: seq<Move>, k: nat)
    requires chainId != "" && chainId in c.depths && n >= c.depths[chainId]
    ensures var log := LogOf(Reach(c, now, moves).store, INTENT);
            && k < |log| && log[k].eventType == ConfirmationReceived && log[k].payload.confirmations == Some(n as real)
    ensures !Idle(Reach(c, now, moves))
  {
    var before;
    moves, before := ReadyToConfirm(c, now, chainId, n);
    var w := Reach(c, now, moves);
    var confirm := Confirms(c, w, before, INTENT, chainId, HASH, n);
    k := |w.store.logs[INTENT]|;
    assert (moves + [confirm])[..|moves|] == moves;
    moves := moves + [confirm];
  }

  /** A quote that comes between claim and confirmation parts the intent from the chain whose
      depth was met: it is confirmed while its row names any other chain. */
  lemma LateQuoteMisplaces(c: Config, now: int, chainId: string, other: string, n: int) returns (moves: seq<Move>, k: nat)
    requires chainId != "" && chainId in c.depths && n >= c.depths[chainId] && other != chainId
    ensures
      var w := Reach(c, now, moves);
      && INTENT in w.store.rows && w.store.rows[INTENT].depositChain == Some(other)
      && INTENT in w.store.logs && k < |w.store.logs[INTENT]|
      && w.store.logs[INTENT][k].eventType == ConfirmationReceived
      && ConfirmedSafely(c, w, INTENT, k, chainId) && !ConfirmedSafely(c, w, INTENT, k, other)
    ensures !ChainStays(c, now, moves, INTENT)
  {
    var start, before := ReadyToConfirm(c, now, chainId, n);
    var w := Reach(c, now, start);
    var quote := Gateway(UpdateQuote(INTENT, 1.0, now, Some(Details(other, "address")), now));
    assert (start + [quote])[..|start|] == start;
    var v := Reach(c, now, start + [quote]);
    var confirm := Confirms(c, v, before, INTENT, chainId, HASH, n);
    assert (start + [quote] + [confirm])[..|start| + 1] == start + [quote];
    moves, k := start + [quote] + [confirm], |w.store.logs[INTENT]|;
    assert moves[..|start|] == start && moves[|start|] == quote && MovesChain(w, quote, INTENT);
    var chain := ConfirmationSafety(c, now, moves, INTENT, k);
    assert (INTENT, chain) in Reach(c, now, moves).facts.sighted;
  }

  /** One transaction that pays two intents leaves both of them detected with its hash. */
  lemma TwoIntentsOneTransaction(c: Config, now: int, chainId: string) returns (moves: seq<Move>)
    requires chainId != ""
    ensures
      var s := Reach(c, now, moves).store;
      && DetectedOn(s, "a", chainId) && IsDepositHash(s.logs["a"], HASH)
      && DetectedOn(s, "b", chainId) && IsDepositHash(s.logs["b"], HASH)
  {
    var opening := TwoOpen(c, now, chainId);
    var detecting := BothDetected(c, Reach(c, now, opening), chainId);
    StepsReach(c, now, opening, detecting);
    moves := opening + detecting;
  }

  predicate OpenAt(s: Store, id: IntentId, chainId: string, address: string) {
    && id in s.rows && id in s.logs && s.rows[id].state == AwaitingPayment
    && s.rows[id].depositChain == Some(chainId) && s.rows[id].depositAddress == Some(address)
  }

  predicate DetectedOn(s: Store, id: IntentId, chainId: string) {
    id in s.rows && s.rows[id].state == Detected && s.rows[id].depositChain == Some(chainId) && id in s.logs
  }

  lemma TwoOpen(c: Config, now: int, chainId: string) returns (moves: seq<Move>)
    ensures var w := Reach(c, now, moves);
            && w.queue == Empty(now) && w.store.rows.Keys == {"a", "b"}
            && OpenAt(w.store, "a", chainId, "x") && OpenAt(w.store, "b", chainId, "y")
  {
    var w0 := Start(now);
    var first := Opens(c, w0, "a", Details(chainId, "x"));
    var w1 := Steps(c, w0, first);
    var second := Opens(c, w1, "b", Details(chainId, "y"));
    StepsJoin(c, w0, first, second);
    moves := first + second;
    StepsReach(c, now, [], moves);
    assert [] + moves == moves;
    assert forall id :: id in Steps(c, w1, second).store.rows <==> id == "a" || id == "b";
  }

  lemma BothDetected(c: Config, w: World, chainId: string) returns (moves: seq<Move>)
    requires |w.queue.hist| == |w.queue.jobs| == 0 && chainId != "" && w.store.rows.Keys == {"a", "b"}
    requires OpenAt(w.store, "a", chainId, "x") && OpenAt(w.store, "b", chainId, "y")
    ensures var s := Steps(c, w, moves).store;
            && DetectedOn(s, "a", chainId) && IsDepositHash(s.logs["a"], HASH)
            && DetectedOn(s, "b", chainId) && IsDepositHash(s.logs["b"], HASH)
  {
    var first := Detects(c, w, "a", chainId, Paying("x"));
    var v := Steps(c, w, first);
    PaymentsDiffer(chainId);
    assert v.store.rows["b"] == w.store.rows["b"];
    assert forall id :: id in v.store.rows ==> id == "a" || id == "b";
    var second := Detects(c, v, "b", chainId, Paying("y"));
    StepsJoin(c, w, first, second);
    moves := first + second;
  }

  /** From nothing to a detected deposit. */
  lemma DetectedFromNothing(c: Config, now: int, chainId: string) returns (moves: seq<Move>)
    requires chainId != ""
    ensures var w := Reach(c, now, moves);
            && AllDone(w.queue) && |w.queue.jobs| == 1 && w.queue.jobs[0].key == DepositKey(chainId, Paying("address"))
            && w.store.rows.Keys == {INTENT} && w.store.rows[INTENT].state == Detected
            && INTENT in w.store.logs && IsDepositHash(w.store.logs[INTENT], HASH)
  {
    var w0 := Start(now);
    var opening := Opens(c, w0, INTENT, Details(chainId, "address"));
    var w1 := Steps(c, w0, opening);
    var detecting := Detects(c, w1, INTENT, chainId, Paying("address"));
    StepsJoin(c, w0, opening, detecting);
    moves := opening + detecting;
    StepsReach(c, now, [], moves);
    assert [] + moves == moves;
    var w := Steps(c, w1, detecting);
    assert forall id :: id in w.store.rows <==> id == INTENT;
  }

  /** Delivering a credited transfer again files it as unattributed: its intent no longer awaits
      anything, the look-up finds nobody, and the other key is free. */
  lemma RedeliveryAddsRow(c: Config, now: int, chainId: string) returns (before: seq<Move>, again: seq<Move>)
    requires chainId != ""
    ensures
      var t := Paying("address");
      var w, v := Reach(c, now, before), Reach(c, now, before + again);
      && INTENT in w.store.logs && IsDepositHash(w.store.logs[INTENT], t.txHash)
      && HasKey(w.queue.jobs, DepositKey(chainId, t)) && !HasKey(w.queue.jobs, UnattributedKey(chainId, t))
      && (forall i :: 0 <= i < |again| ==> again[i].Deliver? || again[i].Resolve? || again[i].EnqueueDeposit?)
      && (forall i :: 0 <= i < |again| ==> again[i].t == t && again[i].chainId == chainId)
      && |v.queue.jobs| == |w.queue.jobs| + 1
      && HasKey(v.queue.jobs, DepositKey(chainId, t)) && HasKey(v.queue.jobs, UnattributedKey(chainId, t))
  {
    var t := Paying("address");
    before := DetectedFromNothing(c, now, chainId);
    var w := Reach(c, now, before);
    var deliver, resolve := Deliver(chainId, t), Resolve(chainId, t, None);
    var enqueue := EnqueueDeposit(chainId, t, None, "asset", Number(1.0), 5);
    again := [] + [deliver] + [resolve] + [enqueue];
    StepsReach(c, now, before, again);
    OneStep(c, w, [], deliver);
    OneStep(c, w, [] + [deliver], resolve);
    OneStep(c, w, [] + [deliver] + [resolve], enqueue);
    KeysByLookup(chainId, t, Some(INTENT), None);
    NobodyAwaits(w.store, chainId, t.to);
    UnattributedIsEnqueued(c, Steps(c, w, [] + [deliver] + [resolve]), chainId, t);
    InsertedKeys(w.queue.jobs, DepositJob(chainId, t, "asset", Number(1.0), None, 5), w.queue.now, UnattributedKey(chainId, t));
    InsertedKeys(w.queue.jobs, DepositJob(chainId, t, "asset", Number(1.0), None, 5), w.queue.now, DepositKey(chainId, t));
  }

  lemma NobodyAwaits(s: Store, chainId: string, address: string)
    requires forall id :: id in s.rows ==> s.rows[id].state == Detected
    ensures IsAwaiting(s, chainId, address, None)
  {
  }

  lemma UnattributedIsEnqueued(c: Config, w: World, chainId: string, t: Transfer)
    requires |w.queue.hist| == |w.queue.jobs| && (chainId, t, None) in w.facts.resolved
    ensures Advance(c, w, EnqueueDeposit(chainId, t, None, "asset", Number(1.0), 5)).queue.jobs
         == Insert(w.queue.jobs, DepositJob(chainId, t, "asset", Number(1.0), None, 5), w.queue.now)
  {
  }

  lemma PaymentsDiffer(chainId: string)
    ensures DepositKey(chainId, Paying("x")) != DepositKey(chainId, Paying("y"))
  {
    var front := Join(["deposit", chainId, Lower(HASH)]);
    KeyOfPayment(chainId, "x");
    KeyOfPayment(chainId, "y");
    assert Lower("x") == "x" && Lower("y") == "y";
    assert (front + ":" + "x")[|front| + 1] == 'x' && (front + ":" + "y")[|front| + 1] == 'y';
    assert DepositKey(chainId, Paying("x"))[|front| + 1] == 'x';
    assert DepositKey(chainId, Paying("y"))[|front| + 1] == 'y';
  }

  lemma KeyOfPayment(chainId: string, address: string)
    ensures DepositKey(chainId, Paying(address))
         == Join(["deposit", chainId, Lower(HASH)]) + ":" + Lower(address) + ":" + Lower("asset") + ":" + "1"
  {
    var front := ["deposit", chainId, Lower(HASH)];
    JoinSnoc(front, Lower(address));
    JoinSnoc(front + [Lower(address)], Lower("asset"));
    JoinSnoc(front + [Lower(address)] + [Lower("asset")], "1");
    assert DepositParts(chainId, Paying(address)) == front + [Lower(address)] + [Lower("asset")] + ["1"];
  }
}
