/** The deposit pipeline as one system: chain clients, watcher, queue, workers, gateway and
    confirmation tracker, their database statements interleaved in any order. A procedure of
    several statements is cut at each of them; what it read earlier is a recorded fact that may
    be used at any later time, so every interleaving, crash, repeat and late worker is covered. */
module Pipeline {
  import opened Wrappers
  import opened IntentStates
  import opened IntentStore
  import opened IntentService
  import opened JobTable
  import opened Backoff
  import opened QueueProtocol
  import opened IdempotencyKeys
  import opened JobHandlers
  import opened ConfirmationTrackers
  import opened DepositWatchers

  datatype Report = Report(chainId: string, txHash: string, failed: bool, confirmations: int)

  /** What has been observed so far. */
  datatype Facts = Facts(
    /** Transfers a chain client delivered, on which chain. */
    delivered: set<(string, Transfer)>,
    /** Delivered transfers with the intent found awaiting at their address, if any. */
    resolved: set<(string, Transfer, Option<IntentId>)>,
    /** Intents the tracker found DETECTED, with the deposit chain it read. */
    sighted: set<(IntentId, string)>,
    /** Sighted intents with the deposit hash read from their log. */
    hashes: set<(IntentId, string, string)>,
    /** Transaction statuses the chain clients reported. */
    reports: set<Report>)

  datatype World = World(store: Store, queue: System, facts: Facts)

  datatype Config = Config(options: QueueProtocol.Options, depths: map<string, int>)

  datatype Move =
    | Deliver(chainId: string, t: Transfer)
    | Resolve(chainId: string, t: Transfer, intent: Option<IntentId>)
    | EnqueueDeposit(chainId: string, t: Transfer, intent: Option<IntentId>, asset: string, amount: Field, maxAttempts: int)
      /** Any transaction of the gateway, which neither detects nor confirms deposits. */
    | Gateway(tx: Tx)
      /** A worker holding a record job commits one of the events recordDeposit may write. */
    | HandleRecord(job: nat, attempt: nat, event: EventType)
    | HandleConfirm(job: nat, attempt: nat)
    | Sight(id: IntentId, chainId: string)
    | ReadHash(id: IntentId, chainId: string, hash: string)
    | Answer(report: Report)
    | EnqueueConfirm(id: IntentId, chainId: string, hash: string, confirmations: int, maxAttempts: int)
    | Queue(step: Step)

  const DepositEvents := {PaymentAwaited, QuoteExpired, UnderpaymentDetected, OverpaymentDetected, DepositDetected}

  ghost predicate HoldsJob(w: World, job: nat, attempt: nat, jobType: string) {
    Holds(w.queue, job, attempt) && w.queue.jobs[job].jobType == jobType
  }

  /** The deposit was observed at the depth its chain asks for, as this intent's own. */
  predicate Justified(f: Facts, depths: map<string, int>, id: IntentId, chainId: string, hash: string, confirmations: int) {
    && (id, chainId, hash) in f.hashes
    && Report(chainId, hash, false, confirmations) in f.reports
    && chainId in depths && confirmations >= depths[chainId]
  }

  ghost predicate Possible(c: Config, w: World, m: Move) {
    match m
    case Deliver(_, _) => true
    case Resolve(chainId, t, intent) => (chainId, t) in w.facts.delivered && IsAwaiting(w.store, chainId, t.to, intent)
    case EnqueueDeposit(chainId, t, intent, _, _, _) => (chainId, t, intent) in w.facts.resolved
    case Gateway(tx) => tx.Transition? ==> tx.eventType !in {DepositDetected, ConfirmationReceived}
    case HandleRecord(job, attempt, event) =>
      && HoldsJob(w, job, attempt, JOB_DEPOSIT_RECORD)
      && IsRecordPayload(w.queue.jobs[job].payload) && event in DepositEvents
    case HandleConfirm(job, attempt) =>
      HoldsJob(w, job, attempt, JOB_DEPOSIT_CONFIRM) && IsConfirmPayload(w.queue.jobs[job].payload)
    case Sight(id, chainId) =>
      && id in w.store.rows && w.store.rows[id].state == Detected
      && w.store.rows[id].depositChain == Some(chainId) && chainId in c.depths
    case ReadHash(id, chainId, hash) => (id, chainId) in w.facts.sighted && IsDepositHash(LogOf(w.store, id), hash)
    case Answer(_) => true
    case EnqueueConfirm(id, chainId, hash, confirmations, _) => Justified(w.facts, c.depths, id, chainId, hash, confirmations)
    case Queue(step) => !step.Enqueue?
  }

  function RecordTx(p: JobPayload, event: EventType, now: int): Tx
    requires IsRecordPayload(p)
  {
    Transition(RequireString(p, "intentId").value, event,
               if event in {DepositDetected, UnderpaymentDetected, OverpaymentDetected}
               then Payload(RequireString(p, "txHash"), None) else NoPayload, now)
  }

  /** Each commit of the record handler, whatever row it finds, is a move of this system. */
  lemma RecordCommitIsMove(row: Intent, p: JobPayload, now: int, webhookOk: bool, k: nat) returns (event: EventType)
    requires IsRecordPayload(p)
    requires k < |DepositTxs(row, RequireString(p, "intentId").value, CallOf(p, now, webhookOk))|
    ensures event in DepositEvents
    ensures DepositTxs(row, RequireString(p, "intentId").value, CallOf(p, now, webhookOk))[k] == RecordTx(p, event, now)
  {
    event := DepositTxs(row, RequireString(p, "intentId").value, CallOf(p, now, webhookOk))[k].eventType;
  }

  /** From the watcher's job to the log: a transfer within a percent of the target, in time, is
      detected under its own hash by the job that the watcher makes of it. */
  lemma WatchedPaymentIsDetected(s: Store, id: IntentId, chainId: string, t: Transfer, asset: string, amount: real,
                                 now: int, webhookOk: bool)
    requires id != "" && chainId != "" && t.txHash != "" && asset != ""
    requires id in s.rows && id in s.logs && s.rows[id].state in {IntentStates.Quoted, AwaitingPayment}
    requires Unexpired(s.rows[id], now) && s.rows[id].target * 0.99 <= amount <= s.rows[id].target * 1.01
    ensures
      var p := RecordPayload(id, chainId, t, asset, Number(amount));
      && IsRecordPayload(p) && RequireString(p, "intentId") == Some(id)
      && MovedTo(s, AfterCall(s, id, CallOf(p, now, webhookOk)), id, Detected, DepositDetected, Payload(Some(t.txHash), None))
      && (Returns(s.rows[id], CallOf(p, now, webhookOk)) <==> webhookOk)
  {
    PayloadReads(id, chainId, t, asset, amount, now, webhookOk);
    GoodPaymentIsDetected(s, id, DepositCall(t.txHash, amount, now, webhookOk));
  }

  lemma PayloadReads(id: IntentId, chainId: string, t: Transfer, asset: string, amount: real, now: int, webhookOk: bool)
    requires id != "" && chainId != "" && t.txHash != "" && asset != ""
    ensures var p := RecordPayload(id, chainId, t, asset, Number(amount));
            && IsRecordPayload(p) && RequireString(p, "intentId") == Some(id)
            && CallOf(p, now, webhookOk) == DepositCall(t.txHash, amount, now, webhookOk)
  {
    var p := RecordPayload(id, chainId, t, asset, Number(amount));
    assert p["intentId"] == Text(id) && p["txHash"] == Text(t.txHash) && p["sourceChain"] == Text(chainId);
    assert p["sourceAsset"] == Text(asset) && p["amount"] == Number(amount);
  }

  /** The tracker enqueues exactly what the pipeline asks of a confirmation: once the row, the hash
      and the chain's answer have been read, its test is the one of depth and failure. */
  lemma ReadyIsJustified(s: Store, f: Facts, depths: map<string, int>, status: (string, string) -> StatusReply,
                         id: IntentId, chainId: string, hash: string)
    requires id in s.rows && s.rows[id].depositChain == Some(chainId) && IsDepositHash(LogOf(s, id), hash)
    requires (id, chainId, hash) in f.hashes && chainId in depths
    ensures ReadyToConfirm(s, depths, status, id, chainId, hash) <==>
            && status(chainId, hash).Reply? && !status(chainId, hash).failed
            && Justified(f.(reports := f.reports + {Report(chainId, hash, false, status(chainId, hash).confirmations)}), depths,
                         id, chainId, hash, status(chainId, hash).confirmations)
  {
  }

  ghost function Outcome(c: Config, w: World, m: Move): World
    requires |w.queue.hist| == |w.queue.jobs| && Possible(c, w, m)
    ensures |Outcome(c, w, m).queue.hist| == |Outcome(c, w, m).queue.jobs|
  {
    var f := w.facts;
    match m
    case Deliver(chainId, t) => w.(facts := f.(delivered := f.delivered + {(chainId, t)}))
    case Resolve(chainId, t, intent) => w.(facts := f.(resolved := f.resolved + {(chainId, t, intent)}))
    case EnqueueDeposit(chainId, t, intent, asset, amount, maxAttempts) =>
      w.(queue := Next(c.options, w.queue, Enqueue(DepositJob(chainId, t, asset, amount, intent, maxAttempts))))
    case Gateway(tx) => w.(store := After(w.store, tx))
    case HandleRecord(job, _, event) =>
      w.(store := After(w.store, RecordTx(w.queue.jobs[job].payload, event, w.queue.now)))
    case HandleConfirm(job, _) => w.(store := After(w.store, ConfirmTx(w.queue.jobs[job].payload, w.queue.now)))
    case Sight(id, chainId) => w.(facts := f.(sighted := f.sighted + {(id, chainId)}))
    case ReadHash(id, chainId, hash) => w.(facts := f.(hashes := f.hashes + {(id, chainId, hash)}))
    case Answer(report) => w.(facts := f.(reports := f.reports + {report}))
    case EnqueueConfirm(id, chainId, hash, confirmations, maxAttempts) =>
      w.(queue := Next(c.options, w.queue, Enqueue(ConfirmJob(id, chainId, hash, confirmations, maxAttempts))))
    case Queue(step) => w.(queue := Next(c.options, w.queue, step))
  }

  ghost function Advance(c: Config, w: World, m: Move): World
    requires |w.queue.hist| == |w.queue.jobs|
    ensures |Advance(c, w, m).queue.hist| == |Advance(c, w, m).queue.jobs|
  {
    if Possible(c, w, m) then Outcome(c, w, m) else w
  }

  function Start(now: int): World {
    World(EmptyStore, Empty(now), Facts({}, {}, {}, {}, {}))
  }

  ghost function Reach(c: Config, now: int, moves: seq<Move>): World
    ensures |Reach(c, now, moves).queue.hist| == |Reach(c, now, moves).queue.jobs|
  {
    if moves == [] then Start(now)
    else Advance(c, Reach(c, now, moves[..|moves| - 1]), moves[|moves| - 1])
  }

  // What every reachable world satisfies.

  predicate Extends(f: Facts, g: Facts) {
    f.delivered <= g.delivered && f.resolved <= g.resolved && f.sighted <= g.sighted
    && f.hashes <= g.hashes && f.reports <= g.reports
  }

  ghost predicate ConfirmJobOk(f: Facts, depths: map<string, int>, job: Job) {
    exists id, chainId, hash, n ::
      && Justified(f, depths, id, chainId, hash, n)
      && job.payload == ConfirmPayload(id, hash, n) && job.key == ConfirmKey(chainId, hash)
  }

  ghost predicate RecordJobOk(f: Facts, job: Job) {
    exists id, chainId, t, asset, amount ::
      (chainId, t, Some(id)) in f.resolved && job.payload == RecordPayload(id, chainId, t, asset, amount)
  }

  ghost predicate JobTraced(f: Facts, depths: map<string, int>, job: Job) {
    && (job.jobType == JOB_DEPOSIT_CONFIRM ==> ConfirmJobOk(f, depths, job))
    && (job.jobType == JOB_DEPOSIT_RECORD ==> RecordJobOk(f, job))
  }

  ghost predicate ConfirmationOk(f: Facts, depths: map<string, int>, id: IntentId, e: Event) {
    exists chainId, hash, n :: Justified(f, depths, id, chainId, hash, n) && e.payload.confirmations == Some(n as real)
  }

  ghost predicate DetectionOk(f: Facts, id: IntentId, e: Event) {
    exists chainId, t :: (chainId, t, Some(id)) in f.resolved && e.payload.txHash == Some(t.txHash)
  }

  ghost predicate EventTraced(f: Facts, depths: map<string, int>, id: IntentId, e: Event) {
    && (e.eventType == ConfirmationReceived ==> ConfirmationOk(f, depths, id, e))
    && (e.eventType == DepositDetected ==> DetectionOk(f, id, e))
  }

  ghost predicate Logged(s: Store, id: IntentId, hash: string) {
    exists k :: 0 <= k < |LogOf(s, id)| && RecordsHash(LogOf(s, id)[k], hash)
  }

  ghost predicate FactsOk(f: Facts, s: Store) {
    && (forall r :: r in f.resolved ==> (r.0, r.1) in f.delivered)
    && (forall h :: h in f.hashes ==> (h.0, h.1) in f.sighted && Logged(s, h.0, h.2))
  }

  ghost predicate JobsTraced(c: Config, w: World) {
    forall i :: 0 <= i < |w.queue.jobs| ==> JobTraced(w.facts, c.depths, w.queue.jobs[i])
  }

  ghost predicate LogsTraced(c: Config, w: World) {
    forall id, k :: id in w.store.logs && 0 <= k < |w.store.logs[id]| ==>
      EventTraced(w.facts, c.depths, id, w.store.logs[id][k])
  }

  ghost predicate Sound(c: Config, w: World) {
    && WellKept(c.options, w.queue) && Consistent(w.store)
    && JobsTraced(c, w) && LogsTraced(c, w) && FactsOk(w.facts, w.store)
  }

  lemma MoreFactsKeepJob(f: Facts, g: Facts, depths: map<string, int>, job: Job)
    requires Extends(f, g) && JobTraced(f, depths, job)
    ensures JobTraced(g, depths, job)
  {
    if job.jobType == JOB_DEPOSIT_CONFIRM {
      var id, chainId, hash, n :| Justified(f, depths, id, chainId, hash, n)
                                  && job.payload == ConfirmPayload(id, hash, n) && job.key == ConfirmKey(chainId, hash);
      assert Justified(g, depths, id, chainId, hash, n);
    }
  }

  lemma MoreFactsKeepEvent(f: Facts, g: Facts, depths: map<string, int>, id: IntentId, e: Event)
    requires Extends(f, g) && EventTraced(f, depths, id, e)
    ensures EventTraced(g, depths, id, e)
  {
    if e.eventType == ConfirmationReceived {
      var chainId, hash, n :| Justified(f, depths, id, chainId, hash, n) && e.payload.confirmations == Some(n as real);
      assert Justified(g, depths, id, chainId, hash, n);
    }
  }

  lemma ObservingKeepsSound(c: Config, w: World, m: Move)
    requires Sound(c, w) && Possible(c, w, m)
    requires m.Deliver? || m.Resolve? || m.Sight? || m.ReadHash? || m.Answer?
    ensures Sound(c, Outcome(c, w, m))
  {
    var g := Outcome(c, w, m).facts;
    MoreFactsKeepTraces(c, w, g);
    if m.ReadHash? {
      ReadHashIsLogged(w.store, m.id, m.hash);
    }
  }

  lemma ReadHashIsLogged(s: Store, id: IntentId, hash: string)
    requires IsDepositHash(LogOf(s, id), hash)
    ensures Logged(s, id, hash)
  {
  }

  lemma MoreFactsKeepTraces(c: Config, w: World, g: Facts)
    requires JobsTraced(c, w) && LogsTraced(c, w) && Extends(w.facts, g)
    ensures JobsTraced(c, w.(facts := g)) && LogsTraced(c, w.(facts := g))
  {
    forall i | 0 <= i < |w.queue.jobs|
      ensures JobTraced(g, c.depths, w.queue.jobs[i])
    {
      MoreFactsKeepJob(w.facts, g, c.depths, w.queue.jobs[i]);
    }
    forall id, k | id in w.store.logs && 0 <= k < |w.store.logs[id]|
      ensures EventTraced(g, c.depths, id, w.store.logs[id][k])
    {
      MoreFactsKeepEvent(w.facts, g, c.depths, id, w.store.logs[id][k]);
    }
  }

  lemma CommitKeepsLogsTraced(c: Config, w: World, tx: Tx)
    requires Consistent(w.store) && LogsTraced(c, w)
    requires tx.Transition? ==> forall version :: EventTraced(w.facts, c.depths, tx.id, Event(tx.eventType, tx.payload, version))
    ensures LogsTraced(c, w.(store := After(w.store, tx)))
  {
    var t := After(w.store, tx);
    forall id, k | id in t.logs && 0 <= k < |t.logs[id]|
      ensures EventTraced(w.facts, c.depths, id, t.logs[id][k])
    {
      if id in w.store.logs && k < |w.store.logs[id]| {
        assert EventTraced(w.facts, c.depths, id, w.store.logs[id][k]);
      }
    }
  }

  lemma CommitKeepsFacts(f: Facts, s: Store, tx: Tx)
    requires s.rows.Keys == s.logs.Keys && FactsOk(f, s)
    ensures FactsOk(f, After(s, tx))
  {
    var t := After(s, tx);
    forall h | h in f.hashes
      ensures Logged(t, h.0, h.2)
    {
      var k :| 0 <= k < |LogOf(s, h.0)| && RecordsHash(LogOf(s, h.0)[k], h.2);
      assert LogOf(t, h.0)[k] == LogOf(s, h.0)[k];
    }
  }

  /** A commit keeps the world sound if the event it may append is traced. */
  lemma CommitKeepsSound(c: Config, w: World, tx: Tx)
    requires Sound(c, w)
    requires tx.Transition? ==> forall version :: EventTraced(w.facts, c.depths, tx.id, Event(tx.eventType, tx.payload, version))
    ensures Sound(c, w.(store := After(w.store, tx)))
  {
    CommitKeepsConsistent(w.store, tx);
    CommitKeepsLogsTraced(c, w, tx);
    CommitKeepsFacts(w.facts, w.store, tx);
  }

  lemma RecordIsTraced(c: Config, w: World, m: Move, version: nat)
    requires Sound(c, w) && m.HandleRecord? && Possible(c, w, m)
    ensures var tx := RecordTx(w.queue.jobs[m.job].payload, m.event, w.queue.now);
            EventTraced(w.facts, c.depths, tx.id, Event(tx.eventType, tx.payload, version))
  {
    var job := w.queue.jobs[m.job];
    assert JobTraced(w.facts, c.depths, job);
    var id, chainId, t, asset, amount :|
      (chainId, t, Some(id)) in w.facts.resolved && job.payload == RecordPayload(id, chainId, t, asset, amount);
    assert job.payload["intentId"] == Text(id) && job.payload["txHash"] == Text(t.txHash);
  }

  lemma ConfirmIsTraced(c: Config, w: World, m: Move, version: nat)
    requires Sound(c, w) && m.HandleConfirm? && Possible(c, w, m)
    ensures var tx := ConfirmTx(w.queue.jobs[m.job].payload, w.queue.now);
            EventTraced(w.facts, c.depths, tx.id, Event(tx.eventType, tx.payload, version))
  {
    var job := w.queue.jobs[m.job];
    assert JobTraced(w.facts, c.depths, job);
    var id, chainId, hash, n :| Justified(w.facts, c.depths, id, chainId, hash, n)
                                && job.payload == ConfirmPayload(id, hash, n) && job.key == ConfirmKey(chainId, hash);
    ConfirmReads(id, hash, n, w.queue.now);
  }

  lemma ConfirmReads(id: IntentId, hash: string, n: int, now: int)
    requires IsConfirmPayload(ConfirmPayload(id, hash, n))
    ensures ConfirmTx(ConfirmPayload(id, hash, n), now) == Transition(id, ConfirmationReceived, Payload(None, Some(n as real)), now)
  {
    var p := ConfirmPayload(id, hash, n);
    assert p["intentId"] == Text(id) && p["confirmations"] == Number(n as real);
  }

  /** A queue step changes no job's type, payload or key. */
  lemma QueueKeepsPayloads(o: QueueProtocol.Options, s: System, step: Step, i: nat)
    requires |s.hist| == |s.jobs| && i < |s.jobs|
    ensures var job := Next(o, s, step).jobs[i];
            job.jobType == s.jobs[i].jobType && job.payload == s.jobs[i].payload
            && job.key == s.jobs[i].key && job.queue == s.jobs[i].queue
  {
  }

  lemma QueueKeepsSound(c: Config, w: World, step: Step)
    requires Sound(c, w)
    requires step.Enqueue? ==>
               forall job: Job :: job.jobType == step.job.jobType && job.payload == step.job.payload && job.key == step.job.key ==>
                                    JobTraced(w.facts, c.depths, job)
    ensures Sound(c, w.(queue := Next(c.options, w.queue, step)))
  {
    var t := Next(c.options, w.queue, step);
    NextKeepsInvariant(c.options, w.queue, step);
    forall i | 0 <= i < |t.jobs|
      ensures JobTraced(w.facts, c.depths, t.jobs[i])
    {
      if i < |w.queue.jobs| {
        QueueKeepsPayloads(c.options, w.queue, step, i);
        assert JobTraced(w.facts, c.depths, w.queue.jobs[i]);
      }
    }
  }

  lemma AdvanceKeepsSound(c: Config, w: World, m: Move)
    requires Sound(c, w)
    ensures Sound(c, Advance(c, w, m))
  {
    if Possible(c, w, m) {
      match m
      case EnqueueDeposit(chainId, t, intent, asset, amount, maxAttempts) =>
        QueueKeepsSound(c, w, Enqueue(DepositJob(chainId, t, asset, amount, intent, maxAttempts)));
      case Gateway(tx) => CommitKeepsSound(c, w, tx);
      case HandleRecord(job, attempt, event) =>
        forall version { RecordIsTraced(c, w, m, version); }
        CommitKeepsSound(c, w, RecordTx(w.queue.jobs[job].payload, event, w.queue.now));
      case HandleConfirm(job, attempt) =>
        forall version { ConfirmIsTraced(c, w, m, version); }
        CommitKeepsSound(c, w, ConfirmTx(w.queue.jobs[job].payload, w.queue.now));
      case EnqueueConfirm(id, chainId, hash, confirmations, maxAttempts) =>
        QueueKeepsSound(c, w, Enqueue(ConfirmJob(id, chainId, hash, confirmations, maxAttempts)));
      case Queue(step) => QueueKeepsSound(c, w, step);
      case _ => ObservingKeepsSound(c, w, m);
    }
  }

  lemma {:induction false} ReachIsSound(c: Config, now: int, moves: seq<Move>)
    ensures Sound(c, Reach(c, now, moves))
  {
    if moves != [] {
      ReachIsSound(c, now, moves[..|moves| - 1]);
      AdvanceKeepsSound(c, Reach(c, now, moves[..|moves| - 1]), moves[|moves| - 1]);
    }
  }
}
