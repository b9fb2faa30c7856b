/** What holds over every run of the deposit pipeline. */
module PipelineTheorems {
  import opened Wrappers
  import opened IntentStates
  import opened IntentStore
  import opened JobTable
  import opened QueueProtocol
  import opened IdempotencyKeys
  import opened JobHandlers
  import opened ConfirmationTrackers
  import opened DepositWatchers
  import opened Pipeline

  /** The k-th event of the intent's log, a confirmation, carries a count at or above the depth
      of the chain the tracker read as the intent's own; that chain reported the count, not
      failed, for a hash detected earlier in this very log; and a transfer with this hash was
      delivered by a chain client to an address the intent was awaiting at. */
  ghost predicate ConfirmedSafely(c: Config, w: World, id: IntentId, k: nat, chainId: string)
    requires id in w.store.logs && k < |w.store.logs[id]|
  {
    exists hash, n, j, origin, t ::
      && w.store.logs[id][k].payload.confirmations == Some(n as real)
      && chainId in c.depths && n >= c.depths[chainId]
      && Report(chainId, hash, false, n) in w.facts.reports && (id, chainId) in w.facts.sighted
      && 0 <= j < k && RecordsHash(w.store.logs[id][j], hash)
      && (origin, t) in w.facts.delivered && (origin, t, Some(id)) in w.facts.resolved && t.txHash == hash
  }

  lemma DetectionPrecedes(row: Intent, log: seq<Event>, j: nat, k: nat)
    requires Replays(row, log) && j < |log| && k < |log|
    requires log[j].eventType == DepositDetected && log[k].eventType == ConfirmationReceived
    ensures j < k
  {
    if k <= j {
      ConfirmedIsPast(Types(log), k, j);
    }
  }

  /** Confirmation safety, end to end, in every reachable world. */
  lemma ConfirmationSafety(c: Config, now: int, moves: seq<Move>, id: IntentId, k: nat) returns (chainId: string)
    requires
      var w := Reach(c, now, moves);
      && id in w.store.logs && k < |w.store.logs[id]|
      && w.store.logs[id][k].eventType == ConfirmationReceived
    ensures ConfirmedSafely(c, Reach(c, now, moves), id, k, chainId)
  {
    ReachIsSound(c, now, moves);
    var w := Reach(c, now, moves);
    var log := w.store.logs[id];
    assert EventTraced(w.facts, c.depths, id, log[k]);
    var hash, n;
    chainId, hash, n :| Justified(w.facts, c.depths, id, chainId, hash, n) && log[k].payload.confirmations == Some(n as real);
    assert (id, chainId) in w.facts.sighted && Logged(w.store, id, hash) by {
      assert (id, chainId, hash) in w.facts.hashes;
    }
    var j :| 0 <= j < |log| && RecordsHash(log[j], hash);
    DetectionPrecedes(w.store.rows[id], log, j, k);
    assert EventTraced(w.facts, c.depths, id, log[j]);
    var origin, t :| (origin, t, Some(id)) in w.facts.resolved && log[j].payload.txHash == Some(t.txHash);
    assert (origin, t) in w.facts.delivered;
  }

  /** At-least-once delivery, exactly-once effect: in every reachable world each intent's log
      confirms, routes, initiates settlement and settles at most once, detects no more deposits
      than it awaited, and has bounded length; and the row is the replay of that log. */
  lemma ExactlyOnceEffect(c: Config, now: int, moves: seq<Move>, id: IntentId)
    requires id in Reach(c, now, moves).store.rows
    ensures
      var s := Reach(c, now, moves).store;
      && id in s.logs && Replays(s.rows[id], s.logs[id])
      && var types := Types(s.logs[id]);
         && Count(types, ConfirmationReceived) <= 1 && Count(types, RouteSelected) <= 1
         && Count(types, SettlementInitiated) <= 1 && Settlements(types) <= 1
         && Count(types, DepositDetected) <= Count(types, PaymentAwaited)
         && |types| - 1 <= 7 + 3 * TopUps(types)
  {
    ReachIsSound(c, now, moves);
    var types := Types(Reach(c, now, moves).store.logs[id]);
    ExactlyOnce(types);
    PathLength(types);
  }

  // The chain the tracker read and the chain of the row.

  /** A quote that moves the deposit chain of an intent that has already left Created. Nothing in
      the repository forbids it: two quote calls may both read Created before either transitions. */
  predicate MovesChain(w: World, m: Move, id: IntentId) {
    && m.Gateway? && m.tx.UpdateQuote? && m.tx.id == id
    && id in w.store.rows && w.store.rows[id].state != Created
    && m.tx.deposit.Some? && Some(m.tx.deposit.value.chain) != w.store.rows[id].depositChain
  }

  /** No such quote reaches this intent; the others may be quoted in any way. */
  ghost predicate ChainStays(c: Config, now: int, moves: seq<Move>, id: IntentId) {
    forall i :: 0 <= i < |moves| ==> !MovesChain(Reach(c, now, moves[..i]), moves[i], id)
  }

  predicate DepositAt(s: Store, id: IntentId, chainId: string) {
    id in s.rows && s.rows[id].state != Created && s.rows[id].depositChain == Some(chainId)
  }

  /** What was ever read of the intent's deposit chain is still so. */
  ghost predicate ChainCurrent(w: World, id: IntentId) {
    && (forall chainId :: (id, chainId) in w.facts.sighted ==> DepositAt(w.store, id, chainId))
    && (forall chainId, t :: (chainId, t, Some(id)) in w.facts.resolved ==> DepositAt(w.store, id, chainId))
  }

  lemma CommitKeepsDepositAt(w: World, tx: Tx, id: IntentId, chainId: string)
    requires DepositAt(w.store, id, chainId) && !MovesChain(w, Gateway(tx), id)
    ensures DepositAt(After(w.store, tx), id, chainId)
  {
  }

  lemma CommitKeepsChainCurrent(w: World, tx: Tx, id: IntentId)
    requires ChainCurrent(w, id) && !MovesChain(w, Gateway(tx), id)
    ensures ChainCurrent(w.(store := After(w.store, tx)), id)
  {
    forall chainId | DepositAt(w.store, id, chainId)
      ensures DepositAt(After(w.store, tx), id, chainId)
    {
      CommitKeepsDepositAt(w, tx, id, chainId);
    }
  }

  lemma AdvanceKeepsChainCurrent(c: Config, w: World, m: Move, id: IntentId)
    requires |w.queue.hist| == |w.queue.jobs| && ChainCurrent(w, id) && !MovesChain(w, m, id)
    ensures ChainCurrent(Advance(c, w, m), id)
  {
    if Possible(c, w, m) {
      match m
      case Gateway(tx) => CommitKeepsChainCurrent(w, tx, id);
      case HandleRecord(job, _, event) => CommitKeepsChainCurrent(w, RecordTx(w.queue.jobs[job].payload, event, w.queue.now), id);
      case HandleConfirm(job, _) => CommitKeepsChainCurrent(w, ConfirmTx(w.queue.jobs[job].payload, w.queue.now), id);
      case _ =>
    }
  }

  lemma {:induction false} ReachKeepsChainCurrent(c: Config, now: int, moves: seq<Move>, id: IntentId)
    requires ChainStays(c, now, moves, id)
    ensures ChainCurrent(Reach(c, now, moves), id)
  {
    if moves != [] {
      var before := moves[..|moves| - 1];
      assert forall i :: 0 <= i < |before| ==> before[..i] == moves[..i];
      ReachKeepsChainCurrent(c, now, before, id);
      AdvanceKeepsChainCurrent(c, Reach(c, now, before), moves[|moves| - 1], id);
    }
  }

  /** Unless a quote moves the intent's chain after it left Created, the depth that was met is
      that of its deposit chain as the row still has it, and the transfer came in on that chain. */
  lemma ConfirmedOnOwnChain(c: Config, now: int, moves: seq<Move>, id: IntentId, k: nat) returns (chainId: string)
    requires ChainStays(c, now, moves, id)
    requires
      var w := Reach(c, now, moves);
      && id in w.store.logs && k < |w.store.logs[id]|
      && w.store.logs[id][k].eventType == ConfirmationReceived
    ensures ConfirmedSafely(c, Reach(c, now, moves), id, k, chainId)
    ensures var s := Reach(c, now, moves).store;
            id in s.rows && s.rows[id].depositChain == Some(chainId)
    ensures forall origin, t :: (origin, t, Some(id)) in Reach(c, now, moves).facts.resolved ==> origin == chainId
  {
    chainId := ConfirmationSafety(c, now, moves, id, k);
    ReachKeepsChainCurrent(c, now, moves, id);
    var w := Reach(c, now, moves);
    assert DepositAt(w.store, id, chainId);
    forall origin, t | (origin, t, Some(id)) in w.facts.resolved
      ensures origin == chainId
    {
      assert DepositAt(w.store, id, origin);
    }
  }

  /** The deposit chain of an intent changes exactly by a quote with deposit details for another
      chain; once the intent has left Created, exactly by a late one. */
  lemma OnlyQuotesMoveTheChain(c: Config, w: World, m: Move, id: IntentId)
    requires |w.queue.hist| == |w.queue.jobs| && id in w.store.rows
    ensures id in Advance(c, w, m).store.rows
    ensures Advance(c, w, m).store.rows[id].depositChain != w.store.rows[id].depositChain <==>
            && m.Gateway? && m.tx.UpdateQuote? && m.tx.id == id
            && m.tx.deposit.Some? && Some(m.tx.deposit.value.chain) != w.store.rows[id].depositChain
  {
  }

  // One confirm job per transaction.

  /** The confirm key has no intent id: once a job exists for a transaction, enqueueing the same
      transaction's confirmation for any intent changes nothing, in every later world too. */
  lemma SecondIntentIsNotEnqueued(c: Config, now: int, moves: seq<Move>, later: seq<Move>, i: nat, m: Move)
    requires var w := Reach(c, now, moves);
             i < |w.queue.jobs| && m.EnqueueConfirm? && w.queue.jobs[i].key == ConfirmKey(m.chainId, m.hash)
    ensures var w := Reach(c, now, moves + later);
            && i < |w.queue.jobs| && w.queue.jobs[i].key == ConfirmKey(m.chainId, m.hash)
            && w.queue.jobs[i].payload == Reach(c, now, moves).queue.jobs[i].payload
            && Advance(c, w, m) == w
  {
    JobsStay(c, now, moves, later, i);
    var w := Reach(c, now, moves + later);
    assert HasKey(w.queue.jobs, ConfirmKey(m.chainId, m.hash));
  }

  lemma {:induction false} JobsStay(c: Config, now: int, moves: seq<Move>, later: seq<Move>, i: nat)
    requires i < |Reach(c, now, moves).queue.jobs|
    ensures i < |Reach(c, now, moves + later).queue.jobs|
    ensures var a, b := Reach(c, now, moves).queue.jobs[i], Reach(c, now, moves + later).queue.jobs[i];
            a.key == b.key && a.payload == b.payload && a.jobType == b.jobType
  {
    if later == [] {
      assert moves + later == moves;
    } else {
      var all, last := moves + later, |later| - 1;
      JobsStay(c, now, moves, later[..last], i);
      assert all[..|all| - 1] == moves + later[..last];
      AdvanceKeepsJob(c, Reach(c, now, moves + later[..last]), later[last], i);
    }
  }

  lemma AdvanceKeepsJob(c: Config, w: World, m: Move, i: nat)
    requires |w.queue.hist| == |w.queue.jobs| && i < |w.queue.jobs|
    ensures i < |Advance(c, w, m).queue.jobs|
    ensures var job := Advance(c, w, m).queue.jobs[i];
            job.key == w.queue.jobs[i].key && job.payload == w.queue.jobs[i].payload && job.jobType == w.queue.jobs[i].jobType
  {
    if Possible(c, w, m) {
      match m
      case EnqueueDeposit(chainId, t, intent, asset, amount, maxAttempts) =>
        QueueKeepsPayloads(c.options, w.queue, Enqueue(DepositJob(chainId, t, asset, amount, intent, maxAttempts)), i);
      case EnqueueConfirm(id, chainId, hash, confirmations, maxAttempts) =>
        QueueKeepsPayloads(c.options, w.queue, Enqueue(ConfirmJob(id, chainId, hash, confirmations, maxAttempts)), i);
      case Queue(step) => QueueKeepsPayloads(c.options, w.queue, step, i);
      case _ =>
    }
  }

  /** A confirmation and the job that brought it: under its transaction's key, naming its intent. */
  ghost predicate JobBehind(c: Config, w: World, id: IntentId, e: Event, i: nat, chainId: string, hash: string) {
    exists n ::
      && Justified(w.facts, c.depths, id, chainId, hash, n) && e.payload.confirmations == Some(n as real)
      && i < |w.queue.jobs| && w.queue.jobs[i].key == ConfirmKey(chainId, hash)
      && w.queue.jobs[i].payload == ConfirmPayload(id, hash, n)
  }

  ghost predicate HasJobBehind(c: Config, w: World, id: IntentId, e: Event) {
    exists i, chainId, hash :: JobBehind(c, w, id, e, i, chainId, hash)
  }

  ghost predicate ConfirmationsHaveJobs(c: Config, w: World) {
    forall id, k :: id in w.store.logs && 0 <= k < |w.store.logs[id]|
                    && w.store.logs[id][k].eventType == ConfirmationReceived ==>
      HasJobBehind(c, w, id, w.store.logs[id][k])
  }

  lemma AdvanceKeepsJobBehind(c: Config, w: World, m: Move, id: IntentId, e: Event)
    requires |w.queue.hist| == |w.queue.jobs| && HasJobBehind(c, w, id, e)
    ensures HasJobBehind(c, Advance(c, w, m), id, e)
  {
    var i, chainId, hash :| JobBehind(c, w, id, e, i, chainId, hash);
    AdvanceKeepsJob(c, w, m, i);
    assert Extends(w.facts, Advance(c, w, m).facts);
    assert JobBehind(c, Advance(c, w, m), id, e, i, chainId, hash);
  }

  /** The only new confirmation of a move is that of a confirm handler, which holds its job. */
  lemma NewConfirmationHasJob(c: Config, w: World, m: Move, version: nat)
    requires Sound(c, w) && m.HandleConfirm? && Possible(c, w, m)
    ensures var tx := ConfirmTx(w.queue.jobs[m.job].payload, w.queue.now);
            HasJobBehind(c, w, tx.id, Event(tx.eventType, tx.payload, version))
  {
    var job := w.queue.jobs[m.job];
    assert JobTraced(w.facts, c.depths, job);
    var id, chainId, hash, n :| Justified(w.facts, c.depths, id, chainId, hash, n)
                                && job.payload == ConfirmPayload(id, hash, n) && job.key == ConfirmKey(chainId, hash);
    ConfirmReads(id, hash, n, w.queue.now);
    assert JobBehind(c, w, id, Event(ConfirmationReceived, Payload(None, Some(n as real)), version), m.job, chainId, hash);
  }

  lemma NewEvents(c: Config, w: World, m: Move, id: IntentId, k: nat)
    requires |w.queue.hist| == |w.queue.jobs| && w.store.rows.Keys == w.store.logs.Keys
    requires id in Advance(c, w, m).store.logs && k < |Advance(c, w, m).store.logs[id]|
    requires Advance(c, w, m).store.logs[id][k].eventType == ConfirmationReceived
    ensures var e := Advance(c, w, m).store.logs[id][k];
            || (id in w.store.logs && k < |w.store.logs[id]| && w.store.logs[id][k] == e)
            || (m.HandleConfirm? && Possible(c, w, m)
                && var tx := ConfirmTx(w.queue.jobs[m.job].payload, w.queue.now);
                   tx.id == id && e == Event(tx.eventType, tx.payload, e.version))
  {
  }

  lemma AdvanceKeepsConfirmationsHaveJobs(c: Config, w: World, m: Move)
    requires Sound(c, w) && ConfirmationsHaveJobs(c, w)
    ensures ConfirmationsHaveJobs(c, Advance(c, w, m))
  {
    var t := Advance(c, w, m);
    forall id, k | id in t.store.logs && 0 <= k < |t.store.logs[id]| && t.store.logs[id][k].eventType == ConfirmationReceived
      ensures HasJobBehind(c, t, id, t.store.logs[id][k])
    {
      NewEvents(c, w, m, id, k);
      if !(id in w.store.logs && k < |w.store.logs[id]| && w.store.logs[id][k] == t.store.logs[id][k]) {
        NewConfirmationHasJob(c, w, m, t.store.logs[id][k].version);
      }
      AdvanceKeepsJobBehind(c, w, m, id, t.store.logs[id][k]);
    }
  }

  lemma {:induction false} ReachKeepsConfirmationsHaveJobs(c: Config, now: int, moves: seq<Move>)
    ensures ConfirmationsHaveJobs(c, Reach(c, now, moves))
  {
    if moves != [] {
      ReachKeepsConfirmationsHaveJobs(c, now, moves[..|moves| - 1]);
      ReachIsSound(c, now, moves[..|moves| - 1]);
      AdvanceKeepsConfirmationsHaveJobs(c, Reach(c, now, moves[..|moves| - 1]), moves[|moves| - 1]);
    }
  }

  /** In every reachable world each confirmation of an intent comes with the job under its
      transaction's key, and that job names the intent. */
  lemma ConfirmationHasJob(c: Config, now: int, moves: seq<Move>, id: IntentId, k: nat)
    returns (i: nat, chainId: string, hash: string)
    requires
      var w := Reach(c, now, moves);
      && id in w.store.logs && k < |w.store.logs[id]|
      && w.store.logs[id][k].eventType == ConfirmationReceived
    ensures JobBehind(c, Reach(c, now, moves), id, Reach(c, now, moves).store.logs[id][k], i, chainId, hash)
  {
    ReachKeepsConfirmationsHaveJobs(c, now, moves);
    i, chainId, hash :| JobBehind(c, Reach(c, now, moves), id, Reach(c, now, moves).store.logs[id][k], i, chainId, hash);
  }

  lemma NamesItsIntent(a: IntentId, b: IntentId, hash: string, n: int, other: string, m: int)
    requires ConfirmPayload(a, hash, n) == ConfirmPayload(b, other, m)
    ensures a == b
  {
    assert ConfirmPayload(a, hash, n)["intentId"] == Text(a) && ConfirmPayload(b, other, m)["intentId"] == Text(b);
  }

  /** One transaction confirms at most one intent, however many it paid. */
  lemma OneIntentPerTransaction(c: Config, now: int, moves: seq<Move>, a: IntentId, k: nat, b: IntentId, l: nat,
                                i: nat, j: nat, chainId: string, hash: string)
    requires
      var w := Reach(c, now, moves);
      && a in w.store.logs && k < |w.store.logs[a]| && JobBehind(c, w, a, w.store.logs[a][k], i, chainId, hash)
      && b in w.store.logs && l < |w.store.logs[b]| && JobBehind(c, w, b, w.store.logs[b][l], j, chainId, hash)
    ensures a == b
  {
    ReachIsSound(c, now, moves);
    var w := Reach(c, now, moves);
    assert i == j;
    var n :| w.queue.jobs[i].payload == ConfirmPayload(a, hash, n);
    var m :| w.queue.jobs[j].payload == ConfirmPayload(b, hash, m);
    NamesItsIntent(a, b, hash, n, hash, m);
  }

  /** An intent whose only detected hash is that of a transaction whose confirm job names another
      intent is never confirmed, unless a quote moves its chain. */
  lemma SecondIntentIsNeverConfirmed(c: Config, now: int, moves: seq<Move>, a: IntentId, b: IntentId,
                                     i: nat, chainId: string, hash: string, n: int)
    requires ChainStays(c, now, moves, b) && a != b
    requires
      var w := Reach(c, now, moves);
      && i < |w.queue.jobs| && w.queue.jobs[i].key == ConfirmKey(chainId, hash)
      && w.queue.jobs[i].payload == ConfirmPayload(a, hash, n)
      && b in w.store.rows && w.store.rows[b].depositChain == Some(chainId) && b in w.store.logs
      && forall k, h :: 0 <= k < |w.store.logs[b]| && RecordsHash(w.store.logs[b][k], h) ==> h == hash
    ensures forall k :: 0 <= k < |Reach(c, now, moves).store.logs[b]| ==>
              Reach(c, now, moves).store.logs[b][k].eventType != ConfirmationReceived
  {
    var w := Reach(c, now, moves);
    forall k | 0 <= k < |w.store.logs[b]|
      ensures w.store.logs[b][k].eventType != ConfirmationReceived
    {
      if w.store.logs[b][k].eventType == ConfirmationReceived {
        var j, origin, h := ConfirmationHasJob(c, now, moves, b, k);
        OwnChainAndHash(c, now, moves, b, k, j, origin, h, chainId, hash);
        ReachIsSound(c, now, moves);
        assert i == j;
        var m :| w.queue.jobs[j].payload == ConfirmPayload(b, h, m);
        NamesItsIntent(a, b, hash, n, h, m);
        assert false;
      }
    }
  }

  lemma OwnChainAndHash(c: Config, now: int, moves: seq<Move>, id: IntentId, k: nat, i: nat, origin: string, h: string,
                        chainId: string, hash: string)
    requires ChainStays(c, now, moves, id)
    requires
      var w := Reach(c, now, moves);
      && id in w.store.rows && w.store.rows[id].depositChain == Some(chainId) && id in w.store.logs
      && k < |w.store.logs[id]| && JobBehind(c, w, id, w.store.logs[id][k], i, origin, h)
      && forall j, g :: 0 <= j < |w.store.logs[id]| && RecordsHash(w.store.logs[id][j], g) ==> g == hash
    ensures origin == chainId && h == hash
  {
    ReachIsSound(c, now, moves);
    ReachKeepsChainCurrent(c, now, moves, id);
    var w := Reach(c, now, moves);
    assert (id, origin, h) in w.facts.hashes;
    assert (id, origin) in w.facts.sighted && Logged(w.store, id, h);
    assert DepositAt(w.store, id, origin);
  }

  // How many rows a transfer gets.

  /** The move is an enqueue under this key. */
  ghost predicate Enqueues(c: Config, w: World, m: Move, key: string)
    requires |w.queue.hist| == |w.queue.jobs|
  {
    && Possible(c, w, m)
    && ((m.EnqueueDeposit? && DeliveryKey(m.chainId, m.t, m.intent) == key)
        || (m.EnqueueConfirm? && ConfirmKey(m.chainId, m.hash) == key))
  }

  ghost predicate EnqueuesAt(c: Config, now: int, moves: seq<Move>, i: nat, key: string) {
    i < |moves| && Enqueues(c, Reach(c, now, moves[..i]), moves[i], key)
  }

  ghost predicate Enqueued(c: Config, now: int, moves: seq<Move>, key: string) {
    exists i: nat :: EnqueuesAt(c, now, moves, i, key)
  }

  lemma EnqueuedOneMore(c: Config, now: int, moves: seq<Move>, key: string)
    requires moves != []
    ensures var last := |moves| - 1;
            Enqueued(c, now, moves, key)
            <==> Enqueued(c, now, moves[..last], key) || Enqueues(c, Reach(c, now, moves[..last]), moves[last], key)
  {
    var before := moves[..|moves| - 1];
    forall i: nat | i < |before|
      ensures EnqueuesAt(c, now, before, i, key) <==> EnqueuesAt(c, now, moves, i, key)
    {
      assert before[..i] == moves[..i];
    }
    if i: nat :| EnqueuesAt(c, now, before, i, key) {
      assert EnqueuesAt(c, now, moves, i, key);
    }
    if i: nat :| EnqueuesAt(c, now, moves, i, key) {
      assert i < |before| ==> EnqueuesAt(c, now, before, i, key);
    }
    assert EnqueuesAt(c, now, moves, |before|, key) <==> Enqueues(c, Reach(c, now, before), moves[|before|], key);
  }

  lemma QueueKeepsKeys(o: QueueProtocol.Options, s: System, step: Step, key: string)
    requires |s.hist| == |s.jobs|
    ensures HasKey(Next(o, s, step).jobs, key) <==> HasKey(s.jobs, key) || (step.Enqueue? && step.job.key == key)
  {
    var t := Next(o, s, step);
    if step.Enqueue? {
      InsertedKeys(s.jobs, step.job, s.now, key);
    } else {
      assert |t.jobs| == |s.jobs|;
      forall i: nat | i < |s.jobs|
        ensures t.jobs[i].key == s.jobs[i].key
      {
        QueueKeepsPayloads(o, s, step, i);
      }
    }
  }

  lemma AdvanceKeys(c: Config, w: World, m: Move, key: string)
    requires |w.queue.hist| == |w.queue.jobs|
    ensures HasKey(Advance(c, w, m).queue.jobs, key) <==> HasKey(w.queue.jobs, key) || Enqueues(c, w, m, key)
  {
    if Possible(c, w, m) {
      match m
      case EnqueueDeposit(chainId, t, intent, asset, amount, maxAttempts) =>
        QueueKeepsKeys(c.options, w.queue, Enqueue(DepositJob(chainId, t, asset, amount, intent, maxAttempts)), key);
      case EnqueueConfirm(id, chainId, hash, confirmations, maxAttempts) =>
        QueueKeepsKeys(c.options, w.queue, Enqueue(ConfirmJob(id, chainId, hash, confirmations, maxAttempts)), key);
      case Queue(step) => QueueKeepsKeys(c.options, w.queue, step, key);
      case _ =>
    }
  }

  /** A key is in the table exactly if something was once enqueued under it. */
  lemma {:induction false} KeyIsEnqueued(c: Config, now: int, moves: seq<Move>, key: string)
    ensures HasKey(Reach(c, now, moves).queue.jobs, key) <==> Enqueued(c, now, moves, key)
  {
    if moves != [] {
      var last := |moves| - 1;
      KeyIsEnqueued(c, now, moves[..last], key);
      AdvanceKeys(c, Reach(c, now, moves[..last]), moves[last], key);
      EnqueuedOneMore(c, now, moves, key);
    }
  }

  function RowsUnder(jobs: seq<Job>, key: string): set<nat> {
    set i: nat | i < |jobs| && jobs[i].key == key
  }

  lemma OneRowUnder(jobs: seq<Job>, key: string)
    requires UniqueKeys(jobs)
    ensures |RowsUnder(jobs, key)| == if HasKey(jobs, key) then 1 else 0
  {
    if HasKey(jobs, key) {
      var i: nat :| i < |jobs| && jobs[i].key == key;
      assert RowsUnder(jobs, key) == {i};
    } else {
      assert RowsUnder(jobs, key) == {};
    }
  }

  /** Over every run, however often a transfer is delivered, it has one row for the look-ups that
      found an intent and one for those that found nobody: two rows exactly if there were both. */
  lemma RowsOfTransfer(c: Config, now: int, moves: seq<Move>, chainId: string, t: Transfer)
    ensures
      var jobs := Reach(c, now, moves).queue.jobs;
      |RowsUnder(jobs, DepositKey(chainId, t)) + RowsUnder(jobs, UnattributedKey(chainId, t))|
      == (if Enqueued(c, now, moves, DepositKey(chainId, t)) then 1 else 0)
         + (if Enqueued(c, now, moves, UnattributedKey(chainId, t)) then 1 else 0)
  {
    var jobs := Reach(c, now, moves).queue.jobs;
    var found, nobody := RowsUnder(jobs, DepositKey(chainId, t)), RowsUnder(jobs, UnattributedKey(chainId, t));
    ReachIsSound(c, now, moves);
    KeyIsEnqueued(c, now, moves, DepositKey(chainId, t));
    KeyIsEnqueued(c, now, moves, UnattributedKey(chainId, t));
    OneRowUnder(jobs, DepositKey(chainId, t));
    OneRowUnder(jobs, UnattributedKey(chainId, t));
    assert |UnattributedKey(chainId, t)| > |DepositKey(chainId, t)|;
    assert found !! nobody;
  }

  // The composed worker's queue.

  predicate ClaimsDeposits(m: Move) {
    m.Queue? && m.step.ClaimBatch? && m.step.queue == QUEUE_DEPOSITS
  }

  /** Nothing of the pipeline has run: its jobs are all still untouched, and no log holds a
      detection or a confirmation. */
  ghost predicate Idle(w: World) {
    && |w.queue.hist| == |w.queue.jobs|
    && (forall i :: 0 <= i < |w.queue.jobs| ==>
          && w.queue.jobs[i].queue == QUEUE_DEPOSITS && w.queue.jobs[i].status == Pending
          && w.queue.jobs[i].attempts == 0 && w.queue.hist[i].held == {})
    && (forall id, k :: id in w.store.logs && 0 <= k < |w.store.logs[id]| ==>
          w.store.logs[id][k].eventType !in {DepositDetected, ConfirmationReceived})
  }

  lemma AdvanceKeepsIdle(c: Config, w: World, m: Move)
    requires Idle(w) && !ClaimsDeposits(m)
    ensures Idle(Advance(c, w, m))
  {
    if Possible(c, w, m) && m.Queue? && m.step.ClaimBatch? && Enabled(c.options, w.queue, m.step) {
      assert m.step.chosen <= ClaimableRows(w.queue.jobs, m.step.queue, w.queue.now);
      assert m.step.chosen == {};
    }
  }

  /** Workers that poll any other queue than the one the deposit jobs go to, as the composed
      worker does, never record or confirm a deposit, however long they run. */
  lemma {:induction false} OtherQueuesDoNothing(c: Config, now: int, moves: seq<Move>)
    requires forall i :: 0 <= i < |moves| ==> !ClaimsDeposits(moves[i])
    ensures Idle(Reach(c, now, moves))
  {
    if moves != [] {
      OtherQueuesDoNothing(c, now, moves[..|moves| - 1]);
      AdvanceKeepsIdle(c, Reach(c, now, moves[..|moves| - 1]), moves[|moves| - 1]);
    }
  }
}
