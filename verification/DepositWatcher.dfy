/** The deposit watcher: which addresses it is subscribed to, through which handles, and how an
    observed transfer becomes a durable job. */
module DepositWatchers {
  import opened Wrappers
  import opened IntentStore
  import opened JobTable
  import opened JobQueues
  import opened IdempotencyKeys
  import opened ConfirmationTrackers

  /** The unsubscribe function a chain client returned, named by the order it was issued in. */
  type Handle = nat

  type Subscriptions = map<string, map<string, Handle>>

  /** The non-empty addresses at which some intent awaits a deposit on a chain. */
  function Wanted(s: Store, chainId: string): set<string> {
    set id | id in s.rows && s.rows[id].depositAddress.Some? && s.rows[id].depositAddress.value != ""
             && chainId != "" && AwaitsDepositAt(s.rows[id], chainId, s.rows[id].depositAddress.value)
          :: s.rows[id].depositAddress.value
  }

  /** The same, picked out of the rows the repository returned. */
  function WantedOf(rows: map<IntentId, Intent>, ids: seq<IntentId>, chainId: string): set<string> {
    set id | id in ids && id in rows && rows[id].depositAddress.Some? && rows[id].depositAddress.value != ""
             && rows[id].depositChain == Some(chainId) && chainId != ""
          :: rows[id].depositAddress.value
  }

  /** An address is wanted exactly if it is given and some quoted, awaiting or underpaid intent is to
      be paid there on that chain. */
  lemma WantedInFull(s: Store, chainId: string, address: string)
    ensures address in Wanted(s, chainId) <==>
            && address != "" && chainId != ""
            && exists id :: && id in s.rows && s.rows[id].depositChain == Some(chainId) && s.rows[id].depositAddress == Some(address)
                            && (s.rows[id].state.Quoted? || s.rows[id].state.AwaitingPayment? || s.rows[id].state.Underpaid?)
  {
  }

  function Current(subs: Subscriptions, chainId: string): map<string, Handle> {
    if chainId in subs then subs[chainId] else map[]
  }

  predicate Live(subs: Subscriptions, chainId: string, address: string) {
    chainId in subs && address in subs[chainId]
  }

  /** The handles in the map, by the entry that holds them; released counts how often each was
      unsubscribed. Every handle issued is live in the map or was unsubscribed exactly once. */
  ghost predicate Accounted(subs: Subscriptions, holder: map<Handle, (string, string)>, released: multiset<Handle>, issued: nat) {
    && (forall c, a :: Live(subs, c, a) ==> subs[c][a] in holder && holder[subs[c][a]] == (c, a))
    && (forall h :: h in holder ==>
          h < issued && Live(subs, holder[h].0, holder[h].1) && subs[holder[h].0][holder[h].1] == h)
    && forall h: Handle :: released[h] == if h < issued && h !in holder then 1 else 0
  }

  /** Only one chain's map changed, and these of its addresses kept their handles. */
  ghost predicate OnlyThisChain(before: Subscriptions, after: Subscriptions, chainId: string, kept: set<string>) {
    && after.Keys == before.Keys + {chainId}
    && (forall c :: c in before && c != chainId ==> after[c] == before[c])
    && (forall a :: a in kept && Live(before, chainId, a) ==> Live(after, chainId, a) && after[chainId][a] == before[chainId][a])
  }

  lemma OnlyThisChainChains(s: Subscriptions, t: Subscriptions, u: Subscriptions, chainId: string, kept: set<string>, more: set<string>)
    requires OnlyThisChain(s, t, chainId, kept) && OnlyThisChain(t, u, chainId, more)
    requires forall a :: a in kept && Live(t, chainId, a) ==> a in more
    ensures OnlyThisChain(s, u, chainId, kept)
  {
  }

  /** Taking an entry out of the map and unsubscribing its handle keeps every handle accounted for. */
  lemma ReleaseIsAccounted(subs: Subscriptions, holder: map<Handle, (string, string)>, released: multiset<Handle>,
                           issued: nat, chainId: string, address: string)
    requires Accounted(subs, holder, released, issued) && Live(subs, chainId, address)
    ensures var h := subs[chainId][address];
            Accounted(subs[chainId := subs[chainId] - {address}], holder - {h}, released + multiset{h}, issued)
  {
    var h := subs[chainId][address];
    var after := subs[chainId := subs[chainId] - {address}];
    forall c, a | Live(after, c, a)
      ensures Live(subs, c, a) && after[c][a] == subs[c][a] && (c, a) != (chainId, address)
    {
    }
    forall g | g in holder - {h}
      ensures holder[g] != (chainId, address)
    {
    }
  }

  /** So does entering a fresh handle, */
  lemma SubscribeIsAccounted(subs: Subscriptions, holder: map<Handle, (string, string)>, released: multiset<Handle>,
                             issued: nat, chainId: string, address: string)
    requires Accounted(subs, holder, released, issued) && !Live(subs, chainId, address)
    ensures Accounted(subs[chainId := Current(subs, chainId)[address := issued]],
                      holder[issued := (chainId, address)], released, issued + 1)
  {
    var after := subs[chainId := Current(subs, chainId)[address := issued]];
    forall c, a | Live(after, c, a) && (c, a) != (chainId, address)
      ensures Live(subs, c, a) && after[c][a] == subs[c][a]
    {
    }
    assert issued !in holder;
  }

  lemma SubscribeKeepsOthers(subs: Subscriptions, issued: nat, chainId: string, address: string)
    requires !Live(subs, chainId, address)
    ensures var after := subs[chainId := Current(subs, chainId)[address := issued]];
            && OnlyThisChain(subs, after, chainId, Current(subs, chainId).Keys)
            && after[chainId].Keys == Current(subs, chainId).Keys + {address}
  {
  }

  /** and an empty map for a new chain. */
  lemma NewChainIsAccounted(subs: Subscriptions, holder: map<Handle, (string, string)>, released: multiset<Handle>,
                            issued: nat, chainId: string)
    requires Accounted(subs, holder, released, issued) && chainId !in subs
    ensures Accounted(subs[chainId := map[]], holder, released, issued)
    ensures OnlyThisChain(subs, subs[chainId := map[]], chainId, {})
    ensures forall a :: !Live(subs, chainId, a)
  {
    var after: Subscriptions := subs[chainId := map[]];
    forall c, a | Live(after, c, a)
      ensures Live(subs, c, a) && after[c][a] == subs[c][a]
    {
    }
  }

  /** All unwanted addresses of the chain are gone but these. */
  ghost predicate Dropping(before: Subscriptions, now: Subscriptions, chainId: string, wanted: set<string>, unwanted: set<string>) {
    && chainId in before && chainId in now
    && now[chainId].Keys == before[chainId].Keys * wanted + unwanted && unwanted !! wanted
    && OnlyThisChain(before, now, chainId, wanted)
  }

  lemma DropOneMore(before: Subscriptions, now: Subscriptions, after: Subscriptions, chainId: string,
                    wanted: set<string>, unwanted: set<string>, address: string)
    requires Dropping(before, now, chainId, wanted, unwanted) && address in unwanted
    requires chainId in after && after[chainId].Keys == now[chainId].Keys - {address}
    requires OnlyThisChain(now, after, chainId, now[chainId].Keys - {address})
    ensures Dropping(before, after, chainId, wanted, unwanted - {address})
  {
    OnlyThisChainChains(before, now, after, chainId, wanted, now[chainId].Keys - {address});
  }

  predicate Unchanged(before: Subscriptions, after: Subscriptions, issued: nat, issuedAfter: nat) {
    after == before && issuedAfter == issued
  }

  /** These chains are in step with the store, kept addresses have kept their handle, and no other
      chain has changed. */
  ghost predicate Refreshed(s: Store, chains: seq<string>, before: Subscriptions, after: Subscriptions) {
    && (forall c :: c in chains ==> c in after && after[c].Keys == Wanted(s, c))
    && (forall c, a :: c in chains && a in Wanted(s, c) && Live(before, c, a) ==>
          Live(after, c, a) && after[c][a] == before[c][a])
    && (forall c :: c !in chains && c in before ==> c in after && after[c] == before[c])
  }

  lemma RefreshedOneMore(s: Store, chains: seq<string>, i: nat, before: Subscriptions, now: Subscriptions, after: Subscriptions)
    requires i < |chains| && Refreshed(s, chains[..i], before, now)
    requires chains[i] in after && after[chains[i]].Keys == Wanted(s, chains[i])
    requires OnlyThisChain(now, after, chains[i], Wanted(s, chains[i]))
    ensures Refreshed(s, chains[..i + 1], before, after)
  {
    assert chains[..i + 1] == chains[..i] + [chains[i]];
    forall c, a | c in chains[..i + 1] && a in Wanted(s, c) && Live(before, c, a)
      ensures Live(after, c, a) && after[c][a] == before[c][a]
    {
      assert Live(now, c, a) && now[c][a] == before[c][a];
    }
  }

  /** Every chain but these has an empty map. */
  predicate EmptiedBut(subs: Subscriptions, rest: set<string>) {
    forall c :: c in subs && c !in rest ==> subs[c] == map[]
  }

  lemma EmptiedOneMore(before: Subscriptions, after: Subscriptions, rest: set<string>, chainId: string)
    requires EmptiedBut(before, rest) && chainId in before && chainId in after
    requires OnlyThisChain(before, after, chainId, {}) && after[chainId].Keys == {}
    ensures EmptiedBut(after, rest - {chainId}) && after.Keys == before.Keys
  {
    assert after[chainId] == map[];
  }

  lemma AllReleased(subs: Subscriptions, holder: map<Handle, (string, string)>, released: multiset<Handle>, issued: nat)
    requires Accounted(subs, holder, released, issued) && EmptiedBut(subs, {})
    ensures Accounted(map[], holder, released, issued)
    ensures forall h: Handle :: released[h] == if h < issued then 1 else 0
  {
    assert forall c :: c in subs ==> subs[c] == map[];
    assert holder.Keys == {};
  }

  class DepositWatcher {
    /** The chains this worker has clients for. */
    const chains: seq<string>
    const queue: JobQueue
    var subscriptions: Subscriptions
    var started: bool
    /** Whether the refresh timer is set. */
    var ticking: bool
    var received: nat
    var attributed: nat
    var unattributed: nat
    /** Handles the chain clients have issued so far. */
    var issued: nat
    ghost var holder: map<Handle, (string, string)>
    ghost var released: multiset<Handle>

    ghost predicate Valid()
      reads this
    {
      Accounted(subscriptions, holder, released, issued)
    }

    constructor (chains: seq<string>, queue: JobQueue)
      ensures Valid() && this.chains == chains && this.queue == queue
      ensures subscriptions == map[] && issued == 0 && !started && !ticking
    {
      this.chains, this.queue := chains, queue;
      subscriptions, started, ticking, issued := map[], false, false, 0;
      received, attributed, unattributed := 0, 0, 0;
      holder, released := map[], multiset{};
    }

    method Subscribe(chainId: string, address: string)
      requires Valid() && !Live(subscriptions, chainId, address)
      modifies this
      ensures Valid() && issued == old(issued) + 1 && released == old(released)
      ensures chainId in subscriptions
      ensures subscriptions[chainId].Keys == Current(old(subscriptions), chainId).Keys + {address}
      ensures OnlyThisChain(old(subscriptions), subscriptions, chainId, Current(old(subscriptions), chainId).Keys)
      ensures started == old(started) && ticking == old(ticking)
    {
      var handle := issued;
      SubscribeIsAccounted(subscriptions, holder, released, issued, chainId, address);
      SubscribeKeepsOthers(subscriptions, issued, chainId, address);
      issued := issued + 1;
      subscriptions := subscriptions[chainId := Current(subscriptions, chainId)[address := handle]];
      holder := holder[handle := (chainId, address)];
    }

    /** Whether or not the client's function throws, it is called once. */
    method Unsubscribe(chainId: string, address: string)
      requires Valid() && Live(subscriptions, chainId, address)
      modifies this
      ensures Valid() && issued == old(issued)
      ensures released == old(released) + multiset{old(subscriptions)[chainId][address]}
      ensures chainId in subscriptions && subscriptions[chainId].Keys == old(subscriptions)[chainId].Keys - {address}
      ensures OnlyThisChain(old(subscriptions), subscriptions, chainId, old(subscriptions)[chainId].Keys - {address})
      ensures started == old(started) && ticking == old(ticking)
    {
      var handle := subscriptions[chainId][address];
      ReleaseIsAccounted(subscriptions, holder, released, issued, chainId, address);
      subscriptions := subscriptions[chainId := subscriptions[chainId] - {address}];
      holder := holder - {handle};
      released := released + multiset{handle};
    }

    method SubscribeMissing(chainId: string, wanted: set<string>)
      requires Valid() && chainId in subscriptions
      modifies this
      ensures Valid() && started == old(started) && ticking == old(ticking) && chainId in subscriptions
      ensures subscriptions[chainId].Keys == old(subscriptions)[chainId].Keys + wanted
      ensures OnlyThisChain(old(subscriptions), subscriptions, chainId, old(subscriptions)[chainId].Keys)
    {
      var missing := wanted - subscriptions[chainId].Keys;
      while missing != {}
        invariant Valid() && started == old(started) && ticking == old(ticking) && chainId in subscriptions
        invariant missing !! subscriptions[chainId].Keys
        invariant missing + subscriptions[chainId].Keys == old(subscriptions)[chainId].Keys + wanted
        invariant OnlyThisChain(old(subscriptions), subscriptions, chainId, old(subscriptions)[chainId].Keys)
        decreases missing
      {
        var address :| address in missing;
        Subscribe(chainId, address);
        missing := missing - {address};
      }
    }

    method DropUnwanted(chainId: string, wanted: set<string>)
      requires Valid() && chainId in subscriptions
      modifies this
      ensures Valid() && started == old(started) && ticking == old(ticking) && issued == old(issued) && chainId in subscriptions
      ensures subscriptions[chainId].Keys == old(subscriptions)[chainId].Keys * wanted
      ensures OnlyThisChain(old(subscriptions), subscriptions, chainId, wanted)
    {
      var unwanted := subscriptions[chainId].Keys - wanted;
      while unwanted != {}
        invariant Valid() && started == old(started) && ticking == old(ticking) && issued == old(issued)
        invariant Dropping(old(subscriptions), subscriptions, chainId, wanted, unwanted)
        decreases unwanted
      {
        var address :| address in unwanted;
        ghost var before := subscriptions;
        Unsubscribe(chainId, address);
        DropOneMore(old(subscriptions), before, subscriptions, chainId, wanted, unwanted, address);
        unwanted := unwanted - {address};
      }
    }

    /** Brings one chain's map in step with the wanted addresses. */
    method RefreshChain(chainId: string, wanted: set<string>)
      requires Valid()
      modifies this
      ensures Valid() && started == old(started) && ticking == old(ticking)
      ensures chainId in subscriptions && subscriptions[chainId].Keys == wanted
      ensures OnlyThisChain(old(subscriptions), subscriptions, chainId, wanted)
    {
      EnsureChain(chainId);
      ghost var first := subscriptions;
      SubscribeMissing(chainId, wanted);
      ghost var second := subscriptions;
      DropUnwanted(chainId, wanted);
      OnlyThisChainChains(first, second, subscriptions, chainId, wanted * first[chainId].Keys, wanted);
      OnlyThisChainChains(old(subscriptions), first, subscriptions, chainId, wanted, wanted * first[chainId].Keys);
    }

    method EnsureChain(chainId: string)
      requires Valid()
      modifies this
      ensures Valid() && started == old(started) && ticking == old(ticking) && issued == old(issued) && chainId in subscriptions
      ensures OnlyThisChain(old(subscriptions), subscriptions, chainId, Current(old(subscriptions), chainId).Keys)
      ensures subscriptions[chainId] == Current(old(subscriptions), chainId)
    {
      if chainId !in subscriptions {
        NewChainIsAccounted(subscriptions, holder, released, issued, chainId);
        subscriptions := subscriptions[chainId := map[]];
      }
    }

    /** After a refresh every configured chain is subscribed to exactly the addresses awaited
        there, and an address kept across it keeps its handle. If the query fails the refresh
        throws before it changes anything. */
    method Refresh(repository: IntentRepository, queryOk: bool) returns (ok: bool)
      requires Valid()
      modifies this
      ensures Valid() && started == old(started) && ticking == old(ticking) && (ok <==> queryOk)
      ensures !ok ==> Unchanged(old(subscriptions), subscriptions, old(issued), issued)
      ensures ok ==> Refreshed(repository.Value(), chains, old(subscriptions), subscriptions)
    {
      if !queryOk {
        return false;
      }
      ghost var s := repository.Value();
      var rows := repository.rows;
      var ids := repository.FindAwaitingDeposits();
      for i := 0 to |chains|
        invariant Valid() && started == old(started) && ticking == old(ticking)
        invariant Refreshed(s, chains[..i], old(subscriptions), subscriptions)
      {
        var wanted := WantedOf(rows, ids, chains[i]);
        assert wanted == Wanted(s, chains[i]);
        ghost var before := subscriptions;
        RefreshChain(chains[i], wanted);
        RefreshedOneMore(s, chains, i, old(subscriptions), before, subscriptions);
      }
      assert chains[..|chains|] == chains;
      return true;
    }

    /** Starting twice does nothing the second time. The timer of later refreshes is set only if
        the first one succeeds. */
    method Start(repository: IntentRepository, queryOk: bool) returns (ok: bool)
      requires Valid()
      modifies this
      ensures Valid() && started
      ensures old(started) ==> ok && ticking == old(ticking) && Unchanged(old(subscriptions), subscriptions, old(issued), issued)
      ensures !old(started) ==> (ok <==> queryOk) && (ticking <==> old(ticking) || ok)
      ensures !ok ==> Unchanged(old(subscriptions), subscriptions, old(issued), issued)
      ensures !old(started) && ok ==> Refreshed(repository.Value(), chains, old(subscriptions), subscriptions)
    {
      if started {
        return true;
      }
      started := true;
      ok := Refresh(repository, queryOk);
      ticking := ticking || ok;
    }

    /** Tears everything down: every handle ever issued has now been unsubscribed, once. */
    method Stop()
      requires Valid()
      modifies this
      ensures Valid() && !started && !ticking && subscriptions == map[]
      ensures forall h: Handle :: released[h] == if h < issued then 1 else 0
      ensures issued == old(issued)
    {
      var rest := subscriptions.Keys;
      while rest != {}
        invariant Valid() && rest <= subscriptions.Keys && issued == old(issued)
        invariant EmptiedBut(subscriptions, rest)
        decreases rest
      {
        var chainId :| chainId in rest;
        ghost var before := subscriptions;
        DropUnwanted(chainId, {});
        EmptiedOneMore(before, subscriptions, rest, chainId);
        rest := rest - {chainId};
      }
      AllReleased(subscriptions, holder, released, issued);
      subscriptions := map[];
      started, ticking := false, false;
    }

    /** An observed transfer becomes a job: of its intent if one awaits it now, else a record for a
        human. Each kind has a key of its own; a taken key enqueues nothing. */
    method OnDeposit(chainId: string, t: Transfer, asset: string, amount: Field,
                     repository: IntentRepository, now: int)
      modifies this, queue.db
      ensures subscriptions == old(subscriptions) && issued == old(issued) && released == old(released) && holder == old(holder)
      ensures exists intent: Option<IntentId> ::
                && IsAwaiting(repository.Value(), chainId, t.to, intent)
                && queue.db.jobs == Insert(old(queue.db.jobs),
                                           DepositJob(chainId, t, asset, amount, intent, queue.defaultMaxAttempts), now)
                && received == old(received) + 1
                && attributed == old(attributed) + (if intent.Some? then 1 else 0)
                && unattributed == old(unattributed) + (if intent.Some? then 0 else 1)
    {
      received := received + 1;
      var key := DepositKey(chainId, t);
      var intent := repository.FindAwaitingDepositAt(chainId, t.to);
      if intent.None? {
        unattributed := unattributed + 1;
        var _ := queue.Enqueue(EnqueueOptions(JOB_DEPOSIT_UNATTRIBUTED, UnattributedPayload(chainId, t, asset),
                                              key + ":unattributed", Some(QUEUE_DEPOSITS), None, None), now);
        assert IsAwaiting(repository.Value(), chainId, t.to, intent);
        return;
      }
      attributed := attributed + 1;
      var _ := queue.Enqueue(EnqueueOptions(JOB_DEPOSIT_RECORD, RecordPayload(intent.value, chainId, t, asset, amount),
                                            key, Some(QUEUE_DEPOSITS), None, None), now);
      assert IsAwaiting(repository.Value(), chainId, t.to, intent);
    }
  }

  function UnattributedPayload(chainId: string, t: Transfer, asset: string): JobPayload {
    map["chainId" := Text(chainId), "address" := Text(t.to), "txHash" := Text(t.txHash),
        "amount" := Text(t.amount), "asset" := Text(asset)]
  }

  function RecordPayload(id: IntentId, chainId: string, t: Transfer, asset: string, amount: Field): JobPayload {
    map["intentId" := Text(id), "txHash" := Text(t.txHash), "amount" := amount,
        "sourceChain" := Text(chainId), "sourceAsset" := Text(asset)]
  }

  /** The job a transfer becomes; amount is the normalised number, or null if it is not one. */
  function DepositJob(chainId: string, t: Transfer, asset: string, amount: Field,
                      intent: Option<IntentId>, maxAttempts: int): NewJob {
    match intent
    case None => NewJob(JOB_DEPOSIT_UNATTRIBUTED, UnattributedPayload(chainId, t, asset),
                        UnattributedKey(chainId, t), QUEUE_DEPOSITS, maxAttempts, 0)
    case Some(id) => NewJob(JOB_DEPOSIT_RECORD, RecordPayload(id, chainId, t, asset, amount),
                            DepositKey(chainId, t), QUEUE_DEPOSITS, maxAttempts, 0)
  }

  /** intent is the newest one awaiting a deposit at the address, or none is. */
  ghost predicate IsAwaiting(s: Store, chainId: string, address: string, intent: Option<IntentId>) {
    match intent
    case None => forall id :: id in s.rows ==> !AwaitsDepositAt(s.rows[id], chainId, address)
    case Some(id) =>
      && id in s.rows && AwaitsDepositAt(s.rows[id], chainId, address)
      && forall o :: o in s.rows && AwaitsDepositAt(s.rows[o], chainId, address) ==> s.rows[o].createdAt <= s.rows[id].createdAt
  }

  /** What the two kinds of job tell of the transfer. */
  lemma JobsInFull(chainId: string, t: Transfer, asset: string, amount: Field, id: IntentId, maxAttempts: int)
    ensures var job := DepositJob(chainId, t, asset, amount, Some(id), maxAttempts);
            && job.jobType == "deposit.record" && job.queue == "deposits" && job.delayMs == 0 && job.maxAttempts == maxAttempts
            && job.payload["intentId"] == Text(id) && job.payload["txHash"] == Text(t.txHash) && job.payload["amount"] == amount
            && job.payload["sourceChain"] == Text(chainId) && job.payload["sourceAsset"] == Text(asset)
    ensures var job := DepositJob(chainId, t, asset, amount, None, maxAttempts);
            && job.jobType == "deposit.unattributed" && job.queue == "deposits" && job.delayMs == 0 && job.maxAttempts == maxAttempts
            && job.payload["chainId"] == Text(chainId) && job.payload["address"] == Text(t.to)
            && job.payload["txHash"] == Text(t.txHash) && job.payload["amount"] == Text(t.amount) && job.payload["asset"] == Text(asset)
  {
  }

  /** The key a delivery is enqueued under, by what its look-up found. */
  function DeliveryKey(chainId: string, t: Transfer, intent: Option<IntentId>): string {
    if intent.Some? then DepositKey(chainId, t) else UnattributedKey(chainId, t)
  }

  lemma KeysByLookup(chainId: string, t: Transfer, one: Option<IntentId>, other: Option<IntentId>)
    ensures DeliveryKey(chainId, t, one) == DeliveryKey(chainId, t, other) <==> one.Some? == other.Some?
  {
    assert |UnattributedKey(chainId, t)| > |DepositKey(chainId, t)|;
  }

  /** A delivery adds a row exactly if the key of its own look-up is free. After it, another
      delivery of the same transfer adds a second row exactly if its look-up comes out the other
      way, intent against nobody, and that key is free too. */
  lemma DeliveredOnce(jobs: seq<Job>, chainId: string, t: Transfer, asset: string, amount: Field,
                      intent: Option<IntentId>, maxAttempts: int, now: int, other: Option<IntentId>, later: int)
    ensures
      var after := Insert(jobs, DepositJob(chainId, t, asset, amount, intent, maxAttempts), now);
      var again := Insert(after, DepositJob(chainId, t, asset, amount, other, maxAttempts), later);
      && jobs <= after && (UniqueKeys(jobs) ==> UniqueKeys(after))
      && HasKey(after, DeliveryKey(chainId, t, intent))
      && |after| == |jobs| + (if HasKey(jobs, DeliveryKey(chainId, t, intent)) then 0 else 1)
      && (again == after <==> intent.Some? == other.Some? || HasKey(jobs, DeliveryKey(chainId, t, other)))
  {
    var job := DepositJob(chainId, t, asset, amount, intent, maxAttempts);
    KeysByLookup(chainId, t, intent, other);
    InsertedKeys(jobs, job, now, job.key);
    InsertedKeys(jobs, job, now, DeliveryKey(chainId, t, other));
  }

  lemma InsertedKeys(jobs: seq<Job>, job: NewJob, now: int, key: string)
    ensures HasKey(Insert(jobs, job, now), key) <==> HasKey(jobs, key) || job.key == key
  {
    var after := Insert(jobs, job, now);
    if i :| 0 <= i < |jobs| && jobs[i].key == key {
      assert after[i].key == key;
    }
    if !HasKey(jobs, job.key) {
      assert after[|jobs|].key == job.key;
    }
  }

  /** A first start whose query fails leaves the watcher started but without a timer: until it is
      stopped, no later start subscribes to anything or sets one. */
  method FailedStartSticks(watcher: DepositWatcher, repository: IntentRepository, queryOk: bool)
    requires watcher.Valid() && !watcher.started && !watcher.ticking
    modifies watcher
    ensures watcher.Valid() && watcher.started && !watcher.ticking
    ensures watcher.subscriptions == old(watcher.subscriptions) && watcher.issued == old(watcher.issued)
  {
    var first := watcher.Start(repository, false);
    var second := watcher.Start(repository, queryOk);
    assert !first && second;
  }
}
