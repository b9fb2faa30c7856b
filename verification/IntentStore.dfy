/** Payment intents and their event log, as PaymentIntentRepository keeps them in the database.
    Each repository call that writes is one transaction, so one atomic step on the store. */
module IntentStore {
  import opened Wrappers
  import opened IntentStates
  import opened SqlOrder

  type IntentId = string

  /** The payload fields the worker reads back out of the log. */
  datatype Payload = Payload(txHash: Option<string>, confirmations: Option<real>)

  const NoPayload := Payload(None, None)

  datatype Event = Event(eventType: EventType, payload: Payload, version: nat)

  datatype Deposit = Deposit(address: string, asset: string, chain: string)

  datatype Intent = Intent(
    target: real,
    quotedRate: Option<real>,
    quoteExpiresAt: Option<int>,
    depositAddress: Option<string>,
    depositAsset: Option<string>,
    depositChain: Option<string>,
    state: State,
    version: nat,
    createdAt: int,
    updatedAt: int)

  datatype Store = Store(rows: map<IntentId, Intent>, logs: map<IntentId, seq<Event>>)

  const EmptyStore := Store(map[], map[])

  datatype RepoError =
    | IntentNotFound
    | DuplicateId
    | InvalidTransition(from: State, to: State)

  datatype Tx =
    | Create(id: IntentId, target: real, now: int)
    | Transition(id: IntentId, eventType: EventType, payload: Payload, now: int)
    | UpdateQuote(id: IntentId, rate: real, expiresAt: int, deposit: Option<Deposit>, now: int)

  function Coalesce<T>(first: Option<T>, second: Option<T>): Option<T> {
    if first.Some? then first else second
  }

  /** The committed effect of one transaction, or the error that rolls it back. */
  function Commit(s: Store, tx: Tx): Result<Store, RepoError> {
    match tx
    case Create(id, target, now) =>
      if id in s.rows then Err(DuplicateId) else
      Ok(Store(
           s.rows[id := Intent(target, None, None, None, None, None, Created, 1, now, now)],
           s.logs[id := [Event(IntentCreated, NoPayload, 1)]]))
    case Transition(id, e, payload, now) =>
      if id !in s.rows then Err(IntentNotFound) else
      var row := s.rows[id];
      if !IsValidTransition(row.state, Target(e)) then Err(InvalidTransition(row.state, Target(e))) else
      Ok(Store(
           s.rows[id := row.(state := Target(e), version := row.version + 1, updatedAt := now)],
           s.logs[id := LogOf(s, id) + [Event(e, payload, row.version + 1)]]))
    case UpdateQuote(id, rate, expiresAt, deposit, now) =>
      if id !in s.rows then Err(IntentNotFound) else
      var row := s.rows[id];
      Ok(s.(rows := s.rows[id := row.(
           quotedRate := Some(rate),
           quoteExpiresAt := Some(expiresAt),
           depositAddress := Coalesce(if deposit.Some? then Some(deposit.value.address) else None, row.depositAddress),
           depositAsset := Coalesce(if deposit.Some? then Some(deposit.value.asset) else None, row.depositAsset),
           depositChain := Coalesce(if deposit.Some? then Some(deposit.value.chain) else None, row.depositChain),
           updatedAt := now)]))
  }

  function LogOf(s: Store, id: IntentId): seq<Event> {
    if id in s.logs then s.logs[id] else []
  }

  function After(s: Store, tx: Tx): Store {
    match Commit(s, tx)
    case Ok(t) => t
    case Err(_) => s
  }

  /** Any interleaving of transactions is a sequence of commits. */
  function Run(s: Store, txs: seq<Tx>): Store {
    if txs == [] then s else After(Run(s, txs[..|txs| - 1]), txs[|txs| - 1])
  }

  function Types(log: seq<Event>): seq<EventType> {
    seq(|log|, k requires 0 <= k < |log| => log[k].eventType)
  }

  /** The row is what replaying its log gives. */
  predicate Replays(row: Intent, log: seq<Event>) {
    && IsPath(Types(log))
    && row.state == Last(Types(log))
    && row.version == |log|
    && forall k :: 0 <= k < |log| ==> log[k].version == k + 1
  }

  ghost predicate Consistent(s: Store) {
    && s.rows.Keys == s.logs.Keys
    && forall id :: id in s.rows ==> Replays(s.rows[id], s.logs[id])
  }

  lemma AppendReplays(row: Intent, log: seq<Event>, e: EventType, payload: Payload, now: int)
    requires Replays(row, log) && IsValidTransition(row.state, Target(e))
    ensures Replays(row.(state := Target(e), version := row.version + 1, updatedAt := now),
                    log + [Event(e, payload, row.version + 1)])
  {
    var longer := log + [Event(e, payload, row.version + 1)];
    assert Types(longer) == Types(log) + [e];
    Extend(Types(log), e);
  }

  /** What a new intent is stored as. */
  lemma CreateInFull(s: Store, id: IntentId, target: real, now: int)
    requires id !in s.rows
    ensures var t := After(s, Create(id, target, now));
            && t.rows == s.rows[id := t.rows[id]] && t.logs == s.logs[id := t.logs[id]]
            && t.rows[id].target == target && t.rows[id].state == Created && t.rows[id].version == 1
            && t.rows[id].createdAt == now && t.rows[id].updatedAt == now
            && t.rows[id].quotedRate == None && t.rows[id].quoteExpiresAt == None && t.rows[id].depositAddress == None
            && t.rows[id].depositAsset == None && t.rows[id].depositChain == None
            && t.logs[id] == [Event(IntentCreated, Payload(None, None), 1)]
  {
  }

  /** What an allowed transition changes: state, version and time of the row, and one more event
      with the payload; a refused one changes nothing. */
  lemma TransitionInFull(s: Store, id: IntentId, e: EventType, payload: Payload, now: int)
    requires id in s.rows && id in s.logs
    ensures var t := After(s, Transition(id, e, payload, now));
            if IsValidTransition(s.rows[id].state, Target(e))
            then && t.rows == s.rows[id := s.rows[id].(state := Target(e), version := s.rows[id].version + 1, updatedAt := now)]
                 && t.logs == s.logs[id := s.logs[id] + [Event(e, payload, s.rows[id].version + 1)]]
            else t == s
  {
  }

  /** What a quote changes: rate and expiry always, the deposit details if given, the time; never
      the state, the version or the log. */
  lemma QuoteInFull(s: Store, id: IntentId, rate: real, expiresAt: int, deposit: Option<Deposit>, now: int)
    requires id in s.rows
    ensures var t := After(s, UpdateQuote(id, rate, expiresAt, deposit, now));
            && t.logs == s.logs && t.rows == s.rows[id := t.rows[id]]
            && t.rows[id].quotedRate == Some(rate) && t.rows[id].quoteExpiresAt == Some(expiresAt) && t.rows[id].updatedAt == now
            && t.rows[id].state == s.rows[id].state && t.rows[id].version == s.rows[id].version
            && t.rows[id].target == s.rows[id].target && t.rows[id].createdAt == s.rows[id].createdAt
            && t.rows[id].depositAddress == (if deposit.Some? then Some(deposit.value.address) else s.rows[id].depositAddress)
            && t.rows[id].depositAsset == (if deposit.Some? then Some(deposit.value.asset) else s.rows[id].depositAsset)
            && t.rows[id].depositChain == (if deposit.Some? then Some(deposit.value.chain) else s.rows[id].depositChain)
  {
  }

  lemma WriteKeepsConsistent(s: Store, id: IntentId, row: Intent, log: seq<Event>)
    requires Consistent(s) && Replays(row, log)
    ensures Consistent(Store(s.rows[id := row], s.logs[id := log]))
  {
  }

  lemma CommitKeepsConsistent(s: Store, tx: Tx)
    requires Consistent(s)
    ensures Consistent(After(s, tx))
  {
    var t := After(s, tx);
    if t != s {
      match tx
      case Create(id, target, now) =>
        assert Types(t.logs[id]) == [IntentCreated];
        WriteKeepsConsistent(s, id, t.rows[id], t.logs[id]);
      case Transition(id, e, payload, now) =>
        AppendReplays(s.rows[id], s.logs[id], e, payload, now);
        WriteKeepsConsistent(s, id, t.rows[id], t.logs[id]);
      case UpdateQuote(id, rate, expiresAt, deposit, now) =>
        assert s.logs[id := s.logs[id]] == s.logs;
        WriteKeepsConsistent(s, id, t.rows[id], s.logs[id]);
    }
  }

  /** After any interleaving of transactions every row is a replay of its log. */
  lemma {:induction false} RunKeepsConsistent(s: Store, txs: seq<Tx>)
    requires Consistent(s)
    ensures Consistent(Run(s, txs))
  {
    if txs != [] {
      RunKeepsConsistent(s, txs[..|txs| - 1]);
      CommitKeepsConsistent(Run(s, txs[..|txs| - 1]), txs[|txs| - 1]);
    }
  }

  /** The log is append-only, and no intent is lost. */
  lemma {:induction false} LogsOnlyGrow(s: Store, txs: seq<Tx>, id: IntentId)
    requires Consistent(s) && id in s.rows
    ensures id in Run(s, txs).rows && id in Run(s, txs).logs
    ensures s.logs[id] <= Run(s, txs).logs[id]
    ensures s.rows[id].createdAt == Run(s, txs).rows[id].createdAt
    ensures s.rows[id].target == Run(s, txs).rows[id].target
  {
    if txs != [] {
      LogsOnlyGrow(s, txs[..|txs| - 1], id);
      RunKeepsConsistent(s, txs[..|txs| - 1]);
    }
  }

  /** Once terminal, an intent's state, version and log never change again. */
  lemma {:induction false} TerminalForever(s: Store, txs: seq<Tx>, id: IntentId)
    requires Consistent(s) && id in s.rows && Terminal(s.rows[id].state)
    ensures id in Run(s, txs).rows && id in Run(s, txs).logs
    ensures Run(s, txs).rows[id].state == s.rows[id].state
    ensures Run(s, txs).rows[id].version == s.rows[id].version
    ensures Run(s, txs).logs[id] == s.logs[id]
  {
    if txs != [] {
      TerminalForever(s, txs[..|txs| - 1], id);
    }
  }

  /** The store after any run from the empty database: each log is versioned 1..n, a path of
      the transition table of bounded length, has exactly-once effects, and gives the row. */
  lemma RunIsReplay(txs: seq<Tx>, id: IntentId)
    requires id in Run(EmptyStore, txs).rows
    ensures
      var s := Run(EmptyStore, txs);
      && id in s.logs && Replays(s.rows[id], s.logs[id])
      && var types := Types(s.logs[id]);
         && s.rows[id].version - 1 <= 7 + 3 * TopUps(types)
         && Count(types, ConfirmationReceived) <= 1
         && Count(types, RouteSelected) <= 1
         && Count(types, SettlementInitiated) <= 1
         && Settlements(types) <= 1
         && Count(types, DepositDetected) <= Count(types, PaymentAwaited)
  {
    RunKeepsConsistent(EmptyStore, txs);
    var types := Types(Run(EmptyStore, txs).logs[id]);
    PathLength(types);
    ExactlyOnce(types);
  }

  predicate AwaitsDepositAt(row: Intent, chain: string, address: string) {
    && row.depositChain == Some(chain)
    && row.depositAddress == Some(address)
    && row.state in {Quoted, AwaitingPayment, Underpaid}
  }

  function UpdatedAt(rows: map<IntentId, Intent>): IntentId -> int {
    id => if id in rows then rows[id].updatedAt else 0
  }

  class IntentRepository {
    var rows: map<IntentId, Intent>
    var logs: map<IntentId, seq<Event>>

    constructor ()
      ensures Value() == EmptyStore
    {
      rows := map[];
      logs := map[];
    }

    function Value(): Store
      reads this
    {
      Store(rows, logs)
    }

    method CreateIntent(id: IntentId, target: real, now: int) returns (r: Result<Intent, RepoError>)
      modifies this
      ensures Value() == After(old(Value()), Create(id, target, now))
      ensures id in old(rows) ==> r == Err(DuplicateId)
      ensures id !in old(rows) ==> id in rows && r == Ok(rows[id]) && r.value.state == Created
    {
      if id in rows {
        return Err(DuplicateId);
      }
      var intent := Intent(target, None, None, None, None, None, Created, 1, now, now);
      rows := rows[id := intent];
      logs := logs[id := [Event(IntentCreated, NoPayload, 1)]];
      return Ok(intent);
    }

    method TransitionIntent(id: IntentId, e: EventType, payload: Payload, now: int)
      returns (r: Result<Intent, RepoError>)
      modifies this
      ensures Value() == After(old(Value()), Transition(id, e, payload, now))
      ensures r.Ok? <==> id in old(rows) && IsValidTransition(old(rows)[id].state, Target(e))
      ensures r.Ok? ==> id in rows && r.value == rows[id] && r.value.state == Target(e)
      ensures r.Err? ==> r.error == if id !in old(rows) then IntentNotFound
                                    else InvalidTransition(old(rows)[id].state, Target(e))
    {
      if id !in rows {
        return Err(IntentNotFound);
      }
      var current := rows[id];
      var nextState := Target(e);
      if !IsValidTransition(current.state, nextState) {
        return Err(InvalidTransition(current.state, nextState));
      }
      var newVersion := current.version + 1;
      var updated := current.(state := nextState, version := newVersion, updatedAt := now);
      rows := rows[id := updated];
      logs := logs[id := (if id in logs then logs[id] else []) + [Event(e, payload, newVersion)]];
      return Ok(updated);
    }

    method UpdateIntentQuote(id: IntentId, rate: real, expiresAt: int, deposit: Option<Deposit>, now: int)
      returns (r: Result<Intent, RepoError>)
      modifies this
      ensures Value() == After(old(Value()), UpdateQuote(id, rate, expiresAt, deposit, now))
      ensures r.Ok? <==> id in old(rows)
      ensures r.Ok? ==> id in rows && r.value == rows[id] && r.value.state == old(rows)[id].state
      ensures r.Err? ==> r.error == IntentNotFound
    {
      if id !in rows {
        return Err(IntentNotFound);
      }
      var row := rows[id];
      row := row.(quotedRate := Some(rate), quoteExpiresAt := Some(expiresAt), updatedAt := now);
      if deposit.Some? {
        row := row.(depositAddress := Some(deposit.value.address),
                    depositAsset := Some(deposit.value.asset),
                    depositChain := Some(deposit.value.chain));
      }
      rows := rows[id := row];
      return Ok(row);
    }

    method FindById(id: IntentId) returns (r: Option<Intent>)
      ensures r == if id in rows then Some(rows[id]) else None
    {
      r := if id in rows then Some(rows[id]) else None;
    }

    method GetEvents(id: IntentId) returns (log: seq<Event>)
      ensures log == LogOf(Value(), id)
    {
      log := if id in logs then logs[id] else [];
    }

    /** Rows in a state, least recently updated first. */
    method FindByState(state: State, limit: nat) returns (ids: seq<IntentId>, ghost found: set<IntentId>)
      ensures IsFirst((set id | id in rows && rows[id].state == state),
                      UpdatedAt(rows), limit, found)
      ensures |ids| == |found| && forall id :: id in ids <==> id in found
      ensures forall i :: 0 <= i < |ids| ==> ids[i] in rows && rows[ids[i]].state == state
      ensures forall i, j :: 0 <= i < j < |ids| ==> ids[i] != ids[j]
      ensures forall i, j :: 0 <= i < j < |ids| ==> rows[ids[i]].updatedAt <= rows[ids[j]].updatedAt
    {
      var snapshot := rows;
      var matching := set id | id in snapshot && snapshot[id].state == state;
      ids, found := TakeFirst(matching, UpdatedAt(snapshot), limit);
      assert forall i :: 0 <= i < |ids| ==> ids[i] in matching && UpdatedAt(snapshot)(ids[i]) == rows[ids[i]].updatedAt;
    }

    /** Every intent that expects a deposit somewhere, each once, oldest first. */
    method FindAwaitingDeposits() returns (ids: seq<IntentId>)
      ensures forall id :: id in ids <==>
                id in rows && rows[id].depositAddress.Some? && rows[id].state in {Quoted, AwaitingPayment, Underpaid}
      ensures forall i, j :: 0 <= i < j < |ids| ==> ids[i] != ids[j]
      ensures forall i, j :: 0 <= i < j < |ids| ==> rows[ids[i]].createdAt <= rows[ids[j]].createdAt
    {
      var snapshot := rows;
      var matching := set id | && id in snapshot && snapshot[id].depositAddress.Some?
                               && snapshot[id].state in {Quoted, AwaitingPayment, Underpaid};
      var createdAt := (id: IntentId) => if id in snapshot then snapshot[id].createdAt else 0;
      ghost var found;
      ids, found := TakeFirst(matching, createdAt, |matching|);
      assert |matching - found| == |matching| - |found| == 0;
      assert found == matching;
      assert forall i :: 0 <= i < |ids| ==> ids[i] in matching && createdAt(ids[i]) == rows[ids[i]].createdAt;
    }

    /** The newest intent expecting a deposit at an address. */
    method FindAwaitingDepositAt(chain: string, address: string) returns (r: Option<IntentId>)
      ensures r.None? ==> forall id :: id in rows ==>
                !(rows[id].depositChain == Some(chain) && rows[id].depositAddress == Some(address)
                  && (rows[id].state == Quoted || rows[id].state == AwaitingPayment || rows[id].state == Underpaid))
      ensures r.None? ==> forall id :: id in rows ==> !AwaitsDepositAt(rows[id], chain, address)
      ensures r.Some? ==>
                && r.value in rows && rows[r.value].depositChain == Some(chain) && rows[r.value].depositAddress == Some(address)
                && (rows[r.value].state == Quoted || rows[r.value].state == AwaitingPayment || rows[r.value].state == Underpaid)
      ensures r.Some? ==>
                && r.value in rows && AwaitsDepositAt(rows[r.value], chain, address)
                && forall id :: id in rows && AwaitsDepositAt(rows[id], chain, address) ==>
                     rows[id].createdAt <= rows[r.value].createdAt
    {
      var snapshot := rows;
      var matching := set id | id in snapshot && AwaitsDepositAt(snapshot[id], chain, address);
      var newest := (id: IntentId) => if id in snapshot then -snapshot[id].createdAt else 0;
      assert forall id :: id in rows && AwaitsDepositAt(rows[id], chain, address) ==> id in matching;
      if matching == {} {
        return None;
      }
      var id := Least(matching, newest);
      assert forall o :: o in matching ==> newest(id) <= newest(o);
      return Some(id);
    }
  }
}
