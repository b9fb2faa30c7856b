/** PaymentIntentService: how each service call advances an intent through the repository.
    Webhook delivery may fail after the transition committed; webhookOk says whether it did. */
module IntentService {
  import opened Wrappers
  import opened IntentStates
  import opened IntentStore

  datatype ServiceError =
    | NotFound
    | Validation(state: State)
    | QuoteHasExpired
    | Rejected(from: State, to: State)
    | WebhookFailed

  /** One observed transfer, handed to recordDeposit at some time. */
  datatype DepositCall = DepositCall(txHash: string, amount: real, now: int, webhookOk: bool)

  predicate QuoteIsOver(row: Intent, now: int) {
    row.quoteExpiresAt.Some? && row.quoteExpiresAt.value < now
  }

  /** The event detectDeposit tries to record: one percent of tolerance either way. */
  function Verdict(row: Intent, amount: real, now: int): EventType {
    if QuoteIsOver(row, now) then QuoteExpired
    else if amount < row.target * 0.99 then UnderpaymentDetected
    else if amount > row.target * 1.01 then OverpaymentDetected
    else DepositDetected
  }

  function Moment(e: EventType, id: IntentId, c: DepositCall): Tx {
    Transition(id, e, if e in {DepositDetected, UnderpaymentDetected, OverpaymentDetected}
                      then Payload(Some(c.txHash), None) else NoPayload, c.now)
  }

  /** What a recordDeposit call commits, in order. Only a quoted or awaiting intent can take a
      deposit, and then only an expiry or an amount within tolerance. */
  function DepositTxs(row: Intent, id: IntentId, c: DepositCall): seq<Tx> {
    if row.state !in {Quoted, AwaitingPayment} then [] else
    (if row.state == Quoted then [Moment(PaymentAwaited, id, c)] else [])
    + (if Verdict(row, c.amount, c.now) in {QuoteExpired, DepositDetected}
       then [Moment(Verdict(row, c.amount, c.now), id, c)] else [])
  }

  /** Whether the call returns normally. */
  predicate Returns(row: Intent, c: DepositCall) {
    && row.state != Underpaid
    && (row.state in {Quoted, AwaitingPayment} ==>
          var v := Verdict(row, c.amount, c.now);
          v == QuoteExpired || (v == DepositDetected && c.webhookOk))
  }

  class PaymentIntentService {
    const repository: IntentRepository

    constructor (repository: IntentRepository)
      ensures this.repository == repository
    {
      this.repository := repository;
    }

    /** expiresAt is the clock plus the merchant's time to live. */
    method GenerateQuote(id: IntentId, rate: real, deposit: Deposit, expiresAt: int, now: int, webhookOk: bool)
      returns (r: Result<Intent, ServiceError>)
      modifies repository
      ensures id !in old(repository.rows) || old(repository.rows)[id].state != Created ==>
                r.Err? && repository.Value() == old(repository.Value())
      ensures id in old(repository.rows) && old(repository.rows)[id].state == Created ==>
                && repository.Value() == Run(old(repository.Value()),
                                             [UpdateQuote(id, rate, expiresAt, Some(deposit), now),
                                              Transition(id, QuoteGenerated, NoPayload, now)])
                && id in repository.rows && repository.rows[id].state == Quoted
                && repository.rows[id].depositChain == Some(deposit.chain)
                && repository.rows[id].depositAddress == Some(deposit.address)
                && repository.rows[id].quoteExpiresAt == Some(expiresAt)
                && (r.Ok? <==> webhookOk)
    {
      ghost var s := repository.Value();
      var found := repository.FindById(id);
      if found.None? {
        return Err(NotFound);
      }
      if !IsValidTransition(found.value.state, Quoted) {
        return Err(Validation(found.value.state));
      }
      var _ := repository.UpdateIntentQuote(id, rate, expiresAt, Some(deposit), now);
      var quoted := repository.TransitionIntent(id, QuoteGenerated, NoPayload, now);
      RunTwo(s, UpdateQuote(id, rate, expiresAt, Some(deposit), now), Transition(id, QuoteGenerated, NoPayload, now));
      return if webhookOk then Ok(quoted.value) else Err(WebhookFailed);
    }

    method AwaitPayment(id: IntentId, now: int) returns (r: Result<Intent, ServiceError>)
      modifies repository
      ensures id !in old(repository.rows) ==> r == Err(NotFound)
      ensures r.Ok? <==> id in old(repository.rows) && old(repository.rows)[id].state in {Quoted, Underpaid}
      ensures r.Err? ==> repository.Value() == old(repository.Value())
      ensures r.Ok? ==> repository.Value() == After(old(repository.Value()), Transition(id, PaymentAwaited, NoPayload, now))
    {
      var found := repository.FindById(id);
      if found.None? {
        return Err(NotFound);
      }
      if !IsValidTransition(found.value.state, AwaitingPayment) {
        return Err(Validation(found.value.state));
      }
      var updated := repository.TransitionIntent(id, PaymentAwaited, NoPayload, now);
      return Ok(updated.value);
    }

    /** Tries to record the verdict, in whatever state the intent is. */
    method DetectDeposit(id: IntentId, c: DepositCall) returns (r: Result<Intent, ServiceError>)
      modifies repository
      ensures id !in old(repository.rows) ==> r == Err(NotFound) && repository.Value() == old(repository.Value())
      ensures id in old(repository.rows) ==>
                var row := old(repository.rows)[id];
                var v := Verdict(row, c.amount, c.now);
                && repository.Value() == After(old(repository.Value()), Moment(v, id, c))
                && (r.Err? && r.error == QuoteHasExpired <==> v == QuoteExpired && IsValidTransition(row.state, Expired))
                && (r.Ok? <==> v != QuoteExpired && IsValidTransition(row.state, Target(v)) && c.webhookOk)
      ensures r.Ok? ==> id in repository.rows && r.value == repository.rows[id]
    {
      var found := repository.FindById(id);
      if found.None? {
        return Err(NotFound);
      }
      var intent := found.value;
      if intent.quoteExpiresAt.Some? && intent.quoteExpiresAt.value < c.now {
        var expired := repository.TransitionIntent(id, QuoteExpired, NoPayload, c.now);
        return if expired.Ok? then Err(QuoteHasExpired) else Err(Rejected(intent.state, Expired));
      }
      var payload := Payload(Some(c.txHash), None);
      var updated;
      if c.amount < intent.target * (1.0 - 0.01) {
        updated := repository.TransitionIntent(id, UnderpaymentDetected, payload, c.now);
      } else if c.amount > intent.target * (1.0 + 0.01) {
        updated := repository.TransitionIntent(id, OverpaymentDetected, payload, c.now);
      } else {
        updated := repository.TransitionIntent(id, DepositDetected, payload, c.now);
      }
      if updated.Err? {
        return Err(Rejected(intent.state, Target(Verdict(intent, c.amount, c.now))));
      }
      return if c.webhookOk then Ok(updated.value) else Err(WebhookFailed);
    }

    /** The watcher's entry point; an expired quote is a normal return. */
    method RecordDeposit(id: IntentId, c: DepositCall) returns (r: Result<Intent, ServiceError>)
      modifies repository
      ensures id !in old(repository.rows) ==> r == Err(NotFound) && repository.Value() == old(repository.Value())
      ensures id in old(repository.rows) ==>
                && repository.Value() == Run(old(repository.Value()), DepositTxs(old(repository.rows)[id], id, c))
                && (r.Ok? <==> Returns(old(repository.rows)[id], c))
      ensures r.Ok? ==> id in repository.rows && r.value == repository.rows[id]
    {
      ghost var s := repository.Value();
      var found := repository.FindById(id);
      if found.None? {
        return Err(NotFound);
      }
      var intent := found.value;
      if intent.state !in {Quoted, AwaitingPayment, Underpaid} {
        return Ok(intent);
      }
      DepositRun(s, id, c);
      DepositReturns(s, id, c);
      if intent.state == Quoted {
        var _ := AwaitPayment(id, c.now);
      }
      r := DetectOrExpire(id, c, Verdict(intent, c.amount, c.now));
    }

    /** Detection as recordDeposit sees it, where a quote that ran out is no error. */
    method DetectOrExpire(id: IntentId, c: DepositCall, ghost v: EventType) returns (r: Result<Intent, ServiceError>)
      requires id in repository.rows && v == Verdict(repository.rows[id], c.amount, c.now)
      modifies repository
      ensures repository.Value() == After(old(repository.Value()), Moment(v, id, c))
      ensures r.Ok? <==> IsValidTransition(old(repository.rows)[id].state, Target(v)) && (v == QuoteExpired || c.webhookOk)
      ensures r.Ok? ==> id in repository.rows && r.value == repository.rows[id]
    {
      r := DetectDeposit(id, c);
      if r.Err? && r.error == QuoteHasExpired {
        var expired := repository.FindById(id);
        if expired.Some? {
          return Ok(expired.value);
        }
      }
    }

    /** Expires every overdue intent, each with one event, and no other; a webhook that fails
        is logged and the sweep goes on. */
    method ProcessExpiredQuotes(now: int) returns (count: nat, ghost expired: seq<IntentId>)
      requires repository.rows.Keys <= repository.logs.Keys
      modifies repository
      ensures forall id :: id in expired <==>
                && id in old(repository.rows)
                && (old(repository.rows)[id].state == Quoted || old(repository.rows)[id].state == AwaitingPayment)
                && old(repository.rows)[id].quoteExpiresAt.Some? && old(repository.rows)[id].quoteExpiresAt.value < now
      ensures count == |expired| && forall i, j :: 0 <= i < j < |expired| ==> expired[i] != expired[j]
      ensures repository.Value() == Sweep(old(repository.Value()), expired, now)
    {
      ghost var before := repository.Value();
      var ids := FindExpired(now);
      expired := ids;
      SweepNone(before, now);
      for i := 0 to |ids|
        invariant repository.Value() == Sweep(before, ids[..i], now)
      {
        NextIsFresh(ids, i);
        ExpireOne(ids[i], now, before, ids[..i]);
      }
      assert ids[..|ids|] == ids;
      count := |ids|;
    }

    method FindExpired(now: int) returns (ids: seq<IntentId>)
      ensures forall id :: id in ids <==> id in repository.rows && IsOverdue(repository.rows[id], now)
      ensures forall i, j :: 0 <= i < j < |ids| ==> ids[i] != ids[j]
    {
      var rows := repository.rows;
      var rest := set id | id in rows && IsOverdue(rows[id], now);
      ids := [];
      while rest != {}
        invariant forall id :: id in rows && IsOverdue(rows[id], now) <==> id in rest || id in ids
        invariant forall id :: id in rest ==> id !in ids
        invariant forall i, j :: 0 <= i < j < |ids| ==> ids[i] != ids[j]
        decreases |rest|
      {
        var id :| id in rest;
        ids, rest := ids + [id], rest - {id};
      }
    }

    method ExpireOne(id: IntentId, now: int, ghost before: Store, ghost done: seq<IntentId>)
      requires repository.Value() == Sweep(before, done, now) && id !in done
      requires id in before.rows && id in before.logs && before.rows[id].state in {Quoted, AwaitingPayment}
      modifies repository
      ensures repository.Value() == Sweep(before, done + [id], now)
    {
      SweepOne(before, done, id, now);
      var _ := repository.TransitionIntent(id, QuoteExpired, NoPayload, now);
    }

    method ConfirmDeposit(id: IntentId, confirmations: real, now: int, webhookOk: bool)
      returns (r: Result<Intent, ServiceError>)
      modifies repository
      ensures repository.Value() == After(old(repository.Value()),
                                          Transition(id, ConfirmationReceived, Payload(None, Some(confirmations)), now))
      ensures r.Ok? <==> id in old(repository.rows) && old(repository.rows)[id].state == Detected && webhookOk
    {
      var found := repository.FindById(id);
      if found.None? {
        return Err(NotFound);
      }
      var updated := repository.TransitionIntent(id, ConfirmationReceived, Payload(None, Some(confirmations)), now);
      if updated.Err? {
        return Err(Rejected(found.value.state, Confirming));
      }
      return if webhookOk then Ok(updated.value) else Err(WebhookFailed);
    }
  }

  predicate IsOverdue(row: Intent, now: int) {
    row.state in {Quoted, AwaitingPayment} && QuoteIsOver(row, now)
  }

  function SweepRows(rows: map<IntentId, Intent>, done: seq<IntentId>, now: int): map<IntentId, Intent> {
    map id | id in rows ::
      if id in done then rows[id].(state := Expired, version := rows[id].version + 1, updatedAt := now) else rows[id]
  }

  function SweepLogs(s: Store, done: seq<IntentId>): map<IntentId, seq<Event>> {
    map id | id in s.logs ::
      if id in done && id in s.rows then s.logs[id] + [Event(QuoteExpired, NoPayload, s.rows[id].version + 1)]
      else s.logs[id]
  }

  /** The store with exactly these intents expired, each by one event. */
  function Sweep(s: Store, done: seq<IntentId>, now: int): Store {
    Store(SweepRows(s.rows, done, now), SweepLogs(s, done))
  }

  /** A sweep changes state, version and time of the intents it expires and appends one event to
      their logs; all else stays. */
  lemma SweepInFull(s: Store, done: seq<IntentId>, now: int, id: IntentId)
    requires id in s.rows && id in s.logs
    ensures
      var t := Sweep(s, done, now);
      && t.rows.Keys == s.rows.Keys && t.logs.Keys == s.logs.Keys
      && if id in done
         then && t.rows[id].state == Expired && t.rows[id].version == s.rows[id].version + 1 && t.rows[id].updatedAt == now
              && t.rows[id].target == s.rows[id].target && t.rows[id].createdAt == s.rows[id].createdAt
              && t.rows[id].quotedRate == s.rows[id].quotedRate && t.rows[id].quoteExpiresAt == s.rows[id].quoteExpiresAt
              && t.rows[id].depositAddress == s.rows[id].depositAddress && t.rows[id].depositChain == s.rows[id].depositChain
              && t.logs[id] == s.logs[id] + [Event(QuoteExpired, NoPayload, s.rows[id].version + 1)]
         else t.rows[id] == s.rows[id] && t.logs[id] == s.logs[id]
  {
  }

  lemma NextIsFresh(ids: seq<IntentId>, i: nat)
    requires i < |ids| && forall j, k :: 0 <= j < k < |ids| ==> ids[j] != ids[k]
    ensures ids[i] in ids && ids[i] !in ids[..i] && ids[..i + 1] == ids[..i] + [ids[i]]
  {
  }

  lemma SweepNone(s: Store, now: int)
    ensures Sweep(s, [], now) == s
  {
  }

  lemma SweepOneRow(rows: map<IntentId, Intent>, done: seq<IntentId>, id: IntentId, now: int)
    requires id in rows
    ensures SweepRows(rows, done + [id], now)
         == SweepRows(rows, done, now)[id := rows[id].(state := Expired, version := rows[id].version + 1, updatedAt := now)]
  {
    assert forall x :: x in done + [id] <==> x in done || x == id;
  }

  lemma SweepOneLog(s: Store, done: seq<IntentId>, id: IntentId)
    requires id in s.rows && id in s.logs
    ensures SweepLogs(s, done + [id])
         == SweepLogs(s, done)[id := s.logs[id] + [Event(QuoteExpired, NoPayload, s.rows[id].version + 1)]]
  {
    assert forall x :: x in done + [id] <==> x in done || x == id;
  }

  lemma SweepOne(s: Store, done: seq<IntentId>, id: IntentId, now: int)
    requires id in s.rows && id in s.logs && id !in done && s.rows[id].state in {Quoted, AwaitingPayment}
    ensures Sweep(s, done + [id], now) == After(Sweep(s, done, now), Transition(id, QuoteExpired, NoPayload, now))
  {
    SweepOneRow(s.rows, done, id, now);
    SweepOneLog(s, done, id);
  }

  lemma RunOne(s: Store, tx: Tx)
    ensures Run(s, [tx]) == After(s, tx)
  {
    assert [tx][..0] == [];
  }

  lemma RunTwo(s: Store, first: Tx, second: Tx)
    ensures Run(s, [first, second]) == After(After(s, first), second)
    ensures [first, second] == [first] + [second]
  {
    assert [first, second][..1] == [first];
    RunOne(s, first);
  }

  /** The store in which a call looks for its verdict. */
  function Awaited(s: Store, id: IntentId, c: DepositCall): Store {
    if id in s.rows && s.rows[id].state == Quoted then After(s, Moment(PaymentAwaited, id, c)) else s
  }

  lemma AwaitedRow(s: Store, id: IntentId, c: DepositCall)
    requires id in s.rows
    ensures id in Awaited(s, id, c).rows
    ensures var row, t := s.rows[id], Awaited(s, id, c).rows[id];
            && t.state == (if row.state == Quoted then AwaitingPayment else row.state)
            && t.target == row.target && t.quoteExpiresAt == row.quoteExpiresAt
            && Verdict(t, c.amount, c.now) == Verdict(row, c.amount, c.now)
  {
  }

  /** The transactions of a call are those of its verdict, after PAYMENT_AWAITED if quoted. */
  lemma DepositRun(s: Store, id: IntentId, c: DepositCall)
    requires id in s.rows
    ensures
      var row := s.rows[id];
      Run(s, DepositTxs(row, id, c)) ==
      if row.state in {Quoted, AwaitingPayment, Underpaid}
      then After(Awaited(s, id, c), Moment(Verdict(row, c.amount, c.now), id, c))
      else s
  {
    var row := s.rows[id];
    var v := Moment(Verdict(row, c.amount, c.now), id, c);
    AwaitedRow(s, id, c);
    if row.state == Quoted {
      RunOne(s, Moment(PaymentAwaited, id, c));
      RunTwo(s, Moment(PaymentAwaited, id, c), v);
    } else {
      RunOne(s, v);
    }
  }

  lemma DepositReturns(s: Store, id: IntentId, c: DepositCall)
    requires id in s.rows && s.rows[id].state in {Quoted, AwaitingPayment, Underpaid}
    ensures id in Awaited(s, id, c).rows
    ensures
      var row := Awaited(s, id, c).rows[id];
      var v := Verdict(row, c.amount, c.now);
      && v == Verdict(s.rows[id], c.amount, c.now)
      && (Returns(s.rows[id], c) <==> IsValidTransition(row.state, Target(v)) && (v == QuoteExpired || c.webhookOk))
  {
    AwaitedRow(s, id, c);
  }

  // Sequences of recordDeposit calls on one intent.

  function AfterCall(s: Store, id: IntentId, c: DepositCall): Store {
    if id in s.rows then Run(s, DepositTxs(s.rows[id], id, c)) else s
  }

  function AfterCalls(s: Store, id: IntentId, calls: seq<DepositCall>): Store
    decreases |calls|
  {
    if calls == [] then s else AfterCalls(AfterCall(s, id, calls[0]), id, calls[1..])
  }

  /** The intent after a call that accepted it: its state, and one more detection if any. */
  predicate Took(s: Store, t: Store, id: IntentId, v: EventType)
    requires id in s.rows && id in s.logs
  {
    && id in t.rows && id in t.logs
    && t.rows[id].state == (match v
                            case QuoteExpired => Expired
                            case DepositDetected => Detected
                            case _ => AwaitingPayment)
    && Count(Types(t.logs[id]), DepositDetected)
       == Count(Types(s.logs[id]), DepositDetected) + if v == DepositDetected then 1 else 0
  }

  lemma Appended(s: Store, tx: Tx)
    requires tx.Transition? && tx.id in s.rows && tx.id in s.logs
    requires IsValidTransition(s.rows[tx.id].state, Target(tx.eventType))
    ensures
      var t := After(s, tx);
      && tx.id in t.rows && tx.id in t.logs
      && t.rows[tx.id].state == Target(tx.eventType)
      && t.rows[tx.id].target == s.rows[tx.id].target && t.rows[tx.id].quoteExpiresAt == s.rows[tx.id].quoteExpiresAt
      && Count(Types(t.logs[tx.id]), DepositDetected)
         == Count(Types(s.logs[tx.id]), DepositDetected) + if tx.eventType == DepositDetected then 1 else 0
  {
    var longer := Types(After(s, tx).logs[tx.id]);
    assert longer == Types(s.logs[tx.id]) + [tx.eventType];
    assert longer[..|longer| - 1] == Types(s.logs[tx.id]);
  }

  lemma AwaitingTakes(s: Store, id: IntentId, c: DepositCall)
    requires id in s.rows && id in s.logs && s.rows[id].state == AwaitingPayment
    ensures
      var v := Verdict(s.rows[id], c.amount, c.now);
      Took(s, After(s, Moment(v, id, c)), id, v)
  {
    var v := Verdict(s.rows[id], c.amount, c.now);
    if IsValidTransition(AwaitingPayment, Target(v)) {
      Appended(s, Moment(v, id, c));
    }
  }

  lemma CallKeepsConsistent(s: Store, id: IntentId, c: DepositCall)
    requires Consistent(s) && id in s.rows
    ensures Consistent(AfterCall(s, id, c))
  {
    RunKeepsConsistent(s, DepositTxs(s.rows[id], id, c));
  }

  lemma CallEffect(s: Store, id: IntentId, c: DepositCall)
    requires id in s.rows && id in s.logs
    ensures if s.rows[id].state in {Quoted, AwaitingPayment}
            then Took(s, AfterCall(s, id, c), id, Verdict(s.rows[id], c.amount, c.now))
            else AfterCall(s, id, c) == s
  {
    DepositRun(s, id, c);
    if s.rows[id].state == Quoted {
      Appended(s, Moment(PaymentAwaited, id, c));
      AwaitingTakes(After(s, Moment(PaymentAwaited, id, c)), id, c);
    } else if s.rows[id].state == AwaitingPayment {
      AwaitingTakes(s, id, c);
    }
  }

  /** Any number of calls, with any amounts and times, append at most one DEPOSIT_DETECTED. */
  lemma {:induction false} DetectedAtMostOnce(s: Store, id: IntentId, calls: seq<DepositCall>)
    requires Consistent(s) && id in s.rows
    ensures Consistent(AfterCalls(s, id, calls)) && id in AfterCalls(s, id, calls).rows
    ensures Count(Types(AfterCalls(s, id, calls).logs[id]), DepositDetected)
            <= Count(Types(s.logs[id]), DepositDetected)
               + (if s.rows[id].state in {Quoted, AwaitingPayment} then 1 else 0)
    decreases |calls|
  {
    if calls != [] {
      CallKeepsConsistent(s, id, calls[0]);
      CallEffect(s, id, calls[0]);
      DetectedAtMostOnce(AfterCall(s, id, calls[0]), id, calls[1..]);
    }
  }

  predicate TakesNoDeposit(s: State) {
    s !in {Quoted, AwaitingPayment, Underpaid}
  }

  lemma ReturnedCallIsLast(s: Store, id: IntentId, c: DepositCall)
    requires id in s.rows && id in s.logs && Returns(s.rows[id], c)
    ensures id in AfterCall(s, id, c).rows && TakesNoDeposit(AfterCall(s, id, c).rows[id].state)
  {
    CallEffect(s, id, c);
  }

  lemma IgnoredCall(row: Intent, id: IntentId, c: DepositCall)
    requires TakesNoDeposit(row.state)
    ensures DepositTxs(row, id, c) == [] && Returns(row, c)
  {
  }

  lemma {:induction false} IgnoredCalls(s: Store, id: IntentId, calls: seq<DepositCall>)
    requires id in s.rows && TakesNoDeposit(s.rows[id].state)
    ensures AfterCalls(s, id, calls) == s
    decreases |calls|
  {
    if calls != [] {
      IgnoredCall(s.rows[id], id, calls[0]);
      IgnoredCalls(s, id, calls[1..]);
    }
  }

  /** After a call that returned normally, no later call changes anything, and each returns. */
  lemma NoEffectAfterReturn(s: Store, id: IntentId, c: DepositCall, later: seq<DepositCall>)
    requires Consistent(s) && id in s.rows && Returns(s.rows[id], c)
    ensures AfterCalls(AfterCall(s, id, c), id, later) == AfterCall(s, id, c)
    ensures id in AfterCall(s, id, c).rows
    ensures forall k :: 0 <= k < |later| ==> Returns(AfterCall(s, id, c).rows[id], later[k])
  {
    ReturnedCallIsLast(s, id, c);
    var t := AfterCall(s, id, c);
    IgnoredCalls(t, id, later);
    forall k | 0 <= k < |later|
      ensures Returns(t.rows[id], later[k])
    {
      IgnoredCall(t.rows[id], id, later[k]);
    }
  }

  /** An amount out of tolerance, before expiry, is an error that leaves the intent awaiting. */
  lemma OutOfToleranceKeepsAwaiting(s: Store, id: IntentId, c: DepositCall)
    requires Consistent(s) && id in s.rows && s.rows[id].state in {Quoted, AwaitingPayment}
    requires !QuoteIsOver(s.rows[id], c.now)
    requires c.amount < s.rows[id].target * 0.99 || c.amount > s.rows[id].target * 1.01
    ensures !Returns(s.rows[id], c)
    ensures id in AfterCall(s, id, c).rows && AfterCall(s, id, c).rows[id].state == AwaitingPayment
  {
    CallEffect(s, id, c);
  }

  /** No top-up ever completes an underpaid intent: every call throws and changes nothing. */
  lemma {:induction false} TopUpNeverRecorded(s: Store, id: IntentId, calls: seq<DepositCall>)
    requires id in s.rows && s.rows[id].state == Underpaid
    ensures AfterCalls(s, id, calls) == s
    ensures forall k :: 0 <= k < |calls| ==> !Returns(s.rows[id], calls[k])
    decreases |calls|
  {
    if calls != [] {
      TopUpNeverRecorded(s, id, calls[1..]);
    }
  }

  // A call in numbers, from the states that take a deposit.

  predicate Unexpired(row: Intent, now: int) {
    row.quoteExpiresAt.None? || now <= row.quoteExpiresAt.value
  }

  /** The intent moved to this state with one last event, after at most a PAYMENT_AWAITED, and no
      other intent changed. */
  ghost predicate MovedTo(s: Store, t: Store, id: IntentId, state: State, e: EventType, payload: Payload) {
    && id in s.rows && id in s.logs && id in t.rows && id in t.logs
    && t.rows[id].state == state
    && (forall o :: o != id ==> (o in t.rows <==> o in s.rows) && (o in s.rows ==> t.rows[o] == s.rows[o]))
    && (forall o :: o != id ==> (o in t.logs <==> o in s.logs) && (o in s.logs ==> t.logs[o] == s.logs[o]))
    && var n := s.rows[id].version;
       if s.rows[id].state == Quoted
       then t.logs[id] == s.logs[id] + [Event(PaymentAwaited, NoPayload, n + 1), Event(e, payload, n + 2)]
       else t.logs[id] == s.logs[id] + [Event(e, payload, n + 1)]
  }

  lemma CallMoves(s: Store, id: IntentId, c: DepositCall)
    requires id in s.rows && id in s.logs && s.rows[id].state in {Quoted, AwaitingPayment}
    requires IsValidTransition(AwaitingPayment, Target(Verdict(s.rows[id], c.amount, c.now)))
    ensures
      var v := Verdict(s.rows[id], c.amount, c.now);
      MovedTo(s, AfterCall(s, id, c), id, Target(v), v, Moment(v, id, c).payload)
  {
    DepositRun(s, id, c);
    EventMoves(s, id, c, Verdict(s.rows[id], c.amount, c.now));
  }

  lemma EventMoves(s: Store, id: IntentId, c: DepositCall, v: EventType)
    requires id in s.rows && id in s.logs && s.rows[id].state in {Quoted, AwaitingPayment}
    requires IsValidTransition(AwaitingPayment, Target(v))
    ensures MovedTo(s, After(Awaited(s, id, c), Moment(v, id, c)), id, Target(v), v, Moment(v, id, c).payload)
  {
    if s.rows[id].state == Quoted {
      TransitionInFull(s, id, PaymentAwaited, NoPayload, c.now);
    }
    TransitionInFull(Awaited(s, id, c), id, v, Moment(v, id, c).payload, c.now);
  }

  /** A payment within one percent of the target, in time, is detected under its own hash, and the
      call returns exactly if the webhook gets through. */
  lemma GoodPaymentIsDetected(s: Store, id: IntentId, c: DepositCall)
    requires id in s.rows && id in s.logs && s.rows[id].state in {Quoted, AwaitingPayment}
    requires Unexpired(s.rows[id], c.now) && s.rows[id].target * 0.99 <= c.amount <= s.rows[id].target * 1.01
    ensures MovedTo(s, AfterCall(s, id, c), id, Detected, DepositDetected, Payload(Some(c.txHash), None))
    ensures Returns(s.rows[id], c) <==> c.webhookOk
  {
    CallMoves(s, id, c);
  }

  /** A payment of any amount after the quote ran out expires the intent, and the call returns. */
  lemma LatePaymentExpires(s: Store, id: IntentId, c: DepositCall)
    requires id in s.rows && id in s.logs && s.rows[id].state in {Quoted, AwaitingPayment}
    requires !Unexpired(s.rows[id], c.now)
    ensures MovedTo(s, AfterCall(s, id, c), id, Expired, QuoteExpired, Payload(None, None))
    ensures Returns(s.rows[id], c)
  {
    CallMoves(s, id, c);
  }

  /** Where the table allows it, after a first detection, a further amount is told under from over
      by the same percent; one in between or after the quote ran out is refused. */
  lemma SecondDetection(s: Store, id: IntentId, c: DepositCall)
    requires id in s.rows && id in s.logs && s.rows[id].state == Detected
    ensures
      var t := After(s, Moment(Verdict(s.rows[id], c.amount, c.now), id, c));
      && (Unexpired(s.rows[id], c.now) && c.amount < s.rows[id].target * 0.99 ==>
            MovedTo(s, t, id, Underpaid, UnderpaymentDetected, Payload(Some(c.txHash), None)))
      && (Unexpired(s.rows[id], c.now) && c.amount > s.rows[id].target * 1.01 && s.rows[id].target >= 0.0 ==>
            MovedTo(s, t, id, Overpaid, OverpaymentDetected, Payload(Some(c.txHash), None)))
      && (Unexpired(s.rows[id], c.now) && s.rows[id].target * 0.99 <= c.amount <= s.rows[id].target * 1.01 ==> t == s)
      && (!Unexpired(s.rows[id], c.now) ==> t == s)
  {
  }
}
