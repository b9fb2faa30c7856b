/** The job handlers: they read a payload and hand the work to the intent service. A handler
    that throws makes the queue fail the job; here it returns false. */
module JobHandlers {
  import opened Wrappers
  import opened IntentStates
  import opened IntentStore
  import opened IntentService
  import opened JobTable

  function RequireString(payload: JobPayload, key: string): Option<string> {
    if key in payload && payload[key].Text? && payload[key].text != "" then Some(payload[key].text) else None
  }

  function RequireNumber(payload: JobPayload, key: string): Option<real> {
    if key in payload && payload[key].Number? then Some(payload[key].number) else None
  }

  /** A payload the record handler accepts. */
  predicate IsRecordPayload(p: JobPayload) {
    && RequireString(p, "intentId").Some? && RequireString(p, "txHash").Some?
    && RequireString(p, "sourceChain").Some? && RequireString(p, "sourceAsset").Some?
    && RequireNumber(p, "amount").Some?
  }

  predicate IsConfirmPayload(p: JobPayload) {
    RequireString(p, "intentId").Some? && RequireNumber(p, "confirmations").Some?
  }

  function CallOf(p: JobPayload, now: int, webhookOk: bool): DepositCall
    requires IsRecordPayload(p)
  {
    DepositCall(RequireString(p, "txHash").value, RequireNumber(p, "amount").value, now, webhookOk)
  }

  function ConfirmTx(p: JobPayload, now: int): Tx
    requires IsConfirmPayload(p)
  {
    Transition(RequireString(p, "intentId").value, ConfirmationReceived,
               Payload(None, Some(RequireNumber(p, "confirmations").value)), now)
  }

  predicate IsText(p: JobPayload, key: string) {
    key in p && p[key].Text? && p[key].text != ""
  }

  /** A record job needs its four texts and its amount, and hands over hash and amount as they are. */
  lemma RecordNeedsAll(p: JobPayload, now: int, webhookOk: bool)
    ensures IsRecordPayload(p) <==>
            && IsText(p, "intentId") && IsText(p, "txHash") && IsText(p, "sourceChain") && IsText(p, "sourceAsset")
            && "amount" in p && p["amount"].Number?
    ensures IsRecordPayload(p) ==>
              && RequireString(p, "intentId").value == p["intentId"].text
              && CallOf(p, now, webhookOk).txHash == p["txHash"].text && CallOf(p, now, webhookOk).amount == p["amount"].number
              && CallOf(p, now, webhookOk).now == now && CallOf(p, now, webhookOk).webhookOk == webhookOk
  {
  }

  /** A confirm job needs its intent and its count, and its transaction carries both. */
  lemma ConfirmNeedsAll(p: JobPayload, now: int)
    ensures IsConfirmPayload(p) <==> IsText(p, "intentId") && "confirmations" in p && p["confirmations"].Number?
    ensures IsConfirmPayload(p) ==>
              ConfirmTx(p, now)
              == Transition(p["intentId"].text, ConfirmationReceived, Payload(None, Some(p["confirmations"].number)), now)
  {
  }

  method HandleDepositRecord(p: JobPayload, service: PaymentIntentService, now: int, webhookOk: bool)
    returns (ok: bool)
    modifies service.repository
    ensures !IsRecordPayload(p) ==> !ok && service.repository.Value() == old(service.repository.Value())
    ensures IsRecordPayload(p) ==>
              var id := RequireString(p, "intentId").value;
              && service.repository.Value() == AfterCall(old(service.repository.Value()), id, CallOf(p, now, webhookOk))
              && (ok <==> id in old(service.repository.rows)
                          && Returns(old(service.repository.rows)[id], CallOf(p, now, webhookOk)))
  {
    var intentId := RequireString(p, "intentId");
    var txHash := RequireString(p, "txHash");
    var sourceChain := RequireString(p, "sourceChain");
    var sourceAsset := RequireString(p, "sourceAsset");
    var amount := RequireNumber(p, "amount");
    if intentId.None? || txHash.None? || sourceChain.None? || sourceAsset.None? || amount.None? {
      return false;
    }
    var r := service.RecordDeposit(intentId.value, DepositCall(txHash.value, amount.value, now, webhookOk));
    return r.Ok?;
  }

  method HandleDepositConfirm(p: JobPayload, service: PaymentIntentService, now: int, webhookOk: bool)
    returns (ok: bool)
    modifies service.repository
    ensures !IsConfirmPayload(p) ==> !ok && service.repository.Value() == old(service.repository.Value())
    ensures IsConfirmPayload(p) ==>
              && service.repository.Value() == After(old(service.repository.Value()), ConfirmTx(p, now))
              && (ok <==> webhookOk && Commit(old(service.repository.Value()), ConfirmTx(p, now)).Ok?)
  {
    var intentId := RequireString(p, "intentId");
    var confirmations := RequireNumber(p, "confirmations");
    if intentId.None? || confirmations.None? {
      return false;
    }
    var r := service.ConfirmDeposit(intentId.value, confirmations.value, now, webhookOk);
    return r.Ok?;
  }

  /** A replayed confirm job, whenever and with whatever count, changes nothing: the second
      transition is refused because the intent has left Detected for good. */
  lemma ConfirmOnce(s: Store, p: JobPayload, q: JobPayload, between: seq<Tx>, now: int, later: int)
    requires Consistent(s) && IsConfirmPayload(p) && IsConfirmPayload(q)
    requires RequireString(p, "intentId") == RequireString(q, "intentId")
    requires Commit(s, ConfirmTx(p, now)).Ok?
    ensures var t := Run(After(s, ConfirmTx(p, now)), between);
            After(t, ConfirmTx(q, later)) == t
  {
    var id := RequireString(p, "intentId").value;
    var confirmed := After(s, ConfirmTx(p, now));
    CommitKeepsConsistent(s, ConfirmTx(p, now));
    LogsOnlyGrow(confirmed, between, id);
    RunKeepsConsistent(confirmed, between);
    var t := Run(confirmed, between);
    assert t.logs[id][|s.logs[id]|] == confirmed.logs[id][|s.logs[id]|];
    LoggedConfirmation(t.rows[id], t.logs[id], |s.logs[id]|);
    RefusedUnlessDetected(t, q, later);
  }

  lemma RefusedUnlessDetected(t: Store, p: JobPayload, now: int)
    requires IsConfirmPayload(p)
    requires var id := RequireString(p, "intentId").value; id in t.rows && t.rows[id].state != Detected
    ensures After(t, ConfirmTx(p, now)) == t
  {
  }

  lemma LoggedConfirmation(row: Intent, log: seq<Event>, k: nat)
    requires Replays(row, log) && k < |log| && log[k].eventType == ConfirmationReceived
    ensures row.state != Detected
  {
    ConfirmedIsPast(Types(log), k, |log| - 1);
  }

  /** Past a confirmation no state is Detected again. */
  lemma {:induction false} ConfirmedIsPast(log: seq<EventType>, k: nat, n: nat)
    requires IsPath(log) && k <= n < |log| && log[k] == ConfirmationReceived
    ensures Target(log[n]) in {Confirming, Routing, Settling, State.Settled, Failed}
  {
    if k < n {
      ConfirmedIsPast(log, k, n - 1);
      assert Follows(log, n);
    }
  }
}
