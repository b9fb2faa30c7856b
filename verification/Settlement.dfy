/** The settlement saga: ordered writes with one compensation, under a fault at any step. */
module Settlement {
  import opened Wrappers
  import opened Ledger
  import opened Rounding

  datatype Status = PENDING | PROCESSING | COMPLETED | FAILED | RETRYING

  /** A settlement row; its position in the table stands for its id. */
  datatype SettlementRow = SettlementRow(
    intentId: string,
    merchantId: string,
    amount: real,
    asset: string,
    status: Status,
    txHash: Option<string>,
    createdAt: int,
    completedAt: Option<int>)

  /** What settleIntent is asked to settle. */
  datatype Order = Order(intentId: string, merchantId: string, target: real, feePercentage: real, asset: string,
                         startedAt: int, finishedAt: int)

  /** A database write is done, refused, or done with the reply lost: the last two throw. */
  datatype Write = Done | Refused | ReplyLost

  datatype Faults = Faults(create: Write, processing: Write, completed: Write, fee: Write, settlement: Write, failed: Write)

  datatype Answer = RpcFails | TxStatus(confirmations: int, failed: bool)

  /** The chain's behaviour: whether the transaction is submitted, and what the k-th poll, made
      this many milliseconds after the first, is told. */
  datatype Chain = Chain(submitted: Option<string>, depth: int, answer: nat -> Answer, elapsed: nat -> int)

  const MAX_WAIT := 300_000
  const POLL_INTERVAL := 2000

  ghost predicate Ticks(elapsed: nat -> int) {
    elapsed(0) >= 0 && forall k: nat :: elapsed(k + 1) >= elapsed(k) + POLL_INTERVAL
  }

  predicate StillWaiting(c: Chain, k: nat) {
    c.elapsed(k) < MAX_WAIT && c.answer(k).TxStatus? && c.answer(k).confirmations < c.depth && !c.answer(k).failed
  }

  /** Some poll in time finds the depth reached before any poll throws or finds the transaction
      failed below it. Depth is looked at first: a failed transaction at depth passes. */
  ghost predicate Confirms(c: Chain) {
    exists k: nat ::
      && c.elapsed(k) < MAX_WAIT && c.answer(k).TxStatus? && c.answer(k).confirmations >= c.depth
      && forall j :: 0 <= j < k ==> StillWaiting(c, j)
  }

  /** The chain's behaviour from the second poll on. */
  function Rest(c: Chain): Chain {
    c.(answer := (k: nat) => c.answer(k + 1), elapsed := (k: nat) => c.elapsed(k + 1))
  }

  /** The first poll decides, or leaves it to the rest: after 300 seconds or on an error waiting is
      over in vain, at depth it is over even for a failed transaction, and below depth only a
      transaction that has not failed is polled again. */
  lemma FirstPollDecides(c: Chain)
    ensures Confirms(c) <==>
            && c.elapsed(0) < 300_000 && c.answer(0).TxStatus?
            && (c.answer(0).confirmations >= c.depth || (!c.answer(0).failed && Confirms(Rest(c))))
  {
    if Confirms(c) {
      var k: nat :| && c.elapsed(k) < MAX_WAIT && c.answer(k).TxStatus? && c.answer(k).confirmations >= c.depth
                    && forall j :: 0 <= j < k ==> StillWaiting(c, j);
      if k > 0 {
        assert StillWaiting(c, 0);
        forall j | 0 <= j < k - 1
          ensures StillWaiting(Rest(c), j)
        {
          assert StillWaiting(c, j + 1);
        }
        assert Rest(c).elapsed(k - 1) < MAX_WAIT && Rest(c).answer(k - 1) == c.answer(k);
      }
    }
    if c.elapsed(0) < MAX_WAIT && c.answer(0).TxStatus? && !c.answer(0).failed && c.answer(0).confirmations < c.depth && Confirms(Rest(c)) {
      var k: nat :| && Rest(c).elapsed(k) < MAX_WAIT && Rest(c).answer(k).TxStatus? && Rest(c).answer(k).confirmations >= c.depth
                    && forall j :: 0 <= j < k ==> StillWaiting(Rest(c), j);
      forall j | 0 <= j < k + 1
        ensures StillWaiting(c, j)
      {
        assert j > 0 ==> StillWaiting(Rest(c), j - 1);
      }
      assert c.elapsed(k + 1) < MAX_WAIT && c.answer(k + 1) == Rest(c).answer(k);
    }
  }

  const SCALE := 100_000_000.0

  /** Target minus the fee, to eight decimals. */
  function SettlementAmount(target: real, feePercentage: real): real {
    RoundHalfUp((target - target * (feePercentage / 100.0)) * SCALE) as real / SCALE
  }

  /** The amount before rounding, written as reconciliation writes it. */
  function Net(target: real, feePercentage: real): real {
    target * (1.0 - feePercentage / 100.0)
  }

  lemma AmountIsRounded(target: real, feePercentage: real)
    ensures SettlementAmount(target, feePercentage) * SCALE
         == RoundHalfUp(Net(target, feePercentage) * SCALE) as real
  {
    var exact := (target - target * (feePercentage / 100.0)) * SCALE;
    assert exact == Net(target, feePercentage) * SCALE;
    assert SettlementAmount(target, feePercentage) * SCALE == RoundHalfUp(exact) as real;
  }

  /** At most half a unit of the eighth decimal. */
  lemma RoundingError(target: real, feePercentage: real)
    ensures -0.5 <= SettlementAmount(target, feePercentage) * SCALE - Net(target, feePercentage) * SCALE <= 0.5
  {
    AmountIsRounded(target, feePercentage);
    RoundHalfUpIsClose(Net(target, feePercentage) * SCALE);
  }

  // How far a call gets, and what it leaves behind.

  predicate Creates(f: Faults) { f.create == Done }
  predicate Submits(f: Faults, c: Chain) { Creates(f) && c.submitted.Some? }
  predicate Processes(f: Faults, c: Chain) { Submits(f, c) && f.processing == Done }
  ghost predicate Waits(f: Faults, c: Chain) { Processes(f, c) && Confirms(c) }
  ghost predicate Completes(f: Faults, c: Chain) { Waits(f, c) && f.completed == Done }
  ghost predicate Charges(o: Order, f: Faults, c: Chain) { Completes(f, c) && (o.feePercentage > 0.0 ==> f.fee == Done) }
  ghost predicate Succeeds(o: Order, f: Faults, c: Chain) { Charges(o, f, c) && f.settlement == Done }

  function Amount(o: Order): real {
    SettlementAmount(o.target, o.feePercentage)
  }

  ghost function FinalStatus(o: Order, f: Faults, c: Chain): Status {
    if Succeeds(o, f, c) then COMPLETED
    else if Creates(f) && f.failed != Refused then FAILED
    else if Waits(f, c) && f.completed != Refused then COMPLETED
    else if Submits(f, c) && f.processing != Refused then PROCESSING
    else PENDING
  }

  ghost function NewRows(o: Order, f: Faults, c: Chain): seq<SettlementRow> {
    if f.create == Refused then [] else
    [SettlementRow(o.intentId, o.merchantId, Amount(o), o.asset, FinalStatus(o, f, c),
                   if Submits(f, c) && f.processing != Refused then c.submitted else None, o.startedAt,
                   if Waits(f, c) && f.completed != Refused then Some(o.finishedAt) else None)]
  }

  ghost function NewEntries(o: Order, f: Faults, c: Chain): seq<Entry> {
    (if o.feePercentage > 0.0 && Completes(f, c) && f.fee != Refused
     then [EntryOf(Fee(o.intentId, o.target - Amount(o), o.asset, o.merchantId), o.finishedAt)] else [])
    + (if Charges(o, f, c) && f.settlement != Refused
       then [EntryOf(Settled(o.intentId, Amount(o), o.asset, o.merchantId), o.finishedAt)] else [])
  }

  class SettlementRepository {
    var rows: seq<SettlementRow>

    constructor ()
      ensures rows == []
    {
      rows := [];
    }

    method Create(row: SettlementRow, write: Write) returns (ok: bool)
      modifies this
      ensures ok <==> write == Done
      ensures rows == old(rows) + if write == Refused then [] else [row]
    {
      if write != Refused {
        rows := rows + [row];
      }
      ok := write == Done;
    }

    /** Only the columns that are given change. */
    method Update(id: nat, status: Option<Status>, txHash: Option<string>, completedAt: Option<int>, write: Write)
      returns (ok: bool)
      modifies this
      ensures ok <==> id < |old(rows)| && write == Done
      ensures rows == if id < |old(rows)| && write != Refused
                      then old(rows)[id := Updated(old(rows)[id], status, txHash, completedAt)] else old(rows)
    {
      if id >= |rows| {
        return false;
      }
      if write != Refused {
        rows := rows[id := Updated(rows[id], status, txHash, completedAt)];
      }
      ok := write == Done;
    }
  }

  function Updated(row: SettlementRow, status: Option<Status>, txHash: Option<string>, completedAt: Option<int>): SettlementRow {
    row.(status := if status.Some? then status.value else row.status,
         txHash := if txHash.Some? then txHash else row.txHash,
         completedAt := if completedAt.Some? then completedAt else row.completedAt)
  }

  class SettlementService {
    const settlements: SettlementRepository
    const ledger: LedgerRepository

    constructor (settlements: SettlementRepository, ledger: LedgerRepository)
      ensures this.settlements == settlements && this.ledger == ledger
    {
      this.settlements, this.ledger := settlements, ledger;
    }

    /** Five minutes of polls, two seconds apart. */
    method WaitForConfirmation(c: Chain) returns (confirmed: bool)
      requires Ticks(c.elapsed)
      ensures confirmed <==> Confirms(c)
    {
      var k := 0;
      while c.elapsed(k) < MAX_WAIT
        invariant forall j :: 0 <= j < k ==> StillWaiting(c, j)
        decreases MAX_WAIT - c.elapsed(k)
      {
        var status := c.answer(k);
        if status.RpcFails? {
          StoppedShort(c, k);
          return false;
        }
        if status.confirmations >= c.depth {
          return true;
        }
        if status.failed {
          StoppedShort(c, k);
          return false;
        }
        k := k + 1;
      }
      StoppedShort(c, k);
      return false;
    }

    method RecordEntry(m: Movement, now: int, write: Write) returns (ok: bool)
      modifies ledger
      ensures ok <==> write == Done
      ensures ledger.entries == old(ledger.entries) + if write == Refused then [] else [EntryOf(m, now)]
    {
      if write != Refused {
        ledger.Create(EntryOf(m, now));
      }
      ok := write == Done;
    }

    /** The compensation: the row becomes FAILED if that write gets through. */
    method HandleSettlementFailure(id: nat, write: Write)
      modifies settlements
      ensures settlements.rows == if id < |old(settlements.rows)| && write != Refused
                                  then old(settlements.rows)[id := old(settlements.rows)[id].(status := FAILED)]
                                  else old(settlements.rows)
    {
      var _ := settlements.Update(id, Some(FAILED), None, None, write);
    }

    /** Steps 3 to 8, up to the first error. */
    method Execute(id: nat, o: Order, f: Faults, c: Chain) returns (ok: bool)
      requires Creates(f) && Ticks(c.elapsed) && id < |settlements.rows|
      requires settlements.rows[id] == SettlementRow(o.intentId, o.merchantId, Amount(o), o.asset, PENDING, None, o.startedAt, None)
      modifies settlements, ledger
      ensures ok <==> Succeeds(o, f, c)
      ensures ledger.entries == old(ledger.entries) + NewEntries(o, f, c)
      ensures settlements.rows == old(settlements.rows)[id := NewRows(o, f.(failed := Refused), c)[0]]
    {
      if c.submitted.None? {
        return false;
      }
      ok := settlements.Update(id, Some(PROCESSING), c.submitted, None, f.processing);
      if !ok {
        return false;
      }
      ok := WaitForConfirmation(c);
      if !ok {
        return false;
      }
      ok := settlements.Update(id, Some(COMPLETED), None, Some(o.finishedAt), f.completed);
      if !ok {
        return false;
      }
      if o.feePercentage > 0.0 {
        ok := RecordEntry(Fee(o.intentId, o.target - Amount(o), o.asset, o.merchantId), o.finishedAt, f.fee);
        if !ok {
          return false;
        }
      }
      ok := RecordEntry(Settled(o.intentId, Amount(o), o.asset, o.merchantId), o.finishedAt, f.settlement);
    }

    method SettleIntent(o: Order, f: Faults, c: Chain) returns (r: Option<SettlementRow>)
      requires Ticks(c.elapsed)
      modifies settlements, ledger
      ensures r.Some? <==> Succeeds(o, f, c)
      ensures settlements.rows == old(settlements.rows) + NewRows(o, f, c)
      ensures ledger.entries == old(ledger.entries) + NewEntries(o, f, c)
      ensures r.Some? ==> NewRows(o, f, c) == [r.value]
    {
      var amount := SettlementAmount(o.target, o.feePercentage);
      var id := |settlements.rows|;
      var ok := settlements.Create(
        SettlementRow(o.intentId, o.merchantId, amount, o.asset, PENDING, None, o.startedAt, None), f.create);
      if !ok {
        return None;
      }
      ok := Execute(id, o, f, c);
      if !ok {
        HandleSettlementFailure(id, f.failed);
        return None;
      }
      return Some(settlements.rows[id]);
    }

    /** Only a failed or already retrying settlement can be marked for retry. */
    method RetrySettlement(id: nat, write: Write) returns (ok: bool)
      modifies settlements
      ensures settlements.rows == if write != Refused then Retried(old(settlements.rows), id) else old(settlements.rows)
      ensures ok <==> write == Done && id < |old(settlements.rows)| && old(settlements.rows)[id].status in {FAILED, RETRYING}
    {
      if id >= |settlements.rows| || settlements.rows[id].status !in {FAILED, RETRYING} {
        return false;
      }
      ok := settlements.Update(id, Some(RETRYING), None, None, write);
    }
  }

  function Retried(rows: seq<SettlementRow>, id: nat): seq<SettlementRow> {
    if id < |rows| && rows[id].status in {FAILED, RETRYING} then rows[id := rows[id].(status := RETRYING)] else rows
  }

  /** Only the columns given change, and a retry sets the status alone, of failed and retrying rows
      alone. */
  lemma WritesInFull(row: SettlementRow, status: Option<Status>, txHash: Option<string>, completedAt: Option<int>,
                     rows: seq<SettlementRow>, id: nat)
    ensures var t := Updated(row, status, txHash, completedAt);
            && t.status == (match status case Some(s) => s case None => row.status)
            && t.txHash == (match txHash case Some(h) => Some(h) case None => row.txHash)
            && t.completedAt == (match completedAt case Some(at) => Some(at) case None => row.completedAt)
            && t.intentId == row.intentId && t.merchantId == row.merchantId && t.amount == row.amount && t.asset == row.asset
            && t.createdAt == row.createdAt
    ensures if id < |rows| && (rows[id].status == FAILED || rows[id].status == RETRYING)
            then && |Retried(rows, id)| == |rows| && Retried(rows, id)[id].status == RETRYING
                 && Retried(rows, id)[id].txHash == rows[id].txHash && Retried(rows, id)[id].amount == rows[id].amount
                 && forall i :: 0 <= i < |rows| && i != id ==> Retried(rows, id)[i] == rows[i]
            else Retried(rows, id) == rows
  {
  }

  lemma {:induction false} LaterPollsAreLater(c: Chain, k: nat, n: nat)
    requires Ticks(c.elapsed) && k <= n
    ensures c.elapsed(n) >= c.elapsed(k)
  {
    if k < n {
      LaterPollsAreLater(c, k, n - 1);
      assert c.elapsed(n - 1 + 1) >= c.elapsed(n - 1) + POLL_INTERVAL;
    }
  }

  /** Waiting stops for good at a poll that neither confirms nor lets it go on. */
  lemma StoppedShort(c: Chain, k: nat)
    requires forall j :: 0 <= j < k ==> StillWaiting(c, j)
    requires !StillWaiting(c, k)
    requires c.elapsed(k) >= MAX_WAIT || c.answer(k).RpcFails? || c.answer(k).confirmations < c.depth
    requires c.elapsed(k) >= MAX_WAIT ==> Ticks(c.elapsed)
    ensures !Confirms(c)
  {
    forall n: nat | forall j :: 0 <= j < n ==> StillWaiting(c, j)
      ensures !(c.elapsed(n) < MAX_WAIT && c.answer(n).TxStatus? && c.answer(n).confirmations >= c.depth)
    {
      if n < k {
        assert StillWaiting(c, n);
      } else if c.elapsed(k) >= MAX_WAIT {
        LaterPollsAreLater(c, k, n);
      }
    }
  }

  /** A call that returns has a completed row with its hash, and its entries sum to the target. */
  lemma SuccessAddsUp(o: Order, f: Faults, c: Chain)
    requires Succeeds(o, f, c)
    ensures |NewRows(o, f, c)| == 1 && NewRows(o, f, c)[0].status == COMPLETED && NewRows(o, f, c)[0].txHash.Some?
    ensures o.feePercentage > 0.0 ==>
              && |NewEntries(o, f, c)| == 2
              && NewEntries(o, f, c)[0].entryType == FeeEntry && NewEntries(o, f, c)[1].entryType == SettlementEntry
              && NewEntries(o, f, c)[0].amount + NewEntries(o, f, c)[1].amount == o.target
    ensures o.feePercentage <= 0.0 ==>
              |NewEntries(o, f, c)| == 1 && NewEntries(o, f, c)[0].entryType == SettlementEntry
  {
  }

  /** What any call that gets a row made leaves in it, and what one that returns adds to that. */
  lemma RowInFull(o: Order, f: Faults, c: Chain)
    requires f.create != Refused
    ensures |NewRows(o, f, c)| == 1
    ensures var row := NewRows(o, f, c)[0];
            && row.intentId == o.intentId && row.merchantId == o.merchantId && row.asset == o.asset
            && row.createdAt == o.startedAt && row.amount == SettlementAmount(o.target, o.feePercentage)
            && (Succeeds(o, f, c) ==>
                  row.status == COMPLETED && row.txHash == c.submitted && row.completedAt == Some(o.finishedAt))
  {
  }

  /** What it does to the books: the intent's pending account takes the settled amount; the
      merchant is credited it and charged the rest of the target as fee, if there is a fee; the fee
      is credited to revenue. */
  lemma SuccessInTheBooks(o: Order, f: Faults, c: Chain, entries: seq<Entry>)
    requires Succeeds(o, f, c)
    ensures
      var after := entries + NewEntries(o, f, c);
      var amount := SettlementAmount(o.target, o.feePercentage);
      var fee := if o.feePercentage > 0.0 then o.target - amount else 0.0;
      && Balance(after, "pending:" + o.intentId, o.asset) == Balance(entries, "pending:" + o.intentId, o.asset) + amount
      && Balance(after, "merchant:" + o.merchantId, o.asset) == Balance(entries, "merchant:" + o.merchantId, o.asset) + fee - amount
      && Balance(after, "revenue:fees", o.asset) == Balance(entries, "revenue:fees", o.asset) - fee
  {
    var amount := SettlementAmount(o.target, o.feePercentage);
    var paid := Settled(o.intentId, amount, o.asset, o.merchantId);
    if o.feePercentage > 0.0 {
      var fee := Fee(o.intentId, o.target - amount, o.asset, o.merchantId);
      assert entries + NewEntries(o, f, c) == entries + [EntryOf(fee, o.finishedAt)] + [EntryOf(paid, o.finishedAt)];
      OneMovement(entries, fee, o.finishedAt, o.intentId, o.merchantId);
      OneMovement(entries + [EntryOf(fee, o.finishedAt)], paid, o.finishedAt, o.intentId, o.merchantId);
    } else {
      assert entries + NewEntries(o, f, c) == entries + [EntryOf(paid, o.finishedAt)];
      OneMovement(entries, paid, o.finishedAt, o.intentId, o.merchantId);
    }
  }

  lemma OneMovement(entries: seq<Entry>, m: Movement, now: int, intentId: string, merchantId: string)
    ensures var after := entries + [EntryOf(m, now)];
            && Balance(after, "pending:" + intentId, m.asset)
               == Balance(entries, "pending:" + intentId, m.asset) + Adds(m, OfIntent(intentId))
            && Balance(after, "merchant:" + merchantId, m.asset)
               == Balance(entries, "merchant:" + merchantId, m.asset) + Adds(m, OfMerchant(merchantId))
            && Balance(after, "revenue:fees", m.asset) == Balance(entries, "revenue:fees", m.asset) + Adds(m, OfFees)
  {
    assert (entries + [EntryOf(m, now)])[..|entries|] == entries;
    EntryAdds(m, now, OfIntent(intentId));
    EntryAdds(m, now, OfMerchant(merchantId));
    EntryAdds(m, now, OfFees);
  }

  /** What is left of a call that stopped and whose FAILED write was refused: the row stays at the
      last status that was written, with the hash and completion time written so far. */
  lemma WithoutCompensation(o: Order, f: Faults, c: Chain)
    requires !Succeeds(o, f, c) && f.create != Refused && (f.failed == Refused || !Creates(f))
    ensures var row := NewRows(o, f, c)[0];
            && (row.status == COMPLETED <==> row.completedAt.Some?) && row.status in {PENDING, PROCESSING, COMPLETED}
            && (row.status != PENDING <==> row.txHash.Some?)
            && (row.status == PENDING <==> !Creates(f) || c.submitted.None? || f.processing == Refused)
            && (row.status == COMPLETED <==> Creates(f) && c.submitted.Some? && f.processing == Done && Confirms(c) && f.completed != Refused)
  {
  }

  function SettlementEntries(entries: seq<Entry>, intentId: string): nat {
    if entries == [] then 0 else
    SettlementEntries(entries[..|entries| - 1], intentId)
    + if entries[|entries| - 1].intentId == intentId && entries[|entries| - 1].entryType == SettlementEntry then 1 else 0
  }

  function CompletedRows(rows: seq<SettlementRow>, intentId: string): nat {
    if rows == [] then 0 else
    CompletedRows(rows[..|rows| - 1], intentId)
    + if rows[|rows| - 1].intentId == intentId && rows[|rows| - 1].status == COMPLETED then 1 else 0
  }

  /** The faults that leave a completed row without an entry, or an entry without one: an error
      after the row was completed, where the settlement entry and the FAILED write either both
      got through or neither did. */
  ghost predicate Unbalancing(o: Order, f: Faults, c: Chain) {
    && !Succeeds(o, f, c) && Waits(f, c) && f.completed != Refused
    && ((Charges(o, f, c) && f.settlement != Refused) <==> f.failed != Refused)
  }

  /** What one call adds: entries and completed rows of its intent agree exactly unless the
      faults are unbalancing. */
  lemma CallBalances(o: Order, f: Faults, c: Chain)
    ensures SettlementEntries(NewEntries(o, f, c), o.intentId) == CompletedRows(NewRows(o, f, c), o.intentId)
            <==> !Unbalancing(o, f, c)
  {
    var entries, rows := NewEntries(o, f, c), NewRows(o, f, c);
    EntriesOf(entries, o.intentId);
    assert rows != [] ==> rows[..0] == [];
  }

  lemma EntriesOf(entries: seq<Entry>, intentId: string)
    requires |entries| <= 2 && forall k :: 0 <= k < |entries| ==> entries[k].intentId == intentId
    ensures SettlementEntries(entries, intentId)
         == (if |entries| > 0 && entries[0].entryType == SettlementEntry then 1 else 0)
            + (if |entries| > 1 && entries[1].entryType == SettlementEntry then 1 else 0)
  {
    if |entries| == 2 {
      assert entries[..1][..0] == [] && entries[..1][0] == entries[0];
    } else if |entries| == 1 {
      assert entries[..0] == [];
    }
  }

  /** With the FAILED write through, a failed call leaves a FAILED row, and no settlement entry
      exactly unless its last step, that entry, lost its reply; a fee entry may stay behind. */
  lemma CompensationIsComplete(o: Order, f: Faults, c: Chain)
    requires !Succeeds(o, f, c) && Creates(f) && f.failed != Refused
    ensures NewRows(o, f, c)[0].status == FAILED
    ensures SettlementEntries(NewEntries(o, f, c), o.intentId) == 0 <==> !(Charges(o, f, c) && f.settlement == ReplyLost)
    ensures Unbalancing(o, f, c) <==> Charges(o, f, c) && f.settlement == ReplyLost
  {
    EntriesOf(NewEntries(o, f, c), o.intentId);
  }

  datatype Step = Creating | Submitting | MarkingProcessing | Waiting | MarkingCompleted | RecordingFee | RecordingSettlement | Through

  /** The first step that throws. */
  ghost function StoppedAt(o: Order, f: Faults, c: Chain): Step {
    if f.create != Done then Creating
    else if c.submitted.None? then Submitting
    else if f.processing != Done then MarkingProcessing
    else if !Confirms(c) then Waiting
    else if f.completed != Done then MarkingCompleted
    else if o.feePercentage > 0.0 && f.fee != Done then RecordingFee
    else if f.settlement != Done then RecordingSettlement
    else Through
  }

  /** FAILED does not mean unpaid. A call fails unless every step gets through, and its row, once
      FAILED, stands for a submitted payment from the third step on, and for one at depth from
      the fifth; the row knows the payment's hash unless the write of it was refused. */
  lemma FailedMayBePaid(o: Order, f: Faults, c: Chain)
    ensures Succeeds(o, f, c) <==> StoppedAt(o, f, c) == Through
    ensures StoppedAt(o, f, c) !in {Creating, Through} && f.failed != Refused ==>
              var row := NewRows(o, f, c)[0];
              && row.status == FAILED
              && (StoppedAt(o, f, c) != Submitting ==> c.submitted.Some?)
              && (StoppedAt(o, f, c) in {MarkingCompleted, RecordingFee, RecordingSettlement} ==> Confirms(c))
              && (row.txHash.Some? <==> StoppedAt(o, f, c) != Submitting && f.processing != Refused)
  {
  }

  // Any sequence of settlements, retries and other ledger movements.

  datatype Database = Database(rows: seq<SettlementRow>, entries: seq<Entry>)

  datatype Operation =
    | Settle(order: Order, faults: Faults, chain: Chain)
    | Retry(id: nat)
    | OtherMovement(m: Movement, now: int)

  ghost function After(db: Database, op: Operation): Database {
    match op
    case Settle(o, f, c) => Database(db.rows + NewRows(o, f, c), db.entries + NewEntries(o, f, c))
    case Retry(id) => db.(rows := Retried(db.rows, id))
    case OtherMovement(m, now) => if m.Settled? then db else db.(entries := db.entries + [EntryOf(m, now)])
  }

  ghost function Run(db: Database, ops: seq<Operation>): Database {
    if ops == [] then db else After(Run(db, ops[..|ops| - 1]), ops[|ops| - 1])
  }

  lemma {:induction false} EntriesAppend(a: seq<Entry>, b: seq<Entry>, intentId: string)
    ensures SettlementEntries(a + b, intentId) == SettlementEntries(a, intentId) + SettlementEntries(b, intentId)
  {
    if b == [] {
      assert a + b == a;
    } else {
      EntriesAppend(a, b[..|b| - 1], intentId);
      assert (a + b)[..|a + b| - 1] == a + b[..|b| - 1];
    }
  }

  lemma {:induction false} RowsAppend(a: seq<SettlementRow>, b: seq<SettlementRow>, intentId: string)
    ensures CompletedRows(a + b, intentId) == CompletedRows(a, intentId) + CompletedRows(b, intentId)
  {
    if b == [] {
      assert a + b == a;
    } else {
      RowsAppend(a, b[..|b| - 1], intentId);
      assert (a + b)[..|a + b| - 1] == a + b[..|b| - 1];
    }
  }

  lemma {:induction false} RetryKeepsCompleted(rows: seq<SettlementRow>, id: nat, intentId: string)
    ensures CompletedRows(Retried(rows, id), intentId) == CompletedRows(rows, intentId)
  {
    if rows != [] {
      var last := |rows| - 1;
      RetryKeepsCompleted(rows[..last], id, intentId);
      assert Retried(rows, id)[..last] == Retried(rows[..last], id);
    }
  }

  lemma OtherIntentsUntouched(o: Order, f: Faults, c: Chain, intentId: string)
    requires intentId != o.intentId
    ensures SettlementEntries(NewEntries(o, f, c), intentId) == 0 && CompletedRows(NewRows(o, f, c), intentId) == 0
  {
    var rows := NewRows(o, f, c);
    assert rows != [] ==> rows[..0] == [];
    OtherEntries(NewEntries(o, f, c), intentId);
  }

  lemma {:induction false} OtherEntries(entries: seq<Entry>, intentId: string)
    requires forall k :: 0 <= k < |entries| ==> entries[k].intentId != intentId
    ensures SettlementEntries(entries, intentId) == 0
  {
    if entries != [] {
      OtherEntries(entries[..|entries| - 1], intentId);
    }
  }

  predicate Matched(db: Database, intentId: string) {
    SettlementEntries(db.entries, intentId) == CompletedRows(db.rows, intentId)
  }

  lemma SettleKeepsMatched(db: Database, o: Order, f: Faults, c: Chain, intentId: string)
    requires Matched(db, intentId) && (o.intentId == intentId ==> !Unbalancing(o, f, c))
    ensures Matched(After(db, Settle(o, f, c)), intentId)
  {
    EntriesAppend(db.entries, NewEntries(o, f, c), intentId);
    RowsAppend(db.rows, NewRows(o, f, c), intentId);
    if o.intentId == intentId {
      CallBalances(o, f, c);
    } else {
      OtherIntentsUntouched(o, f, c, intentId);
    }
  }

  lemma OtherKeepsMatched(db: Database, op: Operation, intentId: string)
    requires Matched(db, intentId) && !op.Settle?
    ensures Matched(After(db, op), intentId)
  {
    match op
    case Retry(id) => RetryKeepsCompleted(db.rows, id, intentId);
    case OtherMovement(m, now) =>
      if !m.Settled? {
        OneMoreEntry(db.entries, EntryOf(m, now), intentId);
      }
  }

  lemma OneMoreEntry(entries: seq<Entry>, e: Entry, intentId: string)
    requires e.entryType != SettlementEntry
    ensures SettlementEntries(entries + [e], intentId) == SettlementEntries(entries, intentId)
  {
    assert (entries + [e])[..|entries|] == entries;
  }

  /** Conservation: over any run whose settlements of this intent meet no unbalancing faults, it
      has exactly as many settlement entries as completed settlements. */
  lemma {:induction false} EntriesMatchCompleted(ops: seq<Operation>, intentId: string)
    requires forall k :: 0 <= k < |ops| && ops[k].Settle? && ops[k].order.intentId == intentId
                         ==> !Unbalancing(ops[k].order, ops[k].faults, ops[k].chain)
    ensures Matched(Run(Database([], []), ops), intentId)
  {
    if ops != [] {
      var last := |ops| - 1;
      EntriesMatchCompleted(ops[..last], intentId);
      var db := Run(Database([], []), ops[..last]);
      if ops[last].Settle? {
        SettleKeepsMatched(db, ops[last].order, ops[last].faults, ops[last].chain, intentId);
      } else {
        OtherKeepsMatched(db, ops[last], intentId);
      }
    }
  }
}
