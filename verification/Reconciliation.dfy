/** The reconciliation checks over settlements and ledger, and what they raise on the databases
    that settlement itself builds. */
module Reconciliation {
  import opened Wrappers
  import opened Ledger
  import opened Rounding
  import opened Settlement

  datatype Kind = MISSING_SETTLEMENT | AMOUNT_MISMATCH | DUPLICATE_SETTLEMENT | MISSING_LEDGER_ENTRY | FX_GAIN_LOSS_MISMATCH
  datatype Severity = MEDIUM | HIGH | CRITICAL
  datatype Discrepancy = Discrepancy(kind: Kind, severity: Severity, intentId: string, difference: Option<real>)

  /** The joined tables: each intent's target and merchant, with the time of its last update if
      it is SETTLED; and each merchant's fee. */
  datatype Terms = Terms(target: real, merchantId: string, settledAt: Option<int>)
  datatype Agreements = Agreements(intents: map<string, Terms>, fees: map<string, real>)

  predicate Joined(a: Agreements, row: SettlementRow) {
    row.intentId in a.intents && a.intents[row.intentId].merchantId in a.fees
  }

  function Expected(a: Agreements, row: SettlementRow): real
    requires Joined(a, row)
  {
    Net(a.intents[row.intentId].target, a.fees[a.intents[row.intentId].merchantId])
  }

  function Abs(x: real): real { if x < 0.0 then -x else x }

  predicate CompletedIn(row: SettlementRow, start: int, end: int) {
    row.status == COMPLETED && row.completedAt.Some? && start <= row.completedAt.value <= end
  }

  predicate CreatedIn(row: SettlementRow, start: int, end: int) {
    start <= row.createdAt <= end
  }

  /** More than one part in ten thousand of the expected amount. */
  predicate OutOfTolerance(expected: real, actual: real) {
    Abs(expected - actual) > expected * 0.0001
  }

  predicate Mismatched(a: Agreements, row: SettlementRow, start: int, end: int) {
    CompletedIn(row, start, end) && Joined(a, row) && OutOfTolerance(Expected(a, row), row.amount)
  }

  predicate Unrecorded(entries: seq<Entry>, row: SettlementRow, start: int, end: int) {
    CompletedIn(row, start, end) && SettlementEntries(entries, row.intentId) == 0
  }

  function AmountMismatch(a: Agreements, row: SettlementRow): Discrepancy
    requires Joined(a, row)
  {
    Discrepancy(AMOUNT_MISMATCH, HIGH, row.intentId, Some(Expected(a, row) - row.amount))
  }

  /** One discrepancy for each mismatched row, in the order of the table; `at` says where. */
  ghost predicate Reports(found: seq<Discrepancy>, at: seq<nat>, a: Agreements, rows: seq<SettlementRow>, start: int, end: int) {
    && |found| == |at|
    && (forall k :: 0 <= k < |at| ==>
          at[k] < |rows| && Mismatched(a, rows[at[k]], start, end) && found[k] == AmountMismatch(a, rows[at[k]]))
    && (forall j, k :: 0 <= j < k < |at| ==> at[j] < at[k])
    && (forall i :: 0 <= i < |rows| && Mismatched(a, rows[i], start, end) ==> i in at)
  }

  lemma ReportOneMore(found: seq<Discrepancy>, at: seq<nat>, a: Agreements, rows: seq<SettlementRow>, i: nat, start: int, end: int)
    requires i < |rows| && Reports(found, at, a, rows[..i], start, end)
    ensures if Mismatched(a, rows[i], start, end)
            then Reports(found + [AmountMismatch(a, rows[i])], at + [i], a, rows[..i + 1], start, end)
            else Reports(found, at, a, rows[..i + 1], start, end)
  {
  }

  method CheckAmountMismatches(a: Agreements, rows: seq<SettlementRow>, start: int, end: int)
    returns (found: seq<Discrepancy>, ghost at: seq<nat>)
    ensures Reports(found, at, a, rows, start, end)
    ensures found == [] <==> forall i :: 0 <= i < |rows| ==> !Mismatched(a, rows[i], start, end)
  {
    found, at := [], [];
    for i := 0 to |rows|
      invariant Reports(found, at, a, rows[..i], start, end)
    {
      ReportOneMore(found, at, a, rows, i, start, end);
      if CompletedIn(rows[i], start, end) && Joined(a, rows[i]) {
        if OutOfTolerance(Expected(a, rows[i]), rows[i].amount) {
          found := found + [AmountMismatch(a, rows[i])];
          at := at + [i];
        }
      }
    }
    assert rows[..|rows|] == rows;
    NothingReported(found, at, a, rows, start, end);
  }

  lemma NothingReported(found: seq<Discrepancy>, at: seq<nat>, a: Agreements, rows: seq<SettlementRow>, start: int, end: int)
    requires Reports(found, at, a, rows, start, end)
    ensures found == [] <==> forall i :: 0 <= i < |rows| ==> !Mismatched(a, rows[i], start, end)
  {
    if found != [] {
      assert Mismatched(a, rows[at[0]], start, end);
    }
  }

  /** Completed settlements without a settlement entry of their intent. */
  function MissingLedgerEntries(entries: seq<Entry>, rows: seq<SettlementRow>, start: int, end: int): (found: seq<Discrepancy>)
    ensures found == [] <==> forall i :: 0 <= i < |rows| ==> !Unrecorded(entries, rows[i], start, end)
  {
    if rows == [] then [] else
    var last := rows[|rows| - 1];
    var before := MissingLedgerEntries(entries, rows[..|rows| - 1], start, end);
    if Unrecorded(entries, last, start, end) then before + [Discrepancy(MISSING_LEDGER_ENTRY, HIGH, last.intentId, None)]
    else before
  }

  /** The amount check in numbers: a settlement completed in the period, both ends included, that is
      off its intent's target less its merchant's fee by more than a ten-thousandth of that; the
      discrepancy is high and tells by how much the settlement falls short. */
  lemma MismatchInNumbers(a: Agreements, row: SettlementRow, start: int, end: int)
    requires Joined(a, row)
    ensures
      var expected := a.intents[row.intentId].target * (1.0 - a.fees[a.intents[row.intentId].merchantId] / 100.0);
      && (Mismatched(a, row, start, end) <==>
            && row.status == COMPLETED && row.completedAt.Some? && start <= row.completedAt.value && row.completedAt.value <= end
            && (row.amount < expected - expected / 10000.0 || row.amount > expected + expected / 10000.0))
      && AmountMismatch(a, row).kind == AMOUNT_MISMATCH && AmountMismatch(a, row).severity == HIGH
      && AmountMismatch(a, row).intentId == row.intentId && AmountMismatch(a, row).difference == Some(expected - row.amount)
  {
    OffByMore(Expected(a, row), row.amount);
  }

  lemma OffByMore(expected: real, actual: real)
    ensures OutOfTolerance(expected, actual) <==> actual < expected - expected / 10000.0 || actual > expected + expected / 10000.0
  {
  }

  /** The ledger check in full: a settlement completed in the period, both ends included, whose
      intent has no settlement entry at all. */
  lemma UnrecordedInFull(entries: seq<Entry>, row: SettlementRow, start: int, end: int)
    ensures Unrecorded(entries, row, start, end) <==>
            && row.status == COMPLETED && row.completedAt.Some? && start <= row.completedAt.value && row.completedAt.value <= end
            && forall k :: 0 <= k < |entries| ==> !(entries[k].intentId == row.intentId && entries[k].entryType == SettlementEntry)
  {
    NoEntryOf(entries, row.intentId);
  }

  lemma {:induction false} NoEntryOf(entries: seq<Entry>, intentId: string)
    ensures SettlementEntries(entries, intentId) == 0
       <==> forall k :: 0 <= k < |entries| ==> !(entries[k].intentId == intentId && entries[k].entryType == SettlementEntry)
  {
    if entries != [] {
      NoEntryOf(entries[..|entries| - 1], intentId);
    }
  }

  function CreatedCount(rows: seq<SettlementRow>, intentId: string, start: int, end: int): nat {
    if rows == [] then 0 else
    CreatedCount(rows[..|rows| - 1], intentId, start, end)
    + if rows[|rows| - 1].intentId == intentId && CreatedIn(rows[|rows| - 1], start, end) then 1 else 0
  }

  /** One discrepancy per intent with several settlements created in the period; the grouped
      query promises no order. */
  function DuplicateSettlements(rows: seq<SettlementRow>, start: int, end: int): set<Discrepancy> {
    set row <- rows | CreatedCount(rows, row.intentId, start, end) > 1 ::
      Discrepancy(DUPLICATE_SETTLEMENT, CRITICAL, row.intentId, Some(CreatedCount(rows, row.intentId, start, end) as real - 1.0))
  }

  lemma {:induction false} CountsAnyRow(rows: seq<SettlementRow>, i: nat, start: int, end: int)
    requires i < |rows| && CreatedIn(rows[i], start, end)
    ensures CreatedCount(rows, rows[i].intentId, start, end) >= 1
  {
    if i < |rows| - 1 {
      CountsAnyRow(rows[..|rows| - 1], i, start, end);
    }
  }

  lemma {:induction false} CountsTwoRows(rows: seq<SettlementRow>, i: nat, j: nat, start: int, end: int)
    requires i < j < |rows| && rows[i].intentId == rows[j].intentId
    requires CreatedIn(rows[i], start, end) && CreatedIn(rows[j], start, end)
    ensures CreatedCount(rows, rows[i].intentId, start, end) >= 2
  {
    if j < |rows| - 1 {
      CountsTwoRows(rows[..|rows| - 1], i, j, start, end);
    } else {
      CountsAnyRow(rows[..j], i, start, end);
    }
  }

  lemma {:induction false} CountedRow(rows: seq<SettlementRow>, intentId: string, start: int, end: int) returns (i: nat)
    requires CreatedCount(rows, intentId, start, end) >= 1
    ensures i < |rows| && rows[i].intentId == intentId && CreatedIn(rows[i], start, end)
  {
    i := |rows| - 1;
    if !(rows[i].intentId == intentId && CreatedIn(rows[i], start, end)) {
      i := CountedRow(rows[..i], intentId, start, end);
    }
  }

  lemma {:induction false} TwoCountedRows(rows: seq<SettlementRow>, intentId: string, start: int, end: int)
    returns (i: nat, j: nat)
    requires CreatedCount(rows, intentId, start, end) >= 2
    ensures i < j < |rows| && rows[i].intentId == rows[j].intentId == intentId
    ensures CreatedIn(rows[i], start, end) && CreatedIn(rows[j], start, end)
  {
    j := |rows| - 1;
    if rows[j].intentId == intentId && CreatedIn(rows[j], start, end) {
      i := CountedRow(rows[..j], intentId, start, end);
    } else {
      i, j := TwoCountedRows(rows[..j], intentId, start, end);
    }
  }

  /** The duplicate check raises an intent exactly when two of its rows were created in the period. */
  lemma DuplicatesAreTwoRows(rows: seq<SettlementRow>, intentId: string, start: int, end: int)
    ensures (exists d :: d in DuplicateSettlements(rows, start, end) && d.intentId == intentId)
       <==> exists i, j :: && 0 <= i < j < |rows| && rows[i].intentId == rows[j].intentId == intentId
                           && CreatedIn(rows[i], start, end) && CreatedIn(rows[j], start, end)
  {
    if i, j :| && 0 <= i < j < |rows| && rows[i].intentId == rows[j].intentId == intentId
               && CreatedIn(rows[i], start, end) && CreatedIn(rows[j], start, end) {
      CountsTwoRows(rows, i, j, start, end);
      assert rows[i] in rows;
      assert Discrepancy(DUPLICATE_SETTLEMENT, CRITICAL, intentId, Some(CreatedCount(rows, intentId, start, end) as real - 1.0))
          in DuplicateSettlements(rows, start, end);
    }
    if d :| d in DuplicateSettlements(rows, start, end) && d.intentId == intentId {
      var i, j := TwoCountedRows(rows, intentId, start, end);
    }
  }

  function CreatedRows(rows: seq<SettlementRow>, intentId: string, start: int, end: int): set<nat> {
    set i: nat | i < |rows| && rows[i].intentId == intentId && start <= rows[i].createdAt && rows[i].createdAt <= end
  }

  lemma {:induction false} CreatedCountIs(rows: seq<SettlementRow>, intentId: string, start: int, end: int)
    ensures CreatedCount(rows, intentId, start, end) == |CreatedRows(rows, intentId, start, end)|
  {
    if rows == [] {
      assert CreatedRows(rows, intentId, start, end) == {};
    } else {
      var last := |rows| - 1;
      CreatedCountIs(rows[..last], intentId, start, end);
      assert CreatedRows(rows, intentId, start, end)
          == CreatedRows(rows[..last], intentId, start, end) + if last in CreatedRows(rows, intentId, start, end) then {last} else {};
    }
  }

  /** Each duplicate is critical and tells how many settlements the intent has too many in the
      period, both ends included. */
  lemma DuplicatesInFull(rows: seq<SettlementRow>, start: int, end: int, d: Discrepancy)
    requires d in DuplicateSettlements(rows, start, end)
    ensures d.kind == DUPLICATE_SETTLEMENT && d.severity == CRITICAL
    ensures |CreatedRows(rows, d.intentId, start, end)| > 1
    ensures d.difference == Some(|CreatedRows(rows, d.intentId, start, end)| as real - 1.0)
  {
    CreatedCountIs(rows, d.intentId, start, end);
  }

  datatype Summary = Summary(total: nat, byKind: map<Kind, nat>, bySeverity: map<Severity, nat>, criticals: seq<Discrepancy>)

  function Kinds(ds: seq<Discrepancy>): seq<Kind> {
    seq(|ds|, i requires 0 <= i < |ds| => ds[i].kind)
  }

  function Severities(ds: seq<Discrepancy>): seq<Severity> {
    seq(|ds|, i requires 0 <= i < |ds| => ds[i].severity)
  }

  /** The map counts exactly what occurs, as often as it occurs. */
  ghost predicate Tallied<T(!new)>(counts: map<T, nat>, occurrences: multiset<T>) {
    forall t :: (t in counts <==> t in occurrences) && (t in counts ==> counts[t] == occurrences[t])
  }

  /** Every critical discrepancy as often as it occurs, and nothing else. */
  ghost predicate AreCriticalsOf(criticals: seq<Discrepancy>, ds: seq<Discrepancy>) {
    forall d :: multiset(criticals)[d] == if d.severity == CRITICAL then multiset(ds)[d] else 0
  }

  lemma OneMoreCritical(criticals: seq<Discrepancy>, ds: seq<Discrepancy>, next: Discrepancy)
    requires AreCriticalsOf(criticals, ds)
    ensures AreCriticalsOf(criticals + if next.severity == CRITICAL then [next] else [], ds + [next])
  {
    assert multiset(ds + [next]) == multiset(ds) + multiset{next};
    assert multiset(criticals + [next]) == multiset(criticals) + multiset{next};
    assert criticals + [] == criticals;
  }

  function CountOne<T>(counts: map<T, nat>, t: T): map<T, nat> {
    counts[t := (if t in counts then counts[t] else 0) + 1]
  }

  lemma CountOneTallies<T(!new)>(counts: map<T, nat>, before: seq<T>, t: T)
    requires Tallied(counts, multiset(before))
    ensures Tallied(CountOne(counts, t), multiset(before + [t]))
  {
    assert multiset(before + [t]) == multiset(before) + multiset{t};
  }

  method BuildDiscrepancySummary(ds: seq<Discrepancy>) returns (s: Summary)
    ensures s.total == |ds|
    ensures Tallied(s.byKind, multiset(Kinds(ds))) && Tallied(s.bySeverity, multiset(Severities(ds)))
    ensures AreCriticalsOf(s.criticals, ds)
  {
    var byKind: map<Kind, nat>, bySeverity: map<Severity, nat> := map[], map[];
    var criticals: seq<Discrepancy> := [];
    for i := 0 to |ds|
      invariant Tallied(byKind, multiset(Kinds(ds[..i]))) && Tallied(bySeverity, multiset(Severities(ds[..i])))
      invariant AreCriticalsOf(criticals, ds[..i])
    {
      assert ds[..i + 1] == ds[..i] + [ds[i]];
      assert Kinds(ds[..i + 1]) == Kinds(ds[..i]) + [ds[i].kind];
      assert Severities(ds[..i + 1]) == Severities(ds[..i]) + [ds[i].severity];
      CountOneTallies(byKind, Kinds(ds[..i]), ds[i].kind);
      CountOneTallies(bySeverity, Severities(ds[..i]), ds[i].severity);
      byKind := CountOne(byKind, ds[i].kind);
      bySeverity := CountOne(bySeverity, ds[i].severity);
      OneMoreCritical(criticals, ds[..i], ds[i]);
      if ds[i].severity == CRITICAL {
        criticals := criticals + [ds[i]];
      }
    }
    assert ds[..|ds|] == ds;
    s := Summary(|ds|, byKind, bySeverity, criticals);
  }

  /** The rows of a query in whatever order the database gives them. */
  method InSomeOrder(rows: set<Discrepancy>) returns (found: seq<Discrepancy>)
    ensures multiset(found) == multiset(rows) && (found == [] <==> rows == {})
  {
    var rest := rows;
    found := [];
    while rest != {}
      invariant multiset(found) + multiset(rest) == multiset(rows)
      decreases |rest|
    {
      var d :| d in rest;
      found, rest := found + [d], rest - {d};
    }
    assert |multiset(found)| == |found| && |multiset(rows)| == |rows|;
  }

  predicate SettledIn(terms: Terms, start: int, end: int) {
    terms.settledAt.Some? && start <= terms.settledAt.value <= end
  }

  predicate HasRow(rows: seq<SettlementRow>, intentId: string) {
    exists i :: 0 <= i < |rows| && rows[i].intentId == intentId
  }

  /** Intents SETTLED in the period without any settlement row. */
  function MissingSettlements(a: Agreements, rows: seq<SettlementRow>, start: int, end: int): set<Discrepancy> {
    set id | id in a.intents && SettledIn(a.intents[id], start, end) && !HasRow(rows, id) ::
      Discrepancy(MISSING_SETTLEMENT, HIGH, id, None)
  }

  lemma NoneMissing(a: Agreements, rows: seq<SettlementRow>, start: int, end: int)
    ensures MissingSettlements(a, rows, start, end) == {}
       <==> forall id :: id in a.intents && SettledIn(a.intents[id], start, end) ==> HasRow(rows, id)
  {
    if id :| id in a.intents && SettledIn(a.intents[id], start, end) && !HasRow(rows, id) {
      assert Discrepancy(MISSING_SETTLEMENT, HIGH, id, None) in MissingSettlements(a, rows, start, end);
    }
  }

  /** What the FX entries of a period debit to an account. */
  function FxTotal(entries: seq<Entry>, account: string, start: int, end: int): real {
    if entries == [] then 0.0 else
    var last := entries[|entries| - 1];
    FxTotal(entries[..|entries| - 1], account, start, end)
    + if last.entryType == FxEntry && InPeriod(last, start, end) && last.debit == account then last.amount else 0.0
  }

  /** Only FX entries of the period, both ends included, that debit the account add to its total. */
  lemma FxTotalAdds(entries: seq<Entry>, e: Entry, account: string, start: int, end: int)
    ensures FxTotal(entries + [e], account, start, end)
         == FxTotal(entries, account, start, end)
            + if e.entryType == FxEntry && e.debit == account && start <= e.createdAt && e.createdAt <= end then e.amount else 0.0
    ensures FxTotal([], account, start, end) == 0.0
  {
    assert (entries + [e])[..|entries|] == entries;
  }

  /** The settlement check in full: an intent settled in the period, both ends included, that no row
      is about; it is high. */
  lemma MissingInFull(a: Agreements, rows: seq<SettlementRow>, start: int, end: int, d: Discrepancy)
    ensures d in MissingSettlements(a, rows, start, end) <==>
            && d == Discrepancy(MISSING_SETTLEMENT, HIGH, d.intentId, None) && d.intentId in a.intents
            && a.intents[d.intentId].settledAt.Some?
            && start <= a.intents[d.intentId].settledAt.value && a.intents[d.intentId].settledAt.value <= end
            && forall i :: 0 <= i < |rows| ==> rows[i].intentId != d.intentId
  {
  }

  /** The lesser of gains and losses is under nine elevenths of the greater. */
  predicate FxLopsided(gains: real, losses: real) {
    gains + losses > 0.0 && (11.0 * losses < 9.0 * gains || 11.0 * gains < 9.0 * losses)
  }

  lemma OffByATenth(gains: real, losses: real)
    requires gains + losses > 0.0
    ensures Abs(gains - losses) / (gains + losses) > 0.1 <==> FxLopsided(gains, losses)
  {
    Ratio(Abs(gains - losses), gains + losses, 0.1);
    Elevenths(gains, losses);
  }

  lemma Ratio(part: real, whole: real, limit: real)
    requires whole > 0.0
    ensures part / whole > limit <==> part > limit * whole
  {
    var share := part / whole;
    assert share * whole == part;
    Compares(share, limit, whole);
  }

  lemma Elevenths(gains: real, losses: real)
    requires gains + losses > 0.0
    ensures Abs(gains - losses) > 0.1 * (gains + losses) <==> FxLopsided(gains, losses)
  {
  }

  lemma Compares(x: real, y: real, w: real)
    requires w > 0.0
    ensures x > y <==> x * w > y * w
  {
  }

  method CheckFxGainLoss(entries: seq<Entry>, start: int, end: int) returns (found: seq<Discrepancy>)
    ensures |found| <= 1
    ensures found != [] <==> FxLopsided(FxTotal(entries, FX_GAIN, start, end), FxTotal(entries, FX_LOSS, start, end))
  {
    var gains, losses := 0.0, 0.0;
    for i := 0 to |entries|
      invariant gains == FxTotal(entries[..i], FX_GAIN, start, end) && losses == FxTotal(entries[..i], FX_LOSS, start, end)
    {
      assert entries[..i + 1][..i] == entries[..i];
      if entries[i].entryType == FxEntry && InPeriod(entries[i], start, end) {
        gains := gains + if entries[i].debit == FX_GAIN then entries[i].amount else 0.0;
        losses := losses + if entries[i].debit == FX_LOSS then entries[i].amount else 0.0;
      }
    }
    assert entries[..|entries|] == entries;
    found := [];
    if gains + losses > 0.0 {
      OffByATenth(gains, losses);
      if Abs(gains - losses) / (gains + losses) > 0.1 {
        found := [Discrepancy(FX_GAIN_LOSS_MISMATCH, MEDIUM, "aggregate", Some(Abs(gains - losses)))];
      }
    }
  }

  /** Nothing for the amount, duplicate and ledger checks to raise. */
  ghost predicate Clean(a: Agreements, db: Database, start: int, end: int) {
    && (forall i :: 0 <= i < |db.rows| ==> !Mismatched(a, db.rows[i], start, end) && !Unrecorded(db.entries, db.rows[i], start, end))
    && (forall i, j :: 0 <= i < j < |db.rows| && db.rows[i].intentId == db.rows[j].intentId
                       ==> !CreatedIn(db.rows[i], start, end) || !CreatedIn(db.rows[j], start, end))
  }

  /** Nor for the other two: every SETTLED intent has a settlement, and FX is balanced. */
  ghost predicate CleanThroughout(a: Agreements, db: Database, start: int, end: int) {
    && Clean(a, db, start, end)
    && (forall id :: id in a.intents && SettledIn(a.intents[id], start, end) ==> HasRow(db.rows, id))
    && !FxLopsided(FxTotal(db.entries, FX_GAIN, start, end), FxTotal(db.entries, FX_LOSS, start, end))
  }

  method RunReconciliation(a: Agreements, db: Database, start: int, end: int)
    returns (passed: bool, discrepancies: seq<Discrepancy>, summary: Summary)
    ensures passed <==> CleanThroughout(a, db, start, end)
    ensures passed <==> discrepancies == []
    ensures summary.total == |discrepancies| && AreCriticalsOf(summary.criticals, discrepancies)
    ensures Tallied(summary.byKind, multiset(Kinds(discrepancies))) && Tallied(summary.bySeverity, multiset(Severities(discrepancies)))
  {
    NoneMissing(a, db.rows, start, end);
    var settlements := InSomeOrder(MissingSettlements(a, db.rows, start, end));
    var amounts, _ := CheckAmountMismatches(a, db.rows, start, end);
    var duplicates := InSomeOrder(DuplicateSettlements(db.rows, start, end));
    NoDuplicatesWhen(db.rows, start, end);
    var missing := MissingLedgerEntries(db.entries, db.rows, start, end);
    var fx := CheckFxGainLoss(db.entries, start, end);
    discrepancies := settlements + amounts + duplicates + missing + fx;
    assert discrepancies == [] <==> settlements == [] && amounts == [] && duplicates == [] && missing == [] && fx == [];
    summary := BuildDiscrepancySummary(discrepancies);
    passed := discrepancies == [];
  }

  lemma NoDuplicatesWhen(rows: seq<SettlementRow>, start: int, end: int)
    ensures DuplicateSettlements(rows, start, end) == {}
       <==> forall i, j :: 0 <= i < j < |rows| && rows[i].intentId == rows[j].intentId
                           ==> !CreatedIn(rows[i], start, end) || !CreatedIn(rows[j], start, end)
  {
    if i, j :| && 0 <= i < j < |rows| && rows[i].intentId == rows[j].intentId
               && CreatedIn(rows[i], start, end) && CreatedIn(rows[j], start, end) {
      DuplicatesAreTwoRows(rows, rows[i].intentId, start, end);
    }
    if d :| d in DuplicateSettlements(rows, start, end) {
      DuplicatesAreTwoRows(rows, d.intentId, start, end);
    }
  }

  // What the checks say of databases built by settlement.

  /** The order was placed under the terms the tables still hold. */
  predicate Agrees(a: Agreements, o: Order) {
    && o.intentId in a.intents && a.intents[o.intentId].target == o.target
    && a.intents[o.intentId].merchantId in a.fees && a.fees[a.intents[o.intentId].merchantId] == o.feePercentage
  }

  predicate Priced(a: Agreements, row: SettlementRow) {
    && Joined(a, row)
    && row.amount == SettlementAmount(a.intents[row.intentId].target, a.fees[a.intents[row.intentId].merchantId])
  }

  /** A settlement priced by the service is raised exactly when rounding to eight decimals moved
      its amount by more than a ten-thousandth of it. */
  lemma RaisedWhenRoundingShows(a: Agreements, row: SettlementRow, start: int, end: int)
    requires Priced(a, row)
    ensures var exact := Expected(a, row) * SCALE;
            Mismatched(a, row, start, end)
            <==> CompletedIn(row, start, end) && Abs(exact - RoundHalfUp(exact) as real) > exact * 0.0001
  {
    var target, fee := a.intents[row.intentId].target, a.fees[a.intents[row.intentId].merchantId];
    var exact := Expected(a, row) * SCALE;
    AmountIsRounded(target, fee);
    ScaledAway(Expected(a, row), row.amount, RoundHalfUp(exact) as real);
  }

  lemma ScaledAway(expected: real, actual: real, rounded: real)
    requires actual * SCALE == rounded
    ensures OutOfTolerance(expected, actual)
       <==> Abs(expected * SCALE - rounded) > expected * SCALE * 0.0001
  {
    assert (expected - actual) * SCALE == expected * SCALE - rounded;
  }

  predicate LargeEnough(o: Order) {
    Net(o.target, o.feePercentage) >= 0.00005
  }

  lemma AcceptedWhenLargeEnough(a: Agreements, row: SettlementRow, start: int, end: int)
    requires Priced(a, row) && Expected(a, row) >= 0.00005
    ensures !Mismatched(a, row, start, end)
  {
    RaisedWhenRoundingShows(a, row, start, end);
    RoundingError(a.intents[row.intentId].target, a.fees[a.intents[row.intentId].merchantId]);
    assert Expected(a, row) * SCALE * 0.0001 >= 0.5;
    RoundHalfUpIsClose(Expected(a, row) * SCALE);
  }

  /** The bound is tight to half a unit of the last decimal: at 0.000049995 an alarm is raised. */
  lemma JustBelowIsRaised(a: Agreements, row: SettlementRow, start: int, end: int)
    requires Priced(a, row) && Expected(a, row) == 0.000049995 && CompletedIn(row, start, end)
    ensures Mismatched(a, row, start, end)
  {
    RaisedWhenRoundingShows(a, row, start, end);
    assert Expected(a, row) * SCALE == 4999.5;
    assert RoundHalfUp(4999.5) == 5000;
  }

  predicate Orders(ops: seq<Operation>, k: int, intentId: string) {
    0 <= k < |ops| && ops[k].Settle? && ops[k].order.intentId == intentId
  }

  ghost predicate OncePerIntent(ops: seq<Operation>) {
    forall j, k, intentId :: j < k && Orders(ops, j, intentId) && Orders(ops, k, intentId) ==> false
  }

  lemma {:induction false} EveryRowIsPriced(a: Agreements, ops: seq<Operation>)
    requires forall k :: 0 <= k < |ops| && ops[k].Settle? ==> Agrees(a, ops[k].order)
    ensures forall i :: 0 <= i < |Run(Database([], []), ops).rows| ==> Priced(a, Run(Database([], []), ops).rows[i])
  {
    if ops != [] {
      var last := |ops| - 1;
      EveryRowIsPriced(a, ops[..last]);
      var before, after := Run(Database([], []), ops[..last]).rows, Run(Database([], []), ops).rows;
      assert after == After(Run(Database([], []), ops[..last]), ops[last]).rows;
      forall i | 0 <= i < |after|
        ensures Priced(a, after[i])
      {
        if i < |before| {
          assert Priced(a, before[i]);
        } else {
          assert Agrees(a, ops[last].order);
        }
      }
    }
  }

  ghost predicate Ordered(ops: seq<Operation>, row: SettlementRow) {
    exists k :: Orders(ops, k, row.intentId)
  }

  lemma {:induction false} RowsAreOrdered(ops: seq<Operation>)
    ensures forall row :: row in Run(Database([], []), ops).rows ==> Ordered(ops, row)
  {
    if ops != [] {
      var last := |ops| - 1;
      RowsAreOrdered(ops[..last]);
      var before := Run(Database([], []), ops[..last]);
      forall row | Ordered(ops[..last], row)
        ensures Ordered(ops, row)
      {
        var k :| Orders(ops[..last], k, row.intentId);
        assert Orders(ops, k, row.intentId);
      }
      match ops[last]
      case Settle(o, f, c) =>
        assert Orders(ops, last, o.intentId);
        assert forall row :: row in After(before, ops[last]).rows ==> row in before.rows || row.intentId == o.intentId;
      case Retry(id) =>
        if id < |before.rows| {
          assert Ordered(ops, before.rows[id]);
          var k :| Orders(ops, k, before.rows[id].intentId);
          assert forall row :: row in After(before, ops[last]).rows ==> row in before.rows || row.intentId == before.rows[id].intentId;
        }
      case OtherMovement(m, now) =>
    }
  }

  predicate OneEach(rows: seq<SettlementRow>) {
    forall i, j :: 0 <= i < j < |rows| ==> rows[i].intentId != rows[j].intentId
  }

  lemma {:induction false} OneRowPerIntent(ops: seq<Operation>)
    requires OncePerIntent(ops)
    ensures OneEach(Run(Database([], []), ops).rows)
  {
    if ops != [] {
      var last := |ops| - 1;
      assert forall k, intentId :: Orders(ops[..last], k, intentId) ==> Orders(ops, k, intentId);
      OneRowPerIntent(ops[..last]);
      RowsAreOrdered(ops[..last]);
      var before := Run(Database([], []), ops[..last]);
      if ops[last].Settle? {
        forall i | 0 <= i < |before.rows|
          ensures before.rows[i].intentId != ops[last].order.intentId
        {
          assert Ordered(ops[..last], before.rows[i]);
          var k :| Orders(ops[..last], k, before.rows[i].intentId);
          assert Orders(ops, k, before.rows[i].intentId) && Orders(ops, last, ops[last].order.intentId);
        }
      }
      OneEachAfter(before, ops[last]);
    }
  }

  lemma OneEachAfter(db: Database, op: Operation)
    requires OneEach(db.rows)
    requires op.Settle? ==> forall i :: 0 <= i < |db.rows| ==> db.rows[i].intentId != op.order.intentId
    ensures OneEach(After(db, op).rows)
  {
    if !op.Settle? {
      assert forall i :: 0 <= i < |db.rows| ==> After(db, op).rows[i].intentId == db.rows[i].intentId;
    }
  }

  /** Completed settlements always have their entry, however often an intent is settled. */
  lemma NothingUnrecorded(ops: seq<Operation>, start: int, end: int)
    requires forall k :: 0 <= k < |ops| && ops[k].Settle? ==> !Unbalancing(ops[k].order, ops[k].faults, ops[k].chain)
    ensures var db := Run(Database([], []), ops);
            MissingLedgerEntries(db.entries, db.rows, start, end) == []
  {
    var db := Run(Database([], []), ops);
    forall i | 0 <= i < |db.rows| && CompletedIn(db.rows[i], start, end)
      ensures SettlementEntries(db.entries, db.rows[i].intentId) > 0
    {
      EntriesMatchCompleted(ops, db.rows[i].intentId);
      AnyCompletedCounts(db.rows, i);
    }
  }

  lemma {:induction false} AnyCompletedCounts(rows: seq<SettlementRow>, i: nat)
    requires i < |rows| && rows[i].status == COMPLETED
    ensures CompletedRows(rows, rows[i].intentId) > 0
  {
    if i < |rows| - 1 {
      AnyCompletedCounts(rows[..|rows| - 1], i);
    }
  }

  /** Reconciliation accepts what settlement produces: once per intent, under the terms on file,
      without unbalancing faults and not in dust, every period is clean. */
  lemma SettlementReconciles(a: Agreements, ops: seq<Operation>, start: int, end: int)
    requires OncePerIntent(ops)
    requires forall k :: 0 <= k < |ops| && ops[k].Settle? ==>
               && Agrees(a, ops[k].order) && LargeEnough(ops[k].order)
               && !Unbalancing(ops[k].order, ops[k].faults, ops[k].chain)
    ensures Clean(a, Run(Database([], []), ops), start, end)
  {
    OneRowPerIntent(ops);
    NothingUnrecorded(ops, start, end);
    NothingMismatched(a, ops, start, end);
  }

  lemma NothingMismatched(a: Agreements, ops: seq<Operation>, start: int, end: int)
    requires forall k :: 0 <= k < |ops| && ops[k].Settle? ==> Agrees(a, ops[k].order) && LargeEnough(ops[k].order)
    ensures forall i :: 0 <= i < |Run(Database([], []), ops).rows| ==>
              !Mismatched(a, Run(Database([], []), ops).rows[i], start, end)
  {
    var rows := Run(Database([], []), ops).rows;
    EveryRowIsPriced(a, ops);
    RowsAreOrdered(ops);
    forall i | 0 <= i < |rows|
      ensures !Mismatched(a, rows[i], start, end)
    {
      assert Ordered(ops, rows[i]);
      var k :| Orders(ops, k, rows[i].intentId);
      assert Agrees(a, ops[k].order) && Priced(a, rows[i]);
      AcceptedWhenLargeEnough(a, rows[i], start, end);
    }
  }

  /** Of the unbalancing faults the checks see the completed row without an entry, and nothing of
      the entry whose row was marked FAILED. */
  lemma HalfOfTheImbalanceIsSeen(a: Agreements, o: Order, f: Faults, c: Chain, start: int, end: int)
    requires start <= o.finishedAt <= end
    ensures MissingLedgerEntries(NewEntries(o, f, c), NewRows(o, f, c), start, end) != []
       <==> Unbalancing(o, f, c) && f.failed == Refused
    ensures Unbalancing(o, f, c) && f.failed != Refused ==>
              && SettlementEntries(NewEntries(o, f, c), o.intentId) == 1
              && Clean(a, Database(NewRows(o, f, c), NewEntries(o, f, c)), start, end)
  {
    EntriesOf(NewEntries(o, f, c), o.intentId);
    assert NewRows(o, f, c) != [] ==> NewRows(o, f, c)[..0] == [];
  }

  /** The settlement rows after the first n operations. */
  ghost function RowsAfter(ops: seq<Operation>, n: nat): seq<SettlementRow>
    requires n <= |ops|
  {
    Run(Database([], []), ops[..n]).rows
  }

  /** No row is lost, and none changes its intent or creation time. */
  predicate Keeps(before: seq<SettlementRow>, after: seq<SettlementRow>) {
    && |before| <= |after|
    && forall i :: 0 <= i < |before| ==> after[i].intentId == before[i].intentId && after[i].createdAt == before[i].createdAt
  }

  lemma KeepsChains(a: seq<SettlementRow>, b: seq<SettlementRow>, c: seq<SettlementRow>)
    requires Keeps(a, b) && Keeps(b, c)
    ensures Keeps(a, c)
  {
  }

  lemma OperationKeeps(db: Database, op: Operation)
    ensures Keeps(db.rows, After(db, op).rows)
  {
  }

  lemma {:induction false} RowsStay(ops: seq<Operation>, n: nat, m: nat)
    requires n <= m <= |ops|
    ensures Keeps(RowsAfter(ops, n), RowsAfter(ops, m))
  {
    if n < m {
      RowsStay(ops, n, m - 1);
      assert ops[..m][..m - 1] == ops[..m - 1];
      OperationKeeps(Run(Database([], []), ops[..m - 1]), ops[m - 1]);
      KeepsChains(RowsAfter(ops, n), RowsAfter(ops, m - 1), RowsAfter(ops, m));
    }
  }

  lemma SettleAddsRow(ops: seq<Operation>, k: nat)
    requires k < |ops| && ops[k].Settle? && Creates(ops[k].faults)
    ensures var n := |RowsAfter(ops, k)|;
            && |RowsAfter(ops, k + 1)| == n + 1
            && RowsAfter(ops, k + 1)[n].intentId == ops[k].order.intentId
            && RowsAfter(ops, k + 1)[n].createdAt == ops[k].order.startedAt
  {
    assert ops[..k + 1][..k] == ops[..k];
  }

  /** FAILED rows may be paid and settled anew, but no intent is paid twice unnoticed: whatever
      became of the two calls, the duplicate check raises it in every period that covers them. */
  lemma DoublePaymentIsRaised(ops: seq<Operation>, k: nat, l: nat, start: int, end: int)
    requires k < l < |ops| && ops[k].Settle? && ops[l].Settle? && ops[k].order.intentId == ops[l].order.intentId
    requires Submits(ops[k].faults, ops[k].chain) && Submits(ops[l].faults, ops[l].chain)
    requires start <= ops[k].order.startedAt <= end && start <= ops[l].order.startedAt <= end
    ensures IsDuplicate(Run(Database([], []), ops).rows, ops[k].order.intentId, start, end)
  {
    var i := RowOfSettle(ops, k);
    var j := RowOfSettle(ops, l);
    LaterRow(ops, k, l);
    TwoRowsAreRaised(Run(Database([], []), ops).rows, i, j, start, end);
  }

  lemma LaterRow(ops: seq<Operation>, k: nat, l: nat)
    requires k < l < |ops| && ops[k].Settle? && Creates(ops[k].faults)
    ensures |RowsAfter(ops, k)| < |RowsAfter(ops, l)|
  {
    SettleAddsRow(ops, k);
    RowsStay(ops, k + 1, l);
  }

  ghost predicate IsDuplicate(rows: seq<SettlementRow>, intentId: string, start: int, end: int) {
    exists d :: d in DuplicateSettlements(rows, start, end) && d.intentId == intentId
  }

  lemma TwoRowsAreRaised(rows: seq<SettlementRow>, i: nat, j: nat, start: int, end: int)
    requires i < j < |rows| && rows[i].intentId == rows[j].intentId
    requires CreatedIn(rows[i], start, end) && CreatedIn(rows[j], start, end)
    ensures IsDuplicate(rows, rows[i].intentId, start, end)
  {
    DuplicatesAreTwoRows(rows, rows[i].intentId, start, end);
  }

  lemma RowOfSettle(ops: seq<Operation>, k: nat) returns (i: nat)
    requires k < |ops| && ops[k].Settle? && Creates(ops[k].faults)
    ensures var rows := Run(Database([], []), ops).rows;
            && i == |RowsAfter(ops, k)| && i < |rows|
            && rows[i].intentId == ops[k].order.intentId && rows[i].createdAt == ops[k].order.startedAt
  {
    i := |RowsAfter(ops, k)|;
    SettleAddsRow(ops, k);
    RowsStay(ops, k + 1, |ops|);
    assert ops[..|ops|] == ops;
  }
}
