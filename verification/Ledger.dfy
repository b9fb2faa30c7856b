/** The double-entry ledger: LedgerRepository appends and sums, LedgerService records movements
    and draws statements. Amounts are exact reals; times are milliseconds. */
module Ledger {
  import opened Wrappers

  datatype EntryType = DepositEntry | FeeEntry | SettlementEntry | RefundEntry | FxEntry

  datatype Entry = Entry(
    intentId: string,
    entryType: EntryType,
    amount: real,
    asset: string,
    debit: string,
    credit: string,
    createdAt: int)

  function Pending(intentId: string): string { "pending:" + intentId }
  function Merchant(id: string): string { "merchant:" + id }
  function Customer(id: string): string { "customer:" + id }
  const FEES := "revenue:fees"
  const FX_GAIN := "revenue:fx"
  const FX_LOSS := "expense:fx"

  /** What one entry adds to an account: debits count up, credits down. */
  function Effect(e: Entry, account: string): real {
    (if e.debit == account then e.amount else 0.0) - (if e.credit == account then e.amount else 0.0)
  }

  /** The balance query: the entries of one asset. */
  function Balance(entries: seq<Entry>, account: string, asset: string): real {
    if entries == [] then 0.0 else
    Balance(entries[..|entries| - 1], account, asset)
    + if entries[|entries| - 1].asset == asset then Effect(entries[|entries| - 1], account) else 0.0
  }

  predicate InPeriod(e: Entry, start: int, end: int) {
    start <= e.createdAt <= end
  }

  /** A statement's closing balance: every asset, the entries BETWEEN two inclusive times. */
  function Closing(entries: seq<Entry>, account: string, start: int, end: int): real {
    if entries == [] then 0.0 else
    Closing(entries[..|entries| - 1], account, start, end)
    + if InPeriod(entries[|entries| - 1], start, end) then Effect(entries[|entries| - 1], account) else 0.0
  }

  /** One entry more adds its debits and takes off its credits: to a statement if it falls into the
      period, both ends included, and to a balance if it is of the asset. */
  lemma OneEntryMore(entries: seq<Entry>, e: Entry, account: string, start: int, end: int, asset: string)
    ensures Closing([], account, start, end) == 0.0 && Balance([], account, asset) == 0.0
    ensures
      var debits, credits := if e.debit == account then e.amount else 0.0, if e.credit == account then e.amount else 0.0;
      && Closing(entries + [e], account, start, end)
         == Closing(entries, account, start, end) + (if start <= e.createdAt && e.createdAt <= end then debits - credits else 0.0)
      && Balance(entries + [e], account, asset)
         == Balance(entries, account, asset) + (if e.asset == asset then debits - credits else 0.0)
  {
    assert (entries + [e])[..|entries|] == entries;
  }

  predicate NoDuplicates(names: seq<string>) {
    forall i, j :: 0 <= i < j < |names| ==> names[i] != names[j]
  }

  function SumOfBalances(entries: seq<Entry>, accounts: seq<string>, asset: string): real {
    if accounts == [] then 0.0
    else SumOfBalances(entries, accounts[..|accounts| - 1], asset) + Balance(entries, accounts[|accounts| - 1], asset)
  }

  function SumOfEffects(e: Entry, accounts: seq<string>): real {
    if accounts == [] then 0.0
    else SumOfEffects(e, accounts[..|accounts| - 1]) + Effect(e, accounts[|accounts| - 1])
  }

  lemma {:induction false} EffectsOf(e: Entry, accounts: seq<string>)
    requires NoDuplicates(accounts)
    ensures SumOfEffects(e, accounts)
         == (if e.debit in accounts then e.amount else 0.0) - (if e.credit in accounts then e.amount else 0.0)
  {
    if accounts != [] {
      var last := |accounts| - 1;
      EffectsOf(e, accounts[..last]);
      assert accounts == accounts[..last] + [accounts[last]];
    }
  }

  lemma {:induction false} LastEntryAdds(entries: seq<Entry>, accounts: seq<string>, asset: string)
    requires entries != []
    ensures
      var last := entries[|entries| - 1];
      SumOfBalances(entries, accounts, asset)
      == SumOfBalances(entries[..|entries| - 1], accounts, asset)
         + if last.asset == asset then SumOfEffects(last, accounts) else 0.0
  {
    if accounts != [] {
      LastEntryAdds(entries, accounts[..|accounts| - 1], asset);
    }
  }

  /** Double entry: over any list of accounts that has each account of the ledger once, the
      balances of an asset sum to zero. */
  lemma {:induction false} BalancesSumToZero(entries: seq<Entry>, accounts: seq<string>, asset: string)
    requires NoDuplicates(accounts)
    requires forall k :: 0 <= k < |entries| ==> entries[k].debit in accounts && entries[k].credit in accounts
    ensures SumOfBalances(entries, accounts, asset) == 0.0
  {
    if entries == [] {
      NoEntries(accounts, asset);
    } else {
      BalancesSumToZero(entries[..|entries| - 1], accounts, asset);
      LastEntryAdds(entries, accounts, asset);
      EffectsOf(entries[|entries| - 1], accounts);
    }
  }

  lemma {:induction false} NoEntries(accounts: seq<string>, asset: string)
    ensures SumOfBalances([], accounts, asset) == 0.0
  {
    if accounts != [] {
      NoEntries(accounts[..|accounts| - 1], asset);
    }
  }

  // Statements.

  function SumOverAssets(entries: seq<Entry>, account: string, assets: seq<string>): real {
    if assets == [] then 0.0
    else SumOverAssets(entries, account, assets[..|assets| - 1]) + Balance(entries, account, assets[|assets| - 1])
  }

  lemma {:induction false} LastEntryAddsOnce(entries: seq<Entry>, account: string, assets: seq<string>)
    requires entries != [] && NoDuplicates(assets)
    ensures
      var last := entries[|entries| - 1];
      SumOverAssets(entries, account, assets)
      == SumOverAssets(entries[..|entries| - 1], account, assets) + if last.asset in assets then Effect(last, account) else 0.0
  {
    if assets != [] {
      var n := |assets| - 1;
      LastEntryAddsOnce(entries, account, assets[..n]);
      assert assets == assets[..n] + [assets[n]];
    }
  }

  lemma {:induction false} NoEntriesOverAssets(account: string, assets: seq<string>)
    ensures SumOverAssets([], account, assets) == 0.0
  {
    if assets != [] {
      NoEntriesOverAssets(account, assets[..|assets| - 1]);
    }
  }

  /** A statement over all time closes at the sum of the account's balances over its assets. */
  lemma {:induction false} ClosingIsSumOfBalances(entries: seq<Entry>, account: string, assets: seq<string>, start: int, end: int)
    requires NoDuplicates(assets)
    requires forall k :: 0 <= k < |entries| ==> entries[k].asset in assets && InPeriod(entries[k], start, end)
    ensures Closing(entries, account, start, end) == SumOverAssets(entries, account, assets)
  {
    if entries == [] {
      NoEntriesOverAssets(account, assets);
    } else {
      ClosingIsSumOfBalances(entries[..|entries| - 1], account, assets, start, end);
      LastEntryAddsOnce(entries, account, assets);
    }
  }

  /** Two statements that share one boundary instant count that instant twice, and only it. */
  lemma {:induction false} ClosingsAdd(entries: seq<Entry>, account: string, start: int, mid: int, end: int)
    requires start <= mid <= end
    ensures Closing(entries, account, start, mid) + Closing(entries, account, mid, end)
         == Closing(entries, account, start, end) + Closing(entries, account, mid, mid)
  {
    if entries != [] {
      ClosingsAdd(entries[..|entries| - 1], account, start, mid, end);
    }
  }

  /** Over disjoint adjacent periods closing balances add up. */
  lemma {:induction false} ClosingsAddUp(entries: seq<Entry>, account: string, start: int, mid: int, end: int)
    requires start <= mid + 1 && mid <= end
    ensures Closing(entries, account, start, mid) + Closing(entries, account, mid + 1, end)
         == Closing(entries, account, start, end)
  {
    if entries != [] {
      ClosingsAddUp(entries[..|entries| - 1], account, start, mid, end);
    }
  }

  // The five recording methods.

  datatype Movement =
    | Deposited(intentId: string, amount: real, asset: string, customerId: string)
    | Fee(intentId: string, amount: real, asset: string, merchantId: string)
    | Settled(intentId: string, amount: real, asset: string, merchantId: string)
    | Refunded(intentId: string, amount: real, asset: string, merchantId: string, customerId: string)
    | FxGainLoss(intentId: string, gain: real, asset: string)

  function EntryOf(m: Movement, now: int): Entry {
    match m
    case Deposited(id, amount, asset, customer) => Entry(id, DepositEntry, amount, asset, Pending(id), Customer(customer), now)
    case Fee(id, amount, asset, merchant) => Entry(id, FeeEntry, amount, asset, Merchant(merchant), FEES, now)
    case Settled(id, amount, asset, merchant) => Entry(id, SettlementEntry, amount, asset, Pending(id), Merchant(merchant), now)
    case Refunded(id, amount, asset, merchant, customer) =>
      Entry(id, RefundEntry, amount, asset, Merchant(merchant), Customer(customer), now)
    case FxGainLoss(id, gain, asset) =>
      Entry(id, FxEntry, if gain >= 0.0 then gain else -gain, asset,
            if gain >= 0.0 then FX_GAIN else FX_LOSS, if gain >= 0.0 then FX_LOSS else FX_GAIN, now)
  }

  /** What deposits and settlements of an intent add up to, in one asset. */
  function Escrowed(entries: seq<Entry>, intentId: string, asset: string): real {
    if entries == [] then 0.0 else
    var last := entries[|entries| - 1];
    Escrowed(entries[..|entries| - 1], intentId, asset)
    + if last.intentId == intentId && last.asset == asset && last.entryType in {DepositEntry, SettlementEntry}
      then last.amount else 0.0
  }

  ghost predicate Recorded(e: Entry) {
    exists m: Movement, now :: e == EntryOf(m, now)
  }

  lemma PendingStandsAlone(e: Entry, intentId: string)
    requires Recorded(e)
    ensures Effect(e, Pending(intentId))
         == if e.intentId == intentId && e.entryType in {DepositEntry, SettlementEntry} then e.amount else 0.0
  {
    var m, now :| e == EntryOf(m, now);
    var account := Pending(intentId);
    assert account[0] == 'p' && FEES[0] == 'r' && FX_GAIN[0] == 'r' && FX_LOSS[0] == 'e';
    assert e.debit == Pending(e.intentId) ==> e.debit[|"pending:"|..] == e.intentId;
    assert account[|"pending:"|..] == intentId;
    match m
    case Deposited(id, amount, asset, customer) => assert Customer(customer)[0] == 'c';
    case Fee(id, amount, asset, merchant) => assert Merchant(merchant)[0] == 'm';
    case Settled(id, amount, asset, merchant) => assert Merchant(merchant)[0] == 'm';
    case Refunded(id, amount, asset, merchant, customer) => assert Merchant(merchant)[0] == 'm' && Customer(customer)[0] == 'c';
    case FxGainLoss(id, gain, asset) =>
  }

  /** Settling does not release the escrow: both a deposit and a settlement debit the intent's
      pending account, so its balance is the sum of the two, and zero only if that sum is. */
  lemma {:induction false} EscrowNeverReleased(entries: seq<Entry>, intentId: string, asset: string)
    requires forall k :: 0 <= k < |entries| ==> Recorded(entries[k])
    ensures Balance(entries, Pending(intentId), asset) == Escrowed(entries, intentId, asset)
  {
    if entries != [] {
      EscrowNeverReleased(entries[..|entries| - 1], intentId, asset);
      PendingStandsAlone(entries[|entries| - 1], intentId);
    }
  }

  // What any list of recorded movements comes to.

  datatype Account = OfIntent(id: string) | OfMerchant(id: string) | OfCustomer(id: string) | OfFees | OfFxGain | OfFxLoss

  function Name(account: Account): string {
    match account
    case OfIntent(id) => "pending:" + id
    case OfMerchant(id) => "merchant:" + id
    case OfCustomer(id) => "customer:" + id
    case OfFees => "revenue:fees"
    case OfFxGain => "revenue:fx"
    case OfFxLoss => "expense:fx"
  }

  lemma NamesDiffer(a: Account, b: Account)
    ensures Name(a) == Name(b) <==> a == b
  {
    assert "pending:"[0] == 'p' && "merchant:"[0] == 'm' && "customer:"[0] == 'c' && "revenue:fees"[0] == 'r' && "expense:fx"[0] == 'e';
    assert |"revenue:fees"| == 12 && |"revenue:fx"| == 10;
    assert Name(a)[0] == (match a case OfIntent(_) => 'p' case OfMerchant(_) => 'm' case OfCustomer(_) => 'c' case OfFxLoss => 'e' case _ => 'r');
    assert Name(b)[0] == (match b case OfIntent(_) => 'p' case OfMerchant(_) => 'm' case OfCustomer(_) => 'c' case OfFxLoss => 'e' case _ => 'r');
    assert a.OfIntent? ==> Name(a)[8..] == a.id;
    assert b.OfIntent? ==> Name(b)[8..] == b.id;
    assert a.OfMerchant? || a.OfCustomer? ==> Name(a)[9..] == a.id;
    assert b.OfMerchant? || b.OfCustomer? ==> Name(b)[9..] == b.id;
  }

  /** What a movement adds to an account: pending takes deposits and settlements; a merchant's fees
      and refunds count up, its settlements down; customers count deposits and refunds down; fees
      are counted down on revenue; a gain moves from expense:fx to revenue:fx, a loss back. */
  function Adds(m: Movement, account: Account): real {
    match account
    case OfIntent(id) => if (m.Deposited? || m.Settled?) && m.intentId == id then m.amount else 0.0
    case OfMerchant(id) =>
      if (m.Fee? || m.Refunded?) && m.merchantId == id then m.amount
      else if m.Settled? && m.merchantId == id then -m.amount
      else 0.0
    case OfCustomer(id) => if (m.Deposited? || m.Refunded?) && m.customerId == id then -m.amount else 0.0
    case OfFees => if m.Fee? then -m.amount else 0.0
    case OfFxGain => if m.FxGainLoss? then m.gain else 0.0
    case OfFxLoss => if m.FxGainLoss? then -m.gain else 0.0
  }

  function SumOf(ms: seq<Movement>, account: Account, asset: string): real {
    if ms == [] then 0.0
    else SumOf(ms[..|ms| - 1], account, asset) + if ms[|ms| - 1].asset == asset then Adds(ms[|ms| - 1], account) else 0.0
  }

  lemma EntryAdds(m: Movement, now: int, account: Account)
    ensures EntryOf(m, now).asset == m.asset && Effect(EntryOf(m, now), Name(account)) == Adds(m, account)
  {
    NamesDiffer(account, OfFees);
    NamesDiffer(account, OfFxGain);
    NamesDiffer(account, OfFxLoss);
    match m
    case Deposited(id, amount, asset, customer) =>
      NamesDiffer(account, OfIntent(id));
      NamesDiffer(account, OfCustomer(customer));
    case Fee(id, amount, asset, merchant) =>
      NamesDiffer(account, OfMerchant(merchant));
    case Settled(id, amount, asset, merchant) =>
      NamesDiffer(account, OfIntent(id));
      NamesDiffer(account, OfMerchant(merchant));
    case Refunded(id, amount, asset, merchant, customer) =>
      NamesDiffer(account, OfMerchant(merchant));
      NamesDiffer(account, OfCustomer(customer));
    case FxGainLoss(id, gain, asset) =>
  }

  ghost predicate Records(e: Entry, m: Movement) {
    exists now :: e == EntryOf(m, now)
  }

  /** Every account's balance is the sum of what the recorded movements add to it. */
  lemma {:induction false} BalanceIsSumOfMovements(ms: seq<Movement>, entries: seq<Entry>, account: Account, asset: string)
    requires |ms| == |entries| && forall k :: 0 <= k < |ms| ==> Records(entries[k], ms[k])
    ensures Balance(entries, Name(account), asset) == SumOf(ms, account, asset)
  {
    if ms != [] {
      var last := |ms| - 1;
      BalanceIsSumOfMovements(ms[..last], entries[..last], account, asset);
      assert Records(entries[last], ms[last]);
      var now :| entries[last] == EntryOf(ms[last], now);
      EntryAdds(ms[last], now, account);
    }
  }

  /** What else an entry records: whose it is, what kind, how much, and when; an amount is negative
      only if the movement's was, and that of an FX entry never. */
  lemma EntryInFull(m: Movement, now: int)
    ensures var e := EntryOf(m, now);
            && e.intentId == m.intentId && e.createdAt == now
            && (e.entryType == DepositEntry <==> m.Deposited?) && (e.entryType == FeeEntry <==> m.Fee?)
            && (e.entryType == SettlementEntry <==> m.Settled?) && (e.entryType == RefundEntry <==> m.Refunded?)
            && (e.entryType == FxEntry <==> m.FxGainLoss?)
            && if m.FxGainLoss? then e.amount >= 0.0 && (e.amount == m.gain || e.amount == -m.gain) else e.amount == m.amount
  {
  }

  predicate Matches(e: Entry, account: string, start: int, end: int) {
    (e.debit == account || e.credit == account) && InPeriod(e, start, end)
  }

  ghost predicate AreMatches(found: seq<Entry>, entries: seq<Entry>, account: string, start: int, end: int) {
    forall e :: multiset(found)[e] == if Matches(e, account, start, end) then multiset(entries)[e] else 0
  }

  predicate OldestFirst(found: seq<Entry>) {
    forall i, j :: 0 <= i < j < |found| ==> found[i].createdAt <= found[j].createdAt
  }

  /** Behind the entries of the same time. */
  function InsertByTime(found: seq<Entry>, e: Entry): seq<Entry> {
    if found == [] || found[|found| - 1].createdAt <= e.createdAt then found + [e]
    else InsertByTime(found[..|found| - 1], e) + [found[|found| - 1]]
  }

  lemma {:induction false} InsertAdds(found: seq<Entry>, e: Entry)
    ensures multiset(InsertByTime(found, e)) == multiset(found) + multiset{e}
  {
    if found != [] && found[|found| - 1].createdAt > e.createdAt {
      InsertAdds(found[..|found| - 1], e);
      assert found == found[..|found| - 1] + [found[|found| - 1]];
    }
  }

  lemma {:induction false} InsertKeepsOrder(found: seq<Entry>, e: Entry)
    requires OldestFirst(found)
    ensures OldestFirst(InsertByTime(found, e))
  {
    if found != [] && found[|found| - 1].createdAt > e.createdAt {
      var last := found[|found| - 1];
      var rest := InsertByTime(found[..|found| - 1], e);
      InsertKeepsOrder(found[..|found| - 1], e);
      InsertAdds(found[..|found| - 1], e);
      forall i | 0 <= i < |rest|
        ensures rest[i].createdAt <= last.createdAt
      {
        assert rest[i] in multiset(rest);
      }
    }
  }

  lemma {:induction false} InsertAddsToClosing(found: seq<Entry>, e: Entry, account: string, start: int, end: int)
    ensures Closing(InsertByTime(found, e), account, start, end)
         == Closing(found, account, start, end) + if InPeriod(e, start, end) then Effect(e, account) else 0.0
  {
    if found == [] || found[|found| - 1].createdAt <= e.createdAt {
      assert (found + [e])[..|found|] == found;
    } else {
      var rest := InsertByTime(found[..|found| - 1], e);
      InsertAddsToClosing(found[..|found| - 1], e, account, start, end);
      assert (rest + [found[|found| - 1]])[..|rest|] == rest;
    }
  }

  lemma MatchOneMore(found: seq<Entry>, entries: seq<Entry>, e: Entry, account: string, start: int, end: int)
    requires AreMatches(found, entries, account, start, end)
    ensures Matches(e, account, start, end) ==>
              forall longer :: multiset(longer) == multiset(found) + multiset{e} ==>
                AreMatches(longer, entries + [e], account, start, end)
    ensures !Matches(e, account, start, end) ==> AreMatches(found, entries + [e], account, start, end)
  {
    assert multiset(entries + [e]) == multiset(entries) + multiset{e};
  }

  ghost predicate IsStatement(found: seq<Entry>, entries: seq<Entry>, account: string, start: int, end: int) {
    && AreMatches(found, entries, account, start, end) && OldestFirst(found)
    && Closing(found, account, start, end) == Closing(entries, account, start, end)
  }

  lemma ClosingOneMore(entries: seq<Entry>, e: Entry, account: string, start: int, end: int)
    ensures Closing(entries + [e], account, start, end)
         == Closing(entries, account, start, end) + if InPeriod(e, start, end) then Effect(e, account) else 0.0
  {
    assert (entries + [e])[..|entries|] == entries;
  }

  lemma StatementOneMore(found: seq<Entry>, entries: seq<Entry>, e: Entry, account: string, start: int, end: int)
    requires IsStatement(found, entries, account, start, end)
    ensures IsStatement(if Matches(e, account, start, end) then InsertByTime(found, e) else found,
                        entries + [e], account, start, end)
  {
    ClosingOneMore(entries, e, account, start, end);
    MatchOneMore(found, entries, e, account, start, end);
    if Matches(e, account, start, end) {
      InsertAdds(found, e);
      InsertKeepsOrder(found, e);
      InsertAddsToClosing(found, e, account, start, end);
    }
  }

  class LedgerRepository {
    var entries: seq<Entry>

    constructor ()
      ensures entries == []
    {
      entries := [];
    }

    /** Entries are only ever appended. */
    method Create(e: Entry)
      modifies this
      ensures entries == old(entries) + [e]
    {
      entries := entries + [e];
    }

    /** Every entry of the account in the period, as often as it occurs, oldest first. */
    method FindByAccount(account: string, start: int, end: int) returns (found: seq<Entry>)
      ensures AreMatches(found, entries, account, start, end) && OldestFirst(found)
      ensures Closing(found, account, start, end) == Closing(entries, account, start, end)
    {
      found := [];
      for i := 0 to |entries|
        invariant IsStatement(found, entries[..i], account, start, end)
      {
        assert entries[..i + 1] == entries[..i] + [entries[i]];
        StatementOneMore(found, entries[..i], entries[i], account, start, end);
        if Matches(entries[i], account, start, end) {
          found := InsertByTime(found, entries[i]);
        }
      }
      assert entries[..|entries|] == entries;
    }

    method GetBalance(account: string, asset: string) returns (balance: real)
      ensures balance == Balance(entries, account, asset)
    {
      var debits, credits := 0.0, 0.0;
      for i := 0 to |entries|
        invariant debits - credits == Balance(entries[..i], account, asset)
      {
        assert entries[..i + 1][..i] == entries[..i];
        if entries[i].asset == asset {
          debits := debits + if entries[i].debit == account then entries[i].amount else 0.0;
          credits := credits + if entries[i].credit == account then entries[i].amount else 0.0;
        }
      }
      assert entries[..|entries|] == entries;
      balance := debits - credits;
    }

    /** Both totals are the same sum, so the check passes on any ledger at all. */
    method VerifyConsistency() returns (isConsistent: bool, difference: real)
      ensures isConsistent && difference == 0.0
    {
      var total := 0.0;
      for i := 0 to |entries| {
        total := total + entries[i].amount;
      }
      var totalDebits, totalCredits := total, total;
      difference := totalDebits - totalCredits;
      isConsistent := (if difference < 0.0 then -difference else difference) < 0.0001;
    }
  }

  class LedgerService {
    const repository: LedgerRepository

    constructor (repository: LedgerRepository)
      ensures this.repository == repository
    {
      this.repository := repository;
    }

    method Record(m: Movement, now: int)
      modifies repository
      ensures repository.entries == old(repository.entries) + [EntryOf(m, now)]
    {
      repository.Create(EntryOf(m, now));
    }

    method GetStatement(account: string, start: int, end: int)
      returns (totalDebits: real, totalCredits: real, closing: real)
      ensures closing == totalDebits - totalCredits == Closing(repository.entries, account, start, end)
    {
      var entries := repository.FindByAccount(account, start, end);
      totalDebits, totalCredits := 0.0, 0.0;
      for i := 0 to |entries|
        invariant totalDebits - totalCredits == Closing(entries[..i], account, start, end)
      {
        assert entries[..i + 1][..i] == entries[..i] && entries[i] in multiset(entries);
        if entries[i].debit == account {
          totalDebits := totalDebits + entries[i].amount;
        }
        if entries[i].credit == account {
          totalCredits := totalCredits + entries[i].amount;
        }
      }
      assert entries[..|entries|] == entries;
      closing := totalDebits - totalCredits;
    }
  }
}
