/** The sliding velocity window: pruned at every check, yet equal to the full history filtered. */
module VelocityCheckers {
  import opened Wrappers
  import opened AddressKeys
  import opened IdempotencyKeys
  import opened Rounding

  datatype Record = Record(amount: real, timestamp: int)

  datatype Limits = Limits(durationMs: int, maxTransactions: int, maxAmount: real)

  /** The records no older than the window; one from the future counts. */
  function InWindow(records: seq<Record>, now: int, durationMs: int): seq<Record> {
    if records == [] then [] else
    InWindow(records[..|records| - 1], now, durationMs) + IfRecent(records[|records| - 1], now, durationMs)
  }

  predicate Recent(r: Record, now: int, durationMs: int) {
    now - r.timestamp <= durationMs
  }

  function IfRecent(r: Record, now: int, durationMs: int): seq<Record> {
    if Recent(r, now, durationMs) then [r] else []
  }

  function Total(records: seq<Record>): real {
    if records == [] then 0.0 else Total(records[..|records| - 1]) + records[|records| - 1].amount
  }

  type Windows = map<string, seq<Record>>

  function RecordsOf(windows: Windows, key: string): seq<Record> {
    if key in windows then windows[key] else []
  }

  datatype Call =
    | Check(address: string, chain: string, record: Record, now: int)
    | ClearHistory(address: string, chain: string)
    | ClearAll

  function After(windows: Windows, call: Call, durationMs: int): Windows {
    match call
    case Check(address, chain, record, now) =>
      windows[AddressKey(address, chain) := InWindow(RecordsOf(windows, AddressKey(address, chain)) + [record], now, durationMs)]
    case ClearHistory(address, chain) => windows - {AddressKey(address, chain)}
    case ClearAll => map[]
  }

  /** What a check compares with its limits, read off its window. */
  predicate Breaks(window: seq<Record>, limits: Limits) {
    |window| > limits.maxTransactions || Total(window) > limits.maxAmount
  }

  datatype Flag = VELOCITY_ANOMALY

  /** The score is None where a limit is not positive, and the source divides by it all the same. */
  datatype CheckResult = CheckResult(exceeded: bool, score: Option<int>, flags: seq<Flag>, transactionCount: nat,
                                     totalAmount: real, averageAmount: real, timeSinceLast: Option<int>)

  function AverageOf(total: real, count: nat): real {
    if count > 0 then total / count as real else 0.0
  }

  lemma AverageTimesCount(total: real, count: nat)
    ensures AverageOf(total, count) * count as real == if count > 0 then total else 0.0
  {
  }

  /** The result reads count, sum, mean and latest gap off the window; a breach is one of the
      first two over its limit. */
  ghost predicate Assesses(r: CheckResult, window: seq<Record>, limits: Limits) {
    && r.transactionCount == |window| && r.totalAmount == Total(window)
    && r.averageAmount == AverageOf(Total(window), |window|) && IsGap(window, r.timeSinceLast)
    && (r.exceeded <==> Breaks(window, limits))
    && r.flags == FlagsFor(|window|, r.averageAmount, r.timeSinceLast, limits)
    && r.score == ScoreOf(|window|, r.totalAmount, r.averageAmount, r.timeSinceLast, limits)
  }

  /** i is a latest record, and j a latest of the others. */
  predicate TwoLatest(records: seq<Record>, i: nat, j: nat) {
    && i < |records| && j < |records| && i != j
    && forall k :: 0 <= k < |records| ==>
         records[k].timestamp <= records[i].timestamp && (k != i ==> records[k].timestamp <= records[j].timestamp)
  }

  /** None stands for infinity. */
  ghost predicate IsGap(records: seq<Record>, gap: Option<int>) {
    if |records| <= 1 then gap == None
    else exists i: nat, j: nat :: TwoLatest(records, i, j) && gap == Some(records[i].timestamp - records[j].timestamp)
  }

  lemma GapIsOne(records: seq<Record>, gap: Option<int>, other: Option<int>)
    requires IsGap(records, gap) && IsGap(records, other)
    ensures gap == other && (gap.Some? ==> gap.value >= 0)
  {
    if |records| > 1 {
      var i: nat, j: nat :| TwoLatest(records, i, j) && gap == Some(records[i].timestamp - records[j].timestamp);
      var k: nat, l: nat :| TwoLatest(records, k, l) && other == Some(records[k].timestamp - records[l].timestamp);
      assert records[i].timestamp == records[k].timestamp && records[j].timestamp == records[l].timestamp;
    }
  }

  function FlagsFor(count: nat, average: real, gap: Option<int>, limits: Limits): seq<Flag> {
    (if count as real > limits.maxTransactions as real * 0.8 then [VELOCITY_ANOMALY] else [])
    + (if count > 5 && 9000.0 < average < 10000.0 then [VELOCITY_ANOMALY] else [])
    + (if gap.Some? && gap.value < 60000 && count > 3 then [VELOCITY_ANOMALY] else [])
  }

  /** A window over its count is always flagged, too. */
  lemma BreachIsFlagged(count: nat, average: real, gap: Option<int>, limits: Limits)
    requires limits.maxTransactions >= 0 && count > limits.maxTransactions
    ensures FlagsFor(count, average, gap, limits) != []
  {
    assert count as real > limits.maxTransactions as real;
  }

  /** A flag for each of: more than four fifths of the count allowed, more than five transactions
      that average between 9000 and 10000, more than three with the last two within a minute. */
  lemma FlagsInNumbers(count: nat, average: real, gap: Option<int>, limits: Limits)
    ensures |FlagsFor(count, average, gap, limits)|
         == (if 5 * count > 4 * limits.maxTransactions then 1 else 0)
            + (if count >= 6 && 9000.0 < average && average < 10000.0 then 1 else 0)
            + (if count >= 4 && gap != None && gap.value <= 59999 then 1 else 0)
    ensures forall flag :: flag in FlagsFor(count, average, gap, limits) ==> flag == VELOCITY_ANOMALY
  {
    FourFifths(count, limits.maxTransactions);
  }

  lemma FourFifths(count: nat, most: int)
    ensures count as real > most as real * 0.8 <==> 5 * count > 4 * most
  {
    assert count as real > most as real * 0.8 <==> 5.0 * count as real > 4.0 * most as real;
  }

  /** The points of the parts: up to 30 for the count and for the sum, each against its limit, up to
      20 for the mean against 10000, 20 for a gap under a minute and 10 for one under five. */
  lemma PointsInNumbers(count: nat, most: int, total: real, amount: real, average: real, gap: Option<int>)
    requires most > 0 && amount > 0.0
    ensures Capped(count as real / most as real * 30.0, 30.0) * most as real == if count >= most then 30.0 * most as real else 30.0 * count as real
    ensures Capped(total / amount * 30.0, 30.0) * amount == if total >= amount then 30.0 * amount else 30.0 * total
    ensures Capped(average / 10000.0 * 20.0, 20.0) == if average >= 10000.0 then 20.0 else average / 500.0
    ensures Rapid(gap) == match gap
                          case None => 0.0
                          case Some(ms) => if ms >= 300000 then 0.0 else if ms >= 60000 then 10.0 else 20.0
  {
    CappedShare(count as real, most as real);
    CappedShare(total, amount);
  }

  lemma CappedShare(x: real, y: real)
    requires y > 0.0
    ensures Capped(x / y * 30.0, 30.0) * y == if x >= y then 30.0 * y else 30.0 * x
  {
    var share := x / y;
    assert share * y == x;
    Compares(share, 1.0, y);
  }

  lemma Compares(x: real, y: real, w: real)
    requires w > 0.0
    ensures x >= y <==> x * w >= y * w
  {
  }

  /** The score is their sum, rounded, and 100 at most. */
  lemma ScoreIsSum(count: nat, total: real, average: real, gap: Option<int>, limits: Limits)
    requires limits.maxTransactions > 0 && limits.maxAmount > 0.0
    ensures
      var sum := Capped(count as real / limits.maxTransactions as real * 30.0, 30.0) + Capped(total / limits.maxAmount * 30.0, 30.0)
                 + Capped(average / 10000.0 * 20.0, 20.0) + Rapid(gap);
      && ScoreOf(count, total, average, gap, limits).Some?
      && var score := ScoreOf(count, total, average, gap, limits).value;
         if sum >= 99.5 then score == 100 else -0.5 <= score as real - sum <= 0.5
  {
    var sum := Capped(count as real / limits.maxTransactions as real * 30.0, 30.0) + Capped(total / limits.maxAmount * 30.0, 30.0)
               + Capped(average / 10000.0 * 20.0, 20.0) + Rapid(gap);
    RoundHalfUpIsClose(sum);
  }

  function Capped(x: real, cap: real): real {
    if x < cap then x else cap
  }

  function Rapid(gap: Option<int>): real {
    if gap.None? then 0.0 else if gap.value < 60000 then 20.0 else if gap.value < 300000 then 10.0 else 0.0
  }

  function ScoreOf(count: nat, total: real, average: real, gap: Option<int>, limits: Limits): Option<int> {
    if limits.maxTransactions <= 0 || limits.maxAmount <= 0.0 then None else
    var sum := Capped(count as real / limits.maxTransactions as real * 30.0, 30.0) + Capped(total / limits.maxAmount * 30.0, 30.0)
               + Capped(average / 10000.0 * 20.0, 20.0) + Rapid(gap);
    Some(if RoundHalfUp(sum) < 100 then RoundHalfUp(sum) else 100)
  }

  lemma ShareWithin(x: real, y: real, cap: real)
    requires x >= 0.0 && y > 0.0 && cap >= 0.0
    ensures 0.0 <= Capped(x / y * cap, cap) <= cap
  {
    assert x / y >= 0.0;
  }

  /** The score lies between 0 and 100 when nothing negative goes in. */
  lemma ScoreWithin(count: nat, total: real, average: real, gap: Option<int>, limits: Limits)
    requires limits.maxTransactions > 0 && limits.maxAmount > 0.0 && total >= 0.0 && average >= 0.0
    ensures ScoreOf(count, total, average, gap, limits).Some?
    ensures 0 <= ScoreOf(count, total, average, gap, limits).value <= 100
  {
    ShareWithin(count as real, limits.maxTransactions as real, 30.0);
    ShareWithin(total, limits.maxAmount, 30.0);
    ShareWithin(average, 10000.0, 20.0);
    RoundHalfUpStaysWithin(Capped(count as real / limits.maxTransactions as real * 30.0, 30.0)
                           + Capped(total / limits.maxAmount * 30.0, 30.0)
                           + Capped(average / 10000.0 * 20.0, 20.0) + Rapid(gap), 0, 100);
  }

  class VelocityChecker {
    const limits: Limits
    var windows: Windows

    constructor (limits: Limits)
      ensures this.limits == limits && windows == map[]
    {
      this.limits := limits;
      windows := map[];
    }

    method CheckVelocity(address: string, chain: string, record: Record, now: int) returns (r: CheckResult)
      modifies this
      ensures windows == After(old(windows), Check(address, chain, record, now), limits.durationMs)
      ensures Assesses(r, RecordsOf(windows, AddressKey(address, chain)), limits)
    {
      var key := AddressKey(address, chain);
      var validRecords := InWindow(RecordsOf(windows, key) + [record], now, limits.durationMs);
      windows := windows[key := validRecords];
      r := Assess(validRecords);
    }

    /** The metrics of a window, and what they say. */
    method Assess(records: seq<Record>) returns (r: CheckResult)
      ensures Assesses(r, records, limits)
    {
      var count := |records|;
      var total := Sum(records);
      var average := AverageOf(total, count);
      var gap := TimeSinceLast(records);
      r := CheckResult(count > limits.maxTransactions || total > limits.maxAmount, ScoreOf(count, total, average, gap, limits),
                       FlagsFor(count, average, gap, limits), count, total, average, gap);
    }

    method Sum(records: seq<Record>) returns (total: real)
      ensures total == Total(records)
    {
      total := 0.0;
      for i := 0 to |records|
        invariant total == Total(records[..i])
      {
        assert records[..i + 1][..i] == records[..i];
        total := total + records[i].amount;
      }
      assert records[..|records|] == records;
    }

    /** The time between the two latest records, if there are two. */
    method TimeSinceLast(records: seq<Record>) returns (gap: Option<int>)
      ensures IsGap(records, gap)
    {
      if |records| <= 1 {
        return None;
      }
      var i, j := if records[0].timestamp >= records[1].timestamp then 0 else 1, if records[0].timestamp >= records[1].timestamp then 1 else 0;
      for k := 2 to |records|
        invariant TwoLatest(records[..k], i, j)
      {
        if records[k].timestamp > records[i].timestamp {
          i, j := k, i;
        } else if records[k].timestamp > records[j].timestamp {
          j := k;
        }
      }
      assert records[..|records|] == records;
      gap := Some(records[i].timestamp - records[j].timestamp);
    }

    method ClearHistory(address: string, chain: string)
      modifies this
      ensures windows == After(old(windows), Call.ClearHistory(address, chain), limits.durationMs)
    {
      windows := windows - {AddressKey(address, chain)};
    }

    method ClearAll()
      modifies this
      ensures windows == After(old(windows), Call.ClearAll, limits.durationMs)
    {
      windows := map[];
    }
  }

  // Whole runs.

  function Run(calls: seq<Call>, durationMs: int): Windows {
    if calls == [] then map[] else After(Run(calls[..|calls| - 1], durationMs), calls[|calls| - 1], durationMs)
  }

  /** Everything checked for an address on a chain since it was last cleared; nothing is pruned
      and no keys are made. */
  function History(calls: seq<Call>, address: string, chain: string): seq<Record> {
    if calls == [] then [] else
    var before := History(calls[..|calls| - 1], address, chain);
    match calls[|calls| - 1]
    case Check(a, c, record, _) => if Lower(a) == Lower(address) && c == chain then before + [record] else before
    case ClearHistory(a, c) => if Lower(a) == Lower(address) && c == chain then [] else before
    case ClearAll => []
  }

  predicate KnownChain(call: Call) {
    !call.ClearAll? ==> ColonFree(call.chain)
  }

  /** The times of the checks that History lists. */
  function Times(calls: seq<Call>, address: string, chain: string): (times: seq<int>)
    ensures |times| == |History(calls, address, chain)|
  {
    if calls == [] then [] else
    var before := Times(calls[..|calls| - 1], address, chain);
    match calls[|calls| - 1]
    case Check(a, c, _, now) => if Lower(a) == Lower(address) && c == chain then before + [now] else before
    case ClearHistory(a, c) => if Lower(a) == Lower(address) && c == chain then [] else before
    case ClearAll => []
  }

  /** Every record recent now was recent at its own check and at each later one. */
  predicate NothingLost(records: seq<Record>, times: seq<int>, now: int, durationMs: int)
    requires |records| == |times|
  {
    forall j, k :: 0 <= j <= k < |records| && Recent(records[j], now, durationMs) ==> Recent(records[j], times[k], durationMs)
  }

  lemma {:induction false} InWindowAppends(records: seq<Record>, record: Record, now: int, durationMs: int)
    ensures InWindow(records + [record], now, durationMs)
         == InWindow(records, now, durationMs) + IfRecent(record, now, durationMs)
  {
    assert (records + [record])[..|records|] == records;
  }

  lemma {:induction false} InWindowMembers(records: seq<Record>, now: int, durationMs: int)
    ensures forall r :: r in InWindow(records, now, durationMs) <==> r in records && Recent(r, now, durationMs)
  {
    if records != [] {
      var last := |records| - 1;
      InWindowMembers(records[..last], now, durationMs);
      assert records == records[..last] + [records[last]];
    }
  }

  /** The window keeps each record that is at most so old, as often as it occurs, and no other. */
  lemma {:induction false} WindowInFull(records: seq<Record>, now: int, durationMs: int)
    ensures forall r :: multiset(InWindow(records, now, durationMs))[r]
                        == if now - r.timestamp <= durationMs then multiset(records)[r] else 0
  {
    if records != [] {
      var last := |records| - 1;
      WindowInFull(records[..last], now, durationMs);
      assert records == records[..last] + [records[last]];
    }
  }

  /** The total is a sum: nothing for nothing, an amount for one record, and additive. */
  lemma {:induction false} TotalAdds(a: seq<Record>, b: seq<Record>, r: Record)
    ensures Total([]) == 0.0 && Total([r]) == r.amount && Total(a + b) == Total(a) + Total(b)
  {
    assert [r][..0] == [];
    if b == [] {
      assert a + b == a;
    } else {
      var last := |b| - 1;
      TotalAdds(a, b[..last], r);
      assert (a + b)[..|a + b| - 1] == a + b[..last];
    }
  }

  /** The first list is the second or shorter than it. */
  predicate PartOf(some: seq<Record>, all: seq<Record>) {
    |some| <= |all| && (|some| == |all| ==> some == all)
  }

  lemma PartOfExtends(some: seq<Record>, all: seq<Record>, x: seq<Record>, y: seq<Record>)
    requires PartOf(some, all) && PartOf(x, y)
    ensures PartOf(some + x, all + y) && (some + x == all + y <==> some == all && x == y)
  {
    if some + x == all + y {
      assert |some| == |all|;
      assert x == (some + x)[|some|..] && y == (all + y)[|all|..];
    }
  }

  lemma PruningAppends(records: seq<Record>, record: Record, first: int, second: int, durationMs: int)
    ensures InWindow(InWindow(records + [record], first, durationMs), second, durationMs)
         == InWindow(InWindow(records, first, durationMs), second, durationMs)
            + if Recent(record, first, durationMs) then IfRecent(record, second, durationMs) else []
  {
    InWindowAppends(records, record, first, durationMs);
    var window := InWindow(records, first, durationMs);
    if Recent(record, first, durationMs) {
      InWindowAppends(window, record, second, durationMs);
    } else {
      assert window + [] == window;
    }
  }

  /** Pruning first at one time and then at another gives no more than the second alone, and as
      much exactly if everything recent at the second was recent at the first. */
  lemma {:induction false} PruningTwice(records: seq<Record>, first: int, second: int, durationMs: int)
    ensures PartOf(InWindow(InWindow(records, first, durationMs), second, durationMs), InWindow(records, second, durationMs))
    ensures InWindow(InWindow(records, first, durationMs), second, durationMs) == InWindow(records, second, durationMs)
       <==> Carried(records, first, second, durationMs)
  {
    if records != [] {
      var last := records[|records| - 1];
      var before := records[..|records| - 1];
      assert records == before + [last];
      PruningTwice(before, first, second, durationMs);
      PruningAppends(before, last, first, second, durationMs);
      InWindowAppends(before, last, second, durationMs);
      PartOfExtends(InWindow(InWindow(before, first, durationMs), second, durationMs), InWindow(before, second, durationMs),
                    if Recent(last, first, durationMs) then IfRecent(last, second, durationMs) else [],
                    IfRecent(last, second, durationMs));
      CarriedOneMore(before, last, first, second, durationMs);
    }
  }

  /** Everything recent at the second time was recent at the first. */
  predicate Carried(records: seq<Record>, first: int, second: int, durationMs: int) {
    forall r :: r in records && Recent(r, second, durationMs) ==> Recent(r, first, durationMs)
  }

  lemma CarriedOneMore(records: seq<Record>, record: Record, first: int, second: int, durationMs: int)
    ensures Carried(records + [record], first, second, durationMs)
       <==> Carried(records, first, second, durationMs) && (Recent(record, second, durationMs) ==> Recent(record, first, durationMs))
  {
    assert forall r :: r in records + [record] <==> r in records || r == record;
  }

  /** One more check of an address: what it prunes, and what that costs. */
  lemma CheckPrunes(kept: seq<Record>, all: seq<Record>, times: seq<int>, record: Record, at: int, now: int, durationMs: int)
    requires |all| == |times|
    requires PartOf(InWindow(kept, now, durationMs), InWindow(all, now, durationMs))
    requires InWindow(kept, now, durationMs) == InWindow(all, now, durationMs) <==> NothingLost(all, times, now, durationMs)
    ensures
      var window := InWindow(InWindow(kept + [record], at, durationMs), now, durationMs);
      && PartOf(window, InWindow(all + [record], now, durationMs))
      && (window == InWindow(all + [record], now, durationMs) <==> NothingLost(all + [record], times + [at], now, durationMs))
  {
    PruningTwice(kept + [record], at, now, durationMs);
    InWindowAppends(kept, record, now, durationMs);
    InWindowAppends(all, record, now, durationMs);
    InWindowMembers(kept, now, durationMs);
    InWindowMembers(all, now, durationMs);
    LostOneMore(all, times, record, at, now, durationMs);
  }

  lemma LostOneMore(all: seq<Record>, times: seq<int>, record: Record, at: int, now: int, durationMs: int)
    requires |all| == |times|
    ensures NothingLost(all + [record], times + [at], now, durationMs)
       <==> && NothingLost(all, times, now, durationMs)
            && Carried(all + [record], at, now, durationMs)
  {
    var records, when := all + [record], times + [at];
    if NothingLost(records, when, now, durationMs) {
      forall j, k | 0 <= j <= k < |all| && Recent(all[j], now, durationMs)
        ensures Recent(all[j], times[k], durationMs)
      {
        assert Recent(records[j], when[k], durationMs);
      }
      forall r | r in records && Recent(r, now, durationMs)
        ensures Recent(r, at, durationMs)
      {
        var j :| 0 <= j < |records| && records[j] == r;
        assert Recent(records[j], when[|all|], durationMs);
      }
    }
  }

  /** Over any run, with clocks that go any way, what a check at `now` can count of the pruned
      window is part of the full history, and all of it exactly if nothing recent now was too old
      at its own check or a later one of the same address and chain since the last clear. */
  lemma {:induction false} WindowIsHistory(calls: seq<Call>, address: string, chain: string, now: int, durationMs: int)
    requires ColonFree(chain) && forall k :: 0 <= k < |calls| ==> KnownChain(calls[k])
    ensures
      var window := InWindow(RecordsOf(Run(calls, durationMs), AddressKey(address, chain)), now, durationMs);
      var all := History(calls, address, chain);
      && PartOf(window, InWindow(all, now, durationMs))
      && (window == InWindow(all, now, durationMs) <==> NothingLost(all, Times(calls, address, chain), now, durationMs))
  {
    if calls != [] {
      var last := calls[|calls| - 1];
      var before := calls[..|calls| - 1];
      WindowIsHistory(before, address, chain, now, durationMs);
      if !last.ClearAll? {
        AddressKeyIdentifies(last.address, last.chain, address, chain);
      }
      if last.Check? && Lower(last.address) == Lower(address) && last.chain == chain {
        CheckPrunes(RecordsOf(Run(before, durationMs), AddressKey(address, chain)), History(before, address, chain),
                    Times(before, address, chain), last.record, last.now, now, durationMs);
      }
    }
  }

  /** In particular nothing is lost while no check of this address read a later time. */
  lemma NoLaterCheck(records: seq<Record>, times: seq<int>, now: int, durationMs: int)
    requires |records| == |times| && forall k :: 0 <= k < |times| ==> times[k] <= now
    ensures NothingLost(records, times, now, durationMs)
  {
  }

  /** After any run, a check reads off its window what the full history, filtered, holds: exactly
      if nothing was lost before. */
  lemma WindowAfterCheck(calls: seq<Call>, address: string, chain: string, record: Record, now: int, durationMs: int)
    requires ColonFree(chain) && forall k :: 0 <= k < |calls| ==> KnownChain(calls[k])
    ensures
      var call := Check(address, chain, record, now);
      var all := History(calls, address, chain);
      RecordsOf(After(Run(calls, durationMs), call, durationMs), AddressKey(address, chain)) == InWindow(all + [record], now, durationMs)
      <==> NothingLost(all, Times(calls, address, chain), now, durationMs)
  {
    WindowIsHistory(calls, address, chain, now, durationMs);
    InWindowAppends(RecordsOf(Run(calls, durationMs), AddressKey(address, chain)), record, now, durationMs);
    InWindowAppends(History(calls, address, chain), record, now, durationMs);
  }

  /** Unless something was lost, a check reports a breach exactly when the full history breaks a limit. */
  lemma ExceededByFullHistory(calls: seq<Call>, address: string, chain: string, record: Record, now: int, limits: Limits)
    requires ColonFree(chain) && forall k :: 0 <= k < |calls| ==> KnownChain(calls[k])
    requires NothingLost(History(calls, address, chain), Times(calls, address, chain), now, limits.durationMs)
    ensures
      var call := Check(address, chain, record, now);
      var after := After(Run(calls, limits.durationMs), call, limits.durationMs);
      var recent := InWindow(History(calls + [call], address, chain), now, limits.durationMs);
      Breaks(RecordsOf(after, AddressKey(address, chain)), limits)
      <==> |recent| > limits.maxTransactions || Total(recent) > limits.maxAmount
  {
    WindowAfterCheck(calls, address, chain, record, now, limits.durationMs);
    HistoryGrows(calls, address, chain, record, now);
  }

  lemma HistoryGrows(calls: seq<Call>, address: string, chain: string, record: Record, now: int)
    ensures History(calls + [Check(address, chain, record, now)], address, chain) == History(calls, address, chain) + [record]
  {
    assert (calls + [Check(address, chain, record, now)])[..|calls|] == calls;
  }

  /** A check that reads a time too late for a record makes every check at a time not too late for
      it miss that record. */
  lemma ClockStepLosesRecords(calls: seq<Call>, address: string, chain: string, j: nat, record: Record, late: int, now: int,
                              durationMs: int)
    requires ColonFree(chain) && forall k :: 0 <= k < |calls| ==> KnownChain(calls[k])
    requires j < |History(calls, address, chain)|
    requires Recent(History(calls, address, chain)[j], now, durationMs) && !Recent(History(calls, address, chain)[j], late, durationMs)
    ensures
      var longer := calls + [Check(address, chain, record, late)];
      |InWindow(RecordsOf(Run(longer, durationMs), AddressKey(address, chain)), now, durationMs)|
      < |InWindow(History(longer, address, chain), now, durationMs)|
  {
    var longer := calls + [Check(address, chain, record, late)];
    assert longer[..|calls|] == calls;
    WindowIsHistory(longer, address, chain, now, durationMs);
    var all, times := History(longer, address, chain), Times(longer, address, chain);
    assert all[j] == History(calls, address, chain)[j] && times[|all| - 1] == late;
  }
}
