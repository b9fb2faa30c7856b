/** The aggregated price: the upper median of the quotes that are confident and positive. */
module PriceOracle {
  import opened Wrappers

  datatype Quote = Quote(price: real, confidence: real)

  /** The prices of the accepted quotes, in the order of the oracles; None is an oracle that failed. */
  function Accepted(results: seq<Option<Quote>>, minConfidence: real): seq<real> {
    if results == [] then [] else
    var last := results[|results| - 1];
    Accepted(results[..|results| - 1], minConfidence)
    + if last.Some? && last.value.confidence >= minConfidence && last.value.price > 0.0 then [last.value.price] else []
  }

  /** The answers that count: given, confident enough, and positive. */
  function Counting(results: seq<Option<Quote>>, minConfidence: real, price: real): set<nat> {
    set i: nat | && i < |results| && results[i].Some? && results[i].value.price == price
                 && minConfidence <= results[i].value.confidence && 0.0 < price
  }

  /** Each price is accepted as often as it was given with enough confidence; what failed, was not
      confident enough or not positive is left out. */
  lemma {:induction false} AcceptedInFull(results: seq<Option<Quote>>, minConfidence: real, price: real)
    ensures multiset(Accepted(results, minConfidence))[price] == |Counting(results, minConfidence, price)|
  {
    if results == [] {
      assert Counting(results, minConfidence, price) == {};
    } else {
      AcceptedInFull(results[..|results| - 1], minConfidence, price);
      CountingOneMore(results, minConfidence, price);
    }
  }

  lemma CountingOneMore(results: seq<Option<Quote>>, minConfidence: real, price: real)
    requires results != []
    ensures var last := |results| - 1;
            |Counting(results, minConfidence, price)|
            == |Counting(results[..last], minConfidence, price)|
               + if results[last].Some? && results[last].value.price == price && minConfidence <= results[last].value.confidence && 0.0 < price
                 then 1 else 0
  {
    var last := |results| - 1;
    var before := Counting(results[..last], minConfidence, price);
    assert Counting(results, minConfidence, price) == before + if last in Counting(results, minConfidence, price) then {last} else {};
  }

  function Insert(x: real, sorted: seq<real>): seq<real> {
    if sorted == [] || x <= sorted[0] then [x] + sorted else [sorted[0]] + Insert(x, sorted[1..])
  }

  function Sort(prices: seq<real>): seq<real> {
    if prices == [] then [] else Insert(prices[0], Sort(prices[1..]))
  }

  function GetPrice(results: seq<Option<Quote>>, minConfidence: real): Option<real> {
    var prices := Sort(Accepted(results, minConfidence));
    if prices == [] then None else Some(prices[|prices| / 2])
  }

  predicate Ascending(prices: seq<real>) {
    forall i, j :: 0 <= i < j < |prices| ==> prices[i] <= prices[j]
  }

  function Below(p: real): real -> bool { x => x < p }
  function AtMost(p: real): real -> bool { x => x <= p }
  function Between(low: real, high: real): real -> bool { x => low <= x <= high }

  function Count(prices: seq<real>, counts: real -> bool): nat {
    if prices == [] then 0 else (if counts(prices[0]) then 1 else 0) + Count(prices[1..], counts)
  }

  lemma {:induction false} CountAppends(a: seq<real>, b: seq<real>, counts: real -> bool)
    ensures Count(a + b, counts) == Count(a, counts) + Count(b, counts)
  {
    if a == [] {
      assert a + b == b;
    } else {
      CountAppends(a[1..], b, counts);
      assert (a + b)[1..] == a[1..] + b;
    }
  }

  lemma {:induction false} CountsAll(prices: seq<real>, counts: real -> bool)
    requires forall i :: 0 <= i < |prices| ==> counts(prices[i])
    ensures Count(prices, counts) == |prices|
  {
    if prices != [] {
      CountsAll(prices[1..], counts);
    }
  }

  lemma {:induction false} CountsNone(prices: seq<real>, counts: real -> bool)
    requires forall i :: 0 <= i < |prices| ==> !counts(prices[i])
    ensures Count(prices, counts) == 0
  {
    if prices != [] {
      CountsNone(prices[1..], counts);
    }
  }

  /** Of two conditions that exclude each other, no price counts twice. */
  lemma {:induction false} CountDisjoint(prices: seq<real>, a: real -> bool, b: real -> bool)
    requires forall x :: !a(x) || !b(x)
    ensures Count(prices, a) + Count(prices, b) <= |prices|
  {
    if prices != [] {
      CountDisjoint(prices[1..], a, b);
    }
  }

  lemma {:induction false} CountMonotone(prices: seq<real>, a: real -> bool, b: real -> bool)
    requires forall x :: a(x) ==> b(x)
    ensures Count(prices, a) <= Count(prices, b)
  {
    if prices != [] {
      CountMonotone(prices[1..], a, b);
    }
  }

  lemma {:induction false} InsertCounts(x: real, sorted: seq<real>, counts: real -> bool)
    ensures Count(Insert(x, sorted), counts) == Count(sorted, counts) + (if counts(x) then 1 else 0)
  {
    if sorted == [] || x <= sorted[0] {
      assert ([x] + sorted)[1..] == sorted;
    } else {
      InsertCounts(x, sorted[1..], counts);
      assert ([sorted[0]] + Insert(x, sorted[1..]))[1..] == Insert(x, sorted[1..]);
    }
  }

  lemma {:induction false} SortCounts(prices: seq<real>, counts: real -> bool)
    ensures Count(Sort(prices), counts) == Count(prices, counts)
  {
    if prices != [] {
      SortCounts(prices[1..], counts);
      InsertCounts(prices[0], Sort(prices[1..]), counts);
    }
  }

  lemma {:induction false} InsertOrders(x: real, sorted: seq<real>)
    requires Ascending(sorted)
    ensures Ascending(Insert(x, sorted)) && |Insert(x, sorted)| == |sorted| + 1
    ensures forall y :: y in Insert(x, sorted) <==> y == x || y in sorted
  {
    if sorted != [] && x > sorted[0] {
      InsertOrders(x, sorted[1..]);
      assert sorted == [sorted[0]] + sorted[1..];
      var rest := Insert(x, sorted[1..]);
      forall i | 0 <= i < |rest|
        ensures sorted[0] <= rest[i]
      {
        assert rest[i] in rest;
      }
      FirstIsLeast(sorted[0], rest);
    }
  }

  lemma FirstIsLeast(first: real, rest: seq<real>)
    requires Ascending(rest) && forall i :: 0 <= i < |rest| ==> first <= rest[i]
    ensures Ascending([first] + rest)
  {
  }

  lemma {:induction false} SortOrders(prices: seq<real>)
    ensures Ascending(Sort(prices)) && |Sort(prices)| == |prices|
    ensures forall y :: y in Sort(prices) <==> y in prices
  {
    if prices != [] {
      SortOrders(prices[1..]);
      InsertOrders(prices[0], Sort(prices[1..]));
      assert prices == [prices[0]] + prices[1..];
    }
  }

  /** The upper median, without sorting: at most half of the prices lie below it, more than half
      do not lie above it. */
  ghost predicate IsUpperMedian(p: real, prices: seq<real>) {
    p in prices && Count(prices, Below(p)) <= |prices| / 2 < Count(prices, AtMost(p))
  }

  lemma NoMoreBelow(sorted: seq<real>, m: nat)
    requires Ascending(sorted) && m < |sorted|
    ensures Count(sorted, Below(sorted[m])) <= m
  {
    var p := sorted[m];
    assert sorted[..m] + sorted[m..] == sorted;
    CountAppends(sorted[..m], sorted[m..], Below(p));
    CountsNone(sorted[m..], Below(p));
    CountDisjoint(sorted[..m], Below(p), x => false);
  }

  lemma EnoughAtMost(sorted: seq<real>, m: nat)
    requires Ascending(sorted) && m < |sorted|
    ensures Count(sorted, AtMost(sorted[m])) > m
  {
    var p := sorted[m];
    assert sorted[..m + 1] + sorted[m + 1..] == sorted;
    CountAppends(sorted[..m + 1], sorted[m + 1..], AtMost(p));
    CountsAll(sorted[..m + 1], AtMost(p));
  }

  lemma MiddleIsMedian(sorted: seq<real>)
    requires Ascending(sorted) && sorted != []
    ensures IsUpperMedian(sorted[|sorted| / 2], sorted)
  {
    NoMoreBelow(sorted, |sorted| / 2);
    EnoughAtMost(sorted, |sorted| / 2);
  }

  lemma MediansAgree(p: real, q: real, prices: seq<real>)
    requires IsUpperMedian(p, prices) && IsUpperMedian(q, prices)
    ensures p <= q
  {
    if q < p {
      CountMonotone(prices, AtMost(q), Below(p));
    }
  }

  /** The price is the upper median of the accepted quotes, and an error only if there are none:
      whatever the order of the oracles. */
  lemma PriceIsUpperMedian(results: seq<Option<Quote>>, minConfidence: real, p: real)
    ensures GetPrice(results, minConfidence) == Some(p) <==> IsUpperMedian(p, Accepted(results, minConfidence))
    ensures GetPrice(results, minConfidence) == None <==> Accepted(results, minConfidence) == []
  {
    var prices := Accepted(results, minConfidence);
    SortOrders(prices);
    if prices != [] {
      var q := Sort(prices)[|prices| / 2];
      MiddleIsMedian(Sort(prices));
      SortCounts(prices, Below(q));
      SortCounts(prices, AtMost(q));
      assert IsUpperMedian(q, prices);
      if IsUpperMedian(p, prices) {
        MediansAgree(p, q, prices);
        MediansAgree(q, p, prices);
      }
    }
  }

  /** A majority of the accepted quotes decides: an interval that holds more than half of them
      holds the price, whatever the other oracles say. */
  lemma MajorityBoundsPrice(results: seq<Option<Quote>>, minConfidence: real, low: real, high: real)
    requires 2 * Count(Accepted(results, minConfidence), Between(low, high)) > |Accepted(results, minConfidence)|
    ensures GetPrice(results, minConfidence).Some?
    ensures low <= GetPrice(results, minConfidence).value <= high
    ensures GetPrice(results, minConfidence).value in Accepted(results, minConfidence)
  {
    var prices := Accepted(results, minConfidence);
    PriceIsUpperMedian(results, minConfidence, 0.0);
    var p := GetPrice(results, minConfidence).value;
    PriceIsUpperMedian(results, minConfidence, p);
    if p > high {
      CountMonotone(prices, Between(low, high), Below(p));
    } else if p < low {
      CountDisjoint(prices, Between(low, high), AtMost(p));
    }
  }

  lemma {:induction false} AcceptedAppends(results: seq<Option<Quote>>, copies: nat, quote: Quote, minConfidence: real)
    requires quote.confidence >= minConfidence && quote.price > 0.0
    ensures Accepted(results + seq(copies, _ => Some(quote)), minConfidence)
         == Accepted(results, minConfidence) + seq(copies, _ => quote.price)
  {
    var more := seq(copies, _ => Some(quote));
    if copies == 0 {
      assert results + more == results;
    } else {
      AcceptedAppends(results, copies - 1, quote, minConfidence);
      assert (results + more)[..|results + more| - 1] == results + seq(copies - 1, _ => Some(quote));
    }
  }

  /** Half is not enough: as many confident quotes again, all at one higher price, set the price. */
  lemma HalfDoesNotBoundPrice(results: seq<Option<Quote>>, minConfidence: real, high: real, quote: Quote, copies: nat)
    requires forall i :: 0 <= i < |Accepted(results, minConfidence)| ==> Accepted(results, minConfidence)[i] <= high
    requires quote.confidence >= minConfidence && quote.price > high && quote.price > 0.0
    requires copies >= |Accepted(results, minConfidence)| && copies > 0
    ensures GetPrice(results + seq(copies, _ => Some(quote)), minConfidence) == Some(quote.price)
  {
    var before := Accepted(results, minConfidence);
    var more := seq(copies, _ => quote.price);
    var p := quote.price;
    AcceptedAppends(results, copies, quote, minConfidence);
    CountAppends(before, more, Below(p));
    CountAppends(before, more, AtMost(p));
    CountsAll(before, Below(p));
    CountsNone(more, Below(p));
    CountsAll(before, AtMost(p));
    CountsAll(more, AtMost(p));
    assert (before + more)[|before|] == p;
    assert IsUpperMedian(p, before + more);
    PriceIsUpperMedian(results + seq(copies, _ => Some(quote)), minConfidence, p);
  }
}
