/** The basic risk scorer and its cache: a hit answers for the screening that filled it. */
module RiskScorers {
  import opened AddressKeys
  import opened IdempotencyKeys
  import opened Rounding

  datatype Flag = SANCTIONED | NEW_ADDRESS | MIXER | DARKNET
  datatype Level = LOW | MEDIUM | HIGH | CRITICAL
  datatype FactorType = SANCTIONS | WALLET_AGE | TX_COUNT | VOLUME
  datatype Factor = Factor(kind: FactorType, score: int, weight: real)

  datatype Config = Config(walletAgeWeight: real, txCountWeight: real, volumeWeight: real, sanctionsWeight: real,
                           highThreshold: real, criticalThreshold: real, ttlSeconds: int)

  const DEFAULT := Config(0.2, 0.2, 0.2, 0.4, 60.0, 80.0, 3600)

  predicate NonNegative(c: Config) {
    c.walletAgeWeight >= 0.0 && c.txCountWeight >= 0.0 && c.volumeWeight >= 0.0 && c.sanctionsWeight >= 0.0
  }

  /** What the sanctions provider answers; a failing provider counts as no match. */
  datatype Listing = NoProvider | Listed | NotListed | Unavailable

  datatype RiskResult = RiskResult(score: real, level: Level, flags: seq<Flag>)

  // The hash behind the estimates, in 32-bit arithmetic.

  function Wrap32(x: int): int {
    (x + 0x8000_0000) % 0x1_0000_0000 - 0x8000_0000
  }

  /** A character as UTF-16 code units: one, or a surrogate pair. */
  function CodeUnits(c: char): seq<nat> {
    var point := c as int;
    if point < 0x1_0000 then [point]
    else [0xD800 + (point - 0x1_0000) / 0x400, 0xDC00 + (point - 0x1_0000) % 0x400]
  }

  function Units(s: string): seq<nat> {
    if s == "" then [] else Units(s[..|s| - 1]) + CodeUnits(s[|s| - 1])
  }

  /** The hash in unbounded arithmetic: the code units as digits to base 31. */
  function Base31(units: seq<nat>): nat {
    if units == [] then 0 else 31 * Base31(units[..|units| - 1]) + units[|units| - 1]
  }

  function Hash(s: string): nat {
    var signed := Wrap32(Base31(Units(s)));
    if signed < 0 then -signed else signed
  }

  lemma WrapsOnceOrTwice(h: int, c: int)
    ensures Wrap32(Wrap32(Wrap32(h) * 32) - Wrap32(h) + c) == Wrap32(31 * h + c)
  {
    var m := 0x1_0000_0000;
    var q := (h + 0x8000_0000) / m;
    var low := Wrap32(h);
    assert h == low + m * q;
    var p := (low * 32 + 0x8000_0000) / m;
    assert low * 32 == Wrap32(low * 32) + m * p;
    var k := p + 31 * q;
    assert 31 * h + c == Wrap32(low * 32) - low + c + m * k;
    SameWrap(Wrap32(low * 32) - low + c, k);
  }

  lemma SameWrap(x: int, k: int)
    ensures Wrap32(x + 0x1_0000_0000 * k) == Wrap32(x)
  {
  }

  /** Wrapping at every character is wrapping once at the end. */
  method SimpleHash(s: string) returns (h: nat)
    ensures h == Hash(s)
  {
    var units := Units(s);
    var hash := 0;
    for i := 0 to |units|
      invariant hash == Wrap32(Base31(units[..i]))
    {
      WrapsOnceOrTwice(Base31(units[..i]), units[i]);
      assert units[..i + 1][..i] == units[..i];
      hash := Wrap32(Wrap32(hash * 32) - hash + units[i]);
    }
    assert units[..|units|] == units;
    h := if hash < 0 then -hash else hash;
  }

  function WalletAgeScore(address: string): (score: int) ensures 20 <= score <= 79 { Hash(address) % 60 + 20 }
  function TxCountScore(address: string): (score: int) ensures 10 <= score <= 79 { Hash(address + ":txcount") % 70 + 10 }
  function VolumeScore(address: string): (score: int) ensures 20 <= score <= 79 { Hash(address + ":volume") % 60 + 20 }

  function Factors(c: Config, address: string, listing: Listing): seq<Factor> {
    Weighted(c, WalletAgeScore(address), TxCountScore(address), VolumeScore(address), listing)
  }

  function Weighted(c: Config, age: int, count: int, volume: int, listing: Listing): seq<Factor> {
    (if listing.NoProvider? then [] else [Factor(SANCTIONS, if listing.Listed? then 100 else 0, c.sanctionsWeight)])
    + [Factor(WALLET_AGE, age, c.walletAgeWeight), Factor(TX_COUNT, count, c.txCountWeight), Factor(VOLUME, volume, c.volumeWeight)]
  }

  function TotalWeight(factors: seq<Factor>): real {
    if factors == [] then 0.0 else TotalWeight(factors[..|factors| - 1]) + factors[|factors| - 1].weight
  }

  function WeightedSum(factors: seq<Factor>): real {
    if factors == [] then 0.0
    else WeightedSum(factors[..|factors| - 1]) + factors[|factors| - 1].score as real * factors[|factors| - 1].weight
  }

  /** The weighted average to two decimals; no weight at all scores 0. */
  function TotalScore(factors: seq<Factor>): real {
    Average(WeightedSum(factors), TotalWeight(factors))
  }

  function Average(weightedSum: real, totalWeight: real): real {
    if totalWeight == 0.0 then 0.0 else RoundHalfUp(weightedSum / totalWeight * 100.0) as real / 100.0
  }

  /** Under non-negative weights an average stays within the bound of its scores. */
  lemma {:induction false} AverageWithin(factors: seq<Factor>, high: nat)
    requires forall k :: 0 <= k < |factors| ==> factors[k].weight >= 0.0 && 0 <= factors[k].score <= high
    ensures TotalWeight(factors) >= 0.0 && 0.0 <= WeightedSum(factors) <= high as real * TotalWeight(factors)
  {
    if factors != [] {
      var before, last := factors[..|factors| - 1], factors[|factors| - 1];
      AverageWithin(before, high);
      OneMoreWithin(WeightedSum(before), TotalWeight(before), last.score as real, high as real, last.weight);
      assert WeightedSum(factors) == WeightedSum(before) + last.score as real * last.weight;
      assert TotalWeight(factors) == TotalWeight(before) + last.weight;
    }
  }

  lemma OneMoreWithin(sum: real, total: real, score: real, high: real, weight: real)
    requires 0.0 <= sum <= high * total && 0.0 <= score <= high && weight >= 0.0
    ensures 0.0 <= sum + score * weight <= high * (total + weight)
  {
    Scales(score, high, weight);
    assert high * (total + weight) == high * total + high * weight;
  }

  lemma Scales(x: real, y: real, weight: real)
    requires 0.0 <= x <= y && weight >= 0.0
    ensures 0.0 <= x * weight <= y * weight
  {
  }

  lemma Divides(sum: real, weight: real, high: real)
    requires weight > 0.0 && 0.0 <= sum <= high * weight
    ensures 0.0 <= sum / weight <= high
  {
    var share := sum / weight;
    assert share * weight == sum;
    KeepsOrder(0.0, share, weight);
    KeepsOrder(share, high, weight);
  }

  lemma KeepsOrder(x: real, y: real, weight: real)
    requires weight > 0.0
    ensures x * weight <= y * weight <==> x <= y
  {
  }

  lemma TotalScoreWithin(factors: seq<Factor>, high: nat)
    requires forall k :: 0 <= k < |factors| ==> factors[k].weight >= 0.0 && 0 <= factors[k].score <= high
    ensures 0.0 <= TotalScore(factors) <= high as real
  {
    AverageWithin(factors, high);
    if TotalWeight(factors) > 0.0 {
      Divides(WeightedSum(factors), TotalWeight(factors), high as real);
      RoundHalfUpStaysWithin(WeightedSum(factors) / TotalWeight(factors) * 100.0, 0, high * 100);
    }
  }

  function FlagOf(factor: Factor): seq<Flag> {
    if factor.score >= 80 && factor.kind == SANCTIONS then [SANCTIONED]
    else if factor.score >= 80 && factor.kind == WALLET_AGE then [NEW_ADDRESS]
    else []
  }

  function FlagsOf(factors: seq<Factor>): seq<Flag> {
    if factors == [] then [] else FlagsOf(factors[..|factors| - 1]) + FlagOf(factors[|factors| - 1])
  }

  function LevelOf(c: Config, score: real): Level {
    if score >= c.criticalThreshold then CRITICAL
    else if score >= c.highThreshold then HIGH
    else if score >= 30.0 then MEDIUM
    else LOW
  }

  /** A sanctions match overrides the average. */
  function FreshScore(c: Config, address: string, listing: Listing): real {
    if listing.Listed? then 100.0 else TotalScore(Factors(c, address, listing))
  }

  function Fresh(c: Config, address: string, listing: Listing): RiskResult {
    RiskResult(FreshScore(c, address, listing), LevelOf(c, FreshScore(c, address, listing)),
               FlagsOf(Factors(c, address, listing)))
  }

  /** A cached result guesses the flags from the score. */
  function Cached(c: Config, score: real): RiskResult {
    RiskResult(score, LevelOf(c, score),
               if score >= 80.0 then [SANCTIONED] else if score >= 60.0 then [NEW_ADDRESS] else [])
  }

  lemma UnlistedScoreWithin(c: Config, address: string, listing: Listing)
    requires NonNegative(c) && !listing.Listed?
    ensures 0.0 <= FreshScore(c, address, listing) <= 79.0
  {
    TotalScoreWithin(Factors(c, address, listing), 79);
  }

  /** A fresh result is flagged for a listing and for nothing else. */
  lemma FreshFlags(c: Config, address: string, listing: Listing)
    ensures Fresh(c, address, listing).flags == if listing.Listed? then [SANCTIONED] else []
  {
    var listed := if listing.NoProvider? then [] else [Factor(SANCTIONS, if listing.Listed? then 100 else 0, c.sanctionsWeight)];
    var age := Factor(WALLET_AGE, WalletAgeScore(address), c.walletAgeWeight);
    var count := Factor(TX_COUNT, TxCountScore(address), c.txCountWeight);
    var volume := Factor(VOLUME, VolumeScore(address), c.volumeWeight);
    assert Factors(c, address, listing) == listed + [age] + [count] + [volume];
    FlagsAppend(listed + [age] + [count], volume);
    FlagsAppend(listed + [age], count);
    FlagsAppend(listed, age);
    if listed != [] {
      FlagsAppend([], listed[0]);
      assert [] + [listed[0]] == listed;
    }
  }

  lemma FlagsAppend(factors: seq<Factor>, factor: Factor)
    ensures FlagsOf(factors + [factor]) == FlagsOf(factors) + FlagOf(factor)
  {
    assert (factors + [factor])[..|factors|] == factors;
  }

  /** A cached result is flagged SANCTIONED exactly when the screening behind it was, unless an
      unlisted address could average 80; it is never so under non-negative weights. */
  lemma CachedSanctioned(c: Config, address: string, listing: Listing)
    ensures var screened := Fresh(c, address, listing);
            (SANCTIONED in Cached(c, screened.score).flags <==> SANCTIONED in screened.flags)
            <==> listing.Listed? || screened.score < 80.0
    ensures NonNegative(c) ==> listing.Listed? || Fresh(c, address, listing).score < 80.0
  {
    FreshFlags(c, address, listing);
    if NonNegative(c) && !listing.Listed? {
      UnlistedScoreWithin(c, address, listing);
    }
  }

  /** With weight on the wallet's age and the sanctions factor alone, the age is what scores. */
  lemma AgeAloneCounts(c: Config, address: string)
    requires c.txCountWeight == 0.0 && c.volumeWeight == 0.0
    ensures WeightedSum(Factors(c, address, NotListed)) == WalletAgeScore(address) as real * c.walletAgeWeight
    ensures TotalWeight(Factors(c, address, NotListed)) == c.walletAgeWeight + c.sanctionsWeight
  {
    var listed := Factor(SANCTIONS, 0, c.sanctionsWeight);
    var age := Factor(WALLET_AGE, WalletAgeScore(address), c.walletAgeWeight);
    var count := Factor(TX_COUNT, TxCountScore(address), 0.0);
    var volume := Factor(VOLUME, VolumeScore(address), 0.0);
    SecondFactorAlone(listed, age, count, volume);
    assert Factors(c, address, NotListed) == [listed, age, count, volume];
  }

  lemma SecondFactorAlone(a: Factor, b: Factor, c: Factor, d: Factor)
    requires a.score == 0 && c.weight == d.weight == 0.0
    ensures TotalWeight([a, b, c, d]) == b.weight + a.weight
    ensures WeightedSum([a, b, c, d]) == b.score as real * b.weight
  {
    assert [a, b, c, d] == [] + [a] + [b] + [c] + [d];
    SumsAppend([] + [a] + [b] + [c], d);
    SumsAppend([] + [a] + [b], c);
    SumsAppend([] + [a], b);
    SumsAppend([], a);
  }

  lemma SumsAppend(factors: seq<Factor>, factor: Factor)
    ensures TotalWeight(factors + [factor]) == TotalWeight(factors) + factor.weight
    ensures factor.weight == 0.0 || factor.score == 0 ==> WeightedSum(factors + [factor]) == WeightedSum(factors)
    ensures WeightedSum(factors + [factor]) == WeightedSum(factors) + factor.score as real * factor.weight
  {
    assert (factors + [factor])[..|factors|] == factors;
  }

  lemma OneUnit(s: string)
    requires |s| == 1 && s[0] as int < 0x1_0000
    ensures Units(s) == [s[0] as int]
  {
    assert Units(s[..0]) == [];
  }

  lemma OneDigit(unit: nat)
    ensures Base31([unit]) == unit
  {
    assert [unit][..0] == [];
  }

  lemma SmallWrap(x: nat)
    requires x < 0x8000_0000
    ensures Wrap32(x) == x
  {
  }

  lemma OneLetter(s: string)
    requires |s| == 1 && s[0] as int < 0x1_0000
    ensures Hash(s) == s[0] as int
  {
    OneUnit(s);
    OneDigit(s[0] as int);
    SmallWrap(s[0] as int);
  }

  /** Wrapping gives the representative modulo 2^32 that a signed 32-bit integer holds. */
  lemma WrapInFull(x: int)
    ensures -0x8000_0000 <= Wrap32(x) < 0x8000_0000 && (x - Wrap32(x)) % 0x1_0000_0000 == 0
  {
  }

  function Pow31(n: nat): nat {
    if n == 0 then 1 else 31 * Pow31(n - 1)
  }

  /** In front of a string a code unit weighs 31 to the number of units behind it. */
  lemma {:induction false} FirstUnitWeighs(first: nat, rest: seq<nat>)
    ensures Base31([first] + rest) == first * Pow31(|rest|) + Base31(rest)
  {
    var all := [first] + rest;
    if rest == [] {
      assert all == [first];
      OneDigit(first);
    } else {
      var last := |rest| - 1;
      FirstUnitWeighs(first, rest[..last]);
      assert all[..|all| - 1] == [first] + rest[..last];
      Regroup31(first, Pow31(last), Base31(rest[..last]));
    }
  }

  lemma Regroup31(a: nat, p: nat, b: nat)
    ensures 31 * (a * p + b) == a * (31 * p) + 31 * b
  {
  }

  /** Each estimate is the remainder of its own hash of the address, moved into its own range. */
  lemma EstimatesInFull(address: string)
    ensures var h := Hash(address); h == 60 * (h / 60) + (WalletAgeScore(address) - 20) && 20 <= WalletAgeScore(address) < 80
    ensures var h := Hash(address + ":txcount"); h == 70 * (h / 70) + (TxCountScore(address) - 10) && 10 <= TxCountScore(address) < 80
    ensures var h := Hash(address + ":volume"); h == 60 * (h / 60) + (VolumeScore(address) - 20) && 20 <= VolumeScore(address) < 80
  {
    Folds(Hash(address), Hash(address + ":txcount"), Hash(address + ":volume"));
  }

  lemma Folds(age: nat, count: nat, volume: nat)
    ensures age == 60 * (age / 60) + age % 60 && count == 70 * (count / 70) + count % 70
         && volume == 60 * (volume / 60) + volume % 60
  {
  }

  lemma ThreeSums(a: Factor, b: Factor, d: Factor)
    ensures TotalWeight([a, b, d]) == a.weight + b.weight + d.weight
    ensures WeightedSum([a, b, d]) == a.score as real * a.weight + b.score as real * b.weight + d.score as real * d.weight
  {
    assert [a, b, d] == [] + [a] + [b] + [d];
    SumsAppend([] + [a] + [b], d);
    SumsAppend([] + [a], b);
    SumsAppend([], a);
  }

  /** What an unlisted address is averaged over: its estimates with their weights, and a sanctions
      factor of 0 unless there is no provider. */
  lemma FactorsInFull(c: Config, age: int, count: int, volume: int, listing: Listing)
    requires !listing.Listed?
    ensures var factors := Weighted(c, age, count, volume, listing);
            && TotalWeight(factors) == c.walletAgeWeight + c.txCountWeight + c.volumeWeight
                                       + (if listing.NoProvider? then 0.0 else c.sanctionsWeight)
            && WeightedSum(factors) == age as real * c.walletAgeWeight + count as real * c.txCountWeight + volume as real * c.volumeWeight
  {
    var a, b, d := Factor(WALLET_AGE, age, c.walletAgeWeight), Factor(TX_COUNT, count, c.txCountWeight), Factor(VOLUME, volume, c.volumeWeight);
    var listed := Factor(SANCTIONS, 0, c.sanctionsWeight);
    ThreeSums(a, b, d);
    FourSums(listed, a, b, d);
    assert Weighted(c, age, count, volume, listing) == if listing.NoProvider? then [a, b, d] else [listed, a, b, d];
  }

  lemma FourSums(a: Factor, b: Factor, d: Factor, e: Factor)
    requires a.score == 0
    ensures TotalWeight([a, b, d, e]) == b.weight + d.weight + e.weight + a.weight
    ensures WeightedSum([a, b, d, e]) == b.score as real * b.weight + d.score as real * d.weight + e.score as real * e.weight
  {
    assert [a, b, d, e] == [] + [a] + [b] + [d] + [e];
    SumsAppend([] + [a] + [b] + [d], e);
    SumsAppend([] + [a] + [b], d);
    SumsAppend([] + [a], b);
    SumsAppend([], a);
  }

  /** A listing scores 100; any other score is the average of the three estimates, each under its own
      weight, with the sanctions weight in the denominator if there is a provider. */
  lemma ScoreIsAverage(c: Config, address: string, listing: Listing)
    ensures FreshScore(c, address, listing)
         == if listing.Listed? then 100.0
            else Average(WalletAgeScore(address) as real * c.walletAgeWeight + TxCountScore(address) as real * c.txCountWeight
                         + VolumeScore(address) as real * c.volumeWeight,
                         c.walletAgeWeight + c.txCountWeight + c.volumeWeight + (if listing.NoProvider? then 0.0 else c.sanctionsWeight))
  {
    AverageOfWeighted(c, WalletAgeScore(address), TxCountScore(address), VolumeScore(address), listing);
  }

  lemma AverageOfWeighted(c: Config, age: int, count: int, volume: int, listing: Listing)
    ensures !listing.Listed? ==>
              TotalScore(Weighted(c, age, count, volume, listing))
              == Average(age as real * c.walletAgeWeight + count as real * c.txCountWeight + volume as real * c.volumeWeight,
                         c.walletAgeWeight + c.txCountWeight + c.volumeWeight + (if listing.NoProvider? then 0.0 else c.sanctionsWeight))
  {
    if !listing.Listed? {
      FactorsInFull(c, age, count, volume, listing);
    }
  }

  /** The score is the weighted average to within half a hundredth, and in whole hundredths; a
      listing scores 100. */
  lemma ScoreInNumbers(sum: real, weight: real)
    requires weight != 0.0
    ensures Average(sum, 0.0) == 0.0
    ensures -0.005 <= Average(sum, weight) - sum / weight <= 0.005
    ensures (Average(sum, weight) * 100.0).Floor as real == Average(sum, weight) * 100.0
  {
    var exact := sum / weight * 100.0;
    RoundHalfUpIsClose(exact);
    assert Average(sum, weight) * 100.0 == RoundHalfUp(exact) as real;
  }

  /** Levels by thresholds, and the flags a cached score stands for. */
  lemma LevelInNumbers(c: Config, score: real)
    ensures LevelOf(c, score) == CRITICAL <==> score >= c.criticalThreshold
    ensures LevelOf(c, score) == HIGH <==> c.highThreshold <= score < c.criticalThreshold
    ensures LevelOf(c, score) == MEDIUM <==> 30.0 <= score && score < c.highThreshold && score < c.criticalThreshold
    ensures Cached(c, score).score == score && Cached(c, score).level == LevelOf(c, score)
    ensures SANCTIONED in Cached(c, score).flags <==> score >= 80.0
    ensures NEW_ADDRESS in Cached(c, score).flags <==> 60.0 <= score < 80.0
    ensures MIXER !in Cached(c, score).flags && DARKNET !in Cached(c, score).flags
  {
  }

  // The cache.

  datatype CacheEntry = CacheEntry(score: real, expiresAt: int)

  /** One full screening: of whom, what the provider said, and when. */
  datatype Screening = Screening(address: string, chain: string, listing: Listing, at: int)

  class BasicRiskScorer {
    const config: Config
    var cache: map<string, CacheEntry>
    /** The screening behind each entry. */
    ghost var origin: map<string, Screening>

    ghost predicate Valid() reads this {
      && cache.Keys == origin.Keys
      && forall key :: key in cache ==> BackedBy(key, cache[key], origin[key])
    }

    ghost predicate BackedBy(key: string, entry: CacheEntry, s: Screening) {
      && key == AddressKey(s.address, s.chain)
      && entry == CacheEntry(FreshScore(config, s.address, s.listing), s.at + config.ttlSeconds * 1000)
    }

    constructor (config: Config)
      ensures Valid() && this.config == config && cache == map[]
    {
      this.config, cache, origin := config, map[], map[];
    }

    method CalculateTotalScore(factors: seq<Factor>) returns (score: real)
      ensures score == TotalScore(factors)
    {
      var totalWeight, weightedSum := 0.0, 0.0;
      for i := 0 to |factors|
        invariant totalWeight == TotalWeight(factors[..i]) && weightedSum == WeightedSum(factors[..i])
      {
        assert factors[..i + 1][..i] == factors[..i];
        totalWeight := totalWeight + factors[i].weight;
        weightedSum := weightedSum + factors[i].score as real * factors[i].weight;
      }
      assert factors[..|factors|] == factors;
      score := Average(weightedSum, totalWeight);
    }

    method ExtractFlags(factors: seq<Factor>) returns (flags: seq<Flag>)
      ensures flags == FlagsOf(factors)
    {
      flags := [];
      for i := 0 to |factors|
        invariant flags == FlagsOf(factors[..i])
      {
        assert factors[..i + 1][..i] == factors[..i];
        flags := flags + FlagOf(factors[i]);
      }
      assert factors[..|factors|] == factors;
    }

    /** A full screening. */
    method Screen(address: string, listing: Listing) returns (r: RiskResult)
      ensures r == Fresh(config, address, listing)
    {
      var factors := Factors(config, address, listing);
      var flags := ExtractFlags(factors);
      var score := CalculateTotalScore(factors);
      if listing.Listed? {
        score := 100.0;
      }
      r := RiskResult(score, LevelOf(config, score), flags);
    }

    /** Asked at `now`, answered at `done`; on a miss the provider is consulted. */
    method ScreenAddress(address: string, chain: string, listing: Listing, now: int, done: int) returns (r: RiskResult)
      requires Valid() && now <= done
      modifies this
      ensures Valid()
      ensures var key := AddressKey(address, chain);
              if key in old(cache) && old(cache)[key].expiresAt > now then
                && cache == old(cache) && origin == old(origin)
                && r == Cached(config, FreshScore(config, origin[key].address, origin[key].listing))
              else
                && r == Fresh(config, address, listing)
                && origin == old(origin)[key := Screening(address, chain, listing, done)]
                && cache == old(cache)[key := CacheEntry(r.score, done + 1000 * config.ttlSeconds)]
      ensures origin[AddressKey(address, chain)].at + config.ttlSeconds * 1000 > now || config.ttlSeconds <= 0
    {
      var key := AddressKey(address, chain);
      if key in cache && cache[key].expiresAt > now {
        assert BackedBy(key, cache[key], origin[key]);
        return Cached(config, cache[key].score);
      }
      r := Screen(address, listing);
      Remember(address, chain, listing, r.score, done);
    }

    method Remember(address: string, chain: string, listing: Listing, score: real, done: int)
      requires Valid() && score == FreshScore(config, address, listing)
      modifies this
      ensures Valid()
      ensures cache == old(cache)[AddressKey(address, chain) := CacheEntry(score, done + 1000 * config.ttlSeconds)]
      ensures origin == old(origin)[AddressKey(address, chain) := Screening(address, chain, listing, done)]
    {
      var key := AddressKey(address, chain);
      cache := cache[key := CacheEntry(score, done + config.ttlSeconds * 1000)];
      origin := origin[key := Screening(address, chain, listing, done)];
      assert BackedBy(key, cache[key], origin[key]);
    }

    /** The look-up by address alone asks for a chain called "cached": it finds nothing. */
    method GetRiskScore(address: string, now: int) returns (score: real)
      requires Valid()
      ensures (forall key :: key in origin ==> ColonFree(origin[key].chain) && origin[key].chain != "cached") ==> score == 0.0
    {
      var key := AddressKey(address, "cached");
      if key in cache && cache[key].expiresAt > now {
        assert BackedBy(key, cache[key], origin[key]);
        if ColonFree(origin[key].chain) {
          AddressKeyIdentifies(address, "cached", origin[key].address, origin[key].chain);
        }
        return cache[key].score;
      }
      return 0.0;
    }
  }
}
