/** The compliance gate: what it decides, and that a cached risk result decides alike. */
module ComplianceGates {
  import opened AddressKeys
  import opened IdempotencyKeys
  import opened Rounding
  import opened RiskScorers

  /** The source's reasons, with the score or amount each one quotes. */
  datatype Decision =
    | Allowed
    | ManuallyBlocked
    | ChainNotSupported
    | OnSanctionsList
    | CriticalRisk(score: real)
    | HighRiskLargeAmount(amount: real)
    | MixerOrDarknet

  function DecideAddress(r: RiskResult, amount: real): Decision {
    if SANCTIONED in r.flags then OnSanctionsList
    else if r.level == CRITICAL then CriticalRisk(r.score)
    else if r.level == HIGH && amount > 50000.0 then HighRiskLargeAmount(amount)
    else Allowed
  }

  /** Large amounts add 10, round thousands 5. */
  function TransactionRisk(amount: real): real {
    (if amount > 100000.0 then 10.0 else 0.0)
    + if amount > 0.0 && (amount / 1000.0).Floor as real * 1000.0 == amount then 5.0 else 0.0
  }

  function Adjusted(c: Config, r: RiskResult, amount: real): RiskResult {
    var sum := r.score + TransactionRisk(amount);
    var score := if sum < 100.0 then sum else 100.0;
    r.(score := score, level := LevelOf(c, score))
  }

  function DecideTransaction(c: Config, r: RiskResult, amount: real): Decision {
    var adjusted := Adjusted(c, r, amount);
    if adjusted.level == CRITICAL then CriticalRisk(adjusted.score)
    else if SANCTIONED in adjusted.flags then OnSanctionsList
    else if MIXER in adjusted.flags || DARKNET in adjusted.flags then MixerOrDarknet
    else Allowed
  }

  /** A positive whole number of thousands. */
  ghost predicate RoundThousands(amount: real) {
    exists n :: n > 0 && amount == Thousands(n)
  }

  function Thousands(n: int): real {
    1000.0 * n as real
  }

  lemma RoundAmounts(amount: real)
    ensures amount > 0.0 && (amount / 1000.0).Floor as real * 1000.0 == amount <==> RoundThousands(amount)
  {
    if n :| n > 0 && amount == Thousands(n) {
      assert amount / 1000.0 == n as real;
    }
    if amount > 0.0 && (amount / 1000.0).Floor as real * 1000.0 == amount {
      var n := (amount / 1000.0).Floor;
      assert amount == Thousands(n);
    }
  }

  /** The decision on a transaction, in numbers: its source's score, 10 more above 100000, 5 more for
      round thousands, 100 at most, is critical from the threshold on and quoted so; below it only
      the flags refuse. */
  lemma TransactionInNumbers(c: Config, r: RiskResult, amount: real)
    ensures
      var raised := r.score + (if amount > 100000.0 then 10.0 else 0.0) + (if RoundThousands(amount) then 5.0 else 0.0);
      var score := if raised <= 100.0 then raised else 100.0;
      DecideTransaction(c, r, amount)
      == if score >= c.criticalThreshold then CriticalRisk(score)
         else if SANCTIONED in r.flags then OnSanctionsList
         else if MIXER in r.flags || DARKNET in r.flags then MixerOrDarknet
         else Allowed
  {
    RoundAmounts(amount);
  }

  /** The decision on an address, in numbers: a listing first, then a score at the critical
      threshold, then one at the high threshold for more than 50000. */
  lemma AddressInNumbers(c: Config, r: RiskResult, amount: real)
    requires r.level == LevelOf(c, r.score)
    ensures DecideAddress(r, amount)
         == if SANCTIONED in r.flags then OnSanctionsList
            else if r.score >= c.criticalThreshold then CriticalRisk(r.score)
            else if r.score >= c.highThreshold && amount > 50000.0 then HighRiskLargeAmount(amount)
            else Allowed
  {
  }

  /** A result as a full screening gives it: flagged for a listing, which scores 100. */
  predicate Screened(c: Config, r: RiskResult, listed: bool) {
    && r.level == LevelOf(c, r.score) && r.flags == (if listed then [SANCTIONED] else [])
    && (listed ==> r.score == 100.0)
  }

  lemma FreshIsScreened(c: Config, address: string, listing: Listing)
    ensures Screened(c, Fresh(c, address, listing), listing.Listed?)
  {
    FreshFlags(c, address, listing);
  }

  lemma GuessedFlags(c: Config, r: RiskResult, listed: bool, amount: real)
    requires Screened(c, r, listed)
    ensures DecideAddress(Cached(c, r.score), amount) == DecideAddress(r, amount) <==> listed || r.score < 80.0
    ensures DecideTransaction(c, Cached(c, r.score), amount) == DecideTransaction(c, r, amount)
       <==> listed || r.score < 80.0 || Adjusted(c, r, amount).level == CRITICAL
  {
    assert Adjusted(c, Cached(c, r.score), amount).score == Adjusted(c, r, amount).score;
  }

  /** A cache hit decides like the screening behind it, for every address, amount and threshold,
      exactly unless the address was not listed and still averaged 80. */
  lemma CachedDecidesAlike(c: Config, address: string, listing: Listing, amount: real)
    ensures
      var screened := Fresh(c, address, listing);
      DecideAddress(Cached(c, screened.score), amount) == DecideAddress(screened, amount)
      <==> listing.Listed? || screened.score < 80.0
  {
    FreshIsScreened(c, address, listing);
    GuessedFlags(c, Fresh(c, address, listing), listing.Listed?, amount);
  }

  /** For transactions the flag only matters below the critical level. */
  lemma CachedDecidesTransactionsAlike(c: Config, address: string, listing: Listing, amount: real)
    ensures
      var screened := Fresh(c, address, listing);
      DecideTransaction(c, Cached(c, screened.score), amount) == DecideTransaction(c, screened, amount)
      <==> listing.Listed? || screened.score < 80.0 || Adjusted(c, screened, amount).level == CRITICAL
  {
    FreshIsScreened(c, address, listing);
    GuessedFlags(c, Fresh(c, address, listing), listing.Listed?, amount);
  }

  /** With non-negative weights the decision does not depend on a cache hit. */
  lemma DecisionIgnoresCache(c: Config, address: string, listing: Listing, amount: real)
    requires NonNegative(c)
    ensures
      var screened := Fresh(c, address, listing);
      && DecideAddress(Cached(c, screened.score), amount) == DecideAddress(screened, amount)
      && DecideTransaction(c, Cached(c, screened.score), amount) == DecideTransaction(c, screened, amount)
  {
    CachedSanctioned(c, address, listing);
    CachedDecidesAlike(c, address, listing, amount);
    CachedDecidesTransactionsAlike(c, address, listing, amount);
  }

  /** A negative weight can make a cache hit refuse as sanctioned what a fresh screening allows. */
  lemma NegativeWeightMisleads(c: Config, s: string)
    requires c == Config(4.0, 0.0, 0.0, -0.9, 85.0, 90.0, 3600) && |s| == 1 && s[0] == 'f'
    ensures
      var screened := Fresh(c, s, NotListed);
      && DecideAddress(screened, 1.0) == Allowed
      && DecideAddress(Cached(c, screened.score), 1.0) == OnSanctionsList
  {
    ScoresEighty(c, s);
    FreshFlags(c, s, NotListed);
  }

  lemma ScoresEighty(c: Config, s: string)
    requires c.walletAgeWeight == 4.0 && c.txCountWeight == c.volumeWeight == 0.0 && c.sanctionsWeight == -0.9
    requires |s| == 1 && s[0] == 'f'
    ensures FreshScore(c, s, NotListed) == 80.0
  {
    OneLetter(s);
    assert WalletAgeScore(s) == 62;
    AgeAloneCounts(c, s);
    AverageOfEighty();
  }

  lemma AverageOfEighty()
    ensures Average(62.0 * 4.0, 4.0 + -0.9) == 80.0
  {
    assert RoundHalfUp(8000.0) == 8000;
  }

  class ComplianceGate {
    const riskScorer: BasicRiskScorer
    var blockedAddresses: set<string>
    var blockedChains: set<string>

    constructor (riskScorer: BasicRiskScorer)
      ensures this.riskScorer == riskScorer && blockedAddresses == {} && blockedChains == {}
    {
      this.riskScorer := riskScorer;
      blockedAddresses, blockedChains := {}, {};
    }

    /** Manual blocks come first; otherwise the decision is that of a full screening: the one now
        on file for the address and chain, made now or less than its lifetime ago. */
    method CheckAddress(address: string, chain: string, amount: real, listing: Listing, now: int, done: int)
      returns (d: Decision)
      requires riskScorer.Valid() && now <= done
      modifies riskScorer
      ensures riskScorer.Valid()
      ensures d == ManuallyBlocked <==> Lower(address) in blockedAddresses
      ensures d == ChainNotSupported <==> Lower(address) !in blockedAddresses && chain in blockedChains
      ensures d in {ManuallyBlocked, ChainNotSupported} ==> riskScorer.origin == old(riskScorer.origin)
      ensures d !in {ManuallyBlocked, ChainNotSupported} ==>
                var key := AddressKey(address, chain);
                && key in riskScorer.origin
                && var s := riskScorer.origin[key];
                   && (NonNegative(riskScorer.config) ==>
                         d == DecideAddress(Fresh(riskScorer.config, s.address, s.listing), amount))
                   && (s == Screening(address, chain, listing, done)
                       || (key in old(riskScorer.origin) && s == old(riskScorer.origin)[key]
                           && now < s.at + riskScorer.config.ttlSeconds * 1000))
    {
      if Lower(address) in blockedAddresses {
        return ManuallyBlocked;
      }
      if chain in blockedChains {
        return ChainNotSupported;
      }
      var r := riskScorer.ScreenAddress(address, chain, listing, now, done);
      ghost var s := riskScorer.origin[AddressKey(address, chain)];
      if NonNegative(riskScorer.config) {
        DecisionIgnoresCache(riskScorer.config, s.address, s.listing, amount);
      }
      if SANCTIONED in r.flags {
        return OnSanctionsList;
      }
      if r.level == CRITICAL {
        return CriticalRisk(r.score);
      }
      if r.level == HIGH && amount > 50000.0 {
        return HighRiskLargeAmount(amount);
      }
      return Allowed;
    }

    /** Manual blocks are not consulted for transactions. */
    method CheckTransaction(from: string, chain: string, amount: real, listing: Listing, now: int, done: int)
      returns (d: Decision)
      requires riskScorer.Valid() && now <= done
      modifies riskScorer
      ensures riskScorer.Valid()
      ensures var key := AddressKey(from, chain);
              && key in riskScorer.origin
              && var s := riskScorer.origin[key];
                 && (NonNegative(riskScorer.config) ==>
                       d == DecideTransaction(riskScorer.config, Fresh(riskScorer.config, s.address, s.listing), amount))
                 && (s == Screening(from, chain, listing, done)
                     || (key in old(riskScorer.origin) && s == old(riskScorer.origin)[key]
                         && now < s.at + riskScorer.config.ttlSeconds * 1000))
    {
      var source := riskScorer.ScreenAddress(from, chain, listing, now, done);
      ghost var s := riskScorer.origin[AddressKey(from, chain)];
      if NonNegative(riskScorer.config) {
        DecisionIgnoresCache(riskScorer.config, s.address, s.listing, amount);
      }
      var r := Adjusted(riskScorer.config, source, amount);
      if r.level == CRITICAL {
        return CriticalRisk(r.score);
      }
      if SANCTIONED in r.flags {
        return OnSanctionsList;
      }
      if MIXER in r.flags || DARKNET in r.flags {
        return MixerOrDarknet;
      }
      return Allowed;
    }

    method BlockAddress(address: string)
      modifies this`blockedAddresses
      ensures blockedAddresses == old(blockedAddresses) + {Lower(address)}
    {
      blockedAddresses := blockedAddresses + {Lower(address)};
    }

    method UnblockAddress(address: string)
      modifies this`blockedAddresses
      ensures blockedAddresses == old(blockedAddresses) - {Lower(address)}
    {
      blockedAddresses := blockedAddresses - {Lower(address)};
    }

    method BlockChain(chain: string)
      modifies this`blockedChains
      ensures blockedChains == old(blockedChains) + {chain}
    {
      blockedChains := blockedChains + {chain};
    }

    method UnblockChain(chain: string)
      modifies this`blockedChains
      ensures blockedChains == old(blockedChains) - {chain}
    {
      blockedChains := blockedChains - {chain};
    }
  }

  /** When addresses are always given in lower case, the screening on file is of the very address
      and chain asked about. */
  lemma LowerCaseIsItsOwn(address: string, chain: string, s: Screening)
    requires AddressKey(address, chain) == AddressKey(s.address, s.chain)
    requires Lower(address) == address && Lower(s.address) == s.address && ColonFree(chain) && ColonFree(s.chain)
    ensures s.address == address && s.chain == chain
  {
    AddressKeyIdentifies(address, chain, s.address, s.chain);
  }

  /** Otherwise not: the key folds case, the score does not. */
  lemma SpellingsShareAnEntry(c: Config, lower: string, upper: string, chain: string)
    requires c == DEFAULT.(txCountWeight := 0.0, volumeWeight := 0.0, sanctionsWeight := 0.0)
    requires |lower| == |upper| == 1 && lower[0] == 'f' && upper[0] == 'F'
    ensures AddressKey(lower, chain) == AddressKey(upper, chain)
    ensures DecideAddress(Fresh(c, lower, NotListed), 60000.0) == HighRiskLargeAmount(60000.0)
    ensures DecideAddress(Fresh(c, upper, NotListed), 60000.0) == Allowed
  {
    FoldsCase(lower, upper, chain);
    LowerIsRefused(c, lower);
    UpperIsAllowed(c, upper);
  }

  lemma LowerIsRefused(c: Config, s: string)
    requires c.walletAgeWeight == 0.2 && c.txCountWeight == c.volumeWeight == c.sanctionsWeight == 0.0
    requires c.highThreshold == 60.0 && c.criticalThreshold == 80.0 && |s| == 1 && s[0] == 'f'
    ensures DecideAddress(Fresh(c, s, NotListed), 60000.0) == HighRiskLargeAmount(60000.0)
  {
    OneLetterDecision(c, s);
  }

  lemma UpperIsAllowed(c: Config, s: string)
    requires c.walletAgeWeight == 0.2 && c.txCountWeight == c.volumeWeight == c.sanctionsWeight == 0.0
    requires c.highThreshold == 60.0 && c.criticalThreshold == 80.0 && |s| == 1 && s[0] == 'F'
    ensures DecideAddress(Fresh(c, s, NotListed), 60000.0) == Allowed
  {
    OneLetterDecision(c, s);
  }

  lemma FoldsCase(lower: string, upper: string, chain: string)
    requires |lower| == |upper| == 1 && 'A' <= upper[0] <= 'Z' && lower[0] as int == upper[0] as int + 32
    ensures AddressKey(lower, chain) == AddressKey(upper, chain)
  {
    assert Lower(lower) == Lower(upper);
  }

  /** What a wallet whose age is all that counts may do with 60000: nothing from a score of 60. */
  lemma OneLetterDecision(c: Config, s: string)
    requires c.walletAgeWeight == 0.2 && c.txCountWeight == c.volumeWeight == c.sanctionsWeight == 0.0
    requires c.highThreshold == 60.0 && c.criticalThreshold == 80.0 && |s| == 1 && s[0] as int < 0x1_0000
    ensures DecideAddress(Fresh(c, s, NotListed), 60000.0)
         == if s[0] as int % 60 >= 40 then HighRiskLargeAmount(60000.0) else Allowed
  {
    ScoreOfOneLetter(c, s);
    DecidedByLevel(c, s, 60000.0);
  }

  lemma DecidedByLevel(c: Config, address: string, amount: real)
    requires FreshScore(c, address, NotListed) < c.criticalThreshold
    ensures DecideAddress(Fresh(c, address, NotListed), amount)
         == if FreshScore(c, address, NotListed) >= c.highThreshold && amount > 50000.0 then HighRiskLargeAmount(amount) else Allowed
  {
    FreshFlags(c, address, NotListed);
  }

  lemma ScoreOfOneLetter(c: Config, s: string)
    requires c.walletAgeWeight == 0.2 && c.txCountWeight == c.volumeWeight == c.sanctionsWeight == 0.0
    requires |s| == 1 && s[0] as int < 0x1_0000
    ensures FreshScore(c, s, NotListed) == (s[0] as int % 60 + 20) as real
  {
    OneLetter(s);
    AgeAloneCounts(c, s);
    var age := s[0] as int % 60 + 20;
    assert age as real * 0.2 / 0.2 * 100.0 == (age * 100) as real;
    RoundHalfUpStaysWithin((age * 100) as real, age * 100, age * 100);
  }
}
