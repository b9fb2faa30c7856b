/** The polling side of the EVM chain client. Each method is what runs between two awaits, so
    any sequence of calls is an interleaving of polls that overlap, fail midway or restart, with
    listeners that come and go in between. */
module EvmChainClients {
  import opened Wrappers
  import opened IdempotencyKeys

  type Listener = nat

  const ZERO_ADDRESS := "0x0000000000000000000000000000000000000000"
  const NATIVE_ASSET := "native"

  datatype Native = Native(hash: string, from: string, to: Option<string>, value: string)

  /** A token transfer in a receipt; None is data that does not decode. */
  datatype TransferLog = TransferLog(to: string, token: string, amount: Option<string>)

  // The provider's replies; Fails is a call that throws.

  datatype BlockReply = BlockFails | NoBlock | Block(hashes: seq<string>)
  datatype TxReply = TxFails | NoTx | Found(native: Native)
  datatype ReceiptReply = ReceiptFails | NoReceipt | Logs(logs: seq<TransferLog>)

  /** What the provider had to tell of one transaction: nothing, or the transaction and its token
      transfers. */
  datatype Answer = Unknown | Answer(native: Native, logs: seq<TransferLog>)

  /** A poll waits for a block, for a transaction of it, or for that transaction's receipt. */
  datatype Stage =
    | AwaitingBlock
    | AwaitingTx(hashes: seq<string>, i: nat)
    | AwaitingReceipt(hashes: seq<string>, i: nat, native: Native)

  /** A running poll: on its way up to `to`, at block `next`. */
  datatype Poll = Poll(to: int, next: int, stage: Stage)

  type Watched = map<string, set<Listener>>

  type Watchers = set<(string, Listener)>

  type Delivery = (Listener, Transfer)

  function Pairs(watched: Watched): Watchers {
    set a, l | a in watched && l in watched[a] :: (a, l)
  }

  predicate Involves(n: Native, address: string) {
    (n.to.Some? && Lower(n.to.value) == address) || Lower(n.from) == address
  }

  function NativeTransfer(n: Native): Transfer {
    Transfer(n.hash, if n.to.Some? then n.to.value else ZERO_ADDRESS, NATIVE_ASSET, n.value)
  }

  function TokenTransfer(hash: string, log: TransferLog): Transfer
    requires log.amount.Some?
  {
    Transfer(hash, Lower(log.to), log.token, log.amount.value)
  }

  /** Every watcher of an address the transaction sends from or to. */
  function NativeDeliveries(w: Watchers, n: Native): set<Delivery> {
    set p | p in w && Involves(n, p.0) :: (p.1, NativeTransfer(n))
  }

  /** Every watcher of the address a token transfer goes to. */
  function TokenDeliveries(w: Watchers, hash: string, log: TransferLog): set<Delivery> {
    if log.amount.None? then {} else set p | p in w && p.0 == Lower(log.to) :: (p.1, TokenTransfer(hash, log))
  }

  function LogDeliveries(w: Watchers, hash: string, logs: seq<TransferLog>): set<Delivery> {
    if logs == [] then {}
    else LogDeliveries(w, hash, logs[..|logs| - 1]) + TokenDeliveries(w, hash, logs[|logs| - 1])
  }

  function AnswerDeliveries(w: Watchers, a: Answer): set<Delivery> {
    if a.Unknown? then {} else NativeDeliveries(w, a.native) + LogDeliveries(w, a.native.hash, a.logs)
  }

  function BlockDeliveries(w: Watchers, answers: seq<Answer>): set<Delivery> {
    if answers == [] then {}
    else BlockDeliveries(w, answers[..|answers| - 1]) + AnswerDeliveries(w, answers[|answers| - 1])
  }

  /** Decoding is only tried for a watched address, and throws out of the poll. */
  predicate Throws(w: Watchers, log: TransferLog) {
    log.amount.None? && exists p :: p in w && p.0 == Lower(log.to)
  }

  predicate AnyThrows(w: Watchers, logs: seq<TransferLog>) {
    exists i :: 0 <= i < |logs| && Throws(w, logs[i])
  }

  /** What a transaction has to tell is delivered with its block, */
  lemma {:induction false} HeardFromTx(w: Watchers, answers: seq<Answer>, i: nat, d: Delivery)
    requires i < |answers| && d in AnswerDeliveries(w, answers[i])
    ensures d in BlockDeliveries(w, answers)
  {
    if i < |answers| - 1 {
      HeardFromTx(w, answers[..|answers| - 1], i, d);
    }
  }

  /** and nothing else is. */
  lemma {:induction false} HeardOnlyFromTx(w: Watchers, answers: seq<Answer>, d: Delivery) returns (i: nat)
    requires d in BlockDeliveries(w, answers)
    ensures i < |answers| && d in AnswerDeliveries(w, answers[i])
  {
    i := |answers| - 1;
    if d !in AnswerDeliveries(w, answers[i]) {
      i := HeardOnlyFromTx(w, answers[..|answers| - 1], d);
    }
  }

  lemma {:induction false} HeardFromLogs(w: Watchers, hash: string, logs: seq<TransferLog>, k: nat, l: Listener)
    requires k < |logs| && logs[k].amount.Some? && (Lower(logs[k].to), l) in w
    ensures (l, TokenTransfer(hash, logs[k])) in LogDeliveries(w, hash, logs)
  {
    if k < |logs| - 1 {
      HeardFromLogs(w, hash, logs[..|logs| - 1], k, l);
    } else {
      var p := (Lower(logs[k].to), l);
      assert p in w && p.0 == Lower(logs[k].to);
    }
  }

  /** Whoever watches the address hears of every native or token transfer to it in the block. */
  lemma WatchersHear(w: Watchers, answers: seq<Answer>, i: nat, address: string, l: Listener)
    requires i < |answers| && answers[i].Answer? && (address, l) in w
    ensures Involves(answers[i].native, address) ==> (l, NativeTransfer(answers[i].native)) in BlockDeliveries(w, answers)
    ensures forall k :: && 0 <= k < |answers[i].logs| && Lower(answers[i].logs[k].to) == address
                        && answers[i].logs[k].amount.Some? ==>
              (l, TokenTransfer(answers[i].native.hash, answers[i].logs[k])) in BlockDeliveries(w, answers)
  {
    var a := answers[i];
    if Involves(a.native, address) {
      var p := (address, l);
      assert p in w && Involves(a.native, p.0);
      HeardFromTx(w, answers, i, (l, NativeTransfer(a.native)));
    }
    forall k | 0 <= k < |a.logs| && Lower(a.logs[k].to) == address && a.logs[k].amount.Some?
      ensures (l, TokenTransfer(a.native.hash, a.logs[k])) in BlockDeliveries(w, answers)
    {
      HeardFromLogs(w, a.native.hash, a.logs, k, l);
      HeardFromTx(w, answers, i, (l, TokenTransfer(a.native.hash, a.logs[k])));
    }
  }

  /** What a watcher is told of a native transfer, field by field: of every one to or from the
      address, the transaction's hash and value, the native asset, and the recipient or, if there
      is none, the zero address. */
  lemma NativeIsTold(w: Watchers, answers: seq<Answer>, i: nat, address: string, l: Listener)
    requires i < |answers| && answers[i].Answer? && (address, l) in w
    requires (answers[i].native.to.Some? && Lower(answers[i].native.to.value) == address) || Lower(answers[i].native.from) == address
    ensures
      var n := answers[i].native;
      (l, Transfer(txHash := n.hash,
                   to := if n.to.Some? then n.to.value else "0x0000000000000000000000000000000000000000",
                   asset := "native",
                   amount := n.value)) in BlockDeliveries(w, answers)
  {
    WatchersHear(w, answers, i, address, l);
  }

  /** And of a token transfer to the address: the transaction's hash, the lower-cased recipient, the
      token and the decoded amount. */
  lemma TokenIsTold(w: Watchers, answers: seq<Answer>, i: nat, k: nat, address: string, l: Listener)
    requires i < |answers| && answers[i].Answer? && k < |answers[i].logs| && answers[i].logs[k].amount.Some?
    requires (address, l) in w && Lower(answers[i].logs[k].to) == address
    ensures
      var log := answers[i].logs[k];
      (l, Transfer(txHash := answers[i].native.hash, to := address, asset := log.token, amount := log.amount.value))
      in BlockDeliveries(w, answers)
  {
    WatchersHear(w, answers, i, address, l);
  }

  ghost predicate IsNativeNews(w: Watchers, n: Native, d: Delivery) {
    && d.1.txHash == n.hash && d.1.amount == n.value && d.1.asset == "native"
    && d.1.to == (if n.to.Some? then n.to.value else "0x0000000000000000000000000000000000000000")
    && exists p :: p in w && p.1 == d.0 && ((n.to.Some? && Lower(n.to.value) == p.0) || Lower(n.from) == p.0)
  }

  ghost predicate IsTokenNews(w: Watchers, hash: string, log: TransferLog, d: Delivery) {
    && log.amount.Some? && d.1.txHash == hash && d.1.amount == log.amount.value && d.1.asset == log.token
    && d.1.to == Lower(log.to) && (Lower(log.to), d.0) in w
  }

  lemma {:induction false} OnlyTokenNews(w: Watchers, hash: string, logs: seq<TransferLog>, d: Delivery) returns (k: nat)
    requires d in LogDeliveries(w, hash, logs)
    ensures k < |logs| && IsTokenNews(w, hash, logs[k], d)
  {
    k := |logs| - 1;
    if d !in TokenDeliveries(w, hash, logs[k]) {
      k := OnlyTokenNews(w, hash, logs[..k], d);
    }
  }

  /** Nobody is told anything else: each delivery of a block is news of one of its transactions, to
      someone who watches an address it concerns. */
  lemma OnlyNewsIsTold(w: Watchers, answers: seq<Answer>, d: Delivery) returns (i: nat)
    requires d in BlockDeliveries(w, answers)
    ensures i < |answers| && answers[i].Answer?
    ensures IsNativeNews(w, answers[i].native, d)
            || exists k :: 0 <= k < |answers[i].logs| && IsTokenNews(w, answers[i].native.hash, answers[i].logs[k], d)
  {
    i := HeardOnlyFromTx(w, answers, d);
    if d in LogDeliveries(w, answers[i].native.hash, answers[i].logs) {
      var k := OnlyTokenNews(w, answers[i].native.hash, answers[i].logs, d);
    }
  }

  // Fewer watchers hear less.

  lemma {:induction false} FewerHearLogs(v: Watchers, w: Watchers, hash: string, logs: seq<TransferLog>)
    requires v <= w
    ensures LogDeliveries(v, hash, logs) <= LogDeliveries(w, hash, logs)
  {
    if logs != [] {
      FewerHearLogs(v, w, hash, logs[..|logs| - 1]);
    }
  }

  lemma FewerHearNative(v: Watchers, w: Watchers, n: Native)
    requires v <= w
    ensures NativeDeliveries(v, n) <= NativeDeliveries(w, n)
  {
  }

  lemma {:induction false} FewerHearBlock(v: Watchers, w: Watchers, answers: seq<Answer>)
    requires v <= w
    ensures BlockDeliveries(v, answers) <= BlockDeliveries(w, answers)
  {
    if answers != [] {
      var last := answers[|answers| - 1];
      FewerHearBlock(v, w, answers[..|answers| - 1]);
      if last.Answer? {
        FewerHearNative(v, w, last.native);
        FewerHearLogs(v, w, last.native.hash, last.logs);
      }
    }
  }

  lemma BlockOneMore(w: Watchers, answers: seq<Answer>, a: Answer)
    ensures BlockDeliveries(w, answers + [a]) == BlockDeliveries(w, answers) + AnswerDeliveries(w, a)
  {
    assert (answers + [a])[..|answers|] == answers;
  }

  /** One finished scan of a block: who watched throughout, and what the provider answered. */
  datatype Scan = Scan(watchers: Watchers, answers: seq<Answer>)

  /** The blocks above low, up to high, are all among these. */
  predicate Covered(low: int, high: int, blocks: set<int>) {
    forall b :: low < b <= high ==> b in blocks
  }

  ghost predicate ScansOk(scans: map<int, Scan>, delivered: set<Delivery>) {
    forall b :: b in scans ==> BlockDeliveries(scans[b].watchers, scans[b].answers) <= delivered
  }

  /** A poll has left nothing out behind it, and its steady watchers have heard its block so far. */
  ghost predicate PollOk(poll: Poll, steady: Watchers, answers: seq<Answer>, w: Watchers, start: int, behind: set<int>,
                         delivered: set<Delivery>) {
    && Covered(start, poll.next - 1, behind) && poll.next <= poll.to + 1
    && (!poll.stage.AwaitingBlock? ==>
          && poll.next <= poll.to && poll.stage.i < |poll.stage.hashes| && |answers| == poll.stage.i
          && steady <= w && BlockDeliveries(steady, answers) <= delivered)
    && (poll.stage.AwaitingReceipt? ==> NativeDeliveries(steady, poll.stage.native) <= delivered)
  }

  lemma StillHeard(poll: Poll, steady: Watchers, answers: seq<Answer>, w: Watchers, start: int, behind: set<int>,
                   delivered: set<Delivery>, a: Answer)
    requires PollOk(poll, steady, answers, w, start, behind, delivered) && !poll.stage.AwaitingBlock?
    requires AnswerDeliveries(steady, a) <= delivered
    ensures BlockDeliveries(steady, answers + [a]) <= delivered && poll.next <= poll.to
    ensures poll.stage.i + 1 < |poll.stage.hashes| ==>
              PollOk(poll.(stage := AwaitingTx(poll.stage.hashes, poll.stage.i + 1)), steady, answers + [a], w, start, behind, delivered)
  {
    BlockOneMore(steady, answers, a);
  }

  ghost predicate PollsOk(polls: map<nat, Poll>, steady: map<nat, Watchers>, answers: map<nat, seq<Answer>>, w: Watchers,
                          start: int, behind: set<int>, delivered: set<Delivery>) {
    && polls.Keys == steady.Keys == answers.Keys
    && forall id :: id in polls ==> PollOk(polls[id], steady[id], answers[id], w, start, behind, delivered)
  }

  lemma PollsStayOk(polls: map<nat, Poll>, steady: map<nat, Watchers>, answers: map<nat, seq<Answer>>, w: Watchers,
                    start: int, behind: set<int>, delivered: set<Delivery>, more: Watchers, further: set<int>, later: set<Delivery>)
    requires PollsOk(polls, steady, answers, w, start, behind, delivered)
    requires w <= more && behind <= further && delivered <= later
    ensures PollsOk(polls, steady, answers, more, start, further, later)
  {
  }

  lemma OnePollMoves(polls: map<nat, Poll>, steady: map<nat, Watchers>, answers: map<nat, seq<Answer>>, w: Watchers,
                     start: int, behind: set<int>, delivered: set<Delivery>, id: nat, poll: Poll, s: Watchers, a: seq<Answer>)
    requires PollsOk(polls, steady, answers, w, start, behind, delivered)
    requires PollOk(poll, s, a, w, start, behind, delivered)
    ensures PollsOk(polls[id := poll], steady[id := s], answers[id := a], w, start, behind, delivered)
  {
  }

  /** The block a poll is at may be ticked off. */
  lemma LookAtMore(polls: map<nat, Poll>, steady: map<nat, Watchers>, answers: map<nat, seq<Answer>>, w: Watchers,
                   start: int, behind: set<int>, delivered: set<Delivery>, id: nat)
    requires PollsOk(polls, steady, answers, w, start, behind, delivered) && id in polls && polls[id].next <= polls[id].to
    ensures var further := behind + {polls[id].next};
            && PollsOk(polls, steady, answers, w, start, further, delivered)
            && Covered(start, polls[id].next, further)
  {
    BehindOneMore(start, polls[id].next, behind);
    PollsStayOk(polls, steady, answers, w, start, behind, delivered, w, behind + {polls[id].next}, delivered);
  }

  lemma OnePollEnds(polls: map<nat, Poll>, steady: map<nat, Watchers>, answers: map<nat, seq<Answer>>, w: Watchers,
                    start: int, behind: set<int>, delivered: set<Delivery>, id: nat)
    requires PollsOk(polls, steady, answers, w, start, behind, delivered)
    ensures PollsOk(polls - {id}, steady - {id}, answers - {id}, w, start, behind, delivered)
  {
  }

  function LosesWatcher(steady: map<nat, Watchers>, gone: (string, Listener)): map<nat, Watchers> {
    map id | id in steady :: steady[id] - {gone}
  }

  lemma PollsLoseWatcher(polls: map<nat, Poll>, steady: map<nat, Watchers>, answers: map<nat, seq<Answer>>, w: Watchers,
                         start: int, behind: set<int>, delivered: set<Delivery>, gone: (string, Listener))
    requires PollsOk(polls, steady, answers, w, start, behind, delivered)
    ensures PollsOk(polls, LosesWatcher(steady, gone), answers, w - {gone}, start, behind, delivered)
  {
    forall id | id in polls
      ensures PollOk(polls[id], steady[id] - {gone}, answers[id], w - {gone}, start, behind, delivered)
    {
      FewerHearBlock(steady[id] - {gone}, steady[id], answers[id]);
      if polls[id].stage.AwaitingReceipt? {
        FewerHearNative(steady[id] - {gone}, steady[id], polls[id].stage.native);
      }
    }
  }

  class EvmChainClient {
    var watched: Watched
    var pollTimer: bool
    var lastBlockNumber: int
    /** startPolling calls that still wait for the block number, and the polls under way. */
    var starting: nat
    var polls: map<nat, Poll>
    /** Whether polling was ever started, and the height it was first started from. */
    ghost var started: bool
    ghost var start: int
    /** Blocks all of whose transactions were looked at, with their latest scan; blocks the
        provider did not have; and blocks a later start jumped over. */
    ghost var scans: map<int, Scan>
    ghost var absent: set<int>
    ghost var skipped: set<int>
    ghost var delivered: set<Delivery>
    /** Of each poll, who has watched since its block came in, and the answers in that block. */
    ghost var steady: map<nat, Watchers>
    ghost var answers: map<nat, seq<Answer>>

    ghost function Looked(): set<int>
      reads this
    {
      scans.Keys + absent
    }

    /** No block between the first start and the client's height was left out. */
    ghost predicate Complete()
      reads this
    {
      Covered(start, lastBlockNumber, Looked())
    }

    /** However polls overlap, fail or restart, the client's height passes no block but those it
        scanned, those the provider did not have, and those a later start jumped over; and
        whoever watched throughout the scan of a block heard everything in it. */
    ghost predicate Valid()
      reads this
    {
      && (if started then Covered(start, lastBlockNumber, Looked() + skipped) else polls == map[] && skipped == {})
      && PollsOk(polls, steady, answers, Pairs(watched), start, Looked() + skipped, delivered)
      && ScansOk(scans, delivered)
    }

    constructor ()
      ensures Valid() && watched == map[] && polls == map[] && lastBlockNumber == 0
      ensures !pollTimer && starting == 0 && !started
      ensures scans == map[] && absent == skipped == {} && delivered == {}
    {
      watched, pollTimer, lastBlockNumber, starting, polls := map[], false, 0, 0, map[];
      started, start, absent, skipped := false, 0, {}, {};
      scans, delivered, steady, answers := map[], {}, map[], map[];
    }

    method WatchDeposits(address: string, listener: Listener)
      requires Valid()
      modifies this`watched, this`starting
      ensures Valid()
      ensures watched == old(watched)[Lower(address) :=
                (if Lower(address) in old(watched) then old(watched)[Lower(address)] else {}) + {listener}]
      ensures starting == old(starting) + if pollTimer then 0 else 1
    {
      var normalized := Lower(address);
      if normalized !in watched {
        watched := watched[normalized := {}];
      }
      watched := watched[normalized := watched[normalized] + {listener}];
      if !pollTimer {
        starting := starting + 1;
      }
      assert Pairs(old(watched)) <= Pairs(watched);
    }

    /** The function watchDeposits returns. */
    method Unsubscribe(address: string, listener: Listener)
      requires Valid()
      modifies this`watched, this`pollTimer, this`steady
      ensures Valid()
      ensures watched == Without(old(watched), Lower(address), listener)
      ensures Pairs(watched) == Pairs(old(watched)) - {(Lower(address), listener)}
      ensures pollTimer <==> old(pollTimer) && watched != map[]
    {
      var normalized := Lower(address);
      RemoveListener(normalized, listener);
      if watched == map[] && pollTimer {
        pollTimer := false;
      }
      PairsWithout(old(watched), normalized, listener);
      PollsLoseWatcher(polls, steady, answers, Pairs(old(watched)), start, Looked() + skipped, delivered, (normalized, listener));
      steady := LosesWatcher(steady, (normalized, listener));
    }

    method RemoveListener(normalized: string, listener: Listener)
      modifies this`watched
      ensures watched == Without(old(watched), normalized, listener)
    {
      if normalized in watched {
        watched := watched[normalized := watched[normalized] - {listener}];
        if watched[normalized] == {} {
          watched := watched - {normalized};
        }
      }
    }

    /** startPolling gets the block number, or fails and keeps the old one; it polls either way.
        Several may be waiting, and their answers may come in any order. A later start that finds
        the chain ahead of the client jumps over the blocks in between: the client stays complete
        exactly if it has looked at all of those. */
    method StartAnswered(height: Option<int>)
      requires Valid() && starting > 0
      modifies this`starting, this`pollTimer, this`lastBlockNumber, this`started, this`start, this`skipped
      ensures Valid() && pollTimer && started && starting == old(starting) - 1
      ensures lastBlockNumber == if height.Some? then height.value else old(lastBlockNumber)
      ensures start == if old(started) then old(start) else lastBlockNumber
      ensures !old(started) ==> Complete()
      ensures old(started && Complete()) ==>
                (Complete() <==> Covered(Max(start, old(lastBlockNumber)), lastBlockNumber, Looked()))
      ensures skipped == old(skipped) + if old(started) then Between(old(lastBlockNumber), lastBlockNumber) - Looked() else {}
    {
      starting, pollTimer := starting - 1, true;
      if height.Some? {
        lastBlockNumber := height.value;
      }
      if started {
        Jump(start, old(lastBlockNumber), lastBlockNumber, Looked(), skipped);
        PollsStayOk(polls, steady, answers, Pairs(watched), start, Looked() + skipped, delivered,
                    Pairs(watched), Looked() + (skipped + (Between(old(lastBlockNumber), lastBlockNumber) - Looked())), delivered);
        skipped := skipped + (Between(old(lastBlockNumber), lastBlockNumber) - Looked());
      } else {
        started, start := true, lastBlockNumber;
      }
    }

    /** A tick of a timer got the current block; without new blocks no poll begins. Each start
        sets a timer of its own and only the last is ever cleared, so ticks come whether or not
        pollTimer is set. */
    method BeginPoll(id: nat, currentBlock: int)
      requires Valid() && started && id !in polls
      modifies this`polls, this`steady, this`answers
      ensures Valid()
      ensures polls == if currentBlock <= lastBlockNumber then old(polls)
                       else old(polls)[id := Poll(currentBlock, lastBlockNumber + 1, AwaitingBlock)]
    {
      if currentBlock > lastBlockNumber {
        MovePoll(id, Poll(currentBlock, lastBlockNumber + 1, AwaitingBlock), {}, []);
      }
    }

    method MovePoll(id: nat, poll: Poll, ghost s: Watchers, ghost a: seq<Answer>)
      requires Valid() && started
      requires PollOk(poll, s, a, Pairs(watched), start, Looked() + skipped, delivered)
      modifies this`polls, this`steady, this`answers
      ensures Valid() && polls == old(polls)[id := poll] && steady == old(steady)[id := s] && answers == old(answers)[id := a]
    {
      OnePollMoves(polls, steady, answers, Pairs(watched), start, Looked() + skipped, delivered, id, poll, s, a);
      polls, steady, answers := polls[id := poll], steady[id := s], answers[id := a];
    }

    /** A poll whose provider call throws ends where it is, to be redone by a later one. */
    method Abort(id: nat)
      requires Valid() && id in polls
      modifies this`polls, this`steady, this`answers
      ensures Valid() && polls == old(polls) - {id}
    {
      OnePollEnds(polls, steady, answers, Pairs(watched), start, Looked() + skipped, delivered, id);
      polls, steady, answers := polls - {id}, steady - {id}, answers - {id};
    }

    method BlockAnswered(id: nat, reply: BlockReply)
      requires Valid() && id in polls && polls[id].stage.AwaitingBlock? && polls[id].next <= polls[id].to
      modifies this`polls, this`absent, this`scans, this`steady, this`answers
      ensures Valid()
      ensures var poll := old(polls)[id];
              match reply
              case BlockFails => polls == old(polls) - {id} && scans == old(scans) && absent == old(absent)
              case NoBlock =>
                && polls == old(polls)[id := poll.(next := poll.next + 1)]
                && scans == old(scans) && absent == old(absent) + {poll.next}
              case Block(hashes) =>
                && absent == old(absent)
                && if hashes == []
                   then && polls == old(polls)[id := poll.(next := poll.next + 1)]
                        && scans == old(scans)[poll.next := Scan(Pairs(watched), [])]
                   else polls == old(polls)[id := poll.(stage := AwaitingTx(hashes, 0))] && scans == old(scans)
      ensures id in polls && polls[id].stage.AwaitingTx? ==> steady[id] == Pairs(watched)
    {
      var poll := polls[id];
      match reply
      case BlockFails =>
        Abort(id);
      case NoBlock =>
        LookAtMore(polls, steady, answers, Pairs(watched), start, Looked() + skipped, delivered, id);
        absent := absent + {poll.next};
        assert Looked() + skipped == old(Looked()) + skipped + {poll.next};
        MovePoll(id, poll.(next := poll.next + 1), steady[id], answers[id]);
      case Block(hashes) =>
        if hashes == [] {
          FinishBlock(id, Pairs(watched), []);
        } else {
          MovePoll(id, poll.(stage := AwaitingTx(hashes, 0)), Pairs(watched), []);
        }
    }

    /** The transaction came in: its native transfer is delivered at once. */
    method TxAnswered(id: nat, reply: TxReply)
      requires Valid() && id in polls && polls[id].stage.AwaitingTx?
      modifies this`polls, this`scans, this`delivered, this`steady, this`answers
      ensures Valid()
      ensures reply.TxFails? ==> polls == old(polls) - {id} && scans == old(scans) && delivered == old(delivered)
      ensures reply.NoTx? ==>
                && Advanced(old(polls), polls, id, old(scans), scans, old(steady)[id], old(answers)[id] + [Unknown])
                && delivered == old(delivered)
      ensures reply.Found? ==>
                && polls == old(polls)[id := old(polls)[id].(stage := AwaitingReceipt(old(polls)[id].stage.hashes,
                                                                                      old(polls)[id].stage.i, reply.native))]
                && scans == old(scans)
                && delivered == old(delivered) + NativeDeliveries(Pairs(watched), reply.native)
    {
      var poll := polls[id];
      match reply
      case TxFails =>
        Abort(id);
      case NoTx =>
        NextTx(id, Unknown);
      case Found(native) =>
        DeliverNative(native);
        HearMore(old(delivered));
        FewerHearNative(steady[id], Pairs(watched), native);
        MovePoll(id, poll.(stage := AwaitingReceipt(poll.stage.hashes, poll.stage.i, native)), steady[id], answers[id]);
    }

    /** The receipt came in: its token transfers are delivered, up to one that throws. */
    method ReceiptAnswered(id: nat, reply: ReceiptReply)
      requires Valid() && id in polls && polls[id].stage.AwaitingReceipt?
      modifies this`polls, this`scans, this`delivered, this`steady, this`answers
      ensures Valid()
      ensures reply.ReceiptFails? ==> polls == old(polls) - {id} && scans == old(scans) && delivered == old(delivered)
      ensures reply.NoReceipt? ==>
                && Advanced(old(polls), polls, id, old(scans), scans, old(steady)[id],
                            old(answers)[id] + [Answer(old(polls)[id].stage.native, [])])
                && delivered == old(delivered)
      ensures reply.Logs? ==>
                var all := old(delivered) + LogDeliveries(Pairs(watched), old(polls)[id].stage.native.hash, reply.logs);
                if AnyThrows(Pairs(watched), reply.logs)
                then polls == old(polls) - {id} && scans == old(scans) && old(delivered) <= delivered <= all
                else && Advanced(old(polls), polls, id, old(scans), scans, old(steady)[id],
                                 old(answers)[id] + [Answer(old(polls)[id].stage.native, reply.logs)])
                     && delivered == all
    {
      var poll := polls[id];
      match reply
      case ReceiptFails =>
        Abort(id);
      case NoReceipt =>
        NextTx(id, Answer(poll.stage.native, []));
      case Logs(logs) =>
        var ok := DeliverLogs(poll.stage.native.hash, logs);
        HearMore(old(delivered));
        if ok {
          FewerHearLogs(steady[id], Pairs(watched), poll.stage.native.hash, logs);
          NextTx(id, Answer(poll.stage.native, logs));
        } else {
          Abort(id);
        }
    }

    /** On to the next transaction, or out of the block after the last one. */
    method NextTx(id: nat, ghost a: Answer)
      requires Valid() && id in polls && !polls[id].stage.AwaitingBlock?
      requires AnswerDeliveries(steady[id], a) <= delivered
      modifies this`polls, this`scans, this`steady, this`answers
      ensures Valid() && Advanced(old(polls), polls, id, old(scans), scans, old(steady)[id], old(answers)[id] + [a])
    {
      var poll := polls[id];
      StillHeard(poll, steady[id], answers[id], Pairs(watched), start, Looked() + skipped, delivered, a);
      if poll.stage.i + 1 < |poll.stage.hashes| {
        MovePoll(id, poll.(stage := AwaitingTx(poll.stage.hashes, poll.stage.i + 1)), steady[id], answers[id] + [a]);
      } else {
        FinishBlock(id, steady[id], answers[id] + [a]);
      }
    }

    /** The block was looked at to its end. */
    method FinishBlock(id: nat, ghost s: Watchers, ghost a: seq<Answer>)
      requires Valid() && started && id in polls && polls[id].next <= polls[id].to && BlockDeliveries(s, a) <= delivered
      modifies this`polls, this`steady, this`answers, this`scans
      ensures Valid()
      ensures polls == old(polls)[id := old(polls)[id].(next := old(polls)[id].next + 1, stage := AwaitingBlock)]
      ensures scans == old(scans)[old(polls)[id].next := Scan(s, a)]
    {
      var poll := polls[id];
      LookAtMore(polls, steady, answers, Pairs(watched), start, Looked() + skipped, delivered, id);
      scans := scans[poll.next := Scan(s, a)];
      assert Looked() + skipped == old(Looked()) + skipped + {poll.next};
      assert PollOk(poll.(next := poll.next + 1, stage := AwaitingBlock), s, a, Pairs(watched), start, Looked() + skipped, delivered);
      MovePoll(id, poll.(next := poll.next + 1, stage := AwaitingBlock), s, a);
    }

    method DeliverNative(native: Native)
      modifies this`delivered
      ensures delivered == old(delivered) + NativeDeliveries(Pairs(watched), native)
    {
      var rest := watched.Keys;
      while rest != {}
        invariant rest <= watched.Keys
        invariant delivered == old(delivered)
                             + set p | p in Pairs(watched) && p.0 !in rest && Involves(native, p.0) :: (p.1, NativeTransfer(native))
        decreases rest
      {
        var address :| address in rest;
        if Involves(native, address) {
          delivered := delivered + set l | l in watched[address] :: (l, NativeTransfer(native));
          assert forall l :: l in watched[address] ==> (address, l) in Pairs(watched);
        }
        rest := rest - {address};
      }
    }

    lemma HearMore(before: set<Delivery>)
      requires PollsOk(polls, steady, answers, Pairs(watched), start, Looked() + skipped, before)
      requires ScansOk(scans, before) && before <= delivered
      ensures PollsOk(polls, steady, answers, Pairs(watched), start, Looked() + skipped, delivered)
      ensures ScansOk(scans, delivered)
    {
      PollsStayOk(polls, steady, answers, Pairs(watched), start, Looked() + skipped, before,
                  Pairs(watched), Looked() + skipped, delivered);
    }

    method DeliverLogs(hash: string, logs: seq<TransferLog>) returns (ok: bool)
      modifies this`delivered
      ensures ok <==> !AnyThrows(Pairs(watched), logs)
      ensures old(delivered) <= delivered <= old(delivered) + LogDeliveries(Pairs(watched), hash, logs)
      ensures ok ==> delivered == old(delivered) + LogDeliveries(Pairs(watched), hash, logs)
    {
      for i := 0 to |logs|
        invariant !AnyThrows(Pairs(watched), logs[..i])
        invariant delivered == old(delivered) + LogDeliveries(Pairs(watched), hash, logs[..i])
      {
        assert logs[..i + 1][..i] == logs[..i];
        ok := DeliverLog(hash, logs[i]);
        if !ok {
          assert Throws(Pairs(watched), logs[i]);
          EarlierLogs(Pairs(watched), hash, logs, i);
          return;
        }
      }
      assert logs[..|logs|] == logs;
      ok := true;
    }

    method DeliverLog(hash: string, log: TransferLog) returns (ok: bool)
      modifies this`delivered
      ensures ok <==> !Throws(Pairs(watched), log)
      ensures delivered == old(delivered) + TokenDeliveries(Pairs(watched), hash, log)
    {
      var to := Lower(log.to);
      if to !in watched || watched[to] == {} {
        return true;
      }
      var l :| l in watched[to];
      assert (to, l) in Pairs(watched);
      if log.amount.None? {
        return false;
      }
      delivered := delivered + set l | l in watched[to] :: (l, TokenTransfer(hash, log));
      assert forall l :: l in watched[to] ==> (to, l) in Pairs(watched);
      return true;
    }

    /** A poll that got through all its blocks sets the height it went to, even if another poll
        has gone further meanwhile. */
    method FinishPoll(id: nat)
      requires Valid() && id in polls && polls[id].next == polls[id].to + 1
      modifies this`polls, this`lastBlockNumber, this`steady, this`answers
      ensures Valid() && lastBlockNumber == old(polls)[id].to && polls == old(polls) - {id}
    {
      lastBlockNumber := polls[id].to;
      Abort(id);
    }
  }

  function Max(a: int, b: int): int {
    if a < b then b else a
  }

  function Between(low: int, high: int): (blocks: set<int>)
    ensures forall b :: b in blocks <==> low < b <= high
    decreases high - low
  {
    if high <= low then {} else Between(low, high - 1) + {high}
  }

  /** Whatever a later start finds, the blocks it jumps over are accounted for, and a client that
      was complete stays so exactly if those were looked at. */
  lemma Jump(start: int, before: int, after: int, looked: set<int>, skipped: set<int>)
    ensures Covered(start, before, looked + skipped) ==>
              Covered(start, after, looked + (skipped + (Between(before, after) - looked)))
    ensures Covered(start, before, looked) ==>
              (Covered(start, after, looked) <==> Covered(Max(start, before), after, looked))
  {
    forall b | start < b <= after && Covered(start, before, looked + skipped)
      ensures b in looked + (skipped + (Between(before, after) - looked))
    {
      if b <= before {
        assert b in looked + skipped;
      }
    }
    forall b | start < b <= after && Covered(start, before, looked) && Covered(Max(start, before), after, looked)
      ensures b in looked
    {
    }
  }

  lemma BehindOneMore(start: int, next: int, behind: set<int>)
    requires Covered(start, next - 1, behind)
    ensures Covered(start, next, behind + {next})
  {
  }

  /** The map without one listener, and without an address that has none left. */
  function Without(watched: Watched, address: string, listener: Listener): Watched {
    if address !in watched then watched
    else if watched[address] <= {listener} then watched - {address}
    else watched[address := watched[address] - {listener}]
  }

  lemma PairsWithout(watched: Watched, address: string, listener: Listener)
    ensures Pairs(Without(watched, address, listener)) == Pairs(watched) - {(address, listener)}
  {
  }

  /** One poll got past a transaction, and past its block if that was the last one: only then is
      the block recorded as scanned, with its steady watchers and answers. */
  ghost predicate Advanced(before: map<nat, Poll>, after: map<nat, Poll>, id: nat, scans: map<int, Scan>, now: map<int, Scan>,
                           steady: Watchers, answers: seq<Answer>)
    requires id in before && !before[id].stage.AwaitingBlock?
  {
    var poll := before[id];
    if poll.stage.i + 1 < |poll.stage.hashes|
    then && after == before[id := poll.(stage := AwaitingTx(poll.stage.hashes, poll.stage.i + 1))] && now == scans
    else && after == before[id := poll.(next := poll.next + 1, stage := AwaitingBlock)]
         && now == scans[poll.next := Scan(steady, answers)]
  }

  lemma {:induction false} EarlierLogs(w: Watchers, hash: string, logs: seq<TransferLog>, i: nat)
    requires i < |logs|
    ensures LogDeliveries(w, hash, logs[..i]) + TokenDeliveries(w, hash, logs[i]) <= LogDeliveries(w, hash, logs)
  {
    var last := |logs| - 1;
    if i < last {
      EarlierLogs(w, hash, logs[..last], i);
      assert logs[..last][..i] == logs[..i];
    }
  }

  /** The client is complete exactly while its height passes no skipped block unlooked at. */
  lemma OnlySkippedAreMissed(client: EvmChainClient)
    requires client.Valid() && client.started
    ensures client.Complete() <==>
            forall b :: b in client.skipped && client.start < b <= client.lastBlockNumber ==> b in client.Looked()
  {
    forall b | client.start < b <= client.lastBlockNumber && b !in client.Looked()
      ensures b in client.skipped
    {
      assert b in client.Looked() + client.skipped;
    }
  }

  method WatchedTwice(address: string, listener: Listener, other: string) returns (client: EvmChainClient)
    ensures fresh(client) && client.Valid() && !client.started && client.starting == 2
    ensures (Lower(address), listener) in Pairs(client.watched) && client.scans == map[] && client.absent == {}
  {
    client := new EvmChainClient();
    client.WatchDeposits(address, listener);
    client.WatchDeposits(other, listener);
  }

  /** Two addresses watched at once start polling twice. If the second answer finds the chain
      further on, the blocks in between are never looked at, though a listener is polling. */
  method SecondStartLosesBlocks(address: string, listener: Listener, other: string, low: int, high: int) returns (client: EvmChainClient)
    requires low < high
    ensures fresh(client) && client.Valid() && client.started && client.start == low
    ensures (Lower(address), listener) in Pairs(client.watched) && client.pollTimer
    ensures forall b :: low < b <= high ==> b !in client.Looked()
    ensures client.lastBlockNumber == high && !client.Complete()
  {
    client := WatchedTwice(address, listener, other);
    client.StartAnswered(Some(low));
    client.StartAnswered(Some(high));
    assert high !in client.Looked();
  }
}
