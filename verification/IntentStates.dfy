/** The payment intent state machine: its states, its event types, and what every log that
    follows the transition table looks like. */
module IntentStates {

  datatype State =
    | Created | Quoted | AwaitingPayment | Detected | Confirming | Routing | Settling | Settled
    | Underpaid | Overpaid | Misdirected | Expired | Refunding | Failed

  datatype EventType =
    | IntentCreated | QuoteGenerated | PaymentAwaited | QuoteExpired | DepositDetected
    | ConfirmationReceived | RouteSelected | SettlementInitiated | SettlementConfirmed
    | UnderpaymentDetected | OverpaymentDetected | MisdirectedPayment
    | RefundInitiated | RefundConfirmed | IntentFailed

  /** The constant transition table. */
  function ValidTransitions(from: State): set<State> {
    match from
    case Created => {Quoted, Expired, Failed}
    case Quoted => {AwaitingPayment, Expired, Failed}
    case AwaitingPayment => {Detected, Expired, Failed}
    case Detected => {Confirming, Underpaid, Overpaid, Misdirected}
    case Confirming => {Routing, Failed}
    case Routing => {Settling, Failed}
    case Settling => {Settled, Failed}
    case Settled => {}
    case Underpaid => {AwaitingPayment, Refunding, Failed}
    case Overpaid => {Settling, Refunding, Failed}
    case Misdirected => {Refunding, Failed}
    case Expired => {}
    case Refunding => {Settled, Failed}
    case Failed => {}
  }

  predicate IsValidTransition(from: State, to: State) {
    to in ValidTransitions(from)
  }

  /** The state each event type leads to. */
  function Target(e: EventType): State {
    match e
    case IntentCreated => Created
    case QuoteGenerated => Quoted
    case PaymentAwaited => AwaitingPayment
    case QuoteExpired => Expired
    case DepositDetected => Detected
    case ConfirmationReceived => Confirming
    case RouteSelected => Routing
    case SettlementInitiated => Settling
    case SettlementConfirmed => Settled
    case UnderpaymentDetected => Underpaid
    case OverpaymentDetected => Overpaid
    case MisdirectedPayment => Misdirected
    case RefundInitiated => Refunding
    case RefundConfirmed => Settled
    case IntentFailed => Failed
  }

  /** The table by where a transition ends: who may fail, expire, be refunded, settle, and so on. */
  lemma Predecessors(from: State, to: State)
    ensures IsValidTransition(from, to) <==>
            match to
            case Created => false
            case Quoted => from == Created
            case AwaitingPayment => from == Quoted || from == Underpaid
            case Detected => from == AwaitingPayment
            case Confirming | Underpaid | Overpaid | Misdirected => from == Detected
            case Routing => from == Confirming
            case Settling => from == Routing || from == Overpaid
            case Settled => from == Settling || from == Refunding
            case Refunding => from == Underpaid || from == Overpaid || from == Misdirected
            case Expired => from == Created || from == Quoted || from == AwaitingPayment
            case Failed => from != Detected && from != Settled && from != Expired && from != Failed
  {
  }

  /** The events by where they lead: two settle an intent, one each leads anywhere else. */
  lemma EventsInto(e: EventType)
    ensures Target(e) == Settled <==> e == SettlementConfirmed || e == RefundConfirmed
    ensures Target(e) == Failed <==> e == IntentFailed
    ensures Target(e) == Expired <==> e == QuoteExpired
    ensures Target(e) == Refunding <==> e == RefundInitiated
    ensures Target(e) == Created <==> e == IntentCreated
    ensures Target(e) == Quoted <==> e == QuoteGenerated
    ensures Target(e) == AwaitingPayment <==> e == PaymentAwaited
    ensures Target(e) == Detected <==> e == DepositDetected
    ensures Target(e) == Underpaid <==> e == UnderpaymentDetected
    ensures Target(e) == Overpaid <==> e == OverpaymentDetected
    ensures Target(e) == Misdirected <==> e == MisdirectedPayment
    ensures Target(e) == Confirming <==> e == ConfirmationReceived
    ensures Target(e) == Routing <==> e == RouteSelected
    ensures Target(e) == Settling <==> e == SettlementInitiated
  {
  }

  predicate Terminal(s: State) {
    ValidTransitions(s) == {}
  }

  /** The k-th event takes an allowed transition. */
  predicate Follows(log: seq<EventType>, k: nat)
    requires 0 < k < |log|
  {
    IsValidTransition(Target(log[k - 1]), Target(log[k]))
  }

  /** A log that starts with the creation event and then only takes allowed transitions. */
  predicate IsPath(log: seq<EventType>) {
    && |log| > 0
    && log[0] == IntentCreated
    && forall k :: 0 < k < |log| ==> Follows(log, k)
  }

  function Last(log: seq<EventType>): State
    requires |log| > 0
  {
    Target(log[|log| - 1])
  }

  function Count(log: seq<EventType>, e: EventType): nat {
    if log == [] then 0
    else Count(log[..|log| - 1], e) + if log[|log| - 1] == e then 1 else 0
  }

  /** How often the log goes back from Underpaid to AwaitingPayment. */
  function TopUps(log: seq<EventType>): nat {
    if |log| < 2 then 0
    else
      TopUps(log[..|log| - 1])
      + if Target(log[|log| - 2]) == Underpaid && log[|log| - 1] == PaymentAwaited then 1 else 0
  }

  /** The longest run that reaches a state without a top-up, in transitions. */
  function Depth(s: State): nat {
    match s
    case Created => 0
    case Quoted => 1
    case AwaitingPayment => 2
    case Detected => 3
    case Confirming | Underpaid | Overpaid | Misdirected => 4
    case Routing | Refunding => 5
    case Settling => 6
    case Settled | Expired | Failed => 7
  }

  lemma PathPrefix(log: seq<EventType>)
    requires IsPath(log) && |log| > 1
    ensures IsPath(log[..|log| - 1])
    ensures IsValidTransition(Last(log[..|log| - 1]), Last(log))
  {
    var p := log[..|log| - 1];
    assert Follows(log, |log| - 1);
    forall k | 0 < k < |p|
      ensures Follows(p, k)
    {
      assert Follows(log, k);
    }
  }

  lemma {:induction false} PathDepth(log: seq<EventType>)
    requires IsPath(log)
    ensures |log| - 1 <= Depth(Last(log)) + 3 * TopUps(log)
  {
    if |log| > 1 {
      PathPrefix(log);
      PathDepth(log[..|log| - 1]);
    }
  }

  /** A path with k top-ups has at most 7 + 3k transitions. */
  lemma PathLength(log: seq<EventType>)
    requires IsPath(log)
    ensures |log| - 1 <= 7 + 3 * TopUps(log)
  {
    PathDepth(log);
  }

  /** A log of k rounds of underpayment, ending where the next round starts. */
  function Rounds(k: nat): seq<EventType> {
    if k == 0 then [IntentCreated, QuoteGenerated, PaymentAwaited]
    else Rounds(k - 1) + [DepositDetected] + [UnderpaymentDetected] + [PaymentAwaited]
  }

  lemma Extend(log: seq<EventType>, e: EventType)
    requires IsPath(log) && IsValidTransition(Last(log), Target(e))
    ensures IsPath(log + [e]) && Last(log + [e]) == Target(e)
    ensures TopUps(log + [e]) == TopUps(log) + if Last(log) == Underpaid && e == PaymentAwaited then 1 else 0
  {
    var l := log + [e];
    assert l[..|l| - 1] == log;
    forall k | 0 < k < |l|
      ensures Follows(l, k)
    {
      assert k < |log| ==> Follows(log, k);
    }
  }

  lemma OneRound(log: seq<EventType>)
    requires IsPath(log) && Last(log) == AwaitingPayment
    ensures
      var longer := log + [DepositDetected] + [UnderpaymentDetected] + [PaymentAwaited];
      IsPath(longer) && Last(longer) == AwaitingPayment && TopUps(longer) == TopUps(log) + 1
  {
    Extend(log, DepositDetected);
    Extend(log + [DepositDetected], UnderpaymentDetected);
    Extend(log + [DepositDetected] + [UnderpaymentDetected], PaymentAwaited);
  }

  lemma {:induction false} RoundsArePaths(k: nat)
    ensures IsPath(Rounds(k)) && Last(Rounds(k)) == AwaitingPayment
    ensures TopUps(Rounds(k)) == k && |Rounds(k)| - 1 == 2 + 3 * k
  {
    if k == 0 {
      Extend([IntentCreated], QuoteGenerated);
      Extend([IntentCreated] + [QuoteGenerated], PaymentAwaited);
      assert Rounds(0) == [IntentCreated] + [QuoteGenerated] + [PaymentAwaited];
    } else {
      RoundsArePaths(k - 1);
      OneRound(Rounds(k - 1));
    }
  }

  lemma Finish(log: seq<EventType>) returns (done: seq<EventType>)
    requires IsPath(log) && Last(log) == Confirming
    ensures IsPath(done) && TopUps(done) == TopUps(log) && |done| == |log| + 3
  {
    Extend(log, RouteSelected);
    Extend(log + [RouteSelected], SettlementInitiated);
    Extend(log + [RouteSelected] + [SettlementInitiated], SettlementConfirmed);
    done := log + [RouteSelected] + [SettlementInitiated] + [SettlementConfirmed];
  }

  /** The bound of PathLength is reached for every number of top-ups. */
  lemma PathLengthReached(k: nat) returns (log: seq<EventType>)
    ensures IsPath(log) && TopUps(log) == k && |log| - 1 == 7 + 3 * k
  {
    RoundsArePaths(k);
    Extend(Rounds(k), DepositDetected);
    Extend(Rounds(k) + [DepositDetected], ConfirmationReceived);
    log := Finish(Rounds(k) + [DepositDetected] + [ConfirmationReceived]);
  }

  /** Nothing follows an event that enters a terminal state. */
  lemma TerminalIsLast(log: seq<EventType>, k: nat)
    requires IsPath(log) && k < |log| && Terminal(Target(log[k]))
    ensures k == |log| - 1
  {
    assert k + 1 < |log| ==> Follows(log, k + 1);
  }

  predicate BeforeConfirmation(s: State) {
    s in {Created, Quoted, AwaitingPayment, Detected, Underpaid, Overpaid, Misdirected}
  }

  /** How often the log enters Settled, by either of the two events that lead there. */
  function Settlements(log: seq<EventType>): nat {
    Count(log, SettlementConfirmed) + Count(log, RefundConfirmed)
  }

  lemma {:induction false} Tallies(log: seq<EventType>)
    requires IsPath(log)
    ensures Count(log, ConfirmationReceived) <= if BeforeConfirmation(Last(log)) then 0 else 1
    ensures Count(log, RouteSelected) <=
            if BeforeConfirmation(Last(log)) || Last(log) == Confirming then 0 else 1
    ensures Count(log, SettlementInitiated) <=
            if BeforeConfirmation(Last(log)) || Last(log) in {Confirming, Routing} then 0 else 1
    ensures Settlements(log) == if Last(log) == Settled then 1 else 0
    ensures Count(log, DepositDetected) + (if Last(log) == AwaitingPayment then 1 else 0)
            <= Count(log, PaymentAwaited)
  {
    if |log| > 1 {
      PathPrefix(log);
      Tallies(log[..|log| - 1]);
    } else {
      assert log == [IntentCreated] && log[..|log| - 1] == [];
      assert forall e :: Count(log, e) == if e == IntentCreated then 1 else 0;
    }
  }

  /** Exactly-once effect, read off the log: whatever was delivered or replayed, a log that
      follows the table confirms, routes, settles and completes at most once, and never
      detects more deposits than it awaited. */
  lemma ExactlyOnce(log: seq<EventType>)
    requires IsPath(log)
    ensures Count(log, ConfirmationReceived) <= 1
    ensures Count(log, RouteSelected) <= 1
    ensures Count(log, SettlementInitiated) <= 1
    ensures Settlements(log) <= 1
    ensures Count(log, DepositDetected) <= Count(log, PaymentAwaited)
  {
    Tallies(log);
  }
}
