# Verification of a crypto payment gateway

A Dafny model of the gateway's deposit pipeline, its settlement saga and ledger, and its small
stateful components, with proofs of what they keep over every run. `dafny verify dfyconfig.toml`
checks all of it.

**The deposit pipeline.** A chain client delivers transfers at least once; the deposit watcher turns
each into a job under an idempotency key; workers claim, retry, dead-letter and reclaim jobs; handlers
advance a payment intent through a versioned, event-logged state machine; a confirmation tracker reads
the log and the chain and enqueues confirmations.

- `IntentStates`, `IntentStore`, `IntentService`, `JobHandlers`: the transition table, the repository's
  transactions, the service's calls and the two handlers.
- `JobTable`, `Backoff`, `JobQueue`: the jobs table with its SQL statements, and the queue class.
  `QueueProtocol`, `Overtaking`, `Draining` prove the queue's properties over runs.
- `IdempotencyKeys`, `DepositWatcher`, `ConfirmationTracker`, `EvmChainClient`: keys, subscriptions,
  sweeps and block polling. `Attribution` follows a transfer from the client to the watcher's look-up.
- `Pipeline`, `PipelineTheorems`, `PipelineRuns`: everything interleaved, what no run can violate, and
  runs that show what can happen.

**Settlement.** `Ledger`, `Settlement`, `Reconciliation`: double entry, the saga under a fault at any
step, and the checks that recompute it.

**Components that refine a simpler specification.** `CircuitBreaker` (a function of its completion
history), `VelocityChecker` (the full history, filtered), `RiskScorer` and `ComplianceGate` (cached
against fresh), `PriceOracle` (the upper median).

How it is modelled. Each SQL statement or transaction is one atomic step; a procedure of several
statements can be interrupted between any two. The clock never goes back. A row's position in the jobs
and settlements tables stands for its id, since rows are never deleted. Chains, providers, webhooks,
random draws and clock readings are parameters that may take any value. Amounts, prices and scores are
exact reals. A thrown error is an `Err`, `None` or `false` result, and every error path is kept. In
`Pipeline` what a procedure read earlier is a recorded fact that may be used at any later time, and a
worker holding a record job may commit any of the five events `recordDeposit` can write: the theorems
hold of more runs than the program has.

## What the proofs found

- A top-up never completes an underpaid intent: `recordDeposit` from UNDERPAID always throws, and from
  AWAITING_PAYMENT an amount out of tolerance throws too (`TopUpNeverRecorded`,
  `OutOfToleranceKeepsAwaiting`).
- `complete` and `fail` check neither status nor lock, and claims do not check the attempt limit: a late
  worker can dead-letter a job that succeeded, and attempts can pass the limit, by one for each reclaim
  and no further (`LateWorkerOverturns`, `FinishedIsFinal`, `AttemptsBounded`, `AttemptsReached`).
- A negative delay lets a new or retried job overtake waiting ones (`EnqueueJumpsAhead`,
  `RetryJumpsAhead`).
- Re-delivery is not always free: a transfer delivered again after it was credited finds nobody awaiting,
  and is filed once more as unattributed (`RedeliveryAddsRow`, `RowsOfTransfer`).
- Workers that poll the `default` queue, as the composed worker does, never record or confirm a deposit
  (`OtherQueuesDoNothing`).
- The confirm key has no intent id: of two intents paid by one transaction only one gets a confirm job,
  and the other is never confirmed (`TwoIntentsOneTransaction`, `SecondIntentIsNeverConfirmed`).
- While the first `startPolling` awaits, every further `watchDeposits` starts another; one whose answer is
  ahead makes the client jump over blocks nobody looks at (`SecondStartLosesBlocks`, `StartAnswered`).
- A first `start` of the deposit watcher that fails leaves it started without a timer, and later starts do
  nothing (`FailedStartSticks`).
- `updateQuote` has no state guard, so a late quote can move an intent's deposit chain after the deposit
  was seen; only that can (`LateQuoteMisplaces`, `OnlyQuotesMoveTheChain`, `ConfirmedOnOwnChain`).
- Token recipients are lower-cased and native ones are not, while the look-up compares exactly: where the
  provider spells an address in mixed case no stored spelling serves both (`NoSpellingServesBoth`).
- Deposits and settlements both debit the pending account, so escrow is never released; the ledger's
  consistency check passes on any ledger (`EscrowNeverReleased`, `VerifyConsistency`). Statements that
  share an endpoint count it twice (`ClosingsAdd`).
- A FAILED settlement may have been paid (`FailedMayBePaid`). Lost replies and a lost compensation can
  separate settlement entries from completed settlements, exactly under `Unbalancing` faults
  (`CallBalances`); reconciliation notices one of the two directions (`HalfOfTheImbalanceIsSeen`).
- An intent can be paid twice after a failure, but not without the duplicate check raising it
  (`DoublePaymentIsRaised`).
- Below 0.00005 the amount check can raise a false alarm (`RaisedWhenRoundingShows`,
  `JustBelowIsRaised`).
- A clock that steps ahead and back makes the velocity window forget records that are recent again
  (`WindowIsHistory`, `ClockStepLosesRecords`).
- A breaker whose last failure was at time zero never recovers by itself (`RecoversUnlessAtZero`).
- With a negative weight a cached risk result can refuse as sanctioned what a fresh one allows
  (`NegativeWeightMisleads`), and spellings of an address that differ in case share a cache entry but not
  a score (`SpellingsShareAnEntry`). Manual blocks are not consulted for transactions.

## Model

| member | source | states |
|---|---|---|
| IntentStates.PathLength | packages/shared/src/types/payment-intent.ts:28-43 | a log that follows the transition table and tops up k times has at most 7 + 3k transitions |
| IntentStates.PathLengthReached | packages/shared/src/types/payment-intent.ts:28-43 | for every k some log reaches that bound |
| IntentStates.TerminalIsLast | packages/shared/src/types/payment-intent.ts:28-43 | nothing follows an event that enters a terminal state |
| IntentStates.ExactlyOnce | packages/shared/src/types/payment-intent.ts:28-43 | a log that follows the table confirms, routes, initiates settlement and settles at most once and detects no more deposits than it awaited |
| IntentStates.Tallies | packages/shared/src/types/payment-intent.ts:28-43 | how many of these events a log can hold by the state it ends in |
| IntentStates.Predecessors | packages/shared/src/types/payment-intent.ts:28-43 | from which states each state can be entered: all but DETECTED and the terminal ones may fail, only the first three expire, only misfits are refunded |
| IntentStates.EventsInto | packages/payment-intent/src/payment-intent.repository.ts:355-374 | which events lead into each state: two into SETTLED, one into any other |
| IntentStore.IntentRepository.CreateIntent | packages/payment-intent/src/payment-intent.repository.ts:23-61 | row and creation event are written together, or nothing for a known id |
| IntentStore.IntentRepository.TransitionIntent | packages/payment-intent/src/payment-intent.repository.ts:63-114 | succeeds exactly when the table allows the event's target, then bumps the version and appends one event with it; otherwise the named error and no change |
| IntentStore.IntentRepository.UpdateIntentQuote | packages/payment-intent/src/payment-intent.repository.ts:218-252 | writes rate, expiry and given deposit fields whatever the state; the state, version and log stay |
| IntentStore.CreateInFull | packages/payment-intent/src/payment-intent.repository.ts:23-61 | each field a new intent is stored with, and its one event |
| IntentStore.TransitionInFull | packages/payment-intent/src/payment-intent.repository.ts:63-114 | an allowed transition changes state, version and time and appends the event with its payload; a refused one changes nothing |
| IntentStore.QuoteInFull | packages/payment-intent/src/payment-intent.repository.ts:218-252 | each field a quote writes, and that state, version and log stay |
| IntentStore.IntentRepository.FindByState | packages/payment-intent/src/payment-intent.repository.ts:160-169 | up to the limit, the rows of the state updated longest ago, each once and in that order |
| IntentStore.IntentRepository.FindAwaitingDepositAt | packages/payment-intent/src/payment-intent.repository.ts:258-269 | the newest quoted, awaiting or underpaid intent at exactly that chain and address, none exactly if there is none |
| IntentStore.IntentRepository.FindAwaitingDeposits | packages/payment-intent/src/payment-intent.repository.ts:277-296 | exactly the intents with a deposit address that are quoted, awaiting or underpaid, each once, oldest first |
| IntentStore.CommitKeepsConsistent | packages/payment-intent/src/payment-intent.repository.ts:63-114 | every transaction keeps each row the replay of its log, versioned 1 to n |
| IntentStore.RunKeepsConsistent | packages/payment-intent/src/payment-intent.repository.ts:23-114 | so does any interleaving of transactions |
| IntentStore.LogsOnlyGrow | packages/payment-intent/src/payment-intent.repository.ts:23-114 | over any interleaving each log is only extended and no intent is lost |
| IntentStore.TerminalForever | packages/payment-intent/src/payment-intent.repository.ts:63-114 | a terminal intent's state, version and log never change again |
| IntentStore.RunIsReplay | packages/payment-intent/src/payment-intent.repository.ts:23-114 | after any run from the empty database every row is its log's replay, of bounded length and with exactly-once effects |
| IntentService.PaymentIntentService.GenerateQuote | packages/payment-intent/src/payment-intent.service.ts:95-149 | only from CREATED, then quote and transition are both committed even if the webhook fails |
| IntentService.PaymentIntentService.AwaitPayment | packages/payment-intent/src/payment-intent.service.ts:154-171 | succeeds exactly from QUOTED or UNDERPAID, with one PAYMENT_AWAITED; an error changes nothing |
| IntentService.PaymentIntentService.DetectDeposit | packages/payment-intent/src/payment-intent.service.ts:230-311 | at most the one event of the verdict on expiry and tolerance is committed, and when the call succeeds or reports expiry |
| IntentService.PaymentIntentService.RecordDeposit | packages/payment-intent/src/payment-intent.service.ts:188-225 | the transactions of a call by state, expiry and amount, and exactly when it returns normally |
| IntentService.PaymentIntentService.ConfirmDeposit | packages/payment-intent/src/payment-intent.service.ts:316-332 | succeeds exactly for a DETECTED intent whose webhook gets through; otherwise the transition is refused |
| IntentService.PaymentIntentService.ProcessExpiredQuotes | packages/payment-intent/src/payment-intent.service.ts:472-490 | expires every overdue intent by one event each and touches no other; the count is how many |
| IntentService.CallEffect | packages/payment-intent/src/payment-intent.service.ts:188-311 | what a recordDeposit call does to state and log: a quoted or awaiting intent takes the verdict if allowed, any other is left alone |
| IntentService.GoodPaymentIsDetected | packages/payment-intent/src/payment-intent.service.ts:188-299 | from QUOTED or AWAITING_PAYMENT, in time and within one percent of the target, the intent ends DETECTED with a last event under the payment's hash, and the call returns exactly if the webhook gets through |
| IntentService.LatePaymentExpires | packages/payment-intent/src/payment-intent.service.ts:188-250 | after the quote ran out any amount ends the intent EXPIRED with a last QUOTE_EXPIRED, and the call returns |
| IntentService.SecondDetection | packages/payment-intent/src/payment-intent.service.ts:230-299 | from DETECTED an amount under 99 percent makes it UNDERPAID, over 101 percent OVERPAID, under the payment's hash; anything else is refused |
| IntentService.SweepInFull | packages/payment-intent/src/payment-intent.service.ts:472-490 | the fields and the event a sweep changes for expired intents, and that all else stays |
| IntentService.DetectedAtMostOnce | packages/payment-intent/src/payment-intent.service.ts:188-311 | any sequence of recordDeposit calls with any amounts and times appends at most one DEPOSIT_DETECTED |
| IntentService.NoEffectAfterReturn | packages/payment-intent/src/payment-intent.service.ts:188-225 | after a call that returned normally all later calls return and change nothing |
| IntentService.OutOfToleranceKeepsAwaiting | packages/payment-intent/src/payment-intent.service.ts:252-311 | an unexpired amount out of tolerance throws and leaves the intent in AWAITING_PAYMENT |
| IntentService.TopUpNeverRecorded | packages/payment-intent/src/payment-intent.service.ts:188-225 | from UNDERPAID every recordDeposit throws and changes nothing |
| JobHandlers.HandleDepositRecord | packages/worker/src/job-handlers.ts:45-65 | a malformed payload throws before any write; otherwise exactly the effect of recordDeposit |
| JobHandlers.HandleDepositConfirm | packages/worker/src/job-handlers.ts:73-84 | a malformed payload throws before any write; otherwise one transition, and failure exactly if it or the webhook fails |
| JobHandlers.RecordNeedsAll | packages/worker/src/job-handlers.ts:22-50 | a record job is accepted exactly with its four non-empty texts and its amount, and hands over hash and amount unchanged |
| JobHandlers.ConfirmNeedsAll | packages/worker/src/job-handlers.ts:73-77 | a confirm job is accepted exactly with its intent and count, and its transaction carries both |
| JobHandlers.ConfirmOnce | packages/worker/src/job-handlers.ts:73-84 | once an intent was confirmed, no confirm job of it ever changes the store again, whatever happened in between |
| Backoff.BackoffRange | packages/worker/src/job-queue.ts:93-102 | the delays a draw from [0, 1) can give are exactly the integers from half up to twice half of the capped exponential |
| Backoff.DelayBounds | packages/worker/src/job-queue.ts:93-102 | every such delay is at least 1 and within the ceiling and the uncapped exponential |
| Backoff.DelayTracksExponential | packages/worker/src/job-queue.ts:93-102 | every draw gives between half of base times 2^(n-1) and the whole of it while that is under the ceiling, and between half the ceiling and the ceiling from then on |
| Backoff.NeverShorter | packages/worker/src/job-queue.ts:93-102 | below the ceiling no delay is shorter than the one before, whatever the draws |
| Backoff.FourthDelay | packages/worker/src/job-queue.ts:93-102 | with base 1000 and ceiling 300000 the fourth delay is between 4000 and 8000 milliseconds |
| Backoff.WithinCeiling | packages/worker/src/job-queue.ts:93-102 | in no configuration does a delay pass the ceiling (or one millisecond without one) |
| Backoff.TotalDelayBound | packages/worker/src/job-queue.ts:93-102 | n retries wait at most n ceilings and at most base times 2^n - 1 in all |
| Backoff.TotalDelayAtLeast | packages/worker/src/job-queue.ts:93-102 | below the ceiling n retries wait at least half of base times 2^n - 1, but for rounding |
| JobQueues.JobQueue.RegisterHandler | packages/worker/src/job-queue.ts:148-153 | a second handler of a type is refused and changes nothing |
| JobQueues.JobQueue.Enqueue | packages/worker/src/job-queue.ts:164-196 | one row per idempotency key, ever, with the given options or their defaults; tells whether it made one |
| JobQueues.JobQueue.ClaimBatch | packages/worker/src/job-queue.ts:204-225 | the due rows of the queue due first, up to the limit, each once, locked and with one attempt more; no other row changes |
| JobQueues.JobQueue.CompleteJob | packages/worker/src/job-queue.ts:228-236 | the row becomes SUCCEEDED and unlocked whatever it was |
| JobQueues.JobQueue.FailJob | packages/worker/src/job-queue.ts:244-274 | dead-lettered exactly if the record's own attempt number reached the limit, else pending again after the delay |
| JobQueues.JobQueue.ReclaimStale | packages/worker/src/job-queue.ts:280-291 | exactly the running rows locked longer than the timeout become pending and due now, and how many |
| JobTable.ReclaimedAfterTimeout | packages/worker/src/job-queue.ts:204-225 | a job claimed at one time is reclaimed exactly once more than the timeout has passed, due at once, with its attempts counted; no row that is not running is touched |
| JobTable.ClaimInFull | packages/worker/src/job-queue.ts:204-225 | each field a claim sets, and that identity, limit and due time stay |
| JobTable.ReportInFull | packages/worker/src/job-queue.ts:228-274 | a report sets status and time and unlocks one row; attempts and identity stay |
| JobTable.InsertInFull | packages/worker/src/job-queue.ts:164-196 | a free key gets one pending row without attempts, due after its delay; a taken one changes nothing |
| JobTable.BatchInFull | packages/worker/src/job-queue.ts:204-225 | a batch holds only pending due rows of the queue, and passes one over only if it is full of rows due no later |
| JobQueues.JobQueue.RunOnce | packages/worker/src/job-queue.ts:298-323 | one batch is claimed, each job of it ends as handler and limit say, a retry is due one backoff of its attempt after its report, and no other row changes |
| JobQueues.CycleInFull | packages/worker/src/job-queue.ts:298-323 | a claimed job succeeds exactly if its handler did, is dead-lettered exactly without a handler or at its limit, and otherwise waits a backoff of its attempt; no other row changes |
| JobQueues.JobQueue.Stats | packages/worker/src/job-queue.ts:345-360 | counts by status that add up to the table |
| JobQueues.EveryRowIsCounted | packages/worker/src/job-queue.ts:345-360 | every row is counted under exactly one status |
| JobQueues.CountsRows | packages/worker/src/job-queue.ts:345-360 | each count is the number of rows with that status |
| QueueProtocol.RunKeepsInvariant | packages/worker/src/job-queue.ts:164-291 | with any workers, crashes, reclaims and late reports, claims are numbered in order and every pending state is paid for by a retry or a reclaim |
| QueueProtocol.AttemptsBounded | packages/worker/src/job-queue.ts:204-291 | a job's attempts never exceed its limit (at least 1) plus its reclaims, and its claims carry the numbers 1, 2, 3, ... |
| QueueProtocol.AttemptsReached | packages/worker/src/job-queue.ts:204-291 | for every limit and every number of reclaims some run reaches exactly that many attempts |
| QueueProtocol.LateWorkerOverturns | packages/worker/src/job-queue.ts:228-291 | for every limit and every number of reclaims a reachable run meets that bound, succeeds in the latest attempt, and is dead-lettered by the late report of an earlier one |
| QueueProtocol.FinishedIsFinal | packages/worker/src/job-queue.ts:228-270 | a finished row can still change exactly while some worker holds one of its attempts |
| QueueProtocol.DelaysBounded | packages/worker/src/job-queue.ts:93-102 | over any run the delays between the first n attempts total at most n-1 ceilings and at most base times 2^(n-1) - 1 |
| QueueProtocol.DelaysAtLeast | packages/worker/src/job-queue.ts:93-102 | over any run the first n-1 attempts, if all were rescheduled by backoff below the ceiling, waited at least that long |
| QueueProtocol.OneJobPerKey | packages/worker/src/job-queue.ts:164-196 | in every reachable table no two rows share a key |
| Overtaking.NobodyJumpsAhead | packages/worker/src/job-queue.ts:204-291 | no step without a report of the job itself or a negative delay, of an enqueue or a retry, puts a job ahead of one already due |
| Overtaking.EnqueueJumpsAhead | packages/worker/src/job-queue.ts:164-196 | an enqueue puts a job ahead exactly if its key is new, its queue the same and its time no later |
| Overtaking.RetryJumpsAhead | packages/worker/src/job-queue.ts:244-274 | a failed attempt whose caller names the delay gets ahead exactly if it may be retried, its queue is the same and its new time no later |
| Overtaking.BatchTakesFromAhead | packages/worker/src/job-queue.ts:204-225 | a batch that passes a due job over is full and taken wholly from the jobs ahead of it |
| Overtaking.RoomBounded | packages/worker/src/job-queue.ts:204-225 | an unclaimed due job has seen claims with room for at most the jobs ahead of it, whatever their limits |
| Overtaking.ClaimedWithin | packages/worker/src/job-queue.ts:204-225 | a due job is claimed within floor(ahead / limit) + 1 batches of its queue |
| Draining.CycleSpendsBudget | packages/worker/src/job-queue.ts:298-323 | each claim of a lone worker uses up one remaining attempt and none is gained |
| Draining.CycleMakesProgress | packages/worker/src/job-queue.ts:298-323 | a cycle with room claims something exactly when some job of the queue is due, and an idle one changes nothing |
| Draining.DueOrDrained | packages/worker/src/job-queue.ts:204-225 | with everything pending due, something is due exactly until all is finished |
| Draining.ReclaimLeavesRest | packages/worker/src/job-queue.ts:280-291 | the reclaim before each cycle of a lone worker finds nothing to reclaim |
| Draining.Drains | packages/worker/src/job-queue.ts:244-343 | with one live worker, however many cycles are idle: the claims never exceed the sum of the limits nor fall short of the cycles with something due; after that many cycles with everything due, whatever the others, every job has succeeded or is dead-lettered, and no row is lost |
| Draining.DrainsInTime | packages/worker/src/job-queue.ts:244-343 | a worker that polls at least every so often finishes everything in bounded time: one interval and one backoff for each attempt the limits allow, and one interval more |
| IdempotencyKeys.JoinIsInjective | packages/worker/src/deposit-watcher.ts:51-60 | colon-joined colon-free fields determine the fields |
| IdempotencyKeys.DepositKeyIdentifies | packages/worker/src/deposit-watcher.ts:51-60 | transfers share a key exactly if they agree on every field up to letter case |
| IdempotencyKeys.ColonFreeKeyIsOwn | packages/worker/src/deposit-watcher.ts:51-60 | the key of a transfer without colons is shared exactly with itself up to letter case, whatever the other's fields hold |
| IdempotencyKeys.KeyKindsDisjoint | packages/worker/src/deposit-watcher.ts:195-222 | deposit, unattributed and confirm keys never meet |
| IdempotencyKeys.ConfirmKeyIdentifies | packages/worker/src/confirmation-tracker.ts:141 | confirm keys agree exactly on equal chain and hash |
| IdempotencyKeys.ColonsCollide | packages/worker/src/deposit-watcher.ts:51-60 | with chain and amount in lower case, a key is shared by transfers that differ beyond letter case exactly if a field holds a colon |
| IdempotencyKeys.UpperCaseStands | packages/worker/src/deposit-watcher.ts:51-60 | lower case is needed: a chain whose one colon precedes an upper-case letter shares its keys with no other |
| IdempotencyKeys.KeysInFull | packages/worker/src/deposit-watcher.ts:51-60 | the three keys, written out |
| IdempotencyKeys.LowerFolds | packages/worker/src/deposit-watcher.ts:51-60 | lower case is equal exactly for strings that differ at most in the case of letters |
| ConfirmationTrackers.ConfirmationTracker.FindDepositTxHash | packages/worker/src/confirmation-tracker.ts:168-177 | the latest non-empty hash of a DEPOSIT_DETECTED event, none exactly if there is none |
| ConfirmationTrackers.LatestHashCounts | packages/worker/src/confirmation-tracker.ts:168-177 | a later detection with a hash takes over; any other event leaves the hash |
| ConfirmationTrackers.ConfirmationTracker.Examine | packages/worker/src/confirmation-tracker.ts:79-148 | enqueues the confirm job exactly if the intent's own configured chain reports its deposit, not failed, at depth |
| ConfirmationTrackers.ConfirmationTracker.RunOnce | packages/worker/src/confirmation-tracker.ts:74-152 | a sweep adds only justified confirm jobs, and every ready intent it examined has a job under its transaction's key |
| DepositWatchers.DepositWatcher.RefreshChain | packages/worker/src/deposit-watcher.ts:123-150 | the chain's map holds exactly the wanted addresses, kept ones with their handle, other chains untouched |
| DepositWatchers.DepositWatcher.Refresh | packages/worker/src/deposit-watcher.ts:111-152 | after a refresh every configured chain is subscribed to exactly the addresses at which intents in the repository await a deposit there; kept addresses keep their handle, other chains are untouched; if the query fails nothing changes |
| DepositWatchers.WantedInFull | packages/worker/src/deposit-watcher.ts:112-120 | an address is wanted exactly if it is given and a quoted, awaiting or underpaid intent is to be paid there |
| DepositWatchers.DepositWatcher.Start | packages/worker/src/deposit-watcher.ts:89-103 | a second start does nothing; the first subscribes to everything awaited and sets the timer if the query succeeds, and otherwise leaves the watcher started with neither |
| DepositWatchers.FailedStartSticks | packages/worker/src/deposit-watcher.ts:89-103 | after a first start that failed, a later start neither subscribes nor sets the timer |
| DepositWatchers.DepositWatcher.Stop | packages/worker/src/deposit-watcher.ts:158-172 | afterwards every handle ever issued was unsubscribed exactly once |
| DepositWatchers.DepositWatcher.OnDeposit | packages/worker/src/deposit-watcher.ts:189-235 | a transfer becomes one keyed job: of the newest intent awaiting there, else an unattributed one; subscriptions stay |
| DepositWatchers.JobsInFull | packages/worker/src/deposit-watcher.ts:196-235 | type, queue and payload of the two kinds of job |
| DepositWatchers.DeliveredOnce | packages/worker/src/deposit-watcher.ts:189-235 | a delivery adds a row exactly if the key of its own look-up is free; a second delivery adds a second row exactly if its look-up comes out the other way, intent against nobody, and that key is free too |
| PipelineTheorems.KeyIsEnqueued | packages/worker/src/job-queue.ts:164-196 | over every run a key is in the table exactly if something was once enqueued under it |
| PipelineTheorems.RowsOfTransfer | packages/worker/src/deposit-watcher.ts:189-235 | over every run a transfer has one row for all look-ups that found an intent and one for all that found nobody: two rows exactly if there were both |
| PipelineRuns.RedeliveryAddsRow | packages/worker/src/deposit-watcher.ts:189-235 | a reachable run delivers a credited transfer again and files it as unattributed |
| EvmChainClients.EvmChainClient.WatchDeposits | packages/chain-abstraction/src/evm/evm-chain-client.ts:326-339 | the listener is added under the lower-cased address; one more start is made unless a timer is set, even if one is pending |
| EvmChainClients.EvmChainClient.Unsubscribe | packages/chain-abstraction/src/evm/evm-chain-client.ts:342-354 | only this listener goes; polling stops exactly when no address is watched |
| EvmChainClients.EvmChainClient.StartAnswered | packages/chain-abstraction/src/evm/evm-chain-client.ts:359-374 | polling runs from the answered height, or the old one if the provider failed; from the first start on, a complete client stays complete exactly if it has looked at every block the answer jumps over |
| EvmChainClients.EvmChainClient.BeginPoll | packages/chain-abstraction/src/evm/evm-chain-client.ts:376-380 | a poll begins right above the last block, only if there are new ones |
| EvmChainClients.EvmChainClient.BlockAnswered | packages/chain-abstraction/src/evm/evm-chain-client.ts:380-383 | a block the provider lacks counts as absent, an empty one is recorded as scanned, any other is read transaction by transaction for whoever watches from here on; a failure ends the poll and records nothing |
| EvmChainClients.EvmChainClient.TxAnswered | packages/chain-abstraction/src/evm/evm-chain-client.ts:384-418 | every watcher of an involved address gets the native transfer at once; a missing transaction is passed over, a failure ends the poll and delivers nothing; no other scan record changes |
| EvmChainClients.EvmChainClient.ReceiptAnswered | packages/chain-abstraction/src/evm/evm-chain-client.ts:420-460 | every watcher of a recipient gets each token transfer, up to one that does not decode, which ends the poll; a block is recorded as scanned, with its steady watchers and all answers, only after its last transaction |
| EvmChainClients.EvmChainClient.FinishPoll | packages/chain-abstraction/src/evm/evm-chain-client.ts:463-464 | the last block is set to the poll's end; every block from the first start up to it was scanned, was absent, or was jumped over by a later start; and whoever watched throughout a block's scan heard everything in it |
| EvmChainClients.OnlySkippedAreMissed | packages/chain-abstraction/src/evm/evm-chain-client.ts:359-464 | the client has looked at every block above its first start exactly if its height passes no jumped-over block it did not look at later |
| EvmChainClients.SecondStartLosesBlocks | packages/chain-abstraction/src/evm/evm-chain-client.ts:326-374 | two watches before the first answer start polling twice, and if the second answer is higher the blocks in between are never looked at though a listener polls |
| EvmChainClients.HeardFromTx | packages/chain-abstraction/src/evm/evm-chain-client.ts:384-460 | whatever a transaction has to deliver is delivered with its block |
| EvmChainClients.HeardOnlyFromTx | packages/chain-abstraction/src/evm/evm-chain-client.ts:384-460 | every delivery of a block comes from one of its transactions |
| EvmChainClients.WatchersHear | packages/chain-abstraction/src/evm/evm-chain-client.ts:388-460 | every listener of an address hears of each native or token transfer to it in the block |
| EvmChainClients.NativeIsTold | packages/chain-abstraction/src/evm/evm-chain-client.ts:392-418 | every listener of sender or recipient is told the transaction's hash and value, the native asset and the recipient, the zero address if none |
| EvmChainClients.TokenIsTold | packages/chain-abstraction/src/evm/evm-chain-client.ts:420-460 | every listener of the recipient is told the transaction's hash, the token, the decoded amount and the lower-cased recipient |
| EvmChainClients.OnlyNewsIsTold | packages/chain-abstraction/src/evm/evm-chain-client.ts:384-460 | every delivery of a block is such news, to someone who watches an address it concerns |
| Attribution.TokenAttribution | packages/payment-intent/src/payment-intent.repository.ts:258-269 | a token transfer finds its intent exactly if the stored address is in lower case |
| Attribution.NativeAttribution | packages/payment-intent/src/payment-intent.repository.ts:258-269 | a native transfer finds its intent exactly if the address is stored as the provider spells it |
| Attribution.NoSpellingServesBoth | packages/chain-abstraction/src/evm/evm-chain-client.ts:388-445 | a listener hears both kinds of transfer, but both find the intent only if provider and row use lower case |
| Pipeline.RecordCommitIsMove | packages/worker/src/job-handlers.ts:45-65 | whatever row the record handler finds, each commit it makes is a move of the pipeline |
| Pipeline.WatchedPaymentIsDetected | packages/worker/src/job-handlers.ts:45-65 | the job the watcher makes of a good transfer detects it under its own hash, from payload to log |
| Pipeline.ReadyIsJustified | packages/worker/src/confirmation-tracker.ts:79-148 | once row, hash and answer are read, the tracker's test is exactly the one of depth and failure that a confirmation needs |
| Pipeline.ReachIsSound | packages/worker/src/job-queue.ts:14-15 | in every reachable world every job and event is traced to observations and every row is its log's replay |
| PipelineTheorems.ConfirmationSafety | packages/worker/src/confirmation-tracker.ts:74-177 | every CONFIRMATION_RECEIVED carries a count at the chain's depth, reported earlier as not failed, for a hash detected earlier in that intent's own log and delivered to an address it awaited at |
| PipelineTheorems.ExactlyOnceEffect | packages/worker/src/job-queue.ts:14-15 | over every run with repeats, crashes and late workers, each intent confirms, routes and settles at most once and detects no more often than it awaited |
| PipelineTheorems.ConfirmedOnOwnChain | packages/worker/src/confirmation-tracker.ts:79-150 | unless a quote moves this intent's chain after it left CREATED, the depth met is that of its present deposit chain, and the transfer came in on it; other quotes do not matter |
| PipelineRuns.LateQuoteMisplaces | packages/payment-intent/src/payment-intent.repository.ts:218-252 | such a quote between claim and confirmation leaves the intent confirmed by one chain's depth while its row names any other |
| PipelineTheorems.OnlyQuotesMoveTheChain | packages/payment-intent/src/payment-intent.repository.ts:218-252 | the deposit chain of an intent changes exactly by a quote for another chain |
| PipelineTheorems.SecondIntentIsNotEnqueued | packages/worker/src/confirmation-tracker.ts:138-147 | once a transaction has a confirm job, enqueueing it for any other intent never changes anything |
| PipelineTheorems.ConfirmationHasJob | packages/worker/src/job-handlers.ts:73-84 | over every run each confirmation comes with the job under its transaction's key, which names the intent and carries the count |
| PipelineTheorems.OneIntentPerTransaction | packages/worker/src/confirmation-tracker.ts:138-147 | no transaction ever confirms two intents |
| PipelineTheorems.SecondIntentIsNeverConfirmed | packages/worker/src/confirmation-tracker.ts:138-147 | an intent whose only detected hash belongs to another intent's confirm job is never confirmed, unless a quote moves its chain |
| PipelineRuns.TwoIntentsOneTransaction | packages/worker/src/deposit-watcher.ts:189-235 | a reachable world has two intents DETECTED by one transaction |
| PipelineTheorems.OtherQueuesDoNothing | packages/worker/src/composition.ts:149 | workers that never poll the deposits queue leave all its jobs untouched and no log with a detection or confirmation |
| PipelineRuns.ConfirmationReachable | packages/worker/src/confirmation-tracker.ts:74-152 | on the deposits queue, for every configured chain and count at its depth, a run from nothing ends in a confirmation |
| CircuitBreakers.CircuitBreaker.Begin | packages/routing-engine/src/circuit-breaker.ts:46-53 | a call is rejected exactly if the history says OPEN, with exactly the wait left |
| CircuitBreakers.CircuitBreaker.GetState | packages/routing-engine/src/circuit-breaker.ts:68-74 | the state the completion history and the clock determine |
| CircuitBreakers.CircuitBreaker.OnFailure | packages/routing-engine/src/circuit-breaker.ts:104-111 | keeps the breaker a function of its history when any call in flight fails, in any state |
| CircuitBreakers.CircuitBreaker.OnSuccess | packages/routing-engine/src/circuit-breaker.ts:95-99 | keeps it so when any call in flight succeeds |
| CircuitBreakers.CircuitBreaker.Reset | packages/routing-engine/src/circuit-breaker.ts:86-90 | keeps it so on a reset |
| CircuitBreakers.RetryAfterIsExact | packages/routing-engine/src/circuit-breaker.ts:116-128 | with no completion in between the breaker is open for exactly the wait it reported |
| CircuitBreakers.RecoversUnlessAtZero | packages/routing-engine/src/circuit-breaker.ts:116-119 | a tripped breaker is open at all times exactly if its last failure was at time zero |
| CircuitBreakers.HalfOpenDecides | packages/routing-engine/src/circuit-breaker.ts:46-66 | from half-open a success closes and a failure reopens for the full timeout |
| CircuitBreakers.ClosedIff | packages/routing-engine/src/circuit-breaker.ts:104-111 | a run of failures after a success leaves it closed exactly below the threshold |
| CircuitBreakers.StateInNumbers | packages/routing-engine/src/circuit-breaker.ts:68-128 | after a run of failures: closed below the threshold, then open until the timeout after the last one and half-open from then on, with the wait left |
| Ledger.BalancesSumToZero | packages/settlement/src/ledger.repository.ts:100-114 | over any list holding each account once, the balances of an asset sum to zero |
| Ledger.ClosingIsSumOfBalances | packages/settlement/src/ledger.service.ts:194-222 | a statement over all time closes at the sum of the account's balances over its assets |
| Ledger.ClosingsAdd | packages/settlement/src/ledger.repository.ts:80-98 | two statements that share an instant count exactly that instant twice |
| Ledger.ClosingsAddUp | packages/settlement/src/ledger.repository.ts:80-98 | over disjoint adjacent periods closing balances add up |
| Ledger.EscrowNeverReleased | packages/settlement/src/ledger.service.ts:73-134 | an intent's pending balance is the sum of its deposits and settlements |
| Ledger.BalanceIsSumOfMovements | packages/settlement/src/ledger.service.ts:73-178 | every account's balance over any recorded movements: pending is deposits and settlements, a merchant fees and refunds less settlements, a customer minus deposits and refunds, fee revenue minus the fees, FX accounts gains less losses and the reverse |
| Ledger.EntryInFull | packages/settlement/src/ledger.service.ts:73-178 | kind, intent, amount and time of the entry each movement records |
| Ledger.OneEntryMore | packages/settlement/src/ledger.repository.ts:80-114 | one more entry adds its debits and takes off its credits, to a balance of its asset and to a statement of its period, both ends included |
| Ledger.LedgerRepository.FindByAccount | packages/settlement/src/ledger.repository.ts:80-94 | exactly the account's entries in the period, oldest first, with the closing balance of the whole ledger |
| Ledger.LedgerRepository.GetBalance | packages/settlement/src/ledger.repository.ts:100-114 | debits less credits of that asset |
| Ledger.LedgerRepository.VerifyConsistency | packages/settlement/src/ledger.repository.ts:147-173 | passes with difference zero on any ledger whatever |
| Ledger.LedgerService.Record | packages/settlement/src/ledger.service.ts:73-178 | each of the five movements appends its one entry and changes no other |
| Ledger.LedgerService.GetStatement | packages/settlement/src/ledger.service.ts:194-222 | totals whose difference is the closing balance over the whole ledger |
| Settlement.SettlementService.WaitForConfirmation | packages/settlement/src/settlement.service.ts:180-204 | passes exactly if some poll in time finds the depth before any poll throws or finds a failure below it |
| Settlement.FirstPollDecides | packages/settlement/src/settlement.service.ts:180-204 | the first poll decides by time, error, depth and then failure, or leaves it to the rest |
| Settlement.SettlementService.SettleIntent | packages/settlement/src/settlement.service.ts:53-112 | for every fault point, exactly which rows and entries a call leaves behind and whether it returns |
| Settlement.SettlementService.HandleSettlementFailure | packages/settlement/src/settlement.service.ts:230-252 | the row becomes FAILED if that write gets through, and nothing else changes |
| Settlement.SettlementService.RetrySettlement | packages/settlement/src/settlement.service.ts:117-130 | marks exactly FAILED or RETRYING settlements; others are refused unchanged |
| Settlement.SettlementRepository.Update | packages/settlement/src/settlement.repository.ts:77-116 | only the given columns of an existing row change |
| Settlement.WritesInFull | packages/settlement/src/settlement.repository.ts:77-116 | only given columns change, and a retry sets RETRYING on FAILED and RETRYING rows alone |
| Settlement.RoundingError | packages/settlement/src/ledger.service.ts:246-249 | the settlement amount is within half of 1e-8 of target times (1 - fee/100) |
| Settlement.SuccessAddsUp | packages/settlement/src/settlement.service.ts:75-105 | a call that returns leaves one COMPLETED row with a hash, and a positive fee's entries sum exactly to the target |
| Settlement.RowInFull | packages/settlement/src/settlement.service.ts:53-110 | the fields of the row any call leaves, and hash and completion time of one that returns |
| Settlement.SuccessInTheBooks | packages/settlement/src/settlement.service.ts:75-105 | a call that returns adds the amount to pending, credits the merchant with it less the fee, and credits the fee to revenue |
| Settlement.WithoutCompensation | packages/settlement/src/settlement.service.ts:53-112 | with the FAILED write refused the row stays at the last status that was written |
| Settlement.CallBalances | packages/settlement/src/settlement.service.ts:53-112 | a call's settlement entries equal its completed rows exactly unless its faults are unbalancing |
| Settlement.CompensationIsComplete | packages/settlement/src/settlement.service.ts:230-252 | with the FAILED write through, a failed call leaves a FAILED row, and no settlement entry exactly unless that entry was reached and lost its reply |
| Settlement.FailedMayBePaid | packages/settlement/src/settlement.service.ts:53-112 | from the step a call stopped at: whether it fails, and whether its FAILED row stands for a payment that was submitted, that reached its depth, and whose hash the row knows |
| Settlement.EntriesMatchCompleted | packages/settlement/src/settlement.service.ts:53-130 | over any run of settlements, retries and other movements without unbalancing faults, an intent's settlement entries equal its completed settlements |
| Reconciliation.CheckAmountMismatches | packages/reconciliation/src/reconciliation.service.ts:205-247 | one discrepancy for each completed settlement in the period off by more than a ten-thousandth, in order, and for no other |
| Reconciliation.MismatchInNumbers | packages/reconciliation/src/reconciliation.service.ts:205-247 | completed in the period, both ends included, and off target times (1 - fee/100) by more than a ten-thousandth; high, with the shortfall |
| Reconciliation.NoneMissing | packages/reconciliation/src/reconciliation.service.ts:177-203 | nothing is raised exactly if every intent SETTLED in the period has a settlement row |
| Reconciliation.MissingInFull | packages/reconciliation/src/reconciliation.service.ts:177-203 | which intents are raised, and that it is high |
| Reconciliation.CheckFxGainLoss | packages/reconciliation/src/reconciliation.service.ts:304-342 | raises once, exactly if there is volume and the lesser of gains and losses is under nine elevenths of the greater |
| Reconciliation.FxTotalAdds | packages/reconciliation/src/reconciliation.service.ts:304-325 | only FX entries of the period that debit the account count |
| Reconciliation.DuplicatesAreTwoRows | packages/reconciliation/src/reconciliation.service.ts:249-274 | an intent is raised exactly if two of its settlements were created in the period |
| Reconciliation.DuplicatesInFull | packages/reconciliation/src/reconciliation.service.ts:249-274 | a duplicate is critical and tells how many settlements there are too many |
| Reconciliation.MissingLedgerEntries | packages/reconciliation/src/reconciliation.service.ts:276-302 | raises nothing exactly if every settlement completed in the period has a settlement entry |
| Reconciliation.UnrecordedInFull | packages/reconciliation/src/reconciliation.service.ts:276-302 | completed in the period, both ends included, without any settlement entry of its intent |
| Reconciliation.BuildDiscrepancySummary | packages/reconciliation/src/reconciliation.service.ts:595-610 | the maps count exactly what occurs as often as it occurs, and the criticals are all the critical ones |
| Reconciliation.RunReconciliation | packages/reconciliation/src/reconciliation.service.ts:62-104 | the five checks pass exactly on a period that is clean for each of them; the summary counts what they raise by kind and severity and lists the criticals |
| Reconciliation.RaisedWhenRoundingShows | packages/reconciliation/src/reconciliation.service.ts:226-236 | a settlement priced by the service is raised exactly if rounding moved it by more than a ten-thousandth |
| Reconciliation.AcceptedWhenLargeEnough | packages/reconciliation/src/reconciliation.service.ts:226-236 | none of at least 0.00005 is raised |
| Reconciliation.JustBelowIsRaised | packages/reconciliation/src/reconciliation.service.ts:226-236 | the bound is tight: 0.000049995 is raised |
| Reconciliation.NothingUnrecorded | packages/reconciliation/src/reconciliation.service.ts:276-302 | without unbalancing faults the ledger check raises nothing, however often an intent is settled |
| Reconciliation.SettlementReconciles | packages/reconciliation/src/reconciliation.service.ts:205-302 | settled once per intent, under the terms on file, with no unbalancing faults and not in dust, every period is clean |
| Reconciliation.HalfOfTheImbalanceIsSeen | packages/reconciliation/src/reconciliation.service.ts:276-302 | of the unbalancing faults the checks raise exactly those whose FAILED write was lost, and nothing of the others |
| Reconciliation.DoublePaymentIsRaised | packages/reconciliation/src/reconciliation.service.ts:249-274 | over any run, whatever became of two calls that both paid for one intent, the duplicate check raises it in every period that covers them |
| VelocityCheckers.VelocityChecker.CheckVelocity | packages/compliance/src/velocity-checker.ts:57-120 | the window after the call and, read off it, count, sum, mean and the gap of the two latest records, with exceeded, flags and score as these say |
| VelocityCheckers.WindowInFull | packages/compliance/src/velocity-checker.ts:67-74 | the window keeps each record at most so old, as often as it occurs, and no other |
| VelocityCheckers.TotalAdds | packages/compliance/src/velocity-checker.ts:78 | the total is a sum |
| VelocityCheckers.FlagsInNumbers | packages/compliance/src/velocity-checker.ts:187-211 | one flag each for four fifths of the count, for more than five averaging 9000 to 10000, and for more than three with a gap under a minute |
| VelocityCheckers.PointsInNumbers | packages/compliance/src/velocity-checker.ts:162-180 | the points for count, sum, mean and gap |
| VelocityCheckers.ScoreIsSum | packages/compliance/src/velocity-checker.ts:160-182 | the score is their sum, rounded, and 100 at most |
| VelocityCheckers.GapIsOne | packages/compliance/src/velocity-checker.ts:82-85 | the gap of the two latest records does not depend on how ties are sorted, and is not negative |
| VelocityCheckers.BreachIsFlagged | packages/compliance/src/velocity-checker.ts:187-211 | a window over its count is always flagged |
| VelocityCheckers.ScoreWithin | packages/compliance/src/velocity-checker.ts:154-182 | with positive limits and nothing negative the score lies between 0 and 100 |
| VelocityCheckers.PruningTwice | packages/compliance/src/velocity-checker.ts:67-74 | pruning at one time and then at another gives no more than the second alone, and as much exactly if everything recent at the second was recent at the first |
| VelocityCheckers.WindowIsHistory | packages/compliance/src/velocity-checker.ts:57-143 | over any run, with clocks that go any way, the pruned window holds of the full history since the last clear all that is recent now exactly if none of it was too old at its own check or a later one of the same address and chain |
| VelocityCheckers.NoLaterCheck | packages/compliance/src/velocity-checker.ts:67-74 | so it does while no check of that address and chain read a later time |
| VelocityCheckers.WindowAfterCheck | packages/compliance/src/velocity-checker.ts:57-74 | a check's window is the full history filtered at its time exactly if nothing was lost so |
| VelocityCheckers.ExceededByFullHistory | packages/compliance/src/velocity-checker.ts:88-91 | unless something was lost, exceeded exactly if the count or sum over the full history breaks a limit |
| VelocityCheckers.ClockStepLosesRecords | packages/compliance/src/velocity-checker.ts:67-74 | after any run, a check at a time too late for a record makes every check at a time not too late for it miss the record |
| AddressKeys.AddressKeyIdentifies | packages/compliance/src/velocity-checker.ts:58 | keys agree exactly on equal chains and addresses equal up to case, for chains without colons |
| RiskScorers.SimpleHash | packages/rate-lock/src/basic-risk-scorer.ts:292-300 | the 32-bit loop gives the base-31 value of the string wrapped once, made non-negative |
| RiskScorers.WrapInFull | packages/rate-lock/src/basic-risk-scorer.ts:292-300 | wrapping gives the signed 32-bit representative modulo 2^32 |
| RiskScorers.FirstUnitWeighs | packages/rate-lock/src/basic-risk-scorer.ts:292-300 | a code unit weighs 31 to the number of units behind it |
| RiskScorers.EstimatesInFull | packages/rate-lock/src/basic-risk-scorer.ts:251-270 | each estimate is the remainder of its own hash, by 60, 70 and 60, moved up by 20, 10 and 20 |
| RiskScorers.ScoreIsAverage | packages/rate-lock/src/basic-risk-scorer.ts:203-219 | a listing scores 100, anything else the average of its three estimates under their weights |
| RiskScorers.ScoreInNumbers | packages/rate-lock/src/basic-risk-scorer.ts:203-219 | the average to within half a hundredth, in whole hundredths, and 0 without weight |
| RiskScorers.LevelInNumbers | packages/rate-lock/src/basic-risk-scorer.ts:221-226 | levels by the two thresholds and 30, and the flags a cached score stands for |
| RiskScorers.UnlistedScoreWithin | packages/rate-lock/src/basic-risk-scorer.ts:203-270 | with non-negative weights an unsanctioned score lies between 0 and 79 |
| RiskScorers.FreshFlags | packages/rate-lock/src/basic-risk-scorer.ts:228-249 | a fresh result is flagged SANCTIONED for a listing and is never flagged otherwise |
| RiskScorers.CachedSanctioned | packages/rate-lock/src/basic-risk-scorer.ts:302-324 | a cached result has SANCTIONED exactly when the fresh one had, unless an unlisted address averages 80, which non-negative weights rule out |
| RiskScorers.BasicRiskScorer.ScreenAddress | packages/rate-lock/src/basic-risk-scorer.ts:35-101 | a live entry answers for the screening that filled it, otherwise a fresh screening answers and is filed; entries stay backed by screenings |
| RiskScorers.BasicRiskScorer.GetRiskScore | packages/rate-lock/src/basic-risk-scorer.ts:122-129 | zero unless some chain is named "cached" |
| ComplianceGates.CachedDecidesAlike | packages/rate-lock/src/compliance-gate.ts:55-95 | an address decision is the same on a hit exactly if the address was listed or scored below 80 |
| ComplianceGates.CachedDecidesTransactionsAlike | packages/rate-lock/src/compliance-gate.ts:97-143 | likewise for transactions, or if the adjusted score is critical anyway |
| ComplianceGates.DecisionIgnoresCache | packages/rate-lock/src/compliance-gate.ts:29-143 | with non-negative weights neither decision depends on a cache hit |
| ComplianceGates.NegativeWeightMisleads | packages/rate-lock/src/basic-risk-scorer.ts:203-219 | with a negative weight a hit refuses as sanctioned what a fresh screening allows |
| ComplianceGates.ComplianceGate.CheckAddress | packages/rate-lock/src/compliance-gate.ts:29-95 | manual blocks come first; else the decision is that of a full screening made now or less than its lifetime ago |
| ComplianceGates.ComplianceGate.CheckTransaction | packages/rate-lock/src/compliance-gate.ts:97-143 | the decision is that of a full screening made now or less than its lifetime ago, adjusted for the amount, whatever is blocked |
| ComplianceGates.TransactionInNumbers | packages/rate-lock/src/compliance-gate.ts:97-143 | refused as critical exactly if the score, plus 10 above 100000 and 5 for round thousands, 100 at most, reaches the threshold; else exactly for its flags |
| ComplianceGates.AddressInNumbers | packages/rate-lock/src/compliance-gate.ts:55-95 | refused for a listing, then at the critical threshold, then at the high one above 50000 |
| ComplianceGates.LowerCaseIsItsOwn | packages/rate-lock/src/basic-risk-scorer.ts:37 | addresses given in lower case are answered by their own screenings |
| ComplianceGates.SpellingsShareAnEntry | packages/rate-lock/src/basic-risk-scorer.ts:37 | two spellings share a cache key though screening them decides differently |
| PriceOracle.PriceIsUpperMedian | packages/rate-lock/src/price-oracle.service.ts:436-463 | the price is the upper median of the accepted quotes, in whatever order, and an error exactly if there are none |
| PriceOracle.AcceptedInFull | packages/rate-lock/src/price-oracle.service.ts:441-444 | a price is accepted as often as it was given with enough confidence and positive; nothing else is |
| PriceOracle.MajorityBoundsPrice | packages/rate-lock/src/price-oracle.service.ts:436-463 | an interval holding more than half of the accepted quotes holds the price, which is one of them |
| PriceOracle.HalfDoesNotBoundPrice | packages/rate-lock/src/price-oracle.service.ts:447-450 | half is not enough: as many quotes again at one higher price set the price |

## Left out

- Overtaking.ClaimedWithin: the waiting job must be due strictly before the present, its own row must not be rewritten by a late report, and no enqueue may carry a negative delay; the last two can break the bound.
- Draining.Drains: assumes one live worker without crashes, as the property is meant; with crashes, reclaims can add claims (QueueProtocol.AttemptsBounded says how many).
- VelocityCheckers.VelocityChecker.CheckVelocity: where a limit is not positive the source divides by it all the same, into an infinity or not-a-number; the model then gives no score.
- EvmChainClients.EvmChainClient.BlockAnswered: blocks the provider does not return are passed over as the code does, so they count as absent, not scanned; reorganised blocks are not read again; a receipt carries the hash of its transaction.
- DepositWatchers.DepositWatcher.Refresh: one refresh runs at a time, the query is answered at one instant, and `watchDeposits` does not throw.
- Settlement.SettlementService.SettleIntent: one clock reading for the row and one for completion; whether a payment went out although submission threw cannot be seen.
- ComplianceGates.ComplianceGate.CheckAddress: overlapping screenings of one address are taken one after the other.
- PriceOracle.PriceIsUpperMedian: the confidence of the aggregate, with its square root, is not modelled.
- Rows of jobs lack last_error and the created and updated times; the FAILED job status is never written and not modelled.
- SKIP LOCKED needs no counterpart, since each claim is one atomic statement.
- Later service steps (route selection, settlement start and end, failing an intent): each is one repository transition, and all of them are among the pipeline's arbitrary gateway moves.
- Real-time scheduling: polling intervals, abort signals and refresh timers are steps taken at any time.
- Lower-casing covers ASCII letters only.
- normalizeAmount: floating-point formatting; a job's amount is any number or null.
- Reconciliation.RunReconciliation: the record it keeps of itself, the financial summaries and the exports are not modelled.
- Ledger queries by intent, type and fee totals: filters and sums like the ones modelled.
- HTTP, RPC and database drivers, webhooks' transport, health endpoints, dashboard, API routes and authentication: input and output.
- Tron and Solana clients, gas abstraction, bridge and compliance providers: simulated data or services that cannot be seen.
- Route scoring, provider and chain registries, rate locks and the recovery service: look-ups, weighted sums and stubs that would only add easy members.
