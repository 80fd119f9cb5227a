# Verification of the payment saga

This project models an in-process, event-driven payment system and proves properties of it. A client
credits wallets and creates payments over HTTP; a payment is then carried through debit, charge, final
status and refund by handlers that react to each other's events. The pieces, one module each:

- `Common`, `Events`: int64 arithmetic, the events and their partition keys.
- `EventStore`, `AppendRuns`: the append-only log, its per-aggregate index and its file; `AppendRuns` lets
  any number of appends interleave their memory step and their file step.
- `Payments`, `EventSourcing`, `ReadModels`: the payment service over its repository, the projector, and
  what a replay of the log rebuilds.
- `Wallets`, `WalletRace`: the wallet service over its three repositories, and the race between the two
  steps of a credit and other writes to the same user.
- `Gateway`, `BreakerRuns`, `BreakerHistory`, `ChargeHandler`: the circuit breaker as an object and as a
  concurrent state machine, its history, and the charge handler's bounded retry loop on top of it.
- `Broker`, `BusRuns`: the sharded bus, the subscription table of `cmd/web/main.go`, and the bus under any
  interleaving of publishers, workers and `Close`.
- `Handlers`: the saga's handlers as objects over the service objects.
- `Saga`: the whole system as a transition system (`Saga.Next`); a run (`Saga.Run`) is any sequence of
  creates with fresh ids, credits and deliveries, under any behaviour of the gateway, of wallet writes and
  of the recovery sleep. `SagaQueues` looks at its queues payment by payment. On runs from an empty system:
  - `SagaDecisions`: what each step decides, told by the fields of what it handles;
  - `SagaFlow`, `SagaRows`: one outstanding workflow event per payment, status order, all-or-nothing at rest,
    and what a stored payment says;
  - `SagaMoney`: conservation of money;
  - `SagaRank`, `SagaLiveness`, `SagaRoom`: termination, exactly when the system moves, and room in the queues;
  - `SagaSinks`, `SagaWorst`: every handler gets its events once, and a run that reaches every limit;
  - `SagaViews`, `SagaReplay`, `SagaStreams`, `SagaRestart`: the live views, the replayed payments, whole or
    stream by stream, and the replayed wallets.

## Reading the model

Imperative code is modelled by classes and loops with specifications; each method is tied by its `ensures`
to a function of the state (`Payments.TableAfter`, `Wallets.Debited`, `ReadModels.After`,
`Gateway.AfterCall`, `Saga.Handle`), and the theorems are about those functions. Each handler object of
`Handlers` changes the service objects exactly as the transition system's `Saga.Handle` says, and
`SagaRoom.PublishInTurn` does the same for the bus object.

Hypotheses, all of them visible in the statements:

- Payment ids are fresh in a `Saga.Run`. Reusing an id is covered by `EventSourcing` (what replay then
  shows), `SagaFlow.CreateLeavesOneWorkflowIff` and `SagaFlow.CreateIsSafeIffTheIdIsFresh`.
- A wallet write is an oracle: done, failed before it changed the balance, or failed after (torn). The mock
  client and the file repository fail only in the last way (`Wallets.WriteOf`), so over them a debit is
  recovered only in a torn run. The theorems about money say exactly which runs keep it: the untorn ones.
- Amounts given over HTTP are int64 values. Balances and views wrap as Go's do.
- The gateway may answer anything at each call, including an error wrapping several sentinels or none.
- The clock of the breaker does not go back.

Where the repository's own documentation and its code differ, the model follows the code:

- The documentation says a replay rebuilds the read model at startup. It does for payments; for wallets it
  rebuilds only the credits, because debits and refunds are published but never appended (`SagaRestart`).
- It says a debit or a refund must not be applied twice. A debit whose write fails after changing the
  balance is taken a second time by recovery (`SagaMoney.TornDebitIsTakenTwice`), and torn twice it leaves
  a rejected payment that cost twice its amount (`SagaMoney.TwoTornDebitsEndRejected`).
- It says 4xx errors are not retried. That is so of every error the gateway in the repository returns; an
  error of another gateway that wraps a retryable sentinel as well is retried, since the retry branch comes
  first (`ChargeHandler.ClientErrorIsRetriedIff`).
- It says the bus retries until the handler succeeds. With a positive attempt limit it gives up, and with
  settings of 2^62 ns or more a wait overflows (`Broker.ProcessDelivery`, `Broker.WaitsArePositiveIff`).

## Model

| member | source | states |
|---|---|---|
| SagaMoney.MoneyIsConservedIffNoWriteIsTorn | cmd/consumers/handlers/wallet_event.go:35-64 | for every run, if what each user starts with plus the acknowledged credits fits an int64: balance plus debited-and-not-refunded amounts equals initial plus credits after every step, exactly when no wallet write fails after changing a balance; balances then stay non-negative and nothing wraps |
| SagaMoney.AtRestOnlySucceededPaymentsCost | cmd/consumers/handlers/payment_result_event.go:24-46 | all or nothing in money: in a run without torn writes, with nothing left to deliver, each balance is the initial one plus the acknowledged credits minus the amounts of the user's succeeded payments |
| SagaMoney.TornDebitIsTakenTwice | cmd/consumers/handlers/wallet_event.go:41-46 | a first debit that takes the money and then fails is debited again after recovery, for one `WalletDebited` |
| SagaMoney.TwoTornDebitsEndRejected | kit/db/mock_client.go:178-179 | a debit torn on both attempts ends in a rejected payment, no `WalletDebited`, and a balance twice the amount short |
| SagaMoney.OnlyTwoHandlersMoveMoney | cmd/consumers/handlers/wallet_event.go:25-64 | no handler but debit and refund changes a balance or publishes an event that says money moved |
| SagaMoney.StepBalances | internal/wallet/service.go:27-77 | one step keeps conservation exactly when its wallet write is not torn, whatever the step |
| SagaFlow.OneWorkflowPerPayment | cmd/consumers/handlers/payment_flow_event.go:24-47 | in every reachable state each payment has, over all shards, exactly one outstanding workflow delivery, whose user, amount and service (where it carries them) and verdict are the stored payment's, or is finished and has none; its statuses so far are a prefix of one of the three legal histories; at most 2 debit attempts, 6 charge calls, one recovery per action, 31 deliveries |
| SagaFlow.AllOrNothingAtRest | cmd/web/main.go:119-160 | with empty queues every payment is rejected with no debit acknowledged, succeeded with one, or failed with one debit and one refund acknowledged, an acknowledgement being the published `WalletDebited` or `WalletRefunded`; and it has caused exactly 10, 20 or 25 deliveries, plus three per recovery |
| SagaWorst.EveryLimitIsReached | cmd/consumers/handlers/payment_event.go:77-92 | for any shards and hash a run of one payment reaches 2 debit attempts, 6 charge calls, both recoveries and 31 deliveries |
| SagaRows.RowsTellTheRequestAndTheVerdict | internal/payment/service.go:28-126 | in every reachable state a stored payment has the user, amount and service of its request; a succeeded one the gateway's id and no reason, a rejected or failed one the reason given and no gateway id, any other neither |
| SagaSinks.EveryHandlerGetsItsEventsOnce | kit/broker/bus.go:98-145 | in every run, for each handler and partition key, what the handler has completed, in order, followed by what is queued for it is exactly what was published of that key and the handler gets: each event once, in publishing order; at rest it has completed them all |
| SagaQueues.SubscribedOnce | cmd/web/main.go:119-160 | a handler is subscribed exactly to the events it gets, once: the projector to those it can apply, metrics to those it counts, audit to every change of a payment, debit, refund and recovery, the others to the one event they accept |
| SagaDecisions.CreateIsAcceptedIff | internal/payment/validator.go:16-21 | a create stores a row with the request's own terms, appends and publishes both entry events and adds one workflow delivery if and only if id, user and service are given and the amount is positive; else nothing changes |
| SagaDecisions.CreditIsAcknowledgedIff | cmd/web/handlers/wallet.go:60-79 | a credit is appended, published and acknowledged if and only if a user is given, the amount is positive and the write is done; the balance moves exactly when it did not fail first |
| SagaDecisions.DebitDecides | cmd/consumers/handlers/wallet_event.go:35-52 | a debit tells paid exactly if user and amount are valid, the balance covers it and the write is done; recovery exactly if the write of a payable first attempt failed; else rejection with the reason; and what it does to the balance |
| SagaDecisions.DebitsAreRecoveredForFailedWritesOnly | cmd/consumers/handlers/wallet_event.go:41-46 | in every run a payment's debit is sent to recovery as often as its first attempt was payable and its write failed, at most once: never for lack of funds |
| SagaDecisions.RefundDecides | cmd/consumers/handlers/wallet_event.go:54-64 | a refund is told exactly if user and amount are valid and the write is done, else it is an error |
| SagaDecisions.HopelessRecoveriesFail | cmd/consumers/handlers/recovery_event.go:42-71 | a recovery succeeds exactly if its sleep is not interrupted, the payment is known and so is the action; else it does nothing |
| SagaDecisions.WrongTypesFail | cmd/consumers/handlers/payment_flow_event.go:24-47 | a handler given an event of a type it does not accept fails and does nothing |
| SagaDecisions.EventsCarryTheClock | cmd/consumers/handlers/payment_event.go:40-96 | whatever a handler publishes carries its clock's reading |
| SagaFlow.CreateLeavesOneWorkflowIff | cmd/web/handlers/payment.go:78-102 | in any coherent state a create adds one workflow delivery for its id, leaving exactly one if and only if the id is new or its payment is finished |
| SagaFlow.CreateIsSafeIffTheIdIsFresh | internal/payment/service.go:28-41 | in any coherent state a create keeps every status history legal, and so the invariant, if and only if its id is new |
| SagaFlow.StepKeepsInv | internal/payment/service.go:43-126 | every step keeps the invariant, although no `Mark` checks the old status |
| SagaFlow.StageStep | cmd/consumers/handlers/payment_flow_event.go:24-39 | handling the one outstanding delivery of a payment leaves it finished or with exactly one new outstanding delivery, or fails and changes nothing |
| SagaFlow.ChargeReply | cmd/consumers/handlers/payment_event.go:61-97 | a charge at attempt 1 makes at most 5 calls and only then may ask for recovery with attempts 5; at attempt 6 it makes one call and never does |
| SagaFlow.HeadIsTheWork | kit/broker/bus.go:134-145 | a workflow delivery at the head of a shard is the single outstanding one of its payment, on that payment's own shard |
| SagaFlow.SinkStep | cmd/web/main.go:130-160 | audit, metrics, notification, log and projector deliveries succeed, publish nothing and touch no balance, payment or log |
| SagaRank.SagaTerminates | kit/broker/bus.go:147-175 | in every run, completed deliveries plus what is still to come never exceed 31 per payment and one per credit, whatever the gateway, the writes and the sleeps do |
| SagaRank.RunSpends | kit/broker/bus.go:134-175 | the same between any two states of a run, starting from any state at all |
| SagaRank.HandlingSpends | cmd/consumers/handlers/recovery_event.go:42-71 | a handled delivery publishes strictly less than it weighs; a handler that fails publishes nothing |
| SagaLiveness.HeadCompletesIff | cmd/consumers/handlers/recovery_event.go:42-71 | in every coherent state the head of a shard completes if and only if a recovery's sleep is not interrupted and a refund's write is done; every other delivery completes, failed debits included |
| SagaLiveness.EveryScheduleSettles | kit/broker/bus.go:134-175 | every schedule of deliveries that complete, in any order of shards and whatever the gateway and the debits do, is at most as long as the rank, and one that cannot be continued has brought the system to rest |
| SagaLiveness.ShardMovesIffItsHeadIsObliged | kit/broker/bus.go:147-175 | in every run from a coherent state a shard completes something if and only if some delivery on it finds the environment its head needs |
| SagaLiveness.UnobligedHeadHoldsItsShard | kit/broker/bus.go:151-174 | a recovery interrupted each time, or a refund whose write fails each time, keeps its shard: nothing behind it is ever taken |
| SagaLiveness.Settles | kit/broker/bus.go:134-145 | from every coherent state, under any such environment, the workers alone reach rest |
| SagaLiveness.EveryRunCanSettle | cmd/consumers/handlers/payment_event.go:27-99 | every reachable state can be brought to rest within its rank; every payment is then finished, and without torn writes each user has paid exactly for the succeeded payments |
| SagaRank.QueuesGrow | kit/broker/bus.go:134-175 | only its own worker takes from a queue, and only when the handler returned no error |
| SagaRoom.NoPublishEverBlocks | kit/broker/bus.go:104-123 | if on each shard 31 times its payments plus its credits is at most the buffer size, no publish of any step of the run takes the backpressure branch |
| SagaRoom.PublishInTurn | kit/broker/bus.go:98-125 | on an open, wired bus object with room, publishing a list of events leaves exactly the queues the transition system says |
| SagaRoom.StepPublishes | kit/broker/bus.go:191-201 | each step publishes events of a single partition key, and a worker publishes only into its own shard |
| SagaViews.ReadModelTracksWalletsIffNoWriteIsTorn | internal/readmodels/projector.go:232-260 | starting with an empty projector, at every point of a run each balance is the initial one plus the projected one plus the signed sum of the user's wallet events queued for the projector, exactly when no wallet write is torn |
| SagaViews.StepTracks | cmd/web/handlers/wallet.go:60-79 | one step keeps that relation exactly when its wallet write is not torn |
| SagaViews.PendingDeliveries | cmd/web/main.go:146-148 | each wallet event reaches the projector exactly once |
| SagaReplay.StoreRebuildsTheRepositoryAndViewsCatchUp | internal/readmodels/projector.go:157-230 | at every point of every run a replay of the store equals the payment repository, each live view equals it once the projector has taken what is queued, and at rest they are equal |
| SagaReplay.CallShows | internal/payment/service.go:43-126 | the events one payment call publishes turn a view of the old row into a view of the new row |
| SagaReplay.SeenFrom | cmd/web/main.go:140-145 | the projector is sent exactly the events that concern a payment, in publishing order |
| SagaStreams.StreamRebuildsItsPayment | kit/db/store.go:156-160 | in every reachable state the stream of a payment, replayed alone, rebuilds that payment as the repository has it |
| SagaRestart.RestartShowsTheCredits | cmd/consumers/handlers/wallet_event.go:50-62 | in every run, whatever the writes do, the wallet balances a replay rebuilds are the acknowledged credits |
| SagaRestart.RestartAgreesIffNothingIsHeld | internal/readmodels/projector.go:46-53 | without torn writes, a replayed balance equals the repository's if and only if what the user's payments hold equals the initial balance |
| SagaRestart.RestartForgetsTheInitialBalance | internal/readmodels/projector.go:46-53 | with an initial balance and nothing done yet the two differ |
| EventSourcing.ReplayEqualsRepositoryIffCreatesStartBlank | internal/payment/service.go:34-35 | for every sequence of creates and marks in any order, replay equals the repository after every call if and only if no create reuses the id of a payment that has a reason or a gateway id |
| EventSourcing.FreshIdsReplayExactly | cmd/web/handlers/payment.go:78-102 | with each id created once, replay always equals the repository |
| EventSourcing.ReusedIdDiverges | internal/readmodels/projector.go:172-183 | a payment failed and created again shows its old reason in the replayed view only |
| EventSourcing.CallMirrors | internal/readmodels/projector.go:157-230 | one call keeps views and table equal exactly when it is not a create over a payment with a reason or gateway id |
| EventSourcing.AppendThenReplay | kit/db/store.go:115-133 | replaying a log to which events were appended is replaying it and then applying those events live |
| ReadModels.ReplayIgnoresCrossKeyOrder | internal/readmodels/projector.go:46-53 | two logs with the same events per payment in order and the same multiset of wallet events per user give the same payment views and the same wallet balances |
| ReadModels.ReplayTwiceIsReplayOnce | internal/readmodels/projector.go:157-230 | applying any log a second time changes no payment view |
| ReadModels.FoldIsLastWriterPerField | internal/readmodels/projector.go:157-230 | a payment view is, field by field, the last writer of the log, with the conditional status of `PaymentCreated` |
| ReadModels.PaymentViewIsLocal | internal/readmodels/projector.go:157-230 | a payment view depends only on that payment's events |
| ReadModels.BalanceIsTheSum | internal/readmodels/projector.go:232-260 | a projected balance is the wrapped sum of the user's wallet events |
| ReadModels.WalletViewIsOfItsUser | internal/readmodels/projector.go:232-260 | a wallet view names its user and was last updated by that user's last wallet event |
| ReadModels.ReplayKnowsWhatApplyKnows | internal/readmodels/projector.go:55-141 | a replay understands exactly the events a live projector applies and reads back what was appended; a malformed payload is an error for those only |
| ReadModels.ReplayStopsAtTheFirstBadRecord | internal/readmodels/projector.go:46-53 | what follows the first unreadable record does not matter |
| ReadModels.PrefixThenLive | internal/readmodels/projector.go:46-79 | replaying a prefix and applying the rest live is a full replay |
| ReadModels.Projector.Apply | internal/readmodels/projector.go:55-79 | the maps become the views after the event |
| ReadModels.Projector.ApplyRecord | internal/readmodels/projector.go:81-141 | a decodable record is applied, an unknown name skipped, a malformed payload refused without effect |
| ReadModels.Projector.Replay | internal/readmodels/projector.go:46-53 | the maps become the fold over the records before the first malformed one, and an error is returned exactly if there is one |
| EventStore.Store.Append | kit/db/store.go:115-154 | the record joins the log, its stream and, if the write succeeds, the file; a failed write is not an error |
| EventStore.Store.ReplayFromFile | kit/db/store.go:60-99 | the log grows by the records of the lines before the first corrupt one, the index stays the log filtered by aggregate |
| EventStore.Store.Load | kit/db/store.go:156-160 | a stream is the log filtered by aggregate id |
| AppendRuns.FileIsThePermutedLog | kit/db/store.go:124-152 | in every interleaving of appends each stream is the filtered log, the file holds each log position once except those between their two steps, and non-overlapping appends keep their order in the file |
| AppendRuns.OverlappingAppendsMaySwap | kit/db/store.go:133-135 | two overlapping appends can stand in the file in the opposite of their log order |
| AppendRuns.SerialFileKeepsOrder | kit/db/store.go:124-152 | serial appends keep the file in log order, short of it by at most the one in progress |
| AppendRuns.ReopenedStoreHoldsTheLog | kit/db/store.go:36-58 | reopening the file at any point of any run gives a permutation of the log less the records between their two steps, in log order if appends never overlapped; of a quiet store, all of them |
| Payments.Service.Initialize | internal/payment/service.go:28-41 | a valid request is saved as an initialized payment with no reason or gateway id, over whatever stood there; an invalid one changes nothing |
| Payments.Service.Mark | internal/payment/service.go:43-126 | a known payment is updated without looking at its old status, and one event is appended and then published; an unknown id is an error with no effect |
| Payments.SQLRepository.Save | internal/payment/repository.go:29-51 | the stored row becomes the payment, the others stay |
| Payments.SQLRepository.Get | internal/payment/repository.go:53-65 | the stored payment, or not found |
| Payments.CreateHandler | cmd/web/handlers/payment.go:78-102 | a valid request is saved, then both entry events are appended and published in order |
| Wallets.RunCalls | internal/wallet/service.go:27-77 | over each of the three repositories any sequence of service calls returns the specified outcomes and leaves the specified balances for the way its writes end, and the file holds what memory holds whenever the last write attempted was done |
| Wallets.RunOnBoth | internal/wallet/repository.go:15-19 | two services over any two repositories with equal balances return the same outcomes and end with equal balances, for any sequence of calls with successful writes |
| Wallets.ReloadAfterCalls | internal/wallet/repository.go:156-199 | a file repository loaded after any sequence of service calls, debits included, whose last attempted write was done holds what memory holds |
| Wallets.CallsKeepBalancesNonNegative | internal/wallet/validator.go:19-27 | no call makes a balance negative when the exact sums fit, however the write ends |
| Wallets.Service.Debit | internal/wallet/service.go:44-57 | invalid, insufficient and failing debits are told apart, and the balance moves only when the repository wrote |
| Wallets.Service.Add | internal/wallet/service.go:27-42 | credit and refund write the wrapped sum of what was read and the amount |
| Wallets.MockClient.DebitWhereAtLeast | kit/db/mock_client.go:167-179 | a conflict below the minimum, else the balance changes before persisting may fail |
| Wallets.FileRepository.DebitIfSufficientFunds | internal/wallet/repository.go:140-154 | memory changes before the file is written, and a failed write leaves the old file |
| Wallets.FileRepository.Load | internal/wallet/repository.go:156-180 | a file is read over memory, a missing one created, an empty one ignored, garbage and an unreadable file refused |
| WalletRace.ConservedIffNoLostUpdate | internal/wallet/service.go:32-37 | with the read and the write of a credit as separate steps, a balance accounts for every operation at every point of a run if and only if no write is based on a stale read |
| WalletRace.WithoutStaleWritesOperationsAreAtomic | internal/wallet/service.go:27-77 | a run in which no write is based on a stale read ends with the balance the same operations give as atomic service calls |
| WalletRace.TwoCreditsCanLoseOne | internal/wallet/service.go:64-69 | two overlapping credits can lose one |
| BreakerRuns.CountersRefineHistory | kit/external_payment_gateway/gateway.go:100-143 | for any number of concurrent callers: closed means failures equals the counted failures since the last success or closing, below the threshold; otherwise it equals the threshold; a probe flag means half-open |
| BreakerHistory.EveryReturnIsLawful | kit/external_payment_gateway/gateway.go:100-143 | in every run of any number of callers a return closes the breaker exactly if it is a charged one found half-open and with it the charged returns found half-open since the last trip reach the success threshold; it trips it exactly if it is a failure found half-open or the failure that reaches the threshold; failures are timeouts, 5xx and exceeded deadlines |
| BreakerHistory.CallsAreLetInExactlyWhen | kit/external_payment_gateway/gateway.go:73-98 | in every reachable state a call is let in exactly when the breaker is closed, or open with the timeout past since the trip, or half-open with no probe let in since the last return; a refused call changes nothing |
| BreakerRuns.ProbesAreBounded | kit/external_payment_gateway/gateway.go:73-106 | within one half-open episode at most one more call is admitted than returned, so probes in flight are at most one plus returns of earlier calls, and at most one when there were no earlier calls |
| BreakerRuns.StragglerAdmitsASecondProbe | kit/external_payment_gateway/gateway.go:104-106 | an earlier call returning during the episode does let a second probe in |
| BreakerRuns.TripsAreSpaced | kit/external_payment_gateway/gateway.go:80-87 | nothing is admitted before the open timeout has passed since the trip, and a run of length T trips at most 1 + T / timeout times |
| Gateway.CircuitBreakerGateway.BeforeCall | kit/external_payment_gateway/gateway.go:73-98 | the object's first step is the state machine's |
| Gateway.CircuitBreakerGateway.constructor | kit/external_payment_gateway/gateway.go:45-61 | non-positive settings become 5 failures, 1 success and 2 s; the breaker starts closed |
| Gateway.CircuitBreakerGateway.After | kit/external_payment_gateway/gateway.go:100-143 | the object's second step is the state machine's |
| Gateway.CircuitBreakerGateway.Charge | kit/external_payment_gateway/gateway.go:63-71 | an admitted call reaches the inner gateway once and reports to the breaker; a refused one does neither |
| ChargeHandler.PaymentEvent.HandleChargeRequested | cmd/consumers/handlers/payment_event.go:27-99 | the loop charges until an answer is not retried, sleeps 50 ms times the attempt in between, and publishes exactly one event, decided by the last attempt and its answer |
| ChargeHandler.PaymentEvent.Conclude | cmd/consumers/handlers/payment_event.go:47-98 | the ladder of ifs assigns the code of the strongest class and publishes success, failure or recovery accordingly |
| ChargeHandler.RunOutcome | cmd/consumers/handlers/payment_event.go:33-97 | for every sequence of answers: at most max(1, 6 - attempt) calls, recovery exactly when the last attempt is the fifth with a retryable non-client error, and for attempts 1 to 5 a bounded total sleep |
| ChargeHandler.SentinelsDecideRetries | cmd/consumers/handlers/payment_event.go:44-67 | a run tries again after an answer exactly if it is an error that wraps a timeout, 5xx, exceeded deadline or open circuit and the attempt is below 5 |
| ChargeHandler.SentinelsDecideTheReply | cmd/consumers/handlers/payment_event.go:38-97 | what a run publishes, field by field, from the sentinels and text of its last answer and the attempt: success, failure or recovery, with the code of the strongest class |
| ChargeHandler.PlainFailuresEndAtOnce | cmd/consumers/handlers/payment_event.go:71-75 | an error that wraps only a 4xx, or nothing, is charged once and fails the payment |
| ChargeHandler.ClientErrorIsRetriedIff | cmd/consumers/handlers/payment_event.go:61-75 | a first client error is tried again if and only if it also wraps a retryable sentinel and attempts are left |
| ChargeHandler.SleptClosedForm | cmd/consumers/handlers/payment_event.go:62-65 | the total backoff is a difference of triangular numbers |
| ChargeHandler.RunsAreDeterministic | cmd/consumers/handlers/payment_event.go:34-67 | a run is determined by its answers |
| ChargeHandler.OutageRun | cmd/consumers/handlers/payment_event.go:33-87 | behind a closed breaker with f failures under an outage the inner gateway is called exactly min(6 - attempt, threshold - f) times and one recovery with attempts 5 follows, with code `cb_open` exactly when the breaker trips first |
| Handlers.WalletEvent.HandlePaymentInitialized | cmd/consumers/handlers/wallet_event.go:25-33 | the handler object does the transition system's step |
| Handlers.WalletEvent.HandleWalletDebitRequested | cmd/consumers/handlers/wallet_event.go:35-52 | over any repository: balances, published event and result are the transition system's |
| Handlers.WalletEvent.HandleWalletRefundRequested | cmd/consumers/handlers/wallet_event.go:54-64 | likewise for refunds; a failed refund is an error and is retried |
| Handlers.PaymentFlowEvent.HandleWalletDebited | cmd/consumers/handlers/payment_flow_event.go:24-39 | repository, log and published events are the transition system's |
| Handlers.PaymentFlowEvent.HandleWalletDebitRejected | cmd/consumers/handlers/payment_flow_event.go:41-47 | likewise for a rejected debit |
| Handlers.PaymentResultEvent.HandleChargeSucceeded | cmd/consumers/handlers/payment_result_event.go:24-30 | likewise for a successful charge |
| Handlers.PaymentResultEvent.HandleChargeFailed | cmd/consumers/handlers/payment_result_event.go:32-46 | likewise for a failed charge: the refund request follows the failed status |
| Handlers.RecoveryEvent.HandleRecoveryRequested | cmd/consumers/handlers/recovery_event.go:42-71 | an interrupted sleep, an unknown payment and an unknown action are errors with no effect; else the request is republished with attempts + 1 |
| Handlers.ChargeRunIsAStep | cmd/consumers/handlers/payment_event.go:27-99 | whatever a run of the charge handler heard, the transition system has that run as a step |
| Handlers.CreditHandler | cmd/web/handlers/wallet.go:60-79 | a credit that is not acknowledged is neither appended nor published |
| Events.KeysTellSubjectsApart | kit/broker/bus.go:191-201 | events of one payment, and credits of one user, share a bus key, those of two do not; events of payments without an id share one exactly when they have the same name |
| Broker.Bus.Publish | kit/broker/bus.go:98-125 | a publisher that nobody disturbs ends with one enqueue or one error per snapshotted handler, errors only on a closed bus (which still queues where there is room and the select falls that way), or parks at a full queue of an open one |
| Broker.Bus.Subscribe | kit/broker/bus.go:82-86 | the handler joins the end of its event's list |
| Broker.Bus.constructor | kit/broker/bus.go:54-80 | non-positive shard counts and buffers become one, non-positive waits 25 ms and 2 s; the queues start empty |
| Broker.Wire | cmd/web/main.go:119-160 | running the subscriptions in their order gives each event the handlers, in the order, the other theorems use |
| Broker.ColumnsAreTheSubscribers | cmd/web/main.go:119-160 | the handler table is the subscription list read column by column |
| Broker.ProcessDelivery | kit/broker/bus.go:147-175 | it returns after the first success, after exactly `MaxAttempts` failures when that is positive, or at a close during a wait, whichever is first; the k-th wait is the k-th backoff |
| Broker.BackoffIsCappedPowerOfTwo | kit/broker/bus.go:170-173 | below 2^62 ns the k-th wait is the first one times 2^(k-1), capped from the second on |
| Broker.WaitsArePositiveIff | kit/broker/bus.go:149-173 | every wait is positive if and only if both settings are below 2^62 ns; otherwise some doubling overflows int64 |
| BusRuns.KeysAreServedInOrder | kit/broker/bus.go:134-145 | for any interleaving of publishers, workers and close: what is finished for a key is a prefix of what is started, by at most one, which is a prefix of what was enqueued |
| BusRuns.NothingIsDuplicated | kit/broker/bus.go:104-123 | each delivery is enqueued, started and finished at most once |
| BusRuns.OneInProgressPerKey | kit/broker/bus.go:191-210 | two deliveries of one key are never in progress together, and no queue outgrows its buffer |
| BusRuns.EveryHandlerIsAccountedFor | kit/broker/bus.go:98-125 | each publish accounts for every handler of its snapshot, in order, as one delivery or one error, and gets errors only on a closed bus |
| BusRuns.AlonePublishIsAtomic | kit/broker/bus.go:104-123 | with room and nobody else moving, the fine-grained publish adds up to the atomic one of the transition system |
| BusRuns.OnlyCloseFreesIt | kit/broker/bus.go:114-122 | a worker whose handler waits for room in the worker's own full queue is never freed but by closing the bus |
| BusRuns.EveryBufferStalls | kit/broker/bus.go:114-122 | for every number of shards and every buffer size that state is reachable: a bound on the buffer alone does not make the worker safe |
| BusRuns.BoundedLoadNeverWaits | kit/broker/bus.go:104-123 | a bound on the load does: in any interleaving, while the handlers of all the publishes of a shard fit its buffer, the next handler of each can be queued at once |

## Left out

- HTTP decoding, status codes, the health check, routing, the `Get` and `Balance` endpoints: plumbing with no further state.
- Audit, notification, metrics and loggers: they never feed back; they appear only as deliveries that change nothing.
- `PaymentSubmitted` and `PaymentDLQ`: nothing publishes them. The dead-letter log of the recovery service only logs.
- JSON text, UTF-8 and the file system: payloads are seen through the fields a replay reads, a file is a sequence of lines that are blank, a record or corrupt, and a line fits the scanner. Marshalling cannot fail.
- The text of errors: the inner file-system text joined to `db: internal` is not modelled.
- The FNV hash: any function of the key; the theorems hold for all of them.
- Real time: sleeps and the 200 ms call timeout appear as oracle outcomes, the breaker's clock as readings.
- A custom `IsFailure` of the breaker, and the fake gateway: the default classification, and any answers.
- Reflection in row scanning and SQL text matching: the statements are typed operations. Payment statements cannot fail, so `MarkX` ignoring a failed save is not modelled.
- The in-memory payment repository, which behaves as the SQL one.
- Panics in handlers: the bus turns them into errors; the handlers modelled do not panic.
- Restart of the payments table, which is never persisted; the saga starts with an empty projector, table and log.
- `Saga.Handle`: one delivery, its wallet operation and its publishes are one atomic step of the transition system. The two steps of a credit are in `WalletRace`, the steps of a publish in `BusRuns`, each on its own.
- `SagaRoom.NoPublishEverBlocks`: bounds the queues by what payments and credits of the run can cause in total, not by what is outstanding at one moment, and over atomic publishes; `BusRuns.BoundedLoadNeverWaits` is the same bound over the steps of a publish.
- `SagaLiveness.Settles`: needs an environment that obliges. A recovery handled under the context of a request that has been answered is interrupted each time, and a refund may fail each time; `SagaLiveness.UnobligedHeadHoldsItsShard` says what happens then.
- Conservation over saga runs in which credits and refunds take two steps: `WalletRace` says for one user which interleavings are as good as the atomic steps the saga takes.
- A positive attempt limit in the saga: `cmd/web/main.go` configures none, so a failing delivery stays at the head of its queue. The limit is modelled in `Broker.ProcessDelivery`.
- Loading the mock client's wallets at startup: the balances it starts with are a parameter.
- `Handlers.CreditHandler`: a failed append or publish cannot occur in the model, as both only log in the code.
- `ChargeHandler.PaymentEvent.HandleChargeRequested`: for a starting attempt below 1 the sleep counted is the computed backoff, which is not positive and so no wait at all.
