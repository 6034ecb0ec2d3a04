# Payment pipeline: a verified model

The payment service stores payments, talks to a payment provider (the gateway), and announces
every change of a payment as an event. An event is written in the same transaction as the
payment it is about (the outbox), published by a relay at least once, and recorded by an audit
service; merchants are told by webhooks that are retried, and payment creation is idempotent by
key. This project models that pipeline and proves what it keeps, over runs of any length.

Most parts come in two forms. A *transition system* states each protocol as steps that
interleave freely, with crashes and failures at any point; lemmas about its runs hold for every
interleaving. *Classes* follow the code: fields updated in place, loops with their early exits,
and methods whose contracts tie the new state to the old one. The use cases, a dispatch of the
relay, the webhook dispatcher and retry poller, and an idempotent call served alone are proved to
be runs of their transition systems, so what holds of the runs holds of them. What the environment
does is left open, but counted: a method that reports a failure says that the gateway, the broker,
a store or a transaction failed.

| file | models |
|---|---|
| `Basics.dfy`, `Events.dfy` | 64-bit arithmetic, sums over maps; events, histories, the lifecycle grammar |
| `Payment.dfy` | the payment object, its state machine and refund arithmetic |
| `Lifecycle.dfy` | the use cases as interleaving steps: read a copy, ask the gateway, commit row and event |
| `Interleavings.dfy` | what holds in every interleaving; conservation of refunded money |
| `Serial.dfy` | lifecycle order, exact refund totals and the event bound, when no commit overwrites a changed row |
| `LostUpdates.dfy` | what a commit over a changed row does to its payment, for good |
| `Serialisability.dfy` | overlapping calls against whole calls one after another |
| `GatewayLimit.dfy` | when refunds can come to exceed a payment |
| `Authorisations.dfy`, `GrantLimits.dfy` | what becomes of authorisations and captures; when there can be more than the payment stands for |
| `Witnesses.dfy` | concrete runs that reach or break the limits |
| `Outbox.dfy`, `Relay.dfy`, `RelayService.dfy`, `Broker.dfy` | the outbox store, any number of relays, the relay's loops, the stream of messages |
| `Audit.dfy`, `Pipeline.dfy`, `PipelineProgress.dfy` | the audit trail; rows, log, stream and trail of one run together; what the pipeline can always still do |
| `UseCases.dfy`, `Messaging.dfy`, `Traffic.dfy` | the stores and use cases as they run; message handling with retries and dead-lettering; the same with other use cases in between |
| `Webhook.dfy`, `WebhookService.dfy` | delivery records, backoff and retries; dispatcher and retry poller as they run |
| `Idempotency.dfy`, `IdempotentCreate.dfy` | the lock-run-save protocol; calls one after another and the create endpoint |

`dafny verify dfyconfig.toml` checks everything.

## What was found

- **Overlapping calls.** The row is read outside the transaction that writes it and nothing checks
  that it is still the same. The data a run leaves can be explained by whole calls, executed one
  after another, if and only if every commit of the run found the row its call had read
  (`Serialisability.RunSerialisableIffFresh`); one commit that did not scars its payment for good
  (`LostUpdates.ScarsStay`). `Witnesses.OverlappingRefundsLoseOne` is a run in which two refunds of 60
  out of 100 are both confirmed and the row remembers one.
- **Refunds and the gateway.** The gateway confirms a refund before the transaction commits. What it
  confirmed is always accounted for (`Interleavings.MoneyIsConserved`), but a lost commit followed by
  a repeated call refunds twice, even without overlap. Between two calls, its refunds can come to
  exceed the payment if and only if they already do or the payment is not settled, that is, neither
  failed nor refunded in full (`GatewayLimit.MayExceedIffUnsettled`).
- **Authorisations and captures.** The state of a payment is checked only after the gateway was asked
  for an authorisation, so a redelivered `payment.created` of a payment that is no longer pending asks
  again; what is granted then is wasted (`Authorisations.RedeliveryWastesGrant`), exactly when the
  payment read is not pending (`Authorisations.TooLateIff`). Every grant is used, wasted or in flight
  (`Authorisations.GrantsAreConserved`). Between two calls, a payment can come to be failed while the
  gateway holds an authorisation for it if and only if it is pending or failed
  (`GrantLimits.MayFailAuthorisedIff`), and to be captured twice at the gateway if and only if it has
  been, or a capture is still to come (`GrantLimits.MayCaptureTwiceIff`).
- **Idempotency.** The documentation (`README.md:720`) promises no duplicate payment per key. There is
  no second lookup after the lock is taken, so a call that looked before a success was saved can run
  the operation again; and a success whose response the store fails to save is repeated by the next
  call, even without any overlap (`Idempotency.UnsavedSuccessesRepeat`). `Idempotency.SecondSuccessIff`
  says of every reachable state when the operation can succeed again. For calls one after another,
  `IdempotentCreate.RunsIff` says which of them run it: none after a success that was saved.
- **Failed handling.** Comments in `process_payment.go`, `dispatch.go` and `subscriber.go` say that a
  failed message goes back to its queue; the code rejects it without requeue, to the dead-letter
  queue. The model follows the code.
- **Negative retries.** With a negative number of retries a message is acknowledged without being
  handled at all (`Messaging.PaymentConsumer.Handle`).
- **Webhook keys.** The delivery id depends only on subscription, event type and payment, so two
  partial refunds of one payment share a delivery record. An event keeps its record, payload and
  retries if and only if no dispatch under the same key is saved after it
  (`Webhooks.RecordSurvivesIff`); `WebhookService.SecondRefundSilencesFirst` is a run in which the
  first refund's delivery fails, the second's succeeds, and the first is never sent again.
- **Small print.** A fetch limit of zero bounds nothing in the in-memory outbox (`Outbox.BatchWithinLimit`); a response saved
  with an empty hash never conflicts; backoff is exact if and only if the longest delay fits in 64
  bits (`Webhooks.DelaysExactIffFits`).

## Model

| member | source | states |
|---|---|---|
| `Payments.NewPayment` | internal/domain/payment/payment.go:29-49 | a request is rejected with the error of its first failing check, or becomes a fresh pending payment with the defaults filled in and the given terms |
| `Payments.NewRowExact` | internal/application/usecase/create_payment.go:48-60 | a request is accepted exactly when the amount is positive, the currency given, the installments 0 to 12 and the capture method unset, automatic or manual; otherwise it is refused for the first of these that fails; the new payment carries its terms, with defaults |
| `Payments.RefundExact` | internal/domain/payment/payment.go:92-115 | on a well-formed row a refund is accepted exactly when the payment is captured and the amount is a positive part of the balance, with the error of the first check that fails; the 64-bit sum is the true sum, and the status is refunded exactly when the balance is used up |
| `Payments.RefundOfTheRest` | internal/application/usecase/refund_payment.go:40-48 | refunding the remaining balance is never rejected for its amount and empties the balance |
| `Payments.RefundableWraps` | internal/domain/payment/payment.go:113-115 | on any row the 64-bit balance is the true one if and only if that fits in 64 bits; beyond the largest value it is negative, below the smallest it is not |
| `Basics.Wrap64Exact` | internal/domain/payment/payment.go:103-115 | the result of a 64-bit sum or difference is the one 64-bit value that differs from the true one by a multiple of 2 to the 64th |
| `Basics.Int64Range` | internal/domain/payment/payment.go:16-19 | the 64-bit values are those from -2 to the 63rd to 2 to the 63rd minus one |
| `Payments.Payment.Refund` | internal/domain/payment/payment.go:92-110 | the object becomes the row a refund yields, or stays as it was and the first failing check is reported |
| `Payments.Payment.Capture` | internal/domain/payment/payment.go:72-78 | authorized becomes completed; any other status is an invalid transition and nothing changes |
| `Payments.Payment.MarkAuthorized` | internal/domain/payment/payment.go:53-59 | pending becomes authorized, or an error and no change |
| `Payments.Payment.Complete` | internal/domain/payment/payment.go:62-68 | pending becomes completed, or an error and no change |
| `Payments.Payment.Fail` | internal/domain/payment/payment.go:81-87 | pending becomes failed, or an error and no change |
| `Payments.Payment.Clone` | internal/infrastructure/persistence/memory/payment_repository.go:82-85 | a copy is a fresh object with the same value |
| `Lifecycle.CallMakesLegalMove` | internal/application/usecase/process_payment.go:54-123 | whatever is asked and answered, a call that gets to write moves the row it read along the lifecycle, under an event type that fits, and a refund adds exactly the amount told to the gateway |
| `Lifecycle.ExecuteIsRun` | internal/application/usecase/refund_payment.go:34-71 | a call on its own is a run of read, reply, commit; or of read, reply, stop when the transaction fails |
| `Lifecycle.StepKeepsInv` | internal/application/usecase/process_payment.go:54-90 | every step of every interleaving keeps rows, calls in flight, log and refund ledgers in agreement |
| `Interleavings.RowsAreSound` | internal/domain/payment/payment.go:92-110 | in every interleaving stored rows are well formed, and claim no more refunds than the gateway confirmed |
| `Interleavings.StatusIsLastAnnounced` | internal/application/usecase/create_payment.go:67-74 | in every interleaving a payment's status is that of its most recent event, every event states the payment's true terms, and event ids are distinct |
| `Interleavings.NeverInvalidRefundAmount` | internal/application/usecase/refund_payment.go:40-48 | on any reachable row no requested amount, however small, yields the invalid-refund-amount error; without a positive amount the whole balance is refunded |
| `Interleavings.TermsNeverChange` | internal/infrastructure/persistence/memory/payment_repository.go:48-85 | amount, currency, installments, capture method and creation time never change, and the log only grows |
| `Interleavings.StoresAgree` | internal/infrastructure/persistence/postgres/payment_repository.go:41-54 | writing only the mutable columns, as SQL does, commits the same row as replacing the whole object |
| `Interleavings.MoneyIsConserved` | internal/application/usecase/refund_payment.go:50-68 | in every interleaving each refund the gateway confirmed is persisted, or was lost by a call that stopped, or belongs to a call still to commit |
| `Interleavings.MoneyIsConservedFromTheStart` | internal/application/usecase/refund_payment.go:50-68 | the same for every run from the empty system |
| `Serial.LegalMoveExtends` | internal/application/usecase/process_payment.go:102-123 | announcing a legal move extends a lifecycle history to a lifecycle history |
| `Serial.FreshCommitKeepsOrder` | internal/domain/payment/payment.go:53-115 | a commit on the row that was read keeps the history a lifecycle and strictly spends the measure of remaining stages and balance |
| `LostUpdates.CommitKeepsOrderIffFresh` | internal/application/usecase/process_payment.go:55-82 | in every reachable state, after a commit the payment has a lifecycle history and exact refund total if and only if it had them before and the stored row is the one the call read |
| `LostUpdates.ScarsStay` | internal/application/usecase/process_payment.go:55-82 | a payment whose history is broken, or of which a persisted refund is forgotten by the row and by every call in flight, stays so in every interleaving |
| `LostUpdates.RunInOrderIffFresh` | internal/application/usecase/process_payment.go:55-82 | a run leaves every payment in order if and only if each of its commits found the row its call had read |
| `Serial.NonOverlappingRunsAreFresh` | internal/application/usecase/process_payment.go:55-82 | when calls for one payment do not overlap, every commit finds the row its call read |
| `Serial.LifecycleOrder` | internal/application/usecase/process_payment.go:102-123 | without stale commits every payment's events follow the lifecycle grammar, its refunded amount is the sum of the persisted refunds and at most its amount, and it has at most amount plus three events |
| `Serial.NeverPendingAgain` | internal/domain/payment/payment.go:53-87 | in every interleaving a payment that left pending never returns to it |
| `Serial.OneOutcome` | internal/application/usecase/process_payment.go:102-123 | whatever else happens in between, without stale commits a payment out of pending has exactly one event that says how its processing came out, the second of its history |
| `Serial.GatewayTotal` | internal/application/usecase/refund_payment.go:50-68 | without stale commits and with no call in flight the gateway has refunded what the row says plus what was lost |
| `GatewayLimit.MayExceedIffUnsettled` | internal/application/usecase/refund_payment.go:50-68 | between two non-overlapping calls, the refunds at the gateway can come to exceed the payment if and only if they already do, or the payment is neither failed nor refunded in full |
| `GatewayLimit.RestStays` | internal/domain/payment/payment.go:92-102 | in any interleaving a payment that is failed or refunded in full, with only calls in flight that cannot be answered, stays as it is and no further refund is confirmed |
| `Authorisations.GrantsAreConserved` | internal/application/usecase/process_payment.go:60-84 | in every interleaving each authorisation and capture the gateway granted is used by a commit, or wasted, or belongs to a call still to commit |
| `Authorisations.GrantsMatchState` | internal/application/usecase/process_payment.go:60-84 | without stale commits, in particular when calls for one payment do not overlap, and with no call in flight, what was granted is what the state of the payment stands for, one of each at most, plus what was wasted |
| `Authorisations.TooLateIff` | internal/application/usecase/process_payment.go:60-70 | an answer of the gateway comes too late if and only if the call processes a payment it did not read as pending |
| `Authorisations.RedeliveryWastesGrant` | internal/application/usecase/process_payment.go:54-70 | whenever a payment is not pending, processing it again can get one more authorisation, which is wasted, and changes nothing else |
| `Authorisations.FailedYetAuthorised` | internal/application/usecase/process_payment.go:60-84 | a run after which a failed payment has an authorisation at the gateway |
| `Authorisations.NonOverlappingHistoryIsFresh` | internal/application/usecase/process_payment.go:55-82 | when calls for one payment do not overlap, every commit finds the row its call read, with the grants recorded too |
| `GrantLimits.MayFailAuthorisedIff` | internal/application/usecase/process_payment.go:60-84 | between two non-overlapping calls, a payment can come to be failed with an authorisation at the gateway if and only if it is pending or failed |
| `GrantLimits.ApprovedNeverFails` | internal/domain/payment/payment.go:53-87 | in any interleaving, a payment past its authorisation, with no call in flight that read it before, never fails |
| `GrantLimits.MayCaptureTwiceIff` | internal/application/usecase/capture_payment.go:38-62 | between two non-overlapping calls, the gateway can come to have captured a payment twice if and only if it has, or the payment is authorized, or pending with manual capture |
| `GrantLimits.NothingMoreCaptured` | internal/application/usecase/capture_payment.go:38-48 | in any interleaving, a payment that cannot be captured any more, with no call in flight that read it before, is not captured again at the gateway |
| `Authorisations.LifeOfHistory` | internal/application/usecase/process_payment.go:54-90 | without the ledgers of grants a history is a run of the use cases |
| `Serialisability.UncommittedCallLeavesNoTrace` | internal/application/usecase/refund_payment.go:44-68 | a call that does not commit, however far it got, can be erased from any run: rows, log, persisted refunds and all other calls come out the same |
| `Serialisability.WholeCallsAreRun` | internal/application/usecase/capture_payment.go:32-65 | whole calls one after another are a run in which calls do not overlap |
| `Serialisability.FreshRunsAreSerialisable` | internal/application/usecase/capture_payment.go:32-65 | however calls overlap, while every commit finds the row its call read the data is that of whole calls one after another |
| `Serialisability.RunSerialisableIffFresh` | internal/application/usecase/capture_payment.go:33-60 | whatever the interleaving, the data a run leaves is that of whole calls one after another if and only if every commit found the row its call had read |
| `Serialisability.CommitSerialisableIffFresh` | internal/application/usecase/capture_payment.go:33-60 | in every reachable state, a commit leaves the data reachable by whole calls if and only if it was so before and the commit finds the row its call read |
| `Witnesses.GatewayCanRefundTwice` | internal/application/usecase/refund_payment.go:50-68 | one call at a time, a lost commit and a repeated call: twice the amount is refunded |
| `Witnesses.OverlappingRefundsLoseOne` | internal/application/usecase/refund_payment.go:35-66 | two overlapping refunds are both confirmed and committed, and the row remembers one |
| `Witnesses.EveryCentAnEvent` | internal/domain/payment/payment.go:92-110 | for every amount some non-overlapping run reaches the bound of amount plus three events |
| `UseCases.PaymentRepository.Save` | internal/infrastructure/persistence/memory/payment_repository.go:48-54 | stores a fresh copy under the payment's id; all other payments stay |
| `UseCases.PaymentRepository.Update` | internal/infrastructure/persistence/memory/payment_repository.go:56-66 | replaces a stored payment by a fresh copy; an unknown id is not found and nothing changes |
| `UseCases.PaymentRepository.FindByID` | internal/infrastructure/persistence/memory/payment_repository.go:68-78 | a fresh copy of the stored payment, or not found |
| `UseCases.PaymentService.WithinTx` | internal/infrastructure/persistence/postgres/tx.go:37-52 | row and event are both written or neither is, wherever the transaction fails |
| `UseCases.PaymentService.Create` | internal/application/usecase/create_payment.go:47-77 | an invalid request or a failed transaction changes nothing; otherwise exactly the new row and its creation event appear |
| `UseCases.PaymentService.ApplyOutcome` | internal/application/usecase/process_payment.go:102-123 | the answer moves the payment and names the event as the transition system says, or reports an error and leaves it alone |
| `UseCases.PaymentService.ProcessPayment` | internal/application/usecase/process_payment.go:54-90 | ends in one of the ways a call may: not found, gateway error or invalid transition without change, or the outcome and its one event committed together or not at all; the gateway is asked once for any stored payment and its answer is the outcome; an approval is granted even when the state then refuses it; it is unavailable only if the gateway or the transaction failed |
| `UseCases.PaymentService.CapturePayment` | internal/application/usecase/capture_payment.go:32-65 | the same for captures, the move being made on the copy before the gateway is asked |
| `UseCases.PaymentService.RefundPayment` | internal/application/usecase/refund_payment.go:34-71 | the same for refunds, with the default to the whole balance and the confirmed amount recorded as persisted or lost; `RefundAnswered` spells it out |
| `UseCases.AnsweredIsRun` | internal/application/usecase/process_payment.go:54-90 | a use case as it runs is a run of the transition system; with an error it changed neither rows nor log, with success it added one event |
| `UseCases.CreationIsRun` | internal/application/usecase/create_payment.go:47-77 | a creation as it runs is a run of one step, or of none when it reports an error |
| `UseCases.AnsweredIsHistory` | internal/application/usecase/process_payment.go:54-90 | a processing or capture as it runs, with what the gateway granted in it, is a history of grants |
| `UseCases.RefundAnswered` | internal/application/usecase/refund_payment.go:34-71 | a payment that is not captured, or of which less is left than requested, is refused before the gateway is asked; otherwise exactly the requested amount, or what is left if nothing positive was requested, is refunded at the gateway, in the row and in the event, unless the gateway or the transaction fails |
| `UseCases.ProcessAnswered` | internal/application/usecase/process_payment.go:54-123 | only a pending payment is processed: it fails if declined, and else is authorized or completed by its capture method, with the event that says so; any error leaves everything as it was |
| `UseCases.CaptureAnswered` | internal/application/usecase/capture_payment.go:32-65 | only an authorized payment is captured; it is then completed, with the event that says so; any error leaves everything as it was |
| `UseCases.CreationAdds` | internal/application/usecase/create_payment.go:47-100 | a creation adds the row the request describes and an event with its id, type, terms and times |
| `UseCases.UnknownIsNotFound` | internal/application/usecase/process_payment.go:55-58 | a call is answered not found if and only if the payment is not stored, and then nothing changes |
| `Events.LifecyclePrefix` | internal/domain/payment/payment.go:53-110 | every beginning of a lifecycle is a lifecycle |
| `Outbox.OutboxRepository.Add` | internal/infrastructure/persistence/memory/outbox_repository.go:20-25 | appends one unpublished event |
| `Outbox.OutboxRepository.FetchUnpublished` | internal/infrastructure/persistence/memory/outbox_repository.go:27-42 | the oldest unpublished events in log order, as many as there are up to the limit |
| `Outbox.OutboxRepository.MarkPublished` | internal/infrastructure/persistence/memory/outbox_repository.go:44-56 | marks the first event with the id, in place; without one nothing changes |
| `Outbox.BatchWithinLimit` | internal/infrastructure/persistence/memory/outbox_repository.go:27-42 | a fetch keeps to its limit if and only if the limit is positive or nothing is pending |
| `Outbox.MarkedExact` | internal/infrastructure/persistence/memory/outbox_repository.go:44-56 | with distinct ids exactly the named event is marked, and no event changes or moves |
| `Broker.DedupExact` | internal/infrastructure/persistence/memory/audit_repository.go:26-32 | dropping repeats invents no message, loses no id and keeps each id once |
| `Broker.MessagesSay` | internal/application/outbox/relay.go:65-68 | an event travels under its own id, with its type as routing key and its own payload |
| `Broker.Exchange.Publish` | internal/application/outbox/relay.go:16-18 | a success put the message on the stream; a failure, which is counted, may have |
| `Relaying.StepKeepsInv` | internal/application/outbox/relay.go:59-75 | every step of any number of relays, failures and new events included, keeps log, marks, batches and stream in step |
| `Relaying.StreamIsPrefixOfLog` | internal/application/outbox/relay.go:59-75 | for any number of relays, the stream with repeats dropped is always a prefix of the log, each event with its id, type and payload |
| `Relaying.MarksFollowPublications` | internal/application/outbox/relay.go:65-71 | the marked events are the oldest ones and were published; at most one published event, the oldest unmarked, awaits its mark |
| `Relaying.LogAndStreamGrow` | internal/infrastructure/persistence/memory/outbox_repository.go:20-25 | log and stream only grow, along any run |
| `RelayService.MarkFirstPending` | internal/infrastructure/persistence/memory/outbox_repository.go:44-56 | marking the oldest pending event leaves exactly the others pending |
| `RelayService.RoundsToDrain` | internal/application/outbox/relay.go:59-75 | taking b at a time from n, r rounds suffice if and only if r is at least n divided by b, rounded up; the arithmetic behind the last clause of `Run` |
| `RelayService.Relay.Dispatch` | internal/application/outbox/relay.go:59-75 | a run of the transition system; a prefix of the batch is published in order, each event with its id, type and payload, and marked at the given time, all of it on success; it fails exactly when a fetch, publication or mark does, and then at most one more event reached the broker |
| `RelayService.Relay.Run` | internal/application/outbox/relay.go:39-55 | ticks fail exactly as often as there are faults; without any, each tick publishes the next batch, each event once and as it is, and nothing is pending if and only if there were n divided by b ticks, rounded up |
| `Audit.AppendIsDedup` | internal/application/audit/record.go:32-60 | recording a message with an id does to the trail what dropping repeats does to the stream |
| `Audit.EntryExact` | internal/application/audit/record.go:32-60 | the entry has the id of the message, or the hash of type and content if it has none, and its payment, type and payload |
| `Audit.StepKeepsInv` | internal/infrastructure/persistence/memory/audit_repository.go:22-33 | whatever is consumed, redelivered or dead-lettered, the trail holds each id once and only faithful records; with reliable delivery it is the consumed stream with repeats dropped |
| `Audit.AuditRepository.Append` | internal/infrastructure/persistence/memory/audit_repository.go:22-33 | the first record of an id prevails, later ones change nothing, order is kept |
| `Audit.AuditRepository.All` | internal/infrastructure/persistence/memory/audit_repository.go:36-45 | the entries in order of insertion |
| `Audit.AuditRepository.Record` | internal/application/audit/record.go:32-50 | on success the entry of the message is appended; it fails exactly for a malformed body or a fault of the store, and then the trail is as it was |
| `Pipeline.TrailIsPrefixOfLog` | internal/application/audit/record.go:32-56 | end to end, with in-order delivery, any redeliveries and no dead-lettering, the trail is exactly a prefix of the log: same ids, types and payloads |
| `Pipeline.TrailCatchesUp` | internal/application/outbox/relay.go:65-71 | once all is marked and consumed the trail is the whole log |
| `PipelineProgress.CanCatchUp` | internal/application/outbox/relay.go:59-75 | from every reachable state, crashed relays included, with reliable delivery some relay and audit steps alone make the trail the whole log |
| `PipelineProgress.StreamNamesPayments` | internal/application/usecase/create_payment.go:88-100 | every message of the stream names a stored payment with its true amount, currency and creation time, under a type that fits the status it carries |
| `PipelineProgress.RelayedIsFound` | internal/infrastructure/messaging/rabbitmq/consumer.go:138-149 | processing what a relayed message names is never not found: it succeeds on a pending payment, is refused on one that is not, or the gateway or transaction fails |
| `Pipeline.TrailIsPartOfLog` | internal/infrastructure/persistence/memory/audit_repository.go:22-33 | with reordering and dead-lettering the trail still has no duplicates and only records of logged events, under the right payment |
| `Pipeline.BeginningIsLifecycle` | internal/application/usecase/process_payment.go:102-123 | without stale commits every beginning of the log shows, for each payment in it, a beginning of its history that is itself a lifecycle |
| `Pipeline.TrailTellsLifecycles` | internal/application/usecase/process_payment.go:102-123 | an auditor sees, for each payment, a beginning of its history that is itself a proper lifecycle |
| `Pipeline.LifeOfRun` | internal/application/outbox/relay.go:39-55 | relays and audit never influence the use cases: without them the run is still a run |
| `Messaging.PaymentConsumer.ProcessWithRetry` | internal/infrastructure/messaging/rabbitmq/dlq.go:59-75 | tries until the first success, and exactly once plus the retries unless it succeeds or is told to stop; the gateway is asked at every try for a stored payment, and for a pending one every failed try is a fault; on error rows, log and refunds are as before; each try may have left one authorisation for the payment at the gateway, and nothing else was granted |
| `Messaging.PaymentConsumer.Handle` | internal/infrastructure/messaging/rabbitmq/consumer.go:128-161 | a message is acknowledged when its last attempt committed the payment's move out of pending; one of a pending payment is dead-lettered only after faults; a dead-lettered one left rows, log and refunds as before, and at most one authorisation per attempt at the gateway |
| `Messaging.PaymentConsumer.Start` | internal/infrastructure/messaging/rabbitmq/consumer.go:103-125 | over any messages, redeliveries included, the acknowledged ones are of different payments, which are exactly those moved out of pending, each with exactly one outcome event, and nothing else changes; without faults they are all the pending ones that are named; the authorisations granted are for payments the messages name, at most one per attempt; with negative retries all that parse are acknowledged and nothing changes |
| `Traffic.Deployment.Serve` | internal/infrastructure/messaging/rabbitmq/consumer.go:103-125 | the same loop with any number of creations, captures and refunds before each message: the handled messages are of different payments, exactly those that were pending or not yet there and have been processed, each with exactly one event that says so; without faults they include every pending payment that is named |
| `Traffic.HandledThenHandled` | internal/infrastructure/messaging/rabbitmq/consumer.go:103-125 | what two stretches of mixed traffic processed adds up, with no payment in both |
| `Traffic.OthersHandleNothing` | internal/application/usecase/capture_payment.go:32-65 | a capture or refund, however it ends, processes no payment and says no outcome |
| `Messaging.MovedThenMoved` | internal/infrastructure/messaging/rabbitmq/consumer.go:103-125 | what two stretches of handling moved adds up, with no payment in both |
| `Messaging.AuditSubscriber.Handle` | internal/infrastructure/messaging/rabbitmq/subscriber.go:125-142 | when at least one attempt is made, an acknowledged message is in the trail and a dead-lettered one left it alone, after a fault at every attempt or a malformed body; with negative retries nothing is recorded |
| `Webhooks.DelaysExactIffFits` | internal/application/webhook/retry.go:21-26 | every scheduled delay is the base times a power of two if and only if the longest one fits in 64 bits |
| `Webhooks.DelayModulo` | internal/application/webhook/retry.go:21-26 | whatever the policy, the computed delay differs from the base times a power of two by a multiple of 2 to the 64th |
| `Webhooks.AttemptExact` | internal/application/webhook/retry.go:36-57 | a status from 200 to 299, and nothing else, delivers; any other answer is recorded as the reason, final at the cap and else scheduled; the rest of the record stays |
| `Webhooks.DueFromSchedule` | internal/infrastructure/persistence/memory/webhook_repository.go:94-97 | after an attempt a delivery is due from its scheduled time on if it failed with attempts left, and never otherwise |
| `Webhooks.KeysAreDistinct` | internal/infrastructure/persistence/memory/webhook_repository.go:80-87 | records of different subscriptions or events have different keys, when subscription ids hold no colon |
| `Webhooks.StepKeepsInv` | internal/application/webhook/retry.go:36-50 | every dispatch and retry, saved or not, keeps records within the cap and their attempts spaced by the scheduled delays |
| `Webhooks.RecordsAreSound` | internal/domain/webhook/delivery.go:51-75 | in every run failed records, and only they, have a schedule and attempts left; exhausted ones have used the cap; delivered ones kept to it |
| `Webhooks.PotentialDrops` | internal/application/webhook/retry.go:106-132 | each saved retry lowers the sum of attempts left by at least one |
| `Webhooks.RetriesAreBounded` | internal/application/webhook/retry.go:106-132 | between dispatches the sends are at most the attempts that were left plus the saves that failed |
| `Webhooks.TerminalRecordsRest` | internal/infrastructure/persistence/memory/webhook_repository.go:94-97 | until dispatched again, delivered and exhausted records never change and are never sent |
| `Webhooks.RecordSurvivesIff` | internal/application/webhook/dispatch.go:46-73 | over any run with fresh record ids, an event keeps its record, with its payload and attempts, if and only if no dispatch under the same key is saved |
| `Webhooks.ExhaustionTakesTime` | internal/application/webhook/retry.go:107-123 | a delivery that is given up was tried over at least the sum of the delays scheduled for it; when the longest delay fits in 64 bits that is base times (2 to the cap minus one, minus one) |
| `WebhookService.Delivery.MarkDelivered` | internal/domain/webhook/delivery.go:51-57 | one more attempt, delivered, no error and no schedule |
| `WebhookService.Delivery.MarkForRetry` | internal/domain/webhook/delivery.go:60-66 | one more attempt, failed, with the reason and the next time |
| `WebhookService.Delivery.MarkExhausted` | internal/domain/webhook/delivery.go:69-75 | one more attempt, exhausted, with the reason and no schedule |
| `WebhookService.ApplyAttemptOutcome` | internal/application/webhook/retry.go:36-50 | a 2xx answer delivers; any other is final at the cap and otherwise scheduled with backoff |
| `WebhookService.SubscriptionRepository.FindActiveByEventType` | internal/infrastructure/persistence/memory/webhook_repository.go:37-48 | the selection that the next two rows describe |
| `WebhookService.ActiveOfExact` | internal/infrastructure/persistence/memory/webhook_repository.go:37-48 | every active subscription to the type is selected as often as it is stored, and no other |
| `WebhookService.ActiveOfConcat` | internal/infrastructure/persistence/memory/webhook_repository.go:37-48 | the selection keeps the order: that from two stretches is the two selections, one after the other |
| `WebhookService.SubscriptionRepository.FindActiveById` | internal/infrastructure/persistence/memory/webhook_repository.go:52-62 | an active subscription with the id, or there is none |
| `WebhookService.DeliveryRepository.Save` | internal/infrastructure/persistence/memory/webhook_repository.go:80-87 | upsert by subscription and event; every other record stays |
| `WebhookService.DeliveryRepository.FetchRetriable` | internal/infrastructure/persistence/memory/webhook_repository.go:89-109 | only failed, scheduled, due records of active subscriptions, each with the url and secret of such a subscription, none twice, within the limit, and all of them if the limit is not reached |
| `WebhookService.WebhookDelivery.Dispatch` | internal/application/webhook/dispatch.go:38-66 | a run of the transition system; every request goes to the url and under the secret of an active subscription to the event type, with the event and its delivery id; on success every such subscription gets one, in order |
| `WebhookService.WebhookDelivery.DispatchOne` | internal/application/webhook/dispatch.go:46-63 | the record starts afresh with one attempt, delivered if and only if the endpoint answered from 200 to 299 |
| `WebhookService.DeliveryIdsAreDistinct` | internal/application/webhook/dispatch.go:70-73 | different subscriptions, event types or payments have different delivery ids, under a digest that tells inputs apart and without colons in subscription ids and types |
| `WebhookService.WebhookDelivery.RetryBatch` | internal/application/webhook/retry.go:106-132 | a run of retries only, each sent to the url and under the secret of an active subscription; it fails exactly when a save does; otherwise, unless the batch was full, every due delivery of an active subscription was tried once more |
| `WebhookService.SecondRefundSilencesFirst` | internal/application/webhook/dispatch.go:46-73 | two refund events of one payment: the failed delivery of the first, with retries left, is replaced by the delivered second and never sent again |
| `WebhookService.WebhookDelivery.Run` | internal/application/webhook/retry.go:87-102 | over any number of ticks the sends are bounded by the attempts left plus failed saves, and delivered and exhausted deliveries stay as they are, unsent; ticks fail exactly as often as saves do; without failures and with unbounded batches all that was due is sent |
| `Idempotency.MutualExclusion` | internal/application/idempotency/service.go:34-47 | in every interleaving, crashes included, no two calls for one key are both between lock and unlock |
| `Idempotency.ValidKeyExact` | internal/application/idempotency/service.go:71-77 | with any white space around it, a key is valid if and only if the rest has at most 255 characters |
| `Idempotency.BlankKeyIsInvalid` | internal/application/idempotency/service.go:71-77 | a key of nothing but white space is not valid |
| `Idempotency.KeySplits` | internal/application/idempotency/service.go:71-77 | every other key is such a rest with white space around it |
| `Idempotency.SavedStays` | internal/application/idempotency/service.go:28-32 | once a response is saved it stays, and every call that later holds or awaits the lock for the key, or has succeeded under it, looked before the save |
| `Idempotency.SuccessesAreBounded` | internal/application/idempotency/service.go:28-61 | successful runs per key are at most the calls that looked before the first save |
| `Idempotency.SecondSuccessIff` | internal/application/idempotency/service.go:34-61 | in every reachable state, for every valid key, another success is possible if and only if: with a response saved, a call past its lookup is about to run or can still get the lock; with none saved, the lock is free or held by a call that has not crashed |
| `Idempotency.UnsavedSuccessesRepeat` | internal/application/idempotency/service.go:54-59 | without overlap, when saves fail, the operation succeeds under one key any number of times |
| `Idempotency.TwoSuccesses` | internal/application/idempotency/service.go:34-49 | two calls that both look before either saves can both succeed |
| `IdempotentCreate.ServeExact` | internal/application/idempotency/service.go:18-62 | the reply and what is stored and locked afterwards, in every case: invalid key, failing lookup, saved response with same or other hash, lock not given, operation failed, answer saved if and only if its status is from 200 to 299 and the store can |
| `IdempotentCreate.WithoutLockExact` | internal/application/idempotency/service.go:38-46 | without the lock, a response found at the second look is matched like one found at the first, and otherwise the call is already processing |
| `IdempotentCreate.ServeIsRun` | internal/application/idempotency/service.go:18-62 | a call on its own, whichever of its requests to the store fail, is a run of the transition system with the same effect |
| `IdempotentCreate.AtMostOneSuccess` | internal/application/idempotency/service.go:64-69 | one call after another, after a success that the store saved the operation never runs again for the key; the same hash gets that very response, another hash the conflict error, a failing lookup the error of the store |
| `IdempotentCreate.RunsIff` | internal/application/idempotency/service.go:24-52 | one call after another, a call runs the operation if and only if its key is valid, the store answers its lookup and lock request, and no earlier call for the key saved a success or failed to unlock |
| `IdempotentCreate.OneSuccessPerKey` | internal/application/idempotency/service.go:54-59 | the successes are as many as the stored keys and the successes that could not be saved |
| `IdempotentCreate.OthersCreateNothing` | internal/application/usecase/process_payment.go:54-90 | processing, capturing and refunding add no payment and no creation event |
| `IdempotentCreate.MemoryIdempotencyRepo.Lock` | internal/testutil/mocks.go:36-45 | acquired exactly when it was free; held afterwards either way |
| `IdempotentCreate.MemoryIdempotencyRepo.Unlock` | internal/testutil/mocks.go:47-52 | the lock is free and nothing else changes |
| `IdempotentCreate.MemoryIdempotencyRepo.Save` | internal/testutil/mocks.go:54-59 | the response is stored under the key and nothing else changes |
| `IdempotentCreate.MemoryIdempotencyRepo.Find` | internal/testutil/mocks.go:61-66 | the stored response, or none |
| `IdempotentCreate.CreateEndpoint.Create` | internal/infrastructure/http/handler/payment_handler.go:62-86 | served as the idempotency protocol says, whichever requests to the store fail; when the operation runs it succeeds, with status 201, unless the request is not acceptable or the transaction fails; a payment and its event appear exactly when it succeeds, and payments and creation events are as many as the stored keys and the unsaved successes |

## Left out

- A nil transaction manager, outbox or gateway: the model has all three, as the services are wired.
- A commit that takes effect although it reports an error: a transaction that reports an error leaves nothing.
- Failures of the payment store on reading: only "not found" is modelled.
- A gateway that acts although it reports an error: the confirmed refunds are those it confirmed.
- SQL, AMQP and Redis themselves, including expiry of locks and responses: replaced by the in-memory stores; the lock and data maps never expire.
- A request to the idempotency store that takes effect although it reports an error: one that fails leaves the store as it was.
- The SQL order of outbox events by creation time: the model uses the order of insertion, which is the same when commits come in order of creation.
- JSON, SHA-256, HMAC and UUIDs: payloads are datatypes, hashes are function parameters, identifiers are fresh inputs.
- The HTTP router, handlers and middleware (but for the idempotent create), configuration, process wiring, migrations.
- Notifications, listing and pagination, deletion and response mapping: nothing in them depends on the protocols above.
- White space other than ASCII in idempotency keys, and keys with characters of more than one byte.
- The retry poller racing with a dispatch or with a second poller on one record: a fetched delivery is retried as it was fetched.
- Webhook deliveries are stored as values: that the store copies them in and out holds by construction.
- Negative batch sizes: allocating the batch panics in the source.
- Wall-clock details: time is an integer number of nanoseconds, never decreasing and never before the Unix epoch; tickers and waits are reduced to the ticks that happen.
- Cancellation other than between message attempts: loops run for a given number of ticks or messages.
- The reason text a declined authorisation is logged with, and logging in general.
- RelayService.Relay.Run: says nothing about the stream of a run with failed dispatches, which `Relaying.StreamIsPrefixOfLog` covers.
- Functions as arguments: the retry loop, which takes its handler as an argument, is written out for each of its two handlers.
- Messaging.PaymentConsumer.Start: lets no other use case run between two messages, so that it can say that nothing else changes; `Traffic.Deployment.Serve` lets them.
- Helper methods hold parts of some source functions (among them `Send`, `SendAll`, `FetchBatch`, `Tick`, `Decide`, `Deduct`, `WriteInTx`, `DispatchAll`, `RetryAll`, `HandleNext`, `RunLocked`, `RunAndUnlock`), so that each contract stays small.
