# Shippy: the capacity and payment saga, modelled and proved

Shippy books containers onto vessels. A consignment reserves capacity at the vessel service,
its payment is authorised and captured, the reservation is confirmed at the vessel or released,
and the payment is kept or given back. Four services take part, joined by outbox tables and
Kafka topics, with no coordinator. This project models that saga in Dafny and proves what holds
in every run of it, and for each fault that breaks a guarantee it proves that the fault does.

Verify it with `dafny verify dfyconfig.toml`.

## How it is built

Every store and service is a class whose methods follow the Go code branch by branch; each
method is proved equal to a specification function of the old state (`Exec`, `Process`,
`OnAuthorised`, ...). Failures are parameters: which database step fails, whether a message or
its reply is lost, whether a write fails. `SagaSystem` takes its handler steps with these
functions; for `CapacitySystem`, for the pollers of `OutboxLease` and for the confirm call of the
saga, run lemmas show that what the methods do is a run of the system's smaller steps
(`CapacityHandlers.HandlerRun`, `CapacityReserve.ReserveRun`, `OutboxRuns.PublishRun`,
`SagaServer.ConfirmRequestRun`). So what is proved of the runs holds of those methods.

What each operation answers and leaves behind is also read off the failures alone, without its
loop: when a retry loop succeeds and where it stops (`CapacityManager.CallsExactly`,
`ReserveRpc.HeardExactly`), what a repeat is told (`VesselLedger.RepeatIsTold`,
`Payments.AnswersMeanIt`), which rows of a batch are sent (`Outbox.SentByPlace`), what a cleanup
query may answer (`ReservationCache.AnswersAreTrue`), and that no message is lost track of
(`CapacityManager.NoMessageIsLost`, `Consignments.NoAuthorisedIsLost`).

| file | what it holds |
|---|---|
| `VesselLedger`, `LedgerSafety` | the vessel repository; what any history of calls leaves; which histories keep the counters in bounds |
| `ReservationCache` | the two-key Redis scheme, the cleanup scan and its time window |
| `Outbox`, `OutboxLease`, `OutboxRuns` | the two outbox tables, the publishing loop, pollers competing under leases on one clock, and the loop as a run of a poller |
| `Payments` | the payment service over any sequence of calls |
| `CapacityManager`, `ReserveRpc` | the reservation service: event handlers, cleanup pass, RPCs |
| `Consignments` | the consignment service: record, RPCs, event handlers |
| `CapacitySystem`, `CapacitySafety`, `CapacityFaults` | capacity under concurrency (see below), its invariant, and its fault boundary |
| `CapacityHandlers`, `CapacityReserve` | the handlers and the reserve RPC are runs of `CapacitySystem` |
| `RetryBound` | how much work one event can cause |
| `SagaSystem`, `SagaHandlers`, `SagaInvariant`, `SagaFrames`, `SagaSafety`, `SagaCapture`, `SagaSteps`, `SagaRuns` | the whole saga and the invariant of its runs |
| `SagaVerdicts`, `SagaFaults`, `SagaReplays`, `SagaStatuses` | what the invariant says of verdicts, payment, capacity and status, and the exact faults each of these bears |
| `SagaStranded`, `SagaEndings`, `SagaServer` | captured money that never gets a verdict; which step brings that about; the server call as a run |

### The two fault models

`CapacitySystem` interleaves single store commands and single calls of any number of handler
and cleanup instances; a cleanup pass may insert anything some pass has fetched, at any later
time. Captured, expired, release-retry and dead-letter messages may be duplicated, reordered and
lost, a handler may crash between any two steps, and a failed reserve or release call may have
been applied. Three further faults are parameters: a cache-cleared confirm message
run again after it scheduled its successor, one run again after its confirm was applied, and a
confirm call that fails although it was applied. A cache-cleared confirm message is delivered to
one handler at a time. Weights and counts are non-negative, vessel ids unique, and runs fit
inside the 30 days the operation log is kept.

`SagaSystem` runs whole handlers one at a time, as each service's single consumer loop does,
while the server's RPC steps interleave with them. There is one confirm call per consignment.
What reports an error had no effect: a vessel or cache call, a transaction, an outbox insert, and
the server's announcement of an authorised payment. Refunds, voids and the server's authorisation
are the exception; they may be applied although their reply is lost. Expiry, release and verdict
rows may be delivered any number of times, and any row may be lost. Seven faults are parameters.
Three are around a capture: the write that reschedules a failed capture run fails, a capture call
that reports an error was applied, and the handler stops between its capture calls and its first
write. Four are rows handled again after their handler returned without error, which happens when
the consumer then fails to commit its offset (pkg/kafka/consumer.go:112-114): authorised rows,
captured rows, rows of the confirm topic, and dead letters.

### What the code does not guarantee

- A cache-cleared confirm message that is delivered again after its confirm was applied can
  fail, die, and release the same reservation; the vessel's counter goes negative. The two
  safety properties of capacity hold exactly if none of the three extra faults can happen
  (`CapacityFaults.SafetyNeedsNoReplays`). Shippy's own README.md:95 attributes correctness under
  duplicates to the operation log alone; the log makes each operation happen once, but it does
  not keep a confirm and a release of one reservation apart. The gate does.
- docs/saga-overview.md:7 calls every consumer idempotent. Handling an authorised, captured or
  confirm row a second time can write both verdicts of one consignment, refund a payment whose
  capacity stays confirmed, and overwrite status confirmed; a dead letter handled twice can be
  announced twice. Each guarantee is tied to exactly the rows that must not be handled again
  (`SagaReplays.VerdictsNeedOneHandling`, `SagaReplays.AgreementNeedsOneConfirm`,
  `SagaStatuses.FinalStatuses`, `SagaFaults.CompensationNeedsNoFaults`).
- Even without that, a cancelled consignment goes back to confirmation_pending when its authorised
  event is handled after its expiry (`SagaStatuses.CancelledComesBack`).
- A committed capture can end without a verdict: its payment stays captured and its status
  confirmation_pending in every later world (`SagaStranded.StrandedForever`). It happens exactly
  when every captured and confirm row of the consignment was handled and none became a verdict
  (`SagaStranded.StrandedExactly`). Exactly three kinds of steps bring that about
  (`SagaEndings.EndsExactly`). The confirm finds the cache empty, for example because its expiry
  won the gate (`SagaStranded.ExpiryStrands`); docs/known-limitations.md:31 describes the other
  order, in which the capture wins and the payment is rightly kept. Or the confirm is applied and
  its verdict cannot be written (`SagaEndings.VerdictUnwritten`). Or its retry is taken for a
  pending row with the same topic and key: the dead letters of a release and of a confirm share
  both, so while the dead letter of the reservation's release is pending, the index swallows the
  confirm's, and the failure that docs/saga-overview.md:195 promises is never announced
  (`SagaEndings.DeadLetterSwallowed`).
- docs/known-limitations.md:33 says a void is attempted on an already captured payment when the
  reservation expires. The expiry handler makes no payment call at all
  (`Consignments.ExpiryNeverRefunds`); the void on a captured payment happens when capture
  retries run out after a capture the service did not hear of or did not record, or when an
  authorised row is handled again after that. Any one of the three capture faults or of that
  replay is enough for it, and without them it never happens
  (`SagaFaults.CompensationNeedsNoFaults`, `SagaFaults.NothingStranded`).
- Two authorisations of one consignment share one capture id, and refunds can leave one of them
  captured however often they are asked (`Payments.TwoAuthorisationsStrand`); they release
  everything exactly if no captured payment shares its id (`Payments.RefundsReleaseAll`).
- An authorisation whose answer is lost is never voided: the server cancels the consignment and
  knows no authorisation to undo (`Consignments.AuthorisationHangs`).
- A reserve whose answer is lost can be told on the resend that no vessel has room, and the
  capacity it took is then held by nobody (`ReserveRpc.LostAnswerThenFull`).
- The operation log's rows expire after 30 days. A release or confirm repeated after that moves
  the counters again (`VesselLedger.RepeatNeedsItsRow`); one repeated before is harmless
  (`VesselLedger.AgingIsHarmless`).
- A cleanup pass can report a reservation stored between its two scans
  (`ReservationCache.StoreBetweenScansMisreports`); the exact condition for a pass to be right is
  `ReservationCache.NothingLiveReported`.

## Model

| member | source | states |
|---|---|---|
| VesselLedger.MongoRepository.ReserveCapacity | cmd/vessel-service/repository.go:91-176 | for every step at which the transaction can fail, reply and collections are those of one atomic step; a repeat answers with the vessel first reserved, unless the find comes up empty first |
| VesselLedger.MongoRepository.ReleaseCapacity | cmd/vessel-service/repository.go:179-225 | an abort anywhere leaves both collections as they were; an Ok reply means the release is logged |
| VesselLedger.MongoRepository.ConfirmCapacity | cmd/vessel-service/repository.go:228-276 | the same for a confirm, which moves the amounts from reserved to used |
| VesselLedger.ExactlyOnce | cmd/vessel-service/repository.go:55-58 | any history with repeats and aborts leaves the ledger that the first successful call per (reservation, operation) leaves |
| VesselLedger.EntriesAreKept | cmd/vessel-service/repository.go:147-169 | the log entries of a history are the effects of exactly those first successful calls |
| VesselLedger.Conservation | cmd/vessel-service/repository.go:125-130 | every counter is its starting value plus the logged reserves minus releases and confirms (reserved) or plus confirms (used), and the log holds each key once |
| VesselLedger.OpsKept | cmd/vessel-service/repository.go:72-79 | a logged operation is never overwritten by any later history of calls |
| VesselLedger.LoggedIsFresh | cmd/vessel-service/repository.go:72-84 | over any history of calls and expiring log rows, an operation is logged if and only if it has succeeded, or was there at the start, and its row has not expired since |
| VesselLedger.RepeatNeedsItsRow | cmd/vessel-service/repository.go:80-83 | after any such history a further release or confirm leaves every counter alone if and only if its operation has succeeded since its row last expired, or it moves nothing |
| VesselLedger.AgingIsHarmless | cmd/vessel-service/repository.go:80-83 | if no operation is called again after its row expired, the counters are those of the calls alone and the log is theirs without the expired rows |
| VesselLedger.RepeatIsTold | cmd/vessel-service/repository.go:147-165 | after any history in which a call succeeded, a repeat changes nothing and is told of the success if and only if no step fails it and, for a reserve, its find still meets room; a repeated reserve hears of the vessel first reserved |
| VesselLedger.OrderIndependence | cmd/vessel-service/repository.go:179-276 | any permutation of a batch of releases and confirms leaves the same counters and the same log |
| LedgerSafety.OrderlyNonNegative | cmd/vessel-service/repository.go:205-262 | if every release and confirm follows its own reserve and no second one follows, no counter ever goes negative |
| LedgerSafety.ReleasedIsNeutral | cmd/vessel-service/repository.go:205-211 | a reservation that was reserved and released contributes nothing to any counter |
| ReservationCache.Cache.Store | cmd/reservation-service/storage/redis/redis.go:50-70 | each way the two writes can fail leaves the keys that were written; success means both keys are there, and data is never written before the id key |
| ReservationCache.Cache.Refresh | cmd/reservation-service/storage/redis/redis.go:164-171 | extends a live id key only, never makes one, and reports whether it existed; a failed command is an error whether or not it took effect |
| ReservationCache.Cache.DeleteData | cmd/reservation-service/storage/redis/redis.go:173-182 | reports true exactly to the caller that removed the data key |
| ReservationCache.Cache.DeleteID | cmd/reservation-service/storage/redis/redis.go:184-193 | removes the id key and nothing else and reports whether it was there; a failed command may have removed it |
| ReservationCache.Cache.GetExpired | cmd/reservation-service/storage/redis/redis.go:93-162 | the loops over scan batches compute the report of those batches, and a failed scan or fetch is an error, but for a fetch of no keys, which is not made |
| ReservationCache.AnswersAreTrue | cmd/reservation-service/storage/redis/redis.go:93-162 | whichever command fails, an answer names no reservation whose id key was there throughout the id scan and misses none with data throughout and no id key at any time; there is no answer if and only if a scan failed or a fetch of something did |
| ReservationCache.PassIsExact | cmd/reservation-service/storage/redis/redis.go:91-92 | with no store while the pass runs and keys only vanishing, whatever is reported has no id key any more, every entry that had none at the start is reported, and if no id key vanished meanwhile the report is exactly the data entries without an id, even when scans repeat keys |
| ReservationCache.StoreBetweenScansMisreports | cmd/reservation-service/storage/redis/redis.go:98-124 | one run outside that condition: a store between the two scans makes a live reservation reported as expired |
| ReservationCache.NothingLiveReported | cmd/reservation-service/storage/redis/redis.go:98-159 | whatever happens to the keys meanwhile: no report of any scans the store may return names a live reservation if and only if each one live with data at the fetch, whose data key the data scan could meet, had its id key throughout the id scan |
| ReservationCache.PassBetweenInstants | cmd/reservation-service/storage/redis/redis.go:98-159 | the same with the condition read off the keys at the ends of the two scans and at the fetch |
| ReservationCache.NothingExpiredMissed | cmd/reservation-service/storage/redis/redis.go:98-159 | every expired reservation is reported by all such scans if and only if its data key was there throughout the data scan and its id key at no time of the id scan |
| ReservationCache.Window | cmd/reservation-service/storage/redis/redis.go:50-70 | with refreshes at any times, a pass at p reports a reservation stored at t exactly if s + idTTL <= p < t + dataTTL, where s is the last refresh that found the id key live; one that comes too late revives nothing |
| ReservationCache.ExpiryGuarantee | cmd/reservation-service/manager/manager.go:114-132 | passes every C units report it, whatever their phase, if and only if s - t <= dataTTL - idTTL - C |
| ReservationCache.NeverReported | cmd/reservation-service/storage/redis/redis.go:47-49 | no pass at any time reports it if and only if s - t >= dataTTL - idTTL |
| ReservationCache.DefaultWindow | cmd/reservation-service/config/config.go:58-62 | with the default settings the guarantee ends at a last refresh 1140 s after the store |
| Outbox.OutboxTable.CreateEvent | cmd/reservation-service/storage/postgres/outbox.go:17-35 | under the pending-unique index a second row with the same pending (key, topic) is swallowed and reported as success |
| Outbox.OutboxTable.MarkPublished | cmd/reservation-service/storage/postgres/outbox.go:37-49 | marks that row and no other, or fails without effect |
| Outbox.OutboxTable.ClaimSkippingLocked | cmd/reservation-service/storage/postgres/outbox.go:51-111 | the batch is the eligible unlocked rows in created order, exactly those are leased, and a failure leases none |
| Outbox.OutboxTable.ClaimById | cmd/consignment-service/storage/mongo/outbox.go:76-133 | fetching by a fresh claim id returns exactly the rows that were eligible; a failure part-way leaves only leases behind |
| Outbox.Publisher.PublishBatch | cmd/reservation-service/manager/outbox.go:36-95 | which rows of a batch are sent, and which are marked, for every pattern of produce and mark outcomes; an error is returned if and only if the broker is unreachable at a row the loop gets to |
| Outbox.SentByPlace | cmd/reservation-service/manager/outbox.go:53-92 | row by row: a row reaches the broker if and only if its own produce does and no earlier row ends the loop, by the deadline, a done context or an unreachable broker; it is marked if and only if it is then produced and marked; a row that fails alone keeps no other back |
| Outbox.SentAndMarked | cmd/consignment-service/manager/outbox.go:53-92 | what is sent is a subsequence of the batch in order, and only sent rows are marked |
| Outbox.PassesConverge | cmd/reservation-service/database/sql/init.sql:14-16 | any number of cleanup passes before publication leaves exactly one pending expiry row per reported reservation |
| OutboxLease.LeaseExclusion | cmd/reservation-service/manager/outbox.go:36-78 | for any number of pollers and both claim styles, no run has two pollers producing one row if and only if deadline <= lease |
| OutboxLease.LongDeadlineOverlaps | cmd/consignment-service/manager/outbox.go:36-78 | with a longer deadline, a run in which two pollers produce one row |
| OutboxLease.ConfiguredLeaseExcludes | cmd/reservation-service/manager/outbox.go:13-16 | the 20 s deadline under the 30 s lease excludes overlap in both stores |
| OutboxLease.RunsOnlyAdd | cmd/reservation-service/storage/postgres/outbox.go:37-49 | no run, from any state, removes a row, changes its content, takes a mark back, or takes back or reorders what was produced |
| OutboxLease.NothingIsLost | cmd/reservation-service/manager/outbox.go:53-92 | in every run a row marked published was produced, and a row that is not marked is eligible again once its lease has lapsed, whether it was never produced or was produced and its mark failed |
| OutboxRuns.PublishRun | cmd/reservation-service/manager/outbox.go:36-95 | a claim in either style followed by the publishing loop, with any outcomes, is a run of one poller's steps that leases, sends and marks what the methods specify |
| Payments.PaymentHandler.Authorise | cmd/payment-service/handler.go:37-54 | one new payment in state authorised, nothing else changed |
| Payments.PaymentHandler.Capture | cmd/payment-service/handler.go:56-84 | a repeat answers with the first capture id; any other state but authorised is refused without effect |
| Payments.PaymentHandler.Refund | cmd/payment-service/handler.go:86-120 | the scan, in any map order, acts on the first payment with that capture id |
| Payments.PaymentHandler.Void | cmd/payment-service/handler.go:122-143 | voids an authorised payment, repeats without effect, refuses a captured one |
| Payments.AnswersMeanIt | cmd/payment-service/handler.go:56-143 | a call is answered with success if and only if it leaves its payment captured, refunded or voided as asked; a refusal changes nothing; a repeat after a success changes nothing and answers the same |
| Payments.OnlyForward | cmd/payment-service/handler.go:56-143 | over any calls a status only moves authorised to captured to refunded, or authorised to voided, and a capture id never changes once set |
| Payments.RunConsistent | cmd/payment-service/handler.go:77-78 | with one authorisation per consignment, capture ids are the consignments' own and unique |
| Payments.RefundIsDetermined | cmd/payment-service/handler.go:90-97 | then what a refund does and answers does not depend on the map order |
| Payments.RepeatedRefundIsIdle | cmd/payment-service/handler.go:102-108 | and a repeated refund changes nothing and answers the same, in any order |
| Payments.RefundOrderFree | cmd/payment-service/handler.go:92-97 | in general the map order is irrelevant to the table if and only if no captured payment shares its capture id |
| Payments.RefundReleasesAll | cmd/payment-service/handler.go:90-114 | a refund leaves no payment captured under its id, in every map order, if and only if no captured one shares that id with a second payment |
| Payments.RefundsReleaseAll | cmd/payment-service/handler.go:102-114 | asking any number of times does not change that condition |
| Payments.TwoAuthorisationsStrand | cmd/payment-service/handler.go:86-120 | one run outside that condition: two authorisations of one consignment leave one capture unrefunded after two refunds |
| Consignments.ConsignmentRepository.Create | cmd/consignment-service/storage/mongo/mongo.go:44-48 | a new record is always pending, an existing id is refused |
| Consignments.ConsignmentRepository.UpdateStatus | cmd/consignment-service/storage/mongo/mongo.go:50-62 | only the status of that record changes, with no guard on the old one |
| Consignments.ConsignmentRepository.Update | cmd/consignment-service/storage/mongo/mongo.go:64-86 | the given fields change together or not at all; an empty update succeeds even without a record |
| Consignments.ConsignmentManager.CommitCaptured | cmd/consignment-service/manager/event.go:97-108 | outbox row, status and payment id are written together or none of them is |
| Consignments.ConsignmentManager.CallPayment | cmd/consignment-service/manager/event.go:61-68 | the retry loop's reply, payments and number of calls for every pattern of lost messages and replies |
| Consignments.CallsStop | cmd/consignment-service/manager/event.go:61-68 | the calls made are those up to the first success, or all of them if none succeeds |
| Consignments.ConsignmentManager.PublishPaymentAuthorised | cmd/consignment-service/manager/event.go:262-313 | past three retries the event turns into a failure event with the same capture flag and ids |
| Consignments.ConsignmentManager.HandlePaymentAuthorised | cmd/consignment-service/manager/event.go:38-120 | the whole run, and it returns no error exactly if the transaction committed or the rescheduling was written |
| Consignments.NoAuthorisedIsLost | cmd/consignment-service/manager/event.go:57-120 | whatever fails, a run that returns no error leaves one row that carries the saga on: the captured row with its record, the rescheduled event, or past the limit a failure event that says what it knew; one that returns an error left rows and records alone |
| Consignments.ConsignmentManager.HandleFailedConfirmation | cmd/consignment-service/manager/event.go:122-180 | refund or void as the event says, then cancel even if that failed; no error means cancelled, an error means no record was changed |
| Consignments.ConsignmentManager.HandleExpiredReservation | cmd/consignment-service/manager/event.go:182-229 | acts on pending consignments only, and no error means that the record is not left pending |
| Consignments.ConsignmentManager.HandleReservationConfirmed | cmd/consignment-service/manager/event.go:231-260 | no error means confirmed, and it errors exactly if the record is missing or the write fails |
| Consignments.UpdatesAreTrue | cmd/consignment-service/manager/event.go:122-260 | the three runs that end in a status write: no error means the status they are for, an error means no record changed and the record could not be read or written |
| Consignments.ConsignmentServer.CreateConsignment | cmd/consignment-service/server/handler.go:48-75 | the call succeeds if and only if the reservation is granted and the record can be made, and the record carries the vessel and amounts that were reserved |
| Consignments.ConsignmentServer.ConfirmConsignment | cmd/consignment-service/server/handler.go:77-168 | confirmed if and only if the reservation was refreshed, the authorisation answered and the event written |
| Consignments.RequestLeaves | cmd/consignment-service/server/handler.go:77-168 | for every outcome of the request's calls and writes: an answered authorisation that is not announced is voided if either void gets through, the consignment is cancelled if either cancel works, and nothing else is touched |
| Consignments.AuthorisationHangs | cmd/consignment-service/server/handler.go:99-113 | a request leaves an authorisation nobody will use or undo if and only if the authorisation's answer was lost, or the event could not be written and neither void got through |
| Consignments.PointOfNoReturn | cmd/consignment-service/manager/event.go:97-108 | over any events in any order, pending means no payment id, and confirmation_pending means a captured row with that payment id was written |
| Consignments.ExpiryNeverRefunds | cmd/consignment-service/manager/event.go:205-218 | so the expiry handler leaves every payment as it was |
| CapacityManager.ReservationManager.CallVessel | cmd/reservation-service/manager/event.go:184-195 | the retry loop's result, ledger and number of calls for every pattern of lost messages, replies and aborts |
| CapacityManager.CallsExactly | cmd/reservation-service/manager/event.go:184-195 | read off the attempts alone: the loop succeeds if and only if some attempt does, stops at the first that does and not before, and the operation happens once, if and only if it had not and some attempt takes effect |
| CapacityManager.ReservationManager.PublishRetryEvent | cmd/reservation-service/manager/event.go:348-379 | the retry goes to its action's topic below the limit and to the dead letters from it on |
| CapacityManager.ReservationManager.ProcessCapacityEvent | cmd/reservation-service/manager/event.go:145-240 | the whole run of gate, call, retry and verdict, and exactly when it returns no error |
| CapacityManager.NoMessageIsLost | cmd/reservation-service/manager/event.go:157-240 | whatever fails, a run that returns no error was a duplicate and did nothing, or left its operation logged at the vessel, or left its retry pending; one that returns an error wrote no row, was answered by nobody and was no duplicate |
| CapacityManager.KeysLeft | cmd/reservation-service/manager/event.go:157-225 | a run touches its own reservation's keys only: the data key is gone unless its delete was not made or failed without effect, the id key if and only if the call was answered and its delete does not fail |
| CapacityManager.RowsLeft | cmd/reservation-service/manager/event.go:197-240 | an answered confirm leaves its verdict pending unless that write fails, an answered release writes nothing, and any other run writes a retry or nothing |
| CapacityManager.ReservationManager.HandlePaymentCaptured | cmd/reservation-service/manager/event.go:75-114 | a captured event runs as an ungated confirm of its reservation |
| CapacityManager.ReservationManager.HandleReservationExpired | cmd/reservation-service/manager/event.go:37-73 | an expiry runs as an ungated release |
| CapacityManager.ReservationManager.HandleFailedCapacityEvent | cmd/reservation-service/manager/event.go:242-288 | a dead confirm is reversed and its failure announced whatever became of the reversal, and no error means the announcement is pending; a dead release changes nothing |
| CapacityManager.ReservationManager.ReleaseReservations | cmd/reservation-service/manager/manager.go:134-157 | the pass writes one expiry row per report whose insert works; a failed insert does not end it, and a failed query, a failed scan in particular, writes nothing and is an error |
| CapacityManager.PassIsTrue | cmd/reservation-service/manager/manager.go:134-157 | whatever fails in a pass, the rows it adds are expiries of reservations whose id key was not there throughout the id scan, and each expired one that was there to be met and whose insert works has a pending expiry row |
| ReserveRpc.GRPCHandler.ReserveCapacity | cmd/reservation-service/server/handler.go:33-115 | ledger, cache and reply after the retry loop, the store and the compensating release, for every fault |
| ReserveRpc.GRPCHandler.CallReserve | cmd/reservation-service/server/handler.go:47-63 | the loop retries every error but "no vessel", which ends it |
| ReserveRpc.GRPCHandler.Compensate | cmd/reservation-service/server/handler.go:82-100 | the release loop for a failed cache write |
| ReserveRpc.GRPCHandler.RefreshReservation | cmd/reservation-service/server/handler.go:156-171 | extends a live id key, reports a missing one, and answers an internal error for a failed command whether or not it took effect |
| ReserveRpc.HeardExactly | cmd/reservation-service/server/handler.go:47-63 | read off the attempts alone: the loop hears of a vessel if and only if some attempt tells of one, its own or the one an earlier attempt reserved, before any tells that there is none; the vessel is the one that is reserved |
| ReserveRpc.RepliesExactly | cmd/reservation-service/server/handler.go:65-115 | the caller gets a vessel if and only if the loop was told of one and the cache write worked; if that write failed the capacity is given back if and only if some release takes effect, heard or not, or the request was for nothing |
| ReserveRpc.ReservesOnce | cmd/reservation-service/server/handler.go:41-63 | under any losses and resends the call reserves at most once, exactly if some attempt committed, and an answer names the vessel reserved |
| ReserveRpc.ReserveIsAllOrNothing | cmd/reservation-service/server/handler.go:47-103 | a reply means one reserve and its data cached; a failed store whose release is answered restores every counter of every vessel |
| ReserveRpc.UnheardReserveLeaks | cmd/reservation-service/server/handler.go:59-63 | a call that hears of no vessel leaves the ledger untouched if and only if no attempt committed |
| ReserveRpc.LostAnswerThenFull | cmd/vessel-service/repository.go:132-165 | a lost answer followed by a resend to a full fleet leaves capacity reserved under an error |
| CapacitySafety.NoOverbooking | cmd/reservation-service/manager/event.go:145-240 | in every state reachable without the three extra faults, every vessel's reserved and used are non-negative and together within its limit, in both dimensions |
| CapacitySafety.NeverBoth | cmd/reservation-service/manager/event.go:157-215 | and no reservation has both a confirm and a release applied |
| CapacitySafety.AppliedAsReserved | cmd/consignment-service/server/handler.go:48-75 | every confirm and release moves the vessel and amounts its reservation was reserved with, through every record and event on the way |
| CapacitySafety.CompensatedReserveIsNeutral | cmd/reservation-service/server/handler.go:80-103 | a released reservation contributes nothing to any counter, under any interleaving with the others |
| CapacitySafety.StepKeeps | cmd/reservation-service/manager/event.go:157-215 | the cached data, one live cleared confirm, its release-only successors and an applied operation exclude one another across every step |
| CapacityFaults.SafetyNeedsNoReplays | cmd/reservation-service/manager/event.go:242-288 | each of the two safety properties holds over all runs if and only if none of the three extra faults can happen |
| CapacityFaults.ReplayAppliedBreaks | cmd/reservation-service/manager/event.go:217-240 | a cleared confirm delivered again after it was applied: a run that ends confirmed, released and below zero |
| CapacityFaults.ReplayScheduledBreaks | cmd/reservation-service/manager/event.go:197-215 | the same for one delivered again after its successor died |
| CapacityFaults.LostConfirmBreaks | cmd/reservation-service/manager/event.go:186-190 | the same for a confirm call that fails although it was applied |
| CapacityHandlers.HandlerRun | cmd/reservation-service/manager/event.go:145-240 | an uninterrupted handler run is a run of the capacity system's steps |
| CapacityReserve.ReserveRun | cmd/reservation-service/server/handler.go:33-115 | so is the reserve RPC, retry loops included |
| RetryBound.RetriesEnd | cmd/reservation-service/manager/event.go:348-368 | one captured event causes at most 7 handler runs and 24 vessel calls, one expiry at most 4 and 12, whatever fails |
| RetryBound.BoundIsReached | cmd/reservation-service/manager/event.go:22-26 | an outage reaches 7 runs and 24 calls |
| RetryBound.CapturesEnd | cmd/consignment-service/manager/event.go:25-29 | one authorised event causes at most 4 handler runs and 16 capture calls |
| RetryBound.CaptureBoundIsReached | cmd/consignment-service/manager/event.go:25-29 | an outage of the payment service reaches 4 runs and 16 calls |
| SagaHandlers.CallsAreExact | cmd/reservation-service/manager/event.go:184-195 | when errors have no effect, a retry loop logs its operation once or leaves the ledger as it was |
| SagaHandlers.ProcessIs | cmd/reservation-service/manager/event.go:145-240 | a capacity run ends with nothing, one retry row, or the operation applied and at most one verdict row, and past the gate only if it removed the data or held a cleared event |
| SagaHandlers.PayCallsAreExact | cmd/consignment-service/manager/event.go:61-68 | likewise for payment calls |
| SagaHandlers.PayCallsSettle | cmd/consignment-service/manager/event.go:61-68 | whatever is lost and resent, a payment retry loop takes effect once or not at all; a reply means once |
| SagaRuns.StepKeeps | cmd/consignment-service/manager/event.go:38-260 | every step of the saga, under any faults, keeps what records, rows, payments and statuses say; under the faults each part bears it keeps one live place per consignment, the gate, and what uncaptured events say, and revives no ended saga |
| SagaVerdicts.VerdictUnique | cmd/reservation-service/manager/event.go:229-288 | if no saga row is handled again, at most one of reservation.confirmed and consignment.confirmation.failed is ever written for a consignment, by either service |
| SagaVerdicts.ConfirmedAgrees | cmd/consignment-service/manager/event.go:231-260 | if no authorised, captured or confirm row is handled again, status confirmed means the payment stands captured, the vessel confirm is recorded and nothing was released |
| SagaVerdicts.CancelledAgrees | cmd/consignment-service/manager/event.go:122-180 | on the same assumption, status cancelled, or a payment refunded or voided, means no vessel confirm |
| SagaReplays.VerdictsNeedOneHandling | pkg/kafka/consumer.go:105-114 | one verdict per consignment in every run if and only if no authorised, captured, confirm or dead-letter row is handled again |
| SagaReplays.AgreementNeedsOneConfirm | pkg/kafka/consumer.go:105-114 | confirmed and cancelled consignments agree with payment and vessel in every run if and only if no authorised, captured or confirm row is handled again; dead letters do not matter |
| SagaReplays.ConfirmsLate | cmd/reservation-service/manager/event.go:197-215 | for each of these three kinds of rows a run in which its second handling applies a confirm whose message has already died |
| SagaReplays.Disagrees | cmd/reservation-service/manager/event.go:242-288 | and from there a run to status confirmed, capacity in use and payment refunded |
| SagaReplays.FailsTwice | cmd/reservation-service/database/sql/init.sql:14-16 | a dead letter handled again once its announcement was published: two failure events, which the index on pending rows does not prevent |
| SagaVerdicts.MatchesWithoutFaults | cmd/consignment-service/manager/event.go:262-313 | without the three capture faults and with authorised rows handled once, a failure event's capture flag agrees with the payment service and names its capture id or its authorisation |
| SagaVerdicts.OnlyDenials | cmd/consignment-service/manager/event.go:70-77 | under any of the seven faults, a failure event that claims a capture is right, and the only wrong one denies a capture that was made and still names its authorisation |
| SagaVerdicts.CompensationEnds | cmd/consignment-service/manager/event.go:141-162 | under the same assumption as the match, handling a failure event with a call that gets through, whatever else is lost, leaves the payment refunded or voided |
| SagaFaults.CompensationNeedsNoFaults | cmd/consignment-service/manager/event.go:57-117 | failure events match their payments in every run if and only if none of the three capture faults can happen and no authorised row is handled again |
| SagaFaults.UnrecordedDenies | cmd/consignment-service/manager/event.go:109-117 | a failed rescheduling write alone: a run whose failure event denies a capture that stands |
| SagaFaults.LostReplyDenies | cmd/consignment-service/manager/event.go:61-76 | the same for a capture whose reply is lost, every write succeeding |
| SagaFaults.CrashDenies | cmd/consignment-service/manager/event.go:79-108 | the same for a handler that stops after its capture |
| SagaFaults.ReplayDenies | cmd/consignment-service/manager/event.go:38-68 | the same for an authorised row handled again after its saga gave up |
| SagaFaults.NothingStranded | cmd/consignment-service/manager/event.go:141-162 | no answered compensation leaves captured money behind, if and only if the same holds |
| SagaStatuses.FinalStatuses | cmd/consignment-service/storage/mongo/mongo.go:50-86 | in every run confirmed is never left, and cancelled is left by a step if and only if that step commits a capture of the consignment: each holds if and only if no authorised, captured or confirm row is handled again |
| SagaStatuses.CancelledComesBack | cmd/consignment-service/manager/event.go:205-218 | a run in which an expired, cancelled consignment goes back to confirmation_pending |
| SagaStranded.StrandedForever | cmd/reservation-service/manager/event.go:157-176 | once a committed saga has no row left to handle and no verdict, every later world of every run finds it so, its payment captured and its status confirmation_pending |
| SagaStranded.StrandedExactly | cmd/reservation-service/manager/event.go:145-240 | of a committed consignment no later world of any run has a verdict if and only if its saga has ended that way; any other can still at least fail |
| SagaStranded.ExpiryStrands | cmd/reservation-service/manager/event.go:172-175 | a run to such an end: the expiry wins the gate after the commit and the captured event is skipped as a duplicate |
| SagaEndings.EndsExactly | cmd/reservation-service/manager/event.go:157-240 | if no authorised, captured or confirm row is handled again, a step of any run ends a committed saga without a verdict if and only if it handles the saga's live confirm and finds the cache empty, or is answered and cannot write the verdict, or has its retry taken for a pending row with the same topic and key |
| SagaEndings.VerdictUnwritten | cmd/reservation-service/manager/event.go:229-237 | a run to such an end with the capacity confirmed at the vessel |
| SagaEndings.DeadLetterSwallowed | cmd/reservation-service/storage/postgres/outbox.go:26-31 | a run to such an end in which the confirm's dead letter is taken for the pending dead letter of the reservation's release |
| SagaServer.ConfirmRequestRun | cmd/consignment-service/server/handler.go:77-168 | the ConfirmConsignment call, with any outcome of its own calls and writes, is a run of the saga's steps |

## Left out

- Liveness: a crash between the cache delete and the outbox write stalls a saga for good, so only safety and bounded work are stated.
- The 30-day expiry of the operation log in CapacitySystem and SagaSystem: their runs are taken to fit inside it.
- The synchronous ReleaseCapacity and ConfirmCapacity RPCs of the reservation service: nothing in the repository calls them, and they bypass the gate.
- gRPC, Kafka, Mongo, Redis and Postgres clients, configuration, tracing, metrics, the gateway and the user service: plumbing with no saga state. Message and reply loss, aborts and failed writes are parameters instead.
- Codecs: events are datatypes taken to round-trip. Keys of the form "id-n" are the datatype value Retry(id, n), so ids that contain a dash cannot collide in the model.
- int32 fields: weights and counts are unbounded integers; the narrowing of stored integers to int32 in messages is not modelled.
- Backoff timing: only the number of attempts is kept.
- The amount, currency, name and availability fields, and the timestamps used for metrics: no step reads them.
- The default branch for an unknown capacity action: the datatype has two actions.
- Row ids and created_at: a row's position in its table stands for both.
- Unmarshalling failures: such a message is dropped with an error before any effect.
- The listing call GetConsignments and the vessel Create call's persistence errors: no saga state depends on them.
- SagaSystem.Apply: handlers of the saga system run to their end, but for the capture handler, which may stop after its capture calls; a crash inside a capacity handler is covered by CapacitySystem for capacity and not for payments.
- VesselLedger.OpsKept: its histories drop no log row; histories that do are those of VesselLedger.LoggedIsFresh.
- SagaSystem.Enabled: it allows one confirm call per consignment; two calls authorise two payments, and Payments.TwoAuthorisationsStrand shows what that can lead to.
- CapacitySystem.Apply: payments and consignment statuses are not part of it; a consignment's captured event may be published any number of times with any payment id.
- The planned reconciliation job: documented in docs/reconciliation-job.md and not implemented.
