# Verification of the Aegis transfer service

This project models the asynchronous core of Aegis in Dafny and proves properties of it: the transfer
submission protocol, the outbox and job queue around it, webhook delivery under leases, the Redis processing
lock, the escrow contract, reconciliation, and the retry arithmetic. `dafny verify dfyconfig.toml` checks everything.

## How it is built

* **Step systems.** Everything the code does not decide (which process goes next, how a call ends, whether an
  error hid a committed write, when a process dies, how much time passes) is an explicit *move*. A step function
  is total and deterministic, so a run is a sequence of moves and a theorem about every run is a lemma about
  every sequence. `Transfers` holds the tables and their atomic statements, `Workers` one consumer worker with
  its possibly stale local copies, `Pipeline` any number of workers and dispatchers over any number of
  transfers, `Webhooks` and `WebhookScheduling` the senders and the world they share with the pipeline.
* **Imperative code.** `ProcessorCode`, `OutboxCode`, `WebhookCode`, `Escrow.AegisEscrow`,
  `ProcessingLock.RedisProcessingLocker`, `Supervisor`, `Reconciliation.Service` and `Backoff` follow the
  source's own control flow: loops, mutual recursion on conflict, fields updated in place, reverts. The classes
  that share state take a script: for each of their calls, which moves other processes make first and how the call
  ends. Their contracts say that the code makes exactly the moves the script dictates and none else, so the state
  it reaches is fixed by the step system and every theorem about runs is a theorem about the code; and they say what
  the calls returned and achieved, for every script and for the empty one.
* **Two systems on one clock.** `LockedPipeline` joins the pipeline and the lock store: a worker gets past its lock
  request exactly when the store grants it.
* **One rule for staleness.** `Evolves` says what a transfer's record may never take back. Each worker's
  knowledge survives every evolution of the record, which is what makes interleaving proofs local.

## What the proofs found

* A transfer can be lost although its outbox row is DISPATCHED (`NoLostJobs.AJobCanBeLost`). Exactly one kind of move
  lets go of a transfer: a `FailTransfer` whose read errs, or whose write errs without having taken effect, made
  while the transfer is unfinished, no job for it is queued and no other worker is responsible for it. In every state
  a move leaves a covered transfer uncovered if and only if it is such a move (`NoLostJobs.StepUncoversExactly`); over
  a whole run the transfer is attended throughout if and only if no move abandons it
  (`NoLostJobs.AttendedExactlyUnlessAbandoned`); a lost transfer was abandoned (`NoLostJobs.LostMeansAbandoned`); and
  for the holder of the only job the acknowledgement after `FailTransfer` loses the transfer if and only if the read
  erred or the write erred without effect (`NoLostJobs.LostExactlyWhenGivenUp`). Errors that hid a committed write
  lose nothing, nor do errors while the outbox will still publish the job.
* A lost heartbeat makes that loss certain: it cancels the context with which the consumer goes on, so `FailTransfer`
  cannot succeed. For the holder of the only job whose processing ended in an error, the transfer is lost if and only
  if the error was final or the retries were used up, whatever the calls answer (`NoLostJobs.LostLockLosesExactly`).
  With retries left and a pause before publishing the job comes back uncounted (`NoLostJobs.LostLockCountsNoRetry`).
* Two transactions can be signed and accepted for one transfer (`TwoTransactions.OverlapCanSignTwice`), because the
  active-attempt index stops covering an attempt once it is BROADCASTED or FAILED. A transfer ends a run with more
  than one attempt if and only if some insert of the run took effect while a row was already there, none SIGNED or
  BROADCASTING, and the hash was new to the table (`SingleAttempt.TwoAttemptsExactly`). Processing that does not
  overlap rules that out for any signer, and so does a hash that depends on the transfer only, for any overlap.
* The processing lock delivers the first of these: with a ttl of at least a millisecond and a heartbeat that is never
  late there is one transaction per transfer (`LockedPipeline.PunctualHeartbeatSignsOnce`). The condition is needed:
  for every ttl there is a run with the lock in which a lease runs out during processing and two transactions are
  accepted (`TwoTransactions.ExpiredLeaseSignsTwice`). With a positive ttl below a millisecond a refresh reports
  success and removes the key (`ProcessingLock.RefreshKeepsKey`, and a run in `ProcessingLock.ShortRefreshLosesLock`).
* A `Create` call can return an error for a transfer it has created, when the answer to its commit is lost
  (`Guarantees.SilentCreation`). A key in
  use was reported as created by at most one call, and by none exactly when one call created it silently
  (`Guarantees.OneTransferPerKey`); a repeated call returns the transfer (`Guarantees.CreateIsIdempotent`).
* The configured maximum does not bound the calls of a webhook receiver. In every reachable state the dispatches of a
  delivery are its counted attempts, the results that were lost, and the dispatches in flight
  (`WebhookBudget.DispatchesAreAccounted`); a result is lost exactly when its write does not land, for a lost lease, a
  broken call or a refused status code, or when the sender stops before writing. So calls exceed counted attempts if
  and only if a result was lost or is still to be written, and for every maximum and every n some run calls one
  receiver n times and counts nothing (`WebhookBudget.MaximumDoesNotBoundCalls`). The refused code is a three-digit one
  outside 100 to 599 and other than 000: the table's range CHECK refuses the write, the row stays IN_PROGRESS and the
  cycle ends. It is the only CHECK that can refuse a result (`Webhooks.WriteRejectedOnlyForCode`). The documentation's
  statement that the maximum caps the retry budget holds for recorded attempts only, as in the code.
* Crash recovery is exact: an undisturbed successful rerun reaches PENDING_ON_CHAIN from every reachable state in
  which the transfer is SUBMITTED or beyond, or neither it nor its latest attempt is FAILED
  (`Recovery.RerunRecovers`), and from no other (`Recovery.UnrecoverableStays`).
* The outbox backoff is exact precisely below 2^62 ns and monotone precisely up to one minute; the webhook
  backoff with its default of two seconds is exact precisely up to 34 attempts.

## Model

| member | source | states |
|---|---|---|
| Transfers.HistoryShape | internal/modules/transfers/processor.go:41-112 | a well-formed history follows CREATED to PENDING_ON_CHAIN position by position, may end in FAILED but not from PENDING_ON_CHAIN, and has at most five transitions |
| Transfers.TransitionKeepsInv | internal/modules/transfers/postgres_repository.go:198-258 | a committed legal transition keeps history, hash and attempt invariants and rewrites nothing of the past |
| Transfers.CreateAttemptKeepsInv | internal/modules/transfers/postgres_repository.go:300-324 | an insert that passes both unique indexes keeps every record invariant |
| Transfers.UpdateAttemptKeepsInv | internal/modules/transfers/postgres_repository.go:326-359 | a conditional status update keeps every record invariant; BROADCASTED and FAILED attempts are final |
| Transfers.UpdateNeverViolatesIndex | migrations/000008_transaction_attempt_recovery.up.sql:11-13 | the processor's updates fail exactly on a status mismatch, never on the active-attempt index |
| Transfers.AddBroadcastKeepsInv | internal/modules/transfers/processor.go:206-214 | a broadcast carries the stored payload and hash and breaks no invariant |
| Workers.PcInvStable | internal/modules/transfers/processor.go:114-267 | whatever other workers commit, a worker's stale copies still satisfy what its next call relies on |
| Workers.SettledFixed | internal/modules/transfers/processor.go:59-71 | nothing can be appended to the history of a PENDING_ON_CHAIN or FAILED transfer |
| Workers.WorkerStepKeeps | internal/modules/transfers/processor.go:41-293 | every call of a worker, however it ends, keeps the record invariant and the worker's own knowledge |
| Pipeline.MarkedInv | internal/modules/transfers/postgres_repository.go:447-490 | marking an outbox row from a stale copy keeps the row consistent, never lowers its counter and never leaves DISPATCHED |
| Pipeline.StepKeeps | internal/modules/transfers/consumer.go:71-156 | one move of any process keeps the global invariant and takes no committed fact back |
| Pipeline.RunKeeps | internal/modules/transfers/postgres_repository.go:51-490 | the same over every run |
| Guarantees.HistoryOfEveryRun | internal/modules/transfers/postgres_repository.go:241-257 | with any number of workers each history starts at creation, chains, ends at the current status and has the prescribed shape |
| Guarantees.SettledForever | internal/modules/transfers/processor.go:95-112 | PENDING_ON_CHAIN and FAILED are absorbing for status, hash and history |
| Guarantees.TxHashOfEveryRun | internal/modules/transfers/processor.go:252-258 | tx_hash is set exactly when SUBMITTED has been passed, is written once, and is the hash of an attempt that is BROADCASTED for good and was accepted |
| Guarantees.AttemptsOfEveryRun | migrations/000008_transaction_attempt_recovery.up.sql:11-13 | with no assumption at most one attempt is SIGNED or BROADCASTING, and every broadcast matches a stored row |
| Guarantees.CreatedCountExact | internal/modules/transfers/postgres_repository.go:51-147 | a key comes into use through exactly one committed creation, reported as created or hidden behind an error |
| Guarantees.OneTransferPerKey | internal/modules/transfers/postgres_repository.go:51-147 | each idempotency key belongs to at most one transfer, at most one call reports it created, and a key in use without a report was committed by one call that returned an error |
| Guarantees.SilentCreation | internal/modules/transfers/postgres_repository.go:140-142 | one call whose commit answer is lost puts a key in use with no call reporting it created |
| Guarantees.CreateIsIdempotent | internal/modules/transfers/postgres_repository.go:84-95 | every later successful call with the key returns the same transfer, never as new |
| Guarantees.OutboxOfEveryRun | internal/modules/transfers/postgres_repository.go:378-490 | DISPATCHED is final and implies a publish, PROCESSING holds exactly when locked_at is set, attempt_count never falls and never exceeds the claims |
| Guarantees.UndispatchedIsClaimedAgain | internal/modules/transfers/postgres_repository.go:385-399 | every undispatched row can be claimed once enough time has passed |
| OutboxTiming.CreatedExactly | internal/modules/transfers/postgres_repository.go:64-142 | a committed creation stores a CREATED transfer with its first history row and an outbox row available at once, and nothing else |
| OutboxTiming.ClaimedExactly | internal/modules/transfers/postgres_repository.go:385-405 | a claim lands exactly on a PENDING or RETRY row that is available, or a PROCESSING row locked for the whole timeout, and locks it now |
| OutboxTiming.MarkedExactly | internal/modules/transfers/postgres_repository.go:447-490 | a mark leaves a DISPATCHED row alone; any other it unlocks, counts and makes DISPATCHED, or RETRY until its backoff has passed |
| OutboxTiming.ClaimsAreApart | internal/modules/transfers/outbox_dispatcher.go:76-81 | between two claims of a row with no mark in between at least the processing timeout passes, over every run |
| OutboxTiming.RetryWaits | internal/modules/transfers/outbox_dispatcher.go:131-136 | a row marked for retry is not claimed before the backoff of its mark has passed, over every run |
| OutboxTiming.StaleIsClaimed | internal/modules/transfers/postgres_repository.go:392-394 | a claimed row left alone is claimed by whoever asks once the timeout has passed |
| OutboxTiming.RetriedIsClaimed | internal/modules/transfers/postgres_repository.go:389-391 | a row marked for retry and left alone is claimed by whoever asks once its backoff has passed |
| OutboxTiming.NewIsClaimed | internal/modules/transfers/postgres_repository.go:121-138 | a new transfer left alone is claimed by whoever asks |
| OutboxTiming.DeliverThenCrash | internal/modules/transfers/consumer.go:53-67 | a worker that takes a job and dies puts exactly that job back |
| NoLostJobs.OnlyGuardiansMoveStatus | internal/modules/transfers/postgres_repository.go:211-236 | only a worker with a current view can change a transfer's status |
| NoLostJobs.GuardianStep | internal/modules/transfers/consumer.go:113-268 | a worker responsible for a transfer settles it, requeues or republishes its job, or stays responsible, exactly unless its FailTransfer errs and leaves an unfinished row as it is |
| NoLostJobs.StepUncoversExactly | internal/modules/transfers/consumer.go:71-156 | in every state a move leaves a covered transfer uncovered exactly when it is such a FailTransfer with no job queued and nobody else responsible |
| NoLostJobs.HandedMeansPublished | internal/modules/transfers/outbox_dispatcher.go:93-129 | a transfer becomes handed over only by a publish, which leaves a job behind |
| NoLostJobs.StepKeepsCoverInv | internal/modules/transfers/consumer.go:71-156 | every move that does not abandon it keeps a handed-over transfer settled, queued or guarded |
| NoLostJobs.AttendedExactlyUnlessAbandoned | internal/modules/transfers/consumer.go:71-156 | over a whole run a transfer is attended in every state exactly when no move abandons it |
| NoLostJobs.LostMeansAbandoned | internal/modules/transfers/consumer.go:142-154 | in every reachable state a lost transfer was abandoned by some move of the run |
| NoLostJobs.NoJobIsLost | internal/modules/transfers/consumer.go:71-156 | in every reachable state a transfer none of whose FailTransfer calls erred is not lost |
| NoLostJobs.ErringFailTransferStrands | internal/modules/transfers/consumer.go:142-154 | an erring read, or a write that errs without effect, by the holder of the only job strands the transfer for ever once acknowledged |
| NoLostJobs.LostExactlyWhenGivenUp | internal/modules/transfers/consumer.go:142-154 | when the holder of the only job runs a FailTransfer call and its acknowledgement is heard, the transfer is lost exactly when the read erred, if only for a cancelled context, or the write erred without effect |
| NoLostJobs.LostLockLosesExactly | internal/modules/transfers/consumer.go:95-154 | after a lost lock and an error, the holder of the only job loses the transfer exactly when the error was final or the retries were used up, whatever the calls answer |
| NoLostJobs.LostLockCountsNoRetry | internal/modules/transfers/consumer.go:245-257 | after a lost lock, with retries left and a pause before publishing, the job comes back with its attempt number |
| NoLostJobs.StrandedForever | internal/modules/transfers/consumer.go:222-237 | no later move brings a job for a stranded transfer back |
| NoLostJobs.AJobCanBeLost | internal/modules/transfers/consumer.go:142-154 | a concrete run after which a transfer is lost |
| SingleAttempt.AttemptsGrowExactly | internal/modules/transfers/postgres_repository.go:300-324 | whatever move is made, the number of attempt rows grows, by one, exactly when it is an insert that takes effect with no active row and a hash new to the table |
| SingleAttempt.TwoAttemptsExactly | migrations/000010_transfer_integrity_constraints.up.sql:149-151 | over any run a transfer ends with more than one attempt exactly when such an insert found a row already there |
| SingleAttempt.SerialProcessingSignsOnce | internal/modules/transfers/processor.go:114-204 | without overlap, for any signer and any crashes, one attempt row is stored before the first broadcast and every broadcast carries it |
| SingleAttempt.DeterministicSigningSignsOnce | internal/modules/transfers/mocks.go:21-36 | with any overlap, if the hash depends on the transfer only, there is one attempt row and one hash across all broadcasts |
| TwoTransactions.OverlapCanSignTwice | migrations/000008_transaction_attempt_recovery.up.sql:11-13 | with neither condition a run of the pipeline has two attempts and two accepted broadcasts with different hashes |
| TwoTransactions.ExpiredLeaseSignsTwice | internal/modules/transfers/lock.go:59-118 | for every ttl a run with the lock, in which a lease runs out during processing, has two accepted transactions |
| Recovery.OwnStepDecreases | internal/modules/transfers/processor.go:114-267 | each call of ProcessTransfer lowers the calls and broadcasts still to come |
| Recovery.CallsAreBounded | internal/modules/transfers/processor.go:114-267 | over any run, calls and broadcasts are bounded by the remaining work and the foreign attempt writes |
| Recovery.ProcessTransferEnds | internal/modules/transfers/processor.go:41-93 | at most thirteen calls plus five per foreign attempt write, at most one broadcast more than such writes |
| Recovery.SubmitTransferEnds | internal/modules/transfers/processor.go:114-124 | the same from submitTransfer on |
| Recovery.RerunRecovers | internal/modules/transfers/processor.go:41-93 | from any reachable state with the transfer SUBMITTED or beyond, or neither it nor its latest attempt FAILED, an undisturbed successful ProcessTransfer ends PENDING_ON_CHAIN |
| Recovery.UnrecoverableStays | internal/modules/transfers/processor.go:169-204 | from any other reachable state no undisturbed calls of the worker, however they end, reach PENDING_ON_CHAIN |
| ProcessorOutcomes.UnrecoverableEnds | internal/modules/transfers/processor.go:59-93 | undisturbed and with successful calls, such a rerun returns a FAILED transfer as it is and ends with a permanent error for a transfer left SIGNING with a FAILED attempt |
| ProcessorOutcomes.BroadcastErrorDecides | internal/modules/transfers/processor.go:214-234 | once a broadcast error is recorded on the latest attempt of an unfinished transfer not yet SUBMITTED, whatever others did in between, the transfer is recoverable exactly when the error was transient |
| ProcessorOutcomes.ResultHasCause | internal/modules/transfers/processor.go:41-293 | every result of processing has its cause: an error the kind its call or the broadcaster answered, a failed or missing attempt or an empty transaction, a status somebody else changed, or a settled transfer |
| ProcessorOutcomes.ErrorEndsProcessing | internal/modules/transfers/processor.go:41-293 | an erring call ends processing with its kind, except the broadcaster, whose error is recorded first |
| ProcessorOutcomes.TransientNeverFails | internal/modules/transfers/consumer.go:131-133 | a delivery whose processing ended in a transient error with retries left writes nothing any more, however its calls end |
| ProcessorOutcomes.TransientIsRetried | internal/modules/transfers/consumer.go:240-267 | when nothing else goes wrong its successor with the next attempt number takes its place on the queue |
| Recovery.RerunDoesNotSendAgain | internal/modules/transfers/processor.go:169-204 | a rerun that finds SIGNING with a BROADCASTED attempt calls neither signer nor broadcaster, however its own calls end |
| ProcessorCode.Consumer.CalledIsRun | internal/modules/transfers/consumer.go:71-156 | the state after any number of the code's calls is a run of the pipeline, the others' moves and its own in the order of the script |
| ProcessorCode.Consumer.GetByID | internal/modules/transfers/postgres_repository.go:149-164 | returns the row as the call found it, and the worker goes where the result leads |
| ProcessorCode.Consumer.TransitionStatus | internal/modules/transfers/postgres_repository.go:198-258 | the row becomes exactly what the conditional update makes of the row found; a value is returned exactly when the call succeeds and the status matched, and it is the stored row |
| ProcessorCode.Consumer.GetLatestAttempt | internal/modules/transfers/postgres_repository.go:260-279 | returns the latest stored attempt row, or none exactly when there is none |
| ProcessorCode.Consumer.SignTransfer | internal/modules/transfers/processor.go:126-143 | returns the signer's transaction with non-empty payload and hash, or the error; the record is untouched |
| ProcessorCode.Consumer.CreateAttempt | internal/modules/transfers/postgres_repository.go:300-324 | the record becomes exactly what the insert under both indexes makes of it; the returned copy is the signed transaction and the latest stored row; a conflict is reported exactly when an index objected |
| ProcessorCode.Consumer.UpdateAttempt | internal/modules/transfers/postgres_repository.go:326-359 | the conditional update lands exactly when the stored status is the expected one, changes that row's status and nothing else, and otherwise reports the conflict |
| ProcessorCode.Consumer.BroadcastTransfer | internal/modules/transfers/processor.go:206-214 | exactly one broadcast of the attempt is recorded, accepted as the answer says, and the error kind is returned |
| ProcessorCode.Consumer.ProcessTransfer | internal/modules/transfers/processor.go:41-93 | under any interference the loop ends, returns what the worker of the step system returns, and undisturbed reaches PENDING_ON_CHAIN |
| ProcessorCode.Consumer.SubmitTransfer | internal/modules/transfers/processor.go:114-124 | ends and leaves the worker at the switch of the returned status or at the returned error |
| ProcessorCode.Consumer.CreateAttemptAndSubmit | internal/modules/transfers/processor.go:126-167 | as SubmitTransfer, resuming the latest attempt on conflict |
| ProcessorCode.Consumer.ResumeSubmission | internal/modules/transfers/processor.go:169-204 | as SubmitTransfer, for each status of the attempt |
| ProcessorCode.Consumer.BroadcastAttempt | internal/modules/transfers/processor.go:206-250 | as SubmitTransfer; after a failed broadcast whose record lands the stored attempt is SIGNED after a transient error and FAILED after any other, and the error is returned after two calls |
| ProcessorCode.Consumer.RecordError | internal/modules/transfers/processor.go:214-234 | the recording half of it: SIGNED after a transient error, FAILED after any other |
| ProcessorCode.Consumer.ConfirmBroadcast | internal/modules/transfers/processor.go:236-250 | the other half: an accepted broadcast is confirmed and submitted, or the latest attempt resumed on conflict |
| ProcessorCode.Consumer.SubmitBroadcastedAttempt | internal/modules/transfers/processor.go:252-258 | a value is SUBMITTED with the attempt's hash, as stored; an empty hash is an error without any call |
| ProcessorCode.Consumer.ResumeLatestAttempt | internal/modules/transfers/processor.go:260-267 | as SubmitTransfer, from the latest attempt |
| ProcessorCode.Consumer.AcquireProcessingLock | internal/modules/transfers/consumer.go:83-94 | processing starts exactly when the lock is granted; otherwise the delivery is back on the queue |
| ProcessorCode.Consumer.HeartbeatResult | internal/modules/transfers/consumer.go:113-141 | the result is settled as the consumer does, a lost lock overriding success and cancellation |
| ProcessorCode.Consumer.FailTransfer | internal/modules/transfers/processor.go:95-112 | with a cancelled context it errs after one call; otherwise it reports an error exactly when one of its calls erred, and without error the transfer has settled or somebody changed its status in between; undisturbed it has settled |
| ProcessorCode.Consumer.FailWrite | internal/modules/transfers/processor.go:106-111 | the row becomes exactly what the conditional write makes of it; without error it is FAILED or the race was lost |
| ProcessorCode.Consumer.RetryJob | internal/modules/transfers/consumer.go:222-268 | an acknowledged job had its retries used up and was failed, or had retries left and its successor queued before the acknowledgement; after a lost lock giving up always errs and a pause before publishing always hands the delivery back |
| ProcessorCode.Consumer.Republish | internal/modules/transfers/consumer.go:240-267 | the successor is added to the queue while the old job is still held, or the delivery comes back |
| ProcessorCode.Consumer.Ack | internal/modules/transfers/consumer.go:121-129 | acknowledged exactly when the broker heard it; otherwise the delivery is back; a settled status stays |
| ProcessorCode.Consumer.Conclude | internal/modules/transfers/consumer.go:121-156 | each result leads to its end: success to processed, a transient error to a republished job while retries are left and to giving up after that, any other error to giving up; handed back only when a call after processing failed |
| ProcessorCode.Consumer.HandleLocked | internal/modules/transfers/consumer.go:96-156 | the same for the result processing ended with, once the lock is held |
| ProcessorCode.Consumer.HandleDelivery | internal/modules/transfers/consumer.go:71-156 | the delivery ends queued again or acknowledged for the reason its last call shows and the result its processing ended with calls for; undisturbed it is processed and PENDING_ON_CHAIN |
| OutboxCode.ClaimableAreSelected | internal/modules/transfers/postgres_repository.go:385-399 | the query selects only claimable candidates, and all of them unless the limit is reached |
| OutboxCode.OutboxDispatcher.ClaimPendingOutbox | internal/modules/transfers/postgres_repository.go:378-445 | claims exactly the rows the query selects when its turn comes; an error may hide a committed claim; a size that is not positive stands for 25 |
| OutboxCode.OutboxDispatcher.DispatchEvent | internal/modules/transfers/outbox_dispatcher.go:93-164 | makes exactly one publish and one mark; published and marked the row is DISPATCHED; after a publish error it waits the configured delay the first time and min(delay * 2^n, one minute) later, with a higher counter, unless it is DISPATCHED already |
| OutboxCode.OutboxDispatcher.DispatchAll | internal/modules/transfers/outbox_dispatcher.go:83-90 | the loop publishes and marks every claimed event in order and reports an error exactly when a mark erred |
| OutboxCode.OutboxDispatcher.DispatchPending | internal/modules/transfers/outbox_dispatcher.go:76-91 | claims what the query selects and publishes and marks every claimed event, no more and no less, also when the claim errs; an error is returned exactly when the claim or a mark erred; undisturbed everything selected is DISPATCHED |
| Webhooks.ClaimRowKeeps | internal/modules/webhooks/postgres_repository.go:108-132 | a claim issues a lease value larger than every one before and keeps the row invariant |
| Webhooks.WriteResultKeeps | internal/modules/webhooks/postgres_repository.go:161-261 | a fenced result write keeps counters, leases and CHECK constraints |
| Webhooks.WriteRejectedOnlyForCode | migrations/000011_webhook_delivery_constraints.up.sql:70-99 | a fenced result violates a CHECK exactly when its status code is out of range |
| Webhooks.LeaseLostMeansOvertaken | internal/modules/webhooks/postgres_repository.go:174-189 | a sender that no longer holds its lease has lost it to a later claim, never to a write under its own |
| WebhookBudget.StepUncounted | internal/modules/webhooks/service.go:82-188 | whatever move is made, the dispatches beyond counted attempts and those in flight grow, by one, exactly when the move loses a result |
| WebhookBudget.DispatchesAreAccounted | internal/modules/webhooks/service.go:82-188 | in every reachable state dispatches are counted attempts, lost results and dispatches in flight, so calls exceed counted attempts exactly when a result was lost or is in flight |
| WebhookBudget.RoundCountsExactly | migrations/000011_webhook_delivery_constraints.up.sql:75-99 | an undisturbed round counts an attempt exactly when the sender gets to write and the table accepts the status code, and otherwise leaves the row due again |
| WebhookBudget.UncountedRounds | internal/modules/webhooks/service.go:82-188 | n rounds with a refused code, or with any response and a sender that stops before writing, make n dispatches and count none |
| WebhookBudget.UncountedRoundsLose | internal/modules/webhooks/service.go:82-188 | by the account these are n lost results |
| WebhookBudget.MaximumDoesNotBoundCalls | internal/modules/webhooks/service.go:127-145 | for every maximum and every n some run of the whole system calls one receiver n times with no attempt counted |
| WebhookBudget.RefusedCodeIsNeverCounted | migrations/000011_webhook_delivery_constraints.up.sql:81-82 | in particular a receiver that answers 600 |
| Webhooks.StepKeeps | internal/modules/webhooks/service.go:51-188 | every sender move keeps all rows and all senders' stale copies consistent |
| WebhookScheduling.SchedulingIsExact | internal/modules/webhooks/postgres_repository.go:43-97 | a pass leaves exactly one delivery per SUBMITTED, CONFIRMED or FAILED history row of a transfer with a callback, new ones with its status and hash and due at once, keeps existing ones, and a second pass inserts nothing |
| WebhookScheduling.OneDeliveryPerStatus | migrations/000005_webhook_delivery_extensions.up.sql:10-12 | a transfer has at most one delivery per status |
| WebhookScheduling.SubmittedCarriesHash | internal/modules/webhooks/postgres_repository.go:64-75 | every SUBMITTED payload carries the non-empty hash of a broadcasted attempt |
| WebhookScheduling.DeliveriesOfEveryRun | internal/modules/webhooks/postgres_repository.go:99-261 | leases strictly increase, landed writes never share a lease, attempt_count counts them and stays in budget, DELIVERED needs a 2xx, CHECKs hold, DELIVERED and FAILED are final |
| WebhookScheduling.OnlyLatestClaimantLands | internal/modules/webhooks/postgres_repository.go:174-189 | a result lands only for the most recent claimant and only once |
| WebhookTiming.ClaimedExactly | internal/modules/webhooks/postgres_repository.go:108-132 | a claim lands exactly on a PENDING or RETRYING delivery whose next attempt is due, or one IN_PROGRESS whose lease has run out |
| WebhookTiming.ClaimsAreApart | internal/modules/webhooks/postgres_repository.go:108-132 | between two claims of a delivery with no result in between the whole lease passes, over every run |
| WebhookTiming.RetryWaits | internal/modules/webhooks/postgres_repository.go:191-226 | a delivery left RETRYING is not claimed before the next attempt its result set, over every run |
| WebhookTiming.WaitedIsClaimed | internal/modules/webhooks/postgres_repository.go:108-132 | a delivery left alone is claimed by whoever asks from the end of its lease or its next attempt on |
| WebhookTiming.DeliveredWasAnswered | internal/modules/webhooks/service.go:90 | a DELIVERED delivery was answered with a code from 200 to 299 by some dispatch of the run, and the dispatch counter counts the dispatches of the run |
| WebhookCode.DueAreSelected | internal/modules/webhooks/postgres_repository.go:108-132 | the query selects only due candidates, and all of them unless the limit is reached |
| WebhookCode.WebhookService.ScheduleDeliveries | internal/modules/webhooks/postgres_repository.go:43-97 | without error exactly the eligible history rows have deliveries; an error may hide a committed insert |
| WebhookCode.WebhookService.ClaimDueDeliveries | internal/modules/webhooks/postgres_repository.go:99-159 | claims exactly the rows the query selects when its turn comes, different rows all under one lease value they still carry; an error may hide a committed claim; a size that is not positive stands for 25 |
| WebhookCode.WebhookService.WriteVerdict | internal/modules/webhooks/service.go:90-188 | the write half: DELIVERED exactly for a code from 200 to 299, otherwise FAILED exactly when the attempts are used up, else RETRYING at the given time, with the code stored and the attempt counted; or taken over, or an error |
| WebhookCode.WebhookService.ProcessDelivery | internal/modules/webhooks/service.go:82-196 | one dispatch and one write; an error exactly when the write breaks or the table refuses the code; without error the row is as its response calls for, the next attempt initial * 2^n after the dispatch, or a later claim has taken the delivery over |
| WebhookCode.WebhookService.SendAll | internal/modules/webhooks/service.go:73-77 | the loop: deliveries are processed in order up to the first error, each dealt with stays so |
| WebhookCode.WebhookService.RunCycle | internal/modules/webhooks/service.go:51-80 | an erring schedule, claim or write ends the cycle, with exactly the moves made stated on every path; otherwise everything eligible is scheduled, exactly the selected rows are claimed, and each is recorded under this cycle's lease or was taken over; undisturbed all are recorded |
| Escrow.ExecAllKeeps | contracts/src/AegisEscrow.sol:42-100 | any sequence of calls, nested to any depth and accepted or rejected, keeps conservation; terms and settled entries never change and no payment is taken back |
| Escrow.GuardFreezes | contracts/src/AegisEscrow.sol:62-100 | while the guard is set no nested sequence of calls touches an escrow or a payment |
| Escrow.OneMovePerAction | contracts/src/AegisEscrow.sol:46-100 | a transaction moves an escrow only from None to Funded by its deposit, or from Funded to Released or Refunded by the owner's settlement of it |
| Escrow.SettledWasFunded | contracts/src/AegisEscrow.sol:62-100 | over any run a settled escrow was Funded just before the owner's settlement of it |
| Escrow.EscrowIsSafe | contracts/src/AegisEscrow.sol:42-100 | the balance covers all funded escrows; a settled one was paid exactly its deposit, once, to the party fixed at deposit |
| Escrow.DepositAcceptedExactly | contracts/src/AegisEscrow.sol:46-60 | a deposit is accepted exactly when it carries value, names a recipient and no deposit under its id was accepted before |
| Escrow.DepositIsKept | contracts/src/AegisEscrow.sol:46-100 | told by the arguments of its call, an accepted deposit is in every later state held in full and unpaid, or released with exactly its value paid once to its recipient, or refunded with it paid once to its sender |
| Escrow.RevertedChangesNothing | contracts/src/AegisEscrow.sol:42-100 | a call that does not go through changes nothing; payments a payee rejects and plain transfers do not go through |
| Escrow.NothingWithoutOwner | contracts/src/AegisEscrow.sol:62-100 | without a call by the owner, at any depth, nothing is settled or paid and ownership stays |
| Escrow.OwnerHandsOver | contracts/src/AegisEscrow.sol:7 | the owner can hand the contract to anybody but the zero address and can give it up |
| Escrow.FundedIsPayable | contracts/src/AegisEscrow.sol:62-100 | the owner can settle every funded escrow whose payee accepts |
| Escrow.AegisEscrow.Deposit | contracts/src/AegisEscrow.sol:46-60 | the storage update is the specified deposit |
| Escrow.AegisEscrow.CallWithValue | contracts/src/AegisEscrow.sol:74-77 | the payment moves value before the payee runs and fails exactly on missing funds or rejection |
| Escrow.AegisEscrow.Release | contracts/src/AegisEscrow.sol:62-80 | the in-place code with guard, callback and revert computes the specified release |
| Escrow.AegisEscrow.Refund | contracts/src/AegisEscrow.sol:82-100 | the same for the refund |
| Escrow.AegisEscrow.Perform | contracts/src/AegisEscrow.sol:42-100 | every entry point, including plain transfers that revert, does what the specification says |
| ProcessingLock.MutualExclusion | internal/modules/transfers/lock.go:59-118 | no two live leases on one transfer |
| ProcessingLock.OthersCannotTouch | internal/modules/transfers/lock.go:14-26 | no other token's refresh, release or acquire changes a held key |
| ProcessingLock.SoleHolder | internal/modules/transfers/lock.go:59-118 | a worker whose lease never lapses holds the key all along and nobody else acquires |
| ProcessingLock.HeartbeatIsFrequent | internal/modules/transfers/consumer.go:165-177 | the interval is at most a third of the ttl exactly when the ttl is at least three nanoseconds |
| ProcessingLock.HeartbeatIsLongest | internal/modules/transfers/consumer.go:170-177 | no longer interval is within a third of the ttl and five seconds, and a ttl too short to divide gives one second |
| ProcessingLock.RefreshKeepsKey | internal/modules/transfers/lock.go:99-118 | a successful refresh keeps the key exactly when its ttl is at least a millisecond or the default |
| ProcessingLock.ShortRefreshLosesLock | internal/modules/transfers/lock.go:108-117 | a run in which a refresh that reports success leaves the transfer to the next worker at the same instant |
| ProcessingLock.BeatIsInTime | internal/modules/transfers/consumer.go:165-177 | a beat comes before the last extension has run out exactly when the ttl is at least a millisecond |
| ProcessingLock.RefreshingKeepsLock | internal/modules/transfers/lock.go:99-118 | a worker whose refreshes come less than their extension apart never loses its lease, whatever others interleave |
| ProcessingLock.HeartbeatKeepsLock | internal/modules/transfers/consumer.go:181-206 | from a successful acquire on, the heartbeat makes the worker sole holder in every interleaving, for every ttl of at least a millisecond |
| ProcessingLock.RedisProcessingLocker.AcquireLock | internal/modules/transfers/lock.go:59-85 | SET NX on an absent or expired key only |
| ProcessingLock.RedisProcessingLocker.RefreshLock | internal/modules/transfers/lock.go:99-118 | extends by the ttl in whole milliseconds, exactly when the key carries the token |
| ProcessingLock.RedisProcessingLocker.ReleaseLock | internal/modules/transfers/lock.go:87-97 | deletes exactly when the key carries the token |
| LockedPipeline.JointStepKeeps | internal/modules/transfers/consumer.go:83-111 | every worker past its lock request holds an unreleased lease on its transfer under a token of its own |
| LockedPipeline.JointNeverOverlaps | internal/modules/transfers/consumer.go:83-113 | a run with the lock store is a run of the pipeline, and if no lease runs out during processing, processing never overlaps in it |
| LockedPipeline.LockedProcessingSignsOnce | internal/modules/transfers/consumer.go:83-113 | then every transfer has one attempt row and one transaction, for any signer |
| LockedPipeline.PunctualNeverExpires | internal/modules/transfers/consumer.go:165-206 | a heartbeat that is never late keeps every lease from running out, for a ttl of at least a millisecond |
| LockedPipeline.PunctualHeartbeatSignsOnce | internal/modules/transfers/consumer.go:71-156 | end to end: such a ttl and a punctual heartbeat give one transaction per transfer over every run |
| Supervisor.NextWait | internal/app/worker.go:276-279 | doubling up to the maximum is the closed form of the wait |
| Supervisor.DefaultWaits | internal/app/worker.go:18-23 | with the default settings the maximum wait is never reached before the budget is |
| Supervisor.Supervise | internal/app/worker.go:192-280 | each wait is min(initial * 2^(c-1), max) of the exits c since the last healthy run, and the loop goes fatal exactly when c first reaches the budget |
| Backoff.ComputeRetryBackoff | internal/modules/transfers/outbox_dispatcher.go:150-164 | the int64 loop computes the specified doubling |
| Backoff.RetryBackoffExact | internal/modules/transfers/outbox_dispatcher.go:150-164 | min(d * 2^(n-1), one minute) for all n from 2 on exactly when d is below 2^62 ns |
| Backoff.FirstRetryWaitsDelay | internal/modules/transfers/outbox_dispatcher.go:150-153 | the first retry waits the configured delay, later ones at most a minute |
| Backoff.RetryBackoffMonotone | internal/modules/transfers/outbox_dispatcher.go:150-164 | monotone in the attempt exactly when d is at most a minute |
| Backoff.BackoffForAttemptExact | internal/modules/webhooks/service.go:190-196 | shift and product are exact exactly when the product fits 63 bits |
| Backoff.EveryRetryExact | internal/modules/webhooks/service.go:127-196 | all retriable attempts are exact exactly when the last one is |
| Backoff.DefaultBackoffAllows34 | internal/modules/webhooks/service.go:28-30 | with the two-second default exactly up to 34 attempts |
| Reconciliation.CandidatesWereSubmitted | internal/modules/reconciliation/postgres_repository.go:32-60 | in reachable states candidates are exactly the transfers that ever reached SUBMITTED |
| Reconciliation.CandidatesForever | internal/modules/reconciliation/postgres_repository.go:41-50 | a candidate stays one, with the same hash |
| Reconciliation.ListCandidates | internal/modules/reconciliation/postgres_repository.go:32-71 | lists every candidate once with its current values and nothing else |
| Reconciliation.FlaggedExactly | internal/modules/reconciliation/service.go:84-110 | for every status a candidate can have, flagged exactly when the chain reports another fate than the status claims, or nothing although it claims success |
| Reconciliation.FlaggedExactlyWhenContradicted | internal/modules/reconciliation/service.go:84-110 | in reachable states a candidate is flagged exactly when the chain reports a fate other than the one its status claims; an unknown transaction is never flagged |
| Reconciliation.Service.Run | internal/modules/reconciliation/service.go:26-78 | appends exactly the rows of the candidates dealt with before the first failing check or insert, and that of an insert that erred after committing; without failure one flagged row per candidate, with checked = matched + mismatched |
| Reconciliation.ListedExactlyWhenFlagged | internal/modules/reconciliation/postgres_repository.go:101-144 | afterwards a candidate is on the latest-mismatch list exactly when it was flagged |
| Reconciliation.ListedExactlyWhenContradicted | internal/modules/reconciliation/service.go:26-110 | so after an error-free run over a reachable state the list holds exactly the candidates the chain contradicted, each row with the hash of a broadcasted attempt |
| Reconciliation.OthersUnaffected | internal/modules/reconciliation/postgres_repository.go:101-144 | transfers that were not candidates keep their place on or off the list |

## Left out

- HTTP server, handlers, validation of create requests, auth, configuration, logging, health endpoints: plumbing with easy properties only.
- PostgreSQL, Redis, RabbitMQ and EVM clients: each statement, transaction or script is one atomic step on one clock; a call may fail with or without having taken effect.
- Signed payloads, hashes, JSON, UUIDs and error texts are opaque values; nonces and notes are not kept.
- The order of attempt rows by `created_at`, and of reconciliation results by `checked_at`, is modelled as insertion order.
- Row selection order inside claims and the candidate query: the rows are visited in any order, each once, which covers the ordered query.
- A job whose transfer does not exist, and a job that is not valid JSON: the pipeline publishes neither, so the not-found and reject branches of the consumer are unreachable in the model.
- The Redis client's own rounding of the expiry passed with SET NX: an acquire keeps the exact ttl; a refresh is truncated to milliseconds as in the source.
- A consumer without a locker: every lock request is then granted, which the pipeline without the lock store covers.
- Whether a lost lock is noticed: in the pipeline the heartbeat's failure is free, not tied to the store. Once noticed it cancels the calls after `ProcessTransfer`; calls inside it may answer either way.
- A webhook backoff that has overflowed to zero or below: the service's code then waits one nanosecond in the model; `Backoff` states exactly when that cannot happen. The step system itself allows any positive backoff.
- Amounts and balances of the escrow are unbounded naturals; the contract does no arithmetic that could overflow 256 bits.
- Gas, and reentrancy into other contracts: the payee's reaction is any finite tree of calls on this contract.
- Callback target policy, webhook signing, response sanitising, wallet registration and pagination: library calls or straight-line validation.
- No code writes CONFIRMED, so the model has the status but no move into it.
