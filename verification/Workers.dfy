/**
 One consumer worker handling one delivery, as a step function over one transfer's record.

 Every repository call, signer call, broadcaster call, publish and acknowledgement is one atomic step.
 The program counter names the call about to be made and carries the worker's local copies, which other
 workers may since have made stale. How a call ends is a `Choice` made from outside.
 */
module Workers {
  import opened Transfers

  datatype ErrorKind = Transient | Canceled | Other

  /** `effect` tells whether a call that reports an error took effect all the same. */
  datatype Answer = Ok | Err(kind: ErrorKind, effect: bool)

  datatype SignedTransfer = SignedTransfer(payload: string, hash: string)

  /** `signed` is what the signer returns; `lockLost` whether the heartbeat failed while processing ran. */
  datatype Choice = Choice(answer: Answer, signed: SignedTransfer, lockLost: bool)

  /** The local copy of the transfer row. */
  datatype View = View(status: Status, txHash: string)

  function ViewOf(rec: TransferRecord): View { View(rec.status, rec.txHash) }

  /** What `ProcessTransfer` returns. `NotActionable` is an error wrapping ErrInvalidTransferState. */
  datatype Result = Success(view: View) | NotActionable | Failure(kind: ErrorKind)

  datatype AckReason = Processed | SkippedJob | FailSettled | FailErrored | Republished

  datatype Pc =
    | Locking
    | Loading
    | Advancing(view: View)
    | ReadingLatest(view: View, resuming: bool)
    | CallingSigner(view: View)
    | Creating(view: View, signed: SignedTransfer)
    | Claiming(view: View, id: nat, attempt: Attempt)
    | CallingBroadcaster(view: View, id: nat, attempt: Attempt)
    | Confirming(view: View, id: nat, attempt: Attempt)
    | Recording(view: View, id: nat, attempt: Attempt, kind: ErrorKind)
    | Submitting(view: View, id: nat, attempt: Attempt)
    | Returned(result: Result)
    | FailLoading(cancelled: bool)
    | FailWriting(view: View)
    | Republishing(cancelled: bool)
    | Acking(reason: AckReason)

  /** How often a job is retried, and the pause before it is published again. */
  datatype RetryPolicy = RetryPolicy(maxRetries: nat, delay: nat)

  /** `retry` is the job's attempt number. */
  datatype Worker = Worker(transfer: TransferId, retry: nat, pc: Pc)

  /** After a step the worker goes on, hands its delivery back to the queue, or has acknowledged it. */
  datatype Next = Continue(pc: Pc) | Requeue | Done

  datatype StepResult = StepResult(rec: TransferRecord, next: Next, publish: bool)

  // ----- control flow of the processor between two calls

  /** The switch at the head of the status loop. */
  function Enter(view: View): Pc {
    match view.status
    case Created => Advancing(view)
    case Validated => Advancing(view)
    case Queued => Advancing(view)
    case Signing => ReadingLatest(view, false)
    case Submitted => Advancing(view)
    case PendingOnChain => Returned(Success(view))
    case Failed => Returned(Success(view))
    case Confirmed => Returned(NotActionable)
  }

  /** `resumeSubmission`: where an attempt row read from the database leads. */
  function Resume(view: View, id: nat, attempt: Attempt): Pc {
    match attempt.status
    case SignedOnly => Claiming(view, id, attempt)
    case Broadcasting => CallingBroadcaster(view, id, attempt)
    case Broadcasted => if attempt.hash == "" then Returned(Failure(Other)) else Submitting(view, id, attempt)
    case AttemptFailed => Returned(Failure(Other))
  }

  /**
   How the consumer settles the result of `ProcessTransfer`. A lost lock has cancelled the context with which the
   calls that follow are made: `FailTransfer` cannot succeed, and a pause before publishing ends at once.
   */
  function Settle(result: Result, retry: nat, policy: RetryPolicy, lockLost: bool): Pc {
    var overridden := lockLost && (result.Success? || result == Failure(Canceled));
    if overridden || result == Failure(Transient) then
      if retry >= policy.maxRetries then FailLoading(lockLost) else Republishing(lockLost && policy.delay > 0)
    else match result
      case Success(_) => Acking(Processed)
      case NotActionable => Acking(SkippedJob)
      case Failure(_) => FailLoading(lockLost)
  }

  // ----- one step

  function Go(rec: TransferRecord, pc: Pc): StepResult {
    StepResult(rec, Continue(pc), false)
  }

  /**
   A conditional write inside `ProcessTransfer`: `updated` is `None` when the condition does not hold,
   which leads to `conflict`; a call reported as failed may still have been committed.
   */
  function Write(
    rec: TransferRecord, updated: Option<TransferRecord>, answer: Answer, done: Pc, conflict: Pc): StepResult
  {
    match answer
    case Ok => if updated.Some? then Go(updated.value, done) else Go(rec, conflict)
    case Err(kind, effect) => Go(if effect && updated.Some? then updated.value else rec, Returned(Failure(kind)))
  }

  function AdvanceStep(rec: TransferRecord, view: View, answer: Answer): StepResult
    requires Working(view.status)
  {
    var updated := TransitionStatus(rec, view.status, NextStatus(view.status), None);
    Write(rec, updated, answer,
          if updated.Some? then Enter(ViewOf(updated.value)) else Returned(NotActionable), Returned(NotActionable))
  }

  function SubmitStep(rec: TransferRecord, view: View, attempt: Attempt, answer: Answer): StepResult {
    var updated := TransitionStatus(rec, view.status, Submitted, Some(attempt.hash));
    Write(rec, updated, answer,
          if updated.Some? then Enter(ViewOf(updated.value)) else Returned(NotActionable), Returned(NotActionable))
  }

  function ReadLatestStep(rec: TransferRecord, view: View, resuming: bool, answer: Answer): StepResult {
    match answer
    case Err(kind, _) => Go(rec, Returned(Failure(kind)))
    case Ok =>
      if rec.attempts != [] then Go(rec, Resume(view, |rec.attempts| - 1, rec.attempts[|rec.attempts| - 1]))
      else if resuming then Go(rec, Returned(Failure(Other)))
      else Go(rec, CallingSigner(view))
  }

  function SignStep(rec: TransferRecord, view: View, c: Choice): StepResult {
    match c.answer
    case Err(kind, _) => Go(rec, Returned(Failure(kind)))
    case Ok =>
      if c.signed.payload == "" || c.signed.hash == "" then Go(rec, Returned(Failure(Other)))
      else Go(rec, Creating(view, c.signed))
  }

  function CreateStep(
    rec: TransferRecord, clash: bool, view: View, signed: SignedTransfer, answer: Answer): StepResult
  {
    Write(rec, CreateAttempt(rec, clash, signed.payload, signed.hash), answer,
          Claiming(view, |rec.attempts|, Attempt(signed.payload, signed.hash, SignedOnly)), ReadingLatest(view, true))
  }

  function ClaimStep(rec: TransferRecord, view: View, id: nat, attempt: Attempt, answer: Answer): StepResult {
    Write(rec, UpdateAttempt(rec, id, SignedOnly, Broadcasting), answer,
          CallingBroadcaster(view, id, attempt.(status := Broadcasting)), ReadingLatest(view, true))
  }

  function BroadcastStep(rec: TransferRecord, view: View, id: nat, attempt: Attempt, answer: Answer): StepResult {
    match answer
    case Ok => Go(AddBroadcast(rec, id, attempt, true), Confirming(view, id, attempt))
    case Err(kind, effect) => Go(AddBroadcast(rec, id, attempt, effect), Recording(view, id, attempt, kind))
  }

  function ConfirmStep(rec: TransferRecord, view: View, id: nat, attempt: Attempt, answer: Answer): StepResult {
    Write(rec, UpdateAttempt(rec, id, Broadcasting, Broadcasted), answer,
          Resume(view, id, attempt.(status := Broadcasted)), ReadingLatest(view, true))
  }

  function RecordStep(rec: TransferRecord, view: View, id: nat, kind: ErrorKind, answer: Answer): StepResult {
    Write(rec, UpdateAttempt(rec, id, Broadcasting, if kind == Transient then SignedOnly else AttemptFailed), answer,
          Returned(Failure(kind)), ReadingLatest(view, true))
  }

  /** How a call ends that is made with a context which may be cancelled. */
  function Under(cancelled: bool, answer: Answer): Answer { if cancelled then Err(Canceled, false) else answer }

  /** The read of `FailTransfer`. */
  function FailLoadStep(rec: TransferRecord, cancelled: bool, answer: Answer): StepResult {
    match Under(cancelled, answer)
    case Ok => Go(rec, if Settled(rec.status) then Acking(FailSettled) else FailWriting(ViewOf(rec)))
    case Err(_, _) => Go(rec.(failErrors := rec.failErrors + 1), Acking(FailErrored))
  }

  /** The write of `FailTransfer`: a lost race counts as settled, an error is logged and acknowledged. */
  function FailWriteStep(rec: TransferRecord, view: View, answer: Answer): StepResult {
    var updated := TransitionStatus(rec, view.status, Failed, None);
    match answer
    case Ok => Go(if updated.Some? then updated.value else rec, Acking(FailSettled))
    case Err(_, effect) =>
      var rec' := if effect && updated.Some? then updated.value else rec;
      Go(rec'.(failErrors := rec'.failErrors + 1), Acking(FailErrored))
  }

  /** The pause and the publish; the consumer returns any error, and the delivery comes back. */
  function RepublishStep(rec: TransferRecord, cancelled: bool, answer: Answer): StepResult {
    match Under(cancelled, answer)
    case Ok => StepResult(rec, Continue(Acking(Republished)), true)
    case Err(_, effect) => StepResult(rec, Requeue, effect)
  }

  function AckStep(rec: TransferRecord, answer: Answer): StepResult {
    StepResult(rec, if answer == Ok || answer.effect then Done else Requeue, false)
  }

  /** Inside `ProcessTransfer`. */
  predicate Processing(pc: Pc) {
    || pc.Loading? || pc.Advancing? || pc.ReadingLatest? || pc.CallingSigner? || pc.Creating? || pc.Claiming?
    || pc.CallingBroadcaster? || pc.Confirming? || pc.Recording? || pc.Submitting?
  }

  /** The next call of `ProcessTransfer`. */
  function ProcessStep(rec: TransferRecord, clash: bool, pc: Pc, c: Choice): StepResult
    requires Processing(pc)
  {
    match pc
    case Loading => if c.answer == Ok then Go(rec, Enter(ViewOf(rec))) else Go(rec, Returned(Failure(c.answer.kind)))
    case Advancing(view) =>
      if Working(view.status) then AdvanceStep(rec, view, c.answer) else Go(rec, Returned(NotActionable))
    case ReadingLatest(view, resuming) => ReadLatestStep(rec, view, resuming, c.answer)
    case CallingSigner(view) => SignStep(rec, view, c)
    case Creating(view, signed) => CreateStep(rec, clash, view, signed, c.answer)
    case Claiming(view, id, attempt) => ClaimStep(rec, view, id, attempt, c.answer)
    case CallingBroadcaster(view, id, attempt) => BroadcastStep(rec, view, id, attempt, c.answer)
    case Confirming(view, id, attempt) => ConfirmStep(rec, view, id, attempt, c.answer)
    case Recording(view, id, attempt, kind) => RecordStep(rec, view, id, kind, c.answer)
    case Submitting(view, id, attempt) => SubmitStep(rec, view, attempt, c.answer)
  }

  /** The next call of the consumer around `ProcessTransfer`, including `FailTransfer`. */
  function ConsumeStep(rec: TransferRecord, w: Worker, c: Choice, policy: RetryPolicy): StepResult
    requires !Processing(w.pc)
  {
    match w.pc
    case Locking => if c.answer == Ok then Go(rec, Loading) else StepResult(rec, Requeue, false)
    case Returned(result) => Go(rec, Settle(result, w.retry, policy, c.lockLost))
    case FailLoading(cancelled) => FailLoadStep(rec, cancelled, c.answer)
    case FailWriting(view) => FailWriteStep(rec, view, c.answer)
    case Republishing(cancelled) => RepublishStep(rec, cancelled, c.answer)
    case Acking(reason) => AckStep(rec, c.answer)
  }

  /** The worker's next step on the record of its transfer. */
  function WorkerStep(rec: TransferRecord, clash: bool, w: Worker, c: Choice, policy: RetryPolicy): StepResult {
    if Processing(w.pc) then ProcessStep(rec, clash, w.pc, c) else ConsumeStep(rec, w, c, policy)
  }

  // ----- what a worker may rely on, however stale its copies are

  /** A local attempt copy names an existing row and agrees with it on what never changes. */
  predicate Knows(rec: TransferRecord, id: nat, attempt: Attempt) {
    && id < |rec.attempts|
    && rec.attempts[id].payload == attempt.payload
    && rec.attempts[id].hash == attempt.hash
  }

  predicate PcInv(rec: TransferRecord, pc: Pc) {
    match pc
    case Advancing(view) => Working(view.status) && view.status != Signing
    case ReadingLatest(view, _) => view.status == Signing
    case CallingSigner(view) => view.status == Signing
    case Creating(view, signed) => view.status == Signing && signed.hash != "" && signed.payload != ""
    case Claiming(view, id, a) => view.status == Signing && Knows(rec, id, a) && a.status == SignedOnly
    case CallingBroadcaster(view, id, a) => view.status == Signing && Knows(rec, id, a) && a.status == Broadcasting
    case Confirming(view, id, a) =>
      view.status == Signing && Knows(rec, id, a) && a.status == Broadcasting && Accepted(rec.broadcasts, id)
    case Recording(view, id, a, _) => view.status == Signing && Knows(rec, id, a) && a.status == Broadcasting
    case Submitting(view, id, a) =>
      && view.status == Signing && Knows(rec, id, a) && a.status == Broadcasted
      && rec.attempts[id].status == Broadcasted
    case Returned(result) => result.Success? ==> Settled(rec.status) && result.view == ViewOf(rec)
    case FailWriting(view) => Working(view.status)
    case _ => true
  }

  /** What a worker knows survives everything other workers may commit. */
  lemma PcInvStable(rec: TransferRecord, later: TransferRecord, pc: Pc)
    requires PcInv(rec, pc)
    requires RecordInv(rec) && RecordInv(later) && Evolves(rec, later)
    ensures PcInv(later, pc)
  {
    match pc {
      case Confirming(view, id, a) =>
        AcceptedMonotone(rec.broadcasts, later.broadcasts, id);
      case Submitting(view, id, a) =>
        assert AttemptEvolves(rec.attempts[id], later.attempts[id]);
      case Claiming(view, id, a) =>
        assert AttemptEvolves(rec.attempts[id], later.attempts[id]);
      case CallingBroadcaster(view, id, a) =>
        assert AttemptEvolves(rec.attempts[id], later.attempts[id]);
      case Recording(view, id, a, _) =>
        assert AttemptEvolves(rec.attempts[id], later.attempts[id]);
      case Returned(result) =>
        if result.Success? {
          SettledFixed(rec, later);
        }
      case _ =>
    }
  }

  lemma LegalAt(history: seq<HistoryRow>, status: Status, n: nat)
    requires HistoryInv(history, status)
    requires 0 < n < |history|
    ensures Legal(history[n-1].to, history[n].to)
  {
  }

  /** Nothing can be appended to the history of a settled transfer, so nothing about it changes any more. */
  lemma SettledFixed(rec: TransferRecord, later: TransferRecord)
    requires RecordInv(rec) && RecordInv(later) && Evolves(rec, later)
    requires Settled(rec.status)
    ensures later.history == rec.history && ViewOf(later) == ViewOf(rec)
  {
    var n := |rec.history|;
    assert later.history[n-1] == rec.history[n-1];
    if |later.history| > n {
      LegalAt(later.history, later.status, n);
    }
  }

  /** A step that keeps the record well formed, only adds to its past, and leaves the worker with sound knowledge. */
  predicate Keeps(rec: TransferRecord, r: StepResult) {
    && RecordInv(r.rec)
    && Evolves(rec, r.rec)
    && (r.next.Continue? ==> PcInv(r.rec, r.next.pc))
  }

  lemma EvolvesReflexive(rec: TransferRecord)
    ensures Evolves(rec, rec)
  {
  }

  lemma AdvanceKeeps(rec: TransferRecord, view: View, answer: Answer)
    requires RecordInv(rec) && Working(view.status) && view.status != Signing
    ensures Keeps(rec, AdvanceStep(rec, view, answer))
  {
    hide RecordInv, Evolves;
    EvolvesReflexive(rec);
    TransitionKeepsInv(rec, view.status, NextStatus(view.status), None);
  }

  lemma StoredHash(rec: TransferRecord, id: nat)
    requires RecordInv(rec) && id < |rec.attempts|
    ensures rec.attempts[id].hash != ""
  {
  }

  lemma SubmitKeeps(rec: TransferRecord, view: View, id: nat, attempt: Attempt, answer: Answer)
    requires RecordInv(rec) && PcInv(rec, Submitting(view, id, attempt))
    ensures Keeps(rec, SubmitStep(rec, view, attempt, answer))
  {
    hide RecordInv, Evolves;
    EvolvesReflexive(rec);
    StoredHash(rec, id);
    TransitionKeepsInv(rec, view.status, Submitted, Some(attempt.hash));
  }

  lemma CountedErrorKeeps(rec: TransferRecord, later: TransferRecord)
    requires RecordInv(later) && Evolves(rec, later)
    ensures var counted := later.(failErrors := later.failErrors + 1); RecordInv(counted) && Evolves(rec, counted)
  {
  }

  lemma FailWriteKeeps(rec: TransferRecord, view: View, answer: Answer)
    requires RecordInv(rec) && Working(view.status)
    ensures Keeps(rec, FailWriteStep(rec, view, answer))
  {
    hide RecordInv, Evolves;
    EvolvesReflexive(rec);
    TransitionKeepsInv(rec, view.status, Failed, None);
    var r := FailWriteStep(rec, view, answer).rec;
    var updated := TransitionStatus(rec, view.status, Failed, None);
    CountedErrorKeeps(rec, if r.status == rec.status then rec else updated.value);
  }

  lemma CreateKeeps(rec: TransferRecord, clash: bool, view: View, signed: SignedTransfer, answer: Answer)
    requires RecordInv(rec) && PcInv(rec, Creating(view, signed))
    ensures Keeps(rec, CreateStep(rec, clash, view, signed, answer))
  {
    hide RecordInv, Evolves, HasActive, HasHash;
    EvolvesReflexive(rec);
    CreateAttemptKeepsInv(rec, clash, signed.payload, signed.hash);
  }

  lemma ClaimKeeps(rec: TransferRecord, view: View, id: nat, attempt: Attempt, answer: Answer)
    requires RecordInv(rec) && PcInv(rec, Claiming(view, id, attempt))
    ensures Keeps(rec, ClaimStep(rec, view, id, attempt, answer))
  {
    hide RecordInv, Evolves, ActiveIndexHolds;
    EvolvesReflexive(rec);
    UpdateAttemptKeepsInv(rec, id, SignedOnly, Broadcasting);
  }

  lemma BroadcastKeeps(rec: TransferRecord, view: View, id: nat, attempt: Attempt, answer: Answer)
    requires RecordInv(rec) && PcInv(rec, CallingBroadcaster(view, id, attempt))
    ensures Keeps(rec, BroadcastStep(rec, view, id, attempt, answer))
  {
    AddBroadcastKeepsInv(rec, id, attempt, answer == Ok || answer.effect);
  }

  lemma ConfirmKeeps(rec: TransferRecord, view: View, id: nat, attempt: Attempt, answer: Answer)
    requires RecordInv(rec) && PcInv(rec, Confirming(view, id, attempt))
    ensures Keeps(rec, ConfirmStep(rec, view, id, attempt, answer))
  {
    hide RecordInv, Evolves, ActiveIndexHolds;
    EvolvesReflexive(rec);
    UpdateAttemptKeepsInv(rec, id, Broadcasting, Broadcasted);
  }

  lemma RecordKeeps(rec: TransferRecord, view: View, id: nat, attempt: Attempt, kind: ErrorKind, answer: Answer)
    requires RecordInv(rec) && PcInv(rec, Recording(view, id, attempt, kind))
    ensures Keeps(rec, RecordStep(rec, view, id, kind, answer))
  {
    hide RecordInv, Evolves, ActiveIndexHolds;
    EvolvesReflexive(rec);
    UpdateAttemptKeepsInv(rec, id, Broadcasting, if kind == Transient then SignedOnly else AttemptFailed);
  }

  lemma NeverConfirmed(rec: TransferRecord)
    requires RecordInv(rec)
    ensures Working(rec.status) || Settled(rec.status)
  {
    HistoryShape(rec.history, rec.status);
  }

  lemma ReadLatestKeeps(rec: TransferRecord, view: View, resuming: bool, answer: Answer)
    requires RecordInv(rec) && view.status == Signing
    ensures Keeps(rec, ReadLatestStep(rec, view, resuming, answer))
  {
    hide RecordInv, Evolves;
    EvolvesReflexive(rec);
  }

  lemma FailLoadKeeps(rec: TransferRecord, cancelled: bool, answer: Answer)
    requires RecordInv(rec)
    ensures Keeps(rec, FailLoadStep(rec, cancelled, answer))
  {
    hide RecordInv, Evolves;
    NeverConfirmed(rec);
    EvolvesReflexive(rec);
    CountedErrorKeeps(rec, rec);
  }

  lemma LoadKeeps(rec: TransferRecord, clash: bool, c: Choice)
    requires RecordInv(rec)
    ensures Keeps(rec, ProcessStep(rec, clash, Loading, c))
  {
    NeverConfirmed(rec);
    EvolvesReflexive(rec);
  }

  lemma ProcessStepKeeps(rec: TransferRecord, clash: bool, pc: Pc, c: Choice)
    requires RecordInv(rec) && Processing(pc) && PcInv(rec, pc)
    ensures Keeps(rec, ProcessStep(rec, clash, pc, c))
  {
    match pc {
      case Loading => LoadKeeps(rec, clash, c);
      case Advancing(view) => AdvanceKeeps(rec, view, c.answer);
      case ReadingLatest(view, resuming) => ReadLatestKeeps(rec, view, resuming, c.answer);
      case CallingSigner(view) => EvolvesReflexive(rec);
      case Creating(view, signed) => CreateKeeps(rec, clash, view, signed, c.answer);
      case Claiming(view, id, a) => ClaimKeeps(rec, view, id, a, c.answer);
      case CallingBroadcaster(view, id, a) => BroadcastKeeps(rec, view, id, a, c.answer);
      case Confirming(view, id, a) => ConfirmKeeps(rec, view, id, a, c.answer);
      case Recording(view, id, a, kind) => RecordKeeps(rec, view, id, a, kind, c.answer);
      case Submitting(view, id, a) => SubmitKeeps(rec, view, id, a, c.answer);
    }
  }

  lemma ConsumeStepKeeps(rec: TransferRecord, w: Worker, c: Choice, policy: RetryPolicy)
    requires RecordInv(rec) && !Processing(w.pc) && PcInv(rec, w.pc)
    ensures Keeps(rec, ConsumeStep(rec, w, c, policy))
  {
    match w.pc {
      case FailWriting(view) => FailWriteKeeps(rec, view, c.answer);
      case FailLoading(cancelled) => FailLoadKeeps(rec, cancelled, c.answer);
      case _ => EvolvesReflexive(rec);
    }
  }

  /** Every step of a worker keeps the record invariant and the worker's own. */
  lemma WorkerStepKeeps(rec: TransferRecord, clash: bool, w: Worker, c: Choice, policy: RetryPolicy)
    requires RecordInv(rec) && PcInv(rec, w.pc)
    ensures Keeps(rec, WorkerStep(rec, clash, w, c, policy))
  {
    if Processing(w.pc) {
      ProcessStepKeeps(rec, clash, w.pc, c);
    } else {
      ConsumeStepKeeps(rec, w, c, policy);
    }
  }
}
