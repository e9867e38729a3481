/**
 The processor and the consumer as the imperative code they are: local copies, a status loop, recursion on
 conflict, calls that fail. A script decides what happens around each call: which moves other processes make
 first, and how the call ends. The state after `k` calls is then fixed by the pipeline's step function, and the
 class proves that the code, whatever the script, is in exactly that state after every call, ends, and returns
 what the pipeline's worker returns.
 */
module ProcessorCode {
  import opened Transfers
  import opened Workers
  import opened Pipeline
  import opened Recovery
  import opened NoLostJobs

  /** What happens around one call: the moves of other processes before it, and how the call itself ends. */
  datatype Turn = Turn(before: seq<Move>, c: Choice)

  /** What a call returns: a value, a conflict on an attempt row, or an error that ends `ProcessTransfer`. */
  datatype Outcome<T> = Value(value: T) | Conflict | Error(result: Result)

  datatype AttemptCopy = AttemptCopy(id: nat, attempt: Attempt)

  /** What becomes of a delivery. */
  datatype Disposition = Acked(reason: AckReason) | HandedBack

  predicate Foreign(m: Move, me: WorkerId) {
    !(m.Work? && m.w == me) && m != Crash(me)
  }

  predicate ForeignTurn(turn: Turn, me: WorkerId) {
    forall i | 0 <= i < |turn.before| :: Foreign(turn.before[i], me)
  }

  predicate ForeignScript(script: seq<Turn>, me: WorkerId) {
    forall i | 0 <= i < |script| :: ForeignTurn(script[i], me)
  }

  /** Where the three status updates of an attempt lead when they land. */
  function AfterUpdate(pc: Pc, copy: AttemptCopy): Pc
    requires pc.Claiming? || pc.Confirming? || pc.Recording?
  {
    match pc
    case Claiming(view, _, _) => CallingBroadcaster(view, copy.id, copy.attempt)
    case Confirming(view, _, _) => Resume(view, copy.id, copy.attempt)
    case Recording(_, _, _, kind) => Workers.Returned(Failure(kind))
  }

  /** The status an attempt gets after a broadcast error. */
  function StatusAfterError(kind: ErrorKind): AttemptStatus {
    if kind == Transient then SignedOnly else AttemptFailed
  }

  /** The three places that ask for an attempt update. */
  predicate MayUpdate(pc: Pc, view: View, copy: AttemptCopy, expected: AttemptStatus, to: AttemptStatus) {
    match pc
    case Claiming(v, id, a) => v == view && copy == AttemptCopy(id, a) && expected == SignedOnly && to == Broadcasting
    case Confirming(v, id, a) =>
      v == view && copy == AttemptCopy(id, a) && expected == Broadcasting && to == Broadcasted
    case Recording(v, id, a, kind) =>
      v == view && copy == AttemptCopy(id, a) && expected == Broadcasting && to == StatusAfterError(kind)
    case _ => false
  }

  /** The two places that ask for a transition. */
  predicate MayTransition(pc: Pc, view: View, to: Status, hash: Option<string>) {
    || (pc == Advancing(view) && Working(view.status) && to == NextStatus(view.status) && hash == None)
    || (pc.Submitting? && pc.view == view && to == Submitted && hash == Some(pc.attempt.hash))
  }

  /** The error is treated as transient: it is, or the heartbeat lost the lock and nothing worse happened. */
  predicate Retries(result: Result, lockLost: bool) {
    result == Failure(Transient) || (lockLost && (result.Success? || result == Failure(Canceled)))
  }

  /** Where `retryJob` begins; after a lost lock its calls are made with a cancelled context. */
  function Retrying(retry: nat, policy: RetryPolicy, lockLost: bool): Pc {
    if retry >= policy.maxRetries then FailLoading(lockLost) else Republishing(lockLost && policy.delay > 0)
  }

  /**
   What may become of a delivery whose processing ended with `result`, apart from being handed back: a success is
   acknowledged, a transient error retried or given up on when the retries are used, any other error given up on, and
   a lost lock makes a transient error of a success or a cancellation.
   */
  predicate Concludes(policy: RetryPolicy, retry: nat, result: Result, lockLost: bool, d: Disposition) {
    var givenUp := d == Acked(FailSettled) || d == Acked(FailErrored);
    var retried := if retry < policy.maxRetries then d == Acked(Republished) else givenUp;
    || d == HandedBack
    || match result
       case Success(_) => if lockLost then retried else d == Acked(Processed)
       case NotActionable => d == Acked(SkippedJob)
       case Failure(Transient) => retried
       case Failure(Canceled) => if lockLost then retried else givenUp
       case Failure(Other) => givenUp
  }

  lemma SettleCases(result: Result, retry: nat, policy: RetryPolicy, lockLost: bool)
    ensures Settle(result, retry, policy, lockLost) ==
            match result
            case Success(_) => if lockLost then Retrying(retry, policy, lockLost) else Acking(Processed)
            case NotActionable => Acking(SkippedJob)
            case Failure(Transient) => Retrying(retry, policy, lockLost)
            case Failure(Canceled) => if lockLost then Retrying(retry, policy, lockLost) else FailLoading(lockLost)
            case Failure(Other) => FailLoading(lockLost)
  {
  }

  function CallsLeft(s: System, w: WorkerId): nat
    requires CanWork(s, w)
  {
    Remaining(RecordOf(s, w), s.workers[w].pc)
  }

  /** Nothing stands in the way of PENDING_ON_CHAIN. */
  predicate Smooth(s: System, w: WorkerId, signed: SignedTransfer) {
    && CanWork(s, w)
    && OnCourse(RecordOf(s, w), s.workers[w].pc)
    && Signable(s, w, signed) && CreatesOnly(s, w, signed)
  }

  /** The worker's transfer has the record `rec` and the worker is at `pc`. */
  function Gone(s: System, w: WorkerId, rec: TransferRecord, pc: Pc): System
    requires CanWork(s, w)
  {
    s.(records := s.records[s.workers[w].transfer := rec], workers := s.workers[w := s.workers[w].(pc := pc)])
  }

  lemma OwnStep(cfg: Config, s: System, w: WorkerId, c: Choice, rec: TransferRecord, pc: Pc)
    requires CanWork(s, w) && WorkResult(cfg, s, w, c) == Go(rec, pc)
    ensures Step(cfg, s, Work(w, c)) == Gone(s, w, rec, pc)
  {
    hide WorkResult;
  }

  lemma OwnStepProgresses(cfg: Config, s: System, w: WorkerId, c: Choice, signed: SignedTransfer)
    requires Inv(s) && Busy(s, w)
    ensures var s' := Step(cfg, s, Work(w, c));
            && CanWork(s', w) && CallsLeft(s', w) < CallsLeft(s, w)
            && (Smooth(s, w, signed) && c == Choice(Ok, signed, false) ==> Smooth(s', w, signed))
  {
    hide RecordInv, PcInv, Remaining, OnCourse, Clash, WorkMove;
    OwnWork(cfg, s, Work(w, c));
    OwnMove(cfg, s, w, c);
    if Smooth(s, w, signed) && c == Choice(Ok, signed, false) {
      SoloStep(cfg, s, w, signed);
    }
  }

  /** What a conditional statement leaves behind: its update, if its condition held and it took effect. */
  function Landed(rec: TransferRecord, updated: Option<TransferRecord>, answer: Answer): TransferRecord {
    if updated.Some? && (answer == Ok || answer.effect) then updated.value else rec
  }

  lemma TransitionCall(cfg: Config, s: System, w: WorkerId, c: Choice, view: View, to: Status, hash: Option<string>)
    requires CanWork(s, w) && MayTransition(s.workers[w].pc, view, to, hash)
    ensures var rec := RecordOf(s, w); var updated := Transfers.TransitionStatus(rec, view.status, to, hash);
            WorkResult(cfg, s, w, c) == Go(Landed(rec, updated, c.answer),
              if c.answer.Err? then Workers.Returned(Failure(c.answer.kind))
              else if updated.None? then Workers.Returned(NotActionable)
              else Enter(ViewOf(updated.value)))
  {
  }

  lemma UpdateCall(
    cfg: Config, s: System, w: WorkerId, c: Choice,
    view: View, copy: AttemptCopy, expected: AttemptStatus, to: AttemptStatus)
    requires CanWork(s, w) && MayUpdate(s.workers[w].pc, view, copy, expected, to)
    ensures var rec := RecordOf(s, w); var updated := Transfers.UpdateAttempt(rec, copy.id, expected, to);
            WorkResult(cfg, s, w, c) == Go(Landed(rec, updated, c.answer),
              if c.answer.Err? then Workers.Returned(Failure(c.answer.kind))
              else if updated.None? then ReadingLatest(view, true)
              else AfterUpdate(s.workers[w].pc, AttemptCopy(copy.id, copy.attempt.(status := to))))
  {
    hide Transfers.UpdateAttempt;
  }

  lemma LatestCall(cfg: Config, s: System, w: WorkerId, c: Choice, view: View, resuming: bool)
    requires CanWork(s, w) && s.workers[w].pc == ReadingLatest(view, resuming)
    ensures WorkResult(cfg, s, w, c) == ReadLatestStep(RecordOf(s, w), view, resuming, c.answer)
  {
    hide ReadLatestStep;
  }

  lemma SignCall(cfg: Config, s: System, w: WorkerId, c: Choice, view: View)
    requires CanWork(s, w) && s.workers[w].pc == CallingSigner(view)
    ensures WorkResult(cfg, s, w, c) == SignStep(RecordOf(s, w), view, c)
  {
    hide SignStep;
  }

  lemma CreateCall(cfg: Config, s: System, w: WorkerId, c: Choice, view: View, tx: SignedTransfer)
    requires CanWork(s, w) && s.workers[w].pc == Creating(view, tx)
    ensures var rec := RecordOf(s, w); var clash := Clash(s.records, s.workers[w].transfer, tx.hash);
            WorkResult(cfg, s, w, c) == CreateStep(rec, clash, view, tx, c.answer)
  {
    hide CreateStep, Clash;
  }

  lemma BroadcastCall(cfg: Config, s: System, w: WorkerId, c: Choice, view: View, copy: AttemptCopy)
    requires CanWork(s, w) && s.workers[w].pc == CallingBroadcaster(view, copy.id, copy.attempt)
    ensures WorkResult(cfg, s, w, c) == BroadcastStep(RecordOf(s, w), view, copy.id, copy.attempt, c.answer)
  {
    hide BroadcastStep;
  }

  lemma FailLoadCall(cfg: Config, s: System, w: WorkerId, c: Choice, cancelled: bool)
    requires CanWork(s, w) && s.workers[w].pc == FailLoading(cancelled)
    ensures WorkResult(cfg, s, w, c) == FailLoadStep(RecordOf(s, w), cancelled, c.answer)
  {
    hide FailLoadStep;
  }

  lemma FailWriteCall(cfg: Config, s: System, w: WorkerId, c: Choice, view: View)
    requires CanWork(s, w) && s.workers[w].pc == FailWriting(view)
    ensures var rec := RecordOf(s, w);
            var rec' := Landed(rec, Transfers.TransitionStatus(rec, view.status, Failed, None), c.answer);
            WorkResult(cfg, s, w, c) ==
              if c.answer.Err? then Go(rec'.(failErrors := rec'.failErrors + 1), Acking(FailErrored))
              else Go(rec', Acking(FailSettled))
  {
  }

  lemma RepublishCall(cfg: Config, s: System, w: WorkerId, c: Choice, cancelled: bool)
    requires CanWork(s, w) && s.workers[w].pc == Republishing(cancelled)
    ensures var s' := Step(cfg, s, Work(w, c)); var job := Job(s.workers[w].transfer, s.workers[w].retry);
            && s'.records == s.records
            && (Under(cancelled, c.answer) == Ok ==>
                  && w in s'.workers && s'.workers[w] == s.workers[w].(pc := Acking(Republished))
                  && s'.queue == s.queue + multiset{Job(job.transfer, job.retry + 1)})
            && (Under(cancelled, c.answer).Err? ==> w !in s'.workers && job in s'.queue)
  {
    hide ProcessStep;
    assert s.records == s.records[s.workers[w].transfer := RecordOf(s, w)];
  }

  /** A worker that has just received its delivery can bring the transfer to PENDING_ON_CHAIN. */
  predicate Startable(s: System, w: WorkerId, signed: SignedTransfer) {
    CanWork(s, w) && Signable(s, w, signed) && Recoverable(RecordOf(s, w))
  }

  class Consumer {
    const cfg: Config
    const me: WorkerId
    const signed: SignedTransfer
    /** The outside world's decisions; when they run out nobody interferes and every call succeeds. */
    const script: seq<Turn>
    ghost const origin: System

    var sys: System
    /** The calls made so far. */
    var calls: nat

    function TurnAt(k: nat): Turn {
      if k < |script| then script[k] else Turn([], Choice(Ok, signed, false))
    }

    /** The state after `k` calls. */
    ghost function Called(k: nat): System
      decreases k, 0
    {
      if k == 0 then origin else Step(cfg, Reached(k - 1), Work(me, TurnAt(k - 1).c))
    }

    /** The state in which call `k` is made, after the others' moves. */
    ghost function Reached(k: nat): System
      decreases k, 1
    {
      Run(cfg, Called(k), TurnAt(k).before)
    }

    /** All moves, the others' and this worker's, up to the `k`-th call. */
    ghost function Played(k: nat): seq<Move> {
      if k == 0 then [] else Played(k - 1) + TurnAt(k - 1).before + [Work(me, TurnAt(k - 1).c)]
    }

    /** The state after `k` calls is a run of the pipeline, so what holds of every run holds of the code. */
    lemma {:induction false} CalledIsRun(k: nat)
      ensures Called(k) == Run(cfg, origin, Played(k))
    {
      hide Step;
      if k > 0 {
        var own := Work(me, TurnAt(k - 1).c);
        CalledIsRun(k - 1);
        RunAppend(cfg, origin, Played(k - 1), TurnAt(k - 1).before);
        RunAppend(cfg, origin, Played(k - 1) + TurnAt(k - 1).before, [own]);
        assert Run(cfg, Reached(k - 1), [own]) == Run(cfg, Step(cfg, Reached(k - 1), own), []);
      }
    }

    ghost predicate Valid()
      reads this
    {
      Inv(sys) && sys == Called(calls) && ForeignScript(script, me)
    }

    ghost predicate At(pc: Pc)
      reads this
    {
      Valid() && CanWork(sys, me) && sys.workers[me].pc == pc
    }

    /** The others have made their moves and the next call is about to be made. */
    ghost predicate Poised(c: Choice)
      reads this
    {
      Inv(sys) && sys == Reached(calls) && ForeignScript(script, me) && CanWork(sys, me) && c == TurnAt(calls).c
    }

    /** The state in which the last call was made. */
    ghost function Before(): System
      reads this
      requires calls > 0
    {
      Reached(calls - 1)
    }

    ghost function LastAnswer(): Answer
      reads this
      requires calls > 0
    {
      TurnAt(calls - 1).c.answer
    }

    /** The transfer's record now, and as the last call found it. */
    ghost function Record(): TransferRecord
      reads this
      requires CanWork(sys, me)
    {
      RecordOf(sys, me)
    }

    ghost function Found(): TransferRecord
      reads this
      requires calls > 0 && CanWork(Before(), me)
    {
      RecordOf(Before(), me)
    }

    /** The turns of the script still to come after `k` calls. */
    ghost function TurnsLeft(k: nat): nat {
      if k < |script| then |script| - k else 0
    }

    /** Nobody will interfere any more and every call will succeed. */
    ghost predicate Calm()
      reads this
    {
      calls >= |script|
    }

    constructor (cfg: Config, me: WorkerId, signed: SignedTransfer, sys: System, script: seq<Turn>)
      requires Inv(sys) && ForeignScript(script, me)
      ensures Valid() && this.sys == sys && this.origin == sys && this.script == script && calls == 0
      ensures this.cfg == cfg && this.me == me && this.signed == signed
    {
      this.cfg, this.me, this.signed, this.sys, this.script := cfg, me, signed, sys, script;
      this.origin, this.calls := sys, 0;
    }

    // ----- one call

    /** The others go first; the choice tells how the coming call ends. */
    method Await() returns (c: Choice)
      requires Valid() && CanWork(sys, me)
      modifies this`sys
      ensures Poised(c) && Awaited(old(sys))
      ensures calls >= |script| ==> c == Choice(Ok, signed, false)
    {
      hide Step, Inv, Called;
      var turn := TurnAt(calls);
      c := turn.c;
      var i := 0;
      assert turn.before[0..] == turn.before;
      while i < |turn.before|
        invariant 0 <= i <= |turn.before|
        invariant Inv(sys) && Run(cfg, sys, turn.before[i..]) == Reached(calls)
        invariant CanWork(sys, me) && sys.workers[me] == old(sys.workers[me])
        invariant Settled(old(Record().status)) ==> Record().status == old(Record().status)
        invariant old(Record()).failErrors <= Record().failErrors
        invariant i == 0 ==> sys == old(sys)
      {
        assert ForeignTurn(turn, me);
        Untouched(turn.before[i]);
        assert turn.before[i..][1..] == turn.before[i+1..];
        sys := Step(cfg, sys, turn.before[i]);
        i := i + 1;
      }
    }

    lemma Untouched(m: Move)
      requires Inv(sys) && CanWork(sys, me) && Foreign(m, me)
      ensures Inv(Step(cfg, sys, m))
      ensures CanWork(Step(cfg, sys, m), me) && Step(cfg, sys, m).workers[me] == sys.workers[me]
      ensures Settled(Record().status) ==> RecordOf(Step(cfg, sys, m), me).status == Record().status
      ensures Record().failErrors <= RecordOf(Step(cfg, sys, m), me).failErrors
    {
      hide RecordInv, PcInv, Evolves, Step;
      StepKeeps(cfg, sys, m);
      ForeignMoveLeavesWorker(cfg, sys, m, me);
      SettledStays(Record(), RecordOf(Step(cfg, sys, m), me));
      ErrorsOnlyGrow(Record(), RecordOf(Step(cfg, sys, m), me));
    }

    ghost function MyJob(): Job
      reads this
      requires CanWork(sys, me)
    {
      Job(sys.workers[me].transfer, sys.workers[me].retry)
    }

    twostate predicate SameJob()
      reads this
    {
      old(CanWork(sys, me)) && CanWork(sys, me) && MyJob() == old(MyJob())
    }

    /** From one state to a later one: calls have been made, fewer are left, and a smooth course stays smooth. */
    ghost predicate Advances(s: System, k: nat, s': System, k': nat) {
      && CanWork(s, me) && CanWork(s', me) && k < k'
      && s'.workers[me].transfer == s.workers[me].transfer && s'.workers[me].retry == s.workers[me].retry
      && CanWork(Reached(k' - 1), me) && Reached(k' - 1).workers[me].transfer == s'.workers[me].transfer
      && RecordOf(s, me).failErrors <= RecordOf(s', me).failErrors
      && (TurnsLeft(k') < TurnsLeft(k) || (TurnsLeft(k') == TurnsLeft(k) && CallsLeft(s', me) < CallsLeft(s, me)))
      && (k >= |script| && Smooth(s, me, signed) ==> Smooth(s', me, signed))
    }

    /** Going on from there, or staying, is still an advance. */
    lemma AdvancesFurther(s: System, k: nat, s1: System, k1: nat, s2: System, k2: nat)
      requires Advances(s, k, s1, k1) && (Advances(s1, k1, s2, k2) || (s2 == s1 && k2 == k1))
      ensures Advances(s, k, s2, k2)
    {
      hide Smooth, CallsLeft, Reached;
    }

    lemma AdvanceMeans(s: System, k: nat, s': System, k': nat)
      requires Advances(s, k, s', k')
      ensures TurnsLeft(k') < TurnsLeft(k) || (TurnsLeft(k') == TurnsLeft(k) && CallsLeft(s', me) < CallsLeft(s, me))
      ensures k < k' && CanWork(Reached(k' - 1), me)
      ensures k >= |script| && Smooth(s, me, signed) ==> Smooth(s', me, signed)
    {
    }

    lemma KeepsJob(s: System, k: nat, s': System, k': nat)
      requires Advances(s, k, s', k')
      ensures CanWork(s, me) && CanWork(s', me) && k < k'
      ensures s'.workers[me].transfer == s.workers[me].transfer && s'.workers[me].retry == s.workers[me].retry
      ensures RecordOf(s, me).failErrors <= RecordOf(s', me).failErrors
    {
    }

    twostate predicate Went()
      reads this
    {
      Valid() && Advances(old(sys), old(calls), sys, calls)
    }

    /** The others have gone first, since state `s`. */
    ghost predicate Awaited(s: System)
      reads this
    {
      && CanWork(s, me) && CanWork(sys, me) && sys.workers[me] == s.workers[me]
      && (Settled(RecordOf(s, me).status) ==> Record().status == RecordOf(s, me).status)
      && RecordOf(s, me).failErrors <= Record().failErrors
      && (calls >= |script| ==> sys == s)
    }

    /** A call of the processor, made from state `s` on. */
    method CommitCall(c: Choice, rec: TransferRecord, pc: Pc, ghost s: System)
      requires Poised(c) && WorkResult(cfg, sys, me, c) == Go(rec, pc) && Busy(sys, me) && Awaited(s)
      modifies this
      ensures At(pc) && sys == Gone(old(sys), me, rec, pc)
      ensures calls == old(calls) + 1 && Before() == old(sys)
      ensures Advances(s, old(calls), sys, calls)
    {
      hide Inv, WorkResult, Smooth, CallsLeft, Reached, Called;
      Commit(c, rec, pc);
    }

    /** The worker's own step: the statement's effect on the record, and where the worker goes next. */
    method Commit(c: Choice, rec: TransferRecord, pc: Pc)
      requires Poised(c) && WorkResult(cfg, sys, me, c) == Go(rec, pc)
      modifies this
      ensures At(pc) && sys == Gone(old(sys), me, rec, pc) && SameJob()
      ensures calls == old(calls) + 1 && Before() == old(sys)
      ensures old(Record()).failErrors <= Record().failErrors
      ensures old(Busy(sys, me)) ==> CallsLeft(sys, me) < old(CallsLeft(sys, me))
      ensures old(Busy(sys, me) && Calm() && Smooth(sys, me, signed)) ==> Smooth(sys, me, signed)
    {
      hide Inv, WorkResult, Step, Smooth, CallsLeft, Reached, Evolves;
      StepKeeps(cfg, sys, Work(me, c));
      OwnStep(cfg, sys, me, c, rec, pc);
      if Busy(sys, me) {
        OwnStepProgresses(cfg, sys, me, c, signed);
      }
      ErrorsOnlyGrow(RecordOf(sys, me), rec);
      sys := Gone(sys, me, rec, pc);
      calls := calls + 1;
    }

    // ----- the calls of the processor

    lemma Stays(s: System)
      requires Awaited(s)
      ensures CanWork(s, me) && CanWork(sys, me) && sys.workers[me] == s.workers[me]
    {
    }

    method GetByID() returns (r: Outcome<View>)
      requires At(Loading)
      modifies this
      ensures Went() && !r.Conflict? && Record() == Found()
      ensures r.Value? ==> LastAnswer() == Ok && r.value == ViewOf(Record()) && At(Enter(r.value))
      ensures r.Error? ==> LastAnswer().Err? && r.result == Failure(LastAnswer().kind) && At(Workers.Returned(r.result))
    {
      hide Inv, Advances, Awaited, Reached, Called;
      ghost var start := sys;
      var c := Await();
      Stays(start);
      var rec := RecordOf(sys, me);
      if c.answer.Err? {
        CommitCall(c, rec, Workers.Returned(Failure(c.answer.kind)), start);
        return Error(Failure(c.answer.kind));
      }
      CommitCall(c, rec, Enter(ViewOf(rec)), start);
      return Value(ViewOf(rec));
    }

    method TransitionStatus(view: View, to: Status, hash: Option<string>, ghost pc: Pc) returns (r: Outcome<View>)
      requires At(pc) && MayTransition(pc, view, to, hash)
      modifies this
      ensures Went() && !r.Conflict?
      ensures Record() == Landed(Found(), Transfers.TransitionStatus(Found(), view.status, to, hash), LastAnswer())
      ensures r.Value? <==> LastAnswer() == Ok && Found().status == view.status
      ensures r.Value? ==> r.value == ViewOf(Record()) && r.value.status == to && At(Enter(r.value))
      ensures r.Error? ==> At(Workers.Returned(r.result))
      ensures r.Error? ==> r.result == if LastAnswer() == Ok then NotActionable else Failure(LastAnswer().kind)
    {
      hide Inv, Advances, Awaited, Reached, Called, WorkResult;
      ghost var start := sys;
      var c := Await();
      Stays(start);
      var rec := RecordOf(sys, me);
      TransitionCall(cfg, sys, me, c, view, to, hash);
      var updated := Transfers.TransitionStatus(rec, view.status, to, hash);
      if c.answer.Err? {
        CommitCall(c, Landed(rec, updated, c.answer), Workers.Returned(Failure(c.answer.kind)), start);
        return Error(Failure(c.answer.kind));
      }
      if updated.None? {
        CommitCall(c, rec, Workers.Returned(NotActionable), start);
        return Error(NotActionable);
      }
      CommitCall(c, updated.value, Enter(ViewOf(updated.value)), start);
      return Value(ViewOf(updated.value));
    }

    /** The copy is the transfer's latest attempt row. */
    ghost predicate IsLatest(copy: AttemptCopy, rec: TransferRecord) {
      copy.id == |rec.attempts| - 1 && rec.attempts[copy.id] == copy.attempt
    }

    method GetLatestAttempt(view: View, resuming: bool) returns (r: Outcome<Option<AttemptCopy>>)
      requires At(ReadingLatest(view, resuming))
      modifies this
      ensures Went() && !r.Conflict? && Record() == Found()
      ensures r.Value? <==> LastAnswer() == Ok
      ensures r.Value? && r.value.Some? ==>
                IsLatest(r.value.value, Record()) && At(Resume(view, r.value.value.id, r.value.value.attempt))
      ensures r.Value? && r.value.None? ==>
                && Record().attempts == []
                && At(if resuming then Workers.Returned(Failure(Other)) else CallingSigner(view))
      ensures r.Error? ==> r.result == Failure(LastAnswer().kind) && At(Workers.Returned(r.result))
    {
      hide Inv, Advances, Awaited, Reached, Called, WorkResult;
      ghost var start := sys;
      var c := Await();
      Stays(start);
      LatestCall(cfg, sys, me, c, view, resuming);
      var rec := RecordOf(sys, me);
      var n := |rec.attempts|;
      if c.answer.Err? {
        CommitCall(c, rec, Workers.Returned(Failure(c.answer.kind)), start);
        return Error(Failure(c.answer.kind));
      }
      if n > 0 {
        CommitCall(c, rec, Resume(view, n - 1, rec.attempts[n - 1]), start);
        return Value(Some(AttemptCopy(n - 1, rec.attempts[n - 1])));
      }
      CommitCall(c, rec, if resuming then Workers.Returned(Failure(Other)) else CallingSigner(view), start);
      return Value(None);
    }

    /** The signer, followed by the checks that neither the transaction nor its hash is empty. */
    method SignTransfer(view: View) returns (r: Outcome<SignedTransfer>)
      requires At(CallingSigner(view))
      modifies this
      ensures Went() && !r.Conflict? && Record() == Found()
      ensures r.Value? ==>
                && r.value == TurnAt(calls - 1).c.signed && r.value.payload != "" && r.value.hash != ""
                && At(Creating(view, r.value))
      ensures r.Error? ==> At(Workers.Returned(r.result))
      ensures r.Error? ==> r.result == Failure(if LastAnswer() == Ok then Other else LastAnswer().kind)
    {
      hide Inv, Advances, Awaited, Reached, Called, WorkResult;
      ghost var start := sys;
      var c := Await();
      Stays(start);
      SignCall(cfg, sys, me, c, view);
      var rec := RecordOf(sys, me);
      if c.answer.Err? {
        CommitCall(c, rec, Workers.Returned(Failure(c.answer.kind)), start);
        return Error(Failure(c.answer.kind));
      }
      if c.signed.payload == "" || c.signed.hash == "" {
        CommitCall(c, rec, Workers.Returned(Failure(Other)), start);
        return Error(Failure(Other));
      }
      CommitCall(c, rec, Creating(view, c.signed), start);
      return Value(c.signed);
    }

    /** What the insert of `tx` makes of the record the last call found. */
    ghost function Inserted(tx: SignedTransfer): Option<TransferRecord>
      reads this
      requires calls > 0 && CanWork(Before(), me)
    {
      var clash := Clash(Before().records, Before().workers[me].transfer, tx.hash);
      Transfers.CreateAttempt(Found(), clash, tx.payload, tx.hash)
    }

    method CreateAttempt(view: View, tx: SignedTransfer) returns (r: Outcome<AttemptCopy>)
      requires At(Creating(view, tx))
      modifies this
      ensures Went() && Record() == Landed(Found(), Inserted(tx), LastAnswer())
      ensures r.Value? <==> LastAnswer() == Ok && Inserted(tx).Some?
      ensures r.Value? ==> r.value.attempt == Attempt(tx.payload, tx.hash, SignedOnly) && IsLatest(r.value, Record())
      ensures r.Value? ==> At(Claiming(view, r.value.id, r.value.attempt))
      ensures r.Conflict? ==> Inserted(tx).None? && At(ReadingLatest(view, true))
      ensures r.Error? ==> LastAnswer().Err? && r.result == Failure(LastAnswer().kind) && At(Workers.Returned(r.result))
    {
      hide HasActive, HasHash, Clash, Inv, Advances, Awaited, Reached, Called, WorkResult;
      ghost var start := sys;
      var c := Await();
      Stays(start);
      CreateCall(cfg, sys, me, c, view, tx);
      var rec := RecordOf(sys, me);
      var updated := Transfers.CreateAttempt(rec, WorkerClash(sys, sys.workers[me]), tx.payload, tx.hash);
      if c.answer.Err? {
        CommitCall(c, Landed(rec, updated, c.answer), Workers.Returned(Failure(c.answer.kind)), start);
        return Error(Failure(c.answer.kind));
      }
      if updated.None? {
        CommitCall(c, rec, ReadingLatest(view, true), start);
        return Conflict;
      }
      var copy := AttemptCopy(|rec.attempts|, Attempt(tx.payload, tx.hash, SignedOnly));
      CommitCall(c, updated.value, Claiming(view, copy.id, copy.attempt), start);
      return Value(copy);
    }

    method UpdateAttempt(view: View, copy: AttemptCopy, expected: AttemptStatus, to: AttemptStatus, pc: Pc)
      returns (r: Outcome<AttemptCopy>)
      requires At(pc) && MayUpdate(pc, view, copy, expected, to)
      modifies this
      ensures Went() && copy.id < |Found().attempts| && calls == old(calls) + 1
      ensures Record() == Landed(Found(), Transfers.UpdateAttempt(Found(), copy.id, expected, to), LastAnswer())
      ensures r.Value? <==> LastAnswer() == Ok && Found().attempts[copy.id].status == expected
      ensures r.Value? ==> r.value == AttemptCopy(copy.id, copy.attempt.(status := to))
      ensures r.Value? ==>
                Record().attempts == Found().attempts[copy.id := r.value.attempt] && At(AfterUpdate(pc, r.value))
      ensures r.Conflict? ==> Found().attempts[copy.id].status != expected && At(ReadingLatest(view, true))
      ensures r.Error? ==> LastAnswer().Err? && r.result == Failure(LastAnswer().kind) && At(Workers.Returned(r.result))
    {
      hide Inv, Advances, Awaited, Reached, Called, WorkResult;
      ghost var start := sys;
      var c := Await();
      Stays(start);
      var rec := RecordOf(sys, me);
      CopyIsKnown(copy);
      UpdateMatches(copy.id, expected, to);
      UpdateCall(cfg, sys, me, c, view, copy, expected, to);
      var updated := Transfers.UpdateAttempt(rec, copy.id, expected, to);
      if c.answer.Err? {
        CommitCall(c, Landed(rec, updated, c.answer), Workers.Returned(Failure(c.answer.kind)), start);
        return Error(Failure(c.answer.kind));
      }
      if updated.None? {
        CommitCall(c, rec, ReadingLatest(view, true), start);
        return Conflict;
      }
      var next := copy.(attempt := copy.attempt.(status := to));
      CommitCall(c, updated.value, AfterUpdate(pc, next), start);
      return Value(next);
    }

    /** Stale as it may be, a copy names a stored row and agrees with it on payload and hash. */
    lemma CopyIsKnown(copy: AttemptCopy)
      requires Inv(sys) && CanWork(sys, me)
      requires var pc := sys.workers[me].pc;
               && (pc.Claiming? || pc.Confirming? || pc.Recording?)
               && copy == AttemptCopy(pc.id, pc.attempt)
      ensures Knows(Record(), copy.id, copy.attempt)
    {
      hide RecordsInv, DispatchersInv, QueueInv, Called;
      assert WorkerInv(sys.records, sys.workers[me]);
    }

    lemma UpdateMatches(id: nat, expected: AttemptStatus, to: AttemptStatus)
      requires Inv(sys) && CanWork(sys, me) && (expected == SignedOnly || expected == Broadcasting)
      ensures Transfers.UpdateAttempt(Record(), id, expected, to).Some? <==>
                id < |Record().attempts| && Record().attempts[id].status == expected
    {
      UpdateNeverViolatesIndex(Record(), id, expected, to);
    }

    /** One broadcast of the stored attempt; returns the broadcaster's error, if any. */
    method BroadcastTransfer(view: View, copy: AttemptCopy) returns (err: Option<ErrorKind>)
      requires At(CallingBroadcaster(view, copy.id, copy.attempt))
      modifies this
      ensures Went() && calls == old(calls) + 1
      ensures Record() == AddBroadcast(Found(), copy.id, copy.attempt, LastAnswer() == Ok || LastAnswer().effect)
      ensures err == if LastAnswer() == Ok then None else Some(LastAnswer().kind)
      ensures err.None? ==> At(Confirming(view, copy.id, copy.attempt))
      ensures err.Some? ==> At(Recording(view, copy.id, copy.attempt, err.value))
    {
      hide Inv, Advances, Awaited, Reached, Called, WorkResult;
      ghost var start := sys;
      var c := Await();
      Stays(start);
      BroadcastCall(cfg, sys, me, c, view, copy);
      var rec := RecordOf(sys, me);
      if c.answer.Err? {
        CommitCall(c, AddBroadcast(rec, copy.id, copy.attempt, c.answer.effect),
                   Recording(view, copy.id, copy.attempt, c.answer.kind), start);
        return Some(c.answer.kind);
      }
      CommitCall(c, AddBroadcast(rec, copy.id, copy.attempt, true), Confirming(view, copy.id, copy.attempt), start);
      return None;
    }

    // ----- the processor

    method ProcessTransfer() returns (result: Result)
      requires At(Loading)
      modifies this
      ensures Went() && At(Workers.Returned(result))
      ensures old(Calm() && Smooth(sys, me, signed)) ==>
                result == Success(ViewOf(Record())) && Record().status == PendingOnChain
    {
      hide Inv, Advances, Reached, Called, Landed, Smooth;
      var got := GetByID();
      if got.Error? {
        SmoothEnds(old(sys), old(calls), got.result);
        return got.result;
      }
      var transfer := got.value;
      while true
        invariant At(Enter(transfer)) && Advances(old(sys), old(calls), sys, calls)
        decreases TurnsLeft(calls), CallsLeft(sys, me)
      {
        ghost var mid, at := sys, calls;
        var next;
        match transfer.status {
          case Created => next := TransitionStatus(transfer, Validated, None, Advancing(transfer));
          case Validated => next := TransitionStatus(transfer, Queued, None, Advancing(transfer));
          case Queued => next := TransitionStatus(transfer, Signing, None, Advancing(transfer));
          case Signing => next := SubmitTransfer(transfer);
          case Submitted => next := TransitionStatus(transfer, PendingOnChain, None, Advancing(transfer));
          case PendingOnChain => SmoothEnds(old(sys), old(calls), Success(transfer)); return Success(transfer);
          case Failed => SmoothEnds(old(sys), old(calls), Success(transfer)); return Success(transfer);
          case Confirmed => SmoothEnds(old(sys), old(calls), NotActionable); return NotActionable;
        }
        AdvanceMeans(mid, at, sys, calls);
        AdvancesFurther(old(sys), old(calls), mid, at, sys, calls);
        if next.Error? {
          SmoothEnds(old(sys), old(calls), next.result);
          return next.result;
        }
        transfer := next.value;
        if transfer.status == PendingOnChain {
          SmoothEnds(old(sys), old(calls), Success(transfer));
          return Success(transfer);
        }
      }
    }

    lemma SmoothEnds(s: System, k: nat, result: Result)
      requires Advances(s, k, sys, calls) && sys.workers[me].pc == Workers.Returned(result)
      ensures CanWork(sys, me)
      ensures k >= |script| && Smooth(s, me, signed) ==>
                result == Success(ViewOf(Record())) && Record().status == PendingOnChain
    {
    }

    method SubmitTransfer(transfer: View) returns (r: Outcome<View>)
      requires At(ReadingLatest(transfer, false))
      modifies this
      ensures Went() && !r.Conflict?
      ensures r.Value? ==> r.value == ViewOf(Record()) && r.value.status == Submitted && At(Enter(r.value))
      ensures r.Error? ==> At(Workers.Returned(r.result))
      decreases TurnsLeft(calls), CallsLeft(sys, me), 0
    {
      hide Inv, Advances, Reached, Called, Landed, Enter, IsLatest, Inserted, TurnAt;
      var latest := GetLatestAttempt(transfer, false);
      ghost var mid, at := sys, calls;
      AdvanceMeans(old(sys), old(calls), mid, at);
      match latest {
        case Error(result) => r := Error(result);
        case Value(Some(copy)) => r := ResumeSubmission(transfer, copy);
        case Value(None) => r := CreateAttemptAndSubmit(transfer);
      }
      AdvancesFurther(old(sys), old(calls), mid, at, sys, calls);
    }

    method CreateAttemptAndSubmit(transfer: View) returns (r: Outcome<View>)
      requires At(CallingSigner(transfer))
      modifies this
      ensures Went() && !r.Conflict?
      ensures r.Value? ==> r.value == ViewOf(Record()) && r.value.status == Submitted && At(Enter(r.value))
      ensures r.Error? ==> At(Workers.Returned(r.result))
      decreases TurnsLeft(calls), CallsLeft(sys, me), 0
    {
      hide Inv, Advances, Reached, Called, Landed, Enter, IsLatest, Inserted, TurnAt;
      var tx := SignTransfer(transfer);
      if tx.Error? {
        return Error(tx.result);
      }
      ghost var signing, at0 := sys, calls;
      var created := CreateAttempt(transfer, tx.value);
      ghost var mid, at := sys, calls;
      AdvancesFurther(old(sys), old(calls), signing, at0, mid, at);
      AdvanceMeans(old(sys), old(calls), mid, at);
      match created {
        case Error(result) => r := Error(result);
        case Conflict => r := ResumeLatestAttempt(transfer);
        case Value(copy) => r := ResumeSubmission(transfer, copy);
      }
      AdvancesFurther(old(sys), old(calls), mid, at, sys, calls);
    }

    method ResumeSubmission(transfer: View, copy: AttemptCopy) returns (r: Outcome<View>)
      requires At(Resume(transfer, copy.id, copy.attempt))
      modifies this
      ensures Processing(Resume(transfer, copy.id, copy.attempt)) ==> Went()
      ensures !Processing(Resume(transfer, copy.id, copy.attempt)) ==>
                sys == old(sys) && calls == old(calls) && r.Error?
      ensures Valid() && !r.Conflict?
      ensures r.Value? ==> r.value == ViewOf(Record()) && r.value.status == Submitted && At(Enter(r.value))
      ensures r.Error? ==> At(Workers.Returned(r.result))
      decreases TurnsLeft(calls), CallsLeft(sys, me), 1
    {
      hide Inv, Advances, Reached, Called, Landed, Enter, IsLatest, Inserted, TurnAt;
      match copy.attempt.status {
        case SignedOnly =>
          var claimed := UpdateAttempt(
            transfer, copy, SignedOnly, Broadcasting, Claiming(transfer, copy.id, copy.attempt));
          ghost var mid, at := sys, calls;
          AdvanceMeans(old(sys), old(calls), mid, at);
          match claimed {
            case Error(result) => r := Error(result);
            case Conflict => r := ResumeLatestAttempt(transfer);
            case Value(updated) => r := BroadcastAttempt(transfer, updated);
          }
          AdvancesFurther(old(sys), old(calls), mid, at, sys, calls);
        case Broadcasting => r := BroadcastAttempt(transfer, copy);
        case Broadcasted => r := SubmitBroadcastedAttempt(transfer, copy);
        case AttemptFailed => r := Error(Failure(Other));
      }
    }

    /**
     Broadcasts and records the outcome. When the broadcast fails and the record of that lands, the attempt is
     SIGNED again after a transient error and FAILED after any other, and the error is returned.
     */
    method BroadcastAttempt(transfer: View, copy: AttemptCopy) returns (r: Outcome<View>)
      requires At(CallingBroadcaster(transfer, copy.id, copy.attempt))
      modifies this
      ensures Went() && !r.Conflict? && calls >= old(calls) + 2
      ensures var sent, noted := TurnAt(old(calls)).c.answer, TurnAt(old(calls) + 1).c.answer;
              var s := Reached(old(calls) + 1);
              && CanWork(s, me) && copy.id < |RecordOf(s, me).attempts|
              && (sent.Err? && noted == Ok && RecordOf(s, me).attempts[copy.id].status == Broadcasting ==>
                    && r == Error(Failure(sent.kind)) && calls == old(calls) + 2
                    && copy.id < |Record().attempts|
                    && (sent.kind == Transient ==> Record().attempts[copy.id].status == SignedOnly)
                    && (sent.kind != Transient ==> Record().attempts[copy.id].status == AttemptFailed))
      ensures r.Value? ==> r.value == ViewOf(Record()) && r.value.status == Submitted && At(Enter(r.value))
      ensures r.Error? ==> At(Workers.Returned(r.result))
      decreases TurnsLeft(calls), CallsLeft(sys, me), 0
    {
      hide Inv, Advances, Reached, Called, Landed, AddBroadcast, Enter, Resume, TurnAt;
      var err := BroadcastTransfer(transfer, copy);
      ghost var mid, at := sys, calls;
      AdvanceMeans(old(sys), old(calls), mid, at);
      if err.Some? {
        r := RecordError(transfer, copy, err.value);
      } else {
        r := ConfirmBroadcast(transfer, copy);
      }
      AdvanceMeans(mid, at, sys, calls);
      AdvancesFurther(old(sys), old(calls), mid, at, sys, calls);
    }

    /** Records an accepted broadcast and submits the transfer. */
    method ConfirmBroadcast(transfer: View, copy: AttemptCopy) returns (r: Outcome<View>)
      requires At(Confirming(transfer, copy.id, copy.attempt))
      modifies this
      ensures Went() && !r.Conflict?
      ensures var s := Reached(old(calls)); CanWork(s, me) && copy.id < |RecordOf(s, me).attempts|
      ensures r.Value? ==> r.value == ViewOf(Record()) && r.value.status == Submitted && At(Enter(r.value))
      ensures r.Error? ==> At(Workers.Returned(r.result))
      decreases TurnsLeft(calls), CallsLeft(sys, me), 0
    {
      hide Inv, Advances, Reached, Called, Landed, Enter, Resume, TurnAt;
      var confirmed := UpdateAttempt(
        transfer, copy, Broadcasting, Broadcasted, Confirming(transfer, copy.id, copy.attempt));
      ghost var mid, at := sys, calls;
      AdvanceMeans(old(sys), old(calls), mid, at);
      match confirmed {
        case Error(result) => r := Error(result);
        case Conflict => r := ResumeLatestAttempt(transfer);
        case Value(updated) => r := SubmitBroadcastedAttempt(transfer, updated);
      }
      AdvancesFurther(old(sys), old(calls), mid, at, sys, calls);
    }

    /** Puts the attempt back to SIGNED after a transient error and to FAILED after any other. */
    method RecordError(transfer: View, copy: AttemptCopy, kind: ErrorKind) returns (r: Outcome<View>)
      requires At(Recording(transfer, copy.id, copy.attempt, kind))
      modifies this
      ensures Went() && !r.Conflict?
      ensures var s := Reached(old(calls));
              && CanWork(s, me) && copy.id < |RecordOf(s, me).attempts|
              && (TurnAt(old(calls)).c.answer == Ok && RecordOf(s, me).attempts[copy.id].status == Broadcasting ==>
                    && r == Error(Failure(kind)) && calls == old(calls) + 1
                    && copy.id < |Record().attempts|
                    && (kind == Transient ==> Record().attempts[copy.id].status == SignedOnly)
                    && (kind != Transient ==> Record().attempts[copy.id].status == AttemptFailed))
      ensures r.Value? ==> r.value == ViewOf(Record()) && r.value.status == Submitted && At(Enter(r.value))
      ensures r.Error? ==> At(Workers.Returned(r.result))
      decreases TurnsLeft(calls), CallsLeft(sys, me), 0
    {
      hide Inv, Advances, Reached, Called, Landed, Enter, IsLatest, Inserted, TurnAt;
      var recorded := UpdateAttempt(
        transfer, copy, Broadcasting, StatusAfterError(kind), Recording(transfer, copy.id, copy.attempt, kind));
      ghost var mid, at := sys, calls;
      AdvanceMeans(old(sys), old(calls), mid, at);
      match recorded {
        case Error(result) => r := Error(result);
        case Conflict => r := ResumeLatestAttempt(transfer);
        case Value(_) => r := Error(Failure(kind));
      }
      AdvancesFurther(old(sys), old(calls), mid, at, sys, calls);
    }

    method SubmitBroadcastedAttempt(transfer: View, copy: AttemptCopy) returns (r: Outcome<View>)
      requires copy.attempt.status == Broadcasted && At(Resume(transfer, copy.id, copy.attempt))
      modifies this
      ensures copy.attempt.hash != "" ==> Went()
      ensures copy.attempt.hash == "" ==> sys == old(sys) && calls == old(calls) && r.Error?
      ensures Valid() && !r.Conflict?
      ensures r.Value? ==> r.value == View(Submitted, copy.attempt.hash) == ViewOf(Record()) && At(Enter(r.value))
      ensures r.Error? ==> At(Workers.Returned(r.result))
    {
      hide Inv, Advances, Reached, Called;
      if copy.attempt.hash == "" {
        return Error(Failure(Other));
      }
      r := TransitionStatus(
        transfer, Submitted, Some(copy.attempt.hash), Submitting(transfer, copy.id, copy.attempt));
    }

    method ResumeLatestAttempt(transfer: View) returns (r: Outcome<View>)
      requires At(ReadingLatest(transfer, true))
      modifies this
      ensures Went() && !r.Conflict?
      ensures r.Value? ==> r.value == ViewOf(Record()) && r.value.status == Submitted && At(Enter(r.value))
      ensures r.Error? ==> At(Workers.Returned(r.result))
      decreases TurnsLeft(calls), CallsLeft(sys, me), 0
    {
      hide Inv, Advances, Reached, Called, Landed, Enter, IsLatest, Inserted, TurnAt;
      var latest := GetLatestAttempt(transfer, true);
      ghost var mid, at := sys, calls;
      AdvanceMeans(old(sys), old(calls), mid, at);
      match latest {
        case Error(result) => r := Error(result);
        case Value(Some(copy)) => r := ResumeSubmission(transfer, copy);
        case Value(None) => r := Error(Failure(Other));
      }
      AdvancesFurther(old(sys), old(calls), mid, at, sys, calls);
    }

    // ----- the consumer

    /** The delivery has been dealt with: acknowledged for the reason and heard, or back on the queue. */
    ghost predicate Closed(d: Disposition)
      reads this
    {
      && Valid() && me !in sys.workers && calls > 0 && CanWork(Before(), me)
      && var pc := Before().workers[me].pc;
      && d == if pc.Acking? && Heard(TurnAt(calls - 1).c) then Acked(pc.reason) else HandedBack
    }

    /** Asks for the processing lock; without it the delivery goes back to the queue. */
    method AcquireProcessingLock() returns (acquired: bool)
      requires At(Locking)
      modifies this
      ensures calls == old(calls) + 1 && (acquired <==> LastAnswer() == Ok)
      ensures acquired ==> At(Loading) && SameJob() && old(Record()).failErrors <= Record().failErrors
      ensures old(Calm()) ==> acquired && sys.records == old(sys.records)
      ensures !acquired ==> Closed(HandedBack) && old(MyJob()) in sys.queue
    {
      hide Inv, Smooth, CallsLeft, Reached, Called;
      var c := Await();
      if c.answer == Ok {
        var rec := RecordOf(sys, me);
        assert sys.records == sys.records[sys.workers[me].transfer := rec];
        Commit(c, rec, Loading);
        return true;
      }
      HandBack(c);
      return false;
    }

    /** The last step on a delivery: the worker is done with it or gives it back. */
    method Leave(c: Choice)
      requires Poised(c) && !WorkResult(cfg, sys, me, c).next.Continue? && !WorkResult(cfg, sys, me, c).publish
      modifies this
      ensures Valid() && me !in sys.workers && calls == old(calls) + 1 && Before() == old(sys)
      ensures old(WorkResult(cfg, sys, me, c)).next.Requeue? ==> old(MyJob()) in sys.queue
      ensures sys.records == old(sys.records[sys.workers[me].transfer := WorkResult(cfg, sys, me, c).rec])
    {
      hide Inv, WorkResult, Reached;
      StepKeeps(cfg, sys, Work(me, c));
      sys := Step(cfg, sys, Work(me, c));
      calls := calls + 1;
    }

    /** Without the lock, by refusal or error, the delivery goes back unacknowledged. */
    method HandBack(c: Choice)
      requires Poised(c) && c.answer.Err? && sys.workers[me].pc == Locking
      modifies this
      ensures Closed(HandedBack) && calls == old(calls) + 1 && old(MyJob()) in sys.queue
    {
      hide Inv, Smooth, CallsLeft, Reached, Called;
      Leave(c);
    }

    /** Marks the transfer FAILED unless it has settled; a lost race counts as done. Cancelled, its read errs. */
    method FailTransfer(cancelled: bool) returns (errored: bool)
      requires At(FailLoading(cancelled))
      modifies this
      ensures At(Acking(if errored then FailErrored else FailSettled)) && SameJob()
      ensures calls > old(calls) && CanWork(Before(), me)
      ensures cancelled ==> errored && calls == old(calls) + 1
      ensures !cancelled ==> (errored <==> LastAnswer().Err?)
      ensures errored ==> Record().failErrors > old(Record()).failErrors
      ensures !errored ==> Settled(Record().status) || LostRace()
      ensures old(Calm()) && !cancelled ==> !errored && Settled(Record().status)
    {
      hide Inv, Smooth, CallsLeft, Reached, Called, WorkResult, Landed, Transfers.TransitionStatus;
      var c := Await();
      FailLoadCall(cfg, sys, me, c, cancelled);
      var rec := RecordOf(sys, me);
      if Under(cancelled, c.answer).Err? {
        Commit(c, rec.(failErrors := rec.failErrors + 1), Acking(FailErrored));
        return true;
      }
      if Settled(rec.status) {
        Commit(c, rec, Acking(FailSettled));
        return false;
      }
      var view := ViewOf(rec);
      Commit(c, rec, FailWriting(view));
      errored := FailWrite(view);
    }

    /** Somebody else changed the status between the read and the write of `FailTransfer`. */
    ghost predicate LostRace()
      reads this
      requires calls > 0 && CanWork(Before(), me)
    {
      Before().workers[me].pc.FailWriting? && Before().workers[me].pc.view.status != Found().status
    }

    method FailWrite(view: View) returns (errored: bool)
      requires At(FailWriting(view))
      modifies this
      ensures At(Acking(if errored then FailErrored else FailSettled)) && SameJob()
      ensures calls == old(calls) + 1 && CanWork(Before(), me)
      ensures errored <==> LastAnswer().Err?
      ensures var updated := Transfers.TransitionStatus(Found(), view.status, Failed, None);
              var landed := Landed(Found(), updated, LastAnswer());
              Record() == landed.(failErrors := landed.failErrors + if errored then 1 else 0)
      ensures !errored ==> Record().status == Failed || LostRace()
      ensures old(Record()).failErrors <= Found().failErrors
      ensures errored ==> Record().failErrors > old(Record()).failErrors
      ensures old(Calm() && Record().status == view.status) ==> !errored && Record().status == Failed
    {
      hide Inv, Smooth, CallsLeft, Reached, Called, WorkResult;
      var c := Await();
      var rec := RecordOf(sys, me);
      FailWriteCall(cfg, sys, me, c, view);
      var updated := Transfers.TransitionStatus(rec, view.status, Failed, None);
      var rec' := Landed(rec, updated, c.answer);
      if c.answer.Err? {
        Commit(c, rec'.(failErrors := rec'.failErrors + 1), Acking(FailErrored));
        return true;
      }
      Commit(c, rec', Acking(FailSettled));
      return false;
    }

    /** The record of the delivery's transfer, which outlives the worker. */
    ghost function RecordFor(job: Job): TransferRecord
      reads this
      requires job.transfer in sys.records
    {
      sys.records[job.transfer]
    }

    /** Acknowledges; when the broker does not hear it, the delivery comes back. */
    method Ack(reason: AckReason) returns (acked: bool)
      requires At(Acking(reason))
      modifies this
      ensures Closed(if acked then Acked(reason) else HandedBack) && calls == old(calls) + 1
      ensures acked <==> Heard(TurnAt(old(calls)).c)
      ensures !acked ==> old(MyJob()) in sys.queue
      ensures var job := old(MyJob());
              && job.transfer in sys.records
              && (Settled(old(Record().status)) ==> RecordFor(job).status == old(Record().status))
              && old(Record()).failErrors <= RecordFor(job).failErrors
    {
      hide Inv, Smooth, CallsLeft, Reached, Called;
      var c := Await();
      acked := c.answer == Ok || c.answer.effect;
      Leave(c);
    }

    /**
     After a transient error: give up once the retries are used, otherwise publish the job again. After a lost lock
     giving up always errs, and a pause before publishing always ends with the delivery handed back.
     */
    method RetryJob(job: Job, lockLost: bool) returns (d: Disposition)
      requires CanWork(sys, me) && job == MyJob() && At(Retrying(job.retry, cfg.policy, lockLost))
      modifies this
      ensures Closed(d) && calls > old(calls) && job.transfer in sys.records
      ensures d == HandedBack ==> job in sys.queue
      ensures d.Acked? ==>
                if job.retry >= cfg.policy.maxRetries then d.reason == FailSettled || d.reason == FailErrored
                else d.reason == Republished && Job(job.transfer, job.retry + 1) in Called(calls - 1).queue
      ensures d == Acked(FailErrored) ==> RecordFor(job).failErrors > old(Record()).failErrors
      ensures lockLost && job.retry >= cfg.policy.maxRetries ==> d == HandedBack || d == Acked(FailErrored)
      ensures lockLost && job.retry < cfg.policy.maxRetries && cfg.policy.delay > 0 ==> d == HandedBack
      ensures old(Calm()) && !lockLost ==>
                d == if job.retry >= cfg.policy.maxRetries then Acked(FailSettled) else Acked(Republished)
    {
      hide Inv, Reached, Called, Settled, LostRace;
      if job.retry >= cfg.policy.maxRetries {
        var errored := FailTransfer(lockLost);
        var acked := Ack(if errored then FailErrored else FailSettled);
        return if acked then Acked(if errored then FailErrored else FailSettled) else HandedBack;
      }
      var cancelled := lockLost && cfg.policy.delay > 0;
      var c := Await();
      Republish(c, cancelled);
      if Under(cancelled, c.answer).Err? {
        return HandedBack;
      }
      var acked := Ack(Republished);
      return if acked then Acked(Republished) else HandedBack;
    }

    /** The publish: the next job is queued while the old one is still held, or the delivery comes back. */
    method Republish(c: Choice, cancelled: bool)
      requires Poised(c) && sys.workers[me].pc == Republishing(cancelled)
      modifies this
      ensures calls == old(calls) + 1 && sys.records == old(sys.records)
      ensures Under(cancelled, c.answer) == Ok ==>
                && At(Acking(Republished)) && SameJob()
                && sys.queue == old(sys.queue) + multiset{Job(MyJob().transfer, MyJob().retry + 1)}
      ensures Under(cancelled, c.answer).Err? ==> Closed(HandedBack) && old(MyJob()) in sys.queue
    {
      hide Inv, Step, Reached;
      StepKeeps(cfg, sys, Work(me, c));
      RepublishCall(cfg, sys, me, c, cancelled);
      sys := Step(cfg, sys, Work(me, c));
      calls := calls + 1;
    }

    /**
     `handleDelivery`: lock, process, then acknowledge, hand back or republish. On every path the delivery is
     either back on the queue or acknowledged. It is acknowledged as processed only when the transfer has settled,
     as republished only when retries were left and the next job had been queued, as failed with an error only
     when a `FailTransfer` call erred; and undisturbed it brings the transfer to PENDING_ON_CHAIN.
     */
    method HandleDelivery() returns (d: Disposition)
      requires At(Locking)
      modifies this
      ensures Closed(d) && calls > old(calls)
      ensures d == HandedBack ==> old(MyJob()) in sys.queue
      ensures d.Acked? ==> Handled(old(MyJob()), d, old(Record()).failErrors)
      ensures d.Acked? ==> Ended(old(calls), old(MyJob()), d)
      ensures old(Calm() && Startable(sys, me, signed)) ==>
                && d == Acked(Processed) && old(MyJob()).transfer in sys.records
                && RecordFor(old(MyJob())).status == PendingOnChain
    {
      hide Inv, Smooth, Reached, Called, Startable, TurnAt, Heard;
      var job := Job(sys.workers[me].transfer, sys.workers[me].retry);
      var acquired := AcquireProcessingLock();
      if !acquired {
        return HandedBack;
      }
      StartIsSmooth(old(sys), sys);
      d := HandleLocked(job);
    }

    /** What a delivery may come to, given the errors counted before. */
    ghost predicate Handled(job: Job, d: Disposition, errors: nat)
      reads this
    {
      && Closed(d) && job.transfer in sys.records
      && (d == HandedBack ==> job in sys.queue)
      && (d == Acked(Processed) ==> Settled(RecordFor(job).status))
      && (d == Acked(Republished) ==>
            job.retry < cfg.policy.maxRetries && Job(job.transfer, job.retry + 1) in Called(calls - 1).queue)
      && (d == Acked(FailErrored) ==> RecordFor(job).failErrors > errors)
    }

    /** Some call since the `from`-th ended processing with a result that explains what became of the delivery. */
    ghost predicate Ended(from: nat, job: Job, d: Disposition)
      reads this
    {
      exists k | from < k < calls && CanWork(Called(k), me) ::
        && Called(k).workers[me].pc.Returned?
        && Concludes(cfg.policy, job.retry, Called(k).workers[me].pc.result, TurnAt(k).c.lockLost, d)
    }

    /** `handleDelivery` once the lock is held. */
    method HandleLocked(job: Job) returns (d: Disposition)
      requires At(Loading) && job == MyJob()
      modifies this
      ensures calls > old(calls) && Handled(job, d, old(Record()).failErrors)
      ensures Ended(old(calls), job, d)
      ensures old(Calm() && Smooth(sys, me, signed)) ==>
                d == Acked(Processed) && RecordFor(job).status == PendingOnChain
    {
      hide Settle, Inv, Advances, Smooth, Reached, Called, TurnAt, Heard;
      var result := ProcessTransfer();
      KeepsJob(old(sys), old(calls), sys, calls);
      ghost var at := calls;
      assert CanWork(Called(at), me) && Called(at).workers[me].pc == Workers.Returned(result);
      var lockLost := HeartbeatResult(result);
      d := Conclude(job, result, lockLost);
    }

    /** The consumer's switch on the result of `ProcessTransfer`. */
    method Conclude(job: Job, result: Result, lockLost: bool) returns (d: Disposition)
      requires CanWork(sys, me) && job == MyJob() && At(Settle(result, job.retry, cfg.policy, lockLost))
      requires result.Success? ==> Settled(Record().status)
      modifies this
      ensures Closed(d) && calls > old(calls) && job.transfer in sys.records
      ensures Concludes(cfg.policy, job.retry, result, lockLost, d)
      ensures d == HandedBack ==> job in sys.queue
      ensures d == Acked(Processed) ==> RecordFor(job).status == old(Record().status)
      ensures d == Acked(Republished) ==> Job(job.transfer, job.retry + 1) in Called(calls - 1).queue
      ensures d == Acked(FailErrored) ==> RecordFor(job).failErrors > old(Record()).failErrors
      ensures d == Acked(FailSettled) ==> !lockLost
      ensures old(Calm()) && !lockLost ==> d != HandedBack && d != Acked(FailErrored)
    {
      hide Settle, Inv, Reached, Called, LostRace;
      SettleCases(result, job.retry, cfg.policy, lockLost);
      if Retries(result, lockLost) {
        d := RetryJob(job, lockLost);
        return;
      }
      match result {
        case Success(_) =>
          var acked := Ack(Processed);
          d := if acked then Acked(Processed) else HandedBack;
        case NotActionable =>
          var acked := Ack(SkippedJob);
          d := if acked then Acked(SkippedJob) else HandedBack;
        case Failure(_) =>
          var errored := FailTransfer(lockLost);
          var acked := Ack(if errored then FailErrored else FailSettled);
          d := if acked then Acked(if errored then FailErrored else FailSettled) else HandedBack;
      }
    }

    lemma StartIsSmooth(s: System, s': System)
      requires CanWork(s, me) && CanWork(s', me) && s'.workers[me].transfer == s.workers[me].transfer
      requires s'.workers[me].pc == Loading
      ensures Startable(s, me, signed) && s'.records == s.records ==> Smooth(s', me, signed)
    {
    }

    /** Stops the heartbeat and reports whether it had lost the lock. */
    method HeartbeatResult(result: Result) returns (lockLost: bool)
      requires At(Workers.Returned(result))
      modifies this
      ensures calls == old(calls) + 1 && lockLost == TurnAt(old(calls)).c.lockLost && (old(Calm()) ==> !lockLost)
      ensures At(Settle(result, old(MyJob()).retry, cfg.policy, lockLost)) && SameJob()
      ensures result.Success? ==> Settled(Record().status) && Record().status == old(Record().status)
      ensures old(Record()).failErrors <= Record().failErrors
    {
      hide Inv, Smooth, CallsLeft, Reached, Called;
      SuccessMeansSettled(result);
      var c := Await();
      Commit(c, RecordOf(sys, me), Settle(result, sys.workers[me].retry, cfg.policy, c.lockLost));
      return c.lockLost;
    }

    lemma SuccessMeansSettled(result: Result)
      requires At(Workers.Returned(result))
      ensures result.Success? ==> Settled(Record().status)
    {
      hide RecordsInv, DispatchersInv, QueueInv, Called;
      assert WorkerInv(sys.records, sys.workers[me]);
    }
  }
}
