/**
 How a delivery's processing ends, and what that leads to: told by the answers of the calls, the statuses of the
 rows and the numbers of the job.
 */
module ProcessorOutcomes {
  import opened Transfers
  import opened Workers
  import opened Pipeline
  import opened Guarantees
  import opened Recovery

  // ----- what a broadcast error leads to

  /** Nobody but others moves: `w` makes no call and does not crash. */
  predicate ByOthers(moves: seq<Move>, w: WorkerId) {
    forall i | 0 <= i < |moves| :: !(moves[i].Work? && moves[i].w == w) && moves[i] != Crash(w)
  }

  lemma {:induction false} OthersLeaveWorker(cfg: Config, s: System, moves: seq<Move>, w: WorkerId)
    requires w in s.workers && ByOthers(moves, w)
    ensures w in Run(cfg, s, moves).workers && Run(cfg, s, moves).workers[w] == s.workers[w]
    decreases |moves|
  {
    hide Step;
    if moves != [] {
      ForeignMoveLeavesWorker(cfg, s, moves[0], w);
      OthersLeaveWorker(cfg, Step(cfg, s, moves[0]), moves[1..], w);
    }
  }

  lemma BroadcastErrorIsKept(cfg: Config, s: System, w: WorkerId, c: Choice)
    requires CanWork(s, w) && s.workers[w].pc.CallingBroadcaster? && c.answer.Err?
    ensures var pc := s.workers[w].pc; var s' := WorkMove(cfg, s, w, c);
            && w in s'.workers && s'.workers[w].transfer == s.workers[w].transfer
            && s'.workers[w].pc == Recording(pc.view, pc.id, pc.attempt, c.answer.kind)
  {
  }

  lemma RecordedError(cfg: Config, s: System, w: WorkerId, c: Choice)
    requires Inv(s) && CanWork(s, w) && s.workers[w].pc.Recording? && (c.answer == Ok || c.answer.effect)
    requires var id := s.workers[w].pc.id; var rec := RecordOf(s, w);
             id < |rec.attempts| && rec.attempts[id].status == Broadcasting
    ensures var t, id := s.workers[w].transfer, s.workers[w].pc.id; var s' := WorkMove(cfg, s, w, c);
            && t in s'.records && s'.records[t].status == s.records[t].status
            && |s'.records[t].attempts| == |s.records[t].attempts|
            && (s.workers[w].pc.kind == Transient ==> s'.records[t].attempts[id].status == SignedOnly)
            && (s.workers[w].pc.kind != Transient ==> s'.records[t].attempts[id].status == AttemptFailed)
  {
    hide RecordInv, PcInv, ActiveIndexHolds;
    var pc := s.workers[w].pc;
    UpdateNeverViolatesIndex(RecordOf(s, w), pc.id, Broadcasting, SignedOnly);
    UpdateNeverViolatesIndex(RecordOf(s, w), pc.id, Broadcasting, AttemptFailed);
  }

  lemma TwoAndMore(cfg: Config, before: seq<Move>, a: Move, between: seq<Move>, b: Move)
    ensures var s1 := Run(cfg, Step(cfg, After(cfg, before), a), between);
            && After(cfg, before + [a] + between) == s1
            && After(cfg, before + [a] + between + [b]) == Step(cfg, s1, b)
  {
    hide Step;
    var s := After(cfg, before);
    RunAppend(cfg, Initial(), before, [a]);
    RunAppend(cfg, Initial(), before + [a], between);
    RunAppend(cfg, Initial(), before + [a] + between, [b]);
    assert Run(cfg, s, [a]) == Run(cfg, Step(cfg, s, a), []);
    var s1 := Run(cfg, Step(cfg, s, a), between);
    assert Run(cfg, s1, [b]) == Run(cfg, Step(cfg, s1, b), []);
  }

  /**
   A failed broadcast decides whether the transfer can still be recovered. Whatever others do between the broadcast
   and the recording of its error: once the record has landed on the latest attempt of an unfinished transfer that is
   not yet SUBMITTED, a rerun can bring the transfer to PENDING_ON_CHAIN if and only if the error was transient.
   */
  lemma BroadcastErrorDecides(
    cfg: Config, before: seq<Move>, w: WorkerId, sent: Choice, between: seq<Move>, noted: Choice)
    requires CanWork(After(cfg, before), w) && After(cfg, before).workers[w].pc.CallingBroadcaster?
    requires sent.answer.Err? && (noted.answer == Ok || noted.answer.effect) && ByOthers(between, w)
    requires var t := After(cfg, before).workers[w].transfer;
             var id := After(cfg, before).workers[w].pc.id;
             var s := After(cfg, before + [Work(w, sent)] + between);
             && t in s.records
             && s.records[t].status !in {Submitted, PendingOnChain, Failed}
             && id == |s.records[t].attempts| - 1 && s.records[t].attempts[id].status == Broadcasting
    ensures var t := After(cfg, before).workers[w].transfer;
            var s := After(cfg, before + [Work(w, sent)] + between + [Work(w, noted)]);
            t in s.records && (Recoverable(s.records[t]) <==> sent.answer.kind == Transient)
  {
    hide Inv, Run, WorkMove;
    var s0 := After(cfg, before);
    var s1 := After(cfg, before + [Work(w, sent)] + between);
    TwoAndMore(cfg, before, Work(w, sent), between, Work(w, noted));
    BroadcastErrorIsKept(cfg, s0, w, sent);
    OthersLeaveWorker(cfg, Step(cfg, s0, Work(w, sent)), between, w);
    AfterInv(cfg, before + [Work(w, sent)] + between);
    RecordedError(cfg, s1, w, noted);
  }

  // ----- why processing ends as it does

  /**
   Every result of `ProcessTransfer` has its cause in the call that ended it. An error carries the kind its call
   answered; a failed broadcast the kind the broadcaster answered; `Other` without an erring call is a failed or missing
   attempt or an empty transaction; not actionable is a status that somebody else has changed; and success is a
   transfer that is PENDING_ON_CHAIN or FAILED, returned as it is stored.
   */
  lemma ResultHasCause(rec: TransferRecord, clash: bool, pc: Pc, c: Choice)
    requires RecordInv(rec) && Processing(pc) && PcInv(rec, pc)
    requires var next := ProcessStep(rec, clash, pc, c).next; next.Continue? && next.pc.Returned?
    ensures var r := ProcessStep(rec, clash, pc, c); var result := r.next.pc.result;
            match result
            case Failure(kind) =>
              || (c.answer.Err? && kind == c.answer.kind && !pc.CallingBroadcaster?)
              || (c.answer == Ok && pc.Recording? && kind == pc.kind)
              || (c.answer == Ok && kind == Other && pc.CallingSigner?
                  && (c.signed.payload == "" || c.signed.hash == ""))
              || (c.answer == Ok && kind == Other && pc.ReadingLatest? && rec.attempts == [] && pc.resuming)
              || (c.answer == Ok && kind == Other && pc.ReadingLatest? && rec.attempts != []
                  && rec.attempts[|rec.attempts| - 1].status == AttemptFailed)
            case NotActionable =>
              c.answer == Ok && (pc.Advancing? || pc.Submitting?) && rec.status != pc.view.status
            case Success(view) =>
              c.answer == Ok && view == ViewOf(r.rec) && (r.rec.status == PendingOnChain || r.rec.status == Failed)
  {
    hide ActiveIndexHolds, HasActive, HasHash, Accepted, Evolves;
    NeverConfirmed(rec);
    HashesNotEmpty(rec);
  }

  /** And an erring call ends processing at once, with its kind; only the broadcaster's error is recorded first. */
  lemma ErrorEndsProcessing(rec: TransferRecord, clash: bool, pc: Pc, c: Choice)
    requires Processing(pc) && PcInv(rec, pc) && c.answer.Err?
    ensures ProcessStep(rec, clash, pc, c).next ==
              if pc.CallingBroadcaster? then Continue(Recording(pc.view, pc.id, pc.attempt, c.answer.kind))
              else Continue(Workers.Returned(Failure(c.answer.kind)))
  {
  }

  // ----- a transient error is retried

  /** On the way from a transient error to the republished job. */
  predicate Retrying(pc: Pc) {
    pc == Workers.Returned(Failure(Transient)) || pc.Republishing? || pc == Acking(Republished)
  }

  lemma RetryingStep(rec: TransferRecord, clash: bool, w: Worker, c: Choice, policy: RetryPolicy)
    requires Retrying(w.pc) && w.retry < policy.maxRetries
    ensures var r := WorkerStep(rec, clash, w, c, policy);
            && r.rec == rec && (r.next.Continue? ==> Retrying(r.next.pc))
            && (w.pc == Workers.Returned(Failure(Transient)) ==>
                  r.next.Continue? && r.next.pc.Republishing? && !r.publish)
            && (w.pc.Republishing? ==> if r.next.Continue? then r.publish else r.next.Requeue?)
  {
  }

  lemma RetryingMove(cfg: Config, s: System, w: WorkerId, c: Choice)
    requires CanWork(s, w) && Retrying(s.workers[w].pc) && s.workers[w].retry < cfg.policy.maxRetries
    ensures var s' := Step(cfg, s, Work(w, c));
            && s'.records == s.records
            && (w in s'.workers ==>
                  Retrying(s'.workers[w].pc) && s'.workers[w].(pc := s.workers[w].pc) == s.workers[w])
  {
    hide WorkerStep;
    var worker := s.workers[w];
    RetryingStep(RecordOf(s, w), WorkerClash(s, worker), worker, c, cfg.policy);
    assert s.records[worker.transfer := RecordOf(s, w)] == s.records;
  }

  /**
   A delivery whose processing ended in a transient error, with retries left, writes nothing any more: however its
   calls end, the transfer is not marked FAILED by it.
   */
  lemma {:induction false} TransientNeverFails(cfg: Config, s: System, w: WorkerId, choices: seq<Choice>)
    requires CanWork(s, w) && Retrying(s.workers[w].pc) && s.workers[w].retry < cfg.policy.maxRetries
    ensures Run(cfg, s, OwnCalls(w, choices)).records == s.records
    decreases |choices|
  {
    hide Step, Retrying;
    if choices != [] {
      assert OwnCalls(w, choices)[1..] == OwnCalls(w, choices[1..]);
      RetryingMove(cfg, s, w, choices[0]);
      var s' := Step(cfg, s, Work(w, choices[0]));
      if w in s'.workers {
        TransientNeverFails(cfg, s', w, choices[1..]);
      } else {
        GoneStaysGone(cfg, s', w, choices[1..]);
      }
    }
  }

  lemma {:induction false} GoneStaysGone(cfg: Config, s: System, w: WorkerId, choices: seq<Choice>)
    requires w !in s.workers
    ensures Run(cfg, s, OwnCalls(w, choices)) == s
    decreases |choices|
  {
    if choices != [] {
      assert OwnCalls(w, choices)[1..] == OwnCalls(w, choices[1..]);
      GoneStaysGone(cfg, s, w, choices[1..]);
    }
  }

  /**
   It is retried: when nothing goes wrong any more, the three calls that follow leave its successor, with the next
   attempt number, on the queue in its place.
   */
  lemma TransientIsRetried(cfg: Config, s: System, w: WorkerId, settle: Choice, publish: Choice, ack: Choice)
    requires CanWork(s, w) && s.workers[w].pc == Workers.Returned(Failure(Transient))
    requires s.workers[w].retry < cfg.policy.maxRetries
    requires !settle.lockLost && publish.answer == Ok && (ack.answer == Ok || ack.answer.effect)
    ensures var worker := s.workers[w];
            var s' := Run(cfg, s, OwnCalls(w, [settle, publish, ack]));
            && s'.queue == s.queue + multiset{Job(worker.transfer, worker.retry + 1)}
            && w !in s'.workers && s'.records == s.records
  {
    hide Step, Run;
    var worker := s.workers[w];
    var s1 := s.(workers := s.workers[w := worker.(pc := Republishing(false))]);
    SettlesTransient(cfg, s, w, settle);
    var next := Job(worker.transfer, worker.retry + 1);
    var s2 := s1.(queue := s.queue + multiset{next}, workers := s1.workers[w := worker.(pc := Acking(Republished))]);
    PublishesNext(cfg, s1, w, publish);
    AcksDone(cfg, s2, w, ack);
    ThreeCalls(cfg, s, w, settle, publish, ack);
  }

  lemma SettlesTransient(cfg: Config, s: System, w: WorkerId, c: Choice)
    requires CanWork(s, w) && s.workers[w].pc == Workers.Returned(Failure(Transient))
    requires s.workers[w].retry < cfg.policy.maxRetries && !c.lockLost
    ensures Step(cfg, s, Work(w, c)) == s.(workers := s.workers[w := s.workers[w].(pc := Republishing(false))])
  {
    hide ProcessStep;
    assert s.records[s.workers[w].transfer := RecordOf(s, w)] == s.records;
  }

  lemma PublishesNext(cfg: Config, s: System, w: WorkerId, c: Choice)
    requires CanWork(s, w) && s.workers[w].pc == Republishing(false) && c.answer == Ok
    ensures var worker := s.workers[w];
            Step(cfg, s, Work(w, c)) ==
              s.(queue := s.queue + multiset{Job(worker.transfer, worker.retry + 1)},
                 workers := s.workers[w := worker.(pc := Acking(Republished))])
  {
    hide ProcessStep;
    assert s.records[s.workers[w].transfer := RecordOf(s, w)] == s.records;
  }

  lemma AcksDone(cfg: Config, s: System, w: WorkerId, c: Choice)
    requires CanWork(s, w) && s.workers[w].pc.Acking? && (c.answer == Ok || c.answer.effect)
    ensures Step(cfg, s, Work(w, c)) == s.(workers := s.workers - {w})
  {
    hide ProcessStep;
    assert s.records[s.workers[w].transfer := RecordOf(s, w)] == s.records;
  }

  lemma ThreeCalls(cfg: Config, s: System, w: WorkerId, a: Choice, b: Choice, c: Choice)
    ensures Run(cfg, s, OwnCalls(w, [a, b, c])) ==
            Step(cfg, Step(cfg, Step(cfg, s, Work(w, a)), Work(w, b)), Work(w, c))
  {
    hide Step;
    assert [a, b, c][1..] == [b, c] && [b, c][1..] == [c] && [c][1..] == [];
    var s1 := Step(cfg, s, Work(w, a));
    var s2 := Step(cfg, s1, Work(w, b));
    assert OwnCalls(w, [a, b, c])[1..] == OwnCalls(w, [b, c]);
    assert OwnCalls(w, [b, c])[1..] == OwnCalls(w, [c]);
    assert OwnCalls(w, [c])[1..] == OwnCalls(w, []);
    assert Run(cfg, s, OwnCalls(w, [a, b, c])) == Run(cfg, s1, OwnCalls(w, [b, c]));
    assert Run(cfg, s1, OwnCalls(w, [b, c])) == Run(cfg, s2, OwnCalls(w, [c]));
  }

  // ----- how an undisturbed rerun of an unrecoverable transfer ends

  /** A FAILED transfer is returned as it is; a FAILED latest attempt is a permanent error. */
  predicate EndsBlocked(rec: TransferRecord, pc: Pc, failed: bool) {
    && Blocked(rec, pc) && (rec.status == Failed <==> failed)
    && (!Processing(pc) ==>
          if failed then pc == Workers.Returned(Success(View(Failed, rec.txHash)))
          else rec.status == Signing && pc == Workers.Returned(Failure(Other)))
  }

  lemma EndsBlockedStep(rec: TransferRecord, pc: Pc, failed: bool, clash: bool, c: Choice)
    requires RecordInv(rec) && PcInv(rec, pc) && Processing(pc) && EndsBlocked(rec, pc, failed) && c.answer == Ok
    ensures var r := ProcessStep(rec, clash, pc, c); r.next.Continue? && EndsBlocked(r.rec, r.next.pc, failed)
  {
    hide RecordInv;
    NeverConfirmed(rec);
  }

  lemma {:induction false} BlockedEnds(cfg: Config, s: System, w: WorkerId, signed: SignedTransfer, failed: bool)
    returns (n: nat)
    requires Inv(s) && CanWork(s, w) && EndsBlocked(RecordOf(s, w), s.workers[w].pc, failed)
    ensures n <= Remaining(RecordOf(s, w), s.workers[w].pc)
    ensures var s' := Run(cfg, s, Solo(w, signed, n));
            && CanWork(s', w) && s'.workers[w].transfer == s.workers[w].transfer
            && !Processing(s'.workers[w].pc) && EndsBlocked(RecordOf(s', w), s'.workers[w].pc, failed)
    decreases Remaining(RecordOf(s, w), s.workers[w].pc)
  {
    hide Inv, EndsBlocked, Remaining, WorkMove, Run, Solo, Processing;
    if !Busy(s, w) {
      n := 0;
      NoCalls(cfg, s, w, signed);
    } else {
      var c := Choice(Ok, signed, false);
      var s1 := WorkMove(cfg, s, w, c);
      OwnMove(cfg, s, w, c);
      WorkKeeps(cfg, s, w, c);
      BlockedMoveOn(cfg, s, w, c, failed);
      var k := BlockedEnds(cfg, s1, w, signed, failed);
      n := k + 1;
      SoloTail(cfg, s, w, signed, k);
    }
  }

  lemma NoCalls(cfg: Config, s: System, w: WorkerId, signed: SignedTransfer)
    ensures Run(cfg, s, Solo(w, signed, 0)) == s
  {
  }

  lemma BlockedMoveOn(cfg: Config, s: System, w: WorkerId, c: Choice, failed: bool)
    requires Inv(s) && Busy(s, w) && EndsBlocked(RecordOf(s, w), s.workers[w].pc, failed) && c.answer == Ok
    ensures var s' := WorkMove(cfg, s, w, c);
            && CanWork(s', w) && s'.workers[w].transfer == s.workers[w].transfer
            && EndsBlocked(RecordOf(s', w), s'.workers[w].pc, failed)
  {
    hide RecordInv, PcInv, EndsBlocked, ProcessStep;
    var worker := s.workers[w];
    assert WorkerInv(s.records, worker);
    EndsBlockedStep(RecordOf(s, w), worker.pc, failed, WorkerClash(s, worker), c);
  }

  /**
   The rest of crash recovery: from every reachable state in which the transfer cannot be recovered, an undisturbed
   `ProcessTransfer` whose calls succeed returns the FAILED transfer as it is, or ends with a permanent error for a
   transfer left SIGNING with a FAILED attempt.
   */
  lemma UnrecoverableEnds(cfg: Config, before: seq<Move>, w: WorkerId, signed: SignedTransfer) returns (n: nat)
    requires var s := After(cfg, before);
             && w in s.workers && s.workers[w].transfer in s.records && s.workers[w].pc == Loading
             && !Recoverable(RecordOf(s, w))
    ensures n <= 13
    ensures var t := After(cfg, before).workers[w].transfer;
            var s' := After(cfg, before + Solo(w, signed, n));
            && t in s'.records && w in s'.workers
            && (if After(cfg, before).records[t].status == Failed
                then s'.workers[w].pc == Workers.Returned(Success(View(Failed, s'.records[t].txHash)))
                else s'.records[t].status == Signing && s'.workers[w].pc == Workers.Returned(Failure(Other)))
  {
    hide Inv, Run;
    var s := After(cfg, before);
    AfterInv(cfg, before);
    n := BlockedEnds(cfg, s, w, signed, RecordOf(s, w).status == Failed);
    RunAppend(cfg, Initial(), before, Solo(w, signed, n));
  }
}
