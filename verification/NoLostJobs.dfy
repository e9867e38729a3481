/**
 No job is lost. While a transfer is unfinished and its outbox row is DISPATCHED, some job for it is queued or
 held unacknowledged: under duplicate jobs, stale workers, crashes and failing calls of every kind but one.
 The exception is a `FailTransfer` whose own repository call fails without having taken effect, by the last worker
 responsible for the transfer: the consumer acknowledges all the same. That is exactly when a transfer is let go of.
 */
module NoLostJobs {
  import opened Transfers
  import opened Workers
  import opened Pipeline
  import opened Guarantees

  /**
   A worker that will not let the transfer go unattended: it has not read the row yet, or will read it again
   or republish its job, or holds a current view of the status.
   */
  predicate Guardian(status: Status, pc: Pc) {
    match pc
    case Locking => true
    case Loading => true
    case Advancing(view) => view.status == status
    case ReadingLatest(view, _) => view.status == status
    case CallingSigner(view) => view.status == status
    case Creating(view, _) => view.status == status
    case Claiming(view, _, _) => view.status == status
    case CallingBroadcaster(view, _, _) => view.status == status
    case Confirming(view, _, _) => view.status == status
    case Recording(view, _, _, _) => view.status == status
    case Submitting(view, _, _) => view.status == status
    case Returned(result) => result.Failure?
    case FailLoading(_) => true
    case FailWriting(view) => view.status == status
    case Republishing(_) => true
    case Acking(_) => false
  }

  predicate JobQueued(s: System, t: TransferId) {
    exists job | job in s.queue :: job.transfer == t
  }

  predicate Guarded(s: System, t: TransferId)
    requires t in s.records
  {
    exists w | w in s.workers :: s.workers[w].transfer == t && Guardian(s.records[t].status, s.workers[w].pc)
  }

  predicate Covered(s: System, t: TransferId)
    requires t in s.records
  {
    Settled(s.records[t].status) || JobQueued(s, t) || Guarded(s, t)
  }

  predicate MarksFor(d: Dispatcher, t: TransferId) {
    d.phase == MarkingDispatched && d.todo != [] && d.todo[0].transfer == t
  }

  /** A dispatcher has published the job of `t` and is about to mark the row. */
  predicate AboutToMark(s: System, t: TransferId) {
    exists d | d in s.dispatchers :: MarksFor(s.dispatchers[d], t)
  }

  predicate Handed(s: System, t: TransferId)
    requires t in s.records
  {
    s.records[t].outbox.status == OutboxDispatched || AboutToMark(s, t)
  }

  predicate CoverInv(s: System, t: TransferId) {
    t in s.records && Handed(s, t) ==> Covered(s, t)
  }

  // ----- the one way to let go of a transfer

  /** A call of `FailTransfer` errs and leaves the row as it is: the read, or the write with a current view. */
  predicate GivesUp(status: Status, pc: Pc, c: Choice) {
    FailsWithoutEffect(pc, c) && (pc.FailWriting? ==> pc.view.status == status)
  }

  /** The read errs, if only because its context is cancelled; or the write errs and has not taken effect. */
  predicate FailsWithoutEffect(pc: Pc, c: Choice) {
    || (pc.FailLoading? && Under(pc.cancelled, c.answer).Err?)
    || (pc.FailWriting? && c.answer.Err? && !c.answer.effect)
  }

  predicate GuardedByOther(s: System, w: WorkerId, t: TransferId)
    requires t in s.records
  {
    exists v | v in s.workers && v != w :: s.workers[v].transfer == t && Guardian(s.records[t].status, s.workers[v].pc)
  }

  /** The move is an erring `FailTransfer` call on unfinished `t`, with no job queued and no other guardian. */
  predicate LetsGo(s: System, m: Move, t: TransferId) {
    && m.Work? && CanWork(s, m.w) && s.workers[m.w].transfer == t
    && Working(s.records[t].status) && GivesUp(s.records[t].status, s.workers[m.w].pc, m.c)
    && !JobQueued(s, t) && !GuardedByOther(s, m.w, t)
  }

  /** And the outbox will not publish it again. */
  predicate Abandons(s: System, m: Move, t: TransferId) {
    LetsGo(s, m, t) && Handed(s, t)
  }

  // ----- one worker step

  /** A worker that is no guardian cannot change the status. */
  lemma OnlyGuardiansMoveStatus(rec: TransferRecord, clash: bool, w: Worker, c: Choice, policy: RetryPolicy)
    requires PcInv(rec, w.pc)
    ensures WorkerStep(rec, clash, w, c, policy).rec.status == rec.status || Guardian(rec.status, w.pc)
  {
  }

  /**
   A guardian's step settles the transfer, puts its job back on the queue, or leaves it a guardian of the new
   status, exactly unless its `FailTransfer` gives up on an unfinished transfer.
   */
  lemma GuardianStep(rec: TransferRecord, clash: bool, w: Worker, c: Choice, policy: RetryPolicy)
    requires RecordInv(rec) && PcInv(rec, w.pc) && Guardian(rec.status, w.pc)
    ensures Progress(WorkerStep(rec, clash, w, c, policy)) <==>
              !(Working(rec.status) && GivesUp(rec.status, w.pc, c))
  {
    hide RecordInv;
    if Processing(w.pc) {
      GuardianProcessStep(rec, clash, w.pc, c);
    } else {
      NeverConfirmed(rec);
    }
  }

  lemma GuardianProcessStep(rec: TransferRecord, clash: bool, pc: Pc, c: Choice)
    requires RecordInv(rec) && Processing(pc) && PcInv(rec, pc) && Guardian(rec.status, pc)
    ensures var r := ProcessStep(rec, clash, pc, c);
            Settled(r.rec.status) || (r.next.Continue? && Guardian(r.rec.status, r.next.pc))
  {
    hide RecordInv, ActiveIndexHolds, HasActive, HasHash, Accepted, Knows;
    NeverConfirmed(rec);
  }

  lemma StaysGuarded(s: System, s': System, t: TransferId, w: WorkerId)
    requires t in s.records && t in s'.records && s'.records[t].status == s.records[t].status
    requires w in s.workers && s.workers[w].transfer == t && Guardian(s.records[t].status, s.workers[w].pc)
    requires w in s'.workers && s'.workers[w] == s.workers[w]
    ensures Covered(s', t)
  {
  }

  /** What a guardian's step must achieve. */
  predicate Progress(r: StepResult) {
    Settled(r.rec.status) || r.publish || r.next.Requeue? || (r.next.Continue? && Guardian(r.rec.status, r.next.pc))
  }

  lemma ProgressCovers(s: System, w: WorkerId, r: StepResult)
    requires CanWork(s, w) && Progress(r)
    ensures var s' := Apply(s, w, r); s.workers[w].transfer in s'.records && Covered(s', s.workers[w].transfer)
  {
    var s' := Apply(s, w, r);
    var worker := s.workers[w];
    if r.publish {
      assert Job(worker.transfer, worker.retry + 1) in s'.queue;
    } else if r.next.Requeue? {
      assert Job(worker.transfer, worker.retry) in s'.queue;
    } else if r.next.Continue? {
      assert s'.workers[w].pc == r.next.pc;
    }
  }

  /** The step of a worker that makes no progress leaves `t` covered exactly when somebody else covers it. */
  lemma ApplyUncovers(s: System, w: WorkerId, r: StepResult, t: TransferId)
    requires CanWork(s, w) && t in s.records && s.workers[w].transfer == t && !Progress(r)
    requires r.rec.status == s.records[t].status
    ensures t in Apply(s, w, r).records
    ensures Covered(Apply(s, w, r), t) <==> JobQueued(s, t) || GuardedByOther(s, w, t)
  {
    var s' := Apply(s, w, r);
    if JobQueued(s, t) {
      var job :| job in s.queue && job.transfer == t;
      assert job in s'.queue;
    } else if GuardedByOther(s, w, t) {
      var v :| v in s.workers && v != w && s.workers[v].transfer == t && Guardian(s.records[t].status, s.workers[v].pc);
      StaysGuarded(s, s', t, v);
    }
  }

  /** A step of a worker that does not guard `t` leaves it covered. */
  lemma BystanderCovers(s: System, w: WorkerId, r: StepResult, t: TransferId)
    requires CanWork(s, w) && t in s.records && Covered(s, t)
    requires s.workers[w].transfer == t ==>
               !Guardian(s.records[t].status, s.workers[w].pc) && r.rec.status == s.records[t].status
    ensures t in Apply(s, w, r).records && Covered(Apply(s, w, r), t)
  {
    var s' := Apply(s, w, r);
    if JobQueued(s, t) {
      var job :| job in s.queue && job.transfer == t;
      assert job in s'.queue;
    } else if !Settled(s.records[t].status) {
      var v :| v in s.workers && s.workers[v].transfer == t && Guardian(s.records[t].status, s.workers[v].pc);
      StaysGuarded(s, s', t, v);
    }
  }

  lemma SettledStays(a: TransferRecord, b: TransferRecord)
    requires Evolves(a, b)
    ensures Settled(a.status) ==> b.status == a.status
  {
  }

  lemma GivingUpLeavesStatus(rec: TransferRecord, clash: bool, w: Worker, c: Choice, policy: RetryPolicy)
    requires GivesUp(rec.status, w.pc, c)
    ensures WorkerStep(rec, clash, w, c, policy).rec.status == rec.status
  {
  }

  /** A worker step uncovers a transfer exactly when it lets it go. */
  lemma WorkUncoversExactly(cfg: Config, s: System, w: WorkerId, c: Choice, t: TransferId)
    requires Inv(s) && CanWork(s, w) && t in s.records && Covered(s, t)
    ensures t in WorkMove(cfg, s, w, c).records
    ensures !Covered(WorkMove(cfg, s, w, c), t) <==> LetsGo(s, Work(w, c), t)
  {
    hide RecordInv, PcInv, Evolves, WorkerStep, Covered, Guardian, GivesUp, GuardedByOther, Progress;
    var worker := s.workers[w];
    var rec := s.records[worker.transfer];
    var clash := WorkerClash(s, worker);
    var r := WorkResult(cfg, s, w, c);
    assert WorkerInv(s.records, worker);
    OnlyGuardiansMoveStatus(rec, clash, worker, c, cfg.policy);
    GiversUpGuard(rec.status, worker.pc, c);
    if worker.transfer == t && Guardian(rec.status, worker.pc) {
      GuardianStep(rec, clash, worker, c, cfg.policy);
      if Progress(r) {
        ProgressCovers(s, w, r);
      } else {
        GivingUpLeavesStatus(rec, clash, worker, c, cfg.policy);
        ApplyUncovers(s, w, r, t);
      }
    } else {
      BystanderCovers(s, w, r, t);
    }
  }

  lemma GiversUpGuard(status: Status, pc: Pc, c: Choice)
    ensures GivesUp(status, pc, c) ==> Guardian(status, pc)
  {
  }

  // ----- the other moves

  lemma DeliverCovers(s: System, w: WorkerId, job: Job, t: TransferId)
    requires t in s.records && Covered(s, t)
    ensures Covered(DeliverMove(s, w, job), t)
  {
    var s' := DeliverMove(s, w, job);
    if job in s.queue && w !in s.workers && !Settled(s.records[t].status) {
      if JobQueued(s, t) {
        var j :| j in s.queue && j.transfer == t;
        if j == job {
          assert s'.workers[w].pc == Locking;
        } else {
          assert j in s'.queue;
        }
      } else {
        var v :| v in s.workers && s.workers[v].transfer == t && Guardian(s.records[t].status, s.workers[v].pc);
        StaysGuarded(s, s', t, v);
      }
    }
  }

  lemma CrashCovers(s: System, w: WorkerId, t: TransferId)
    requires t in s.records && Covered(s, t) && w in s.workers
    ensures Covered(Pipeline.Returned(s, w), t)
  {
    var s' := Pipeline.Returned(s, w);
    if !Settled(s.records[t].status) {
      if JobQueued(s, t) {
        var j :| j in s.queue && j.transfer == t;
        assert j in s'.queue;
      } else {
        var v :| v in s.workers && s.workers[v].transfer == t && Guardian(s.records[t].status, s.workers[v].pc);
        if v == w {
          assert Job(t, s.workers[w].retry) in s'.queue;
        } else {
          StaysGuarded(s, s', t, v);
        }
      }
    }
  }

  /** Moves that leave workers and statuses alone and take nothing from the queue. */
  lemma QuietCovers(s: System, s': System, t: TransferId)
    requires t in s.records && Covered(s, t) && Quiet(s, s', t)
    ensures Covered(s', t)
  {
  }

  /** Same statuses and workers, and nothing taken from the queue. */
  predicate Quiet(s: System, s': System, t: TransferId)
    requires t in s.records
  {
    && t in s'.records && s'.records[t].status == s.records[t].status
    && s'.workers == s.workers && s.queue <= s'.queue
  }

  lemma ClaimIsQuiet(cfg: Config, s: System, d: DispatcherId, u: TransferId, t: TransferId)
    requires t in s.records
    ensures Quiet(s, ClaimMove(cfg, s, d, u), t)
  {
  }

  lemma DispatchIsQuiet(s: System, d: DispatcherId, answer: Answer, delay: nat, t: TransferId)
    requires t in s.records
    ensures Quiet(s, DispatchMove(s, d, answer, delay), t)
  {
  }

  /** Whatever move is made in whatever state, a covered transfer stays covered exactly unless the move lets it go. */
  lemma StepUncoversExactly(cfg: Config, s: System, m: Move, t: TransferId)
    requires Inv(s) && t in s.records && Covered(s, t)
    ensures t in Step(cfg, s, m).records
    ensures !Covered(Step(cfg, s, m), t) <==> LetsGo(s, m, t)
  {
    hide RecordInv, PcInv, Covered, Apply, WorkResult, DispatchMove, ClaimMove;
    match m {
      case Work(w, c) => if CanWork(s, w) { WorkUncoversExactly(cfg, s, w, c, t); }
      case Deliver(w, job) => DeliverCovers(s, w, job, t);
      case Crash(w) => if w in s.workers { CrashCovers(s, w, t); }
      case Dispatch(d, answer, delay) =>
        DispatchIsQuiet(s, d, answer, delay, t);
        QuietCovers(s, DispatchMove(s, d, answer, delay), t);
      case ClaimRow(d, u) =>
        ClaimIsQuiet(cfg, s, d, u, t);
        QuietCovers(s, ClaimMove(cfg, s, d, u), t);
      case _ => QuietCovers(s, Step(cfg, s, m), t);
    }
  }

  // ----- how a transfer becomes handed over

  lemma WorkLeavesOutbox(rec: TransferRecord, clash: bool, w: Worker, c: Choice, policy: RetryPolicy)
    ensures WorkerStep(rec, clash, w, c, policy).rec.outbox == rec.outbox
  {
  }

  lemma WorkHands(cfg: Config, s: System, w: WorkerId, c: Choice, t: TransferId)
    requires t in s.records && CanWork(s, w)
    ensures var s' := WorkMove(cfg, s, w, c); t in s'.records && (Handed(s', t) <==> Handed(s, t))
  {
    var worker := s.workers[w];
    WorkLeavesOutbox(s.records[worker.transfer], WorkerClash(s, worker), worker, c, cfg.policy);
    hide WorkerStep;
  }

  lemma ClaimHands(cfg: Config, s: System, d: DispatcherId, u: TransferId, t: TransferId)
    requires DispatchersInv(s.records, s.dispatchers)
    requires t in s.records && Handed(ClaimMove(cfg, s, d, u), t)
    ensures Handed(s, t)
  {
  }

  lemma PublishHands(s: System, d: DispatcherId, answer: Answer, t: TransferId)
    requires t in s.records && CanDispatch(s, d) && Handed(PublishMove(s, d, answer), t)
    ensures Handed(s, t) || Job(t, 0) in PublishMove(s, d, answer).queue
  {
  }

  lemma MarkHands(s: System, d: DispatcherId, answer: Answer, delay: nat, t: TransferId)
    requires t in s.records && CanDispatch(s, d) && Handed(MarkMove(s, d, answer, delay), t)
    ensures Handed(s, t)
  {
  }

  /** A transfer becomes handed over only by a publish, which puts its job on the queue. */
  lemma HandedMeansPublished(cfg: Config, s: System, m: Move, t: TransferId)
    requires DispatchersInv(s.records, s.dispatchers)
    requires t in s.records && t in Step(cfg, s, m).records && Handed(Step(cfg, s, m), t)
    ensures Handed(s, t) || Covered(Step(cfg, s, m), t)
  {
    hide Apply, WorkResult, PublishMove, MarkMove, Guarded;
    match m {
      case Work(w, c) => if CanWork(s, w) { WorkHands(cfg, s, w, c, t); }
      case ClaimRow(d, u) => ClaimHands(cfg, s, d, u, t);
      case Dispatch(d, answer, delay) =>
        if CanDispatch(s, d) {
          if s.dispatchers[d].phase == Publishing {
            PublishHands(s, d, answer, t);
          } else {
            MarkHands(s, d, answer, delay, t);
          }
        }
      case StopDispatcher(d) => StopHands(s, d, t);
      case _ =>
    }
  }

  lemma StopHands(s: System, d: DispatcherId, t: TransferId)
    requires t in s.records && Handed(s.(dispatchers := s.dispatchers - {d}), t)
    ensures Handed(s, t)
  {
  }

  lemma HeadKnown(s: System, d: DispatcherId)
    requires Inv(s) && d in s.dispatchers
    ensures s.dispatchers[d].todo != [] && s.dispatchers[d].todo[0].transfer in s.records
  {
  }

  /** A transfer that has just been created is not handed over to the queue yet. */
  lemma NewIsNotHanded(cfg: Config, s: System, m: Move, t: TransferId)
    requires Inv(s) && t !in s.records && t in Step(cfg, s, m).records
    ensures !Handed(Step(cfg, s, m), t)
  {
    OnlyCreateAdds(cfg, s, m, t);
    if AboutToMark(s, t) {
      var d :| d in s.dispatchers && MarksFor(s.dispatchers[d], t);
      HeadKnown(s, d);
    }
  }

  // ----- the whole run

  lemma StepKeepsCoverInv(cfg: Config, s: System, m: Move, t: TransferId)
    requires Inv(s) && CoverInv(s, t) && !Abandons(s, m, t)
    ensures CoverInv(Step(cfg, s, m), t)
  {
    hide RecordInv, PcInv, Evolves, Covered, Handed, Step, LetsGo;
    var s' := Step(cfg, s, m);
    StepKeeps(cfg, s, m);
    if t in s'.records && Handed(s', t) {
      if t in s.records {
        HandedMeansPublished(cfg, s, m, t);
        if Handed(s, t) {
          StepUncoversExactly(cfg, s, m, t);
        }
      } else {
        NewIsNotHanded(cfg, s, m, t);
      }
    }
  }

  /** No move of the run abandons `t`. */
  predicate NeverAbandoned(cfg: Config, s: System, moves: seq<Move>, t: TransferId)
    decreases |moves|
  {
    moves != [] ==> !Abandons(s, moves[0], t) && NeverAbandoned(cfg, Step(cfg, s, moves[0]), moves[1..], t)
  }

  lemma {:induction false} RunKeepsCoverInv(cfg: Config, s: System, moves: seq<Move>, t: TransferId)
    requires Inv(s) && CoverInv(s, t) && NeverAbandoned(cfg, s, moves, t)
    ensures CoverInv(Run(cfg, s, moves), t)
    decreases |moves|
  {
    if moves != [] {
      StepKeeps(cfg, s, moves[0]);
      StepKeepsCoverInv(cfg, s, moves[0], t);
      RunKeepsCoverInv(cfg, Step(cfg, s, moves[0]), moves[1..], t);
    }
  }

  /** In every state of the run `t`, once handed over, is settled or somebody's responsibility. */
  predicate Attended(cfg: Config, s: System, moves: seq<Move>, t: TransferId)
    decreases |moves|
  {
    CoverInv(s, t) && (moves != [] ==> Attended(cfg, Step(cfg, s, moves[0]), moves[1..], t))
  }

  lemma AbandonedIsUncovered(cfg: Config, s: System, m: Move, t: TransferId)
    requires Inv(s) && CoverInv(s, t) && Abandons(s, m, t)
    ensures !CoverInv(Step(cfg, s, m), t)
  {
    hide RecordInv, PcInv, Covered, WorkMove, Handed;
    StepUncoversExactly(cfg, s, m, t);
    WorkHands(cfg, s, m.w, m.c, t);
  }

  /** Over a whole run a transfer is attended in every state if and only if no move abandons it. */
  lemma {:induction false} AttendedExactlyUnlessAbandoned(cfg: Config, s: System, moves: seq<Move>, t: TransferId)
    requires Inv(s) && CoverInv(s, t)
    ensures Attended(cfg, s, moves, t) <==> NeverAbandoned(cfg, s, moves, t)
    decreases |moves|
  {
    hide Inv, CoverInv, Abandons, Step;
    if moves != [] {
      var s1 := Step(cfg, s, moves[0]);
      StepKeeps(cfg, s, moves[0]);
      if Abandons(s, moves[0], t) {
        AbandonedIsUncovered(cfg, s, moves[0], t);
      } else {
        StepKeepsCoverInv(cfg, s, moves[0], t);
        AttendedExactlyUnlessAbandoned(cfg, s1, moves[1..], t);
      }
    }
  }

  /** The transfer is unfinished, its row is DISPATCHED, and no job for it is queued or held. */
  predicate Lost(s: System, t: TransferId) {
    && t in s.records && Working(s.records[t].status)
    && s.records[t].outbox.status == OutboxDispatched
    && !JobQueued(s, t)
    && !(exists w | w in s.workers :: s.workers[w].transfer == t)
  }

  /**
   In every reachable state a transfer is lost only if some move of the run abandoned it. An error that hid a
   committed write, or one while another job was queued or another worker responsible, loses nothing.
   */
  lemma LostMeansAbandoned(cfg: Config, moves: seq<Move>, t: TransferId)
    requires Lost(After(cfg, moves), t)
    ensures !NeverAbandoned(cfg, Initial(), moves, t)
  {
    InitialInv();
    AfterInv(cfg, moves);
    if NeverAbandoned(cfg, Initial(), moves, t) {
      RunKeepsCoverInv(cfg, Initial(), moves, t);
    }
  }

  lemma ErrorsOnlyGrow(a: TransferRecord, b: TransferRecord)
    requires Evolves(a, b)
    ensures a.failErrors <= b.failErrors
  {
  }

  lemma AbandoningIsCounted(cfg: Config, s: System, m: Move, t: TransferId)
    requires Abandons(s, m, t)
    ensures t in Step(cfg, s, m).records && Step(cfg, s, m).records[t].failErrors > 0
  {
  }

  lemma {:induction false} NoErrorNeverAbandons(cfg: Config, s: System, moves: seq<Move>, t: TransferId)
    requires Inv(s)
    requires t in Run(cfg, s, moves).records && Run(cfg, s, moves).records[t].failErrors == 0
    ensures NeverAbandoned(cfg, s, moves, t)
    decreases |moves|
  {
    hide RecordInv, PcInv, Evolves, Abandons, Step;
    if moves != [] {
      var s1 := Step(cfg, s, moves[0]);
      StepKeeps(cfg, s, moves[0]);
      RunKeeps(cfg, s1, moves[1..]);
      if Abandons(s, moves[0], t) {
        AbandoningIsCounted(cfg, s, moves[0], t);
        ErrorsOnlyGrow(s1.records[t], Run(cfg, s, moves).records[t]);
      }
      NoErrorNeverAbandons(cfg, s1, moves[1..], t);
    }
  }

  /** In particular, nothing is lost while every `FailTransfer` call made for the transfer has succeeded. */
  lemma NoJobIsLost(cfg: Config, moves: seq<Move>, t: TransferId)
    requires t in After(cfg, moves).records
    requires After(cfg, moves).records[t].failErrors == 0
    ensures !Lost(After(cfg, moves), t)
  {
    InitialInv();
    NoErrorNeverAbandons(cfg, Initial(), moves, t);
    if Lost(After(cfg, moves), t) {
      LostMeansAbandoned(cfg, moves, t);
    }
  }

  // ----- the exception

  /** Lost, and no dispatcher holds a copy of the row from which it could publish once more. */
  predicate Stranded(s: System, t: TransferId) {
    && Lost(s, t)
    && forall d, k | d in s.dispatchers && 0 <= k < |s.dispatchers[d].todo| :: s.dispatchers[d].todo[k].transfer != t
  }

  lemma WorkKeepsStranded(s: System, w: WorkerId, r: StepResult, t: TransferId)
    requires Stranded(s, t) && CanWork(s, w)
    ensures Stranded(Apply(s, w, r), t)
  {
  }

  lemma ClaimKeepsStranded(cfg: Config, s: System, d: DispatcherId, u: TransferId, t: TransferId)
    requires Stranded(s, t)
    ensures Stranded(ClaimMove(cfg, s, d, u), t)
  {
  }

  lemma PublishKeepsStranded(s: System, d: DispatcherId, answer: Answer, t: TransferId)
    requires Stranded(s, t) && CanDispatch(s, d)
    ensures Stranded(PublishMove(s, d, answer), t)
  {
  }

  lemma MarkKeepsStranded(s: System, d: DispatcherId, answer: Answer, delay: nat, t: TransferId)
    requires Stranded(s, t) && CanDispatch(s, d)
    ensures Stranded(MarkMove(s, d, answer, delay), t)
  {
  }

  lemma DeliverKeepsStranded(s: System, w: WorkerId, job: Job, t: TransferId)
    requires Stranded(s, t)
    ensures Stranded(DeliverMove(s, w, job), t)
  {
  }

  lemma StepKeepsStranded(cfg: Config, s: System, m: Move, t: TransferId)
    requires Stranded(s, t)
    ensures Stranded(Step(cfg, s, m), t)
  {
    hide Apply, WorkResult, ClaimMove, PublishMove, MarkMove, DeliverMove;
    match m {
      case Work(w, c) => if CanWork(s, w) { WorkKeepsStranded(s, w, WorkResult(cfg, s, w, c), t); }
      case Deliver(w, job) => DeliverKeepsStranded(s, w, job, t);
      case ClaimRow(d, u) => ClaimKeepsStranded(cfg, s, d, u, t);
      case Dispatch(d, answer, delay) =>
        if CanDispatch(s, d) {
          if s.dispatchers[d].phase == Publishing {
            PublishKeepsStranded(s, d, answer, t);
          } else {
            MarkKeepsStranded(s, d, answer, delay, t);
          }
        }
      case _ =>
    }
  }

  /** A stranded transfer stays so: no later move of any process brings a job for it back. */
  lemma {:induction false} StrandedForever(cfg: Config, s: System, moves: seq<Move>, t: TransferId)
    requires Stranded(s, t)
    ensures Stranded(Run(cfg, s, moves), t)
    decreases |moves|
  {
    if moves != [] {
      StepKeepsStranded(cfg, s, moves[0], t);
      StrandedForever(cfg, Step(cfg, s, moves[0]), moves[1..], t);
    }
  }

  /** One worker holds the only job of an unfinished transfer, and nobody else will bring another. */
  predicate SoleHolder(s: System, w: WorkerId) {
    && CanWork(s, w)
    && var t := s.workers[w].transfer;
    && Working(s.records[t].status) && s.records[t].outbox.status == OutboxDispatched
    && !JobQueued(s, t)
    && (forall v | v in s.workers && v != w :: s.workers[v].transfer != t)
    && (forall d, k | d in s.dispatchers && 0 <= k < |s.dispatchers[d].todo| :: s.dispatchers[d].todo[k].transfer != t)
  }

  /** The broker hears an acknowledgement answered like this. */
  predicate Heard(c: Choice) { c.answer == Ok || c.answer.effect }

  /**
   The exception is real: when the worker holding a transfer's only job runs `FailTransfer` and its read or
   its write fails without effect, the acknowledgement that follows strands the transfer for ever.
   */
  lemma ErringFailTransferStrands(cfg: Config, s: System, w: WorkerId, c: Choice, ack: Choice, later: seq<Move>)
    requires SoleHolder(s, w) && FailsWithoutEffect(s.workers[w].pc, c) && Heard(ack)
    ensures Stranded(Run(cfg, s, [Work(w, c), Work(w, ack)] + later), s.workers[w].transfer)
  {
    FailErrs(cfg, s, w, c);
    AckStrands(cfg, Step(cfg, s, Work(w, c)), w, ack);
    hide *;
    TwoSteps(cfg, s, Work(w, c), Work(w, ack));
    RunAppend(cfg, s, [Work(w, c), Work(w, ack)], later);
    StrandedForever(cfg, Run(cfg, s, [Work(w, c), Work(w, ack)]), later, s.workers[w].transfer);
  }

  lemma FailErrs(cfg: Config, s: System, w: WorkerId, c: Choice)
    requires SoleHolder(s, w) && FailsWithoutEffect(s.workers[w].pc, c)
    ensures var s' := WorkMove(cfg, s, w, c);
            && SoleHolder(s', w) && s'.workers[w].pc == Acking(FailErrored)
            && s'.workers[w].transfer == s.workers[w].transfer
  {
  }

  lemma AckStrands(cfg: Config, s: System, w: WorkerId, c: Choice)
    requires SoleHolder(s, w) && s.workers[w].pc.Acking? && Heard(c)
    ensures Stranded(WorkMove(cfg, s, w, c), s.workers[w].transfer)
  {
  }

  /** A step that goes on keeps hold of the job; an acknowledgement leaves the record alone. */
  lemma StepHolds(cfg: Config, s: System, w: WorkerId, c: Choice)
    requires CanWork(s, w)
    ensures var s' := WorkMove(cfg, s, w, c); var r := WorkResult(cfg, s, w, c); var t := s.workers[w].transfer;
            && t in s'.records && s'.records[t] == r.rec
            && (r.next.Continue? ==> CanWork(s', w) && s'.workers[w] == s.workers[w].(pc := r.next.pc))
  {
    hide WorkResult;
  }

  /** The only holder of a job whose `FailTransfer` is not given up settles the transfer or still holds the job. */
  lemma FailTransferSettles(cfg: Config, s: System, w: WorkerId, c: Choice, ack: Choice)
    requires SoleHolder(s, w) && Guardian(s.records[s.workers[w].transfer].status, s.workers[w].pc)
    requires s.workers[w].pc.FailLoading? || s.workers[w].pc.FailWriting?
    requires !GivesUp(s.records[s.workers[w].transfer].status, s.workers[w].pc, c)
    ensures !Lost(WorkMove(cfg, WorkMove(cfg, s, w, c), w, ack), s.workers[w].transfer)
  {
    hide WorkMove, ProcessStep, JobQueued;
    var s1 := WorkMove(cfg, s, w, c);
    StepHolds(cfg, s, w, c);
    StepHolds(cfg, s1, w, ack);
  }

  /**
   Exactly when the exception strikes: in any run that has not abandoned the transfer before, the worker with its
   only job runs a `FailTransfer` call and its acknowledgement is heard. The transfer is then lost if and only if
   that call was a read that erred, or a write that erred without having taken effect.
   */
  lemma LostExactlyWhenGivenUp(cfg: Config, before: seq<Move>, w: WorkerId, c: Choice, ack: Choice)
    requires SoleHolder(After(cfg, before), w) && Heard(ack)
    requires NeverAbandoned(cfg, Initial(), before, After(cfg, before).workers[w].transfer)
    requires var pc := After(cfg, before).workers[w].pc; pc.FailLoading? || pc.FailWriting?
    ensures var s := After(cfg, before);
            Lost(After(cfg, before + [Work(w, c), Work(w, ack)]), s.workers[w].transfer) <==>
              FailsWithoutEffect(s.workers[w].pc, c)
  {
    hide WorkMove, RecordInv, PcInv, Run;
    var s := After(cfg, before);
    var t := s.workers[w].transfer;
    var moves := [Work(w, c), Work(w, ack)];
    InitialInv();
    AfterInv(cfg, before);
    RunKeepsCoverInv(cfg, Initial(), before, t);
    assert Guarded(s, t) && Guardian(s.records[t].status, s.workers[w].pc);
    RunAppend(cfg, Initial(), before, moves);
    TwoSteps(cfg, s, moves[0], moves[1]);
    if GivesUp(s.records[t].status, s.workers[w].pc, c) {
      ErringFailTransferStrands(cfg, s, w, c, ack, []);
      assert moves + [] == moves;
    } else {
      FailTransferSettles(cfg, s, w, c, ack);
    }
  }

  // ----- a lost lock

  /** A heartbeat that lost the lock is seen by the worker that holds the transfer's only job after an error. */
  predicate SeesLostLock(s: System, w: WorkerId, settle: Choice) {
    SoleHolder(s, w) && settle.lockLost && s.workers[w].pc.Returned? && s.workers[w].pc.result.Failure?
  }

  /** The error is final for the consumer, or the retries are used up. */
  predicate OutOfRetries(policy: RetryPolicy, w: Worker)
    requires w.pc.Returned? && w.pc.result.Failure?
  {
    w.pc.result.kind == Other || w.retry >= policy.maxRetries
  }

  lemma SettlesLostLock(cfg: Config, s: System, w: WorkerId, settle: Choice)
    requires SeesLostLock(s, w, settle)
    ensures var s' := WorkMove(cfg, s, w, settle); var pc := s'.workers[w].pc;
            && SoleHolder(s', w) && s'.workers[w].transfer == s.workers[w].transfer
            && (if OutOfRetries(cfg.policy, s.workers[w]) then pc == FailLoading(true) else pc.Republishing?)
  {
    hide ProcessStep;
  }

  /** After a publish, failed or not, a job for the transfer is on the queue, and an acknowledgement leaves it there. */
  lemma RepublishKeepsJob(cfg: Config, s: System, w: WorkerId, c: Choice, ack: Choice)
    requires CanWork(s, w) && s.workers[w].pc.Republishing?
    ensures JobQueued(WorkMove(cfg, WorkMove(cfg, s, w, c), w, ack), s.workers[w].transfer)
  {
    hide ProcessStep;
    var worker := s.workers[w];
    var s1 := WorkMove(cfg, s, w, c);
    var job := Job(worker.transfer, if w in s1.workers then worker.retry + 1 else worker.retry);
    assert job in s1.queue;
    assert job in WorkMove(cfg, s1, w, ack).queue;
  }

  /**
   After a lost lock the outcome no longer depends on any answer but the broker's: once the acknowledgement is
   heard, the transfer is lost for ever if the error was final or the retries were used up, because `FailTransfer`
   runs under the cancelled context, and otherwise it is not.
   */
  lemma LostLockLosesExactly(
    cfg: Config, s: System, w: WorkerId, settle: Choice, c: Choice, ack: Choice, later: seq<Move>)
    requires SeesLostLock(s, w, settle) && Heard(ack)
    ensures var s' := Run(cfg, s, [Work(w, settle), Work(w, c), Work(w, ack)]);
            Lost(s', s.workers[w].transfer) <==> OutOfRetries(cfg.policy, s.workers[w])
    ensures OutOfRetries(cfg.policy, s.workers[w]) ==>
              Stranded(Run(cfg, s, [Work(w, settle), Work(w, c), Work(w, ack)] + later), s.workers[w].transfer)
  {
    hide WorkMove, Step, SoleHolder, JobQueued, Run;
    HoldsWork(s, w);
    var m, rest := Work(w, settle), [Work(w, c), Work(w, ack)];
    var s1 := Step(cfg, s, m);
    assert [m] + rest == [m, Work(w, c), Work(w, ack)];
    AfterOne(cfg, s, m, rest);
    AfterOne(cfg, s, m, rest + later);
    assert [m] + (rest + later) == [m, Work(w, c), Work(w, ack)] + later;
    OwnStepIs(cfg, s, w, settle);
    SettlesLostLock(cfg, s, w, settle);
    if OutOfRetries(cfg.policy, s.workers[w]) {
      ErringFailTransferStrands(cfg, s1, w, c, ack, later);
      ErringFailTransferStrands(cfg, s1, w, c, ack, []);
      assert rest + [] == rest;
    } else {
      TwoSteps(cfg, s1, rest[0], rest[1]);
      OwnStepIs(cfg, s1, w, c);
      OwnStepIs(cfg, Step(cfg, s1, rest[0]), w, ack);
      HoldsWork(s1, w);
      RepublishKeepsJob(cfg, s1, w, c, ack);
    }
  }

  lemma AfterOne(cfg: Config, s: System, m: Move, rest: seq<Move>)
    ensures Run(cfg, s, [m] + rest) == Run(cfg, Step(cfg, s, m), rest)
  {
    assert ([m] + rest)[1..] == rest;
  }

  lemma OwnStepIs(cfg: Config, s: System, w: WorkerId, c: Choice)
    ensures Step(cfg, s, Work(w, c)) == WorkMove(cfg, s, w, c)
  {
  }

  lemma HoldsWork(s: System, w: WorkerId)
    requires SoleHolder(s, w)
    ensures CanWork(s, w)
  {
  }

  /** With a pause before publishing, a lost lock costs the job no retry: it comes back with its attempt number. */
  lemma LostLockCountsNoRetry(cfg: Config, s: System, w: WorkerId, settle: Choice, c: Choice)
    requires SeesLostLock(s, w, settle) && !OutOfRetries(cfg.policy, s.workers[w]) && cfg.policy.delay > 0
    ensures var s' := WorkMove(cfg, WorkMove(cfg, s, w, settle), w, c);
            w !in s'.workers && s'.queue == s.queue + multiset{Job(s.workers[w].transfer, s.workers[w].retry)}
  {
    hide ProcessStep, JobQueued;
    var s1 := WorkMove(cfg, s, w, settle);
    assert s1.workers[w] == s.workers[w].(pc := Republishing(true)) && s1.queue == s.queue;
  }

  // ----- concrete runs

  function Answering(answer: Answer): Choice { Choice(answer, SignedTransfer("", ""), false) }

  lemma FourSteps(cfg: Config, s: System, a: Move, b: Move, c: Move, d: Move)
    ensures Run(cfg, s, [a, b, c, d]) == Step(cfg, Step(cfg, Step(cfg, Step(cfg, s, a), b), c), d)
  {
    hide Step;
    TwoSteps(cfg, s, a, b);
    TwoSteps(cfg, Run(cfg, s, [a, b]), c, d);
    RunAppend(cfg, s, [a, b], [c, d]);
    assert [a, b] + [c, d] == [a, b, c, d];
  }

  /** A transfer is created and its job dispatched; then a worker takes the job and finds the database unreachable. */
  const DISPATCHED_ONCE: seq<Move> := [
    Create("key", "https://receiver", 0, Ok), ClaimRow(0, 0), Dispatch(0, Ok, 0), Dispatch(0, Ok, 0)]

  const UNREACHABLE_DATABASE: seq<Move> := [
    Deliver(0, Job(0, 0)), Work(0, Answering(Ok)), Work(0, Answering(Err(Other, false))), Work(0, Answering(Ok))]

  lemma DispatchedOnce(cfg: Config)
    ensures var s := After(cfg, DISPATCHED_ONCE);
            && 0 in s.records && s.records[0].status == Created && s.records[0].outbox.status == OutboxDispatched
            && s.records[0].callbackUrl != ""
            && s.queue == multiset{Job(0, 0)} && s.workers == map[] && s.dispatchers == map[]
  {
    var d := DISPATCHED_ONCE;
    FourSteps(cfg, Initial(), d[0], d[1], d[2], d[3]);
  }

  lemma SoleHolderReached(cfg: Config, s: System)
    requires 0 in s.records && s.records[0].status == Created && s.records[0].outbox.status == OutboxDispatched
    requires s.queue == multiset{Job(0, 0)} && s.workers == map[] && s.dispatchers == map[]
    ensures var s' := Run(cfg, s, UNREACHABLE_DATABASE);
            SoleHolder(s', 0) && s'.workers[0] == Worker(0, 0, FailLoading(false))
  {
    var u := UNREACHABLE_DATABASE;
    FourSteps(cfg, s, u[0], u[1], u[2], u[3]);
    var s1 := Step(cfg, s, u[0]);
    assert s1 == s.(queue := multiset{}, workers := map[0 := Worker(0, 0, Locking)]);
    WorkOnly(cfg, s1, 0, u[1].c, Loading);
    var s2 := s1.(workers := map[0 := Worker(0, 0, Loading)]);
    WorkOnly(cfg, s2, 0, u[2].c, Workers.Returned(Failure(Other)));
    var s3 := s2.(workers := map[0 := Worker(0, 0, Workers.Returned(Failure(Other)))]);
    WorkOnly(cfg, s3, 0, u[3].c, FailLoading(false));
  }

  /** A step that only moves the worker's program counter. */
  lemma WorkOnly(cfg: Config, s: System, w: WorkerId, c: Choice, pc: Pc)
    requires CanWork(s, w) && s.workers == map[w := s.workers[w]]
    requires WorkResult(cfg, s, w, c) == Go(s.records[s.workers[w].transfer], pc)
    ensures Step(cfg, s, Work(w, c)) == s.(workers := map[w := s.workers[w].(pc := pc)])
  {
    hide WorkResult;
    var t := s.workers[w].transfer;
    assert s.records[t := s.records[t]] == s.records;
  }

  /** So the guarantee does need its condition: here is a run after which the job is lost. */
  lemma AJobCanBeLost(cfg: Config)
    ensures exists moves :: Lost(After(cfg, moves), 0)
  {
    DispatchedOnce(cfg);
    var s1 := After(cfg, DISPATCHED_ONCE);
    SoleHolderReached(cfg, s1);
    var s2 := Run(cfg, s1, UNREACHABLE_DATABASE);
    var rest := [Work(0, Answering(Err(Other, false))), Work(0, Answering(Ok))];
    ErringFailTransferStrands(cfg, s2, 0, Answering(Err(Other, false)), Answering(Ok), []);
    hide Run;
    assert rest + [] == rest;
    RunAppend(cfg, s1, UNREACHABLE_DATABASE, rest);
    RunAppend(cfg, Initial(), DISPATCHED_ONCE, UNREACHABLE_DATABASE + rest);
    assert Lost(After(cfg, DISPATCHED_ONCE + (UNREACHABLE_DATABASE + rest)), 0);
  }
}
