/**
 `ProcessTransfer` comes to an end, however often other workers interfere, and an undisturbed rerun repairs
 whatever a crash left behind.
 */
module Recovery {
  import opened Transfers
  import opened Workers
  import opened Pipeline
  import opened Guarantees

  // ----- how much a worker still has to do

  /** The worker's attempt copy still shows the row's status. */
  predicate Fresh(rec: TransferRecord, id: nat, attempt: Attempt) {
    id < |rec.attempts| && rec.attempts[id].status == attempt.status
  }

  /** The calls left inside `ProcessTransfer` if nobody else writes an attempt from now on. */
  function Remaining(rec: TransferRecord, pc: Pc): nat {
    match pc
    case Loading => 13
    case Advancing(view) =>
      (match view.status case Created => 12 case Validated => 11 case Queued => 10 case _ => 1)
    case ReadingLatest(_, resuming) => if resuming then 6 else 9
    case CallingSigner(_) => 8
    case Creating(_, _) => 7
    case Claiming(_, id, a) => if Fresh(rec, id, a) then 5 else 7
    case CallingBroadcaster(_, id, a) => if Fresh(rec, id, a) then 4 else 8
    case Confirming(_, id, a) => if Fresh(rec, id, a) then 3 else 7
    case Recording(_, id, a, _) => if Fresh(rec, id, a) then 2 else 7
    case Submitting(_, _, _) => 2
    case _ => 0
  }

  /** The broadcasts among them. */
  function Sends(rec: TransferRecord, pc: Pc): nat {
    match pc
    case CallingBroadcaster(_, id, a) => if Fresh(rec, id, a) then 1 else 2
    case Confirming(_, id, a) => if Fresh(rec, id, a) then 0 else 1
    case Recording(_, id, a, _) => if Fresh(rec, id, a) then 0 else 1
    case Submitting(_, _, _) => 0
    case Advancing(view) => if view.status == Submitted then 0 else 1
    case _ => if Processing(pc) then 1 else 0
  }

  function One(b: bool): nat { if b then 1 else 0 }

  lemma OwnStepDecreases(rec: TransferRecord, clash: bool, pc: Pc, c: Choice)
    requires RecordInv(rec) && PcInv(rec, pc) && Processing(pc)
    ensures var r := ProcessStep(rec, clash, pc, c);
            && r.next.Continue?
            && Remaining(r.rec, r.next.pc) < Remaining(rec, pc)
            && Sends(r.rec, r.next.pc) + One(pc.CallingBroadcaster?) <= Sends(rec, pc)
  {
    hide RecordInv, ActiveIndexHolds, HasActive, HasHash, Accepted, Evolves, Legal;
    match pc {
      case Claiming(_, id, _) => UpdateNeverViolatesIndex(rec, id, SignedOnly, Broadcasting);
      case Confirming(_, id, _) => UpdateNeverViolatesIndex(rec, id, Broadcasting, Broadcasted);
      case Recording(_, id, _, kind) =>
        UpdateNeverViolatesIndex(rec, id, Broadcasting, if kind == Transient then SignedOnly else AttemptFailed);
      case Loading => NeverConfirmed(rec);
      case _ =>
    }
  }

  /** A foreign attempt write costs at most five more calls and one more broadcast; any other write costs nothing. */
  lemma ForeignWriteCosts(rec: TransferRecord, later: TransferRecord, pc: Pc)
    ensures var n := One(later.attempts != rec.attempts);
            Remaining(later, pc) <= Remaining(rec, pc) + 5 * n && Sends(later, pc) <= Sends(rec, pc) + n
  {
  }

  // ----- counting along a run

  predicate Busy(s: System, w: WorkerId) {
    CanWork(s, w) && Processing(s.workers[w].pc)
  }

  function RecordOf(s: System, w: WorkerId): TransferRecord
    requires CanWork(s, w)
  {
    s.records[s.workers[w].transfer]
  }

  datatype CallKind = AnyCall | SignerOnly | BroadcasterOnly

  predicate IsCall(pc: Pc, kind: CallKind) {
    match kind
    case AnyCall => true
    case SignerOnly => pc.CallingSigner?
    case BroadcasterOnly => pc.CallingBroadcaster?
  }

  /** How many calls of this kind worker `w` makes along the run before the current `ProcessTransfer` ends. */
  function Calls(cfg: Config, s: System, moves: seq<Move>, w: WorkerId, kind: CallKind): nat
    decreases |moves|
  {
    if moves == [] || !Busy(s, w) then 0 else
    One(moves[0].Work? && moves[0].w == w && IsCall(s.workers[w].pc, kind))
      + Calls(cfg, Step(cfg, s, moves[0]), moves[1..], w, kind)
  }

  predicate ForeignWrite(cfg: Config, s: System, m: Move, w: WorkerId)
    requires Busy(s, w)
  {
    var t := s.workers[w].transfer;
    var s' := Step(cfg, s, m);
    !(m.Work? && m.w == w) && t in s'.records && s'.records[t].attempts != s.records[t].attempts
  }

  /** How many attempt writes other workers commit on the same transfer meanwhile. */
  function ForeignWrites(cfg: Config, s: System, moves: seq<Move>, w: WorkerId): nat
    decreases |moves|
  {
    if moves == [] || !Busy(s, w) then 0 else
    One(ForeignWrite(cfg, s, moves[0], w)) + ForeignWrites(cfg, Step(cfg, s, moves[0]), moves[1..], w)
  }

  /** Only its own steps and its own crash change a worker. */
  lemma ForeignMoveLeavesWorker(cfg: Config, s: System, m: Move, w: WorkerId)
    requires w in s.workers && !(m.Work? && m.w == w) && m != Crash(w)
    ensures w in Step(cfg, s, m).workers && Step(cfg, s, m).workers[w] == s.workers[w]
  {
    hide WorkResult, PublishMove, MarkMove;
    if m.Dispatch? && CanDispatch(s, m.d) {
      DispatchLeavesWorkers(s, m.d, m.answer, m.delay);
    }
  }

  lemma DispatchLeavesWorkers(s: System, d: DispatcherId, answer: Answer, delay: nat)
    requires CanDispatch(s, d)
    ensures PublishMove(s, d, answer).workers == s.workers && MarkMove(s, d, answer, delay).workers == s.workers
  {
  }

  /** The bound for one state, to be kept by every move. */
  predicate Bounded(s: System, w: WorkerId, calls: nat, sends: nat, writes: nat) {
    if Busy(s, w) then
      && calls <= Remaining(RecordOf(s, w), s.workers[w].pc) + 5 * writes
      && sends <= Sends(RecordOf(s, w), s.workers[w].pc) + writes
    else calls == 0 && sends == 0
  }

  lemma OwnMove(cfg: Config, s: System, w: WorkerId, c: Choice)
    requires Inv(s) && Busy(s, w)
    ensures var s' := WorkMove(cfg, s, w, c);
            && CanWork(s', w) && s'.workers[w].transfer == s.workers[w].transfer
            && Remaining(RecordOf(s', w), s'.workers[w].pc) < Remaining(RecordOf(s, w), s.workers[w].pc)
            && Sends(RecordOf(s', w), s'.workers[w].pc) + One(s.workers[w].pc.CallingBroadcaster?)
                 <= Sends(RecordOf(s, w), s.workers[w].pc)
  {
    hide RecordInv, PcInv, ProcessStep, Remaining, Sends;
    var worker := s.workers[w];
    assert WorkerInv(s.records, worker);
    OwnStepDecreases(RecordOf(s, w), WorkerClash(s, worker), worker.pc, c);
  }

  lemma ForeignMove(cfg: Config, s: System, m: Move, w: WorkerId)
    requires Inv(s) && Busy(s, w) && !(m.Work? && m.w == w) && m != Crash(w)
    ensures var s' := Step(cfg, s, m); var n := One(ForeignWrite(cfg, s, m, w));
            && Busy(s', w)
            && Remaining(RecordOf(s', w), s'.workers[w].pc) <= Remaining(RecordOf(s, w), s.workers[w].pc) + 5 * n
            && Sends(RecordOf(s', w), s'.workers[w].pc) <= Sends(RecordOf(s, w), s.workers[w].pc) + n
  {
    hide RecordInv, PcInv, Evolves, Step, Remaining, Sends;
    ForeignMoveLeavesWorker(cfg, s, m, w);
    StepKeeps(cfg, s, m);
    ForeignWriteCosts(RecordOf(s, w), RecordOf(Step(cfg, s, m), w), s.workers[w].pc);
  }

  /** One move's share of the bound. */
  lemma MoveKeepsBound(cfg: Config, s: System, m: Move, w: WorkerId, calls: nat, sends: nat, writes: nat)
    requires Inv(s) && Busy(s, w) && Bounded(Step(cfg, s, m), w, calls, sends, writes)
    ensures var own := m.Work? && m.w == w;
            Bounded(s, w, calls + One(own), sends + One(own && s.workers[w].pc.CallingBroadcaster?),
                    writes + One(ForeignWrite(cfg, s, m, w)))
  {
    hide Inv, Step, Remaining, Sends, ForeignWrite;
    if m.Work? && m.w == w {
      OwnWork(cfg, s, m);
      OwnMove(cfg, s, w, m.c);
    } else if m == Crash(w) {
      CrashEnds(cfg, s, w);
    } else {
      ForeignMove(cfg, s, m, w);
    }
  }

  lemma {:induction false} CallsAreBounded(cfg: Config, s: System, moves: seq<Move>, w: WorkerId)
    requires Inv(s)
    ensures var calls, sends := Calls(cfg, s, moves, w, AnyCall), Calls(cfg, s, moves, w, BroadcasterOnly);
            Bounded(s, w, calls, sends, ForeignWrites(cfg, s, moves, w))
    decreases |moves|
  {
    hide Inv, Step, Remaining, Sends, ForeignWrite;
    if moves != [] && Busy(s, w) {
      var s' := Step(cfg, s, moves[0]);
      StepKeeps(cfg, s, moves[0]);
      CallsAreBounded(cfg, s', moves[1..], w);
      var calls, sends := Calls(cfg, s', moves[1..], w, AnyCall), Calls(cfg, s', moves[1..], w, BroadcasterOnly);
      MoveKeepsBound(cfg, s, moves[0], w, calls, sends, ForeignWrites(cfg, s', moves[1..], w));
    }
  }

  lemma OwnWork(cfg: Config, s: System, m: Move)
    requires m.Work?
    ensures Step(cfg, s, m) == WorkMove(cfg, s, m.w, m.c)
  {
  }

  lemma CrashEnds(cfg: Config, s: System, w: WorkerId)
    requires w in s.workers
    ensures !Busy(Step(cfg, s, Crash(w)), w)
  {
  }

  /**
   A `ProcessTransfer` call ends under any finite number of foreign attempt writes: it makes at most thirteen
   calls, and five more for each such write; and at most one more broadcast than there are such writes.
   */
  lemma ProcessTransferEnds(cfg: Config, before: seq<Move>, moves: seq<Move>, w: WorkerId)
    requires var s := After(cfg, before); w in s.workers && s.workers[w].pc == Loading
    ensures var s := After(cfg, before);
            && Calls(cfg, s, moves, w, AnyCall) <= 13 + 5 * ForeignWrites(cfg, s, moves, w)
            && Calls(cfg, s, moves, w, BroadcasterOnly) <= 1 + ForeignWrites(cfg, s, moves, w)
  {
    AfterInv(cfg, before);
    CallsAreBounded(cfg, After(cfg, before), moves, w);
  }

  /** Counted from `submitTransfer` or a resumption in it on: nine calls and one broadcast, plus the same per write. */
  lemma SubmitTransferEnds(cfg: Config, before: seq<Move>, moves: seq<Move>, w: WorkerId)
    requires var s := After(cfg, before); w in s.workers && s.workers[w].pc.ReadingLatest?
    ensures var s := After(cfg, before);
            && Calls(cfg, s, moves, w, AnyCall) <= 9 + 5 * ForeignWrites(cfg, s, moves, w)
            && Calls(cfg, s, moves, w, BroadcasterOnly) <= 1 + ForeignWrites(cfg, s, moves, w)
  {
    AfterInv(cfg, before);
    CallsAreBounded(cfg, After(cfg, before), moves, w);
  }

  // ----- an undisturbed rerun

  predicate LatestNotFailed(rec: TransferRecord) {
    rec.attempts == [] || rec.attempts[|rec.attempts| - 1].status != AttemptFailed
  }

  /** What an undisturbed rerun can bring to PENDING_ON_CHAIN: already SUBMITTED, or nothing that matters has failed. */
  predicate Recoverable(rec: TransferRecord) {
    rec.status == Submitted || rec.status == PendingOnChain || (rec.status != Failed && LatestNotFailed(rec))
  }

  /** The copy is the latest attempt row as it stands. */
  predicate Current(rec: TransferRecord, view: View, id: nat, attempt: Attempt) {
    && view == ViewOf(rec)
    && id == |rec.attempts| - 1 && rec.attempts[id] == attempt
  }

  /** On course for PENDING_ON_CHAIN: nothing has failed and the worker's copies are up to date. */
  predicate OnCourse(rec: TransferRecord, pc: Pc) {
    && Recoverable(rec)
    && match pc
       case Loading => true
       case Advancing(view) => view == ViewOf(rec)
       case ReadingLatest(view, resuming) => view == ViewOf(rec) && !resuming
       case CallingSigner(view) => view == ViewOf(rec) && rec.attempts == []
       case Creating(view, _) => view == ViewOf(rec) && rec.attempts == []
       case Claiming(view, id, a) => Current(rec, view, id, a)
       case CallingBroadcaster(view, id, a) => Current(rec, view, id, a)
       case Confirming(view, id, a) => Current(rec, view, id, a)
       case Submitting(view, id, a) => Current(rec, view, id, a)
       case Returned(result) => rec.status == PendingOnChain && result == Success(ViewOf(rec))
       case _ => false
  }

  lemma HashesNotEmpty(rec: TransferRecord)
    requires RecordInv(rec)
    ensures forall i | 0 <= i < |rec.attempts| :: rec.attempts[i].hash != ""
  {
  }

  predicate OnCourseAfter(rec: TransferRecord, r: StepResult) {
    r.next.Continue? && OnCourse(r.rec, r.next.pc) && (rec.attempts != [] ==> r.rec.attempts != [])
  }

  lemma OnCourseSubmission(rec: TransferRecord, pc: Pc, c: Choice)
    requires RecordInv(rec) && PcInv(rec, pc) && OnCourse(rec, pc) && c.answer == Ok
    requires pc.Creating? || pc.Claiming? || pc.CallingBroadcaster? || pc.Confirming?
    ensures OnCourseAfter(rec, ProcessStep(rec, false, pc, c))
  {
    hide RecordInv, ActiveIndexHolds, Accepted;
    HashesNotEmpty(rec);
    match pc {
      case Claiming(_, id, a) => UpdateNeverViolatesIndex(rec, id, SignedOnly, Broadcasting);
      case Confirming(_, id, a) => UpdateNeverViolatesIndex(rec, id, Broadcasting, Broadcasted);
      case _ =>
    }
  }

  lemma OnCourseStep(rec: TransferRecord, pc: Pc, c: Choice)
    requires RecordInv(rec) && PcInv(rec, pc) && Processing(pc) && OnCourse(rec, pc)
    requires c.answer == Ok && (rec.attempts == [] ==> c.signed.payload != "" && c.signed.hash != "")
    ensures OnCourseAfter(rec, ProcessStep(rec, false, pc, c))
  {
    hide RecordInv, ActiveIndexHolds, HasActive, HasHash, Accepted, CreateStep, ClaimStep, ConfirmStep;
    NeverConfirmed(rec);
    HashesNotEmpty(rec);
    if pc.Creating? || pc.Claiming? || pc.CallingBroadcaster? || pc.Confirming? {
      OnCourseSubmission(rec, pc, c);
    }
  }

  /** `n` consecutive successful calls of worker `w`. */
  function Solo(w: WorkerId, signed: SignedTransfer, n: nat): (moves: seq<Move>)
    ensures |moves| == n
  {
    if n == 0 then [] else [Work(w, Choice(Ok, signed, false))] + Solo(w, signed, n - 1)
  }

  /** What the rerun needs from the signer, if it will be called: a transaction whose hash no other transfer has. */
  predicate Signable(s: System, w: WorkerId, signed: SignedTransfer)
    requires CanWork(s, w)
  {
    RecordOf(s, w).attempts == [] ==>
      signed.payload != "" && signed.hash != "" && !Clash(s.records, s.workers[w].transfer, signed.hash)
  }

  predicate CreatesOnly(s: System, w: WorkerId, signed: SignedTransfer)
    requires CanWork(s, w)
  {
    s.workers[w].pc.Creating? ==> s.workers[w].pc.signed == signed
  }

  lemma SoloStep(cfg: Config, s: System, w: WorkerId, signed: SignedTransfer)
    requires Inv(s) && Busy(s, w) && OnCourse(RecordOf(s, w), s.workers[w].pc)
    requires Signable(s, w, signed) && CreatesOnly(s, w, signed)
    ensures var s' := WorkMove(cfg, s, w, Choice(Ok, signed, false));
            && CanWork(s', w) && s'.workers[w].transfer == s.workers[w].transfer
            && OnCourse(RecordOf(s', w), s'.workers[w].pc)
            && Signable(s', w, signed) && CreatesOnly(s', w, signed)
            && (forall t | t in s.records && t != s.workers[w].transfer ::
                  t in s'.records && s'.records[t] == s.records[t])
  {
    hide RecordInv, PcInv, ProcessStep, HasHash;
    var worker := s.workers[w];
    var c := Choice(Ok, signed, false);
    assert WorkerInv(s.records, worker);
    assert !WorkerClash(s, worker);
    OnCourseStep(RecordOf(s, w), worker.pc, c);
    CreatesWhatWasSigned(RecordOf(s, w), worker.pc, c);
  }

  lemma CreatesWhatWasSigned(rec: TransferRecord, pc: Pc, c: Choice)
    requires Processing(pc)
    ensures var r := ProcessStep(rec, false, pc, c);
            r.next.Continue? && r.next.pc.Creating? ==> r.next.pc.signed == c.signed
  {
  }

  lemma OnCourseEnds(rec: TransferRecord, pc: Pc)
    requires OnCourse(rec, pc) && !Processing(pc)
    ensures rec.status == PendingOnChain && pc == Workers.Returned(Success(ViewOf(rec)))
  {
  }

  lemma SoloTail(cfg: Config, s: System, w: WorkerId, signed: SignedTransfer, k: nat)
    ensures Run(cfg, s, Solo(w, signed, k + 1)) ==
            Run(cfg, WorkMove(cfg, s, w, Choice(Ok, signed, false)), Solo(w, signed, k))
  {
    hide WorkMove;
    assert Solo(w, signed, k + 1)[1..] == Solo(w, signed, k);
  }

  lemma {:induction false} SoloRun(cfg: Config, s: System, w: WorkerId, signed: SignedTransfer) returns (n: nat)
    requires Inv(s) && CanWork(s, w) && OnCourse(RecordOf(s, w), s.workers[w].pc)
    requires Signable(s, w, signed) && CreatesOnly(s, w, signed)
    ensures n <= Remaining(RecordOf(s, w), s.workers[w].pc)
    ensures var s' := Run(cfg, s, Solo(w, signed, n));
            && CanWork(s', w) && s'.workers[w].transfer == s.workers[w].transfer
            && RecordOf(s', w).status == PendingOnChain
            && s'.workers[w].pc == Workers.Returned(Success(ViewOf(RecordOf(s', w))))
    decreases Remaining(RecordOf(s, w), s.workers[w].pc)
  {
    hide RecordInv, PcInv, OnCourse, WorkMove, Remaining, Clash;
    if !Busy(s, w) {
      OnCourseEnds(RecordOf(s, w), s.workers[w].pc);
      n := 0;
    } else {
      var c := Choice(Ok, signed, false);
      SoloStep(cfg, s, w, signed);
      OwnMove(cfg, s, w, c);
      WorkKeeps(cfg, s, w, c);
      var k := SoloRun(cfg, WorkMove(cfg, s, w, c), w, signed);
      n := k + 1;
      SoloTail(cfg, s, w, signed, k);
    }
  }

  /**
   Crash recovery: whatever state a run has left the system in, if the transfer is SUBMITTED or beyond, or neither
   it nor its latest attempt is FAILED, one undisturbed `ProcessTransfer` whose calls succeed ends with the transfer
   PENDING_ON_CHAIN. `UnrecoverableStays` is the other half.
   */
  lemma RerunRecovers(cfg: Config, before: seq<Move>, w: WorkerId, signed: SignedTransfer) returns (n: nat)
    requires var s := After(cfg, before);
             && w in s.workers && s.workers[w].transfer in s.records && s.workers[w].pc == Loading
             && Signable(s, w, signed)
             && Recoverable(RecordOf(s, w))
    ensures n <= 13
    ensures var t := After(cfg, before).workers[w].transfer;
            var s' := After(cfg, before + Solo(w, signed, n));
            && t in s'.records && s'.records[t].status == PendingOnChain
            && w in s'.workers && s'.workers[w].pc == Workers.Returned(Success(ViewOf(s'.records[t])))
  {
    AfterInv(cfg, before);
    var s := After(cfg, before);
    n := SoloRun(cfg, s, w, signed);
    RunAppend(cfg, Initial(), before, Solo(w, signed, n));
  }

  /** Consecutive calls of worker `w`, ending as chosen. */
  function OwnCalls(w: WorkerId, choices: seq<Choice>): seq<Move>
    decreases |choices|
  {
    if choices == [] then [] else [Work(w, choices[0])] + OwnCalls(w, choices[1..])
  }

  /** Processing that cannot get past a FAILED transfer or a FAILED latest attempt. */
  predicate Blocked(rec: TransferRecord, pc: Pc) {
    && !Recoverable(rec)
    && match pc
       case Loading => true
       case Advancing(view) => view == ViewOf(rec)
       case ReadingLatest(view, resuming) => view == ViewOf(rec)
       case _ => !Processing(pc)
  }

  lemma BlockedStep(rec: TransferRecord, clash: bool, w: Worker, c: Choice, policy: RetryPolicy)
    requires RecordInv(rec) && PcInv(rec, w.pc) && Blocked(rec, w.pc)
    ensures var r := WorkerStep(rec, clash, w, c, policy);
            !Recoverable(r.rec) && (r.next.Continue? && w.pc != Locking ==> Blocked(r.rec, r.next.pc))
  {
    hide RecordInv;
    NeverConfirmed(rec);
  }

  /** The worker, while it is there, works on `t` and is blocked. */
  predicate BlockedIn(s: System, w: WorkerId, t: TransferId) {
    && t in s.records && !Recoverable(s.records[t])
    && (w in s.workers ==>
          s.workers[w].transfer == t && s.workers[w].pc != Locking && Blocked(s.records[t], s.workers[w].pc))
  }

  lemma BlockedMove(cfg: Config, s: System, w: WorkerId, c: Choice, t: TransferId)
    requires Inv(s) && BlockedIn(s, w, t)
    ensures BlockedIn(Step(cfg, s, Work(w, c)), w, t)
  {
    hide RecordInv, PcInv, WorkerStep, Recoverable, Blocked;
    if w in s.workers {
      assert WorkerInv(s.records, s.workers[w]);
      BlockedStep(s.records[t], WorkerClash(s, s.workers[w]), s.workers[w], c, cfg.policy);
      NeverLocksAgain(s.records[t], WorkerClash(s, s.workers[w]), s.workers[w], c, cfg.policy);
    }
  }

  lemma NeverLocksAgain(rec: TransferRecord, clash: bool, w: Worker, c: Choice, policy: RetryPolicy)
    ensures var r := WorkerStep(rec, clash, w, c, policy); r.next.Continue? ==> r.next.pc != Locking
  {
  }

  lemma {:induction false} BlockedRun(cfg: Config, s: System, w: WorkerId, choices: seq<Choice>, t: TransferId)
    requires Inv(s) && BlockedIn(s, w, t)
    ensures BlockedIn(Run(cfg, s, OwnCalls(w, choices)), w, t)
    decreases |choices|
  {
    hide Inv, BlockedIn, Step;
    if choices != [] {
      BlockedMove(cfg, s, w, choices[0], t);
      StepKeeps(cfg, s, Work(w, choices[0]));
      assert OwnCalls(w, choices)[1..] == OwnCalls(w, choices[1..]);
      BlockedRun(cfg, Step(cfg, s, Work(w, choices[0])), w, choices[1..], t);
    }
  }

  /**
   The other half of crash recovery: a transfer that is FAILED, or not yet SUBMITTED with a FAILED latest attempt, is
   not brought to PENDING_ON_CHAIN by any number of undisturbed calls of its worker, however they end.
   */
  lemma UnrecoverableStays(cfg: Config, before: seq<Move>, w: WorkerId, choices: seq<Choice>)
    requires var s := After(cfg, before);
             && w in s.workers && s.workers[w].transfer in s.records && s.workers[w].pc == Loading
             && !Recoverable(RecordOf(s, w))
    ensures var t := After(cfg, before).workers[w].transfer;
            var s' := After(cfg, before + OwnCalls(w, choices));
            t in s'.records && s'.records[t].status != PendingOnChain
  {
    AfterInv(cfg, before);
    BlockedRun(cfg, After(cfg, before), w, choices, After(cfg, before).workers[w].transfer);
    RunAppend(cfg, Initial(), before, OwnCalls(w, choices));
  }

  // ----- a transaction already sent is not signed or sent again

  /** Past the broadcast: only the status writes are left. */
  predicate PastBroadcast(rec: TransferRecord, pc: Pc) {
    match pc
    case Loading => rec.status == Signing && AlreadySent(rec)
    case ReadingLatest(_, _) => AlreadySent(rec)
    case Submitting(_, _, _) => true
    case Advancing(view) => view.status == Submitted
    case _ => !Processing(pc)
  }

  predicate AlreadySent(rec: TransferRecord) {
    rec.attempts != [] && rec.attempts[|rec.attempts| - 1].status == Broadcasted
  }

  lemma PastBroadcastStep(rec: TransferRecord, pc: Pc, c: Choice)
    requires RecordInv(rec) && PcInv(rec, pc) && Processing(pc) && PastBroadcast(rec, pc)
    ensures !pc.CallingSigner? && !pc.CallingBroadcaster?
    ensures var r := ProcessStep(rec, false, pc, c); r.next.Continue? && PastBroadcast(r.rec, r.next.pc)
  {
  }

  lemma PastBroadcastMove(cfg: Config, s: System, w: WorkerId, c: Choice)
    requires Inv(s) && Busy(s, w) && PastBroadcast(RecordOf(s, w), s.workers[w].pc)
    ensures !s.workers[w].pc.CallingSigner? && !s.workers[w].pc.CallingBroadcaster?
    ensures var s' := WorkMove(cfg, s, w, c); CanWork(s', w) && PastBroadcast(RecordOf(s', w), s'.workers[w].pc)
  {
    hide RecordInv, PcInv, ProcessStep;
    var worker := s.workers[w];
    assert WorkerInv(s.records, worker);
    assert !WorkerClash(s, worker);
    PastBroadcastStep(RecordOf(s, w), worker.pc, c);
  }

  lemma {:induction false} OwnCallsReachNobody(cfg: Config, s: System, w: WorkerId, choices: seq<Choice>)
    requires Inv(s) && CanWork(s, w) && PastBroadcast(RecordOf(s, w), s.workers[w].pc)
    ensures Calls(cfg, s, OwnCalls(w, choices), w, SignerOnly) == 0
    ensures Calls(cfg, s, OwnCalls(w, choices), w, BroadcasterOnly) == 0
    decreases |choices|
  {
    hide RecordInv, PcInv, PastBroadcast, Inv, WorkMove;
    if choices != [] && Busy(s, w) {
      PastBroadcastMove(cfg, s, w, choices[0]);
      WorkKeeps(cfg, s, w, choices[0]);
      assert OwnCalls(w, choices)[1..] == OwnCalls(w, choices[1..]);
      OwnCallsReachNobody(cfg, WorkMove(cfg, s, w, choices[0]), w, choices[1..]);
    }
  }

  /**
   A rerun that finds the transfer SIGNING and its latest attempt BROADCASTED calls neither signer nor
   broadcaster, however its own calls end.
   */
  lemma RerunDoesNotSendAgain(cfg: Config, before: seq<Move>, w: WorkerId, choices: seq<Choice>)
    requires var s := After(cfg, before);
             && w in s.workers && s.workers[w].transfer in s.records && s.workers[w].pc == Loading
             && RecordOf(s, w).status == Signing && AlreadySent(RecordOf(s, w))
    ensures var s := After(cfg, before);
            && Calls(cfg, s, OwnCalls(w, choices), w, SignerOnly) == 0
            && Calls(cfg, s, OwnCalls(w, choices), w, BroadcasterOnly) == 0
  {
    AfterInv(cfg, before);
    OwnCallsReachNobody(cfg, After(cfg, before), w, choices);
  }
}
