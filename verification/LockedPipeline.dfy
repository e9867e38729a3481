/**
 The pipeline and the lock store as one step system on one clock. A worker gets past `Locking` exactly when its
 acquire with a fresh token succeeds; it refreshes its lease while it works, and the lease is released only after it
 has left. If no lease runs out while its worker is inside `ProcessTransfer`, processing never overlaps, and so every
 transfer is signed and sent as one transaction, whatever the signer returns; and a heartbeat that is never late keeps
 every lease from running out.
 */
module LockedPipeline {
  import opened Transfers
  import opened Workers
  import opened Pipeline
  import opened SingleAttempt
  import Lock = ProcessingLock

  type Token = Lock.Token

  datatype Setup = Setup(pipeline: Config, lockTtl: int)

  /** `held` gives the token under which a worker got past `Locking`, `renewed` when it last acquired or refreshed. */
  datatype Joint = Joint(sys: System, store: Lock.Store, held: map<WorkerId, Token>, renewed: map<WorkerId, nat>)

  /** `token` is the fresh UUID of an acquire; it plays no part in other moves. */
  datatype JointMove =
    | Base(m: Move, token: Token)
    | Beat(w: WorkerId)
    | Unlock(token: Token)

  function JointInitial(): Joint { Joint(Initial(), Lock.Empty(), map[], map[]) }

  /** The move is a worker's request for the lock. */
  predicate Requests(s: System, m: Move) {
    m.Work? && CanWork(s, m.w) && s.workers[m.w].pc == Locking
  }

  function AcquireOf(setup: Setup, j: Joint, m: Move, token: Token): Lock.Move
    requires Requests(j.sys, m)
  {
    Lock.Acquire(token, j.sys.workers[m.w].transfer, setup.lockTtl)
  }

  predicate Acquired(setup: Setup, j: Joint, m: Move, token: Token)
    requires Requests(j.sys, m)
  {
    m.c.answer == Ok && Lock.Acquires(j.store, AcquireOf(setup, j, m, token))
  }

  /** The pipeline's move: a request for the lock ends as the store decides. */
  function Decided(setup: Setup, j: Joint, m: Move, token: Token): Move {
    if !Requests(j.sys, m) || m.c.answer.Err? then m
    else Work(m.w, m.c.(answer := if Acquired(setup, j, m, token) then Ok else Err(Other, false)))
  }

  function StoreAfter(setup: Setup, j: Joint, m: Move, token: Token): Lock.Store {
    if Requests(j.sys, m) then
      if m.c.answer == Ok || m.c.answer.effect then Lock.Step(j.store, AcquireOf(setup, j, m, token)) else j.store
    else if m.Tick? then Lock.Step(j.store, Lock.Tick(m.elapsed))
    else j.store
  }

  function HeldAfter(
    setup: Setup, j: Joint, m: Move, token: Token, workers: map<WorkerId, Worker>): map<WorkerId, Token>
  {
    if Requests(j.sys, m) && Acquired(setup, j, m, token) then j.held[m.w := token]
    else map w | w in j.held && w in workers :: j.held[w]
  }

  /** `Unlock` is the deferred release, after the worker has left; `Beat` one tick of the heartbeat. */
  function JointStep(setup: Setup, j: Joint, move: JointMove): Joint {
    match move
    case Base(m, token) =>
      var sys := Step(setup.pipeline, j.sys, Decided(setup, j, m, token));
      var granted := Requests(j.sys, m) && Acquired(setup, j, m, token);
      Joint(sys, StoreAfter(setup, j, m, token), HeldAfter(setup, j, m, token, sys.workers),
            if granted then j.renewed[m.w := j.store.now] else j.renewed)
    case Beat(w) =>
      if w in j.held then
        j.(store := Lock.Step(j.store, Lock.Refresh(j.held[w], setup.lockTtl)), renewed := j.renewed[w := j.store.now])
      else j
    case Unlock(token) =>
      if token in j.held.Values then j else j.(store := Lock.Step(j.store, Lock.Release(token)))
  }

  function JointRun(setup: Setup, j: Joint, moves: seq<JointMove>): Joint
    decreases |moves|
  {
    if moves == [] then j else JointRun(setup, JointStep(setup, j, moves[0]), moves[1..])
  }

  // ----- the invariant

  predicate LeaseOf(j: Joint, w: WorkerId)
    requires w in j.held
  {
    && w in j.sys.workers && j.held[w] in j.store.leases
    && j.store.leases[j.held[w]].transfer == j.sys.workers[w].transfer
    && !j.store.leases[j.held[w]].released
  }

  predicate JointInv(j: Joint) {
    && Lock.Inv(j.store) && j.store.now == j.sys.now
    && (forall w | w in j.held :: LeaseOf(j, w))
    && (forall v, w | v in j.held && w in j.held && v != w :: j.held[v] != j.held[w])
    && (forall w | w in j.sys.workers :: j.sys.workers[w].pc == Locking || w in j.held)
  }

  /** How a worker's state in the next system relates to the one before, unless it asked for the lock. */
  predicate CameFrom(before: map<WorkerId, Worker>, w: WorkerId, next: Worker) {
    if w in before
    then
      && before[w].transfer == next.transfer && (before[w].pc == Locking ==> next.pc == Locking)
      && (Processing(next.pc) ==> Processing(before[w].pc))
    else next.pc == Locking
  }

  /** A worker in the next state was there before, on the same transfer and past `Locking` if it now is; or is new. */
  lemma WorkersAfter(cfg: Config, s: System, m: Move, w: WorkerId)
    requires w in Step(cfg, s, m).workers && !Requests(s, m)
    ensures CameFrom(s.workers, w, Step(cfg, s, m).workers[w])
  {
    if m.Work? {
      if CanWork(s, m.w) {
        WorkersAfterWork(cfg, s, m.w, m.c, w);
      }
    } else {
      WorkersAfterOther(cfg, s, m, w);
    }
  }

  lemma WorkersAfterWork(cfg: Config, s: System, v: WorkerId, c: Choice, w: WorkerId)
    requires CanWork(s, v) && s.workers[v].pc != Locking && w in WorkMove(cfg, s, v, c).workers
    ensures CameFrom(s.workers, w, WorkMove(cfg, s, v, c).workers[w])
  {
    hide WorkerStep;
    var worker := s.workers[v];
    if !Processing(worker.pc) {
      StaysOutside(s.records[worker.transfer], WorkerClash(s, worker), worker, c, cfg.policy);
    }
  }

  lemma WorkersAfterOther(cfg: Config, s: System, m: Move, w: WorkerId)
    requires w in Step(cfg, s, m).workers && !m.Work?
    ensures CameFrom(s.workers, w, Step(cfg, s, m).workers[w])
  {
    hide Step, Processing;
    StaysOrStarts(cfg, s, m, w);
  }

  lemma StaysOrStarts(cfg: Config, s: System, m: Move, w: WorkerId)
    requires w in Step(cfg, s, m).workers && !m.Work?
    ensures var next := Step(cfg, s, m).workers[w];
            if w in s.workers then next == s.workers[w] else next.pc == Locking
  {
    hide DispatchMove, ClaimMove, WorkMove, CreateMove, DeliverMove;
    match m {
      case Deliver(v, job) => DeliverStarts(s, v, job, w);
      case Dispatch(d, answer, delay) => DispatchLeavesWorkers(s, d, answer, delay);
      case ClaimRow(d, t) => ClaimLeavesWorkers(cfg, s, d, t);
      case Create(_, _, _, _) => CreateLeavesWorkers(s, m);
      case _ =>
    }
  }

  lemma DeliverStarts(s: System, v: WorkerId, job: Job, w: WorkerId)
    requires w in DeliverMove(s, v, job).workers
    ensures var next := DeliverMove(s, v, job).workers[w];
            if w in s.workers then next == s.workers[w] else next.pc == Locking
  {
  }

  lemma DispatchLeavesWorkers(s: System, d: DispatcherId, answer: Answer, delay: nat)
    ensures DispatchMove(s, d, answer, delay).workers == s.workers
  {
  }

  lemma ClaimLeavesWorkers(cfg: Config, s: System, d: DispatcherId, t: TransferId)
    ensures ClaimMove(cfg, s, d, t).workers == s.workers
  {
  }

  lemma CreateLeavesWorkers(s: System, m: Move)
    requires m.Create?
    ensures CreateMove(s, m).workers == s.workers
  {
  }

  /** Once `ProcessTransfer` has returned, the worker does not enter it again for this delivery. */
  lemma StaysOutside(rec: TransferRecord, clash: bool, w: Worker, c: Choice, policy: RetryPolicy)
    requires !Processing(w.pc) && w.pc != Locking
    ensures var r := WorkerStep(rec, clash, w, c, policy); r.next.Continue? ==> !Processing(r.next.pc)
  {
  }

  lemma OnlyTicksPass(cfg: Config, s: System, m: Move)
    ensures Step(cfg, s, m).now == s.now + if m.Tick? then m.elapsed else 0
  {
    hide WorkResult;
  }

  /** A granted request moves its worker on; a refused one hands the delivery back. */
  lemma RequestEffect(cfg: Config, s: System, w: WorkerId, c: Choice)
    requires CanWork(s, w) && s.workers[w].pc == Locking
    ensures Step(cfg, s, Work(w, c)).workers ==
            if c.answer == Ok then s.workers[w := s.workers[w].(pc := Loading)] else s.workers - {w}
  {
  }

  lemma LeaseStays(store: Lock.Store, m: Lock.Move, token: Token)
    requires token in store.leases && m != Lock.Release(token)
    ensures var store' := Lock.Step(store, m);
            && token in store'.leases && store'.leases[token].transfer == store.leases[token].transfer
            && store'.leases[token].released == store.leases[token].released
  {
  }

  lemma PlainKeeps(setup: Setup, j: Joint, m: Move, token: Token)
    requires JointInv(j) && !Requests(j.sys, m)
    ensures JointInv(JointStep(setup, j, Base(m, token)))
  {
    hide Step, Lock.Step, Lock.Inv, Requests;
    var j' := JointStep(setup, j, Base(m, token));
    OnlyTicksPass(setup.pipeline, j.sys, m);
    if m.Tick? {
      Lock.StepKeeps(j.store, Lock.Tick(m.elapsed));
      TickPasses(j.store, m.elapsed);
    }
    forall w | w in j'.held ensures LeaseOf(j', w) {
      assert LeaseOf(j, w);
      WorkersAfter(setup.pipeline, j.sys, m, w);
      if m.Tick? {
        LeaseStays(j.store, Lock.Tick(m.elapsed), j.held[w]);
      }
    }
    forall w | w in j'.sys.workers ensures j'.sys.workers[w].pc == Locking || w in j'.held {
      WorkersAfter(setup.pipeline, j.sys, m, w);
    }
  }

  lemma TickPasses(store: Lock.Store, elapsed: nat)
    ensures Lock.Step(store, Lock.Tick(elapsed)).now == store.now + elapsed
  {
  }

  lemma AcquireEffect(store: Lock.Store, token: Token, t: TransferId, ttl: int)
    ensures var store' := Lock.Step(store, Lock.Acquire(token, t, ttl));
            && store'.now == store.now
            && (Lock.Acquires(store, Lock.Acquire(token, t, ttl)) ==>
                  && token !in store.leases && token in store'.leases
                  && store'.leases[token].transfer == t && !store'.leases[token].released)
  {
  }

  lemma RequestKeeps(setup: Setup, j: Joint, m: Move, token: Token)
    requires JointInv(j) && Requests(j.sys, m)
    ensures JointInv(JointStep(setup, j, Base(m, token)))
  {
    hide Step, Lock.Step, Lock.Inv, Lock.Acquires;
    var j' := JointStep(setup, j, Base(m, token));
    var acquire := AcquireOf(setup, j, m, token);
    var made := Decided(setup, j, m, token);
    OnlyTicksPass(setup.pipeline, j.sys, made);
    RequestEffect(setup.pipeline, j.sys, m.w, made.c);
    Lock.StepKeeps(j.store, acquire);
    AcquireEffect(j.store, token, j.sys.workers[m.w].transfer, setup.lockTtl);
    forall w | w in j'.held ensures LeaseOf(j', w) {
      if w in j.held && j'.held[w] == j.held[w] {
        assert LeaseOf(j, w);
        LeaseStays(j.store, acquire, j.held[w]);
      }
    }
    forall v, w | v in j'.held && w in j'.held && v != w ensures j'.held[v] != j'.held[w] {
      assert v in j.held ==> LeaseOf(j, v);
      assert w in j.held ==> LeaseOf(j, w);
    }
  }

  lemma LockMoveKeeps(j: Joint, m: Lock.Move)
    requires JointInv(j) && (m.Refresh? || (m.Release? && m.token !in j.held.Values))
    ensures JointInv(j.(store := Lock.Step(j.store, m)))
  {
    hide Lock.Inv;
    Lock.StepKeeps(j.store, m);
    forall w | w in j.held ensures LeaseOf(j.(store := Lock.Step(j.store, m)), w) {
      assert LeaseOf(j, w);
      LeaseStays(j.store, m, j.held[w]);
    }
  }

  /** The observed times play no part in the invariant. */
  lemma RenewedIsFree(j: Joint, w: WorkerId, time: nat)
    requires JointInv(j)
    ensures JointInv(j.(renewed := j.renewed[w := time]))
  {
    assert forall v | v in j.held :: LeaseOf(j, v) && LeaseOf(j.(renewed := j.renewed[w := time]), v);
  }

  lemma JointStepKeeps(setup: Setup, j: Joint, move: JointMove)
    requires JointInv(j)
    ensures JointInv(JointStep(setup, j, move))
  {
    hide JointInv, Step, Lock.Step;
    match move {
      case Base(m, token) =>
        if Requests(j.sys, m) { RequestKeeps(setup, j, m, token); } else { PlainKeeps(setup, j, m, token); }
      case Beat(w) =>
        if w in j.held {
          LockMoveKeeps(j, Lock.Refresh(j.held[w], setup.lockTtl));
          RenewedIsFree(j.(store := Lock.Step(j.store, Lock.Refresh(j.held[w], setup.lockTtl))), w, j.store.now);
        }
      case Unlock(token) => if token !in j.held.Values { LockMoveKeeps(j, Lock.Release(token)); }
    }
  }

  // ----- locked processing does not overlap

  /** No worker inside `ProcessTransfer` has let its lease run out. */
  predicate NoneExpired(j: Joint) {
    forall w | w in j.sys.workers && Processing(j.sys.workers[w].pc) && w in j.held && j.held[w] in j.store.leases ::
      j.store.now < j.store.leases[j.held[w]].until
  }

  predicate NeverExpires(setup: Setup, j: Joint, moves: seq<JointMove>)
    decreases |moves|
  {
    NoneExpired(j) && (moves != [] ==> NeverExpires(setup, JointStep(setup, j, moves[0]), moves[1..]))
  }

  lemma LockedIsAlone(j: Joint, t: TransferId)
    requires JointInv(j) && NoneExpired(j)
    ensures Alone(j.sys, t)
  {
    forall v, w | v in j.sys.workers && w in j.sys.workers
      && j.sys.workers[v].transfer == t && j.sys.workers[w].transfer == t
      && Processing(j.sys.workers[v].pc) && Processing(j.sys.workers[w].pc)
      ensures v == w
    {
      assert LeaseOf(j, v) && LeaseOf(j, w);
      assert Lock.Live(j.store, j.held[v]) && Lock.Live(j.store, j.held[w]);
    }
  }

  /** The pipeline's moves along a joint run. */
  function Trail(setup: Setup, j: Joint, moves: seq<JointMove>): seq<Move>
    decreases |moves|
  {
    if moves == [] then [] else
    (if moves[0].Base? then [Decided(setup, j, moves[0].m, moves[0].token)] else [])
      + Trail(setup, JointStep(setup, j, moves[0]), moves[1..])
  }

  /** A joint run is a run of the pipeline; and if no lease runs out, processing of no transfer ever overlaps in it. */
  lemma {:induction false} JointNeverOverlaps(setup: Setup, j: Joint, moves: seq<JointMove>, t: TransferId)
    requires JointInv(j)
    ensures JointRun(setup, j, moves).sys == Run(setup.pipeline, j.sys, Trail(setup, j, moves))
    ensures NeverExpires(setup, j, moves) ==> NeverOverlaps(setup.pipeline, j.sys, Trail(setup, j, moves), t)
    decreases |moves|
  {
    hide JointInv, Step, Lock.Step, Decided, NoneExpired, Alone;
    if NoneExpired(j) {
      LockedIsAlone(j, t);
    }
    if moves != [] {
      var j' := JointStep(setup, j, moves[0]);
      JointStepKeeps(setup, j, moves[0]);
      JointNeverOverlaps(setup, j', moves[1..], t);
      var trail, rest := Trail(setup, j, moves), Trail(setup, j', moves[1..]);
      if moves[0].Base? {
        assert trail[1..] == rest;
      } else {
        assert trail == rest;
      }
    }
  }

  /**
   What the lock is for: with any number of workers, crashes, expiries after crashes and any signer, if no lease
   runs out while its worker is processing, every transfer has one attempt row and one transaction.
   */
  lemma LockedProcessingSignsOnce(setup: Setup, moves: seq<JointMove>, t: TransferId)
    requires NeverExpires(setup, JointInitial(), moves)
    requires t in JointRun(setup, JointInitial(), moves).sys.records
    ensures OneTransaction(JointRun(setup, JointInitial(), moves).sys.records[t])
  {
    JointNeverOverlaps(setup, JointInitial(), moves, t);
    SerialProcessingSignsOnce(setup.pipeline, Trail(setup, JointInitial(), moves), t);
  }

  // ----- a punctual heartbeat

  /** No worker inside `ProcessTransfer` has gone longer than the heartbeat interval without acquire or refresh. */
  predicate OnTime(setup: Setup, j: Joint) {
    forall w | w in j.sys.workers && Processing(j.sys.workers[w].pc) && w in j.renewed ::
      j.store.now <= j.renewed[w] + Lock.HeartbeatInterval(setup.lockTtl)
  }

  predicate Punctual(setup: Setup, j: Joint, moves: seq<JointMove>)
    decreases |moves|
  {
    OnTime(setup, j) && (moves != [] ==> Punctual(setup, JointStep(setup, j, moves[0]), moves[1..]))
  }

  /** The lease of a processing worker reaches a whole extension beyond its last renewal. */
  predicate Extended(setup: Setup, j: Joint, w: WorkerId)
    requires w in j.held
  {
    && w in j.sys.workers && w in j.renewed && j.held[w] in j.store.leases
    && (Processing(j.sys.workers[w].pc) ==>
          j.store.leases[j.held[w]].until >= j.renewed[w] + Lock.Extension(setup.lockTtl))
  }

  predicate AllExtended(setup: Setup, j: Joint) {
    forall w | w in j.held :: Extended(setup, j, w)
  }

  lemma OnTimeMeansUnexpired(setup: Setup, j: Joint)
    requires JointInv(j) && AllExtended(setup, j) && OnTime(setup, j) && setup.lockTtl >= Lock.MILLISECOND
    ensures NoneExpired(j)
  {
    hide Lock.Extension, Lock.HeartbeatInterval;
    Lock.BeatIsInTime(setup.lockTtl);
    forall w | w in j.sys.workers && Processing(j.sys.workers[w].pc) && w in j.held && j.held[w] in j.store.leases
      ensures j.store.now < j.store.leases[j.held[w]].until
    {
      assert Extended(setup, j, w);
    }
  }

  /** A statement of the store leaves the end of another token's lease alone. */
  lemma UntilStays(store: Lock.Store, m: Lock.Move, token: Token)
    requires token in store.leases && (m.Tick? || m.Acquire? || m.token != token)
    ensures token in Lock.Step(store, m).leases && Lock.Step(store, m).leases[token].until == store.leases[token].until
  {
  }

  lemma BaseKeepsExtended(setup: Setup, j: Joint, m: Move, token: Token)
    requires JointInv(j) && AllExtended(setup, j)
    ensures AllExtended(setup, JointStep(setup, j, Base(m, token)))
  {
    hide Step, Lock.Step, Lock.Inv, Lock.Extension, Lock.Acquires;
    var j' := JointStep(setup, j, Base(m, token));
    JointStepKeeps(setup, j, Base(m, token));
    forall w | w in j'.held ensures Extended(setup, j', w) {
      assert LeaseOf(j', w);
      if Requests(j.sys, m) && Acquired(setup, j, m, token) && w == m.w {
        GrantedIsExtended(setup, j, m, token);
      } else {
        assert LeaseOf(j, w) && Extended(setup, j, w);
        if Requests(j.sys, m) {
          UntilStays(j.store, AcquireOf(setup, j, m, token), j.held[w]);
          RequestEffect(setup.pipeline, j.sys, m.w, Decided(setup, j, m, token).c);
        } else {
          WorkersAfter(setup.pipeline, j.sys, m, w);
          if m.Tick? {
            UntilStays(j.store, Lock.Tick(m.elapsed), j.held[w]);
          }
        }
      }
    }
  }

  lemma GrantedIsExtended(setup: Setup, j: Joint, m: Move, token: Token)
    requires Requests(j.sys, m) && Acquired(setup, j, m, token)
    ensures var j' := JointStep(setup, j, Base(m, token));
            && m.w in j'.held && j'.held[m.w] in j'.store.leases && m.w in j'.renewed
            && j'.store.leases[j'.held[m.w]].until >= j'.renewed[m.w] + Lock.Extension(setup.lockTtl)
  {
    hide Step, Lock.Extension;
    Lock.ExtensionIsLess(setup.lockTtl);
  }

  lemma BeatKeepsExtended(setup: Setup, j: Joint, w: WorkerId)
    requires JointInv(j) && AllExtended(setup, j) && NoneExpired(j) && w in j.held
    ensures AllExtended(setup, JointStep(setup, j, Beat(w)))
  {
    hide Lock.Extension, Lock.Inv;
    var j' := JointStep(setup, j, Beat(w));
    var refresh := Lock.Refresh(j.held[w], setup.lockTtl);
    forall v | v in j'.held ensures Extended(setup, j', v) {
      assert LeaseOf(j, v) && Extended(setup, j, v);
      if v != w {
        UntilStays(j.store, refresh, j.held[v]);
      } else if Processing(j.sys.workers[w].pc) {
        HeldWhileLive(j.store, j.held[w]);
        assert Lock.Refreshes(j.store, refresh);
      }
    }
  }

  lemma HeldWhileLive(store: Lock.Store, token: Token)
    requires Lock.Inv(store) && Lock.Live(store, token)
    ensures Lock.HeldBy(store, store.leases[token].transfer, token)
  {
  }

  lemma UnlockKeepsExtended(setup: Setup, j: Joint, token: Token)
    requires AllExtended(setup, j)
    ensures AllExtended(setup, JointStep(setup, j, Unlock(token)))
  {
    hide Lock.Extension;
    var j' := JointStep(setup, j, Unlock(token));
    forall w | w in j'.held ensures Extended(setup, j', w) {
      assert Extended(setup, j, w);
      if token !in j.held.Values {
        UntilStays(j.store, Lock.Release(token), j.held[w]);
      }
    }
  }

  lemma {:induction false} PunctualNeverExpires(setup: Setup, j: Joint, moves: seq<JointMove>)
    requires JointInv(j) && AllExtended(setup, j) && Punctual(setup, j, moves) && setup.lockTtl >= Lock.MILLISECOND
    ensures NeverExpires(setup, j, moves)
    decreases |moves|
  {
    hide JointInv, AllExtended, NoneExpired, OnTime, JointStep;
    OnTimeMeansUnexpired(setup, j);
    if moves != [] {
      JointStepKeeps(setup, j, moves[0]);
      match moves[0] {
        case Base(m, token) => BaseKeepsExtended(setup, j, m, token);
        case Beat(w) => if w in j.held { BeatKeepsExtended(setup, j, w); } else { IdleBeat(setup, j, w); }
        case Unlock(token) => UnlockKeepsExtended(setup, j, token);
      }
      PunctualNeverExpires(setup, JointStep(setup, j, moves[0]), moves[1..]);
    }
  }

  lemma IdleBeat(setup: Setup, j: Joint, w: WorkerId)
    requires w !in j.held
    ensures JointStep(setup, j, Beat(w)) == j
  {
  }

  /**
   End to end: with a lock ttl of at least a millisecond and a heartbeat that is never late, every transfer has one
   attempt row and one transaction, over any run of any number of workers, crashes and failures, for any signer.
   */
  lemma PunctualHeartbeatSignsOnce(setup: Setup, moves: seq<JointMove>, t: TransferId)
    requires setup.lockTtl >= Lock.MILLISECOND && Punctual(setup, JointInitial(), moves)
    requires t in JointRun(setup, JointInitial(), moves).sys.records
    ensures OneTransaction(JointRun(setup, JointInitial(), moves).sys.records[t])
  {
    PunctualNeverExpires(setup, JointInitial(), moves);
    LockedProcessingSignsOnce(setup, moves, t);
  }
}
