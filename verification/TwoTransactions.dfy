/**
 The conditions under which a transfer is signed once are needed. In a run of the pipeline with the lock store, a lease
 runs out while its worker is at the signer; a second worker gets the lock, and with a signer that answers differently
 two transactions are signed and accepted.
 */
module TwoTransactions {
  import opened Transfers
  import opened Workers
  import opened Pipeline
  import opened Guarantees
  import opened SingleAttempt
  import opened LockedPipeline
  import Lock = ProcessingLock

  ghost predicate Reachable(setup: Setup, j: Joint) {
    exists moves :: JointRun(setup, JointInitial(), moves) == j
  }

  lemma {:induction false} RunOneMore(setup: Setup, j: Joint, moves: seq<JointMove>, m: JointMove)
    ensures JointRun(setup, j, moves + [m]) == JointStep(setup, JointRun(setup, j, moves), m)
    decreases |moves|
  {
    hide JointStep;
    if moves == [] {
      assert [m][1..] == [];
    } else {
      assert (moves + [m])[1..] == moves[1..] + [m];
      RunOneMore(setup, JointStep(setup, j, moves[0]), moves[1..], m);
    }
  }

  lemma ReachNext(setup: Setup, j: Joint, m: JointMove)
    requires Reachable(setup, j)
    ensures Reachable(setup, JointStep(setup, j, m))
  {
    hide JointStep, JointRun;
    var moves :| JointRun(setup, JointInitial(), moves) == j;
    RunOneMore(setup, JointInitial(), moves, m);
    assert JointRun(setup, JointInitial(), moves + [m]) == JointStep(setup, j, m);
  }

  // ----- two jobs for one transfer

  /** Reachable before anybody has asked for the lock. */
  ghost predicate Unlocked(setup: Setup, s: System) {
    Reachable(setup, Joint(s, Lock.Empty(), map[], map[]))
  }

  lemma UnlockedNext(setup: Setup, s: System, m: Move)
    requires Unlocked(setup, s) && !m.Work? && !m.Tick?
    ensures Unlocked(setup, Step(setup.pipeline, s, m))
  {
    hide Step, Reachable;
    var j := Joint(s, Lock.Empty(), map[], map[]);
    ReachNext(setup, j, Base(m, 0));
    assert HeldAfter(setup, j, m, 0, Step(setup.pipeline, s, m).workers) == map[];
  }

  /** A system holding only transfer 0, worked on by workers 0 and 1. */
  function Duo(s: System, rec: TransferRecord, pc0: Pc, pc1: Pc): System {
    s.(records := map[0 := rec], workers := map[0 := Worker(0, 0, pc0), 1 := Worker(0, 0, pc1)])
  }

  /** A publish that reports an error although it took effect leaves the transfer with two jobs. */
  lemma TwoJobsReachable(setup: Setup) returns (s: System, rec: TransferRecord)
    ensures rec.status == Created && rec.txHash == "" && rec.attempts == [] && rec.broadcasts == []
    ensures Unlocked(setup, Duo(s, rec, Locking, Locking)) && s.now == 0
  {
    hide Reachable;
    var cfg := setup.pipeline;
    StartIsReachable(setup);
    var s1 := Step(cfg, Initial(), Create("key", "", 0, Ok));
    UnlockedNext(setup, Initial(), Create("key", "", 0, Ok));
    assert s1 == System(0, map[0 := NewRecord("key", "", 0)], multiset{}, map[], map[]);
    var s2 := PublishedTwice(setup, s1);
    s, rec := BothDelivered(setup, s2);
  }

  lemma StartIsReachable(setup: Setup)
    ensures Unlocked(setup, Initial())
  {
    assert JointRun(setup, JointInitial(), []) == JointInitial();
  }

  lemma PublishedTwice(setup: Setup, s1: System) returns (s: System)
    requires s1 == System(0, map[0 := NewRecord("key", "", 0)], multiset{}, map[], map[])
    requires Unlocked(setup, s1)
    ensures Unlocked(setup, s) && s.now == 0
    ensures s.queue == multiset{Job(0, 0), Job(0, 0)} && s.workers == map[] && s.records.Keys == {0}
    ensures s.records[0] == s1.records[0].(outbox := s.records[0].outbox)
  {
    hide Unlocked;
    var cfg := setup.pipeline;
    var s2 := Step(cfg, s1, ClaimRow(0, 0));
    var s3 := Step(cfg, s2, Dispatch(0, Err(Other, true), 0));
    var s4 := Step(cfg, s3, Dispatch(0, Ok, 0));
    UnlockedNext(setup, s1, ClaimRow(0, 0));
    UnlockedNext(setup, s2, Dispatch(0, Err(Other, true), 0));
    UnlockedNext(setup, s3, Dispatch(0, Ok, 0));
    assert s4.queue == multiset{Job(0, 0)} && s4.workers == map[] && s4.records.Keys == {0} && s4.dispatchers == map[];
    assert s4.records[0].outbox.status == OutboxRetry && s4.records[0].outbox.availableAt == 0 && s4.now == 0;
    s := PublishedAgain(setup, s4);
  }

  lemma PublishedAgain(setup: Setup, s4: System) returns (s: System)
    requires s4.queue == multiset{Job(0, 0)} && s4.workers == map[] && s4.records.Keys == {0} && s4.dispatchers == map[]
    requires s4.records[0].outbox.status == OutboxRetry && s4.records[0].outbox.availableAt == 0 && s4.now == 0
    requires Unlocked(setup, s4)
    ensures Unlocked(setup, s) && s.now == 0
    ensures s.queue == multiset{Job(0, 0), Job(0, 0)} && s.workers == map[] && s.records.Keys == {0}
    ensures s.records[0] == s4.records[0].(outbox := s.records[0].outbox)
  {
    hide Unlocked;
    var cfg := setup.pipeline;
    var s5 := Step(cfg, s4, ClaimRow(0, 0));
    s := Step(cfg, s5, Dispatch(0, Ok, 0));
    UnlockedNext(setup, s4, ClaimRow(0, 0));
    UnlockedNext(setup, s5, Dispatch(0, Ok, 0));
  }

  lemma BothDelivered(setup: Setup, s6: System) returns (s: System, rec: TransferRecord)
    requires s6.queue == multiset{Job(0, 0), Job(0, 0)} && s6.workers == map[] && s6.records.Keys == {0}
    requires Unlocked(setup, s6)
    ensures Unlocked(setup, Duo(s, rec, Locking, Locking)) && s.now == s6.now && rec == s6.records[0]
  {
    hide Unlocked;
    var cfg := setup.pipeline;
    var s7 := Step(cfg, s6, Deliver(0, Job(0, 0)));
    assert s7.queue == multiset{Job(0, 0)};
    s := Step(cfg, s7, Deliver(1, Job(0, 0)));
    rec := s.records[0];
    assert s == Duo(s, rec, Locking, Locking);
    UnlockedNext(setup, s6, Deliver(0, Job(0, 0)));
    UnlockedNext(setup, s7, Deliver(1, Job(0, 0)));
  }

  // ----- two workers, one after the other under the lock

  /** What the lock store and the workers know. */
  datatype Locks = Locks(store: Lock.Store, held: map<WorkerId, Token>, renewed: map<WorkerId, nat>)

  function Locked(s: System, l: Locks): Joint { Joint(s, l.store, l.held, l.renewed) }

  predicate ByTwo(l: Locks) { l.held.Keys <= {0, 1} }

  /** A step of worker 0 or 1, past its lock request, that leads to `rec'` and `pc'`. */
  lemma First(
    setup: Setup, s: System, l: Locks, rec: TransferRecord, pc0: Pc, pc1: Pc, c: Choice, rec': TransferRecord, pc': Pc)
    requires Reachable(setup, Locked(Duo(s, rec, pc0, pc1), l)) && ByTwo(l) && pc0 != Locking
    requires WorkerStep(rec, false, Worker(0, 0, pc0), c, setup.pipeline.policy) == Go(rec', pc')
    ensures Reachable(setup, Locked(Duo(s, rec', pc', pc1), l))
  {
    hide WorkerStep, Reachable;
    var d, d' := Duo(s, rec, pc0, pc1), Duo(s, rec', pc', pc1);
    assert !WorkerClash(d, d.workers[0]);
    assert d.records[0 := rec'] == map[0 := rec'];
    assert d.workers[0 := Worker(0, 0, pc')] == map[0 := Worker(0, 0, pc'), 1 := Worker(0, 0, pc1)];
    assert Step(setup.pipeline, d, Work(0, c)) == d';
    StaysLocked(setup, d, d', l, Work(0, c));
  }

  lemma Second(
    setup: Setup, s: System, l: Locks, rec: TransferRecord, pc0: Pc, pc1: Pc, c: Choice, rec': TransferRecord, pc': Pc)
    requires Reachable(setup, Locked(Duo(s, rec, pc0, pc1), l)) && ByTwo(l) && pc1 != Locking
    requires WorkerStep(rec, false, Worker(0, 0, pc1), c, setup.pipeline.policy) == Go(rec', pc')
    ensures Reachable(setup, Locked(Duo(s, rec', pc0, pc'), l))
  {
    hide WorkerStep, Reachable;
    var d, d' := Duo(s, rec, pc0, pc1), Duo(s, rec', pc0, pc');
    assert !WorkerClash(d, d.workers[1]);
    assert d.records[0 := rec'] == map[0 := rec'];
    assert d.workers[1 := Worker(0, 0, pc')] == map[0 := Worker(0, 0, pc0), 1 := Worker(0, 0, pc')];
    assert Step(setup.pipeline, d, Work(1, c)) == d';
    StaysLocked(setup, d, d', l, Work(1, c));
  }

  /** A pipeline move that is neither a lock request nor a tick leaves the locks alone. */
  lemma StaysLocked(setup: Setup, d: System, d': System, l: Locks, m: Move)
    requires Reachable(setup, Locked(d, l)) && ByTwo(l) && !Requests(d, m) && !m.Tick?
    requires Step(setup.pipeline, d, m) == d' && d'.workers.Keys == {0, 1}
    ensures Reachable(setup, Locked(d', l))
  {
    hide Reachable, Step;
    var j := Locked(d, l);
    ReachNext(setup, j, Base(m, 0));
    assert HeldAfter(setup, j, m, 0, d'.workers) == l.held;
  }

  /** The locks after a granted request of worker `w`. */
  function Granted(setup: Setup, l: Locks, w: WorkerId, token: Token): Locks {
    Locks(Lock.Step(l.store, Lock.Acquire(token, 0, setup.lockTtl)), l.held[w := token], l.renewed[w := l.store.now])
  }

  lemma FirstGetsLock(setup: Setup, s: System, l: Locks, rec: TransferRecord, pc1: Pc, token: Token)
    requires Reachable(setup, Locked(Duo(s, rec, Locking, pc1), l))
    requires Lock.Acquires(l.store, Lock.Acquire(token, 0, setup.lockTtl))
    ensures Reachable(setup, Locked(Duo(s, rec, Loading, pc1), Granted(setup, l, 0, token)))
  {
    hide Reachable, Lock.Step, Lock.Acquires;
    var d, c := Duo(s, rec, Locking, pc1), Calling("");
    assert d.records[0 := rec] == map[0 := rec];
    assert d.workers[0 := Worker(0, 0, Loading)] == map[0 := Worker(0, 0, Loading), 1 := Worker(0, 0, pc1)];
    assert Step(setup.pipeline, d, Work(0, c)) == Duo(s, rec, Loading, pc1);
    ReachNext(setup, Locked(d, l), Base(Work(0, c), token));
  }

  lemma SecondGetsLock(setup: Setup, s: System, l: Locks, rec: TransferRecord, pc0: Pc, token: Token)
    requires Reachable(setup, Locked(Duo(s, rec, pc0, Locking), l))
    requires Lock.Acquires(l.store, Lock.Acquire(token, 0, setup.lockTtl))
    ensures Reachable(setup, Locked(Duo(s, rec, pc0, Loading), Granted(setup, l, 1, token)))
  {
    hide Reachable, Lock.Step, Lock.Acquires;
    var d, c := Duo(s, rec, pc0, Locking), Calling("");
    assert d.records[0 := rec] == map[0 := rec];
    assert d.workers[1 := Worker(0, 0, Loading)] == map[0 := Worker(0, 0, pc0), 1 := Worker(0, 0, Loading)];
    assert Step(setup.pipeline, d, Work(1, c)) == Duo(s, rec, pc0, Loading);
    ReachNext(setup, Locked(d, l), Base(Work(1, c), token));
  }

  /** Time passes for both. */
  lemma TimePasses(setup: Setup, s: System, l: Locks, rec: TransferRecord, pc0: Pc, pc1: Pc, elapsed: nat)
    requires Reachable(setup, Locked(Duo(s, rec, pc0, pc1), l)) && ByTwo(l)
    ensures var later := l.(store := l.store.(now := l.store.now + elapsed));
            Reachable(setup, Locked(Duo(s.(now := s.now + elapsed), rec, pc0, pc1), later))
  {
    hide Reachable;
    var d := Duo(s, rec, pc0, pc1);
    ReachNext(setup, Locked(d, l), Base(Tick(elapsed), 0));
    assert HeldAfter(setup, Locked(d, l), Tick(elapsed), 0, d.workers) == l.held;
  }

  function Calling(hash: string): Choice { Choice(Ok, SignedTransfer(hash, hash), false) }

  function Moved(rec: TransferRecord): TransferRecord
    requires Working(rec.status)
  {
    TransitionStatus(rec, rec.status, NextStatus(rec.status), None).value
  }

  /** Worker 0 takes the lock, advances the transfer to SIGNING, finds no attempt and turns to the signer. */
  lemma FirstReachesSigner(setup: Setup) returns (s: System, l: Locks, rec: TransferRecord)
    ensures rec.status == Signing && rec.attempts == [] && rec.broadcasts == []
    ensures l == Granted(setup, Locks(Lock.Empty(), map[], map[]), 0, 0)
    ensures Reachable(setup, Locked(Duo(s, rec, CallingSigner(ViewOf(rec)), Locking), l))
  {
    hide Reachable;
    var c := Calling("");
    var rec0: TransferRecord;
    s, rec0 := TwoJobsReachable(setup);
    var none := Locks(Lock.Empty(), map[], map[]);
    assert Lock.Acquires(Lock.Empty(), Lock.Acquire(0, 0, setup.lockTtl));
    FirstGetsLock(setup, s, none, rec0, Locking, 0);
    l := Granted(setup, none, 0, 0);
    var rec1 := Moved(rec0);
    var rec2 := Moved(rec1);
    rec := Moved(rec2);
    First(setup, s, l, rec0, Loading, Locking, c, rec0, Advancing(ViewOf(rec0)));
    First(setup, s, l, rec0, Advancing(ViewOf(rec0)), Locking, c, rec1, Advancing(ViewOf(rec1)));
    First(setup, s, l, rec1, Advancing(ViewOf(rec1)), Locking, c, rec2, Advancing(ViewOf(rec2)));
    First(setup, s, l, rec2, Advancing(ViewOf(rec2)), Locking, c, rec, ReadingLatest(ViewOf(rec), false));
    First(setup, s, l, rec, ReadingLatest(ViewOf(rec), false), Locking, c, rec, CallingSigner(ViewOf(rec)));
  }

  /** The first lease runs out meanwhile; worker 1 gets the lock and turns to the signer as well. */
  lemma BothReachSigner(setup: Setup) returns (s: System, l: Locks, rec: TransferRecord)
    ensures rec.status == Signing && rec.attempts == [] && rec.broadcasts == [] && ByTwo(l)
    ensures Reachable(setup, Locked(Duo(s, rec, CallingSigner(ViewOf(rec)), CallingSigner(ViewOf(rec))), l))
  {
    hide Reachable;
    var c := Calling("");
    var s0, l0, rec0 := FirstReachesSigner(setup);
    var v := ViewOf(rec0);
    var life := Lock.Effective(setup.lockTtl);
    rec := rec0;
    TimePasses(setup, s0, l0, rec, CallingSigner(v), Locking, life);
    s := s0.(now := s0.now + life);
    var l1 := l0.(store := l0.store.(now := l0.store.now + life));
    assert Lock.Acquires(l1.store, Lock.Acquire(1, 0, setup.lockTtl));
    SecondGetsLock(setup, s, l1, rec, CallingSigner(v), 1);
    l := Granted(setup, l1, 1, 1);
    Second(setup, s, l, rec, CallingSigner(v), Loading, c, rec, ReadingLatest(v, false));
    Second(setup, s, l, rec, CallingSigner(v), ReadingLatest(v, false), c, rec, CallingSigner(v));
  }

  function Row(hash: string, status: AttemptStatus): Attempt { Attempt(hash, hash, status) }

  /** Two attempts of transfer 0, both broadcast and accepted. */
  predicate SignedTwice(s: System) {
    && 0 in s.records
    && s.records[0].attempts == [Row("0x1", Broadcasted), Row("0x2", Broadcasting)]
    && s.records[0].broadcasts == [Broadcast(0, "0x1", "0x1", true), Broadcast(1, "0x2", "0x2", true)]
  }

  lemma SecondTransaction(setup: Setup, s: System, l: Locks, rec: TransferRecord) returns (final: Joint)
    requires rec.status == Signing && rec.attempts == [] && rec.broadcasts == [] && ByTwo(l)
    requires Reachable(setup, Locked(Duo(s, rec, CallingSigner(ViewOf(rec)), CallingSigner(ViewOf(rec))), l))
    ensures Reachable(setup, final) && SignedTwice(final.sys)
  {
    hide Reachable;
    var v := ViewOf(rec);
    var other := CallingSigner(v);
    var c1 := Calling("0x1");
    var a1 := rec.(attempts := [Row("0x1", SignedOnly)]);
    First(setup, s, l, rec, CallingSigner(v), other, c1, rec, Creating(v, c1.signed));
    First(setup, s, l, rec, Creating(v, c1.signed), other, c1, a1, Claiming(v, 0, Row("0x1", SignedOnly)));
    var a2 := rec.(attempts := [Row("0x1", Broadcasting)]);
    var calling := CallingBroadcaster(v, 0, Row("0x1", Broadcasting));
    First(setup, s, l, a1, Claiming(v, 0, Row("0x1", SignedOnly)), other, c1, a2, calling);
    var a3 := a2.(broadcasts := [Broadcast(0, "0x1", "0x1", true)]);
    First(setup, s, l, a2, calling, other, c1, a3, Confirming(v, 0, Row("0x1", Broadcasting)));
    var a4 := a3.(attempts := [Row("0x1", Broadcasted)]);
    var sub := Submitting(v, 0, Row("0x1", Broadcasted));
    First(setup, s, l, a3, Confirming(v, 0, Row("0x1", Broadcasting)), other, c1, a4, sub);
    final := LateSigner(setup, s, l, a4, v, sub);
  }

  lemma LateSigner(setup: Setup, s: System, l: Locks, a4: TransferRecord, v: View, sub: Pc) returns (final: Joint)
    requires a4.attempts == [Row("0x1", Broadcasted)] && a4.broadcasts == [Broadcast(0, "0x1", "0x1", true)]
    requires Reachable(setup, Locked(Duo(s, a4, sub, CallingSigner(v)), l)) && ByTwo(l)
    ensures Reachable(setup, final) && SignedTwice(final.sys)
  {
    hide Reachable;
    var c2 := Calling("0x2");
    Second(setup, s, l, a4, sub, CallingSigner(v), c2, a4, Creating(v, c2.signed));
    var a5 := a4.(attempts := [Row("0x1", Broadcasted), Row("0x2", SignedOnly)]);
    Second(setup, s, l, a4, sub, Creating(v, c2.signed), c2, a5, Claiming(v, 1, Row("0x2", SignedOnly)));
    var a6 := a4.(attempts := [Row("0x1", Broadcasted), Row("0x2", Broadcasting)]);
    var calling := CallingBroadcaster(v, 1, Row("0x2", Broadcasting));
    Second(setup, s, l, a5, sub, Claiming(v, 1, Row("0x2", SignedOnly)), c2, a6, calling);
    var a7 := a6.(broadcasts := [Broadcast(0, "0x1", "0x1", true), Broadcast(1, "0x2", "0x2", true)]);
    Second(setup, s, l, a6, sub, calling, c2, a7, Confirming(v, 1, Row("0x2", Broadcasting)));
    final := Locked(Duo(s, a7, sub, Confirming(v, 1, Row("0x2", Broadcasting))), l);
  }

  /**
   The lock alone is not enough: for every ttl there is a run in which a lease runs out during processing and two
   transactions are signed and accepted. So the condition that no lease runs out cannot be dropped.
   */
  lemma ExpiredLeaseSignsTwice(setup: Setup)
    ensures exists moves ::
              SignedTwice(JointRun(setup, JointInitial(), moves).sys) && !NeverExpires(setup, JointInitial(), moves)
  {
    var s, l, rec := BothReachSigner(setup);
    var final := SecondTransaction(setup, s, l, rec);
    var moves :| JointRun(setup, JointInitial(), moves) == final;
    if NeverExpires(setup, JointInitial(), moves) {
      LockedProcessingSignsOnce(setup, moves, 0);
    }
    assert SignedTwice(JointRun(setup, JointInitial(), moves).sys) && !NeverExpires(setup, JointInitial(), moves);
  }

  /**
   Overlap and a signer that answers differently are together enough for two transactions: the active-attempt
   index no longer covers the first attempt once it is BROADCASTED, so the second worker's insert goes through.
   */
  lemma OverlapCanSignTwice(cfg: Config)
    ensures exists moves :: SignedTwice(After(cfg, moves))
  {
    hide NeverExpires, SignedTwice;
    var setup := Setup(cfg, 1);
    ExpiredLeaseSignsTwice(setup);
    var moves :| SignedTwice(JointRun(setup, JointInitial(), moves).sys);
    JointNeverOverlaps(setup, JointInitial(), moves, 0);
    assert After(cfg, Trail(setup, JointInitial(), moves)) == JointRun(setup, JointInitial(), moves).sys;
  }
}
