/**
 The whole transfer pipeline as one step system: creation, outbox dispatchers, the job queue and any number
 of consumer workers, over any number of transfers. A run is a sequence of moves; everything that is not
 decided by the code (which process goes next, how a call ends, when a process dies) is part of the move.
 */
module Pipeline {
  import opened Transfers
  import opened Workers

  type WorkerId = nat
  type DispatcherId = nat
  type Records = map<TransferId, TransferRecord>

  datatype Job = Job(transfer: TransferId, retry: nat)

  /** An outbox row as a dispatcher read it when claiming; only the copied counter is used later. */
  datatype Claimed = Claimed(transfer: TransferId, attemptCount: nat)

  /** What a dispatcher is about to do for the first row of its batch. */
  datatype Phase = Publishing | MarkingDispatched | MarkingRetry

  datatype Dispatcher = Dispatcher(todo: seq<Claimed>, phase: Phase)

  datatype Config = Config(policy: RetryPolicy, outboxTimeout: nat)

  /** A worker in `workers` holds its delivery unacknowledged; an idle worker or dispatcher is absent. */
  datatype System = System(
    now: nat,
    records: Records,
    queue: multiset<Job>,
    workers: map<WorkerId, Worker>,
    dispatchers: map<DispatcherId, Dispatcher>)

  datatype Move =
    | Create(key: string, callbackUrl: string, id: TransferId, answer: Answer)
    | Deliver(w: WorkerId, job: Job)
    | Work(w: WorkerId, c: Choice)
    | Crash(w: WorkerId)
    | ClaimRow(d: DispatcherId, t: TransferId)
    | Dispatch(d: DispatcherId, answer: Answer, delay: nat)
    | StopDispatcher(d: DispatcherId)
    | Tick(elapsed: nat)

  function Initial(): System { System(0, map[], multiset{}, map[], map[]) }

  predicate KeyUsed(records: Records, key: string) {
    exists t | t in records :: records[t].key == key
  }

  /** The unique hash index seen from transfer `t`: some other transfer's attempt carries the hash. */
  predicate Clash(records: Records, t: TransferId, hash: string) {
    exists u | u in records :: u != t && HasHash(records[u].attempts, hash)
  }

  /** The hash the worker is about to insert, if it is about to insert one. */
  predicate WorkerClash(s: System, w: Worker) {
    w.pc.Creating? && Clash(s.records, w.transfer, w.pc.signed.hash)
  }

  // ----- steps

  /** The inserts of `Create` are committed: key and id are unused, and the commit takes effect, reported or not. */
  predicate Creates(s: System, m: Move) {
    m.Create? && !KeyUsed(s.records, m.key) && m.id !in s.records && (m.answer == Ok || m.answer.effect)
  }

  function CreateMove(s: System, m: Move): System
    requires m.Create?
  {
    if Creates(s, m) then s.(records := s.records[m.id := NewRecord(m.key, m.callbackUrl, s.now)]) else s
  }

  function Returned(s: System, w: WorkerId): System
    requires w in s.workers
  {
    s.(queue := s.queue + multiset{Job(s.workers[w].transfer, s.workers[w].retry)}, workers := s.workers - {w})
  }

  function Apply(s: System, w: WorkerId, r: StepResult): System
    requires w in s.workers
  {
    var worker := s.workers[w];
    var s1 := s.(
      records := s.records[worker.transfer := r.rec],
      queue := if r.publish then s.queue + multiset{Job(worker.transfer, worker.retry + 1)} else s.queue);
    match r.next
    case Continue(pc) => s1.(workers := s1.workers[w := worker.(pc := pc)])
    case Requeue => Returned(s1, w)
    case Done => s1.(workers := s1.workers - {w})
  }

  predicate CanWork(s: System, w: WorkerId) {
    w in s.workers && s.workers[w].transfer in s.records
  }

  function WorkResult(cfg: Config, s: System, w: WorkerId, c: Choice): StepResult
    requires CanWork(s, w)
  {
    var worker := s.workers[w];
    WorkerStep(s.records[worker.transfer], WorkerClash(s, worker), worker, c, cfg.policy)
  }

  function WorkMove(cfg: Config, s: System, w: WorkerId, c: Choice): System {
    if CanWork(s, w) then Apply(s, w, WorkResult(cfg, s, w, c)) else s
  }

  function DeliverMove(s: System, w: WorkerId, job: Job): System {
    if job in s.queue && w !in s.workers then
      s.(queue := s.queue - multiset{job}, workers := s.workers[w := Worker(job.transfer, job.retry, Locking)])
    else s
  }

  function WithOutbox(s: System, t: TransferId, row: OutboxRow): System
    requires t in s.records
  {
    s.(records := s.records[t := s.records[t].(outbox := row)])
  }

  /** Claiming a batch is a run of these moves at one instant, one per claimed row. */
  function ClaimMove(cfg: Config, s: System, d: DispatcherId, t: TransferId): System {
    if t in s.records && Claimable(s.records[t].outbox, s.now, cfg.outboxTimeout) then
      var row := s.records[t].outbox;
      var disp := if d in s.dispatchers then s.dispatchers[d] else Dispatcher([], Publishing);
      WithOutbox(s, t, ClaimOutbox(row, s.now)).(
        dispatchers := s.dispatchers[d := disp.(todo := disp.todo + [Claimed(t, row.attemptCount)])])
    else s
  }

  function NextRow(s: System, d: DispatcherId): System
    requires d in s.dispatchers && s.dispatchers[d].todo != []
  {
    var rest := s.dispatchers[d].todo[1..];
    s.(dispatchers := if rest == [] then s.dispatchers - {d} else s.dispatchers[d := Dispatcher(rest, Publishing)])
  }

  predicate CanDispatch(s: System, d: DispatcherId) {
    d in s.dispatchers && s.dispatchers[d].todo != [] && s.dispatchers[d].todo[0].transfer in s.records
  }

  function PublishMove(s: System, d: DispatcherId, answer: Answer): System
    requires CanDispatch(s, d)
  {
    var t := s.dispatchers[d].todo[0].transfer;
    var row := s.records[t].outbox;
    var s1 := if answer == Ok || answer.effect
      then WithOutbox(s, t, row.(publishes := row.publishes + 1)).(queue := s.queue + multiset{Job(t, 0)})
      else s;
    var next := s.dispatchers[d].(phase := if answer == Ok then MarkingDispatched else MarkingRetry);
    s1.(dispatchers := s.dispatchers[d := next])
  }

  function MarkMove(s: System, d: DispatcherId, answer: Answer, delay: nat): System
    requires CanDispatch(s, d)
  {
    var head := s.dispatchers[d].todo[0];
    var row := s.records[head.transfer].outbox;
    var marked := if s.dispatchers[d].phase == MarkingDispatched
      then MarkOutboxDispatched(row, head.attemptCount + 1)
      else MarkOutboxRetry(row, head.attemptCount + 1, s.now + delay);
    NextRow(if answer == Ok || answer.effect then WithOutbox(s, head.transfer, marked) else s, d)
  }

  function DispatchMove(s: System, d: DispatcherId, answer: Answer, delay: nat): System {
    if !CanDispatch(s, d) then s
    else if s.dispatchers[d].phase == Publishing then PublishMove(s, d, answer)
    else MarkMove(s, d, answer, delay)
  }

  function Step(cfg: Config, s: System, m: Move): System {
    match m
    case Create(_, _, _, _) => CreateMove(s, m)
    case Deliver(w, job) => DeliverMove(s, w, job)
    case Work(w, c) => WorkMove(cfg, s, w, c)
    case Crash(w) => if w in s.workers then Returned(s, w) else s
    case ClaimRow(d, t) => ClaimMove(cfg, s, d, t)
    case Dispatch(d, answer, delay) => DispatchMove(s, d, answer, delay)
    case StopDispatcher(d) => s.(dispatchers := s.dispatchers - {d})
    case Tick(elapsed) => s.(now := s.now + elapsed)
  }

  function Run(cfg: Config, s: System, moves: seq<Move>): System
    decreases |moves|
  {
    if moves == [] then s else Run(cfg, Step(cfg, s, moves[0]), moves[1..])
  }

  // ----- the invariant

  predicate RecordsInv(records: Records) {
    && (forall t | t in records :: RecordInv(records[t]))
    && (forall t, u | t in records && u in records && t != u :: records[t].key != records[u].key)
  }

  predicate WorkerInv(records: Records, w: Worker) {
    w.transfer in records && PcInv(records[w.transfer], w.pc)
  }

  predicate WorkersInv(records: Records, workers: map<WorkerId, Worker>) {
    forall w | w in workers :: WorkerInv(records, workers[w])
  }

  predicate QueueInv(records: Records, queue: multiset<Job>) {
    forall job | job in queue :: job.transfer in records
  }

  predicate ClaimedInv(records: Records, c: Claimed) {
    c.transfer in records && c.attemptCount < records[c.transfer].outbox.claims
  }

  predicate DispatcherInv(records: Records, d: Dispatcher) {
    && d.todo != []
    && (forall k | 0 <= k < |d.todo| :: ClaimedInv(records, d.todo[k]))
    && (d.phase == MarkingDispatched ==> records[d.todo[0].transfer].outbox.publishes > 0)
  }

  predicate DispatchersInv(records: Records, dispatchers: map<DispatcherId, Dispatcher>) {
    forall d | d in dispatchers :: DispatcherInv(records, dispatchers[d])
  }

  predicate Inv(s: System) {
    && RecordsInv(s.records)
    && WorkersInv(s.records, s.workers)
    && QueueInv(s.records, s.queue)
    && DispatchersInv(s.records, s.dispatchers)
  }

  // ----- records only move forward, and everybody's knowledge survives it

  /** Every record present before is present after and has only evolved. */
  predicate Forward(a: Records, b: Records) {
    forall t | t in a :: t in b && Evolves(a[t], b[t])
  }

  lemma ForwardReflexive(records: Records)
    ensures Forward(records, records)
  {
    forall t | t in records ensures Evolves(records[t], records[t]) {
      EvolvesReflexive(records[t]);
    }
  }

  lemma ForwardReplace(records: Records, t: TransferId, rec: TransferRecord)
    requires t in records ==> Evolves(records[t], rec)
    ensures Forward(records, records[t := rec])
  {
    forall u | u in records ensures Evolves(records[u], records[t := rec][u]) {
      EvolvesReflexive(records[u]);
    }
  }

  lemma Unfolded(rec: TransferRecord)
    requires RecordInv(rec)
    ensures OutboxInv(rec.outbox)
  {
  }

  lemma SameKey(a: TransferRecord, b: TransferRecord)
    requires Evolves(a, b)
    ensures a.key == b.key
  {
  }

  /** Replacing one record by a later version of itself disturbs nothing anybody relies on. */
  lemma ReplaceKeeps(s: System, t: TransferId, rec: TransferRecord)
    requires Inv(s) && t in s.records && RecordInv(rec) && Evolves(s.records[t], rec)
    ensures Inv(s.(records := s.records[t := rec])) && Forward(s.records, s.records[t := rec])
  {
    hide RecordInv, PcInv, Evolves;
    var after := s.records[t := rec];
    ForwardReplace(s.records, t, rec);
    SameKey(s.records[t], rec);
    forall w | w in s.workers ensures WorkerInv(after, s.workers[w]) {
      assert WorkerInv(s.records, s.workers[w]);
      if s.workers[w].transfer == t {
        PcInvStable(s.records[t], rec, s.workers[w].pc);
      }
    }
    ForwardKeepsDispatchers(s.records, after, s.dispatchers);
  }

  lemma ForwardKeepsDispatchers(a: Records, b: Records, dispatchers: map<DispatcherId, Dispatcher>)
    requires DispatchersInv(a, dispatchers) && Forward(a, b)
    ensures DispatchersInv(b, dispatchers)
  {
    forall d | d in dispatchers ensures DispatcherInv(b, dispatchers[d]) {
      var todo := dispatchers[d].todo;
      assert DispatcherInv(a, dispatchers[d]);
      forall k | 0 <= k < |todo| ensures ClaimedInv(b, todo[k]) {
        assert ClaimedInv(a, todo[k]);
      }
      assert ClaimedInv(a, todo[0]);
    }
  }

  lemma WithOutboxKeeps(s: System, t: TransferId, row: OutboxRow)
    requires Inv(s) && t in s.records && OutboxInv(row) && OutboxEvolves(s.records[t].outbox, row)
    ensures Inv(WithOutbox(s, t, row)) && Forward(s.records, WithOutbox(s, t, row).records)
  {
    OutboxKeepsRecord(s.records[t], row);
    ReplaceKeeps(s, t, s.records[t].(outbox := row));
  }

  lemma OutboxKeepsRecord(rec: TransferRecord, row: OutboxRow)
    requires RecordInv(rec) && OutboxInv(row) && OutboxEvolves(rec.outbox, row)
    ensures RecordInv(rec.(outbox := row)) && Evolves(rec, rec.(outbox := row))
  {
  }

  // ----- every move keeps the invariant

  lemma CreateKeeps(s: System, m: Move)
    requires Inv(s) && Creates(s, m)
    ensures Inv(CreateMove(s, m)) && Forward(s.records, CreateMove(s, m).records)
  {
    hide RecordInv, PcInv, Evolves;
    var rec := NewRecord(m.key, m.callbackUrl, s.now);
    var after := s.records[m.id := rec];
    NewRecordInv(m.key, m.callbackUrl, s.now);
    ForwardReplace(s.records, m.id, rec);
    ForwardKeepsDispatchers(s.records, after, s.dispatchers);
    forall w | w in s.workers ensures WorkerInv(after, s.workers[w]) {
      assert WorkerInv(s.records, s.workers[w]);
    }
  }

  lemma ApplyKeeps(s: System, w: WorkerId, r: StepResult)
    requires Inv(s) && w in s.workers
    requires Keeps(s.records[s.workers[w].transfer], r)
    ensures Inv(Apply(s, w, r)) && Forward(s.records, Apply(s, w, r).records)
  {
    hide RecordsInv, DispatchersInv, Forward, RecordInv, PcInv, Evolves;
    var t := s.workers[w].transfer;
    var s1 := s.(records := s.records[t := r.rec]);
    assert WorkerInv(s.records, s.workers[w]);
    ReplaceKeeps(s, t, r.rec);
    var s' := Apply(s, w, r);
    assert s'.records == s1.records && s'.dispatchers == s1.dispatchers;
    forall v | v in s'.workers ensures WorkerInv(s'.records, s'.workers[v]) {
      if v != w {
        assert WorkerInv(s1.records, s1.workers[v]);
      }
    }
    assert QueueInv(s1.records, s1.queue);
  }

  lemma WorkKeeps(cfg: Config, s: System, w: WorkerId, c: Choice)
    requires Inv(s) && CanWork(s, w)
    ensures Inv(WorkMove(cfg, s, w, c)) && Forward(s.records, WorkMove(cfg, s, w, c).records)
  {
    var worker := s.workers[w];
    assert WorkerInv(s.records, worker);
    WorkerStepKeeps(s.records[worker.transfer], WorkerClash(s, worker), worker, c, cfg.policy);
    ApplyKeeps(s, w, WorkResult(cfg, s, w, c));
  }

  /** Changing one dispatcher is sound when the new one is. */
  lemma DispatcherReplaced(s: System, d: DispatcherId, next: Dispatcher)
    requires Inv(s) && DispatcherInv(s.records, next)
    ensures Inv(s.(dispatchers := s.dispatchers[d := next]))
  {
  }

  lemma ClaimKeeps(cfg: Config, s: System, d: DispatcherId, t: TransferId)
    requires Inv(s) && t in s.records && Claimable(s.records[t].outbox, s.now, cfg.outboxTimeout)
    ensures Inv(ClaimMove(cfg, s, d, t)) && Forward(s.records, ClaimMove(cfg, s, d, t).records)
  {
    hide RecordInv, PcInv, Evolves;
    var row := s.records[t].outbox;
    var s1 := WithOutbox(s, t, ClaimOutbox(row, s.now));
    Unfolded(s.records[t]);
    WithOutboxKeeps(s, t, ClaimOutbox(row, s.now));
    var disp := if d in s.dispatchers then s.dispatchers[d] else Dispatcher([], Publishing);
    var next := disp.(todo := disp.todo + [Claimed(t, row.attemptCount)]);
    assert d in s.dispatchers ==> DispatcherInv(s1.records, disp);
    assert DispatcherInv(s1.records, next);
    DispatcherReplaced(s1, d, next);
  }

  lemma PhaseKeeps(s: System, d: DispatcherId, phase: Phase)
    requires Inv(s) && CanDispatch(s, d)
    requires phase == MarkingDispatched ==> s.records[s.dispatchers[d].todo[0].transfer].outbox.publishes > 0
    ensures Inv(s.(dispatchers := s.dispatchers[d := s.dispatchers[d].(phase := phase)]))
  {
    hide RecordsInv, WorkersInv, ClaimedInv;
    assert DispatcherInv(s.records, s.dispatchers[d]);
    DispatcherReplaced(s, d, s.dispatchers[d].(phase := phase));
  }

  lemma QueueKeeps(s: System, job: Job)
    requires Inv(s) && job.transfer in s.records
    ensures Inv(s.(queue := s.queue + multiset{job}))
  {
    hide RecordsInv, WorkersInv, DispatchersInv;
  }

  lemma CountPublish(s: System, t: TransferId)
    requires Inv(s) && t in s.records
    ensures var row := s.records[t].outbox; var s' := WithOutbox(s, t, row.(publishes := row.publishes + 1));
            Inv(s') && Forward(s.records, s'.records)
  {
    hide RecordInv, PcInv, Forward;
    var row := s.records[t].outbox;
    Unfolded(s.records[t]);
    hide Inv;
    WithOutboxKeeps(s, t, row.(publishes := row.publishes + 1));
  }

  lemma PublishKeeps(s: System, d: DispatcherId, answer: Answer)
    requires Inv(s) && CanDispatch(s, d)
    ensures Inv(PublishMove(s, d, answer)) && Forward(s.records, PublishMove(s, d, answer).records)
  {
    hide Inv, Forward;
    var t := s.dispatchers[d].todo[0].transfer;
    var s1 := s;
    if answer == Ok || answer.effect {
      CountPublish(s, t);
      s1 := WithOutbox(s, t, s.records[t].outbox.(publishes := s.records[t].outbox.publishes + 1));
      QueueKeeps(s1, Job(t, 0));
      s1 := s1.(queue := s1.queue + multiset{Job(t, 0)});
    } else {
      ForwardReflexive(s.records);
    }
    PhaseKeeps(s1, d, if answer == Ok then MarkingDispatched else MarkingRetry);
  }

  lemma MarkedInv(row: OutboxRow, phase: Phase, attemptCount: nat, availableAt: nat)
    requires OutboxInv(row)
    requires attemptCount <= row.claims
    requires phase == MarkingDispatched ==> row.publishes > 0
    ensures var marked := if phase == MarkingDispatched then MarkOutboxDispatched(row, attemptCount)
                          else MarkOutboxRetry(row, attemptCount, availableAt);
            OutboxInv(marked) && OutboxEvolves(row, marked)
  {
  }

  lemma NextRowKeeps(s: System, d: DispatcherId)
    requires Inv(s) && d in s.dispatchers && s.dispatchers[d].todo != []
    ensures Inv(NextRow(s, d))
  {
    var rest := s.dispatchers[d].todo[1..];
    assert DispatcherInv(s.records, s.dispatchers[d]);
    if rest != [] {
      assert DispatcherInv(s.records, Dispatcher(rest, Publishing));
      DispatcherReplaced(s, d, Dispatcher(rest, Publishing));
    }
  }

  lemma MarkLands(s: System, d: DispatcherId, marked: OutboxRow)
    requires Inv(s) && CanDispatch(s, d)
    requires var t := s.dispatchers[d].todo[0].transfer; OutboxInv(marked) && OutboxEvolves(s.records[t].outbox, marked)
    ensures var s' := NextRow(WithOutbox(s, s.dispatchers[d].todo[0].transfer, marked), d);
            Inv(s') && Forward(s.records, s'.records)
  {
    hide Inv, Forward, OutboxInv, OutboxEvolves;
    var t := s.dispatchers[d].todo[0].transfer;
    WithOutboxKeeps(s, t, marked);
    NextRowKeeps(WithOutbox(s, t, marked), d);
  }

  lemma ClaimIsCounted(s: System, d: DispatcherId)
    requires Inv(s) && CanDispatch(s, d)
    ensures var disp := s.dispatchers[d]; var row := s.records[disp.todo[0].transfer].outbox;
            && disp.todo[0].attemptCount < row.claims
            && (disp.phase == MarkingDispatched ==> row.publishes > 0)
            && OutboxInv(row)
  {
    hide RecordInv;
    var disp := s.dispatchers[d];
    assert DispatcherInv(s.records, disp);
    assert ClaimedInv(s.records, disp.todo[0]);
    Unfolded(s.records[disp.todo[0].transfer]);
  }

  lemma MarkKeeps(s: System, d: DispatcherId, answer: Answer, delay: nat)
    requires Inv(s) && CanDispatch(s, d) && s.dispatchers[d].phase != Publishing
    ensures Inv(MarkMove(s, d, answer, delay)) && Forward(s.records, MarkMove(s, d, answer, delay).records)
  {
    hide Inv, Forward, MarkOutboxDispatched, MarkOutboxRetry, OutboxInv, OutboxEvolves;
    var disp := s.dispatchers[d];
    var head := disp.todo[0];
    var row := s.records[head.transfer].outbox;
    ClaimIsCounted(s, d);
    if answer == Ok || answer.effect {
      MarkedInv(row, disp.phase, head.attemptCount + 1, s.now + delay);
      MarkLands(s, d, if disp.phase == MarkingDispatched
        then MarkOutboxDispatched(row, head.attemptCount + 1)
        else MarkOutboxRetry(row, head.attemptCount + 1, s.now + delay));
    } else {
      ForwardReflexive(s.records);
      NextRowKeeps(s, d);
    }
  }

  lemma DeliverKeeps(s: System, w: WorkerId, job: Job)
    requires Inv(s)
    ensures Inv(DeliverMove(s, w, job))
  {
  }

  lemma CrashKeeps(s: System, w: WorkerId)
    requires Inv(s) && w in s.workers
    ensures Inv(Returned(s, w))
  {
    assert WorkerInv(s.records, s.workers[w]);
  }

  lemma StopKeeps(s: System, d: DispatcherId, elapsed: nat)
    requires Inv(s)
    ensures Inv(s.(dispatchers := s.dispatchers - {d})) && Inv(s.(now := s.now + elapsed))
  {
    hide RecordsInv, WorkersInv, DispatcherInv;
  }

  /** One move, whatever it is, keeps the invariant and takes no committed fact back. */
  lemma StepKeeps(cfg: Config, s: System, m: Move)
    requires Inv(s)
    ensures Inv(Step(cfg, s, m)) && Forward(s.records, Step(cfg, s, m).records)
  {
    hide Inv, Forward, Creates, Claimable, PublishMove, MarkMove, Apply;
    ForwardReflexive(s.records);
    match m {
      case Create(_, _, _, _) => if Creates(s, m) { CreateKeeps(s, m); }
      case Deliver(w, job) => DeliverKeeps(s, w, job);
      case Work(w, c) => if CanWork(s, w) { WorkKeeps(cfg, s, w, c); }
      case Crash(w) => if w in s.workers { CrashKeeps(s, w); }
      case ClaimRow(d, t) =>
        if t in s.records && Claimable(s.records[t].outbox, s.now, cfg.outboxTimeout) { ClaimKeeps(cfg, s, d, t); }
      case Dispatch(d, answer, delay) =>
        if CanDispatch(s, d) {
          if s.dispatchers[d].phase == Publishing {
            PublishKeeps(s, d, answer);
          } else {
            MarkKeeps(s, d, answer, delay);
          }
        }
      case StopDispatcher(d) => StopKeeps(s, d, 0);
      case Tick(elapsed) => StopKeeps(s, 0, elapsed);
    }
  }

  /** Over any run, the invariant holds at the end and no committed fact is ever taken back. */
  lemma {:induction false} RunKeeps(cfg: Config, s: System, moves: seq<Move>)
    requires Inv(s)
    ensures Inv(Run(cfg, s, moves)) && Forward(s.records, Run(cfg, s, moves).records)
    decreases |moves|
  {
    hide RecordInv, PcInv, Evolves;
    if moves == [] {
      ForwardReflexive(s.records);
    } else {
      var s1 := Step(cfg, s, moves[0]);
      StepKeeps(cfg, s, moves[0]);
      RunKeeps(cfg, s1, moves[1..]);
      var s' := Run(cfg, s1, moves[1..]);
      forall t | t in s.records ensures t in s'.records && Evolves(s.records[t], s'.records[t]) {
        EvolvesTransitive(s.records[t], s1.records[t], s'.records[t]);
      }
    }
  }

  lemma InitialInv()
    ensures Inv(Initial())
  {
  }

  lemma {:induction false} RunAppend(cfg: Config, s: System, a: seq<Move>, b: seq<Move>)
    ensures Run(cfg, s, a + b) == Run(cfg, Run(cfg, s, a), b)
    decreases |a|
  {
    if a == [] {
      assert a + b == b;
    } else {
      assert (a + b)[1..] == a[1..] + b;
      RunAppend(cfg, Step(cfg, s, a[0]), a[1..], b);
    }
  }
}
