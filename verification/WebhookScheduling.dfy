/**
 Webhook scheduling on top of the transfer pipeline. One world holds both; a run interleaves pipeline moves,
 scheduling passes and webhook sender moves in any order.
 */
module WebhookScheduling {
  import opened Transfers
  import Workers
  import Pipeline
  import opened Webhooks

  datatype Config = Config(pipeline: Pipeline.Config, leaseDuration: Positive)

  datatype World = World(sys: Pipeline.System, hooks: Hooks)

  datatype WorldMove = Core(m: Pipeline.Move) | Hook(h: Webhooks.Move) | Schedule(maxAttempts: Positive)

  /** The rows the scheduling query selects. */
  predicate EligibleRow(rec: TransferRecord, index: nat) {
    && index < |rec.history|
    && (rec.history[index].to == Submitted || rec.history[index].to == Confirmed || rec.history[index].to == Failed)
    && rec.callbackUrl != ""
  }

  function Eligible(records: Pipeline.Records): set<HistoryRef> {
    set t, i | t in records && 0 <= i < |records[t].history| && EligibleRow(records[t], i) :: HistoryRef(t, i)
  }

  lemma EligibleMeans(records: Pipeline.Records, ref: HistoryRef)
    ensures ref in Eligible(records) <==> ref.transfer in records && EligibleRow(records[ref.transfer], ref.index)
  {
  }

  function NewRows(records: Pipeline.Records, rows: Deliveries, maxAttempts: nat, now: nat): Deliveries {
    map ref | ref in Eligible(records) && ref !in rows ::
      NewDelivery(records[ref.transfer].history[ref.index].to, records[ref.transfer].txHash, maxAttempts, now)
  }

  /** `INSERT ... SELECT ... ON CONFLICT DO NOTHING`. */
  function ScheduleMove(world: World, maxAttempts: Positive): World {
    var added := NewRows(world.sys.records, world.hooks.rows, maxAttempts, world.hooks.now);
    world.(hooks := world.hooks.(rows := world.hooks.rows + added))
  }

  function Step(cfg: Config, world: World, m: WorldMove): World {
    match m
    case Core(c) => world.(sys := Pipeline.Step(cfg.pipeline, world.sys, c))
    case Hook(h) => world.(hooks := Webhooks.Step(cfg.leaseDuration, world.hooks, h))
    case Schedule(maxAttempts) => ScheduleMove(world, maxAttempts)
  }

  function Run(cfg: Config, world: World, moves: seq<WorldMove>): World
    decreases |moves|
  {
    if moves == [] then world else Run(cfg, Step(cfg, world, moves[0]), moves[1..])
  }

  function Initial(): World { World(Pipeline.Initial(), Hooks(0, map[], map[])) }

  function After(cfg: Config, moves: seq<WorldMove>): World { Run(cfg, Initial(), moves) }

  // ----- the invariant

  /** A delivery stands for an eligible history row; a SUBMITTED one carries the transfer's broadcasted hash. */
  predicate Linked(records: Pipeline.Records, ref: HistoryRef, d: Delivery) {
    && ref.transfer in records
    && var rec := records[ref.transfer];
    && EligibleRow(rec, ref.index)
    && d.transferStatus == rec.history[ref.index].to
    && (d.transferStatus == Submitted ==>
          d.txHash != "" && d.txHash == rec.txHash && IsBroadcastedHash(rec.attempts, d.txHash))
  }

  predicate AllLinked(records: Pipeline.Records, rows: Deliveries) {
    forall ref | ref in rows :: Linked(records, ref, rows[ref])
  }

  predicate Inv(cfg: Config, world: World) {
    && Pipeline.Inv(world.sys)
    && Webhooks.Inv(cfg.leaseDuration, world.hooks)
    && AllLinked(world.sys.records, world.hooks.rows)
  }

  lemma BroadcastedHashStays(a: TransferRecord, b: TransferRecord, hash: string)
    requires IsBroadcastedHash(a.attempts, hash) && Evolves(a, b)
    ensures IsBroadcastedHash(b.attempts, hash)
  {
    var i :| 0 <= i < |a.attempts| && a.attempts[i].status == Broadcasted && a.attempts[i].hash == hash;
    assert AttemptEvolves(a.attempts[i], b.attempts[i]);
  }

  lemma LinkStable(records: Pipeline.Records, later: Pipeline.Records, ref: HistoryRef, d: Delivery)
    requires Linked(records, ref, d) && Pipeline.Forward(records, later)
    ensures Linked(later, ref, d)
  {
    var a, b := records[ref.transfer], later[ref.transfer];
    assert b.history[ref.index] == a.history[ref.index];
    if d.transferStatus == Submitted {
      BroadcastedHashStays(a, b, d.txHash);
    }
  }

  lemma NewRowLinked(records: Pipeline.Records, ref: HistoryRef, maxAttempts: Positive, now: nat)
    requires Pipeline.RecordsInv(records) && ref in Eligible(records)
    ensures var rec := records[ref.transfer];
            Linked(records, ref, NewDelivery(rec.history[ref.index].to, rec.txHash, maxAttempts, now))
  {
    var rec := records[ref.transfer];
    assert RecordInv(rec);
    if rec.history[ref.index].to == Submitted {
      assert Passed(rec.history, Submitted);
    }
  }

  lemma NewDeliveryInv(leaseDuration: Positive, status: Status, hash: string, maxAttempts: Positive, now: nat)
    ensures RowInv(leaseDuration, now, NewDelivery(status, hash, maxAttempts, now))
  {
  }

  lemma SendersKeptByInsert(
    leaseDuration: Positive, rows: Deliveries, added: Deliveries, senders: map<SenderId, Sender>)
    requires SendersInv(leaseDuration, rows, senders) && rows.Keys !! added.Keys
    ensures SendersInv(leaseDuration, rows + added, senders)
  {
    forall w | w in senders ensures SenderInv(leaseDuration, rows + added, senders[w]) {
      var s := senders[w];
      assert SenderInv(leaseDuration, rows, s);
      forall k | 0 <= k < |s.todo| ensures RefKnown(rows + added, s.todo[k]) {
        assert RefKnown(rows, s.todo[k]);
      }
      assert RefKnown(rows, s.todo[0]);
    }
  }

  /** Inserting sound rows under new keys disturbs nobody. */
  lemma InsertKeeps(leaseDuration: Positive, h: Hooks, added: Deliveries)
    requires Webhooks.Inv(leaseDuration, h) && h.rows.Keys !! added.Keys
    requires forall ref | ref in added :: RowInv(leaseDuration, h.now, added[ref])
    ensures Webhooks.Inv(leaseDuration, h.(rows := h.rows + added)) && Webhooks.Forward(h.rows, h.rows + added)
  {
    hide RowInv, SenderInv, DistinctClaims, RowEvolves;
    SendersKeptByInsert(leaseDuration, h.rows, added, h.senders);
    Webhooks.ForwardReflexive(h.rows);
  }

  lemma NewRowsSound(cfg: Config, world: World, maxAttempts: Positive)
    requires Pipeline.RecordsInv(world.sys.records)
    ensures var added := NewRows(world.sys.records, world.hooks.rows, maxAttempts, world.hooks.now);
            forall ref | ref in added ::
              Linked(world.sys.records, ref, added[ref]) && RowInv(cfg.leaseDuration, world.hooks.now, added[ref])
  {
    hide RowInv, RecordInv, Linked, EligibleRow, NewDelivery;
    var records := world.sys.records;
    var added := NewRows(records, world.hooks.rows, maxAttempts, world.hooks.now);
    forall ref | ref in added
      ensures Linked(records, ref, added[ref]) && RowInv(cfg.leaseDuration, world.hooks.now, added[ref])
    {
      EligibleMeans(records, ref);
      var rec := records[ref.transfer];
      EligibleInHistory(rec, ref.index);
      NewRowLinked(records, ref, maxAttempts, world.hooks.now);
      NewDeliveryInv(cfg.leaseDuration, rec.history[ref.index].to, rec.txHash, maxAttempts, world.hooks.now);
    }
  }

  lemma EligibleInHistory(rec: TransferRecord, index: nat)
    requires EligibleRow(rec, index)
    ensures index < |rec.history|
  {
  }

  lemma PipelineRecords(s: Pipeline.System)
    requires Pipeline.Inv(s)
    ensures Pipeline.RecordsInv(s.records)
  {
  }

  lemma ScheduleKeeps(cfg: Config, world: World, maxAttempts: Positive)
    requires Inv(cfg, world)
    ensures Inv(cfg, ScheduleMove(world, maxAttempts))
    ensures Webhooks.Forward(world.hooks.rows, ScheduleMove(world, maxAttempts).hooks.rows)
  {
    hide RowInv, Linked, Pipeline.Inv, Webhooks.Inv, Webhooks.Forward, Eligible, EligibleRow, NewDelivery;
    hide Pipeline.RecordsInv;
    var added := NewRows(world.sys.records, world.hooks.rows, maxAttempts, world.hooks.now);
    PipelineRecords(world.sys);
    NewRowsSound(cfg, world, maxAttempts);
    InsertKeeps(cfg.leaseDuration, world.hooks, added);
  }

  /** Sender moves never insert a row. */
  lemma HooksInsertNothing(leaseDuration: Positive, h: Hooks, m: Webhooks.Move)
    ensures Webhooks.Step(leaseDuration, h, m).rows.Keys == h.rows.Keys
  {
  }

  lemma StepKeeps(cfg: Config, world: World, m: WorldMove)
    requires Inv(cfg, world)
    ensures Inv(cfg, Step(cfg, world, m))
    ensures Webhooks.Forward(world.hooks.rows, Step(cfg, world, m).hooks.rows)
  {
    hide RowInv, RecordInv, Pipeline.Inv, Webhooks.Inv, Evolves, Pipeline.Step, Webhooks.Step, ScheduleMove;
    Webhooks.ForwardReflexive(world.hooks.rows);
    match m {
      case Core(c) =>
        Pipeline.StepKeeps(cfg.pipeline, world.sys, c);
        var later := Pipeline.Step(cfg.pipeline, world.sys, c).records;
        forall ref | ref in world.hooks.rows ensures Linked(later, ref, world.hooks.rows[ref]) {
          LinkStable(world.sys.records, later, ref, world.hooks.rows[ref]);
        }
      case Hook(h) =>
        Webhooks.StepKeeps(cfg.leaseDuration, world.hooks, h);
        HooksInsertNothing(cfg.leaseDuration, world.hooks, h);
        var later := Webhooks.Step(cfg.leaseDuration, world.hooks, h).rows;
        forall ref | ref in later ensures Linked(world.sys.records, ref, later[ref]) {
          assert RowEvolves(world.hooks.rows[ref], later[ref]);
        }
      case Schedule(maxAttempts) => ScheduleKeeps(cfg, world, maxAttempts);
    }
  }

  lemma {:induction false} RunKeeps(cfg: Config, world: World, moves: seq<WorldMove>)
    requires Inv(cfg, world)
    ensures Inv(cfg, Run(cfg, world, moves))
    ensures Webhooks.Forward(world.hooks.rows, Run(cfg, world, moves).hooks.rows)
    decreases |moves|
  {
    hide Inv, Step;
    Webhooks.ForwardReflexive(world.hooks.rows);
    if moves != [] {
      StepKeeps(cfg, world, moves[0]);
      RunKeeps(cfg, Step(cfg, world, moves[0]), moves[1..]);
      var next := Step(cfg, world, moves[0]);
      Webhooks.ForwardTransitive(world.hooks.rows, next.hooks.rows, Run(cfg, world, moves).hooks.rows);
    }
  }

  lemma InitialInv(cfg: Config)
    ensures Inv(cfg, Initial())
  {
    Pipeline.InitialInv();
  }

  lemma AfterInv(cfg: Config, moves: seq<WorldMove>)
    ensures Inv(cfg, After(cfg, moves))
  {
    InitialInv(cfg);
    RunKeeps(cfg, Initial(), moves);
  }

  lemma {:induction false} RunAppend(cfg: Config, world: World, a: seq<WorldMove>, b: seq<WorldMove>)
    ensures Run(cfg, world, a + b) == Run(cfg, Run(cfg, world, a), b)
    decreases |a|
  {
    if a == [] {
      assert a + b == b;
    } else {
      assert (a + b)[1..] == a[1..] + b;
      RunAppend(cfg, Step(cfg, world, a[0]), a[1..], b);
    }
  }

  // ----- scheduling

  /**
   A pass leaves exactly one delivery per eligible history row, keeps the ones that exist, and a second pass
   over the same history inserts nothing.
   */
  lemma SchedulingIsExact(cfg: Config, moves: seq<WorldMove>, maxAttempts: Positive, again: Positive)
    ensures var world := After(cfg, moves); var once := ScheduleMove(world, maxAttempts);
            && (forall ref :: ref in once.hooks.rows <==> Notified(world.sys.records, ref))
            && (forall ref | ref in world.hooks.rows :: once.hooks.rows[ref] == world.hooks.rows[ref])
            && (forall ref | ref in once.hooks.rows && ref !in world.hooks.rows ::
                  IsNew(once.hooks.rows[ref], world.sys.records[ref.transfer], ref.index, maxAttempts, world.hooks.now))
            && ScheduleMove(once, again) == once
  {
    hide Eligible;
    var world := After(cfg, moves);
    AfterInv(cfg, moves);
    LinkedIsEligible(world);
    PassIsExact(world, maxAttempts, again);
    forall ref ensures ref in Eligible(world.sys.records) <==> Notified(world.sys.records, ref) {
      EligibleMeans(world.sys.records, ref);
    }
  }

  /** The history row records SUBMITTED, CONFIRMED or FAILED for a transfer with a callback. */
  predicate Notified(records: Pipeline.Records, ref: HistoryRef) {
    && ref.transfer in records && records[ref.transfer].callbackUrl != ""
    && ref.index < |records[ref.transfer].history|
    && records[ref.transfer].history[ref.index].to in {Submitted, Confirmed, Failed}
  }

  /** A delivery as it is scheduled: for the status its history row records, due at once. */
  predicate IsNew(d: Delivery, rec: TransferRecord, index: nat, maxAttempts: nat, now: nat) {
    && index < |rec.history| && d.transferStatus == rec.history[index].to && d.txHash == rec.txHash
    && d.status == HookPending && d.attemptCount == 0 && d.maxAttempts == maxAttempts
    && d.nextAttemptAt == Some(now) && d.leaseExpiresAt == None && d.deliveredAt == None && d.responseCode == None
    && d.issued == [] && d.landed == [] && d.dispatches == 0
  }

  lemma LinkedIsEligible(world: World)
    requires AllLinked(world.sys.records, world.hooks.rows)
    ensures world.hooks.rows.Keys <= Eligible(world.sys.records)
  {
    forall ref | ref in world.hooks.rows ensures ref in Eligible(world.sys.records) {
      assert Linked(world.sys.records, ref, world.hooks.rows[ref]);
      EligibleMeans(world.sys.records, ref);
    }
  }

  lemma NewRowsKeys(records: Pipeline.Records, rows: Deliveries, maxAttempts: nat, now: nat)
    ensures NewRows(records, rows, maxAttempts, now).Keys == Eligible(records) - rows.Keys
  {
    hide EligibleRow, NewDelivery;
  }

  lemma PassIsExact(world: World, maxAttempts: Positive, again: Positive)
    requires world.hooks.rows.Keys <= Eligible(world.sys.records)
    ensures var once := ScheduleMove(world, maxAttempts);
            && once.hooks.rows.Keys == Eligible(world.sys.records)
            && (forall ref | ref in world.hooks.rows :: once.hooks.rows[ref] == world.hooks.rows[ref])
            && ScheduleMove(once, again) == once
  {
    hide NewRows, Eligible;
    var once := ScheduleMove(world, maxAttempts);
    NewRowsKeys(world.sys.records, world.hooks.rows, maxAttempts, world.hooks.now);
    NewRowsKeys(once.sys.records, once.hooks.rows, again, once.hooks.now);
    var more := NewRows(once.sys.records, once.hooks.rows, again, once.hooks.now);
    assert more.Keys == {};
    assert once.hooks.rows + more == once.hooks.rows;
  }

  /** A transfer gets at most one delivery per status. */
  lemma OneDeliveryPerStatus(cfg: Config, moves: seq<WorldMove>, a: HistoryRef, b: HistoryRef)
    requires var rows := After(cfg, moves).hooks.rows;
             a in rows && b in rows && a.transfer == b.transfer && rows[a].transferStatus == rows[b].transferStatus
    ensures a == b
  {
    AfterInv(cfg, moves);
    var world := After(cfg, moves);
    assert Linked(world.sys.records, a, world.hooks.rows[a]);
    assert Linked(world.sys.records, b, world.hooks.rows[b]);
    var rec := world.sys.records[a.transfer];
    assert RecordInv(rec);
    StatusOccursOnce(rec.history, rec.status, a.index, b.index);
  }

  lemma StatusOccursOnce(history: seq<HistoryRow>, status: Status, i: nat, j: nat)
    requires HistoryInv(history, status) && i < |history| && j < |history| && history[i].to == history[j].to
    ensures i == j
  {
    HistoryShape(history, status);
  }

  /** Every SUBMITTED notification carries the non-empty hash of a broadcasted attempt of its transfer. */
  lemma SubmittedCarriesHash(cfg: Config, moves: seq<WorldMove>, ref: HistoryRef)
    requires var rows := After(cfg, moves).hooks.rows; ref in rows && rows[ref].transferStatus == Submitted
    ensures var world := After(cfg, moves); var d := world.hooks.rows[ref];
            && d.txHash != "" && ref.transfer in world.sys.records
            && d.txHash == world.sys.records[ref.transfer].txHash
            && IsBroadcastedHash(world.sys.records[ref.transfer].attempts, d.txHash)
  {
    AfterInv(cfg, moves);
    assert Linked(After(cfg, moves).sys.records, ref, After(cfg, moves).hooks.rows[ref]);
  }

  // ----- fencing

  /**
   Over any interleaving of claims, expiries and late writers: the lease values of a row strictly increase, no
   two writes land under the same lease, `attempt_count` is the number of landed writes and stays within the
   budget, DELIVERED needs a 2xx response, the CHECK constraints hold, and DELIVERED and FAILED are final.
   */
  lemma DeliveriesOfEveryRun(cfg: Config, moves: seq<WorldMove>, later: seq<WorldMove>, ref: HistoryRef)
    requires ref in After(cfg, moves).hooks.rows
    ensures ref in After(cfg, moves + later).hooks.rows
    ensures var d := After(cfg, moves).hooks.rows[ref]; var d' := After(cfg, moves + later).hooks.rows[ref];
            && (forall i, j | 0 <= i < j < |d.issued| :: d.issued[i] < d.issued[j])
            && (forall i, j | 0 <= i < j < |d.landed| :: d.landed[i] < d.landed[j])
            && d.attemptCount == |d.landed| && d.attemptCount <= d.maxAttempts
            && (d.status == HookDelivered ==> d.successes > 0)
            && ChecksHold(d)
            && d.issued <= d'.issued && d.landed <= d'.landed
            && (d.status == HookDelivered || d.status == HookFailed ==> d'.status == d.status && d'.landed == d.landed)
  {
    hide Pipeline.Inv, SendersInv, Linked, Run;
    AfterInv(cfg, moves);
    RunAppend(cfg, Initial(), moves, later);
    RunKeeps(cfg, After(cfg, moves), later);
    RowFacts(cfg.leaseDuration, After(cfg, moves).hooks.now, After(cfg, moves).hooks.rows[ref]);
  }

  lemma RowFacts(leaseDuration: Positive, now: nat, d: Delivery)
    requires RowInv(leaseDuration, now, d)
    ensures Increasing(d.issued) && Increasing(d.landed) && d.attemptCount == |d.landed| && ChecksHold(d)
    ensures d.status == HookDelivered ==> d.successes > 0
    ensures d.status == HookInProgress && d.leaseExpiresAt.Some? ==>
              d.issued != [] && d.leaseExpiresAt.value == Last(d.issued) && d.leaseExpiresAt.value !in d.landed
  {
    assert forall i | 0 <= i < |d.landed| :: d.landed[i] <= Last(d.landed);
  }

  /** A result write lands only for the row's most recent claimant, and only once: it takes the lease off the row. */
  lemma OnlyLatestClaimantLands(cfg: Config, moves: seq<WorldMove>, w: SenderId, reply: Reply)
    requires Lands(After(cfg, moves).hooks, w, reply)
    ensures var h := After(cfg, moves).hooks; var snap := h.senders[w].todo[0]; var row := h.rows[snap.ref];
            && row.issued != [] && snap.lease == Last(row.issued) && snap.lease !in row.landed
            && snap.ref in MarkMove(h, w, reply).rows && !Fenced(MarkMove(h, w, reply).rows[snap.ref], snap.lease)
            && MarkMove(h, w, reply).rows[snap.ref].landed == row.landed + [snap.lease]
  {
    hide Pipeline.Inv, SendersInv, Linked, Run, RowInv;
    AfterInv(cfg, moves);
    var h := After(cfg, moves).hooks;
    RowFacts(cfg.leaseDuration, h.now, h.rows[h.senders[w].todo[0].ref]);
  }
}
