/**
 What the retry budget of a delivery counts. Every dispatch is a counted attempt, a lost result, or still in flight;
 a result is lost when its write does not land or its sender stops before writing it. So the configured maximum bounds
 the calls of a receiver exactly up to lost results and dispatches in flight, and with them not at all.
 */
module WebhookBudget {
  import opened Transfers
  import Workers
  import Pipeline
  import Guarantees
  import NoLostJobs
  import opened Webhooks
  import opened WebhookScheduling

  // ----- the account of every dispatch

  /** The senders that have dispatched `ref` and not yet written the result. */
  function InFlight(h: Hooks, ref: HistoryRef): set<SenderId> {
    set w | w in h.senders && HasSent(h.senders[w], ref)
  }

  predicate HasSent(s: Sender, ref: HistoryRef) {
    s.phase.Marking? && s.todo != [] && s.todo[0].ref == ref
  }

  /**
   The move loses the result of a dispatch of `ref`: the write does not land, because the lease is lost, the table
   refuses the status code or the call breaks without effect; or the sender stops between dispatch and write.
   */
  predicate Misses(h: Hooks, m: Webhooks.Move, ref: HistoryRef) {
    match m
    case Mark(w, reply) => w in InFlight(h, ref) && !Lands(h, w, reply)
    case Stop(w) => w in InFlight(h, ref)
    case _ => false
  }

  /** What a row's dispatches exceed its counted attempts by, apart from those in flight. */
  function Uncounted(h: Hooks, ref: HistoryRef): int {
    if ref in h.rows then h.rows[ref].dispatches - h.rows[ref].attemptCount - |InFlight(h, ref)| else 0
  }

  lemma UnknownIsIdle(lease: Positive, h: Hooks, ref: HistoryRef)
    requires Webhooks.Inv(lease, h) && ref !in h.rows
    ensures InFlight(h, ref) == {}
  {
    forall w ensures w !in InFlight(h, ref) {
      SentIsReady(lease, h, w, ref);
    }
  }

  lemma ClaimUncounted(lease: Positive, h: Hooks, w: SenderId, ref: HistoryRef, r: HistoryRef)
    requires Webhooks.Inv(lease, h)
    ensures Uncounted(ClaimMove(lease, h, w, r), ref) == Uncounted(h, ref)
  {
    hide RowInv, DistinctClaims, Due;
    var h' := ClaimMove(lease, h, w, r);
    assert w in h.senders ==> SenderInv(lease, h.rows, h.senders[w]);
    assert InFlight(h', ref) == InFlight(h, ref);
  }

  lemma SendUncounted(h: Hooks, w: SenderId, response: Response, backoff: Positive, ref: HistoryRef)
    requires CanSend(h, w) && h.senders[w].phase == Dispatching
    ensures Uncounted(SendMove(h, w, response, backoff), ref) == Uncounted(h, ref)
  {
    hide Judge;
    var h' := SendMove(h, w, response, backoff);
    if h.senders[w].todo[0].ref == ref {
      assert InFlight(h', ref) == InFlight(h, ref) + {w};
    } else {
      assert InFlight(h', ref) == InFlight(h, ref);
    }
  }

  lemma ProceedInFlight(h: Hooks, w: SenderId, reply: Reply, ref: HistoryRef)
    requires w in h.senders && h.senders[w].todo != []
    ensures InFlight(Proceed(h, w, reply), ref) == InFlight(h, ref) - {w}
  {
  }

  lemma MarkUncounted(lease: Positive, h: Hooks, w: SenderId, reply: Reply, ref: HistoryRef)
    requires Webhooks.Inv(lease, h) && ReadyToMark(h, w)
    ensures Uncounted(MarkMove(h, w, reply), ref) ==
              Uncounted(h, ref) + if w in InFlight(h, ref) && !Lands(h, w, reply) then 1 else 0
  {
    hide RowInv, DistinctClaims, VerdictInv, Proceed;
    var snap := h.senders[w].todo[0];
    assert SenderInv(lease, h.rows, h.senders[w]);
    assert RefKnown(h.rows, snap);
    ProceedRows(h, w, reply);
    ProceedInFlight(h, w, reply, ref);
    if Lands(h, w, reply) {
      var h1 := h.(rows := h.rows[snap.ref := WriteResult(h.rows[snap.ref], snap, h.senders[w].phase.verdict, h.now)]);
      ProceedRows(h1, w, reply);
      ProceedInFlight(h1, w, reply, ref);
      assert InFlight(h1, ref) == InFlight(h, ref);
    } else {
      ProceedRows(h, w, Broken(false));
      ProceedInFlight(h, w, Broken(false), ref);
    }
    assert w in InFlight(h, ref) <==> snap.ref == ref;
  }

  lemma ProceedRows(h: Hooks, w: SenderId, reply: Reply)
    requires w in h.senders && h.senders[w].todo != []
    ensures Proceed(h, w, reply).rows == h.rows
  {
  }

  lemma SentIsReady(lease: Positive, h: Hooks, w: SenderId, ref: HistoryRef)
    requires Webhooks.Inv(lease, h)
    ensures w in InFlight(h, ref) ==> ReadyToMark(h, w) && ref in h.rows
  {
    if w in InFlight(h, ref) {
      assert SenderInv(lease, h.rows, h.senders[w]);
      assert RefKnown(h.rows, h.senders[w].todo[0]);
    }
  }

  /** Whatever a sender does, the account changes, by one, exactly when the move loses a result. */
  lemma HookUncounted(lease: Positive, h: Hooks, m: Webhooks.Move, ref: HistoryRef)
    requires Webhooks.Inv(lease, h)
    ensures Uncounted(Webhooks.Step(lease, h, m), ref) == Uncounted(h, ref) + if Misses(h, m, ref) then 1 else 0
  {
    hide Webhooks.Inv, ClaimMove, MarkMove, Lands;
    match m {
      case Claim(w, r) => ClaimUncounted(lease, h, w, ref, r);
      case Send(w, response, backoff) =>
        if CanSend(h, w) && h.senders[w].phase == Dispatching { SendUncounted(h, w, response, backoff, ref); }
      case Mark(w, reply) =>
        SentIsReady(lease, h, w, ref);
        if ReadyToMark(h, w) { MarkUncounted(lease, h, w, reply, ref); } else { IdleMark(h, w, reply); }
      case Stop(w) =>
        SentIsReady(lease, h, w, ref);
        assert InFlight(h.(senders := h.senders - {w}), ref) == InFlight(h, ref) - {w};
      case Tick(elapsed) => assert InFlight(h.(now := h.now + elapsed), ref) == InFlight(h, ref);
    }
  }

  lemma IdleMark(h: Hooks, w: SenderId, reply: Reply)
    requires !ReadyToMark(h, w)
    ensures MarkMove(h, w, reply) == h
  {
  }

  /** The same for every move of the whole world. */
  predicate Loses(world: World, m: WorldMove, ref: HistoryRef) {
    m.Hook? && Misses(world.hooks, m.h, ref)
  }

  lemma ScheduleUncounted(cfg: Config, world: World, maxAttempts: Positive, ref: HistoryRef)
    requires WebhookScheduling.Inv(cfg, world)
    ensures Uncounted(ScheduleMove(world, maxAttempts).hooks, ref) == Uncounted(world.hooks, ref)
  {
    hide Eligible, EligibleRow, Pipeline.Inv, Webhooks.Inv;
    var h, h' := world.hooks, ScheduleMove(world, maxAttempts).hooks;
    assert InFlight(h', ref) == InFlight(h, ref);
    if ref !in h.rows {
      UnknownIsIdle(cfg.leaseDuration, h, ref);
    }
  }

  lemma StepUncounted(cfg: Config, world: World, m: WorldMove, ref: HistoryRef)
    requires WebhookScheduling.Inv(cfg, world)
    ensures Uncounted(WebhookScheduling.Step(cfg, world, m).hooks, ref) ==
              Uncounted(world.hooks, ref) + if Loses(world, m, ref) then 1 else 0
  {
    hide Uncounted, Misses, Webhooks.Inv, Pipeline.Inv, ScheduleMove, Webhooks.Step;
    match m {
      case Core(c) =>
      case Hook(h) => HookUncounted(cfg.leaseDuration, world.hooks, h, ref);
      case Schedule(maxAttempts) => ScheduleUncounted(cfg, world, maxAttempts, ref);
    }
  }

  /** How many results of dispatches of `ref` are lost along a run. */
  function Lost(cfg: Config, world: World, moves: seq<WorldMove>, ref: HistoryRef): nat
    decreases |moves|
  {
    if moves == [] then 0 else
    (if Loses(world, moves[0], ref) then 1 else 0)
      + Lost(cfg, WebhookScheduling.Step(cfg, world, moves[0]), moves[1..], ref)
  }

  lemma {:induction false} RunUncounted(cfg: Config, world: World, moves: seq<WorldMove>, ref: HistoryRef)
    requires WebhookScheduling.Inv(cfg, world)
    ensures Uncounted(WebhookScheduling.Run(cfg, world, moves).hooks, ref) ==
              Uncounted(world.hooks, ref) + Lost(cfg, world, moves, ref)
    decreases |moves|
  {
    hide Uncounted, Loses, WebhookScheduling.Inv, WebhookScheduling.Step;
    if moves != [] {
      StepUncounted(cfg, world, moves[0], ref);
      WebhookScheduling.StepKeeps(cfg, world, moves[0]);
      RunUncounted(cfg, WebhookScheduling.Step(cfg, world, moves[0]), moves[1..], ref);
    }
  }

  /**
   Every call of a receiver is accounted for: in every reachable state the dispatches of a delivery are its counted
   attempts, the results that were lost, and the dispatches still in flight. So the maximum bounds the calls up to
   these, and calls exceed counted attempts exactly when a result was lost or is still to be written.
   */
  lemma DispatchesAreAccounted(cfg: Config, moves: seq<WorldMove>, ref: HistoryRef)
    requires ref in After(cfg, moves).hooks.rows
    ensures var d := After(cfg, moves).hooks.rows[ref];
            var lost := Lost(cfg, WebhookScheduling.Initial(), moves, ref);
            var open := InFlight(After(cfg, moves).hooks, ref);
            && d.dispatches == d.attemptCount + lost + |open|
            && d.dispatches <= d.maxAttempts + lost + |open|
            && (d.dispatches > d.attemptCount <==> lost > 0 || open != {})
  {
    hide WebhookScheduling.Run, InFlight, Lost, WebhookScheduling.Inv;
    InitialInv(cfg);
    AfterInv(cfg, moves);
    RunUncounted(cfg, WebhookScheduling.Initial(), moves, ref);
    WithinMaximum(cfg, After(cfg, moves), ref);
    Smallest(InFlight(After(cfg, moves).hooks, ref));
  }

  lemma WithinMaximum(cfg: Config, world: World, ref: HistoryRef)
    requires WebhookScheduling.Inv(cfg, world) && ref in world.hooks.rows
    ensures world.hooks.rows[ref].attemptCount <= world.hooks.rows[ref].maxAttempts
  {
    assert RowInv(cfg.leaseDuration, world.hooks.now, world.hooks.rows[ref]);
  }

  lemma Smallest(s: set<SenderId>)
    ensures |s| > 0 <==> s != {}
  {
  }

  // ----- rounds that count nothing

  /** One round of sender `w` on `ref`, ending as `last` says, and a pause as long as the lease. */
  function Round(
    lease: Positive, w: SenderId, ref: HistoryRef, response: Response, backoff: Positive,
    last: Webhooks.Move): seq<WorldMove>
  {
    [Hook(Claim(w, ref)), Hook(Send(w, response, backoff)), Hook(last), Hook(Tick(lease))]
  }

  function Rounds(
    lease: Positive, w: SenderId, ref: HistoryRef, response: Response, last: Webhooks.Move, n: nat): seq<WorldMove>
  {
    if n == 0 then [] else Round(lease, w, ref, response, 1, last) + Rounds(lease, w, ref, response, last, n - 1)
  }

  lemma OneMove(cfg: Config, world: World, m: WorldMove, rest: seq<WorldMove>)
    ensures WebhookScheduling.Run(cfg, world, [m] + rest)
         == WebhookScheduling.Run(cfg, WebhookScheduling.Step(cfg, world, m), rest)
  {
    assert ([m] + rest)[1..] == rest;
  }

  lemma FourMoves(cfg: Config, world: World, a: Webhooks.Move, b: Webhooks.Move, c: Webhooks.Move, d: Webhooks.Move)
    ensures WebhookScheduling.Run(cfg, world, [Hook(a), Hook(b), Hook(c), Hook(d)]) ==
            var l := cfg.leaseDuration;
            var h := Webhooks.Step(l, Webhooks.Step(l, Webhooks.Step(l, Webhooks.Step(l, world.hooks, a), b), c), d);
            world.(hooks := h)
  {
    hide Webhooks.Step;
    var w1 := WebhookScheduling.Step(cfg, world, Hook(a));
    var w2 := WebhookScheduling.Step(cfg, w1, Hook(b));
    var w3 := WebhookScheduling.Step(cfg, w2, Hook(c));
    var moves := [Hook(a), Hook(b), Hook(c), Hook(d)];
    assert moves == [moves[0]] + ([moves[1]] + ([moves[2]] + ([moves[3]] + [])));
    OneMove(cfg, world, moves[0], [moves[1]] + ([moves[2]] + ([moves[3]] + [])));
    OneMove(cfg, w1, moves[1], [moves[2]] + ([moves[3]] + []));
    OneMove(cfg, w2, moves[2], [moves[3]] + []);
    OneMove(cfg, w3, moves[3], []);
  }

  /** The row can be claimed and the sender is idle. */
  predicate Ready(h: Hooks, w: SenderId, ref: HistoryRef) {
    ref in h.rows && Due(h.rows[ref], h.now) && w !in h.senders
  }

  /** Claim and dispatch, undisturbed. */
  lemma ClaimedAndSent(lease: Positive, h: Hooks, w: SenderId, ref: HistoryRef, response: Response, backoff: Positive)
    requires Ready(h, w, ref)
    ensures var snap := Snapshot(ref, h.now + lease, h.rows[ref].attemptCount, h.rows[ref].maxAttempts);
            Webhooks.Step(lease, Webhooks.Step(lease, h, Claim(w, ref)), Send(w, response, backoff)) ==
              h.(rows := h.rows[ref := Dispatched(ClaimRow(h.rows[ref], h.now + lease), response)],
                 senders := h.senders[w := Sender([snap], Marking(Judge(snap, response, h.now, backoff)))])
  {
    hide Judge;
    var lease' := h.now + lease;
    var row := ClaimRow(h.rows[ref], lease');
    var snap := Snapshot(ref, lease', h.rows[ref].attemptCount, h.rows[ref].maxAttempts);
    assert [] + [snap] == [snap];
    assert Webhooks.Step(lease, h, Claim(w, ref)) ==
           h.(rows := h.rows[ref := row], senders := h.senders[w := Sender([snap], Dispatching)]);
    assert h.rows[ref := row][ref := Dispatched(row, response)] == h.rows[ref := Dispatched(row, response)];
    var next := Sender([snap], Marking(Judge(snap, response, h.now, backoff)));
    assert h.senders[w := Sender([snap], Dispatching)][w := next] == h.senders[w := next];
  }

  /** How a round ends: a write that the database answers, or the sender stops before it. */
  predicate Ends(last: Webhooks.Move, w: SenderId) {
    last == Mark(w, Written) || last == Stop(w)
  }

  /**
   An undisturbed round counts an attempt exactly when the sender gets to write its result and the table accepts the
   status code. Otherwise the row is due again after the round, as if the dispatch had not happened.
   */
  lemma RoundCountsExactly(
    cfg: Config, world: World, w: SenderId, ref: HistoryRef, response: Response, backoff: Positive,
    last: Webhooks.Move)
    requires Ready(world.hooks, w, ref) && Ends(last, w)
    ensures var h := world.hooks; var round := Round(cfg.leaseDuration, w, ref, response, backoff, last);
            var h' := WebhookScheduling.Run(cfg, world, round).hooks;
            && ref in h'.rows && h'.senders == h.senders
            && h'.rows[ref].maxAttempts == h.rows[ref].maxAttempts
            && h'.rows[ref].dispatches == h.rows[ref].dispatches + 1
            && h'.rows[ref].attemptCount ==
                 h.rows[ref].attemptCount + (if last.Mark? && Recordable(response) then 1 else 0)
            && (!(last.Mark? && Recordable(response)) ==> Ready(h', w, ref))
  {
    hide Judge, WebhookScheduling.Run;
    var h, lease := world.hooks, cfg.leaseDuration;
    FourMoves(cfg, world, Claim(w, ref), Send(w, response, backoff), last, Tick(lease));
    ClaimedAndSent(lease, h, w, ref, response, backoff);
    var snap := Snapshot(ref, h.now + lease, h.rows[ref].attemptCount, h.rows[ref].maxAttempts);
    JudgesCode(snap, response, h.now, backoff);
  }

  lemma JudgesCode(snap: Snapshot, response: Response, now: nat, backoff: Positive)
    ensures CodeAccepted(Judge(snap, response, now, backoff)) <==> Recordable(response)
  {
  }

  /**
   So the maximum does not bound the calls: `n` rounds with a refused code, or with any response and a sender that
   stops before writing, make `n` dispatches, lose `n` results and count none.
   */
  lemma {:induction false} UncountedRounds(
    cfg: Config, world: World, w: SenderId, ref: HistoryRef, response: Response, last: Webhooks.Move, n: nat)
    requires Ready(world.hooks, w, ref) && Ends(last, w) && (last.Mark? ==> !Recordable(response))
    ensures var h' := WebhookScheduling.Run(cfg, world, Rounds(cfg.leaseDuration, w, ref, response, last, n)).hooks;
            && Ready(h', w, ref) && h'.senders == world.hooks.senders
            && h'.rows[ref].maxAttempts == world.hooks.rows[ref].maxAttempts
            && h'.rows[ref].dispatches == world.hooks.rows[ref].dispatches + n
            && h'.rows[ref].attemptCount == world.hooks.rows[ref].attemptCount
    decreases n
  {
    hide Ready, Round, WebhookScheduling.Step;
    if n > 0 {
      var round := Round(cfg.leaseDuration, w, ref, response, 1, last);
      RoundCountsExactly(cfg, world, w, ref, response, 1, last);
      RunAppend(cfg, world, round, Rounds(cfg.leaseDuration, w, ref, response, last, n - 1));
      UncountedRounds(cfg, WebhookScheduling.Run(cfg, world, round), w, ref, response, last, n - 1);
    }
  }

  /** By the account, that is `n` lost results. */
  lemma UncountedRoundsLose(
    cfg: Config, before: seq<WorldMove>, w: SenderId, ref: HistoryRef, response: Response,
    last: Webhooks.Move, n: nat)
    requires Ready(After(cfg, before).hooks, w, ref)
    requires Ends(last, w) && (last.Mark? ==> !Recordable(response))
    ensures var rounds := Rounds(cfg.leaseDuration, w, ref, response, last, n);
            Lost(cfg, After(cfg, before), rounds, ref) == n
  {
    hide WebhookScheduling.Run, InFlight, Ready, Lost, WebhookScheduling.Inv;
    var world := After(cfg, before);
    var rounds := Rounds(cfg.leaseDuration, w, ref, response, last, n);
    AfterInv(cfg, before);
    UncountedRounds(cfg, world, w, ref, response, last, n);
    RunUncounted(cfg, world, rounds, ref);
    SameSendersSameFlight(world.hooks, WebhookScheduling.Run(cfg, world, rounds).hooks, ref);
    ReadyIsKnown(world.hooks, w, ref);
    ReadyIsKnown(WebhookScheduling.Run(cfg, world, rounds).hooks, w, ref);
  }

  lemma SameSendersSameFlight(a: Hooks, b: Hooks, ref: HistoryRef)
    requires a.senders == b.senders
    ensures InFlight(a, ref) == InFlight(b, ref)
  {
  }

  lemma ReadyIsKnown(h: Hooks, w: SenderId, ref: HistoryRef)
    requires Ready(h, w, ref)
    ensures ref in h.rows && Open(h.rows[ref])
  {
  }

  // ----- in a run of the whole world

  function Cores(moves: seq<Pipeline.Move>): seq<WorldMove>
    decreases |moves|
  {
    if moves == [] then [] else [Core(moves[0])] + Cores(moves[1..])
  }

  lemma {:induction false} RunCores(cfg: Config, world: World, moves: seq<Pipeline.Move>)
    ensures WebhookScheduling.Run(cfg, world, Cores(moves)) ==
            world.(sys := Pipeline.Run(cfg.pipeline, world.sys, moves))
    decreases |moves|
  {
    hide Pipeline.Step;
    if moves != [] {
      assert Cores(moves)[1..] == Cores(moves[1..]);
      RunCores(cfg, WebhookScheduling.Step(cfg, world, Core(moves[0])), moves[1..]);
    }
  }

  /** A transfer whose processing cannot reach the database at first is marked FAILED. */
  const MARKED_FAILED: seq<Pipeline.Move> :=
    [Pipeline.Work(0, NoLostJobs.Answering(Workers.Ok)), Pipeline.Work(0, NoLostJobs.Answering(Workers.Ok))]

  const FAILED_TRANSFER: seq<Pipeline.Move> :=
    NoLostJobs.DISPATCHED_ONCE + (NoLostJobs.UNREACHABLE_DATABASE + MARKED_FAILED)

  lemma FailedTransferReached(cfg: Pipeline.Config) returns (index: nat)
    ensures var s := Guarantees.After(cfg, FAILED_TRANSFER); 0 in s.records && EligibleRow(s.records[0], index)
  {
    var s1 := Guarantees.After(cfg, NoLostJobs.DISPATCHED_ONCE);
    var s2 := Pipeline.Run(cfg, s1, NoLostJobs.UNREACHABLE_DATABASE);
    var rest := NoLostJobs.UNREACHABLE_DATABASE + MARKED_FAILED;
    hide Pipeline.Run, Guarantees.After, NoLostJobs.SoleHolder, EligibleRow, Pipeline.Inv, Pipeline.Forward;
    NoLostJobs.DispatchedOnce(cfg);
    NoLostJobs.SoleHolderReached(cfg, s1);
    Pipeline.RunAppend(cfg, s1, NoLostJobs.UNREACHABLE_DATABASE, MARKED_FAILED);
    AppendAfter(cfg, NoLostJobs.DISPATCHED_ONCE, rest);
    Guarantees.AfterInv(cfg, NoLostJobs.DISPATCHED_ONCE);
    Pipeline.RunKeeps(cfg, s1, rest);
    SameUrl(s1.records, Pipeline.Run(cfg, s1, rest).records);
    index := MarksFailed(cfg, s2);
    IsEligible(Pipeline.Run(cfg, s1, rest).records[0], index);
  }

  lemma AppendAfter(cfg: Pipeline.Config, a: seq<Pipeline.Move>, b: seq<Pipeline.Move>)
    ensures Guarantees.After(cfg, a + b) == Pipeline.Run(cfg, Guarantees.After(cfg, a), b)
  {
    Pipeline.RunAppend(cfg, Pipeline.Initial(), a, b);
  }

  lemma SameUrl(a: Pipeline.Records, b: Pipeline.Records)
    requires Pipeline.Forward(a, b) && 0 in a
    ensures 0 in b && b[0].callbackUrl == a[0].callbackUrl
  {
    assert Evolves(a[0], b[0]);
  }

  lemma IsEligible(rec: TransferRecord, index: nat)
    requires index < |rec.history| && rec.history[index].to == Failed && rec.callbackUrl != ""
    ensures EligibleRow(rec, index)
  {
  }

  lemma MarksFailed(cfg: Pipeline.Config, s: Pipeline.System) returns (index: nat)
    requires NoLostJobs.SoleHolder(s, 0) && s.workers[0] == Workers.Worker(0, 0, Workers.FailLoading(false))
    ensures var s' := Pipeline.Run(cfg, s, MARKED_FAILED);
            0 in s'.records && index < |s'.records[0].history| && s'.records[0].history[index].to == Failed
  {
    index := |s.records[0].history|;
  }

  /**
   In a run of the whole world: whatever the configured maximum and however large `n`, a receiver is called `n` times
   and no attempt is counted, if it answers 600, and for any answer if senders stop before they write.
   */
  lemma MaximumDoesNotBoundCalls(
    cfg: Config, maxAttempts: Positive, response: Response, last: Webhooks.Move, n: nat)
    requires Ends(last, 0) && (last.Mark? ==> !Recordable(response))
    ensures exists moves, ref | ref in After(cfg, moves).hooks.rows ::
              var d := After(cfg, moves).hooks.rows[ref];
              d.maxAttempts == maxAttempts && d.dispatches == n && d.attemptCount == 0 && Open(d)
  {
    var index := FailedTransferReached(cfg.pipeline);
    var ref := HistoryRef(0, index);
    var moves := ScheduledOnce(cfg, maxAttempts, ref);
    var world := After(cfg, moves);
    var rounds := Rounds(cfg.leaseDuration, 0, ref, response, last, n);
    UncountedRounds(cfg, world, 0, ref, response, last, n);
    hide WebhookScheduling.Run, Rounds;
    RunAppend(cfg, WebhookScheduling.Initial(), moves, rounds);
    var d := After(cfg, moves + rounds).hooks.rows[ref];
    assert d.maxAttempts == maxAttempts && d.dispatches == n && d.attemptCount == 0 && Open(d);
  }

  /** For instance a receiver that answers 600. */
  lemma RefusedCodeIsNeverCounted(cfg: Config, maxAttempts: Positive, n: nat)
    ensures exists moves, ref | ref in After(cfg, moves).hooks.rows ::
              var d := After(cfg, moves).hooks.rows[ref];
              d.maxAttempts == maxAttempts && d.dispatches == n && d.attemptCount == 0 && Open(d)
  {
    MaximumDoesNotBoundCalls(cfg, maxAttempts, Code(600), Mark(0, Written), n);
  }

  lemma ScheduledOnce(cfg: Config, maxAttempts: Positive, ref: HistoryRef) returns (moves: seq<WorldMove>)
    requires var s := Guarantees.After(cfg.pipeline, FAILED_TRANSFER);
             ref.transfer in s.records && EligibleRow(s.records[ref.transfer], ref.index)
    ensures var h := After(cfg, moves).hooks;
            Ready(h, 0, ref) && h.rows[ref].maxAttempts == maxAttempts
            && h.rows[ref].dispatches == 0 && h.rows[ref].attemptCount == 0
  {
    hide EligibleRow, Pipeline.Run;
    var cores := Cores(FAILED_TRANSFER);
    moves := cores + [Schedule(maxAttempts)];
    RunCores(cfg, WebhookScheduling.Initial(), FAILED_TRANSFER);
    WebhookScheduling.RunAppend(cfg, WebhookScheduling.Initial(), cores, [Schedule(maxAttempts)]);
    var world := After(cfg, cores);
    assert WebhookScheduling.Run(cfg, world, [Schedule(maxAttempts)])
        == WebhookScheduling.Run(cfg, ScheduleMove(world, maxAttempts), []);
    EligibleMeans(world.sys.records, ref);
    assert ref in NewRows(world.sys.records, world.hooks.rows, maxAttempts, world.hooks.now);
  }
}
