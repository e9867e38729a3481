/**
 When an outbox row is claimed. The laws speak of rows, times and moves of a run: a row is claimed when it has been
 waiting long enough and never before, however many dispatchers run and whatever became of them.
 */
module OutboxTiming {
  import opened Transfers
  import opened Workers
  import opened Pipeline
  import opened Guarantees

  /** The move claims the row of `t`: the row counts one more claim after it. */
  predicate Claims(cfg: Config, s: System, m: Move, t: TransferId) {
    && t in s.records && t in Step(cfg, s, m).records
    && Step(cfg, s, m).records[t].outbox.claims > s.records[t].outbox.claims
  }

  /** The move is a mark of the row of `t` that takes effect. */
  predicate Marks(s: System, m: Move, t: TransferId) {
    && m.Dispatch? && CanDispatch(s, m.d) && s.dispatchers[m.d].phase != Publishing
    && s.dispatchers[m.d].todo[0].transfer == t && (m.answer == Ok || m.answer.effect)
  }

  // ----- one move

  /**
   A claim lands exactly when the row is PENDING or RETRY and available, or PROCESSING and locked for the whole
   timeout; the row is then PROCESSING, locked now, and otherwise as it was.
   */
  lemma ClaimedExactly(cfg: Config, s: System, d: DispatcherId, t: TransferId)
    requires t in s.records
    ensures var row := s.records[t].outbox;
            Claims(cfg, s, ClaimRow(d, t), t) <==>
              || ((row.status == OutboxPending || row.status == OutboxRetry) && row.availableAt <= s.now)
              || (row.status == OutboxProcessing && row.lockedAt.Some?
                  && row.lockedAt.value + cfg.outboxTimeout <= s.now)
    ensures Claims(cfg, s, ClaimRow(d, t), t) ==>
              var row, row' := s.records[t].outbox, Step(cfg, s, ClaimRow(d, t)).records[t].outbox;
              && row'.status == OutboxProcessing && row'.lockedAt == Some(s.now) && row'.claims == row.claims + 1
              && row'.availableAt == row.availableAt && row'.attemptCount == row.attemptCount
  {
  }

  /**
   A mark that takes effect leaves a DISPATCHED row alone. Any other row it unlocks and makes DISPATCHED after a
   successful publish, and RETRY, available after the backoff, after a failed one; its counter becomes the greater of
   its own and the claimed one plus one.
   */
  lemma MarkedExactly(cfg: Config, s: System, m: Move, t: TransferId)
    requires t in s.records && Marks(s, m, t)
    ensures t in Step(cfg, s, m).records
    ensures var row, row' := s.records[t].outbox, Step(cfg, s, m).records[t].outbox;
            var counted := s.dispatchers[m.d].todo[0].attemptCount + 1;
            && (row.status == OutboxDispatched ==> row' == row)
            && (row.status != OutboxDispatched ==>
                  && row'.lockedAt == None && row'.claims == row.claims && row'.publishes == row.publishes
                  && row'.attemptCount == (if row.attemptCount > counted then row.attemptCount else counted)
                  && (s.dispatchers[m.d].phase == MarkingDispatched ==>
                        row'.status == OutboxDispatched && row'.availableAt == row.availableAt)
                  && (s.dispatchers[m.d].phase == MarkingRetry ==>
                        row'.status == OutboxRetry && row'.availableAt == s.now + m.delay))
  {
  }

  lemma WorkKeepsOutbox(rec: TransferRecord, clash: bool, w: Worker, c: Choice, policy: RetryPolicy)
    ensures WorkerStep(rec, clash, w, c, policy).rec.outbox == rec.outbox
  {
  }

  predicate SameTiming(a: OutboxRow, b: OutboxRow) {
    b.status == a.status && b.availableAt == a.availableAt && b.lockedAt == a.lockedAt && b.claims == a.claims
  }

  /** The row of `t` counts no new claim, and unless it is marked its timing is untouched. */
  predicate Unclaimed(s: System, s': System, t: TransferId, marked: bool)
    requires t in s.records
  {
    && t in s'.records && s'.records[t].outbox.claims == s.records[t].outbox.claims
    && (!marked ==> SameTiming(s.records[t].outbox, s'.records[t].outbox))
  }

  lemma WorkTiming(cfg: Config, s: System, w: WorkerId, c: Choice, t: TransferId)
    requires t in s.records && CanWork(s, w)
    ensures Unclaimed(s, WorkMove(cfg, s, w, c), t, false)
  {
    hide WorkerStep;
    WorkKeepsOutbox(s.records[s.workers[w].transfer], WorkerClash(s, s.workers[w]), s.workers[w], c, cfg.policy);
  }

  lemma DispatchTiming(s: System, d: DispatcherId, answer: Answer, delay: nat, t: TransferId)
    requires t in s.records
    ensures Unclaimed(s, DispatchMove(s, d, answer, delay), t, Marks(s, Dispatch(d, answer, delay), t))
  {
  }

  lemma ClaimTiming(cfg: Config, s: System, d: DispatcherId, u: TransferId, t: TransferId)
    requires t in s.records && u != t
    ensures Unclaimed(s, ClaimMove(cfg, s, d, u), t, false)
  {
  }

  lemma CreateTiming(s: System, m: Move, t: TransferId)
    requires m.Create? && t in s.records
    ensures Unclaimed(s, CreateMove(s, m), t, false)
  {
  }

  lemma OtherMoveTiming(cfg: Config, s: System, m: Move, t: TransferId)
    requires t in s.records && !(m.ClaimRow? && m.t == t)
    ensures Unclaimed(s, Step(cfg, s, m), t, Marks(s, m, t))
  {
    hide WorkResult, Apply, DispatchMove, ClaimMove, CreateMove;
    match m {
      case Work(w, c) => if CanWork(s, w) { WorkTiming(cfg, s, w, c, t); }
      case Dispatch(d, answer, delay) => DispatchTiming(s, d, answer, delay, t);
      case ClaimRow(d, u) => ClaimTiming(cfg, s, d, u, t);
      case Create(_, _, _, _) => CreateTiming(s, m, t);
      case _ =>
    }
  }

  /** Nothing but claims and marks touches status, lock or availability of a row. */
  lemma OthersLeaveTiming(cfg: Config, s: System, m: Move, t: TransferId)
    requires t in s.records && !Claims(cfg, s, m, t) && !Marks(s, m, t)
    ensures t in Step(cfg, s, m).records && SameTiming(s.records[t].outbox, Step(cfg, s, m).records[t].outbox)
  {
    hide Step, Marks, Claims;
    if m.ClaimRow? && m.t == t {
      UnclaimedIsSame(cfg, s, m.d, t);
    } else {
      OtherMoveTiming(cfg, s, m, t);
    }
  }

  lemma UnclaimedIsSame(cfg: Config, s: System, d: DispatcherId, t: TransferId)
    requires t in s.records && !Claims(cfg, s, ClaimRow(d, t), t)
    ensures Step(cfg, s, ClaimRow(d, t)) == s
  {
  }

  lemma OnlyClaimRowClaims(cfg: Config, s: System, m: Move, t: TransferId)
    requires Claims(cfg, s, m, t)
    ensures m.ClaimRow? && m.t == t
  {
    hide Step;
    if !(m.ClaimRow? && m.t == t) {
      OtherMoveTiming(cfg, s, m, t);
    }
  }

  lemma TimeGrows(cfg: Config, s: System, m: Move)
    ensures Step(cfg, s, m).now >= s.now
  {
    hide WorkerStep;
  }

  // ----- whole runs

  /** No mark of `t` takes effect along the run. */
  predicate Unmarked(cfg: Config, s: System, moves: seq<Move>, t: TransferId)
    decreases |moves|
  {
    moves != [] ==> !Marks(s, moves[0], t) && Unmarked(cfg, Step(cfg, s, moves[0]), moves[1..], t)
  }

  /** The row waits until `from`: it is available only then, or was locked only then. */
  predicate WaitsUntil(s: System, t: TransferId, from: nat) {
    && t in s.records
    && var row := s.records[t].outbox;
    || (row.status == OutboxRetry && row.availableAt >= from)
    || (row.status == OutboxProcessing && row.lockedAt.Some? && row.lockedAt.value >= from)
  }

  lemma WaitsStep(cfg: Config, s: System, m: Move, t: TransferId, from: nat)
    requires WaitsUntil(s, t, from) && !Marks(s, m, t)
    ensures WaitsUntil(Step(cfg, s, m), t, from)
  {
    hide Step, Claims, Marks;
    if Claims(cfg, s, m, t) {
      OnlyClaimRowClaims(cfg, s, m, t);
      ClaimedExactly(cfg, s, m.d, t);
      ClaimKnows(cfg, s, m, t);
    } else {
      OthersLeaveTiming(cfg, s, m, t);
    }
  }

  lemma ClaimKnows(cfg: Config, s: System, m: Move, t: TransferId)
    requires Claims(cfg, s, m, t)
    ensures t in s.records && t in Step(cfg, s, m).records
  {
  }

  lemma {:induction false} WaitsRun(cfg: Config, s: System, moves: seq<Move>, t: TransferId, from: nat)
    requires WaitsUntil(s, t, from) && Unmarked(cfg, s, moves, t)
    ensures WaitsUntil(Run(cfg, s, moves), t, from)
    decreases |moves|
  {
    hide Step, Marks, WaitsUntil;
    if moves != [] {
      WaitsStep(cfg, s, moves[0], t, from);
      WaitsRun(cfg, Step(cfg, s, moves[0]), moves[1..], t, from);
    }
  }

  lemma AfterOneMore(cfg: Config, before: seq<Move>, m: Move, between: seq<Move>)
    ensures After(cfg, before + [m] + between) == Run(cfg, Step(cfg, After(cfg, before), m), between)
  {
    hide Step;
    RunAppend(cfg, Initial(), before, [m]);
    RunAppend(cfg, Initial(), before + [m], between);
    assert Run(cfg, After(cfg, before), [m]) == Run(cfg, Step(cfg, After(cfg, before), m), []);
  }

  /** Between two claims of one row with no mark of it in between, at least the processing timeout passes. */
  lemma ClaimsAreApart(cfg: Config, before: seq<Move>, first: Move, between: seq<Move>, second: Move, t: TransferId)
    requires Claims(cfg, After(cfg, before), first, t)
    requires Unmarked(cfg, Step(cfg, After(cfg, before), first), between, t)
    requires Claims(cfg, After(cfg, before + [first] + between), second, t)
    ensures After(cfg, before + [first] + between).now >= After(cfg, before).now + cfg.outboxTimeout
  {
    hide Step, Claims, Unmarked, Run;
    var s1 := After(cfg, before);
    var s2 := After(cfg, before + [first] + between);
    OnlyClaimRowClaims(cfg, s1, first, t);
    ClaimKnows(cfg, s1, first, t);
    ClaimedExactly(cfg, s1, first.d, t);
    ProcessingRun(cfg, Step(cfg, s1, first), between, t, s1.now);
    AfterOneMore(cfg, before, first, between);
    OnlyClaimRowClaims(cfg, s2, second, t);
    ClaimKnows(cfg, s2, second, t);
    ClaimedExactly(cfg, s2, second.d, t);
  }

  predicate LockedSince(s: System, t: TransferId, from: nat) {
    && t in s.records && s.records[t].outbox.status == OutboxProcessing
    && s.records[t].outbox.lockedAt.Some? && s.records[t].outbox.lockedAt.value >= from
  }

  lemma {:induction false} ProcessingRun(cfg: Config, s: System, moves: seq<Move>, t: TransferId, from: nat)
    requires LockedSince(s, t, from) && Unmarked(cfg, s, moves, t)
    ensures LockedSince(Run(cfg, s, moves), t, from)
    decreases |moves|
  {
    hide Step, Marks, Claims;
    if moves != [] {
      var m := moves[0];
      if Claims(cfg, s, m, t) {
        OnlyClaimRowClaims(cfg, s, m, t);
        ClaimKnows(cfg, s, m, t);
        ClaimedExactly(cfg, s, m.d, t);
      } else {
        OthersLeaveTiming(cfg, s, m, t);
      }
      ProcessingRun(cfg, Step(cfg, s, m), moves[1..], t, from);
    }
  }

  /** A row marked for retry is not claimed before the backoff its mark gave it has passed. */
  lemma RetryWaits(cfg: Config, before: seq<Move>, mark: Move, between: seq<Move>, claim: Move, t: TransferId)
    requires var s := After(cfg, before);
             && Marks(s, mark, t) && s.dispatchers[mark.d].phase == MarkingRetry
             && t in s.records && s.records[t].outbox.status != OutboxDispatched
    requires Unmarked(cfg, Step(cfg, After(cfg, before), mark), between, t)
    requires Claims(cfg, After(cfg, before + [mark] + between), claim, t)
    ensures After(cfg, before + [mark] + between).now >= After(cfg, before).now + mark.delay
  {
    hide Step, Claims, Unmarked, Run;
    var s1 := After(cfg, before);
    var s2 := After(cfg, before + [mark] + between);
    MarkedExactly(cfg, s1, mark, t);
    WaitsRun(cfg, Step(cfg, s1, mark), between, t, s1.now + mark.delay);
    AfterOneMore(cfg, before, mark, between);
    OnlyClaimRowClaims(cfg, s2, claim, t);
    ClaimKnows(cfg, s2, claim, t);
    ClaimedExactly(cfg, s2, claim.d, t);
  }

  // ----- and from then on it is claimed

  /** Neither a claim nor a mark of `t` takes effect along the run. */
  predicate LeftAlone(cfg: Config, s: System, moves: seq<Move>, t: TransferId)
    decreases |moves|
  {
    moves != [] ==>
      && !Marks(s, moves[0], t) && !Claims(cfg, s, moves[0], t)
      && LeftAlone(cfg, Step(cfg, s, moves[0]), moves[1..], t)
  }

  lemma {:induction false} LeftAloneStays(cfg: Config, s: System, moves: seq<Move>, t: TransferId)
    requires t in s.records && LeftAlone(cfg, s, moves, t)
    ensures t in Run(cfg, s, moves).records
    ensures SameTiming(s.records[t].outbox, Run(cfg, s, moves).records[t].outbox)
    decreases |moves|
  {
    hide Step, Marks, Claims;
    if moves != [] {
      OthersLeaveTiming(cfg, s, moves[0], t);
      LeftAloneStays(cfg, Step(cfg, s, moves[0]), moves[1..], t);
    }
  }

  /** A claimed row that nobody marks is claimed by whoever asks for it once the processing timeout has passed. */
  lemma StaleIsClaimed(
    cfg: Config, before: seq<Move>, first: Move, between: seq<Move>, t: TransferId, d: DispatcherId)
    requires Claims(cfg, After(cfg, before), first, t)
    requires LeftAlone(cfg, Step(cfg, After(cfg, before), first), between, t)
    requires After(cfg, before + [first] + between).now >= After(cfg, before).now + cfg.outboxTimeout
    ensures Claims(cfg, After(cfg, before + [first] + between), ClaimRow(d, t), t)
  {
    hide Step, Claims, LeftAlone, Run;
    var s1 := After(cfg, before);
    OnlyClaimRowClaims(cfg, s1, first, t);
    ClaimKnows(cfg, s1, first, t);
    ClaimedExactly(cfg, s1, first.d, t);
    LeftAloneStays(cfg, Step(cfg, s1, first), between, t);
    AfterOneMore(cfg, before, first, between);
    ClaimedExactly(cfg, After(cfg, before + [first] + between), d, t);
  }

  /** A row marked for retry is claimed by whoever asks for it once its backoff has passed. */
  lemma RetriedIsClaimed(
    cfg: Config, before: seq<Move>, mark: Move, between: seq<Move>, t: TransferId, d: DispatcherId)
    requires var s := After(cfg, before);
             && Marks(s, mark, t) && s.dispatchers[mark.d].phase == MarkingRetry
             && t in s.records && s.records[t].outbox.status != OutboxDispatched
    requires LeftAlone(cfg, Step(cfg, After(cfg, before), mark), between, t)
    requires After(cfg, before + [mark] + between).now >= After(cfg, before).now + mark.delay
    ensures Claims(cfg, After(cfg, before + [mark] + between), ClaimRow(d, t), t)
  {
    hide Step, Claims, LeftAlone, Run;
    var s1 := After(cfg, before);
    MarkedExactly(cfg, s1, mark, t);
    LeftAloneStays(cfg, Step(cfg, s1, mark), between, t);
    AfterOneMore(cfg, before, mark, between);
    ClaimedExactly(cfg, After(cfg, before + [mark] + between), d, t);
  }

  /**
   What a committed `Create` stores: a CREATED transfer without hash or attempts, its first history row, and an
   outbox row that is available at once. With a key or an id in use, or without effect, it stores nothing.
   */
  lemma CreatedExactly(cfg: Config, s: System, key: string, url: string, id: TransferId, answer: Answer)
    ensures var s' := Step(cfg, s, Create(key, url, id, answer));
            var unused := (forall t | t in s.records :: s.records[t].key != key) && id !in s.records;
            if unused && (answer == Ok || answer.effect) then
              && s'.records.Keys == s.records.Keys + {id}
              && var rec := s'.records[id];
              && rec.key == key && rec.callbackUrl == url && rec.status == Created && rec.txHash == ""
              && rec.history == [HistoryRow(None, Created)] && rec.attempts == [] && rec.broadcasts == []
              && rec.outbox.status == OutboxPending && rec.outbox.availableAt == s.now && rec.outbox.attemptCount == 0
            else s' == s
  {
  }

  /** A new transfer is claimed by whoever asks first. */
  lemma NewIsClaimed(
    cfg: Config, before: seq<Move>, create: Move, between: seq<Move>, d: DispatcherId)
    requires Creates(After(cfg, before), create)
    requires LeftAlone(cfg, Step(cfg, After(cfg, before), create), between, create.id)
    ensures Claims(cfg, After(cfg, before + [create] + between), ClaimRow(d, create.id), create.id)
  {
    hide Step, Claims, LeftAlone, Run;
    var s1 := After(cfg, before);
    CreatedExactly(cfg, s1, create.key, create.callbackUrl, create.id, create.answer);
    LeftAloneStays(cfg, Step(cfg, s1, create), between, create.id);
    AfterOneMore(cfg, before, create, between);
    TimeGrowsAlong(cfg, Step(cfg, s1, create), between);
    TimeGrows(cfg, s1, create);
    ClaimedExactly(cfg, After(cfg, before + [create] + between), d, create.id);
  }

  lemma {:induction false} TimeGrowsAlong(cfg: Config, s: System, moves: seq<Move>)
    ensures Run(cfg, s, moves).now >= s.now
    decreases |moves|
  {
    hide Step;
    if moves != [] {
      TimeGrows(cfg, s, moves[0]);
      TimeGrowsAlong(cfg, Step(cfg, s, moves[0]), moves[1..]);
    }
  }

  // ----- deliveries

  /** A worker that takes a job and dies puts exactly that job back. */
  lemma DeliverThenCrash(cfg: Config, s: System, w: WorkerId, job: Job)
    requires job in s.queue && w !in s.workers
    ensures var s' := Step(cfg, s, Deliver(w, job));
            && s'.queue == s.queue - multiset{job} && w in s'.workers
            && s'.workers[w] == Worker(job.transfer, job.retry, Locking)
            && Step(cfg, s', Crash(w)) == s
  {
    var s' := Step(cfg, s, Deliver(w, job));
    assert (s.queue - multiset{job}) + multiset{job} == s.queue;
    assert s.workers[w := Worker(job.transfer, job.retry, Locking)] - {w} == s.workers;
  }
}
