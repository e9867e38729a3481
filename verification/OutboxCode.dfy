/**
 The outbox dispatcher as imperative code: claim a batch, then publish and mark each event in turn. A script
 decides what happens around each call: which moves other processes make first, and how the call ends. The class
 proves that the code makes exactly the moves the script and the claim query dictate, and what they achieve.
 */
module OutboxCode {
  import opened Transfers
  import opened Workers
  import opened Pipeline
  import opened Batches
  import Backoff

  /** What happens around one call of the dispatcher. */
  datatype Turn = Turn(before: seq<Move>, answer: Answer)

  /** How `dispatchEvent` ends: `MarkErred` is the only error it returns. */
  datatype EventOutcome = Published | RetryScheduled | MarkErred

  predicate Foreign(m: Move, me: DispatcherId) {
    !(m.ClaimRow? && m.d == me) && !(m.Dispatch? && m.d == me) && m != StopDispatcher(me)
  }

  predicate ForeignTurn(turn: Turn, me: DispatcherId) {
    forall i | 0 <= i < |turn.before| :: Foreign(turn.before[i], me)
  }

  predicate ForeignScript(script: seq<Turn>, me: DispatcherId) {
    forall i | 0 <= i < |script| :: ForeignTurn(script[i], me)
  }

  // ----- the claim query

  /** The claim's `WHERE` clause and what it returns of a row. */
  function Query(cfg: Config, s: System): TransferId -> Option<Claimed> {
    t =>
      if t in s.records && LongEnough(s.records[t].outbox, s.now, cfg.outboxTimeout)
      then Some(Claimed(t, s.records[t].outbox.attemptCount)) else None
  }

  /** The row has been available, or locked by whoever claimed it last, for long enough. */
  predicate LongEnough(row: OutboxRow, now: nat, timeout: nat) {
    match row.status
    case OutboxPending => row.availableAt <= now
    case OutboxRetry => row.availableAt <= now
    case OutboxProcessing => row.lockedAt.Some? && row.lockedAt.value + timeout <= now
    case OutboxDispatched => false
  }

  lemma QueryAt(cfg: Config, s: System, t: TransferId)
    ensures Query(cfg, s)(t) ==
              if t in s.records && LongEnough(s.records[t].outbox, s.now, cfg.outboxTimeout)
              then Some(Claimed(t, s.records[t].outbox.attemptCount)) else None
    ensures t in s.records ==>
              (Claimable(s.records[t].outbox, s.now, cfg.outboxTimeout) <==>
               LongEnough(s.records[t].outbox, s.now, cfg.outboxTimeout))
  {
  }

  /** Only claimable candidates are selected, and all of them unless the limit is reached. */
  lemma ClaimableAreSelected(cfg: Config, s: System, candidates: seq<TransferId>, limit: nat, row: Claimed)
    ensures var rows := Selected(Query(cfg, s), candidates, limit);
            && (row in rows ==>
                  && row.transfer in candidates && row.transfer in s.records
                  && row.attemptCount == s.records[row.transfer].outbox.attemptCount
                  && LongEnough(s.records[row.transfer].outbox, s.now, cfg.outboxTimeout))
            && (|rows| < limit && row.transfer in candidates && Query(cfg, s)(row.transfer) == Some(row) ==>
                  row in rows)
  {
    SelectedExactly(Query(cfg, s), candidates, limit, row);
  }

  function ClaimOf(me: DispatcherId): Claimed -> Move { (row: Claimed) => ClaimRow(me, row.transfer) }

  /** The moves that claim these rows. */
  function Claims(me: DispatcherId, rows: seq<Claimed>): seq<Move> { Moves(ClaimOf(me), rows) }

  lemma ClaimsMore(me: DispatcherId, rows: seq<Claimed>, row: Claimed)
    ensures Claims(me, rows + [row]) == Claims(me, rows) + [ClaimRow(me, row.transfer)] && Claims(me, []) == []
  {
    MovesMore(ClaimOf(me), rows, row);
  }

  class OutboxDispatcher {
    const cfg: Config
    const me: DispatcherId
    /** The outside world's decisions; when they run out nobody interferes and every call succeeds. */
    const script: seq<Turn>
    const retryDelay: int
    ghost const origin: System

    var sys: System
    /** The calls made so far. */
    var calls: nat
    /** Every move made so far, the others' and this dispatcher's. */
    ghost var trace: seq<Move>

    function TurnAt(k: nat): Turn {
      if k < |script| then script[k] else Turn([], Ok)
    }

    /** The backoff after the attempt with this number; one that has overflowed ends in the past, which is no wait. */
    function Pause(attempt: nat): nat {
      var backoff := Backoff.RetryBackoff(retryDelay, attempt);
      if backoff > 0 then backoff else 0
    }

    /** The moves around the `k`-th call when it is a publish or a mark of `row`. */
    ghost function Around(k: nat, row: Claimed): seq<Move> {
      TurnAt(k).before + [Dispatch(me, TurnAt(k).answer, Pause(row.attemptCount + 1))]
    }

    /** The moves around the calls from `k` on that publish and mark these events. */
    ghost function AroundEvents(k: nat, rows: seq<Claimed>): seq<Move> {
      if rows == [] then [] else
      var n := |rows| - 1;
      AroundEvents(k, rows[..n]) + Around(k + 2 * n, rows[n]) + Around(k + 2 * n + 1, rows[n])
    }

    lemma NothingAround(k: nat)
      ensures AroundEvents(k, []) == []
    {
    }

    lemma AroundMore(k: nat, rows: seq<Claimed>, n: nat)
      requires n < |rows|
      ensures AroundEvents(k, rows[..n+1])
           == AroundEvents(k, rows[..n]) + Around(k + 2 * n, rows[n]) + Around(k + 2 * n + 1, rows[n])
    {
      assert rows[..n+1][..n] == rows[..n];
    }

    /** How the event whose publish is the `k`-th call ends. */
    function OutcomeAt(k: nat): EventOutcome {
      if TurnAt(k + 1).answer.Err? then MarkErred
      else if TurnAt(k).answer == Ok then Published
      else RetryScheduled
    }

    ghost predicate Valid()
      reads this
    {
      Inv(sys) && sys == Run(cfg, origin, trace) && ForeignScript(script, me)
    }

    /** The batch still to be dispatched, and what comes next for its first event. */
    ghost predicate Holds(todo: seq<Claimed>, phase: Phase)
      reads this
    {
      && Valid()
      && if todo == [] then me !in sys.dispatchers
         else me in sys.dispatchers && sys.dispatchers[me] == Dispatcher(todo, phase)
    }

    constructor (cfg: Config, me: DispatcherId, retryDelay: int, sys: System, script: seq<Turn>)
      requires Inv(sys) && ForeignScript(script, me)
      ensures Valid() && this.sys == sys && this.origin == sys && this.script == script && trace == [] && calls == 0
      ensures this.cfg == cfg && this.me == me && this.retryDelay == retryDelay
    {
      this.cfg, this.me, this.retryDelay, this.sys, this.script := cfg, me, retryDelay, sys, script;
      this.origin, this.trace, this.calls := sys, [], 0;
    }

    method Perform(m: Move)
      requires Valid()
      modifies this`sys, this`trace
      ensures Valid() && sys == Step(cfg, old(sys), m) && trace == old(trace) + [m]
      ensures Forward(old(sys).records, sys.records)
    {
      hide Step, Inv, Forward;
      StepKeeps(cfg, sys, m);
      RunAppend(cfg, origin, trace, [m]);
      assert Run(cfg, sys, [m]) == Run(cfg, Step(cfg, sys, m), []);
      sys := Step(cfg, sys, m);
      trace := trace + [m];
    }

    lemma Untouched(m: Move)
      requires Foreign(m, me)
      ensures var s' := Step(cfg, sys, m);
              && (me in s'.dispatchers <==> me in sys.dispatchers)
              && (me in sys.dispatchers ==> s'.dispatchers[me] == sys.dispatchers[me])
    {
      hide WorkResult;
    }

    /** A call begins: the others go first; the turn tells how the call ends. */
    method Await() returns (turn: Turn)
      requires Valid()
      modifies this
      ensures Valid() && turn == TurnAt(old(calls)) && calls == old(calls) + 1
      ensures trace == old(trace) + turn.before && sys == Run(cfg, old(sys), turn.before)
      ensures me in sys.dispatchers <==> me in old(sys).dispatchers
      ensures me in sys.dispatchers ==> sys.dispatchers[me] == old(sys).dispatchers[me]
      ensures Forward(old(sys).records, sys.records)
    {
      hide Inv, Step, Evolves;
      ForwardReflexive(sys.records);
      turn := TurnAt(calls);
      calls := calls + 1;
      assert turn.before[0..] == turn.before;
      var i := 0;
      while i < |turn.before|
        invariant 0 <= i <= |turn.before| && Valid() && calls == old(calls) + 1
        invariant trace == old(trace) + turn.before[..i]
        invariant Run(cfg, sys, turn.before[i..]) == Run(cfg, old(sys), turn.before)
        invariant me in sys.dispatchers <==> me in old(sys).dispatchers
        invariant me in sys.dispatchers ==> sys.dispatchers[me] == old(sys).dispatchers[me]
        invariant Forward(old(sys).records, sys.records)
      {
        assert ForeignTurn(turn, me);
        Untouched(turn.before[i]);
        ghost var mid := sys.records;
        assert turn.before[i..][1..] == turn.before[i+1..];
        Perform(turn.before[i]);
        ForwardTransitive(old(sys).records, mid, sys.records);
        i := i + 1;
      }
    }

    /**
     `ClaimPendingOutbox`: claims exactly the rows its query selects at that moment. An error may hide a committed
     claim, whose rows then wait for the timeout; `taken` is what was really claimed.
     */
    method ClaimPendingOutbox(candidates: seq<TransferId>, batchSize: int)
      returns (ok: bool, todo: seq<Claimed>, ghost taken: seq<Claimed>)
      requires Valid() && me !in sys.dispatchers && Distinct(candidates)
      modifies this
      ensures calls == old(calls) + 1 && (ok <==> TurnAt(old(calls)).answer == Ok)
      ensures var turn := TurnAt(old(calls)); var s := Run(cfg, old(sys), turn.before);
              && taken == (if ok || turn.answer.effect
                           then Selected(Query(cfg, s), candidates, BatchLimit(batchSize)) else [])
              && trace == old(trace) + turn.before + Claims(me, taken) + (if ok then [] else [StopDispatcher(me)])
      ensures Holds(todo, Publishing) && todo == if ok then taken else []
      ensures old(calls) >= |script| ==> ok && todo == Selected(Query(cfg, old(sys)), candidates, BatchLimit(batchSize))
      ensures forall k | 0 <= k < |todo| :: todo[k].transfer in sys.records
    {
      hide Inv, Step, Selected;
      var turn := Await();
      todo, taken, ok := [], [], turn.answer == Ok;
      if ok || turn.answer.effect {
        var limit: nat := if batchSize <= 0 then 25 else batchSize;
        todo := ClaimRows(candidates, limit);
        taken := todo;
      }
      if !ok {
        Stops(sys);
        Perform(StopDispatcher(me));
        todo := [];
      }
    }

    lemma Stops(s: System)
      ensures me !in Step(cfg, s, StopDispatcher(me)).dispatchers
    {
    }

    /** The claiming statement itself. */
    method ClaimRows(candidates: seq<TransferId>, batchSize: nat) returns (todo: seq<Claimed>)
      requires Valid() && me !in sys.dispatchers && Distinct(candidates)
      modifies this`sys, this`trace
      ensures Holds(todo, Publishing) && todo == Selected(Query(cfg, old(sys)), candidates, batchSize)
      ensures trace == old(trace) + Claims(me, todo)
      ensures forall k | 0 <= k < |todo| :: todo[k].transfer in sys.records
    {
      hide Inv, Run, Forward, Claimable, LongEnough, Claims, Selected, Query, TakenSoFar;
      ClaimsMore(me, [], Claimed(0, 0));
      TakenFirst(Query(cfg, sys), candidates, batchSize);
      todo := [];
      var i := 0;
      while i < |candidates| && |todo| < batchSize
        invariant 0 <= i <= |candidates| && |todo| <= batchSize
        invariant Holds(todo, Publishing) && trace == old(trace) + Claims(me, todo)
        invariant sys.now == old(sys).now && sys.records.Keys == old(sys).records.Keys
        invariant forall k | 0 <= k < |todo| :: todo[k].transfer in sys.records
        invariant forall j | i <= j < |candidates| && candidates[j] in old(sys).records ::
                    sys.records[candidates[j]] == old(sys).records[candidates[j]]
        invariant TakenSoFar(Query(cfg, old(sys)), candidates, batchSize, i, todo)
      {
        var t := candidates[i];
        TakenNext(Query(cfg, old(sys)), candidates, batchSize, i, todo);
        QueryAt(cfg, old(sys), t);
        if t in sys.records && Claimable(sys.records[t].outbox, sys.now, cfg.outboxTimeout) {
          var row := Claimed(t, sys.records[t].outbox.attemptCount);
          ClaimsMore(me, todo, row);
          ClaimNext(t, todo);
          todo := todo + [row];
        }
        i := i + 1;
      }
      TakenAll(Query(cfg, old(sys)), candidates, batchSize, i, todo);
    }

    /** Claims one more row. */
    method ClaimNext(t: TransferId, ghost todo: seq<Claimed>)
      requires Holds(todo, Publishing)
      requires t in sys.records && Claimable(sys.records[t].outbox, sys.now, cfg.outboxTimeout)
      modifies this`sys, this`trace
      ensures Holds(todo + [Claimed(t, old(sys).records[t].outbox.attemptCount)], Publishing)
      ensures trace == old(trace) + [ClaimRow(me, t)]
      ensures sys.now == old(sys).now && sys.records.Keys == old(sys).records.Keys
      ensures forall u | u in old(sys).records && u != t :: sys.records[u] == old(sys).records[u]
    {
      hide Inv, Step, Run, Forward, Claimable;
      ClaimEffect(t, todo);
      Perform(ClaimRow(me, t));
    }

    lemma ClaimEffect(t: TransferId, todo: seq<Claimed>)
      requires t in sys.records && Claimable(sys.records[t].outbox, sys.now, cfg.outboxTimeout)
      requires if todo == [] then me !in sys.dispatchers
               else me in sys.dispatchers && sys.dispatchers[me] == Dispatcher(todo, Publishing)
      ensures var s' := Step(cfg, sys, ClaimRow(me, t));
              && me in s'.dispatchers
              && s'.dispatchers[me] == Dispatcher(todo + [Claimed(t, sys.records[t].outbox.attemptCount)], Publishing)
              && s'.now == sys.now && s'.records.Keys == sys.records.Keys
              && forall u | u in sys.records && u != t :: s'.records[u] == sys.records[u]
    {
    }

    /**
     `dispatchEvent`: publishes the first event of the batch and marks its row. Published and marked, the row is
     DISPATCHED; after a publish error it waits for its backoff, unless another dispatcher has had it DISPATCHED.
     */
    method DispatchEvent(todo: seq<Claimed>) returns (outcome: EventOutcome)
      requires todo != [] && Holds(todo, Publishing)
      modifies this
      ensures Holds(todo[1..], Publishing) && calls == old(calls) + 2
      ensures trace == old(trace) + Around(old(calls), todo[0]) + Around(old(calls) + 1, todo[0])
      ensures outcome == OutcomeAt(old(calls))
      ensures todo[0].transfer in sys.records
      ensures var row := sys.records[todo[0].transfer].outbox;
              && (outcome == Published ==> row.status == OutboxDispatched)
              && (outcome == RetryScheduled && row.status != OutboxDispatched ==>
                    && row.status == OutboxRetry && row.availableAt == sys.now + Pause(todo[0].attemptCount + 1)
                    && (0 < retryDelay && todo[0].attemptCount == 0 ==> row.availableAt == sys.now + retryDelay)
                    && (0 < retryDelay < Backoff.TWO_62 && todo[0].attemptCount > 0 ==>
                          row.availableAt == sys.now +
                            Backoff.Min(retryDelay * Backoff.Pow2(todo[0].attemptCount), 60_000_000_000)))
              && (outcome != MarkErred && row.status != OutboxDispatched ==> row.attemptCount > todo[0].attemptCount)
      ensures Forward(old(sys).records, sys.records)
    {
      hide Inv, Step, Evolves, Run;
      var turn := Await();
      HeadIsKnown();
      var backoff := Backoff.ComputeRetryBackoff(retryDelay, todo[0].attemptCount + 1);
      var delay: nat := if backoff > 0 then backoff else 0;
      PauseIs(todo[0].attemptCount);
      PublishEffect(turn.answer, delay);
      ghost var r1 := sys.records;
      Perform(Dispatch(me, turn.answer, delay));
      ForwardTransitive(old(sys).records, r1, sys.records);
      var published := turn.answer == Ok;
      ghost var r2 := sys.records;
      turn := Await();
      ForwardTransitive(old(sys).records, r2, sys.records);
      HeadIsKnown();
      MarkEffect(turn.answer, delay);
      ghost var r3 := sys.records;
      Perform(Dispatch(me, turn.answer, delay));
      ForwardTransitive(old(sys).records, r3, sys.records);
      return if turn.answer.Err? then MarkErred else if published then Published else RetryScheduled;
    }

    /** The pause after attempt `n + 1`, in numbers. */
    lemma PauseIs(n: nat)
      ensures 0 < retryDelay && n == 0 ==> Pause(n + 1) == retryDelay
      ensures 0 < retryDelay < Backoff.TWO_62 && n > 0 ==>
                Pause(n + 1) == Backoff.Min(retryDelay * Backoff.Pow2(n), 60_000_000_000)
    {
      if 0 < retryDelay < Backoff.TWO_62 && n > 0 {
        Backoff.DoubledIsExact(retryDelay, n);
      }
    }

    lemma HeadIsKnown()
      requires Inv(sys) && me in sys.dispatchers
      ensures CanDispatch(sys, me)
    {
      assert DispatcherInv(sys.records, sys.dispatchers[me]);
      assert ClaimedInv(sys.records, sys.dispatchers[me].todo[0]);
    }

    lemma PublishEffect(answer: Answer, delay: nat)
      requires CanDispatch(sys, me) && sys.dispatchers[me].phase == Publishing
      ensures var s' := Step(cfg, sys, Dispatch(me, answer, delay));
              && me in s'.dispatchers
              && s'.dispatchers[me] ==
                 sys.dispatchers[me].(phase := if answer == Ok then MarkingDispatched else MarkingRetry)
    {
    }

    lemma MarkEffect(answer: Answer, delay: nat)
      requires CanDispatch(sys, me) && sys.dispatchers[me].phase != Publishing
      ensures var s' := Step(cfg, sys, Dispatch(me, answer, delay)); var todo := sys.dispatchers[me].todo;
              && (if todo[1..] == [] then me !in s'.dispatchers
                  else me in s'.dispatchers && s'.dispatchers[me] == Dispatcher(todo[1..], Publishing))
              && todo[0].transfer in s'.records
              && var row := s'.records[todo[0].transfer].outbox;
              && (answer == Ok && sys.dispatchers[me].phase == MarkingDispatched ==> row.status == OutboxDispatched)
              && (answer == Ok && row.status != OutboxDispatched ==>
                    && row.status == OutboxRetry && row.availableAt == s'.now + delay
                    && row.attemptCount > todo[0].attemptCount)
    {
    }

    /**
     `DispatchPending`: claims exactly what the query selects when its turn comes, then publishes and marks every
     claimed event. Each published and marked event is DISPATCHED when the batch is done, whatever others did; an
     error is returned exactly when the claim or some mark erred; undisturbed, everything selected is DISPATCHED.
     */
    method DispatchPending(candidates: seq<TransferId>, batchSize: int)
      returns (failed: bool, claimed: seq<Claimed>, outcomes: seq<EventOutcome>)
      requires Valid() && me !in sys.dispatchers && Distinct(candidates)
      modifies this
      ensures Valid() && me !in sys.dispatchers && |outcomes| == |claimed|
      ensures var turn := TurnAt(old(calls)); var s := Run(cfg, old(sys), turn.before);
              && (turn.answer == Ok ==>
                    && claimed == Selected(Query(cfg, s), candidates, BatchLimit(batchSize))
                    && calls == old(calls) + 1 + 2 * |claimed|
                    && trace == old(trace) + turn.before + Claims(me, claimed)
                                + AroundEvents(old(calls) + 1, claimed))
              && (turn.answer.Err? ==>
                    && claimed == [] && calls == old(calls) + 1
                    && var selected := Selected(Query(cfg, s), candidates, BatchLimit(batchSize));
                    && var hidden := if turn.answer.effect then selected else [];
                    && trace == old(trace) + turn.before + Claims(me, hidden) + [StopDispatcher(me)])
              && (failed <==> turn.answer.Err? || MarkErred in outcomes)
      ensures forall i | 0 <= i < |claimed| :: outcomes[i] == OutcomeAt(old(calls) + 1 + 2 * i)
      ensures forall i | 0 <= i < |claimed| && outcomes[i] == Published ::
                && claimed[i].transfer in sys.records
                && sys.records[claimed[i].transfer].outbox.status == OutboxDispatched
      ensures old(calls) >= |script| ==>
                !failed && forall row | row in Selected(Query(cfg, old(sys)), candidates, BatchLimit(batchSize)) ::
                  row.transfer in sys.records && sys.records[row.transfer].outbox.status == OutboxDispatched
    {
      hide Inv, Step, Selected, Query, Claims, Run, AroundEvents, OutcomeAt;
      var ok;
      ghost var taken;
      ok, claimed, taken := ClaimPendingOutbox(candidates, batchSize);
      if !ok {
        return true, [], [];
      }
      failed, outcomes := DispatchAll(claimed);
      CalmOutcomes(old(calls), claimed, outcomes);
    }

    /** The loop over the claimed events. */
    method DispatchAll(claimed: seq<Claimed>) returns (failed: bool, outcomes: seq<EventOutcome>)
      requires Holds(claimed, Publishing)
      requires forall k | 0 <= k < |claimed| :: claimed[k].transfer in sys.records
      modifies this
      ensures Valid() && me !in sys.dispatchers && |outcomes| == |claimed|
      ensures calls == old(calls) + 2 * |claimed| && trace == old(trace) + AroundEvents(old(calls), claimed)
      ensures failed <==> MarkErred in outcomes
      ensures forall i | 0 <= i < |claimed| :: outcomes[i] == OutcomeAt(old(calls) + 2 * i)
      ensures forall i | 0 <= i < |claimed| && outcomes[i] == Published ::
                && claimed[i].transfer in sys.records
                && sys.records[claimed[i].transfer].outbox.status == OutboxDispatched
    {
      hide Inv, Step, Evolves, Run, Around, AroundEvents, OutcomeAt;
      outcomes, failed := [], false;
      NothingAround(calls);
      assert claimed[..0] == [];
      var i := 0;
      while i < |claimed|
        invariant 0 <= i <= |claimed| && |outcomes| == i
        invariant Holds(claimed[i..], Publishing)
        invariant calls == old(calls) + 2 * i && trace == old(trace) + AroundEvents(old(calls), claimed[..i])
        invariant failed <==> MarkErred in outcomes
        invariant forall k | 0 <= k < |claimed| :: claimed[k].transfer in sys.records
        invariant forall k | 0 <= k < i :: outcomes[k] == OutcomeAt(old(calls) + 2 * k)
        invariant forall k | 0 <= k < i && outcomes[k] == Published ::
                    sys.records[claimed[k].transfer].outbox.status == OutboxDispatched
      {
        ghost var before := sys.records;
        AroundMore(old(calls), claimed, i);
        var outcome := DispatchEvent(claimed[i..]);
        assert claimed[i..][1..] == claimed[i+1..];
        forall k | 0 <= k < i && outcomes[k] == Published
          ensures sys.records[claimed[k].transfer].outbox.status == OutboxDispatched
        {
          DispatchedStays(before[claimed[k].transfer], sys.records[claimed[k].transfer]);
        }
        outcomes := outcomes + [outcome];
        failed := failed || outcome == MarkErred;
        i := i + 1;
      }
      assert claimed[..i] == claimed;
    }

    /** When nobody interferes, every event of the batch is published and marked. */
    lemma CalmOutcomes(k: nat, claimed: seq<Claimed>, outcomes: seq<EventOutcome>)
      requires |outcomes| == |claimed| && forall i | 0 <= i < |claimed| :: outcomes[i] == OutcomeAt(k + 1 + 2 * i)
      ensures k >= |script| ==> MarkErred !in outcomes
      ensures k >= |script| ==>
                forall row | row in claimed ::
                  exists i | 0 <= i < |claimed| :: claimed[i] == row && outcomes[i] == Published
    {
    }
  }

  lemma DispatchedStays(a: TransferRecord, b: TransferRecord)
    requires Evolves(a, b) && a.outbox.status == OutboxDispatched
    ensures b.outbox.status == OutboxDispatched
  {
  }

  lemma ForwardTransitive(a: Records, b: Records, c: Records)
    requires Forward(a, b) && Forward(b, c)
    ensures Forward(a, c)
  {
    forall t | t in a ensures t in c && Evolves(a[t], c[t]) {
      EvolvesTransitive(a[t], b[t], c[t]);
    }
  }
}
