/**
 The webhook service as imperative code: one cycle schedules, claims a batch and sends it delivery by delivery. A
 script decides what happens around each call: which moves other processes make first, how the receiver responds
 and how the write ends. The class proves that the code makes exactly the moves the script and the claim query
 dictate, and what a cycle achieves.
 */
module WebhookCode {
  import opened Transfers
  import opened Webhooks
  import opened WebhookScheduling
  import opened Batches
  import Backoff

  /** What happens around one call: others' moves before it, and how dispatches and writes answer. */
  datatype Turn = Turn(before: seq<WorldMove>, response: Response, reply: Reply)

  predicate Foreign(m: WorldMove, me: SenderId) {
    m.Hook? ==>
      match m.h
      case Claim(w, _) => w != me
      case Send(w, _, _) => w != me
      case Mark(w, _) => w != me
      case Stop(w) => w != me
      case Tick(_) => true
  }

  predicate ForeignTurn(turn: Turn, me: SenderId) {
    forall i | 0 <= i < |turn.before| :: Foreign(turn.before[i], me)
  }

  predicate ForeignScript(script: seq<Turn>, me: SenderId) {
    forall i | 0 <= i < |script| :: ForeignTurn(script[i], me)
  }

  // ----- the claim query

  function SnapshotOf(lease: Positive, h: Hooks, ref: HistoryRef): Snapshot
    requires ref in h.rows
  {
    Snapshot(ref, h.now + lease, h.rows[ref].attemptCount, h.rows[ref].maxAttempts)
  }

  /** The claim's `WHERE` clause and what it returns of a row, with the lease the row gets. */
  function Query(lease: Positive, h: Hooks): HistoryRef -> Option<Snapshot> {
    ref => if ref in h.rows && LongEnough(h.rows[ref], h.now) then Some(SnapshotOf(lease, h, ref)) else None
  }

  /** The next attempt is due, or the lease of whoever claimed the row last has run out. */
  predicate LongEnough(row: Delivery, now: nat) {
    match row.status
    case HookPending => row.nextAttemptAt.Some? && row.nextAttemptAt.value <= now
    case HookRetrying => row.nextAttemptAt.Some? && row.nextAttemptAt.value <= now
    case HookInProgress => row.leaseExpiresAt.Some? && row.leaseExpiresAt.value <= now
    case _ => false
  }

  lemma QueryAt(lease: Positive, h: Hooks, ref: HistoryRef)
    ensures Query(lease, h)(ref) ==
              if ref in h.rows && LongEnough(h.rows[ref], h.now) then Some(SnapshotOf(lease, h, ref)) else None
    ensures ref in h.rows ==> (Due(h.rows[ref], h.now) <==> LongEnough(h.rows[ref], h.now))
  {
  }

  /** Only due candidates are selected, and all of them unless the limit is reached. */
  lemma DueAreSelected(lease: Positive, h: Hooks, candidates: seq<HistoryRef>, limit: nat, snap: Snapshot)
    ensures var rows := Selected(Query(lease, h), candidates, limit);
            && (snap in rows ==>
                  && snap.ref in candidates && snap.ref in h.rows && LongEnough(h.rows[snap.ref], h.now)
                  && snap.lease == h.now + lease && snap.attemptCount == h.rows[snap.ref].attemptCount
                  && snap.maxAttempts == h.rows[snap.ref].maxAttempts)
            && (|rows| < limit && snap.ref in candidates && Query(lease, h)(snap.ref) == Some(snap) ==> snap in rows)
  {
    hide LongEnough;
    SelectedExactly(Query(lease, h), candidates, limit, snap);
  }

  function ClaimOf(me: SenderId): Snapshot -> WorldMove { (snap: Snapshot) => Hook(Claim(me, snap.ref)) }

  /** The moves that claim these rows. */
  function Claims(me: SenderId, todo: seq<Snapshot>): seq<WorldMove> { Moves(ClaimOf(me), todo) }

  lemma ClaimsMore(me: SenderId, todo: seq<Snapshot>, snap: Snapshot)
    ensures Claims(me, todo + [snap]) == Claims(me, todo) + [Hook(Claim(me, snap.ref))] && Claims(me, []) == []
  {
    MovesMore(ClaimOf(me), todo, snap);
  }

  // ----- what a delivery can come to

  predicate Is2xx(response: Response) { response.Code? && 200 <= response.code < 300 }

  /** The row as the source writes it for this response: counted, with the status, code and times it calls for. */
  predicate WrittenFor(row: Delivery, snap: Snapshot, response: Response, retryAt: nat, now: nat) {
    && row.attemptCount == snap.attemptCount + 1 && row.leaseExpiresAt == None
    && (row.status == HookDelivered <==> Is2xx(response))
    && (row.status == HookFailed <==> !Is2xx(response) && snap.attemptCount + 1 >= snap.maxAttempts)
    && (row.status == HookRetrying <==> !Is2xx(response) && snap.attemptCount + 1 < snap.maxAttempts)
    && row.responseCode == (if response.Code? && response.code != 0 then Some(response.code) else None)
    && row.nextAttemptAt == (if row.status == HookRetrying then Some(retryAt) else None)
    && row.deliveredAt == (if row.status == HookDelivered then Some(now) else None)
  }

  /** A result has been written under the lease of this claim. */
  predicate Recorded(rows: Deliveries, snap: Snapshot) {
    snap.ref in rows && snap.lease in rows[snap.ref].landed
  }

  /** A later claim has taken the delivery over. */
  predicate TakenOver(rows: Deliveries, snap: Snapshot) {
    snap.ref in rows && Superseded(rows[snap.ref], snap.lease)
  }

  predicate Dealt(rows: Deliveries, snap: Snapshot, lost: bool) {
    if lost then TakenOver(rows, snap) else Recorded(rows, snap)
  }

  class WebhookService {
    const cfg: Config
    const me: SenderId
    const maxAttempts: Positive
    const initialBackoff: int
    /** The outside world's decisions; when they run out nobody interferes and every call succeeds. */
    const script: seq<Turn>
    ghost const origin: World

    var world: World
    /** The calls made so far. */
    var calls: nat
    /** Every move made so far, the others' and this sender's. */
    ghost var trace: seq<WorldMove>

    function TurnAt(k: nat): Turn {
      if k < |script| then script[k] else Turn([], Code(200), Written)
    }

    /** The backoff after the attempt with this number; the model has no backoff that overflows to nothing. */
    function Pause(attempt: nat): Positive {
      var backoff := Backoff.BackoffForAttempt(initialBackoff, attempt);
      if backoff > 0 then backoff else 1
    }

    /** The moves around one delivery, whose dispatch is the `k`-th call. */
    ghost function Around(k: nat, snap: Snapshot): seq<WorldMove> {
      TurnAt(k).before + [Hook(Send(me, TurnAt(k).response, Pause(snap.attemptCount + 1)))]
        + TurnAt(k + 1).before + [Hook(Mark(me, TurnAt(k + 1).reply))]
    }

    ghost function AroundDeliveries(k: nat, snaps: seq<Snapshot>): seq<WorldMove> {
      if snaps == [] then [] else
      var n := |snaps| - 1;
      AroundDeliveries(k, snaps[..n]) + Around(k + 2 * n, snaps[n])
    }

    lemma NothingAround(k: nat)
      ensures AroundDeliveries(k, []) == []
    {
    }

    lemma AroundMore(k: nat, snaps: seq<Snapshot>, n: nat)
      requires n < |snaps|
      ensures AroundDeliveries(k, snaps[..n+1]) == AroundDeliveries(k, snaps[..n]) + Around(k + 2 * n, snaps[n])
    {
      assert snaps[..n+1][..n] == snaps[..n];
    }

    ghost predicate Valid()
      reads this
    {
      && WebhookScheduling.Inv(cfg, world)
      && world == WebhookScheduling.Run(cfg, origin, trace)
      && ForeignScript(script, me)
    }

    ghost predicate Holds(todo: seq<Snapshot>, phase: Phase)
      reads this
    {
      && Valid()
      && if todo == [] then me !in world.hooks.senders
         else me in world.hooks.senders && world.hooks.senders[me] == Sender(todo, phase)
    }

    /** Nobody will interfere any more and every call will succeed. */
    ghost predicate Calm()
      reads this
    {
      calls >= |script|
    }

    constructor (
      cfg: Config, me: SenderId, maxAttempts: Positive, initialBackoff: int, world: World, script: seq<Turn>)
      requires WebhookScheduling.Inv(cfg, world) && ForeignScript(script, me)
      ensures Valid() && this.world == world && this.origin == world && this.script == script
      ensures this.cfg == cfg && this.me == me && this.maxAttempts == maxAttempts
      ensures this.initialBackoff == initialBackoff && trace == [] && calls == 0
    {
      this.cfg, this.me, this.maxAttempts, this.initialBackoff := cfg, me, maxAttempts, initialBackoff;
      this.world, this.script := world, script;
      this.origin, this.trace, this.calls := world, [], 0;
    }

    method Perform(m: WorldMove)
      requires Valid()
      modifies this`world, this`trace
      ensures Valid() && world == WebhookScheduling.Step(cfg, old(world), m) && trace == old(trace) + [m]
      ensures Webhooks.Forward(old(world).hooks.rows, world.hooks.rows)
    {
      hide WebhookScheduling.Step, WebhookScheduling.Inv, Webhooks.Forward;
      WebhookScheduling.StepKeeps(cfg, world, m);
      WebhookScheduling.RunAppend(cfg, origin, trace, [m]);
      assert WebhookScheduling.Run(cfg, world, [m])
          == WebhookScheduling.Run(cfg, WebhookScheduling.Step(cfg, world, m), []);
      world := WebhookScheduling.Step(cfg, world, m);
      trace := trace + [m];
    }

    lemma Untouched(m: WorldMove)
      requires Foreign(m, me)
      ensures var s, s' := world.hooks.senders, WebhookScheduling.Step(cfg, world, m).hooks.senders;
              (me in s' <==> me in s) && (me in s ==> s'[me] == s[me])
    {
    }

    /** A call begins: the others go first; the turn tells how the call ends. */
    method Await() returns (turn: Turn)
      requires Valid()
      modifies this
      ensures Valid() && turn == TurnAt(old(calls)) && calls == old(calls) + 1
      ensures trace == old(trace) + turn.before && world == WebhookScheduling.Run(cfg, old(world), turn.before)
      ensures old(Calm()) ==> world == old(world)
      ensures me in world.hooks.senders <==> me in old(world).hooks.senders
      ensures me in world.hooks.senders ==> world.hooks.senders[me] == old(world).hooks.senders[me]
      ensures Webhooks.Forward(old(world).hooks.rows, world.hooks.rows)
    {
      hide WebhookScheduling.Inv, WebhookScheduling.Step, RowEvolves;
      Webhooks.ForwardReflexive(world.hooks.rows);
      turn := TurnAt(calls);
      calls := calls + 1;
      assert turn.before[0..] == turn.before;
      var i := 0;
      while i < |turn.before|
        invariant 0 <= i <= |turn.before| && Valid() && calls == old(calls) + 1
        invariant trace == old(trace) + turn.before[..i]
        invariant WebhookScheduling.Run(cfg, world, turn.before[i..])
               == WebhookScheduling.Run(cfg, old(world), turn.before)
        invariant me in world.hooks.senders <==> me in old(world).hooks.senders
        invariant me in world.hooks.senders ==> world.hooks.senders[me] == old(world).hooks.senders[me]
        invariant Webhooks.Forward(old(world).hooks.rows, world.hooks.rows)
      {
        assert ForeignTurn(turn, me);
        Untouched(turn.before[i]);
        ghost var mid := world.hooks.rows;
        assert turn.before[i..][1..] == turn.before[i+1..];
        Perform(turn.before[i]);
        Webhooks.ForwardTransitive(old(world).hooks.rows, mid, world.hooks.rows);
        i := i + 1;
      }
    }

    /** `ScheduleTransferStatusDeliveries`: an error may hide a committed insert. */
    method ScheduleDeliveries() returns (ok: bool)
      requires Valid() && me !in world.hooks.senders
      modifies this
      ensures Valid() && me !in world.hooks.senders && calls == old(calls) + 1
      ensures var turn := TurnAt(old(calls)); var w := WebhookScheduling.Run(cfg, old(world), turn.before);
              && (ok <==> turn.reply == Written)
              && trace == old(trace) + turn.before
                          + (if ok || turn.reply.effect then [Schedule(maxAttempts)] else [])
              && (ok ==> world == ScheduleMove(w, maxAttempts) && Eligible(w.sys.records) == world.hooks.rows.Keys)
    {
      hide WebhookScheduling.Inv, WebhookScheduling.Run, Eligible, ScheduleMove;
      var turn := Await();
      ok := turn.reply == Written;
      if ok || turn.reply.effect {
        ScheduleEffect();
        Perform(Schedule(maxAttempts));
      }
    }

    lemma ScheduleEffect()
      requires WebhookScheduling.Inv(cfg, world)
      ensures var world' := ScheduleMove(world, maxAttempts);
              && Eligible(world.sys.records) == world'.hooks.rows.Keys && world'.hooks.senders == world.hooks.senders
    {
      hide Pipeline.Inv, Webhooks.Inv, Eligible;
      LinkedIsEligible(world);
      PassIsExact(world, maxAttempts, maxAttempts);
    }

    /**
     `ClaimDueDeliveries`: claims exactly the rows its query selects at that moment, all under one lease value. An
     error may hide a committed claim, whose rows then wait for the lease to expire; `taken` is what was claimed.
     */
    method ClaimDueDeliveries(candidates: seq<HistoryRef>, limit: int)
      returns (ok: bool, todo: seq<Snapshot>, ghost taken: seq<Snapshot>)
      requires Valid() && me !in world.hooks.senders && Distinct(candidates)
      modifies this
      ensures calls == old(calls) + 1 && (ok <==> TurnAt(old(calls)).reply == Written)
      ensures var turn := TurnAt(old(calls)); var w := WebhookScheduling.Run(cfg, old(world), turn.before);
              && taken == (if ok || turn.reply.effect
                           then Selected(Query(cfg.leaseDuration, w.hooks), candidates, BatchLimit(limit)) else [])
              && trace == old(trace) + turn.before + Claims(me, taken) + (if ok then [] else [Hook(Stop(me))])
      ensures Holds(todo, Dispatching) && todo == if ok then taken else []
      ensures InHand(world.hooks.rows, todo, 0)
      ensures Webhooks.Forward(old(world).hooks.rows, world.hooks.rows)
    {
      hide WebhookScheduling.Inv, WebhookScheduling.Step, WebhookScheduling.Run, Selected, RowEvolves;
      var turn := Await();
      todo, taken, ok := [], [], turn.reply == Written;
      if ok || turn.reply.effect {
        ghost var mid := world.hooks.rows;
        var rows: nat := if limit <= 0 then 25 else limit;
        todo := ClaimRows(candidates, rows);
        taken := todo;
        Webhooks.ForwardTransitive(old(world).hooks.rows, mid, world.hooks.rows);
      }
      if !ok {
        ghost var mid := world.hooks.rows;
        Stops();
        Perform(Hook(Stop(me)));
        Webhooks.ForwardTransitive(old(world).hooks.rows, mid, world.hooks.rows);
        todo := [];
      }
    }

    lemma Stops()
      ensures me !in WebhookScheduling.Step(cfg, world, Hook(Stop(me))).hooks.senders
    {
    }

    /** From the `i`-th on, the claimed rows are different rows and still carry their leases. */
    ghost predicate InHand(rows: Deliveries, todo: seq<Snapshot>, i: nat) {
      && (forall k | i <= k < |todo| :: todo[k].ref in rows && Fenced(rows[todo[k].ref], todo[k].lease))
      && (forall j, k | 0 <= j < k < |todo| :: todo[j].ref != todo[k].ref)
    }

    lemma NothingInHand(rows: Deliveries)
      ensures InHand(rows, [], 0)
    {
    }

    lemma InHandMore(a: Deliveries, b: Deliveries, todo: seq<Snapshot>, snap: Snapshot)
      requires InHand(a, todo, 0) && (forall k | 0 <= k < |todo| :: todo[k].ref != snap.ref)
      requires a.Keys == b.Keys && forall ref | ref in a && ref != snap.ref :: b[ref] == a[ref]
      requires snap.ref in b && Fenced(b[snap.ref], snap.lease)
      ensures InHand(b, todo + [snap], 0)
    {
    }

    /** The claiming statement itself. */
    method ClaimRows(candidates: seq<HistoryRef>, limit: nat) returns (todo: seq<Snapshot>)
      requires Valid() && me !in world.hooks.senders && Distinct(candidates)
      modifies this`world, this`trace
      ensures Holds(todo, Dispatching)
      ensures todo == Selected(Query(cfg.leaseDuration, old(world).hooks), candidates, limit)
      ensures trace == old(trace) + Claims(me, todo) && InHand(world.hooks.rows, todo, 0)
      ensures Webhooks.Forward(old(world).hooks.rows, world.hooks.rows)
    {
      hide WebhookScheduling.Inv, WebhookScheduling.Run, Selected, Query, TakenSoFar, Due, Claims;
      hide LongEnough;
      hide InHand, Webhooks.Forward;
      NothingInHand(world.hooks.rows);
      ghost var seen: set<HistoryRef> := {};
      todo := [];
      var i := 0;
      ClaimsMore(me, [], Snapshot(HistoryRef(0, 0), 0, 0, 0));
      Webhooks.ForwardReflexive(world.hooks.rows);
      TakenFirst(Query(cfg.leaseDuration, world.hooks), candidates, limit);
      while i < |candidates| && |todo| < limit
        invariant 0 <= i <= |candidates| && |todo| <= limit
        invariant Holds(todo, Dispatching) && trace == old(trace) + Claims(me, todo)
        invariant world.hooks.now == old(world).hooks.now && world.hooks.rows.Keys == old(world).hooks.rows.Keys
        invariant forall j | i <= j < |candidates| && candidates[j] in old(world).hooks.rows ::
                    world.hooks.rows[candidates[j]] == old(world).hooks.rows[candidates[j]]
        invariant forall k | 0 <= k < |todo| :: todo[k].ref in seen
        invariant forall j | i <= j < |candidates| :: candidates[j] !in seen
        invariant TakenSoFar(Query(cfg.leaseDuration, old(world).hooks), candidates, limit, i, todo)
        invariant InHand(world.hooks.rows, todo, 0)
        invariant Webhooks.Forward(old(world).hooks.rows, world.hooks.rows)
      {
        var ref := candidates[i];
        TakenNext(Query(cfg.leaseDuration, old(world).hooks), candidates, limit, i, todo);
        QueryAt(cfg.leaseDuration, old(world).hooks, ref);
        if ref in world.hooks.rows && Due(world.hooks.rows[ref], world.hooks.now) {
          var snap := SnapshotOf(cfg.leaseDuration, world.hooks, ref);
          ClaimsMore(me, todo, snap);
          ghost var mid := world.hooks.rows;
          ClaimNext(ref, todo);
          Webhooks.ForwardTransitive(old(world).hooks.rows, mid, world.hooks.rows);
          todo := todo + [snap];
        }
        seen := seen + {ref};
        i := i + 1;
      }
      TakenAll(Query(cfg.leaseDuration, old(world).hooks), candidates, limit, i, todo);
    }

    /** Claims one more row. */
    method ClaimNext(ref: HistoryRef, ghost todo: seq<Snapshot>)
      requires Holds(todo, Dispatching) && InHand(world.hooks.rows, todo, 0)
      requires ref in world.hooks.rows && Due(world.hooks.rows[ref], world.hooks.now)
      requires forall k | 0 <= k < |todo| :: todo[k].ref != ref
      modifies this`world, this`trace
      ensures var more := todo + [SnapshotOf(cfg.leaseDuration, old(world).hooks, ref)];
              Holds(more, Dispatching) && InHand(world.hooks.rows, more, 0)
      ensures trace == old(trace) + [Hook(Claim(me, ref))]
      ensures world.hooks.now == old(world).hooks.now && world.hooks.rows.Keys == old(world).hooks.rows.Keys
      ensures forall r | r in old(world).hooks.rows && r != ref :: world.hooks.rows[r] == old(world).hooks.rows[r]
      ensures Webhooks.Forward(old(world).hooks.rows, world.hooks.rows)
    {
      hide WebhookScheduling.Inv, WebhookScheduling.Step, WebhookScheduling.Run, Due, InHand, Webhooks.Forward;
      ClaimEffect(ref, todo);
      Perform(Hook(Claim(me, ref)));
      InHandMore(old(world).hooks.rows, world.hooks.rows, todo, SnapshotOf(cfg.leaseDuration, old(world).hooks, ref));
    }

    lemma ClaimEffect(ref: HistoryRef, todo: seq<Snapshot>)
      requires ref in world.hooks.rows && Due(world.hooks.rows[ref], world.hooks.now)
      requires if todo == [] then me !in world.hooks.senders
               else me in world.hooks.senders && world.hooks.senders[me] == Sender(todo, Dispatching)
      ensures var h := world.hooks; var h' := WebhookScheduling.Step(cfg, world, Hook(Claim(me, ref))).hooks;
              var snap := SnapshotOf(cfg.leaseDuration, h, ref);
              && me in h'.senders && h'.now == h.now && h'.rows.Keys == h.rows.Keys
              && h'.senders[me] == Sender(todo + [snap], Dispatching)
              && Fenced(h'.rows[ref], snap.lease)
              && forall r | r in h.rows && r != ref :: h'.rows[r] == h.rows[r]
    {
    }

    /**
     `processDelivery`: dispatches, judges the response and writes the verdict under the lease. It returns an error
     exactly when the write breaks or the table refuses the status code. Without error the verdict has been
     written, or the lease was lost to a later claim.
     */
    method ProcessDelivery(todo: seq<Snapshot>) returns (ok: bool, leaseLost: bool)
      requires todo != [] && Holds(todo, Dispatching)
      modifies this
      ensures calls == old(calls) + 2 && trace == old(trace) + Around(old(calls), todo[0])
      ensures ok <==> TurnAt(old(calls) + 1).reply == Written && (leaseLost || Recordable(TurnAt(old(calls)).response))
      ensures ok ==> Holds(todo[1..], Dispatching)
      ensures !ok ==> Valid() && me !in world.hooks.senders
      ensures leaseLost ==> TakenOver(world.hooks.rows, todo[0])
      ensures var sentAt := WebhookScheduling.Run(cfg, old(world), TurnAt(old(calls)).before).hooks.now;
              ok && !leaseLost ==>
                && Recorded(world.hooks.rows, todo[0])
                && WrittenFor(world.hooks.rows[todo[0].ref], todo[0], TurnAt(old(calls)).response,
                              sentAt + Pause(todo[0].attemptCount + 1), world.hooks.now)
      ensures var exact := initialBackoff * Backoff.Pow2(todo[0].attemptCount);
              0 < initialBackoff && exact < Backoff.TWO_63 ==> Pause(todo[0].attemptCount + 1) == exact
      ensures Webhooks.Forward(old(world).hooks.rows, world.hooks.rows)
      ensures old(Calm()) && InHand(old(world).hooks.rows, todo, 0) ==> !leaseLost && InHand(world.hooks.rows, todo, 1)
    {
      hide WebhookScheduling.Inv, WebhookScheduling.Run, Webhooks.Forward, Fits, WrittenFor, InHand;
      hide Recordable, Recorded, TakenOver, Pause;
      PauseIs(todo[0].attemptCount);
      ghost var retryAt;
      var response;
      response, retryAt := Dispatch(todo);
      ghost var mid := world.hooks.rows;
      ok, leaseLost := WriteVerdict(todo, response, retryAt);
      Webhooks.ForwardTransitive(old(world).hooks.rows, mid, world.hooks.rows);
    }

    /** The pause after attempt `n + 1`, in numbers. */
    lemma PauseIs(n: nat)
      ensures 0 < initialBackoff && initialBackoff * Backoff.Pow2(n) < Backoff.TWO_63 ==>
                Pause(n + 1) == initialBackoff * Backoff.Pow2(n)
    {
      if 0 < initialBackoff && initialBackoff * Backoff.Pow2(n) < Backoff.TWO_63 {
        Backoff.ScaledMonotone(initialBackoff, 1, Backoff.Pow2(n));
        Backoff.BackoffForAttemptExact(initialBackoff, n + 1);
      }
    }

    /** The sender has dispatched the first delivery of its batch and judged the response. */
    ghost predicate Judged(todo: seq<Snapshot>, response: Response, retryAt: nat)
      reads this
    {
      && Valid() && todo != []
      && ReadyToMark(world.hooks, me) && world.hooks.senders[me].todo == todo
      && Fits(world.hooks.senders[me].phase.verdict, todo[0], response, retryAt)
    }

    method Dispatch(todo: seq<Snapshot>) returns (response: Response, ghost retryAt: nat)
      requires todo != [] && Holds(todo, Dispatching)
      modifies this
      ensures Judged(todo, response, retryAt) && response == TurnAt(old(calls)).response && calls == old(calls) + 1
      ensures var sentAt := WebhookScheduling.Run(cfg, old(world), TurnAt(old(calls)).before).hooks.now;
              retryAt == sentAt + Pause(todo[0].attemptCount + 1)
      ensures trace == old(trace) + TurnAt(old(calls)).before
                       + [Hook(Send(me, response, Pause(todo[0].attemptCount + 1)))]
      ensures Webhooks.Forward(old(world).hooks.rows, world.hooks.rows)
      ensures old(Calm()) && InHand(old(world).hooks.rows, todo, 0) ==> InHand(world.hooks.rows, todo, 0)
    {
      hide WebhookScheduling.Inv, WebhookScheduling.Step, WebhookScheduling.Run, Webhooks.Forward, Fits, InHand;
      var turn := Await();
      HeadIsKnown();
      response := turn.response;
      var backoff := Pause(todo[0].attemptCount + 1);
      retryAt := world.hooks.now + backoff;
      SendEffect(response, backoff);
      ghost var mid := world.hooks.rows;
      Perform(Hook(Send(me, response, backoff)));
      Webhooks.ForwardTransitive(old(world).hooks.rows, mid, world.hooks.rows);
      InHandSame(mid, world.hooks.rows, todo);
    }

    method WriteVerdict(todo: seq<Snapshot>, response: Response, ghost retryAt: nat) returns (ok: bool, leaseLost: bool)
      requires Judged(todo, response, retryAt)
      modifies this
      ensures calls == old(calls) + 1
      ensures trace == old(trace) + TurnAt(old(calls)).before + [Hook(Mark(me, TurnAt(old(calls)).reply))]
      ensures ok <==> TurnAt(old(calls)).reply == Written && (leaseLost || Recordable(response))
      ensures ok ==> Holds(todo[1..], Dispatching)
      ensures !ok ==> Valid() && me !in world.hooks.senders
      ensures leaseLost ==> TakenOver(world.hooks.rows, todo[0])
      ensures ok && !leaseLost ==>
                && Recorded(world.hooks.rows, todo[0])
                && WrittenFor(world.hooks.rows[todo[0].ref], todo[0], response, retryAt, world.hooks.now)
      ensures Webhooks.Forward(old(world).hooks.rows, world.hooks.rows)
      ensures old(Calm()) && InHand(old(world).hooks.rows, todo, 0) ==> !leaseLost && InHand(world.hooks.rows, todo, 1)
    {
      hide WebhookScheduling.Inv, WebhookScheduling.Step, WebhookScheduling.Run, Webhooks.Forward, Fits, WrittenFor;
      hide Recordable, Recorded, TakenOver, InHand;
      var turn := Await();
      HeadIsKnown();
      var snap := todo[0];
      var fenced := Fenced(world.hooks.rows[snap.ref], snap.lease);
      ok := turn.reply == Written && (!fenced || Recordable(response));
      leaseLost := !fenced;
      MarkEffect(turn.reply, response, retryAt);
      ghost var mid := world.hooks.rows;
      Perform(Hook(Mark(me, turn.reply)));
      Webhooks.ForwardTransitive(old(world).hooks.rows, mid, world.hooks.rows);
      InHandRest(mid, world.hooks.rows, todo);
    }

    /** A dispatch changes no lease. */
    ghost predicate SameLeases(a: Deliveries, b: Deliveries) {
      && a.Keys == b.Keys
      && forall ref | ref in a :: b[ref].status == a[ref].status && b[ref].leaseExpiresAt == a[ref].leaseExpiresAt
    }

    lemma InHandSame(a: Deliveries, b: Deliveries, todo: seq<Snapshot>)
      requires SameLeases(a, b)
      ensures InHand(a, todo, 0) ==> InHand(b, todo, 0)
    {
    }

    lemma InHandRest(a: Deliveries, b: Deliveries, todo: seq<Snapshot>)
      requires todo != [] && a.Keys == b.Keys && forall ref | ref in a && ref != todo[0].ref :: b[ref] == a[ref]
      ensures InHand(a, todo, 0) ==>
                todo[0].ref in a && Fenced(a[todo[0].ref], todo[0].lease) && InHand(b, todo, 1)
    {
    }

    lemma HeadIsKnown()
      requires WebhookScheduling.Inv(cfg, world) && me in world.hooks.senders
      ensures CanSend(world.hooks, me)
    {
      assert SenderInv(cfg.leaseDuration, world.hooks.rows, world.hooks.senders[me]);
      assert RefKnown(world.hooks.rows, world.hooks.senders[me].todo[0]);
    }

    /** The verdict is the one the response calls for. */
    ghost predicate Fits(v: Verdict, snap: Snapshot, response: Response, retryAt: nat) {
      && v.code == (if response.Code? then response.code else 0)
      && (v.MarkDelivered? <==> Is2xx(response))
      && (v.MarkFailed? <==> !Is2xx(response) && snap.attemptCount + 1 >= snap.maxAttempts)
      && (v.MarkRetry? ==> v.nextAttemptAt == retryAt)
    }

    lemma SendEffect(response: Response, backoff: Positive)
      requires CanSend(world.hooks, me) && world.hooks.senders[me].phase == Dispatching
      ensures var h := world.hooks;
              var h' := WebhookScheduling.Step(cfg, world, Hook(Send(me, response, backoff))).hooks;
              var todo := h.senders[me].todo;
              && me in h'.senders && h'.senders[me].todo == todo && h'.senders[me].phase.Marking?
              && Fits(h'.senders[me].phase.verdict, todo[0], response, h.now + backoff)
              && SameLeases(h.rows, h'.rows)
    {
    }

    lemma MarkEffect(reply: Reply, response: Response, retryAt: nat)
      requires WebhookScheduling.Inv(cfg, world) && ReadyToMark(world.hooks, me)
      requires Fits(world.hooks.senders[me].phase.verdict, world.hooks.senders[me].todo[0], response, retryAt)
      ensures var h := world.hooks; var h' := WebhookScheduling.Step(cfg, world, Hook(Mark(me, reply))).hooks;
              var todo := h.senders[me].todo;
              var ok := reply == Written && (!HoldsLease(h, me) || Recordable(response));
              && h'.rows.Keys == h.rows.Keys
              && (if ok && todo[1..] != []
                  then me in h'.senders && h'.senders[me] == Sender(todo[1..], Dispatching)
                  else me !in h'.senders)
              && (!HoldsLease(h, me) ==> TakenOver(h'.rows, todo[0]))
              && (ok && HoldsLease(h, me) ==>
                    && Recorded(h'.rows, todo[0])
                    && WrittenFor(h'.rows[todo[0].ref], todo[0], response, retryAt, h'.now))
              && forall ref | ref in h.rows && ref != todo[0].ref :: h'.rows[ref] == h.rows[ref]
    {
      hide WebhookScheduling.Inv, RowInv;
      var h := world.hooks;
      if Lands(h, me, reply) {
        var row := h.rows[h.senders[me].todo[0].ref];
        assert (row.landed + [h.senders[me].todo[0].lease])[|row.landed|] == h.senders[me].todo[0].lease;
      }
      if !HoldsLease(h, me) {
        HooksHold();
        LeaseLostMeansOvertaken(cfg.leaseDuration, h, me);
      }
    }

    lemma HooksHold()
      requires WebhookScheduling.Inv(cfg, world)
      ensures Webhooks.Inv(cfg.leaseDuration, world.hooks)
    {
    }

    /** The world in which the claim of a cycle that begins with the `k`-th call is made. */
    ghost function ClaimWorld(w: World, k: nat): World {
      var scheduled := ScheduleMove(WebhookScheduling.Run(cfg, w, TurnAt(k).before), maxAttempts);
      WebhookScheduling.Run(cfg, scheduled, TurnAt(k + 1).before)
    }

    /**
     `RunCycle`: schedules, claims and sends. An erring schedule, claim or write ends the cycle. Otherwise every
     eligible history row has its delivery, exactly the rows the query selected were claimed, and each of them has
     had its result recorded under the lease of this cycle or was taken over by a later claim; when nobody
     interferes, none was taken over.
     */
    method RunCycle(candidates: seq<HistoryRef>, batchSize: int)
      returns (ok: bool, claimed: seq<Snapshot>, lost: seq<bool>)
      requires Valid() && me !in world.hooks.senders && Distinct(candidates)
      modifies this
      ensures Valid() && me !in world.hooks.senders && |lost| <= |claimed|
      ensures var w := WebhookScheduling.Run(cfg, old(world), TurnAt(old(calls)).before);
              && (TurnAt(old(calls)).reply != Written ==>
                    && !ok && claimed == [] && calls == old(calls) + 1
                    && trace == old(trace) + TurnAt(old(calls)).before
                                + (if TurnAt(old(calls)).reply.effect then [Schedule(maxAttempts)] else []))
              && (TurnAt(old(calls)).reply == Written ==> Eligible(w.sys.records) <= world.hooks.rows.Keys)
      ensures TurnAt(old(calls)).reply == Written && TurnAt(old(calls) + 1).reply != Written ==>
                && !ok && claimed == [] && calls == old(calls) + 2
                && var hooks := ClaimWorld(old(world), old(calls)).hooks;
                && var hidden := if TurnAt(old(calls) + 1).reply.effect
                     then Selected(Query(cfg.leaseDuration, hooks), candidates, BatchLimit(batchSize)) else [];
                && trace == old(trace) + TurnAt(old(calls)).before + [Schedule(maxAttempts)]
                            + TurnAt(old(calls) + 1).before + Claims(me, hidden) + [Hook(Stop(me))]
      ensures TurnAt(old(calls)).reply == TurnAt(old(calls) + 1).reply == Written ==>
                && var hooks := ClaimWorld(old(world), old(calls)).hooks;
                && claimed == Selected(Query(cfg.leaseDuration, hooks), candidates, BatchLimit(batchSize))
                && (ok <==> |lost| == |claimed|)
                && var n := if ok then |claimed| else |lost| + 1;
                && calls == old(calls) + 2 + 2 * n
                && trace == old(trace) + TurnAt(old(calls)).before + [Schedule(maxAttempts)]
                            + TurnAt(old(calls) + 1).before + Claims(me, claimed)
                            + AroundDeliveries(old(calls) + 2, claimed[..n])
      ensures forall k | 0 <= k < |lost| :: Dealt(world.hooks.rows, claimed[k], lost[k])
      ensures old(Calm()) ==> ok && forall k | 0 <= k < |claimed| :: Recorded(world.hooks.rows, claimed[k])
    {
      hide WebhookScheduling.Inv, WebhookScheduling.Step, WebhookScheduling.Run, RowEvolves, Eligible, Recorded;
      hide TakenOver, Selected, Claims, Around, AroundDeliveries, ScheduleMove, InHand, Recordable;
      claimed, lost := [], [];
      ok := ScheduleDeliveries();
      if !ok {
        return;
      }
      ghost var scheduled := world.hooks.rows;
      ghost var taken;
      ok, claimed, taken := ClaimDueDeliveries(candidates, batchSize);
      if !ok {
        return;
      }
      ok, lost := SendAll(claimed, scheduled);
    }

    /** The loop over the claimed deliveries. */
    method SendAll(claimed: seq<Snapshot>, ghost scheduled: Deliveries) returns (ok: bool, lost: seq<bool>)
      requires Holds(claimed, Dispatching) && Webhooks.Forward(scheduled, world.hooks.rows)
      modifies this
      ensures Valid() && me !in world.hooks.senders && Webhooks.Forward(scheduled, world.hooks.rows)
      ensures |lost| <= |claimed| && (ok <==> |lost| == |claimed|)
      ensures var n := if ok then |claimed| else |lost| + 1;
              calls == old(calls) + 2 * n && trace == old(trace) + AroundDeliveries(old(calls), claimed[..n])
      ensures forall k | 0 <= k < |lost| :: Dealt(world.hooks.rows, claimed[k], lost[k])
      ensures old(Calm()) && InHand(old(world).hooks.rows, claimed, 0) ==>
                ok && forall k | 0 <= k < |claimed| :: !lost[k]
    {
      hide WebhookScheduling.Inv, WebhookScheduling.Run, RowEvolves, Dealt, Recorded, Around, AroundDeliveries;
      hide InHand;
      lost := [];
      NothingAround(calls);
      assert claimed[..0] == [];
      var i := 0;
      while i < |claimed|
        invariant 0 <= i <= |claimed| && |lost| == i
        invariant Holds(claimed[i..], Dispatching) && Webhooks.Forward(scheduled, world.hooks.rows)
        invariant calls == old(calls) + 2 * i && trace == old(trace) + AroundDeliveries(old(calls), claimed[..i])
        invariant forall k | 0 <= k < i :: Dealt(world.hooks.rows, claimed[k], lost[k])
        invariant old(Calm()) && InHand(old(world).hooks.rows, claimed, 0) ==>
                    InHand(world.hooks.rows, claimed[i..], 0) && forall k | 0 <= k < i :: !lost[k]
      {
        ghost var before := world.hooks.rows;
        AroundMore(old(calls), claimed, i);
        var fine, leaseLost := ProcessDelivery(claimed[i..]);
        Webhooks.ForwardTransitive(scheduled, before, world.hooks.rows);
        forall k | 0 <= k < i ensures Dealt(world.hooks.rows, claimed[k], lost[k]) {
          DealtStays(cfg, before, world, claimed[k], lost[k]);
        }
        if !fine {
          return false, lost;
        }
        assert claimed[i..][1..] == claimed[i+1..];
        InHandTail(world.hooks.rows, claimed[i..]);
        DealtNow(world.hooks.rows, claimed[i], leaseLost);
        lost := lost + [leaseLost];
        i := i + 1;
      }
      return true, lost;
    }

    lemma InHandTail(rows: Deliveries, todo: seq<Snapshot>)
      requires todo != []
      ensures InHand(rows, todo, 1) ==> InHand(rows, todo[1..], 0)
    {
    }
  }

  lemma DealtNow(rows: Deliveries, snap: Snapshot, lost: bool)
    requires if lost then TakenOver(rows, snap) else Recorded(rows, snap)
    ensures Dealt(rows, snap, lost)
  {
  }

  /** Recorded results and take-overs stay. */
  lemma DealtStays(cfg: Config, a: Deliveries, world: World, snap: Snapshot, lost: bool)
    requires Dealt(a, snap, lost) && Webhooks.Forward(a, world.hooks.rows) && WebhookScheduling.Inv(cfg, world)
    ensures Dealt(world.hooks.rows, snap, lost)
  {
    var b := world.hooks.rows;
    assert RowEvolves(a[snap.ref], b[snap.ref]);
    if lost {
      LeasesIncrease(cfg.leaseDuration, world.hooks.now, b[snap.ref]);
      LaterLease(a[snap.ref].issued, b[snap.ref].issued);
    } else {
      var k :| 0 <= k < |a[snap.ref].landed| && a[snap.ref].landed[k] == snap.lease;
      assert b[snap.ref].landed[k] == snap.lease;
    }
  }
}
