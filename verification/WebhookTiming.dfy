/**
 When a delivery is claimed and what its counters mean. The laws speak of rows, times and moves of a run of the whole
 world: a delivery is claimed when it has been waiting long enough and never before, and its counters count the
 dispatches and the 2xx responses of the run.
 */
module WebhookTiming {
  import opened Transfers
  import opened Webhooks
  import Pipeline
  import opened WebhookScheduling

  function Next(cfg: Config, world: World, m: WorldMove): World { WebhookScheduling.Step(cfg, world, m) }

  /** The move claims the delivery: a lease is issued for it. */
  predicate Claims(cfg: Config, world: World, m: WorldMove, ref: HistoryRef) {
    && ref in world.hooks.rows && ref in Next(cfg, world, m).hooks.rows
    && |Next(cfg, world, m).hooks.rows[ref].issued| > |world.hooks.rows[ref].issued|
  }

  /** A result of the delivery is written. */
  predicate Records(cfg: Config, world: World, m: WorldMove, ref: HistoryRef) {
    && ref in world.hooks.rows && ref in Next(cfg, world, m).hooks.rows
    && |Next(cfg, world, m).hooks.rows[ref].landed| > |world.hooks.rows[ref].landed|
  }

  // ----- one move

  /**
   A claim lands exactly when the delivery is PENDING or RETRYING and its next attempt is due, or IN_PROGRESS and its
   lease has run out; it is then IN_PROGRESS under a lease of the configured duration.
   */
  lemma ClaimedExactly(cfg: Config, world: World, w: SenderId, ref: HistoryRef)
    requires ref in world.hooks.rows
    ensures var row, now := world.hooks.rows[ref], world.hooks.now;
            Claims(cfg, world, Hook(Claim(w, ref)), ref) <==>
              || ((row.status == HookPending || row.status == HookRetrying)
                  && row.nextAttemptAt.Some? && row.nextAttemptAt.value <= now)
              || (row.status == HookInProgress && row.leaseExpiresAt.Some? && row.leaseExpiresAt.value <= now)
    ensures Claims(cfg, world, Hook(Claim(w, ref)), ref) ==>
              var row' := Next(cfg, world, Hook(Claim(w, ref))).hooks.rows[ref];
              row'.status == HookInProgress && row'.leaseExpiresAt == Some(world.hooks.now + cfg.leaseDuration)
  {
  }

  predicate SameTiming(a: Delivery, b: Delivery) {
    && b.status == a.status && b.nextAttemptAt == a.nextAttemptAt && b.leaseExpiresAt == a.leaseExpiresAt
    && b.issued == a.issued && b.landed == a.landed
  }

  /** Nothing but claims and results touches status, lease or next attempt of a delivery. */
  lemma OthersLeaveTiming(cfg: Config, world: World, m: WorldMove, ref: HistoryRef)
    requires ref in world.hooks.rows && !Claims(cfg, world, m, ref) && !Records(cfg, world, m, ref)
    ensures ref in Next(cfg, world, m).hooks.rows
    ensures SameTiming(world.hooks.rows[ref], Next(cfg, world, m).hooks.rows[ref])
  {
    hide Judge, Eligible, Pipeline.Step;
  }

  lemma OnlyClaimClaims(cfg: Config, world: World, m: WorldMove, ref: HistoryRef)
    requires Claims(cfg, world, m, ref)
    ensures m.Hook? && m.h.Claim? && m.h.ref == ref && !Records(cfg, world, m, ref)
    ensures ref in world.hooks.rows && ref in Next(cfg, world, m).hooks.rows
  {
    hide Judge, Eligible, Pipeline.Step;
  }

  // ----- whole runs

  predicate Unrecorded(cfg: Config, world: World, moves: seq<WorldMove>, ref: HistoryRef)
    decreases |moves|
  {
    moves != [] ==> !Records(cfg, world, moves[0], ref) && Unrecorded(cfg, Next(cfg, world, moves[0]), moves[1..], ref)
  }

  /** The delivery waits until `from`: its next attempt or the end of its lease is not before then. */
  predicate WaitsUntil(world: World, ref: HistoryRef, from: nat) {
    && ref in world.hooks.rows
    && var row := world.hooks.rows[ref];
    || (row.status == HookRetrying && row.nextAttemptAt.Some? && row.nextAttemptAt.value >= from)
    || (row.status == HookInProgress && row.leaseExpiresAt.Some? && row.leaseExpiresAt.value >= from)
  }

  lemma WaitsStep(cfg: Config, world: World, m: WorldMove, ref: HistoryRef, from: nat)
    requires WaitsUntil(world, ref, from) && !Records(cfg, world, m, ref)
    ensures WaitsUntil(Next(cfg, world, m), ref, from)
  {
    hide Next, Claims, Records;
    if Claims(cfg, world, m, ref) {
      OnlyClaimClaims(cfg, world, m, ref);
      ClaimedExactly(cfg, world, m.h.w, ref);
    } else {
      OthersLeaveTiming(cfg, world, m, ref);
    }
  }

  lemma {:induction false} WaitsRun(cfg: Config, world: World, moves: seq<WorldMove>, ref: HistoryRef, from: nat)
    requires WaitsUntil(world, ref, from) && Unrecorded(cfg, world, moves, ref)
    ensures WaitsUntil(WebhookScheduling.Run(cfg, world, moves), ref, from)
    decreases |moves|
  {
    hide WebhookScheduling.Step, WaitsUntil, Records;
    if moves != [] {
      WaitsStep(cfg, world, moves[0], ref, from);
      WaitsRun(cfg, Next(cfg, world, moves[0]), moves[1..], ref, from);
    }
  }

  lemma AfterOneMore(cfg: Config, before: seq<WorldMove>, m: WorldMove, between: seq<WorldMove>)
    ensures After(cfg, before + [m] + between) == WebhookScheduling.Run(cfg, Next(cfg, After(cfg, before), m), between)
  {
    hide WebhookScheduling.Step;
    RunAppend(cfg, WebhookScheduling.Initial(), before, [m]);
    RunAppend(cfg, WebhookScheduling.Initial(), before + [m], between);
    var world := After(cfg, before);
    assert WebhookScheduling.Run(cfg, world, [m]) == WebhookScheduling.Run(cfg, Next(cfg, world, m), []);
  }

  /** A waiting delivery that is claimed has waited long enough. */
  lemma ClaimedHasWaited(cfg: Config, world: World, m: WorldMove, ref: HistoryRef, from: nat)
    requires WaitsUntil(world, ref, from) && Claims(cfg, world, m, ref)
    ensures world.hooks.now >= from
  {
    hide Next, Claims, Records;
    OnlyClaimClaims(cfg, world, m, ref);
    ClaimedExactly(cfg, world, m.h.w, ref);
  }

  /** Between two claims of one delivery with no result written in between, the whole lease passes. */
  lemma ClaimsAreApart(
    cfg: Config, before: seq<WorldMove>, first: WorldMove, between: seq<WorldMove>, second: WorldMove, ref: HistoryRef)
    requires Claims(cfg, After(cfg, before), first, ref)
    requires Unrecorded(cfg, Next(cfg, After(cfg, before), first), between, ref)
    requires Claims(cfg, After(cfg, before + [first] + between), second, ref)
    ensures After(cfg, before + [first] + between).hooks.now >= After(cfg, before).hooks.now + cfg.leaseDuration
  {
    hide Next, Claims, Records, Unrecorded, WebhookScheduling.Run;
    var w1 := After(cfg, before);
    OnlyClaimClaims(cfg, w1, first, ref);
    ClaimedExactly(cfg, w1, first.h.w, ref);
    WaitsRun(cfg, Next(cfg, w1, first), between, ref, w1.hooks.now + cfg.leaseDuration);
    AfterOneMore(cfg, before, first, between);
    ClaimedHasWaited(cfg, After(cfg, before + [first] + between), second, ref, w1.hooks.now + cfg.leaseDuration);
  }

  /** A delivery left RETRYING by a result is not claimed before the next attempt that result set. */
  lemma RetryWaits(
    cfg: Config, before: seq<WorldMove>, result: WorldMove, between: seq<WorldMove>, claim: WorldMove, ref: HistoryRef)
    requires Records(cfg, After(cfg, before), result, ref)
    requires Next(cfg, After(cfg, before), result).hooks.rows[ref].status == HookRetrying
    requires Unrecorded(cfg, Next(cfg, After(cfg, before), result), between, ref)
    requires Claims(cfg, After(cfg, before + [result] + between), claim, ref)
    ensures var row := Next(cfg, After(cfg, before), result).hooks.rows[ref];
            row.nextAttemptAt.Some? && After(cfg, before + [result] + between).hooks.now >= row.nextAttemptAt.value
  {
    hide Claims, Unrecorded, WebhookScheduling.Run, WebhookScheduling.Inv, WebhookScheduling.Step;
    var w1 := Next(cfg, After(cfg, before), result);
    AfterInv(cfg, before);
    WebhookScheduling.StepKeeps(cfg, After(cfg, before), result);
    RetryingHasTime(cfg, w1, ref);
    var at := w1.hooks.rows[ref].nextAttemptAt.value;
    WaitsRun(cfg, w1, between, ref, at);
    AfterOneMore(cfg, before, result, between);
    ClaimedHasWaited(cfg, After(cfg, before + [result] + between), claim, ref, at);
  }

  lemma RetryingHasTime(cfg: Config, world: World, ref: HistoryRef)
    requires WebhookScheduling.Inv(cfg, world) && ref in world.hooks.rows
    requires world.hooks.rows[ref].status == HookRetrying
    ensures world.hooks.rows[ref].nextAttemptAt.Some?
  {
    assert RowInv(cfg.leaseDuration, world.hooks.now, world.hooks.rows[ref]);
  }

  // ----- and from then on it is claimed

  predicate LeftAlone(cfg: Config, world: World, moves: seq<WorldMove>, ref: HistoryRef)
    decreases |moves|
  {
    moves != [] ==>
      && !Records(cfg, world, moves[0], ref) && !Claims(cfg, world, moves[0], ref)
      && LeftAlone(cfg, Next(cfg, world, moves[0]), moves[1..], ref)
  }

  lemma {:induction false} LeftAloneStays(cfg: Config, world: World, moves: seq<WorldMove>, ref: HistoryRef)
    requires ref in world.hooks.rows && LeftAlone(cfg, world, moves, ref)
    ensures ref in WebhookScheduling.Run(cfg, world, moves).hooks.rows
    ensures SameTiming(world.hooks.rows[ref], WebhookScheduling.Run(cfg, world, moves).hooks.rows[ref])
    decreases |moves|
  {
    hide WebhookScheduling.Step, Claims, Records;
    if moves != [] {
      OthersLeaveTiming(cfg, world, moves[0], ref);
      LeftAloneStays(cfg, Next(cfg, world, moves[0]), moves[1..], ref);
    }
  }

  /**
   A delivery left alone is claimed by whoever asks for it, from the moment its lease has run out if it is IN_PROGRESS,
   and from its next attempt on if it is PENDING or RETRYING.
   */
  lemma WaitedIsClaimed(cfg: Config, before: seq<WorldMove>, between: seq<WorldMove>, ref: HistoryRef, w: SenderId)
    requires ref in After(cfg, before).hooks.rows
    requires LeftAlone(cfg, After(cfg, before), between, ref)
    requires var row, now := After(cfg, before).hooks.rows[ref], After(cfg, before + between).hooks.now;
             match row.status
             case HookPending => row.nextAttemptAt.Some? && now >= row.nextAttemptAt.value
             case HookRetrying => row.nextAttemptAt.Some? && now >= row.nextAttemptAt.value
             case HookInProgress => row.leaseExpiresAt.Some? && now >= row.leaseExpiresAt.value
             case _ => false
    ensures Claims(cfg, After(cfg, before + between), Hook(Claim(w, ref)), ref)
  {
    hide Claims, Records, LeftAlone, WebhookScheduling.Run;
    RunAppend(cfg, WebhookScheduling.Initial(), before, between);
    LeftAloneStays(cfg, After(cfg, before), between, ref);
    ClaimedExactly(cfg, After(cfg, before + between), w, ref);
  }

  // ----- what the counters count

  /** The move is a dispatch of the delivery. */
  predicate Dispatches(world: World, m: WorldMove, ref: HistoryRef) {
    && m.Hook? && m.h.Send? && ref in world.hooks.rows && m.h.w in world.hooks.senders
    && var sender := world.hooks.senders[m.h.w];
    && sender.phase == Dispatching && sender.todo != [] && sender.todo[0].ref == ref
  }

  /** How many dispatches of the delivery the run makes, and how many are answered with a code from 200 to 299. */
  function DispatchCount(cfg: Config, world: World, moves: seq<WorldMove>, ref: HistoryRef): nat
    decreases |moves|
  {
    if moves == [] then 0 else
    (if Dispatches(world, moves[0], ref) then 1 else 0)
      + DispatchCount(cfg, Next(cfg, world, moves[0]), moves[1..], ref)
  }

  function SuccessCount(cfg: Config, world: World, moves: seq<WorldMove>, ref: HistoryRef): nat
    decreases |moves|
  {
    if moves == [] then 0 else
    (if Dispatches(world, moves[0], ref) && moves[0].h.response.Code? && 200 <= moves[0].h.response.code <= 299
     then 1 else 0) + SuccessCount(cfg, Next(cfg, world, moves[0]), moves[1..], ref)
  }

  function DispatchesOf(world: World, ref: HistoryRef): nat {
    if ref in world.hooks.rows then world.hooks.rows[ref].dispatches else 0
  }

  function SuccessesOf(world: World, ref: HistoryRef): nat {
    if ref in world.hooks.rows then world.hooks.rows[ref].successes else 0
  }

  lemma StepCounts(cfg: Config, world: World, m: WorldMove, ref: HistoryRef)
    requires WebhookScheduling.Inv(cfg, world)
    ensures DispatchesOf(Next(cfg, world, m), ref) ==
              DispatchesOf(world, ref) + if Dispatches(world, m, ref) then 1 else 0
    ensures SuccessesOf(Next(cfg, world, m), ref) ==
              SuccessesOf(world, ref) +
                if Dispatches(world, m, ref) && m.h.response.Code? && 200 <= m.h.response.code <= 299 then 1 else 0
  {
    hide Judge, Eligible, Pipeline.Step, WebhookScheduling.Inv, Due, Lands;
  }

  lemma {:induction false} CountersCount(cfg: Config, world: World, moves: seq<WorldMove>, ref: HistoryRef)
    requires WebhookScheduling.Inv(cfg, world)
    ensures DispatchesOf(WebhookScheduling.Run(cfg, world, moves), ref) ==
              DispatchesOf(world, ref) + DispatchCount(cfg, world, moves, ref)
    ensures SuccessesOf(WebhookScheduling.Run(cfg, world, moves), ref) ==
              SuccessesOf(world, ref) + SuccessCount(cfg, world, moves, ref)
    decreases |moves|
  {
    hide WebhookScheduling.Step, WebhookScheduling.Inv, Dispatches, DispatchesOf, SuccessesOf;
    if moves != [] {
      StepCounts(cfg, world, moves[0], ref);
      WebhookScheduling.StepKeeps(cfg, world, moves[0]);
      CountersCount(cfg, Next(cfg, world, moves[0]), moves[1..], ref);
    }
  }

  /** A DELIVERED delivery was answered with a code from 200 to 299 by some dispatch of the run. */
  lemma DeliveredWasAnswered(cfg: Config, moves: seq<WorldMove>, ref: HistoryRef)
    requires ref in After(cfg, moves).hooks.rows && After(cfg, moves).hooks.rows[ref].status == HookDelivered
    ensures SuccessCount(cfg, WebhookScheduling.Initial(), moves, ref) > 0
    ensures DispatchCount(cfg, WebhookScheduling.Initial(), moves, ref) == After(cfg, moves).hooks.rows[ref].dispatches
  {
    hide WebhookScheduling.Run, WebhookScheduling.Inv, WebhookScheduling.Step;
    InitialInv(cfg);
    AfterInv(cfg, moves);
    CountersCount(cfg, WebhookScheduling.Initial(), moves, ref);
    DeliveredHasSuccess(cfg, After(cfg, moves), ref);
  }

  lemma DeliveredHasSuccess(cfg: Config, world: World, ref: HistoryRef)
    requires WebhookScheduling.Inv(cfg, world) && ref in world.hooks.rows
    requires world.hooks.rows[ref].status == HookDelivered
    ensures world.hooks.rows[ref].successes > 0
  {
    assert RowInv(cfg.leaseDuration, world.hooks.now, world.hooks.rows[ref]);
  }
}
