/**
 The Redis processing lock: a key per transfer holding a token and an expiry, taken with SET NX, extended and
 deleted only by scripts that compare the token. Times are nanoseconds on one clock.
 */
module ProcessingLock {
  import opened Transfers

  type Token = nat

  const MILLISECOND: nat := 1_000_000
  const SECOND: int := 1_000_000_000
  const DEFAULT_TTL: nat := 30_000_000_000

  datatype Key = Key(token: Token, expiresAt: nat)

  /** What the worker with this token knows: until when its last successful acquire or refresh holds. */
  datatype Lease = Lease(transfer: TransferId, until: nat, released: bool)

  datatype Store = Store(now: nat, keys: map<TransferId, Key>, leases: map<Token, Lease>)

  datatype Move =
    | Acquire(token: Token, t: TransferId, ttl: int)
    | Refresh(token: Token, ttl: int)
    | Release(token: Token)
    | Tick(elapsed: nat)

  /** A ttl that is not positive stands for the default. */
  function Effective(ttl: int): nat { if ttl <= 0 then DEFAULT_TTL else ttl }

  /** How long a refresh extends the key: PEXPIRE takes whole milliseconds, and with 0 the key is gone at once. */
  function Extension(ttl: int): nat { Effective(ttl) / MILLISECOND * MILLISECOND }

  /** An expired key is no key. */
  predicate Present(s: Store, t: TransferId) {
    t in s.keys && s.now < s.keys[t].expiresAt
  }

  predicate HeldBy(s: Store, t: TransferId, token: Token) {
    Present(s, t) && s.keys[t].token == token
  }

  /** Tokens are fresh UUIDs, so an acquire never reuses one. */
  predicate Acquires(s: Store, m: Move) {
    m.Acquire? && m.token !in s.leases && !Present(s, m.t)
  }

  predicate Refreshes(s: Store, m: Move) {
    m.Refresh? && m.token in s.leases && HeldBy(s, s.leases[m.token].transfer, m.token)
  }

  function Step(s: Store, m: Move): Store {
    match m
    case Acquire(token, t, ttl) =>
      if Acquires(s, m) then
        s.(keys := s.keys[t := Key(token, s.now + Effective(ttl))],
           leases := s.leases[token := Lease(t, s.now + Effective(ttl), false)])
      else s
    case Refresh(token, ttl) =>
      if Refreshes(s, m) then
        var t := s.leases[token].transfer;
        s.(keys := s.keys[t := Key(token, s.now + Extension(ttl))],
           leases := s.leases[token := s.leases[token].(until := s.now + Extension(ttl))])
      else s
    case Release(token) =>
      if token in s.leases then
        var t := s.leases[token].transfer;
        s.(keys := if HeldBy(s, t, token) then s.keys - {t} else s.keys,
           leases := s.leases[token := s.leases[token].(released := true)])
      else s
    case Tick(elapsed) => s.(now := s.now + elapsed)
  }

  function Run(s: Store, moves: seq<Move>): Store
    decreases |moves|
  {
    if moves == [] then s else Run(Step(s, moves[0]), moves[1..])
  }

  // ----- exclusivity

  /** The token's last successful acquire or refresh has not lapsed and it has not been released. */
  predicate Live(s: Store, token: Token) {
    token in s.leases && !s.leases[token].released && s.now < s.leases[token].until
  }

  /** A live lease is backed by the key, with the same expiry; a key belongs to a lease on its transfer. */
  predicate Inv(s: Store) {
    && (forall token | token in s.leases && Live(s, token) ::
          HeldBy(s, s.leases[token].transfer, token)
          && s.keys[s.leases[token].transfer].expiresAt == s.leases[token].until)
    && (forall t | t in s.keys :: s.keys[t].token in s.leases && s.leases[s.keys[t].token].transfer == t)
  }

  lemma StepKeeps(s: Store, m: Move)
    requires Inv(s)
    ensures Inv(Step(s, m))
  {
  }

  lemma {:induction false} RunKeeps(s: Store, moves: seq<Move>)
    requires Inv(s)
    ensures Inv(Run(s, moves))
    decreases |moves|
  {
    if moves != [] {
      StepKeeps(s, moves[0]);
      RunKeeps(Step(s, moves[0]), moves[1..]);
    }
  }

  function Empty(): Store { Store(0, map[], map[]) }

  /** At no time do two workers hold live leases on one transfer. */
  lemma MutualExclusion(moves: seq<Move>, a: Token, b: Token)
    requires var s := Run(Empty(), moves); Live(s, a) && Live(s, b) && s.leases[a].transfer == s.leases[b].transfer
    ensures a == b
  {
    RunKeeps(Empty(), moves);
  }

  /** Nobody's refresh, release or failed acquire removes, extends or takes over a key that carries another token. */
  lemma OthersCannotTouch(moves: seq<Move>, m: Move, t: TransferId)
    requires !m.Tick?
    requires var s := Run(Empty(), moves); Present(s, t) && s.keys[t].token != m.token
    ensures var s := Run(Empty(), moves); t in Step(s, m).keys && Step(s, m).keys[t] == s.keys[t]
  {
    RunKeeps(Empty(), moves);
  }

  /** The run does not release the token, and time never reaches the end of its current lease. */
  predicate NeverLapses(s: Store, moves: seq<Move>, token: Token)
    decreases |moves|
  {
    Live(s, token) && (moves != [] ==> NeverLapses(Step(s, moves[0]), moves[1..], token))
  }

  lemma NobodyElseAcquires(s: Store, m: Move, token: Token)
    requires Inv(s) && Live(s, token)
    ensures var s' := Step(s, m); var t := s.leases[token].transfer;
            && token in s'.leases && s'.leases[token].transfer == t
            && forall other | other in s'.leases && s'.leases[other].transfer == t ::
                 other in s.leases && s.leases[other].transfer == t
  {
  }

  /**
   A worker whose successful refreshes come before its lease runs out is the sole holder for the whole span:
   the key carries its token all along and nobody else acquires the transfer.
   */
  lemma {:induction false} SoleHolder(s: Store, moves: seq<Move>, token: Token)
    requires Inv(s) && NeverLapses(s, moves, token)
    ensures var s' := Run(s, moves); var t := s.leases[token].transfer;
            && Live(s', token) && s'.leases[token].transfer == t && HeldBy(s', t, token)
            && forall other | other in s'.leases && s'.leases[other].transfer == t ::
                 other in s.leases && s.leases[other].transfer == t
    decreases |moves|
  {
    hide Step;
    if moves != [] {
      StepKeeps(s, moves[0]);
      NobodyElseAcquires(s, moves[0], token);
      SoleHolder(Step(s, moves[0]), moves[1..], token);
    }
  }

  // ----- the heartbeat

  /** The ticker interval; 0 stands for "no heartbeat". */
  function HeartbeatInterval(ttl: int): int {
    if ttl <= 0 then 0 else
    var third := ttl / 3;
    var interval := if third <= 0 then SECOND else third;
    if interval > 5 * SECOND then 5 * SECOND else interval
  }

  /** A heartbeat runs at most a third of the lease apart exactly when the ttl is at least three nanoseconds. */
  lemma HeartbeatIsFrequent(ttl: int)
    requires ttl > 0
    ensures 0 < HeartbeatInterval(ttl) <= 5 * SECOND
    ensures 3 * HeartbeatInterval(ttl) <= ttl <==> ttl >= 3
  {
  }

  /** And no longer one would do: the next larger interval is more than a third of the ttl or than five seconds. */
  lemma HeartbeatIsLongest(ttl: int)
    requires ttl > 0
    ensures ttl >= 3 ==> var longer := HeartbeatInterval(ttl) + 1; 3 * longer > ttl || longer > 5_000_000_000
    ensures ttl < 3 ==> HeartbeatInterval(ttl) == 1_000_000_000
  {
  }

  /** A refresh keeps the key exactly when the ttl it asks for is at least a millisecond, or the default. */
  lemma RefreshKeepsKey(s: Store, token: Token, ttl: int)
    requires Refreshes(s, Refresh(token, ttl))
    ensures HeldBy(Step(s, Refresh(token, ttl)), s.leases[token].transfer, token) <==> ttl <= 0 || ttl >= MILLISECOND
  {
  }

  /**
   Such a loss in a run: with a positive ttl below a millisecond a refresh that reports success leaves the transfer
   to the next worker, at the same instant and before the release.
   */
  lemma ShortRefreshLosesLock(t: TransferId, ttl: int)
    requires 0 < ttl < MILLISECOND
    ensures var s := Run(Empty(), [Acquire(0, t, ttl)]);
            var s' := Run(Empty(), [Acquire(0, t, ttl), Refresh(0, ttl)]);
            HeldBy(s, t, 0) && Refreshes(s, Refresh(0, ttl)) && Acquires(s', Acquire(1, t, ttl)) && s'.now == s.now
  {
    var a, b := Acquire(0, t, ttl), Refresh(0, ttl);
    assert [a, b][1..] == [b];
    assert Run(Step(Empty(), a), [b]) == Run(Step(Step(Empty(), a), b), []);
    assert Run(Empty(), [a]) == Run(Step(Empty(), a), []);
  }

  /** One beat comes before the extension of the last one has run out exactly when the ttl is at least a millisecond. */
  lemma BeatIsInTime(ttl: int)
    requires ttl > 0
    ensures HeartbeatInterval(ttl) < Extension(ttl) <==> ttl >= MILLISECOND
  {
    var q, r := ttl / MILLISECOND, ttl % MILLISECOND;
    assert ttl == q * MILLISECOND + r;
  }

  /**
   Along the moves, whoever makes them, the token is not released, its refreshes ask for `ttl`, and never more
   than `pause` passes without one; `since` has passed already.
   */
  predicate Beating(moves: seq<Move>, token: Token, ttl: int, pause: nat, since: nat)
    decreases |moves|
  {
    since <= pause && (moves != [] ==>
      match moves[0]
      case Tick(elapsed) => Beating(moves[1..], token, ttl, pause, since + elapsed)
      case Refresh(other, asked) =>
        if other == token then asked == ttl && Beating(moves[1..], token, ttl, pause, 0)
        else Beating(moves[1..], token, ttl, pause, since)
      case Release(other) => other != token && Beating(moves[1..], token, ttl, pause, since)
      case Acquire(_, _, _) => Beating(moves[1..], token, ttl, pause, since))
  }

  /** The lease was taken or extended for at least `life`, `since` ago. */
  predicate ExtendedFor(s: Store, token: Token, life: nat, since: nat) {
    token in s.leases && !s.leases[token].released && s.leases[token].until + since >= s.now + life
  }

  lemma BeatingStep(s: Store, moves: seq<Move>, token: Token, ttl: int, pause: nat, since: nat) returns (since': nat)
    requires Inv(s) && ExtendedFor(s, token, Extension(ttl), since) && pause < Extension(ttl)
    requires moves != [] && Beating(moves, token, ttl, pause, since)
    ensures ExtendedFor(Step(s, moves[0]), token, Extension(ttl), since')
    ensures Beating(moves[1..], token, ttl, pause, since')
  {
    match moves[0] {
      case Tick(elapsed) => since' := since + elapsed;
      case Refresh(other, asked) => since' := if other == token then 0 else since;
      case Release(other) => since' := since;
      case Acquire(_, _, _) => since' := since;
    }
  }

  /**
   A worker whose refreshes come less than their extension apart never loses its lease, whatever refreshes,
   releases and acquires others interleave.
   */
  lemma {:induction false} RefreshingKeepsLock(
    s: Store, moves: seq<Move>, token: Token, ttl: int, pause: nat, since: nat)
    requires Inv(s) && ExtendedFor(s, token, Extension(ttl), since) && pause < Extension(ttl)
    requires Beating(moves, token, ttl, pause, since)
    ensures NeverLapses(s, moves, token)
    decreases |moves|
  {
    hide Step, Extension;
    if moves != [] {
      StepKeeps(s, moves[0]);
      var since' := BeatingStep(s, moves, token, ttl, pause, since);
      RefreshingKeepsLock(Step(s, moves[0]), moves[1..], token, ttl, pause, since');
    }
  }

  /**
   From a successful acquire on, the consumer's heartbeat makes the worker the sole holder in every continuation,
   for every ttl of at least a millisecond: the key carries its token and nobody else acquires the transfer.
   */
  lemma HeartbeatKeepsLock(before: seq<Move>, token: Token, t: TransferId, ttl: int, moves: seq<Move>)
    requires ttl >= MILLISECOND && Acquires(Run(Empty(), before), Acquire(token, t, ttl))
    requires Beating(moves, token, ttl, HeartbeatInterval(ttl), 0)
    ensures var s := Step(Run(Empty(), before), Acquire(token, t, ttl)); var s' := Run(s, moves);
            && HeldBy(s', t, token)
            && forall other | other in s'.leases && s'.leases[other].transfer == t ::
                 other in s.leases && s.leases[other].transfer == t
  {
    hide Run;
    var s0 := Run(Empty(), before);
    var s := Step(s0, Acquire(token, t, ttl));
    RunKeeps(Empty(), before);
    StepKeeps(s0, Acquire(token, t, ttl));
    BeatIsInTime(ttl);
    ExtensionIsLess(ttl);
    hide Extension;
    RefreshingKeepsLock(s, moves, token, ttl, HeartbeatInterval(ttl), 0);
    SoleHolder(s, moves, token);
  }

  lemma ExtensionIsLess(ttl: int)
    ensures Extension(ttl) <= Effective(ttl)
  {
  }

  // ----- the locker

  class RedisProcessingLocker {
    var now: nat
    var keys: map<TransferId, Key>
    ghost var leases: map<Token, Lease>

    ghost function State(): Store
      reads this
    {
      Store(now, keys, leases)
    }

    constructor ()
      ensures State() == Empty()
    {
      now, keys, leases := 0, map[], map[];
    }

    /** SET NX with an expiry; `token` is a fresh UUID. */
    method AcquireLock(token: Token, t: TransferId, ttl: int) returns (acquired: bool)
      requires token !in leases
      modifies this
      ensures State() == Step(old(State()), Acquire(token, t, ttl))
      ensures acquired <==> t !in old(keys) || old(keys)[t].expiresAt <= now
      ensures acquired ==> keys == old(keys)[t := Key(token, now + if ttl > 0 then ttl else 30_000_000_000)]
      ensures !acquired ==> keys == old(keys)
    {
      if t in keys && now < keys[t].expiresAt {
        return false;
      }
      var life := if ttl <= 0 then DEFAULT_TTL else ttl;
      keys := keys[t := Key(token, now + life)];
      leases := leases[token := Lease(t, now + life, false)];
      return true;
    }

    /** The refresh script; false is the lost-lock error. */
    method RefreshLock(t: TransferId, token: Token, ttl: int) returns (ok: bool)
      requires token in leases && leases[token].transfer == t
      modifies this
      ensures State() == Step(old(State()), Refresh(token, ttl))
      ensures ok <==> t in old(keys) && now < old(keys)[t].expiresAt && old(keys)[t].token == token
      ensures ok ==>
                var life := if ttl > 0 then ttl else 30_000_000_000;
                keys == old(keys)[t := Key(token, now + (life - life % 1_000_000))]
      ensures !ok ==> keys == old(keys)
    {
      if !(t in keys && now < keys[t].expiresAt && keys[t].token == token) {
        return false;
      }
      var life := if ttl <= 0 then DEFAULT_TTL else ttl;
      var extension := life / MILLISECOND * MILLISECOND;
      keys := keys[t := Key(token, now + extension)];
      leases := leases[token := leases[token].(until := now + extension)];
      return true;
    }

    /** The release script. */
    method ReleaseLock(t: TransferId, token: Token)
      requires token in leases && leases[token].transfer == t
      modifies this
      ensures State() == Step(old(State()), Release(token))
      ensures keys == if t in old(keys) && now < old(keys)[t].expiresAt && old(keys)[t].token == token
                      then old(keys) - {t} else old(keys)
    {
      if t in keys && now < keys[t].expiresAt && keys[t].token == token {
        keys := keys - {t};
      }
      leases := leases[token := leases[token].(released := true)];
    }
  }
}
