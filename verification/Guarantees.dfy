/**
 What every run of the pipeline guarantees about a transfer's history, its transaction hash, its
 idempotency key and its outbox row, with any number of workers and dispatchers.
 */
module Guarantees {
  import opened Transfers
  import opened Workers
  import opened Pipeline

  /** The state after a run from the empty system. */
  function After(cfg: Config, moves: seq<Move>): System {
    Run(cfg, Initial(), moves)
  }

  lemma AfterInv(cfg: Config, moves: seq<Move>)
    ensures Inv(After(cfg, moves))
  {
    InitialInv();
    RunKeeps(cfg, Initial(), moves);
  }

  /**
   The status history of every transfer starts at creation, chains each row to the one before, ends at the
   current status, and follows the processing order with at most five transitions; only its last row may be
   FAILED, and never straight after PENDING_ON_CHAIN.
   */
  lemma HistoryOfEveryRun(cfg: Config, moves: seq<Move>, t: TransferId)
    requires t in After(cfg, moves).records
    ensures var rec := After(cfg, moves).records[t]; var h := rec.history;
            && 1 <= |h| <= 6
            && h[0] == HistoryRow(None, Created)
            && (forall i | 0 < i < |h| :: h[i].from == Some(h[i-1].to))
            && h[|h|-1].to == rec.status
            && (forall i | 0 <= i < |h| ::
                  h[i].to == CHAIN[i] || (i == |h| - 1 && i > 0 && h[i].to == Failed && h[i-1].to != PendingOnChain))
  {
    AfterInv(cfg, moves);
    var rec := After(cfg, moves).records[t];
    HistoryShape(rec.history, rec.status);
  }

  /** PENDING_ON_CHAIN and FAILED are final: no continuation of the run touches status, hash or history. */
  lemma SettledForever(cfg: Config, moves: seq<Move>, later: seq<Move>, t: TransferId)
    requires t in After(cfg, moves).records
    requires var status := After(cfg, moves).records[t].status; status == PendingOnChain || status == Failed
    ensures t in After(cfg, moves + later).records
    ensures var rec := After(cfg, moves).records[t]; var rec' := After(cfg, moves + later).records[t];
            rec'.status == rec.status && rec'.txHash == rec.txHash && rec'.history == rec.history
  {
    AfterInv(cfg, moves);
    RunAppend(cfg, Initial(), moves, later);
    RunKeeps(cfg, After(cfg, moves), later);
    SettledFixed(After(cfg, moves).records[t], After(cfg, moves + later).records[t]);
  }

  /**
   `tx_hash` is set exactly when the transfer has passed SUBMITTED; once set it never changes; and it is the
   hash of an attempt of this transfer that is BROADCASTED for good and that the broadcaster really accepted.
   */
  lemma TxHashOfEveryRun(cfg: Config, moves: seq<Move>, later: seq<Move>, t: TransferId)
    requires t in After(cfg, moves).records
    ensures var rec := After(cfg, moves).records[t];
            rec.txHash != "" <==> Passed(rec.history, Submitted)
    ensures t in After(cfg, moves + later).records
    ensures var rec := After(cfg, moves).records[t]; var rec' := After(cfg, moves + later).records[t];
            rec.txHash != "" ==>
              && rec'.txHash == rec.txHash
              && exists i | 0 <= i < |rec.attempts| ::
                   && rec.attempts[i].hash == rec.txHash
                   && rec.attempts[i].status == Broadcasted
                   && Accepted(rec.broadcasts, i)
                   && i < |rec'.attempts| && rec'.attempts[i] == rec.attempts[i]
  {
    AfterInv(cfg, moves);
    RunAppend(cfg, Initial(), moves, later);
    RunKeeps(cfg, After(cfg, moves), later);
    var rec := After(cfg, moves).records[t];
    var rec' := After(cfg, moves + later).records[t];
    if rec.txHash != "" {
      var i :| 0 <= i < |rec.attempts| && rec.attempts[i].status == Broadcasted && rec.attempts[i].hash == rec.txHash;
      assert AttemptEvolves(rec.attempts[i], rec'.attempts[i]);
    }
  }

  /**
   With no assumption on overlap or signer: at most one attempt of a transfer is SIGNED or BROADCASTING, and
   every broadcast carried the payload and hash of an attempt row already stored.
   */
  lemma AttemptsOfEveryRun(cfg: Config, moves: seq<Move>, t: TransferId)
    requires t in After(cfg, moves).records
    ensures var rec := After(cfg, moves).records[t];
            && (forall i, j | 0 <= i < j < |rec.attempts| ::
                  || rec.attempts[i].status == Broadcasted || rec.attempts[i].status == AttemptFailed
                  || rec.attempts[j].status == Broadcasted || rec.attempts[j].status == AttemptFailed)
            && (forall k | 0 <= k < |rec.broadcasts| ::
                  var b := rec.broadcasts[k];
                  && b.attempt < |rec.attempts|
                  && b.payload == rec.attempts[b.attempt].payload && b.hash == rec.attempts[b.attempt].hash)
  {
    AfterInv(cfg, moves);
  }

  // ----- idempotency keys

  /** How many `Create` calls with this key commit a new transfer along a run and report it as created. */
  function CreatedCount(cfg: Config, s: System, moves: seq<Move>, key: string): nat
    decreases |moves|
  {
    if moves == [] then 0 else
    (if Creates(s, moves[0]) && moves[0].key == key && moves[0].answer == Ok then 1 else 0)
      + CreatedCount(cfg, Step(cfg, s, moves[0]), moves[1..], key)
  }

  /** How many commit it although the call returns an error: the commit went through and its answer was lost. */
  function SilentCount(cfg: Config, s: System, moves: seq<Move>, key: string): nat
    decreases |moves|
  {
    if moves == [] then 0 else
    (if Creates(s, moves[0]) && moves[0].key == key && moves[0].answer != Ok then 1 else 0)
      + SilentCount(cfg, Step(cfg, s, moves[0]), moves[1..], key)
  }

  lemma KeyUsedAfterStep(cfg: Config, s: System, m: Move, key: string)
    requires Inv(s)
    ensures KeyUsed(Step(cfg, s, m).records, key) <==> KeyUsed(s.records, key) || (Creates(s, m) && m.key == key)
  {
    hide Inv, Evolves, Step, Creates;
    var s' := Step(cfg, s, m);
    StepKeeps(cfg, s, m);
    if KeyUsed(s.records, key) {
      var t :| t in s.records && s.records[t].key == key;
      SameKey(s.records[t], s'.records[t]);
    }
    if Creates(s, m) {
      CreateAdds(cfg, s, m);
    }
    if KeyUsed(s'.records, key) {
      var t :| t in s'.records && s'.records[t].key == key;
      if t in s.records {
        SameKey(s.records[t], s'.records[t]);
      } else {
        OnlyCreateAdds(cfg, s, m, t);
        CreateAdds(cfg, s, m);
      }
    }
  }

  lemma CreateAdds(cfg: Config, s: System, m: Move)
    requires Creates(s, m)
    ensures var s' := Step(cfg, s, m); m.Create? && m.id in s'.records && s'.records[m.id].key == m.key
  {
  }

  lemma OnlyCreateAdds(cfg: Config, s: System, m: Move, t: TransferId)
    requires t in Step(cfg, s, m).records && t !in s.records
    ensures Creates(s, m) && m.Create? && t == m.id
  {
  }

  /** A key comes into use through exactly one committed creation, reported or silent. */
  lemma {:induction false} CreatedCountExact(cfg: Config, s: System, moves: seq<Move>, key: string)
    requires Inv(s)
    ensures CreatedCount(cfg, s, moves, key) + SilentCount(cfg, s, moves, key)
            + (if KeyUsed(s.records, key) then 1 else 0)
         == (if KeyUsed(Run(cfg, s, moves).records, key) then 1 else 0)
    decreases |moves|
  {
    if moves != [] {
      StepKeeps(cfg, s, moves[0]);
      KeyUsedAfterStep(cfg, s, moves[0], key);
      CreatedCountExact(cfg, Step(cfg, s, moves[0]), moves[1..], key);
    }
  }

  /**
   Each idempotency key belongs to at most one transfer; at most one `Create` call ever reports it as new; and
   a key that is in use without such a report was committed by exactly one call that returned an error.
   */
  lemma OneTransferPerKey(cfg: Config, moves: seq<Move>, key: string)
    ensures var s := After(cfg, moves);
            && (forall t, u | t in s.records && u in s.records && s.records[t].key == key && s.records[u].key == key ::
                  t == u)
            && CreatedCount(cfg, Initial(), moves, key) <= 1
            && (KeyUsed(s.records, key) <==>
                  CreatedCount(cfg, Initial(), moves, key) + SilentCount(cfg, Initial(), moves, key) == 1)
  {
    AfterInv(cfg, moves);
    InitialInv();
    CreatedCountExact(cfg, Initial(), moves, key);
  }

  /** The silent creation is real: one call whose answer is lost puts the key in use, and nobody was told. */
  lemma SilentCreation(cfg: Config, key: string)
    ensures var moves := [Create(key, "", 0, Err(Other, true))];
            KeyUsed(After(cfg, moves).records, key) && CreatedCount(cfg, Initial(), moves, key) == 0
  {
    var m := Create(key, "", 0, Err(Other, true));
    var s := Step(cfg, Initial(), m);
    assert Run(cfg, Initial(), [m]) == Run(cfg, s, [m][1..]);
    assert [m][1..] == [];
    assert s.records[0].key == key;
    assert CreatedCount(cfg, s, [], key) == 0;
  }

  /** In state `s` the call returns transfer `t` without error, as new or as the one the key already belongs to. */
  predicate Replies(s: System, m: Move, t: TransferId, created: bool) {
    && m.Create? && m.answer == Ok
    && if created then Creates(s, m) && t == m.id else t in s.records && s.records[t].key == m.key
  }

  lemma RepliedIsStored(cfg: Config, s: System, m: Move, t: TransferId, created: bool)
    requires Replies(s, m, t, created)
    ensures var s' := Step(cfg, s, m); t in s'.records && s'.records[t].key == m.key
  {
  }

  /** Creation is idempotent: every later call with the key returns the same transfer, and never as new. */
  lemma CreateIsIdempotent(
    cfg: Config, before: seq<Move>, first: Move, between: seq<Move>, again: Move,
    t: TransferId, created: bool, u: TransferId, recreated: bool)
    requires Replies(After(cfg, before), first, t, created)
    requires again.Create? && again.key == first.key
    requires Replies(After(cfg, before + [first] + between), again, u, recreated)
    ensures u == t && !recreated
  {
    hide Step, Evolves, RecordInv;
    var s := After(cfg, before);
    var s1 := Step(cfg, s, first);
    var s2 := After(cfg, before + [first] + between);
    RepliedIsStored(cfg, s, first, t, created);
    RunAppend(cfg, Initial(), before, [first]);
    assert Run(cfg, s, [first]) == Run(cfg, s1, []);
    RunAppend(cfg, Initial(), before + [first], between);
    AfterInv(cfg, before + [first]);
    RunKeeps(cfg, s1, between);
    SameKey(s1.records[t], s2.records[t]);
    OneTransferPerKey(cfg, before + [first] + between, first.key);
  }

  // ----- the outbox row under unfenced dispatchers

  /**
   However many dispatchers hold stale copies: DISPATCHED is final and implies a publish, PROCESSING holds
   exactly when `locked_at` is set, and `attempt_count` never falls and never exceeds the number of claims.
   */
  lemma OutboxOfEveryRun(cfg: Config, moves: seq<Move>, later: seq<Move>, t: TransferId)
    requires t in After(cfg, moves).records
    ensures t in After(cfg, moves + later).records
    ensures var row := After(cfg, moves).records[t].outbox; var row' := After(cfg, moves + later).records[t].outbox;
            && (row.status == OutboxProcessing <==> row.lockedAt.Some?)
            && row.attemptCount <= row.claims
            && (row.status == OutboxDispatched ==> row.publishes > 0 && row'.status == OutboxDispatched)
            && row.attemptCount <= row'.attemptCount
  {
    AfterInv(cfg, moves);
    RunAppend(cfg, Initial(), moves, later);
    RunKeeps(cfg, After(cfg, moves), later);
  }

  /** A row that is not DISPATCHED can be claimed again once enough time has passed, whoever let go of it. */
  lemma UndispatchedIsClaimedAgain(cfg: Config, moves: seq<Move>, t: TransferId, d: DispatcherId)
    requires t in After(cfg, moves).records
    requires After(cfg, moves).records[t].outbox.status != OutboxDispatched
    ensures exists wait: nat | t in After(cfg, moves + [Tick(wait), ClaimRow(d, t)]).records ::
              After(cfg, moves + [Tick(wait), ClaimRow(d, t)]).records[t].outbox.claims
                == After(cfg, moves).records[t].outbox.claims + 1
  {
    AfterInv(cfg, moves);
    var s := After(cfg, moves);
    var wait := ClaimWait(cfg, s, t, d);
    var rest := [Tick(wait), ClaimRow(d, t)];
    RunAppend(cfg, Initial(), moves, rest);
    TwoSteps(cfg, s, rest[0], rest[1]);
  }

  lemma TwoSteps(cfg: Config, s: System, a: Move, b: Move)
    ensures Run(cfg, s, [a, b]) == Step(cfg, Step(cfg, s, a), b)
  {
    assert [a, b][1..] == [b];
    assert Run(cfg, Step(cfg, s, a), [b]) == Run(cfg, Step(cfg, Step(cfg, s, a), b), []);
  }

  lemma ClaimWait(cfg: Config, s: System, t: TransferId, d: DispatcherId) returns (wait: nat)
    requires t in s.records && OutboxInv(s.records[t].outbox) && s.records[t].outbox.status != OutboxDispatched
    ensures var s' := Step(cfg, Step(cfg, s, Tick(wait)), ClaimRow(d, t));
            t in s'.records && s'.records[t].outbox.claims == s.records[t].outbox.claims + 1
  {
    var row := s.records[t].outbox;
    wait := if row.lockedAt.Some? then row.lockedAt.value + cfg.outboxTimeout else row.availableAt;
    assert Claimable(row, s.now + wait, cfg.outboxTimeout);
  }
}
