/**
 One transfer, one signed transaction. A second attempt row appears exactly when a worker's insert finds a row
 already there, all rows BROADCASTED or FAILED, and its hash new to the table. Two conditions each rule that out:
 that processing of the transfer never overlaps, whatever the signer returns; or that the signed hash is a function
 of the transfer, however much it overlaps.
 */
module SingleAttempt {
  import opened Transfers
  import opened Workers
  import opened Pipeline
  import opened Guarantees

  predicate AboutToAdd(pc: Pc) { pc.CallingSigner? || pc.Creating? }

  /** Everything but a worker's own step leaves attempts alone and starts workers only at the beginning. */
  lemma OthersLeaveAttempts(cfg: Config, s: System, m: Move, t: TransferId)
    requires !m.Work? && t in Step(cfg, s, m).records
    ensures var s' := Step(cfg, s, m);
            && s'.records[t].attempts == (if t in s.records then s.records[t].attempts else [])
            && (forall w | w in s'.workers && AboutToAdd(s'.workers[w].pc) ::
                  w in s.workers && s'.workers[w] == s.workers[w])
  {
    hide PublishMove, MarkMove;
    if m.Dispatch? && CanDispatch(s, m.d) {
      DispatchLeavesAttempts(s, m.d, m.answer, m.delay, t);
    }
  }

  lemma DispatchLeavesAttempts(s: System, d: DispatcherId, answer: Answer, delay: nat, t: TransferId)
    requires CanDispatch(s, d)
    ensures var p, q := PublishMove(s, d, answer), MarkMove(s, d, answer, delay);
            && p.workers == q.workers == s.workers
            && p.records.Keys == q.records.Keys == s.records.Keys
            && (t in s.records ==> p.records[t].attempts == q.records[t].attempts == s.records[t].attempts)
  {
    hide MarkOutboxDispatched, MarkOutboxRetry;
  }

  lemma ConsumerLeavesAttempts(rec: TransferRecord, w: Worker, c: Choice, policy: RetryPolicy)
    requires !Processing(w.pc)
    ensures var r := ConsumeStep(rec, w, c, policy);
            r.rec.attempts == rec.attempts && (r.next.Continue? ==> !AboutToAdd(r.next.pc))
  {
  }

  // ----- when an attempt row is added

  /** The move is a `CreateAttempt` for `t` that takes effect and to which neither unique index objects. */
  predicate Inserts(s: System, m: Move, t: TransferId) {
    && m.Work? && CanWork(s, m.w) && s.workers[m.w].transfer == t && s.workers[m.w].pc.Creating?
    && (m.c.answer == Ok || m.c.answer.effect)
    && (forall i | 0 <= i < |s.records[t].attempts| ::
          s.records[t].attempts[i].status == Broadcasted || s.records[t].attempts[i].status == AttemptFailed)
    && (forall u, i | u in s.records && 0 <= i < |s.records[u].attempts| ::
          s.records[u].attempts[i].hash != s.workers[m.w].pc.signed.hash)
  }

  /** The two indexes object exactly to an active row and to a hash that is in the table. */
  lemma IndexesObject(records: Records, t: TransferId, hash: string)
    requires t in records
    ensures !HasActive(records[t].attempts) <==>
              forall i | 0 <= i < |records[t].attempts| ::
                records[t].attempts[i].status == Broadcasted || records[t].attempts[i].status == AttemptFailed
    ensures !HasHash(records[t].attempts, hash) && !Clash(records, t, hash) <==>
              forall u, i | u in records && 0 <= i < |records[u].attempts| :: records[u].attempts[i].hash != hash
  {
    if HasHash(records[t].attempts, hash) {
      var i :| 0 <= i < |records[t].attempts| && records[t].attempts[i].hash == hash;
    }
    if u, i :| u in records && 0 <= i < |records[u].attempts| && records[u].attempts[i].hash == hash {
      assert HasHash(records[u].attempts, hash);
    }
  }

  /** It finds a row already there. */
  predicate InsertsAnother(s: System, m: Move, t: TransferId) {
    Inserts(s, m, t) && s.records[t].attempts != []
  }

  lemma ProcessInserts(rec: TransferRecord, clash: bool, pc: Pc, c: Choice)
    requires Processing(pc) && PcInv(rec, pc)
    ensures |ProcessStep(rec, clash, pc, c).rec.attempts| == |rec.attempts| +
              if pc.Creating? && (c.answer == Ok || c.answer.effect) && !HasActive(rec.attempts)
                && !HasHash(rec.attempts, pc.signed.hash) && !clash then 1 else 0
  {
    hide ActiveIndexHolds, HasActive, HasHash;
  }

  /** The insert as the statement sees it. */
  predicate Admitted(s: System, w: WorkerId, c: Choice) {
    && CanWork(s, w) && s.workers[w].pc.Creating? && (c.answer == Ok || c.answer.effect)
    && var t, hash := s.workers[w].transfer, s.workers[w].pc.signed.hash;
    && !HasActive(s.records[t].attempts) && !HasHash(s.records[t].attempts, hash) && !Clash(s.records, t, hash)
  }

  lemma AdmittedInserts(s: System, w: WorkerId, c: Choice, t: TransferId)
    requires t in s.records
    ensures Inserts(s, Work(w, c), t) <==> Admitted(s, w, c) && s.workers[w].transfer == t
  {
    hide HasActive, HasHash, Clash;
    if CanWork(s, w) && s.workers[w].pc.Creating? {
      IndexesObject(s.records, t, s.workers[w].pc.signed.hash);
    }
  }

  lemma WorkInserts(cfg: Config, s: System, w: WorkerId, c: Choice, t: TransferId)
    requires Inv(s) && CanWork(s, w) && t in s.records
    ensures t in WorkMove(cfg, s, w, c).records
    ensures |WorkMove(cfg, s, w, c).records[t].attempts| ==
              |s.records[t].attempts| + if Inserts(s, Work(w, c), t) then 1 else 0
  {
    hide ProcessStep, ConsumeStep, PcInv, RecordInv, HasActive, HasHash, Clash, Inserts;
    var worker := s.workers[w];
    assert WorkerInv(s.records, worker);
    AdmittedInserts(s, w, c, t);
    if worker.transfer == t {
      if Processing(worker.pc) {
        ProcessInserts(s.records[t], WorkerClash(s, worker), worker.pc, c);
      } else {
        ConsumerLeavesAttempts(s.records[t], worker, c, cfg.policy);
      }
    }
  }

  /** Whatever move is made, the number of attempt rows grows, by one, exactly when the move inserts. */
  lemma AttemptsGrowExactly(cfg: Config, s: System, m: Move, t: TransferId)
    requires Inv(s) && t in s.records
    ensures t in Step(cfg, s, m).records
    ensures |Step(cfg, s, m).records[t].attempts| == |s.records[t].attempts| + if Inserts(s, m, t) then 1 else 0
  {
    hide WorkResult, Apply, RecordInv, PcInv, Evolves, Inserts;
    StepKeeps(cfg, s, m);
    if m.Work? {
      if CanWork(s, m.w) {
        WorkInserts(cfg, s, m.w, m.c, t);
      } else {
        InsertsMeansWork(s, m, t);
      }
    } else {
      InsertsMeansWork(s, m, t);
      OthersLeaveAttempts(cfg, s, m, t);
    }
  }

  lemma InsertsMeansWork(s: System, m: Move, t: TransferId)
    ensures Inserts(s, m, t) ==> m.Work? && CanWork(s, m.w) && t in s.records
  {
  }

  /** Some move of the run inserts a row beside one already there. */
  predicate InsertsTwice(cfg: Config, s: System, moves: seq<Move>, t: TransferId)
    decreases |moves|
  {
    moves != [] && (InsertsAnother(s, moves[0], t) || InsertsTwice(cfg, Step(cfg, s, moves[0]), moves[1..], t))
  }

  predicate AtMostOne(s: System, t: TransferId) {
    t in s.records ==> |s.records[t].attempts| <= 1
  }

  lemma NewHasNoAttempts(cfg: Config, s: System, m: Move, t: TransferId)
    requires t !in s.records
    ensures AtMostOne(Step(cfg, s, m), t)
  {
    hide WorkResult;
  }

  lemma AttemptsNeverVanish(a: TransferRecord, b: TransferRecord)
    requires Evolves(a, b)
    ensures |a.attempts| <= |b.attempts|
  {
  }

  lemma {:induction false} SecondRowExactly(cfg: Config, s: System, moves: seq<Move>, t: TransferId)
    requires Inv(s) && AtMostOne(s, t)
    ensures !AtMostOne(Run(cfg, s, moves), t) <==> InsertsTwice(cfg, s, moves, t)
    decreases |moves|
  {
    hide RecordInv, PcInv, Evolves, Inserts, Step;
    if moves != [] {
      var s1 := Step(cfg, s, moves[0]);
      StepKeeps(cfg, s, moves[0]);
      InsertsMeansWork(s, moves[0], t);
      if t in s.records {
        AttemptsGrowExactly(cfg, s, moves[0], t);
      } else {
        NewHasNoAttempts(cfg, s, moves[0], t);
      }
      if AtMostOne(s1, t) {
        SecondRowExactly(cfg, s1, moves[1..], t);
      } else {
        RunKeeps(cfg, s1, moves[1..]);
        AttemptsNeverVanish(s1.records[t], Run(cfg, s, moves).records[t]);
      }
    }
  }

  /**
   Over any run, with any overlap and any signer: a transfer ends with more than one attempt row if and only if
   some insert of the run took effect while a row was already there, none SIGNED or BROADCASTING, and the hash
   was new to the table.
   */
  lemma TwoAttemptsExactly(cfg: Config, moves: seq<Move>, t: TransferId)
    requires t in After(cfg, moves).records
    ensures |After(cfg, moves).records[t].attempts| > 1 <==> InsertsTwice(cfg, Initial(), moves, t)
  {
    InitialInv();
    SecondRowExactly(cfg, Initial(), moves, t);
  }

  // ----- processing that never overlaps

  /** At most one worker is inside `ProcessTransfer` for `t`. */
  predicate Alone(s: System, t: TransferId) {
    forall v, w | v in s.workers && w in s.workers && s.workers[v].transfer == t && s.workers[w].transfer == t
      && Processing(s.workers[v].pc) && Processing(s.workers[w].pc) :: v == w
  }

  /** It stays so in every state of the run. */
  predicate NeverOverlaps(cfg: Config, s: System, moves: seq<Move>, t: TransferId)
    decreases |moves|
  {
    Alone(s, t) && (moves != [] ==> NeverOverlaps(cfg, Step(cfg, s, moves[0]), moves[1..], t))
  }

  /** Once a row is there, nobody is about to add one. */
  predicate SerialInv(s: System, t: TransferId) {
    t in s.records && s.records[t].attempts != [] ==>
      forall w | w in s.workers && s.workers[w].transfer == t :: !AboutToAdd(s.workers[w].pc)
  }

  lemma SerialProcessStep(rec: TransferRecord, clash: bool, pc: Pc, c: Choice)
    requires Processing(pc) && (AboutToAdd(pc) ==> rec.attempts == [])
    ensures var r := ProcessStep(rec, clash, pc, c);
            r.next.Continue? && AboutToAdd(r.next.pc) ==> r.rec.attempts == []
    ensures ProcessStep(rec, clash, pc, c).rec.attempts == [] ==> rec.attempts == []
  {
    hide ActiveIndexHolds, HasActive, HasHash;
  }

  lemma SerialApply(s: System, w: WorkerId, r: StepResult, t: TransferId)
    requires CanWork(s, w) && SerialInv(s, t) && Alone(s, t)
    requires s.workers[w].transfer == t ==>
               && (r.next.Continue? && AboutToAdd(r.next.pc) ==> r.rec.attempts == [])
               && (!Processing(s.workers[w].pc) ==> r.rec.attempts == s.records[t].attempts)
    ensures SerialInv(Apply(s, w, r), t)
  {
  }

  lemma SerialWork(cfg: Config, s: System, w: WorkerId, c: Choice, t: TransferId)
    requires CanWork(s, w) && SerialInv(s, t) && Alone(s, t)
    ensures SerialInv(WorkMove(cfg, s, w, c), t)
  {
    hide ProcessStep, ConsumeStep, Apply, Alone;
    var worker := s.workers[w];
    if worker.transfer == t {
      if Processing(worker.pc) {
        SerialProcessStep(s.records[t], WorkerClash(s, worker), worker.pc, c);
      } else {
        ConsumerLeavesAttempts(s.records[t], worker, c, cfg.policy);
      }
    }
    SerialApply(s, w, WorkResult(cfg, s, w, c), t);
  }

  lemma SerialStep(cfg: Config, s: System, m: Move, t: TransferId)
    requires SerialInv(s, t) && Alone(s, t)
    ensures SerialInv(Step(cfg, s, m), t) && !InsertsAnother(s, m, t)
  {
    hide WorkResult, Apply;
    if m.Work? {
      if CanWork(s, m.w) {
        SerialWork(cfg, s, m.w, m.c, t);
      }
    } else if t in Step(cfg, s, m).records {
      OthersLeaveAttempts(cfg, s, m, t);
      hide Step;
      assert SerialInv(Step(cfg, s, m), t);
    }
  }

  lemma {:induction false} SerialRun(cfg: Config, s: System, moves: seq<Move>, t: TransferId)
    requires SerialInv(s, t) && NeverOverlaps(cfg, s, moves, t)
    ensures !InsertsTwice(cfg, s, moves, t)
    decreases |moves|
  {
    hide Step, InsertsAnother;
    if moves != [] {
      SerialStep(cfg, s, moves[0], t);
      SerialRun(cfg, Step(cfg, s, moves[0]), moves[1..], t);
    }
  }

  /** All broadcasts of a record carry the payload and hash of its first attempt row. */
  predicate OneTransaction(rec: TransferRecord) {
    && |rec.attempts| <= 1
    && (rec.broadcasts != [] ==> rec.attempts != [])
    && forall k | 0 <= k < |rec.broadcasts| ::
         && |rec.attempts| == 1
         && rec.broadcasts[k].payload == rec.attempts[0].payload && rec.broadcasts[k].hash == rec.attempts[0].hash
  }

  lemma SingleRowMeansOneTransaction(rec: TransferRecord)
    requires RecordInv(rec) && |rec.attempts| <= 1
    ensures OneTransaction(rec)
  {
    if rec.broadcasts != [] {
      assert rec.broadcasts[0].attempt < |rec.attempts|;
    }
  }

  /**
   Over any run of crashes, reruns and failures in which processing of `t` never overlaps, and for any signer,
   even one that returns a new hash on every call: one attempt row, stored before the first broadcast, and
   every broadcast carries that row's payload and hash.
   */
  lemma SerialProcessingSignsOnce(cfg: Config, moves: seq<Move>, t: TransferId)
    requires NeverOverlaps(cfg, Initial(), moves, t)
    requires t in After(cfg, moves).records
    ensures OneTransaction(After(cfg, moves).records[t])
  {
    AfterInv(cfg, moves);
    SerialRun(cfg, Initial(), moves, t);
    TwoAttemptsExactly(cfg, moves, t);
    SingleRowMeansOneTransaction(After(cfg, moves).records[t]);
  }

  // ----- a signer whose hash is fixed by the transfer

  /** The move is a signer call made for `t`. */
  predicate SignerCall(s: System, m: Move, t: TransferId) {
    m.Work? && CanWork(s, m.w) && s.workers[m.w].transfer == t && s.workers[m.w].pc.CallingSigner?
  }

  /** Every signer call made for `t` along the run returns the hash `hash`. */
  predicate SignsWith(cfg: Config, s: System, moves: seq<Move>, t: TransferId, hash: string)
    decreases |moves|
  {
    moves != [] ==>
      && (SignerCall(s, moves[0], t) ==> moves[0].c.signed.hash == hash)
      && SignsWith(cfg, Step(cfg, s, moves[0]), moves[1..], t, hash)
  }

  predicate OnlyHash(attempts: seq<Attempt>, hash: string) {
    forall i | 0 <= i < |attempts| :: attempts[i].hash == hash
  }

  predicate FixedInv(s: System, t: TransferId, hash: string) {
    && (t in s.records ==> OnlyHash(s.records[t].attempts, hash))
    && forall w | w in s.workers && s.workers[w].transfer == t && s.workers[w].pc.Creating? ::
         s.workers[w].pc.signed.hash == hash
  }

  lemma FixedProcessStep(rec: TransferRecord, clash: bool, pc: Pc, c: Choice, hash: string)
    requires Processing(pc) && OnlyHash(rec.attempts, hash)
    requires pc.Creating? ==> pc.signed.hash == hash
    requires pc.CallingSigner? ==> c.signed.hash == hash
    ensures var r := ProcessStep(rec, clash, pc, c);
            && OnlyHash(r.rec.attempts, hash)
            && (r.next.Continue? && r.next.pc.Creating? ==> r.next.pc.signed.hash == hash)
  {
    hide ActiveIndexHolds, HasActive, HasHash;
  }

  lemma FixedApply(s: System, w: WorkerId, r: StepResult, t: TransferId, hash: string)
    requires CanWork(s, w) && FixedInv(s, t, hash)
    requires s.workers[w].transfer == t ==>
               && OnlyHash(r.rec.attempts, hash)
               && (r.next.Continue? && r.next.pc.Creating? ==> r.next.pc.signed.hash == hash)
    ensures FixedInv(Apply(s, w, r), t, hash)
  {
    hide OnlyHash;
  }

  lemma FixedWork(cfg: Config, s: System, w: WorkerId, c: Choice, t: TransferId, hash: string)
    requires CanWork(s, w) && FixedInv(s, t, hash)
    requires s.workers[w].transfer == t && s.workers[w].pc.CallingSigner? ==> c.signed.hash == hash
    ensures FixedInv(WorkMove(cfg, s, w, c), t, hash)
  {
    hide ProcessStep, ConsumeStep, Apply, OnlyHash;
    var worker := s.workers[w];
    if worker.transfer == t {
      if Processing(worker.pc) {
        FixedProcessStep(s.records[t], WorkerClash(s, worker), worker.pc, c, hash);
      } else {
        ConsumerLeavesAttempts(s.records[t], worker, c, cfg.policy);
      }
    }
    FixedApply(s, w, WorkResult(cfg, s, w, c), t, hash);
  }

  lemma KnownHash(attempts: seq<Attempt>, hash: string)
    requires OnlyHash(attempts, hash) && attempts != []
    ensures HasHash(attempts, hash)
  {
    assert attempts[0].hash == hash;
  }

  lemma FixedStep(cfg: Config, s: System, m: Move, t: TransferId, hash: string)
    requires FixedInv(s, t, hash)
    requires SignerCall(s, m, t) ==> m.c.signed.hash == hash
    ensures FixedInv(Step(cfg, s, m), t, hash) && !InsertsAnother(s, m, t)
  {
    hide WorkResult, Apply, Clash;
    if t in s.records && s.records[t].attempts != [] {
      KnownHash(s.records[t].attempts, hash);
    }
    if m.Work? {
      if CanWork(s, m.w) {
        FixedWork(cfg, s, m.w, m.c, t, hash);
      }
    } else if t in Step(cfg, s, m).records {
      OthersLeaveAttempts(cfg, s, m, t);
    }
  }

  lemma {:induction false} FixedRun(cfg: Config, s: System, moves: seq<Move>, t: TransferId, hash: string)
    requires FixedInv(s, t, hash) && SignsWith(cfg, s, moves, t, hash)
    ensures FixedInv(Run(cfg, s, moves), t, hash) && !InsertsTwice(cfg, s, moves, t)
    decreases |moves|
  {
    hide Step, InsertsAnother, FixedInv, SignerCall;
    if moves != [] {
      FixedStep(cfg, s, moves[0], t, hash);
      FixedRun(cfg, Step(cfg, s, moves[0]), moves[1..], t, hash);
    }
  }

  /**
   With any number of overlapping workers, if the signed hash depends only on the transfer, the unique hash
   index and the resumption on conflict still leave one attempt row and one transaction across all broadcasts.
   */
  lemma DeterministicSigningSignsOnce(cfg: Config, moves: seq<Move>, t: TransferId, hash: string)
    requires SignsWith(cfg, Initial(), moves, t, hash)
    requires t in After(cfg, moves).records
    ensures OneTransaction(After(cfg, moves).records[t])
    ensures OnlyHash(After(cfg, moves).records[t].attempts, hash)
  {
    AfterInv(cfg, moves);
    FixedRun(cfg, Initial(), moves, t, hash);
    TwoAttemptsExactly(cfg, moves, t);
    SingleRowMeansOneTransaction(After(cfg, moves).records[t]);
  }
}
