/**
 The transfer tables: what PostgreSQL stores about one transfer, the atomic
 statements that change it, and the properties every statement keeps.

 One `TransferRecord` gathers the rows that belong to one transfer: its
 `transfer_requests` row, its `transfer_status_history` rows and its
 `transaction_attempts` rows in insertion order, and its `transfer_outbox` row.
 Beside the rows it carries what an observer of the run would have written down:
 the broadcasts made, the outbox claims and publishes, and the `FailTransfer`
 calls that came back with an error.
 */
module Transfers {

  datatype Option<+T> = None | Some(value: T)

  type TransferId = nat

  datatype Status =
    | Created | Validated | Queued | Signing | Submitted | PendingOnChain | Confirmed | Failed

  datatype AttemptStatus = SignedOnly | Broadcasting | Broadcasted | AttemptFailed

  datatype Attempt = Attempt(payload: string, hash: string, status: AttemptStatus)

  datatype HistoryRow = HistoryRow(from: Option<Status>, to: Status)

  /** One call of the broadcaster: the attempt row it was made for, what was sent, and whether the network took it. */
  datatype Broadcast = Broadcast(attempt: nat, payload: string, hash: string, accepted: bool)

  datatype OutboxStatus = OutboxPending | OutboxProcessing | OutboxRetry | OutboxDispatched

  /** `claims` and `publishes` are observations: how often the row was claimed and its job handed to the broker. */
  datatype OutboxRow = OutboxRow(
    status: OutboxStatus,
    attemptCount: nat,
    availableAt: nat,
    lockedAt: Option<nat>,
    claims: nat,
    publishes: nat)

  datatype TransferRecord = TransferRecord(
    key: string,
    callbackUrl: string,
    status: Status,
    txHash: string,
    history: seq<HistoryRow>,
    attempts: seq<Attempt>,
    outbox: OutboxRow,
    broadcasts: seq<Broadcast>,
    failErrors: nat)

  // ----- statuses

  /** The statuses in which processing still has something to do. */
  predicate Working(s: Status) {
    s == Created || s == Validated || s == Queued || s == Signing || s == Submitted
  }

  /** The two statuses in which processing ends. */
  predicate Settled(s: Status) {
    s == PendingOnChain || s == Failed
  }

  function NextStatus(s: Status): Status
    requires Working(s)
  {
    match s
    case Created => Validated
    case Validated => Queued
    case Queued => Signing
    case Signing => Submitted
    case Submitted => PendingOnChain
  }

  /** The transitions any run may commit. */
  predicate Legal(from: Status, to: Status) {
    Working(from) && (to == NextStatus(from) || to == Failed)
  }

  // ----- statements on one transfer's rows

  function NewRecord(key: string, callbackUrl: string, now: nat): TransferRecord {
    TransferRecord(
      key, callbackUrl, Created, "", [HistoryRow(None, Created)], [],
      OutboxRow(OutboxPending, 0, now, None, 0, 0), [], 0)
  }

  /** `UPDATE ... WHERE status = from`; `None` when no row matches. */
  function TransitionStatus(
    rec: TransferRecord, from: Status, to: Status, hash: Option<string>): Option<TransferRecord>
  {
    if rec.status != from then None else
    Some(rec.(
      status := to,
      txHash := if hash.None? then rec.txHash else hash.value,
      history := rec.history + [HistoryRow(Some(from), to)]))
  }

  predicate Active(a: Attempt) {
    a.status == SignedOnly || a.status == Broadcasting
  }

  predicate HasActive(attempts: seq<Attempt>) {
    exists i | 0 <= i < |attempts| :: Active(attempts[i])
  }

  predicate HasHash(attempts: seq<Attempt>, hash: string) {
    exists i | 0 <= i < |attempts| :: attempts[i].hash == hash
  }

  /**
   `INSERT` of a signed attempt; `None` is the conflict raised by the active-attempt index or by the
   unique hash index. `clash` tells whether another transfer's attempt already carries the hash.
   */
  function CreateAttempt(rec: TransferRecord, clash: bool, payload: string, hash: string): Option<TransferRecord> {
    if HasActive(rec.attempts) || (hash != "" && (clash || HasHash(rec.attempts, hash))) then None else
    Some(rec.(attempts := rec.attempts + [Attempt(payload, hash, SignedOnly)]))
  }

  /** The partial unique index over SIGNED and BROADCASTING rows of one transfer. */
  predicate ActiveIndexHolds(attempts: seq<Attempt>) {
    forall i, j | 0 <= i < j < |attempts| :: !(Active(attempts[i]) && Active(attempts[j]))
  }

  function WithStatus(attempts: seq<Attempt>, id: nat, to: AttemptStatus): seq<Attempt>
    requires id < |attempts|
  {
    attempts[id := attempts[id].(status := to)]
  }

  /** `UPDATE ... WHERE id = id AND status = expected`; `None` when no row matches or the index rejects the write. */
  function UpdateAttempt(
    rec: TransferRecord, id: nat, expected: AttemptStatus, to: AttemptStatus): Option<TransferRecord>
  {
    if id >= |rec.attempts| || rec.attempts[id].status != expected then None
    else if !ActiveIndexHolds(WithStatus(rec.attempts, id, to)) then None
    else Some(rec.(attempts := WithStatus(rec.attempts, id, to)))
  }

  // ----- statements on the outbox row

  /** The `WHERE` clause of the claim, with `staleBefore` being `now - timeout`. */
  predicate Claimable(row: OutboxRow, now: nat, timeout: nat) {
    || ((row.status == OutboxPending || row.status == OutboxRetry) && row.availableAt <= now)
    || (row.status == OutboxProcessing && row.lockedAt.Some? && row.lockedAt.value + timeout <= now)
  }

  function ClaimOutbox(row: OutboxRow, now: nat): OutboxRow {
    row.(status := OutboxProcessing, lockedAt := Some(now), claims := row.claims + 1)
  }

  function Max(a: nat, b: nat): nat { if a < b then b else a }

  function MarkOutboxDispatched(row: OutboxRow, attemptCount: nat): OutboxRow {
    if row.status == OutboxDispatched then row else
    row.(status := OutboxDispatched, attemptCount := Max(row.attemptCount, attemptCount), lockedAt := None)
  }

  function MarkOutboxRetry(row: OutboxRow, attemptCount: nat, availableAt: nat): OutboxRow {
    if row.status == OutboxDispatched then row else
    row.(status := OutboxRetry, attemptCount := Max(row.attemptCount, attemptCount),
         availableAt := availableAt, lockedAt := None)
  }

  // ----- what holds of every record

  predicate Passed(history: seq<HistoryRow>, s: Status) {
    exists i | 0 <= i < |history| :: history[i].to == s
  }

  predicate Accepted(broadcasts: seq<Broadcast>, id: nat) {
    exists i | 0 <= i < |broadcasts| :: broadcasts[i].attempt == id && broadcasts[i].accepted
  }

  /** The history is a chain of legal transitions from the creation row to the current status. */
  predicate HistoryInv(history: seq<HistoryRow>, status: Status) {
    && |history| > 0
    && history[0] == HistoryRow(None, Created)
    && (forall i | 0 < i < |history| ::
          history[i].from == Some(history[i-1].to) && Legal(history[i-1].to, history[i].to))
    && history[|history|-1].to == status
  }

  predicate AttemptsInv(attempts: seq<Attempt>) {
    && ActiveIndexHolds(attempts)
    && (forall i | 0 <= i < |attempts| :: attempts[i].hash != "")
    && (forall i, j | 0 <= i < j < |attempts| :: attempts[i].hash != attempts[j].hash)
  }

  /** Every broadcast carried the payload and the hash of an attempt row that exists. */
  predicate BroadcastsInv(attempts: seq<Attempt>, broadcasts: seq<Broadcast>) {
    forall k | 0 <= k < |broadcasts| ::
      && broadcasts[k].attempt < |attempts|
      && broadcasts[k].payload == attempts[broadcasts[k].attempt].payload
      && broadcasts[k].hash == attempts[broadcasts[k].attempt].hash
  }

  predicate BroadcastedWereAccepted(attempts: seq<Attempt>, broadcasts: seq<Broadcast>) {
    forall i | 0 <= i < |attempts| :: attempts[i].status == Broadcasted ==> Accepted(broadcasts, i)
  }

  predicate IsBroadcastedHash(attempts: seq<Attempt>, hash: string) {
    exists i | 0 <= i < |attempts| :: attempts[i].status == Broadcasted && attempts[i].hash == hash
  }

  predicate HashInv(rec: TransferRecord) {
    && (rec.txHash != "" <==> Passed(rec.history, Submitted))
    && (rec.txHash != "" ==> IsBroadcastedHash(rec.attempts, rec.txHash))
  }

  predicate OutboxInv(row: OutboxRow) {
    && (row.status == OutboxProcessing <==> row.lockedAt.Some?)
    && row.attemptCount <= row.claims
    && (row.status == OutboxDispatched ==> row.publishes > 0)
  }

  predicate RecordInv(rec: TransferRecord) {
    && HistoryInv(rec.history, rec.status)
    && AttemptsInv(rec.attempts)
    && BroadcastsInv(rec.attempts, rec.broadcasts)
    && BroadcastedWereAccepted(rec.attempts, rec.broadcasts)
    && HashInv(rec)
    && OutboxInv(rec.outbox)
  }

  // ----- how a record may change over time

  predicate AttemptEvolves(a: Attempt, b: Attempt) {
    && a.payload == b.payload
    && a.hash == b.hash
    && (a.status == Broadcasted || a.status == AttemptFailed ==> b.status == a.status)
  }

  predicate AttemptsEvolve(a: seq<Attempt>, b: seq<Attempt>) {
    && |a| <= |b|
    && forall i | 0 <= i < |a| :: AttemptEvolves(a[i], b[i])
  }

  predicate OutboxEvolves(a: OutboxRow, b: OutboxRow) {
    && (a.status == OutboxDispatched ==> b.status == OutboxDispatched)
    && a.attemptCount <= b.attemptCount
    && a.claims <= b.claims
    && a.publishes <= b.publishes
  }

  /** The committed past of a transfer is never rewritten. */
  predicate Evolves(a: TransferRecord, b: TransferRecord) {
    && a.key == b.key
    && a.callbackUrl == b.callbackUrl
    && (Settled(a.status) ==> b.status == a.status)
    && (a.txHash != "" ==> b.txHash == a.txHash)
    && a.history <= b.history
    && AttemptsEvolve(a.attempts, b.attempts)
    && OutboxEvolves(a.outbox, b.outbox)
    && a.broadcasts <= b.broadcasts
    && a.failErrors <= b.failErrors
  }

  lemma EvolvesTransitive(a: TransferRecord, b: TransferRecord, c: TransferRecord)
    requires Evolves(a, b) && Evolves(b, c)
    ensures Evolves(a, c)
  {
  }

  // ----- each statement keeps the record well formed

  lemma NewRecordInv(key: string, callbackUrl: string, now: nat)
    ensures RecordInv(NewRecord(key, callbackUrl, now))
  {
  }

  lemma PassedAppend(history: seq<HistoryRow>, row: HistoryRow, s: Status)
    ensures Passed(history + [row], s) <==> Passed(history, s) || row.to == s
  {
    var longer := history + [row];
    if Passed(history, s) {
      var i :| 0 <= i < |history| && history[i].to == s;
      assert longer[i].to == s;
    }
    if row.to == s {
      assert longer[|history|].to == s;
    }
  }

  /** Committing a legal transition, with a hash exactly when it enters SUBMITTED. */
  lemma TransitionKeepsInv(rec: TransferRecord, from: Status, to: Status, hash: Option<string>)
    requires RecordInv(rec)
    requires Legal(from, to)
    requires hash.Some? <==> to == Submitted
    requires hash.Some? ==> hash.value != "" && IsBroadcastedHash(rec.attempts, hash.value)
    ensures var next := TransitionStatus(rec, from, to, hash);
            next.Some? ==> RecordInv(next.value) && Evolves(rec, next.value)
  {
    if rec.status == from {
      PassedAppend(rec.history, HistoryRow(Some(from), to), Submitted);
      if to == Submitted {
        SubmittedOnlyFollowsSigning(rec.history, rec.status);
      }
    }
  }

  /** In SIGNING the history cannot already hold SUBMITTED. */
  lemma SubmittedOnlyFollowsSigning(history: seq<HistoryRow>, status: Status)
    requires HistoryInv(history, status)
    requires status == Signing
    ensures !Passed(history, Submitted)
  {
    HistoryShape(history, status);
  }

  // ----- the shape of a history

  const CHAIN: seq<Status> := [Created, Validated, Queued, Signing, Submitted, PendingOnChain]

  /**
   Position by position, a history follows the processing order; only its last row may leave it, to FAILED
   and never from PENDING_ON_CHAIN. So at most five transitions are ever committed.
   */
  lemma HistoryShape(history: seq<HistoryRow>, status: Status)
    requires HistoryInv(history, status)
    ensures |history| <= |CHAIN|
    ensures forall i | 0 <= i < |history| ::
      || history[i].to == CHAIN[i]
      || (i == |history| - 1 && i > 0 && history[i].to == Failed && history[i-1].to != PendingOnChain)
  {
    HistoryPrefixShape(history, status, |history| - 1);
  }

  lemma {:induction false} HistoryPrefixShape(history: seq<HistoryRow>, status: Status, n: nat)
    requires HistoryInv(history, status)
    requires n < |history|
    ensures n < |CHAIN|
    ensures forall i | 0 <= i <= n ::
      history[i].to == CHAIN[i] || (i == n && i > 0 && history[i].to == Failed && history[i-1].to != PendingOnChain)
  {
    if n > 0 {
      HistoryPrefixShape(history, status, n - 1);
      assert Legal(history[n-1].to, history[n].to);
    }
  }

  lemma CreateAttemptKeepsInv(rec: TransferRecord, clash: bool, payload: string, hash: string)
    requires RecordInv(rec)
    requires hash != ""
    ensures var next := CreateAttempt(rec, clash, payload, hash);
            next.Some? ==> RecordInv(next.value) && Evolves(rec, next.value)
  {
  }

  /**
   The status updates the processor asks for never break the active-attempt index: under the record
   invariant the index check of `UpdateAttempt` is never the reason for a conflict.
   */
  lemma UpdateNeverViolatesIndex(rec: TransferRecord, id: nat, expected: AttemptStatus, to: AttemptStatus)
    requires RecordInv(rec)
    requires expected == SignedOnly || expected == Broadcasting
    ensures UpdateAttempt(rec, id, expected, to).Some? <==> id < |rec.attempts| && rec.attempts[id].status == expected
  {
  }

  lemma UpdateAttemptKeepsInv(rec: TransferRecord, id: nat, expected: AttemptStatus, to: AttemptStatus)
    requires RecordInv(rec)
    requires expected == SignedOnly || expected == Broadcasting
    requires to == Broadcasted ==> Accepted(rec.broadcasts, id)
    ensures var next := UpdateAttempt(rec, id, expected, to);
            next.Some? ==> RecordInv(next.value) && Evolves(rec, next.value)
  {
  }

  function AddBroadcast(rec: TransferRecord, id: nat, a: Attempt, accepted: bool): TransferRecord {
    rec.(broadcasts := rec.broadcasts + [Broadcast(id, a.payload, a.hash, accepted)])
  }

  lemma AcceptedMonotone(a: seq<Broadcast>, b: seq<Broadcast>, id: nat)
    requires a <= b
    requires Accepted(a, id)
    ensures Accepted(b, id)
  {
  }

  lemma AddBroadcastKeepsInv(rec: TransferRecord, id: nat, a: Attempt, accepted: bool)
    requires RecordInv(rec)
    requires id < |rec.attempts| && rec.attempts[id].payload == a.payload && rec.attempts[id].hash == a.hash
    ensures var next := AddBroadcast(rec, id, a, accepted);
            RecordInv(next) && Evolves(rec, next) && (accepted ==> Accepted(next.broadcasts, id))
  {
    var next := AddBroadcast(rec, id, a, accepted);
    forall i | 0 <= i < |rec.attempts| && rec.attempts[i].status == Broadcasted
      ensures Accepted(next.broadcasts, i)
    {
      AcceptedMonotone(rec.broadcasts, next.broadcasts, i);
    }
    assert next.broadcasts[|rec.broadcasts|] == Broadcast(id, a.payload, a.hash, accepted);
  }
}
