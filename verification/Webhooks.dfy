/**
 Webhook deliveries: rows claimed under a lease whose expiry is the fencing value, sent one after the other,
 and settled by conditional writes. Any number of senders run at once, with stale copies, against one clock.
 */
module Webhooks {
  import opened Transfers

  type Positive = x: nat | x > 0 witness 1

  /** A delivery belongs to one row of one transfer's status history. */
  datatype HistoryRef = HistoryRef(transfer: TransferId, index: nat)

  datatype DeliveryStatus = HookPending | HookRetrying | HookInProgress | HookDelivered | HookFailed

  /**
   A `webhook_deliveries` row, and four observations: the lease values issued for it, the lease values under
   which a result was written, how often it was dispatched, and how many of the responses were 2xx.
   */
  datatype Delivery = Delivery(
    transferStatus: Status,
    txHash: string,
    status: DeliveryStatus,
    attemptCount: nat,
    maxAttempts: nat,
    responseCode: Option<nat>,
    nextAttemptAt: Option<nat>,
    leaseExpiresAt: Option<nat>,
    deliveredAt: Option<nat>,
    issued: seq<nat>,
    landed: seq<nat>,
    dispatches: nat,
    successes: nat)

  type Deliveries = map<HistoryRef, Delivery>

  /** What a claim returns and the sender works from. */
  datatype Snapshot = Snapshot(ref: HistoryRef, lease: nat, attemptCount: nat, maxAttempts: nat)

  datatype Verdict = MarkDelivered(code: nat) | MarkRetry(code: nat, nextAttemptAt: nat) | MarkFailed(code: nat)

  datatype Phase = Dispatching | Marking(verdict: Verdict)

  datatype Sender = Sender(todo: seq<Snapshot>, phase: Phase)

  type SenderId = nat

  datatype Hooks = Hooks(now: nat, rows: Deliveries, senders: map<SenderId, Sender>)

  /** `NoResponse` is a dispatch that failed before a status code was read; it counts as code 0. */
  datatype Response = Code(code: nat) | NoResponse

  datatype Reply = Written | Broken(effect: bool)

  datatype Move =
    | Claim(w: SenderId, ref: HistoryRef)
    | Send(w: SenderId, response: Response, backoff: Positive)
    | Mark(w: SenderId, reply: Reply)
    | Stop(w: SenderId)
    | Tick(elapsed: nat)

  // ----- statements on one row

  function NewDelivery(transferStatus: Status, txHash: string, maxAttempts: nat, now: nat): Delivery {
    Delivery(transferStatus, txHash, HookPending, 0, maxAttempts, None, Some(now), None, None, [], [], 0, 0)
  }

  predicate Due(row: Delivery, now: nat) {
    || ((row.status == HookPending || row.status == HookRetrying)
        && row.nextAttemptAt.Some? && row.nextAttemptAt.value <= now)
    || (row.status == HookInProgress && row.leaseExpiresAt.Some? && row.leaseExpiresAt.value <= now)
  }

  function ClaimRow(row: Delivery, lease: nat): Delivery {
    row.(status := HookInProgress, leaseExpiresAt := Some(lease), issued := row.issued + [lease])
  }

  /** The condition every result write carries. */
  predicate Fenced(row: Delivery, lease: nat) {
    row.status == HookInProgress && row.leaseExpiresAt == Some(lease)
  }

  /** `NULLIF(code, 0)`. */
  function NonZero(code: nat): Option<nat> { if code == 0 then None else Some(code) }

  function WriteResult(row: Delivery, snap: Snapshot, v: Verdict, now: nat): Delivery
    requires Fenced(row, snap.lease)
  {
    var row' := row.(
      attemptCount := snap.attemptCount + 1, leaseExpiresAt := None, landed := row.landed + [snap.lease]);
    match v
    case MarkDelivered(code) =>
      row'.(status := HookDelivered, responseCode := Some(code), nextAttemptAt := None, deliveredAt := Some(now))
    case MarkRetry(code, next) =>
      row'.(status := HookRetrying, responseCode := NonZero(code), nextAttemptAt := Some(next), deliveredAt := None)
    case MarkFailed(code) =>
      row'.(status := HookFailed, responseCode := NonZero(code), nextAttemptAt := None, deliveredAt := None)
  }

  predicate IsSuccess(response: Response) {
    response.Code? && 200 <= response.code < 300
  }

  /** The table accepts the status code of this response; no code and code 0 are stored as NULL. */
  predicate Recordable(response: Response) {
    response.NoResponse? || response.code == 0 || 100 <= response.code <= 599
  }

  /** How `processDelivery` judges a response. */
  function Judge(snap: Snapshot, response: Response, now: nat, backoff: Positive): Verdict {
    var code := if response.Code? then response.code else 0;
    if IsSuccess(response) then MarkDelivered(code)
    else if snap.attemptCount + 1 >= snap.maxAttempts then MarkFailed(code)
    else MarkRetry(code, now + backoff)
  }

  // ----- steps

  function ClaimMove(leaseDuration: Positive, h: Hooks, w: SenderId, ref: HistoryRef): Hooks {
    if ref in h.rows && Due(h.rows[ref], h.now) then
      var row := h.rows[ref];
      var sender := if w in h.senders then h.senders[w] else Sender([], Dispatching);
      var snap := Snapshot(ref, h.now + leaseDuration, row.attemptCount, row.maxAttempts);
      h.(rows := h.rows[ref := ClaimRow(row, h.now + leaseDuration)],
         senders := h.senders[w := sender.(todo := sender.todo + [snap])])
    else h
  }

  predicate CanSend(h: Hooks, w: SenderId) {
    w in h.senders && h.senders[w].todo != [] && h.senders[w].todo[0].ref in h.rows
  }

  /** The row after a dispatch. */
  function Dispatched(row: Delivery, response: Response): Delivery {
    row.(dispatches := row.dispatches + 1, successes := row.successes + if IsSuccess(response) then 1 else 0)
  }

  function SendMove(h: Hooks, w: SenderId, response: Response, backoff: Positive): Hooks {
    if CanSend(h, w) && h.senders[w].phase == Dispatching then
      var snap := h.senders[w].todo[0];
      h.(rows := h.rows[snap.ref := Dispatched(h.rows[snap.ref], response)],
         senders := h.senders[w := h.senders[w].(phase := Marking(Judge(snap, response, h.now, backoff)))])
    else h
  }

  /** The range CHECK on `response_status_code`; code 0 is stored as NULL. */
  predicate CodeAccepted(v: Verdict) {
    v.code == 0 || 100 <= v.code <= 599
  }

  predicate ReadyToMark(h: Hooks, w: SenderId) {
    CanSend(h, w) && h.senders[w].phase.Marking?
  }

  /** The row still carries this sender's lease. */
  predicate HoldsLease(h: Hooks, w: SenderId)
    requires ReadyToMark(h, w)
  {
    Fenced(h.rows[h.senders[w].todo[0].ref], h.senders[w].todo[0].lease)
  }

  /** The result write takes effect. */
  predicate Lands(h: Hooks, w: SenderId, reply: Reply) {
    && ReadyToMark(h, w) && HoldsLease(h, w)
    && CodeAccepted(h.senders[w].phase.verdict)
    && (reply == Written || reply.effect)
  }

  function Proceed(h: Hooks, w: SenderId, reply: Reply): Hooks
    requires w in h.senders && h.senders[w].todo != []
  {
    var rest := h.senders[w].todo[1..];
    h.(senders := if reply.Broken? || rest == [] then h.senders - {w} else h.senders[w := Sender(rest, Dispatching)])
  }

  /**
   A lost lease is not an error: the sender goes on with the next delivery. A broken call ends the cycle, and
   so does a status code the table refuses, which leaves the row as it was.
   */
  function MarkMove(h: Hooks, w: SenderId, reply: Reply): Hooks {
    if ReadyToMark(h, w) then
      var snap := h.senders[w].todo[0];
      var v := h.senders[w].phase.verdict;
      if Lands(h, w, reply) then
        Proceed(h.(rows := h.rows[snap.ref := WriteResult(h.rows[snap.ref], snap, v, h.now)]), w, reply)
      else Proceed(h, w, if HoldsLease(h, w) && !CodeAccepted(v) then Broken(false) else reply)
    else h
  }

  function Step(leaseDuration: Positive, h: Hooks, m: Move): Hooks {
    match m
    case Claim(w, ref) => ClaimMove(leaseDuration, h, w, ref)
    case Send(w, response, backoff) => SendMove(h, w, response, backoff)
    case Mark(w, reply) => MarkMove(h, w, reply)
    case Stop(w) => h.(senders := h.senders - {w})
    case Tick(elapsed) => h.(now := h.now + elapsed)
  }

  // ----- the invariant of a row

  predicate Increasing(s: seq<nat>) {
    forall i, j | 0 <= i < j < |s| :: s[i] < s[j]
  }

  predicate Open(row: Delivery) {
    row.status == HookPending || row.status == HookRetrying || row.status == HookInProgress
  }

  /** The CHECK constraints of the table. */
  predicate ChecksHold(row: Delivery) {
    && row.maxAttempts > 0 && row.attemptCount <= row.maxAttempts
    && (row.responseCode.Some? ==> 100 <= row.responseCode.value <= 599)
    && match row.status
       case HookPending => row.nextAttemptAt.Some?
       case HookRetrying => row.nextAttemptAt.Some?
       case HookInProgress => row.leaseExpiresAt.Some?
       case HookDelivered => row.deliveredAt.Some? && row.nextAttemptAt.None?
       case HookFailed => row.nextAttemptAt.None?
  }

  function Last(s: seq<nat>): nat
    requires s != []
  {
    s[|s|-1]
  }

  predicate LeasesInv(leaseDuration: Positive, now: nat, row: Delivery) {
    && Increasing(row.issued) && Increasing(row.landed)
    && (row.issued != [] ==> Last(row.issued) <= now + leaseDuration)
    && (row.landed != [] ==> row.issued != [] && Last(row.landed) <= Last(row.issued))
    && match row.status
       case HookPending => row.issued == []
       case HookRetrying =>
         row.issued != [] && row.nextAttemptAt.Some? && Last(row.issued) < row.nextAttemptAt.value + leaseDuration
       case HookInProgress =>
         && row.issued != [] && row.leaseExpiresAt == Some(Last(row.issued))
         && (row.landed != [] ==> Last(row.landed) < Last(row.issued))
       case _ => true
  }

  predicate RowInv(leaseDuration: Positive, now: nat, row: Delivery) {
    && ChecksHold(row)
    && LeasesInv(leaseDuration, now, row)
    && row.attemptCount == |row.landed|
    && (Open(row) ==> row.attemptCount < row.maxAttempts)
    && (row.status == HookDelivered ==> row.successes > 0)
  }

  // ----- what a sender may rely on

  /** The row has been claimed again since. */
  predicate Superseded(row: Delivery, lease: nat) {
    row.issued != [] && Last(row.issued) > lease
  }

  /** A claim whose result is still to be written holds its lease or has been overtaken by a later claim. */
  predicate Waiting(row: Delivery, lease: nat) {
    Fenced(row, lease) || Superseded(row, lease)
  }

  /** While the row still carries the snapshot's lease, nothing has been written since the claim. */
  predicate SnapInv(row: Delivery, snap: Snapshot) {
    && snap.lease in row.issued
    && snap.maxAttempts == row.maxAttempts
    && (Fenced(row, snap.lease) ==> row.attemptCount == snap.attemptCount)
    && Waiting(row, snap.lease)
  }

  predicate VerdictInv(leaseDuration: Positive, row: Delivery, snap: Snapshot, v: Verdict) {
    match v
    case MarkDelivered(code) => 200 <= code < 300 && row.successes > 0
    case MarkRetry(code, next) => snap.attemptCount + 1 < snap.maxAttempts && snap.lease < next + leaseDuration
    case MarkFailed(code) => true
  }

  predicate RefKnown(rows: Deliveries, snap: Snapshot) {
    snap.ref in rows && SnapInv(rows[snap.ref], snap)
  }

  predicate SenderInv(leaseDuration: Positive, rows: Deliveries, s: Sender) {
    && s.todo != []
    && (forall k | 0 <= k < |s.todo| :: RefKnown(rows, s.todo[k]))
    && (s.phase.Marking? ==>
          RefKnown(rows, s.todo[0]) && VerdictInv(leaseDuration, rows[s.todo[0].ref], s.todo[0], s.phase.verdict))
  }

  predicate RowsInv(leaseDuration: Positive, now: nat, rows: Deliveries) {
    forall ref | ref in rows :: RowInv(leaseDuration, now, rows[ref])
  }

  predicate SendersInv(leaseDuration: Positive, rows: Deliveries, senders: map<SenderId, Sender>) {
    forall w | w in senders :: SenderInv(leaseDuration, rows, senders[w])
  }

  predicate SameClaim(a: Snapshot, b: Snapshot) {
    a.ref == b.ref && a.lease == b.lease
  }

  /** No two waiting snapshots, of whatever senders, stem from the same claim. */
  predicate DistinctClaims(senders: map<SenderId, Sender>) {
    forall v, i, w, j | v in senders && 0 <= i < |senders[v].todo| && w in senders && 0 <= j < |senders[w].todo|
      && SameClaim(senders[v].todo[i], senders[w].todo[j]) :: v == w && i == j
  }

  predicate Inv(leaseDuration: Positive, h: Hooks) {
    && RowsInv(leaseDuration, h.now, h.rows)
    && SendersInv(leaseDuration, h.rows, h.senders)
    && DistinctClaims(h.senders)
  }

  // ----- how a row may change

  predicate RowEvolves(a: Delivery, b: Delivery) {
    && b.transferStatus == a.transferStatus && b.txHash == a.txHash && b.maxAttempts == a.maxAttempts
    && a.issued <= b.issued && a.landed <= b.landed
    && a.attemptCount <= b.attemptCount && a.dispatches <= b.dispatches && a.successes <= b.successes
    && (!Open(a) ==>
          b.status == a.status && b.attemptCount == a.attemptCount && b.issued == a.issued && b.landed == a.landed)
  }

  /** One statement's change: a lease the row carries afterwards is the same with nothing written, or it is new. */
  predicate RowSteps(a: Delivery, b: Delivery) {
    && RowEvolves(a, b)
    && (b.status == HookInProgress && b.leaseExpiresAt.Some? ==>
          || (a.status == HookInProgress && a.leaseExpiresAt == b.leaseExpiresAt && a.attemptCount == b.attemptCount)
          || b.leaseExpiresAt.value !in a.issued)
  }

  lemma LaterLease(issued: seq<nat>, later: seq<nat>)
    requires issued <= later && Increasing(later) && issued != []
    ensures Last(issued) <= Last(later)
  {
  }

  /** A waiting snapshot outlives a statement on its row that does not take its lease away for good. */
  lemma SnapStable(a: Delivery, b: Delivery, snap: Snapshot)
    requires SnapInv(a, snap) && RowSteps(a, b) && Increasing(b.issued)
    requires Fenced(a, snap.lease) ==> Waiting(b, snap.lease)
    ensures SnapInv(b, snap)
  {
    var k :| 0 <= k < |a.issued| && a.issued[k] == snap.lease;
    assert b.issued[k] == snap.lease;
    LaterLease(a.issued, b.issued);
  }

  lemma ClaimRowKeeps(leaseDuration: Positive, now: nat, row: Delivery)
    requires RowInv(leaseDuration, now, row) && Due(row, now)
    ensures RowInv(leaseDuration, now, ClaimRow(row, now + leaseDuration))
    ensures RowSteps(row, ClaimRow(row, now + leaseDuration))
    ensures now + leaseDuration !in row.issued
  {
    var lease := now + leaseDuration;
    assert row.issued != [] ==> Last(row.issued) < lease;
    assert forall i | 0 <= i < |row.issued| :: row.issued[i] <= Last(row.issued);
    assert lease !in row.issued;
  }

  lemma WriteResultKeeps(leaseDuration: Positive, now: nat, row: Delivery, snap: Snapshot, v: Verdict)
    requires RowInv(leaseDuration, now, row) && SnapInv(row, snap) && VerdictInv(leaseDuration, row, snap, v)
    requires Fenced(row, snap.lease) && CodeAccepted(v)
    ensures RowInv(leaseDuration, now, WriteResult(row, snap, v, now))
    ensures RowSteps(row, WriteResult(row, snap, v, now))
  {
    var row' := WriteResult(row, snap, v, now);
    assert Increasing(row'.landed) by {
      forall i, j | 0 <= i < j < |row'.landed| ensures row'.landed[i] < row'.landed[j] {
        if j == |row.landed| {
          assert row.landed[i] <= Last(row.landed);
        }
      }
    }
  }

  /** A fenced result write violates a CHECK exactly when the status code is out of range; no other CHECK can fail. */
  lemma WriteRejectedOnlyForCode(leaseDuration: Positive, now: nat, row: Delivery, snap: Snapshot, v: Verdict)
    requires RowInv(leaseDuration, now, row) && SnapInv(row, snap) && VerdictInv(leaseDuration, row, snap, v)
    requires Fenced(row, snap.lease)
    ensures ChecksHold(WriteResult(row, snap, v, now)) <==> CodeAccepted(v)
  {
  }

  /** A sender that no longer holds its lease has lost it to a later claim, never to its own write. */
  lemma LeaseLostMeansOvertaken(leaseDuration: Positive, h: Hooks, w: SenderId)
    requires Inv(leaseDuration, h) && ReadyToMark(h, w) && !HoldsLease(h, w)
    ensures var snap := h.senders[w].todo[0]; Superseded(h.rows[snap.ref], snap.lease)
  {
    hide RowInv;
    assert SenderInv(leaseDuration, h.rows, h.senders[w]);
    assert RefKnown(h.rows, h.senders[w].todo[0]);
  }

  // ----- every move keeps the invariant

  predicate Forward(a: Deliveries, b: Deliveries) {
    forall ref | ref in a :: ref in b && RowEvolves(a[ref], b[ref])
  }

  lemma ForwardReflexive(rows: Deliveries)
    ensures Forward(rows, rows)
  {
  }

  lemma ForwardTransitive(a: Deliveries, b: Deliveries, c: Deliveries)
    requires Forward(a, b) && Forward(b, c)
    ensures Forward(a, c)
  {
    forall ref | ref in a ensures ref in c && RowEvolves(a[ref], c[ref]) {
      assert RowEvolves(a[ref], b[ref]) && RowEvolves(b[ref], c[ref]);
    }
  }

  lemma VerdictStable(leaseDuration: Positive, a: Delivery, b: Delivery, snap: Snapshot, v: Verdict)
    requires VerdictInv(leaseDuration, a, snap, v) && RowEvolves(a, b)
    ensures VerdictInv(leaseDuration, b, snap, v)
  {
  }

  /** Nobody waiting for a result on `ref` loses its lease for good by this statement. */
  predicate Harmless(rows: Deliveries, senders: map<SenderId, Sender>, ref: HistoryRef, row: Delivery)
    requires ref in rows
  {
    forall w, k | w in senders && 0 <= k < |senders[w].todo| && senders[w].todo[k].ref == ref ::
      Fenced(rows[ref], senders[w].todo[k].lease) ==> Waiting(row, senders[w].todo[k].lease)
  }

  lemma SenderStable(
    leaseDuration: Positive, rows: Deliveries, senders: map<SenderId, Sender>,
    ref: HistoryRef, row: Delivery, w: SenderId)
    requires w in senders && SenderInv(leaseDuration, rows, senders[w])
    requires ref in rows && RowSteps(rows[ref], row) && Increasing(row.issued) && Harmless(rows, senders, ref, row)
    ensures SenderInv(leaseDuration, rows[ref := row], senders[w])
  {
    var after := rows[ref := row];
    var s := senders[w];
    forall k | 0 <= k < |s.todo| ensures RefKnown(after, s.todo[k]) {
      assert RefKnown(rows, s.todo[k]);
      if s.todo[k].ref == ref {
        SnapStable(rows[ref], row, s.todo[k]);
      }
    }
    assert RefKnown(rows, s.todo[0]);
    if s.phase.Marking? && s.todo[0].ref == ref {
      VerdictStable(leaseDuration, rows[ref], row, s.todo[0], s.phase.verdict);
    }
  }

  /** One statement on one row disturbs no sender's knowledge. */
  lemma ReplaceKeeps(leaseDuration: Positive, h: Hooks, ref: HistoryRef, row: Delivery)
    requires Inv(leaseDuration, h) && ref in h.rows && RowInv(leaseDuration, h.now, row) && RowSteps(h.rows[ref], row)
    requires Harmless(h.rows, h.senders, ref, row)
    ensures Inv(leaseDuration, h.(rows := h.rows[ref := row])) && Forward(h.rows, h.rows[ref := row])
  {
    hide RowInv, SenderInv, Harmless, DistinctClaims;
    LeasesIncrease(leaseDuration, h.now, row);
    forall w | w in h.senders ensures SenderInv(leaseDuration, h.rows[ref := row], h.senders[w]) {
      SenderStable(leaseDuration, h.rows, h.senders, ref, row, w);
    }
  }

  lemma LeasesIncrease(leaseDuration: Positive, now: nat, row: Delivery)
    requires RowInv(leaseDuration, now, row)
    ensures Increasing(row.issued)
  {
  }

  lemma SenderReplaced(leaseDuration: Positive, h: Hooks, w: SenderId, s: Sender)
    requires Inv(leaseDuration, h) && SenderInv(leaseDuration, h.rows, s) && DistinctClaims(h.senders[w := s])
    ensures Inv(leaseDuration, h.(senders := h.senders[w := s]))
  {
    hide RowInv, SenderInv, DistinctClaims;
  }

  /** A claim's lease exceeds every lease issued before, so all earlier claims are overtaken. */
  lemma ClaimOvertakes(leaseDuration: Positive, h: Hooks, ref: HistoryRef)
    requires Inv(leaseDuration, h) && ref in h.rows && Due(h.rows[ref], h.now)
    ensures Harmless(h.rows, h.senders, ref, ClaimRow(h.rows[ref], h.now + leaseDuration))
    ensures forall w, k | w in h.senders && 0 <= k < |h.senders[w].todo| && h.senders[w].todo[k].ref == ref ::
              h.senders[w].todo[k].lease != h.now + leaseDuration
  {
    hide RowInv, Due;
    var row := h.rows[ref];
    var lease := h.now + leaseDuration;
    ClaimRowKeeps(leaseDuration, h.now, row);
    var row' := ClaimRow(row, lease);
    LeasesIncrease(leaseDuration, h.now, row');
    forall w, k | w in h.senders && 0 <= k < |h.senders[w].todo| && h.senders[w].todo[k].ref == ref
      ensures h.senders[w].todo[k].lease < lease && Superseded(row', h.senders[w].todo[k].lease)
    {
      assert SenderInv(leaseDuration, h.rows, h.senders[w]) && RefKnown(h.rows, h.senders[w].todo[k]);
      OlderLease(row.issued, lease, h.senders[w].todo[k].lease);
    }
  }

  lemma OlderLease(issued: seq<nat>, next: nat, lease: nat)
    requires Increasing(issued + [next]) && lease in issued
    ensures lease < next
  {
    var k :| 0 <= k < |issued| && issued[k] == lease;
    assert (issued + [next])[k] < (issued + [next])[|issued|];
  }

  lemma DistinctMore(senders: map<SenderId, Sender>, w: SenderId, snap: Snapshot)
    requires DistinctClaims(senders)
    requires forall v, k | v in senders && 0 <= k < |senders[v].todo| && senders[v].todo[k].ref == snap.ref ::
               senders[v].todo[k].lease != snap.lease
    ensures var sender := if w in senders then senders[w] else Sender([], Dispatching);
            DistinctClaims(senders[w := sender.(todo := sender.todo + [snap])])
  {
    var sender := if w in senders then senders[w] else Sender([], Dispatching);
    var after := senders[w := sender.(todo := sender.todo + [snap])];
    forall v, i, u, j | v in after && 0 <= i < |after[v].todo| && u in after && 0 <= j < |after[u].todo|
      && SameClaim(after[v].todo[i], after[u].todo[j])
      ensures v == u && i == j
    {
      var old1 := v in senders && i < |senders[v].todo|;
      var old2 := u in senders && j < |senders[u].todo|;
      if old1 && old2 {
        assert SameClaim(senders[v].todo[i], senders[u].todo[j]);
      }
    }
  }

  lemma ClaimKeeps(leaseDuration: Positive, h: Hooks, w: SenderId, ref: HistoryRef)
    requires Inv(leaseDuration, h) && ref in h.rows && Due(h.rows[ref], h.now)
    ensures Inv(leaseDuration, ClaimMove(leaseDuration, h, w, ref))
    ensures Forward(h.rows, ClaimMove(leaseDuration, h, w, ref).rows)
  {
    hide RowInv, RowSteps, DistinctClaims, Harmless;
    var lease := h.now + leaseDuration;
    var row := h.rows[ref];
    var row' := ClaimRow(row, lease);
    ClaimRowKeeps(leaseDuration, h.now, row);
    ClaimOvertakes(leaseDuration, h, ref);
    ReplaceKeeps(leaseDuration, h, ref, row');
    var h1 := h.(rows := h.rows[ref := row']);
    var sender := if w in h.senders then h.senders[w] else Sender([], Dispatching);
    var snap := Snapshot(ref, lease, row.attemptCount, row.maxAttempts);
    assert lease == row'.issued[|row.issued|];
    assert w in h1.senders ==> SenderInv(leaseDuration, h1.rows, sender);
    assert RefKnown(h1.rows, snap);
    DistinctMore(h.senders, w, snap);
    SenderReplaced(leaseDuration, h1, w, sender.(todo := sender.todo + [snap]));
  }

  lemma DispatchedKeeps(leaseDuration: Positive, now: nat, row: Delivery, response: Response)
    requires RowInv(leaseDuration, now, row)
    ensures RowInv(leaseDuration, now, Dispatched(row, response)) && RowSteps(row, Dispatched(row, response))
  {
  }

  lemma LeaseInFuture(leaseDuration: Positive, now: nat, row: Delivery, snap: Snapshot)
    requires RowInv(leaseDuration, now, row) && SnapInv(row, snap)
    ensures snap.lease <= now + leaseDuration
  {
    var k :| 0 <= k < |row.issued| && row.issued[k] == snap.lease;
    assert row.issued[k] <= Last(row.issued);
  }

  lemma DistinctSamePhase(senders: map<SenderId, Sender>, w: SenderId, phase: Phase)
    requires DistinctClaims(senders) && w in senders
    ensures DistinctClaims(senders[w := senders[w].(phase := phase)])
  {
    var after := senders[w := senders[w].(phase := phase)];
    forall v, i, u, j | v in after && 0 <= i < |after[v].todo| && u in after && 0 <= j < |after[u].todo|
      && SameClaim(after[v].todo[i], after[u].todo[j])
      ensures v == u && i == j
    {
      assert SameClaim(senders[v].todo[i], senders[u].todo[j]);
    }
  }

  lemma SendKeeps(leaseDuration: Positive, h: Hooks, w: SenderId, response: Response, backoff: Positive)
    requires Inv(leaseDuration, h) && CanSend(h, w) && h.senders[w].phase == Dispatching
    ensures Inv(leaseDuration, SendMove(h, w, response, backoff))
    ensures Forward(h.rows, SendMove(h, w, response, backoff).rows)
  {
    hide RowInv, RowSteps, DistinctClaims;
    var sender := h.senders[w];
    var snap := sender.todo[0];
    var row := h.rows[snap.ref];
    var row' := Dispatched(row, response);
    assert SenderInv(leaseDuration, h.rows, sender) && RefKnown(h.rows, snap);
    DispatchedKeeps(leaseDuration, h.now, row, response);
    ReplaceKeeps(leaseDuration, h, snap.ref, row');
    LeaseInFuture(leaseDuration, h.now, row, snap);
    var h1 := h.(rows := h.rows[snap.ref := row']);
    assert SenderInv(leaseDuration, h1.rows, sender) && RefKnown(h1.rows, snap);
    DistinctSamePhase(h.senders, w, Marking(Judge(snap, response, h.now, backoff)));
    SenderReplaced(leaseDuration, h1, w, sender.(phase := Marking(Judge(snap, response, h.now, backoff))));
  }

  lemma ProceedDistinct(h: Hooks, w: SenderId, reply: Reply)
    requires DistinctClaims(h.senders) && w in h.senders && h.senders[w].todo != []
    ensures var senders, snap := Proceed(h, w, reply).senders, h.senders[w].todo[0];
            && DistinctClaims(senders)
            && forall v, k | v in senders && 0 <= k < |senders[v].todo| :: !SameClaim(senders[v].todo[k], snap)
  {
    var senders := Proceed(h, w, reply).senders;
    var snap := h.senders[w].todo[0];
    forall v, k | v in senders && 0 <= k < |senders[v].todo| ensures !SameClaim(senders[v].todo[k], snap) {
      if v == w {
        assert senders[v].todo[k] == h.senders[w].todo[k + 1];
      }
    }
    forall v, i, u, j | v in senders && 0 <= i < |senders[v].todo| && u in senders && 0 <= j < |senders[u].todo|
      && SameClaim(senders[v].todo[i], senders[u].todo[j])
      ensures v == u && i == j
    {
      var i', j' := if v == w then i + 1 else i, if u == w then j + 1 else j;
      assert SameClaim(h.senders[v].todo[i'], h.senders[u].todo[j']);
    }
  }

  lemma ProceedKeeps(leaseDuration: Positive, h: Hooks, w: SenderId, reply: Reply)
    requires Inv(leaseDuration, h) && w in h.senders && h.senders[w].todo != []
    ensures Inv(leaseDuration, Proceed(h, w, reply))
  {
    hide RowInv, RefKnown, DistinctClaims;
    var rest := h.senders[w].todo[1..];
    assert SenderInv(leaseDuration, h.rows, h.senders[w]);
    ProceedDistinct(h, w, reply);
    if !(reply.Broken? || rest == []) {
      SenderReplaced(leaseDuration, h, w, Sender(rest, Dispatching));
    }
  }

  lemma LandingIsHarmless(leaseDuration: Positive, h: Hooks, w: SenderId, reply: Reply, row: Delivery)
    requires Inv(leaseDuration, h) && ReadyToMark(h, w) && HoldsLease(h, w)
    ensures Harmless(h.rows, Proceed(h, w, reply).senders, h.senders[w].todo[0].ref, row)
  {
    hide RowInv, SenderInv, DistinctClaims, Proceed;
    ProceedDistinct(h, w, reply);
  }

  lemma MarkKeeps(leaseDuration: Positive, h: Hooks, w: SenderId, reply: Reply)
    requires Inv(leaseDuration, h) && ReadyToMark(h, w)
    ensures Inv(leaseDuration, MarkMove(h, w, reply)) && Forward(h.rows, MarkMove(h, w, reply).rows)
  {
    hide RowInv, RowSteps, DistinctClaims, Harmless;
    var sender := h.senders[w];
    var snap := sender.todo[0];
    var v := sender.phase.verdict;
    assert SenderInv(leaseDuration, h.rows, sender) && RefKnown(h.rows, snap);
    if Lands(h, w, reply) {
      var row' := WriteResult(h.rows[snap.ref], snap, v, h.now);
      WriteResultKeeps(leaseDuration, h.now, h.rows[snap.ref], snap, v);
      ProceedKeeps(leaseDuration, h, w, reply);
      LandingIsHarmless(leaseDuration, h, w, reply, row');
      ReplaceKeeps(leaseDuration, Proceed(h, w, reply), snap.ref, row');
    } else {
      ForwardReflexive(h.rows);
      ProceedKeeps(leaseDuration, h, w, if HoldsLease(h, w) && !CodeAccepted(v) then Broken(false) else reply);
    }
  }

  lemma StopKeeps(leaseDuration: Positive, h: Hooks, w: SenderId)
    requires Inv(leaseDuration, h)
    ensures Inv(leaseDuration, h.(senders := h.senders - {w}))
  {
    hide RowInv, SenderInv;
  }

  lemma TickKeeps(leaseDuration: Positive, h: Hooks, elapsed: nat)
    requires Inv(leaseDuration, h)
    ensures Inv(leaseDuration, h.(now := h.now + elapsed))
  {
    hide SendersInv, DistinctClaims;
  }

  lemma StepKeeps(leaseDuration: Positive, h: Hooks, m: Move)
    requires Inv(leaseDuration, h)
    ensures Inv(leaseDuration, Step(leaseDuration, h, m)) && Forward(h.rows, Step(leaseDuration, h, m).rows)
  {
    hide Inv, RowEvolves;
    ForwardReflexive(h.rows);
    match m {
      case Claim(w, ref) => if ref in h.rows && Due(h.rows[ref], h.now) { ClaimKeeps(leaseDuration, h, w, ref); }
      case Send(w, response, backoff) =>
        if CanSend(h, w) && h.senders[w].phase == Dispatching { SendKeeps(leaseDuration, h, w, response, backoff); }
      case Mark(w, reply) => if ReadyToMark(h, w) { MarkKeeps(leaseDuration, h, w, reply); }
      case Stop(w) => StopKeeps(leaseDuration, h, w);
      case Tick(elapsed) => TickKeeps(leaseDuration, h, elapsed);
    }
  }
}
