/** Reconciliation of submitted transfers against the chain, on top of the transfer pipeline. */
module Reconciliation {
  import opened Transfers
  import Workers
  import Pipeline
  import Guarantees

  datatype Receipt = ReceiptPending | ReceiptConfirmed | ReceiptFailed | ReceiptNotFound

  datatype Candidate = Candidate(transfer: TransferId, txHash: string, internalStatus: Status)

  /** A `reconciliation_results` row; the table is kept in insertion order, which is the order of `checked_at`. */
  datatype ResultRow = ResultRow(
    transfer: TransferId, txHash: string, internalStatus: Status, receipt: Receipt, isMismatch: bool)

  datatype Counts = Counts(checked: nat, matched: nat, mismatched: nat)

  // ----- candidates

  predicate IsCandidate(rec: TransferRecord) {
    && rec.txHash != ""
    && (rec.status == Submitted || rec.status == PendingOnChain || rec.status == Confirmed || rec.status == Failed)
  }

  function CandidateOf(t: TransferId, rec: TransferRecord): Candidate { Candidate(t, rec.txHash, rec.status) }

  /** In every reachable state the candidates are exactly the transfers that have ever been SUBMITTED. */
  lemma CandidatesWereSubmitted(cfg: Pipeline.Config, moves: seq<Pipeline.Move>, t: TransferId)
    requires t in Guarantees.After(cfg, moves).records
    ensures var rec := Guarantees.After(cfg, moves).records[t]; IsCandidate(rec) <==> Passed(rec.history, Submitted)
  {
    Guarantees.AfterInv(cfg, moves);
    var rec := Guarantees.After(cfg, moves).records[t];
    assert RecordInv(rec);
    HistoryShape(rec.history, rec.status);
  }

  /** Once a candidate, a transfer stays one. */
  lemma CandidatesForever(cfg: Pipeline.Config, moves: seq<Pipeline.Move>, later: seq<Pipeline.Move>, t: TransferId)
    requires t in Guarantees.After(cfg, moves).records && IsCandidate(Guarantees.After(cfg, moves).records[t])
    ensures t in Guarantees.After(cfg, moves + later).records
    ensures var rec := Guarantees.After(cfg, moves).records[t];
            var rec' := Guarantees.After(cfg, moves + later).records[t];
            IsCandidate(rec') && rec'.txHash == rec.txHash
  {
    Guarantees.AfterInv(cfg, moves);
    Pipeline.RunAppend(cfg, Pipeline.Initial(), moves, later);
    Pipeline.RunKeeps(cfg, Guarantees.After(cfg, moves), later);
    var rec := Guarantees.After(cfg, moves).records[t];
    var rec' := Guarantees.After(cfg, moves + later).records[t];
    CandidatesWereSubmitted(cfg, moves, t);
    PassedStays(rec, rec');
    CandidatesWereSubmitted(cfg, moves + later, t);
  }

  lemma PassedStays(a: TransferRecord, b: TransferRecord)
    requires Evolves(a, b) && Passed(a.history, Submitted)
    ensures Passed(b.history, Submitted)
  {
    var i :| 0 <= i < |a.history| && a.history[i].to == Submitted;
    assert b.history[i] == a.history[i];
  }

  predicate DistinctTransfers(cs: seq<Candidate>) {
    forall i, j | 0 <= i < j < |cs| :: cs[i].transfer != cs[j].transfer
  }

  /** The candidate query: every candidate of the table, once, with the values it has now. */
  method ListCandidates(records: Pipeline.Records) returns (cs: seq<Candidate>)
    ensures DistinctTransfers(cs)
    ensures forall i | 0 <= i < |cs| ::
              && cs[i].transfer in records && IsCandidate(records[cs[i].transfer])
              && cs[i] == CandidateOf(cs[i].transfer, records[cs[i].transfer])
              && cs[i].txHash == records[cs[i].transfer].txHash
              && cs[i].internalStatus == records[cs[i].transfer].status
    ensures forall t | t in records && IsCandidate(records[t]) :: CandidateOf(t, records[t]) in cs
  {
    cs := [];
    var left := records.Keys;
    while left != {}
      invariant left <= records.Keys
      invariant DistinctTransfers(cs)
      invariant forall i | 0 <= i < |cs| ::
                  && cs[i].transfer in records && cs[i].transfer !in left
                  && IsCandidate(records[cs[i].transfer])
                  && cs[i] == CandidateOf(cs[i].transfer, records[cs[i].transfer])
      invariant forall t | t in records && t !in left && IsCandidate(records[t]) :: CandidateOf(t, records[t]) in cs
      decreases |left|
    {
      var t :| t in left;
      if IsCandidate(records[t]) {
        cs := cs + [CandidateOf(t, records[t])];
      }
      left := left - {t};
    }
  }

  // ----- comparing

  /** The nested switch of the source: true is a mismatch. */
  function CompareStatuses(internalStatus: Status, receipt: Receipt): bool {
    match internalStatus
    case Submitted => receipt == ReceiptConfirmed || receipt == ReceiptFailed
    case PendingOnChain => receipt == ReceiptConfirmed || receipt == ReceiptFailed
    case Confirmed => receipt != ReceiptConfirmed
    case Failed => receipt == ReceiptPending || receipt == ReceiptConfirmed
    case _ => false
  }

  /** What can become of a transaction. */
  datatype Fate = Undecided | Succeeded | Reverted

  /** The fate the internal status claims. */
  function ClaimedFate(status: Status): Fate {
    match status
    case Confirmed => Succeeded
    case Failed => Reverted
    case _ => Undecided
  }

  /** The fate the chain reports, if it knows the transaction. */
  function ReportedFate(receipt: Receipt): Option<Fate> {
    match receipt
    case ReceiptPending => Some(Undecided)
    case ReceiptConfirmed => Some(Succeeded)
    case ReceiptFailed => Some(Reverted)
    case ReceiptNotFound => None
  }

  /**
   For every status a candidate can have, reached or not: flagged exactly when the chain reports another fate than the
   status claims, or nothing although the status claims success.
   */
  lemma FlaggedExactly(status: Status, receipt: Receipt)
    requires status == Submitted || status == PendingOnChain || status == Confirmed || status == Failed
    ensures CompareStatuses(status, receipt) <==>
              match ReportedFate(receipt)
              case Some(fate) => fate != ClaimedFate(status)
              case None => ClaimedFate(status) == Succeeded
  {
  }

  /**
   In every reachable state the comparison flags a candidate exactly when the chain reports a fate and it is not
   the one the status claims; a transaction the chain does not know is never flagged, since no run gets to CONFIRMED.
   */
  lemma FlaggedExactlyWhenContradicted(cfg: Pipeline.Config, moves: seq<Pipeline.Move>, t: TransferId, receipt: Receipt)
    requires t in Guarantees.After(cfg, moves).records && IsCandidate(Guarantees.After(cfg, moves).records[t])
    ensures var status := Guarantees.After(cfg, moves).records[t].status;
            CompareStatuses(status, receipt) <==>
              ReportedFate(receipt).Some? && ReportedFate(receipt).value != ClaimedFate(status)
  {
    Guarantees.AfterInv(cfg, moves);
    var rec := Guarantees.After(cfg, moves).records[t];
    assert RecordInv(rec);
    Workers.NeverConfirmed(rec);
  }

  // ----- the results table

  function Row(c: Candidate, receipt: Receipt): ResultRow {
    ResultRow(c.transfer, c.txHash, c.internalStatus, receipt, CompareStatuses(c.internalStatus, receipt))
  }

  function Rows(cs: seq<Candidate>, receipts: seq<Receipt>): (rows: seq<ResultRow>)
    requires |cs| == |receipts|
    ensures |rows| == |cs| && forall i | 0 <= i < |cs| :: rows[i] == Row(cs[i], receipts[i])
  {
    seq(|cs|, i requires 0 <= i < |cs| => Row(cs[i], receipts[i]))
  }

  function MismatchCount(rows: seq<ResultRow>): nat {
    if rows == [] then 0 else MismatchCount(rows[..|rows|-1]) + (if rows[|rows|-1].isMismatch then 1 else 0)
  }

  /** Row `i` is the latest result of its transfer. */
  predicate IsLatest(results: seq<ResultRow>, i: nat) {
    i < |results| && forall j | i < j < |results| :: results[j].transfer != results[i].transfer
  }

  /** The rows the mismatch query returns: the latest of each transfer, if it is a mismatch. */
  predicate IsListed(results: seq<ResultRow>, t: TransferId) {
    exists i | 0 <= i < |results| :: results[i].transfer == t && IsLatest(results, i) && results[i].isMismatch
  }

  lemma MismatchCountMore(rows: seq<ResultRow>, row: ResultRow)
    ensures MismatchCount(rows + [row]) == MismatchCount(rows) + (if row.isMismatch then 1 else 0)
    ensures MismatchCount([]) == 0
  {
    assert (rows + [row])[..|rows|] == rows;
  }

  /** How an insert of a result ends; an error may hide a committed row. */
  datatype InsertAnswer = Stored | NotAcknowledged(effect: bool)

  /** How many candidates are dealt with before the first failure. */
  function Completed(answers: seq<Option<Receipt>>, inserts: seq<InsertAnswer>): (n: nat)
    requires |answers| == |inserts|
    ensures n <= |answers|
    ensures forall k | 0 <= k < n :: answers[k].Some? && inserts[k] == Stored
    ensures n < |answers| ==> answers[n].None? || inserts[n] != Stored
  {
    if answers == [] || answers[0].None? || inserts[0] != Stored then 0
    else
      var rest := Completed(answers[1..], inserts[1..]);
      assert forall k | 1 <= k < rest + 1 :: answers[k] == answers[1..][k - 1] && inserts[k] == inserts[1..][k - 1];
      rest + 1
  }

  /** How many rows are written: one more when the failure is an insert that had committed. */
  function Written(answers: seq<Option<Receipt>>, inserts: seq<InsertAnswer>): (n: nat)
    requires |answers| == |inserts|
    ensures n <= |answers| && forall k | 0 <= k < n :: answers[k].Some?
  {
    var n := Completed(answers, inserts);
    if n < |answers| && answers[n].Some? && inserts[n].effect then n + 1 else n
  }

  /** The receipts that are written. */
  function ReceiptsOf(answers: seq<Option<Receipt>>, inserts: seq<InsertAnswer>): (receipts: seq<Receipt>)
    requires |answers| == |inserts|
    ensures |receipts| == Written(answers, inserts)
    ensures forall k | 0 <= k < |receipts| :: answers[k] == Some(receipts[k])
  {
    seq(Written(answers, inserts), k requires 0 <= k < Written(answers, inserts) => answers[k].value)
  }

  /** The run stops where the first failure is. */
  lemma StopsAt(answers: seq<Option<Receipt>>, inserts: seq<InsertAnswer>, n: nat)
    requires |answers| == |inserts| && n <= |answers|
    requires forall k | 0 <= k < n :: answers[k].Some? && inserts[k] == Stored
    requires n < |answers| ==> answers[n].None? || inserts[n] != Stored
    ensures Completed(answers, inserts) == n
  {
  }

  class Service {
    var results: seq<ResultRow>

    constructor ()
      ensures results == []
    {
      results := [];
    }

    /**
     `Run` over the listed candidates. `answers` holds the chain's receipts, `None` where the check fails, `inserts`
     how each insert ends. The first failing check or insert aborts the run; what was written before it stays, and so
     does the row of an insert that errs after committing. Rows are written for nothing else.
     */
    method Run(cs: seq<Candidate>, answers: seq<Option<Receipt>>, inserts: seq<InsertAnswer>)
      returns (counts: Option<Counts>)
      requires |answers| == |inserts| == |cs|
      modifies this
      ensures counts.Some? <==> Completed(answers, inserts) == |cs|
      ensures results == old(results) + Rows(cs[..Written(answers, inserts)], ReceiptsOf(answers, inserts))
      ensures counts.Some? ==>
                && counts.value.checked == |cs|
                && counts.value.checked == counts.value.matched + counts.value.mismatched
                && counts.value.mismatched == MismatchCount(results[|old(results)|..])
    {
      hide MismatchCount, CompareStatuses, Completed;
      MismatchCountMore([], ResultRow(0, "", Created, ReceiptPending, false));
      var checked, matched, mismatched := 0, 0, 0;
      ghost var rows: seq<ResultRow> := [];
      var i := 0;
      while i < |cs|
        invariant 0 <= i <= |cs| && checked == i && checked == matched + mismatched
        invariant forall k | 0 <= k < i :: answers[k].Some? && inserts[k] == Stored
        invariant results == old(results) + rows && |rows| == i
        invariant forall k | 0 <= k < i :: rows[k] == Row(cs[k], answers[k].value)
        invariant mismatched == MismatchCount(rows)
      {
        if answers[i].None? {
          StopsAt(answers, inserts, i);
          assert rows == Rows(cs[..i], ReceiptsOf(answers, inserts));
          return None;
        }
        var isMismatch := CompareStatuses(cs[i].internalStatus, answers[i].value);
        var row := ResultRow(cs[i].transfer, cs[i].txHash, cs[i].internalStatus, answers[i].value, isMismatch);
        if inserts[i] == Stored || inserts[i].effect {
          MismatchCountMore(rows, row);
          results := results + [row];
          rows := rows + [row];
        }
        if inserts[i] != Stored {
          StopsAt(answers, inserts, i);
          assert rows == Rows(cs[..|rows|], ReceiptsOf(answers, inserts));
          return None;
        }
        checked := checked + 1;
        if isMismatch {
          mismatched := mismatched + 1;
        } else {
          matched := matched + 1;
        }
        i := i + 1;
      }
      StopsAt(answers, inserts, i);
      assert rows == Rows(cs[..i], ReceiptsOf(answers, inserts));
      assert results[|old(results)|..] == rows;
      return Some(Counts(checked, matched, mismatched));
    }
  }

  /** After an error-free run, a candidate is on the mismatch list exactly when its comparison was flagged. */
  lemma ListedExactlyWhenFlagged(before: seq<ResultRow>, cs: seq<Candidate>, receipts: seq<Receipt>, k: nat)
    requires |cs| == |receipts| && k < |cs| && DistinctTransfers(cs)
    ensures IsListed(before + Rows(cs, receipts), cs[k].transfer) <==>
              CompareStatuses(cs[k].internalStatus, receipts[k])
  {
    var results := before + Rows(cs, receipts);
    var at := |before| + k;
    assert results[at] == Row(cs[k], receipts[k]);
    forall j | at < j < |results| ensures results[j].transfer != results[at].transfer {
      assert results[j] == Row(cs[j - |before|], receipts[j - |before|]);
    }
    assert IsLatest(results, at);
    if IsListed(results, cs[k].transfer) {
      var i :| && 0 <= i < |results| && results[i].transfer == cs[k].transfer
               && IsLatest(results, i) && results[i].isMismatch;
      LatestIsUnique(results, i, at);
    }
  }

  /**
   The composed result: after an error-free run over the candidates of a reachable state, a candidate is on the
   mismatch list exactly when the chain contradicted its status.
   */
  lemma ListedExactlyWhenContradicted(
    cfg: Pipeline.Config, moves: seq<Pipeline.Move>,
    before: seq<ResultRow>, cs: seq<Candidate>, receipts: seq<Receipt>, k: nat)
    requires |cs| == |receipts| && k < |cs| && DistinctTransfers(cs)
    requires var records := Guarantees.After(cfg, moves).records; var t := cs[k].transfer;
             t in records && IsCandidate(records[t]) && cs[k] == CandidateOf(t, records[t])
    ensures IsListed(before + Rows(cs, receipts), cs[k].transfer) <==>
              && ReportedFate(receipts[k]).Some?
              && ReportedFate(receipts[k]).value != ClaimedFate(cs[k].internalStatus)
    ensures var row := Rows(cs, receipts)[k]; var rec := Guarantees.After(cfg, moves).records[cs[k].transfer];
            row.txHash == rec.txHash && IsBroadcastedHash(rec.attempts, row.txHash) && row.receipt == receipts[k]
  {
    ListedExactlyWhenFlagged(before, cs, receipts, k);
    FlaggedExactlyWhenContradicted(cfg, moves, cs[k].transfer, receipts[k]);
    Guarantees.AfterInv(cfg, moves);
    assert RecordInv(Guarantees.After(cfg, moves).records[cs[k].transfer]);
  }

  lemma LatestIsUnique(results: seq<ResultRow>, i: nat, j: nat)
    requires IsLatest(results, i) && IsLatest(results, j) && results[i].transfer == results[j].transfer
    ensures i == j
  {
  }

  /** Transfers that were not candidates keep their place on the list or off it. */
  lemma OthersUnaffected(before: seq<ResultRow>, cs: seq<Candidate>, receipts: seq<Receipt>, t: TransferId)
    requires |cs| == |receipts| && forall k | 0 <= k < |cs| :: cs[k].transfer != t
    ensures IsListed(before + Rows(cs, receipts), t) <==> IsListed(before, t)
  {
    var results := before + Rows(cs, receipts);
    assert forall j | |before| <= j < |results| :: results[j] == Row(cs[j - |before|], receipts[j - |before|]);
    if IsListed(before, t) {
      var i :| 0 <= i < |before| && before[i].transfer == t && IsLatest(before, i) && before[i].isMismatch;
      assert IsLatest(results, i);
    }
    if IsListed(results, t) {
      var i :| 0 <= i < |results| && results[i].transfer == t && IsLatest(results, i) && results[i].isMismatch;
      assert i < |before|;
      assert IsLatest(before, i) by {
        forall j | i < j < |before| ensures before[j].transfer != before[i].transfer {
          assert results[j] == before[j];
        }
      }
    }
  }
}
