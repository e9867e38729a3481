/** Claim queries: the first rows, up to a limit, that meet a condition, in the order the query visits them. */
module Batches {
  import opened Transfers

  predicate Distinct<T(==)>(candidates: seq<T>) {
    forall i, j | 0 <= i < j < |candidates| :: candidates[i] != candidates[j]
  }

  /** A batch size that is not positive stands for 25 rows. */
  function BatchLimit(asked: int): nat { if asked > 0 then asked else 25 }

  /** `SELECT ... LIMIT limit`: `query` gives what is read of a candidate that meets the condition. */
  function Selected<T, R>(query: T -> Option<R>, candidates: seq<T>, limit: nat): (rows: seq<R>)
    ensures |rows| <= limit
    decreases |candidates|
  {
    if candidates == [] || limit == 0 then []
    else match query(candidates[0])
      case Some(row) => [row] + Selected(query, candidates[1..], limit - 1)
      case None => Selected(query, candidates[1..], limit)
  }

  /** A loop over the candidates has taken `taken` from the first `i` of them. */
  ghost predicate TakenSoFar<T, R>(query: T -> Option<R>, candidates: seq<T>, limit: nat, i: nat, taken: seq<R>) {
    && i <= |candidates| && |taken| <= limit
    && taken + Selected(query, candidates[i..], limit - |taken|) == Selected(query, candidates, limit)
  }

  lemma TakenFirst<T, R>(query: T -> Option<R>, candidates: seq<T>, limit: nat)
    ensures TakenSoFar(query, candidates, limit, 0, [])
  {
    assert candidates[0..] == candidates;
  }

  lemma TakenNext<T, R>(query: T -> Option<R>, candidates: seq<T>, limit: nat, i: nat, taken: seq<R>)
    requires TakenSoFar(query, candidates, limit, i, taken) && i < |candidates| && |taken| < limit
    ensures match query(candidates[i])
            case Some(row) => TakenSoFar(query, candidates, limit, i + 1, taken + [row])
            case None => TakenSoFar(query, candidates, limit, i + 1, taken)
  {
    assert candidates[i..][1..] == candidates[i+1..];
  }

  lemma TakenAll<T, R>(query: T -> Option<R>, candidates: seq<T>, limit: nat, i: nat, taken: seq<R>)
    requires TakenSoFar(query, candidates, limit, i, taken) && (i == |candidates| || |taken| == limit)
    ensures taken == Selected(query, candidates, limit)
  {
  }

  ghost predicate Reads<T, R>(query: T -> Option<R>, candidates: seq<T>, row: R) {
    exists i | 0 <= i < |candidates| :: query(candidates[i]) == Some(row)
  }

  /** Only rows read of candidates are selected, and all of them unless the limit is reached. */
  lemma {:induction false} SelectedExactly<T, R>(query: T -> Option<R>, candidates: seq<T>, limit: nat, row: R)
    ensures var rows := Selected(query, candidates, limit);
            && (row in rows ==> Reads(query, candidates, row))
            && (|rows| < limit && Reads(query, candidates, row) ==> row in rows)
    decreases |candidates|
  {
    if candidates != [] && limit > 0 {
      var head, rest := query(candidates[0]), candidates[1..];
      SelectedExactly(query, rest, if head.Some? then limit - 1 else limit, row);
      ReadsHead(query, candidates, row);
    }
  }

  lemma ReadsHead<T, R>(query: T -> Option<R>, candidates: seq<T>, row: R)
    requires candidates != []
    ensures Reads(query, candidates, row) <==> query(candidates[0]) == Some(row) || Reads(query, candidates[1..], row)
  {
    var rest := candidates[1..];
    if Reads(query, rest, row) {
      var i :| 0 <= i < |rest| && query(rest[i]) == Some(row);
      assert query(candidates[i + 1]) == Some(row);
    }
    if i :| 0 < i < |candidates| && query(candidates[i]) == Some(row) {
      assert query(rest[i - 1]) == Some(row);
    }
  }

  /** One move per row. */
  function Moves<R, M>(move: R -> M, rows: seq<R>): seq<M> {
    seq(|rows|, k requires 0 <= k < |rows| => move(rows[k]))
  }

  lemma MovesMore<R, M>(move: R -> M, rows: seq<R>, row: R)
    ensures Moves(move, rows + [row]) == Moves(move, rows) + [move(row)] && Moves(move, []) == []
  {
  }
}
