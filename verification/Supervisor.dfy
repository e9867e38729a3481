/** The restart loop that supervises a worker subsystem: failure budget and backoff. Durations are nanoseconds. */
module Supervisor {
  import opened Backoff

  datatype ExitKind = ReturnedNil | ReturnedCanceled | ReturnedError

  /**
   One run of the subsystem: how long it ran, how it returned, whether the context was already done when it
   returned, and whether the context ends during the wait before the next start.
   */
  datatype Exit = Exit(runtime: nat, kind: ExitKind, contextDone: bool, stoppedInWait: bool)

  datatype Outcome = Stopped | Fatal | Waiting

  datatype Config = Config(initialBackoff: nat, maxBackoff: nat, healthyRun: nat, budget: nat)

  const DEFAULTS: Config := Config(2_000_000_000, 30_000_000_000, 60_000_000_000, 5)

  predicate Unexpected(e: Exit) {
    e.kind == ReturnedError || (e.kind == ReturnedNil && !e.contextDone)
  }

  /** The position of the last run, among the first `n`, that reached the healthy threshold; 0 when there is none. */
  function LastHealthy(runs: seq<Exit>, n: nat, healthyRun: nat): (h: nat)
    requires n <= |runs|
    ensures h <= n && (n > 0 ==> h < n)
    ensures forall i | h < i < n :: runs[i].runtime < healthyRun
    ensures 0 < h ==> runs[h].runtime >= healthyRun
  {
    if n == 0 then 0
    else if runs[n-1].runtime >= healthyRun then n - 1
    else LastHealthy(runs, n - 1, healthyRun)
  }

  /** The exits since the last healthy run, counting that one. */
  function FailuresAfter(runs: seq<Exit>, n: nat, healthyRun: nat): (failures: nat)
    requires n <= |runs|
    ensures n > 0 ==> failures > 0
  {
    n - LastHealthy(runs, n, healthyRun)
  }

  function WaitAfter(cfg: Config, failures: nat): int
    requires failures >= 1
  {
    Min(cfg.initialBackoff * Pow2(failures - 1), cfg.maxBackoff)
  }

  /** The first `n` exits are all unexpected and none of the waits between them was interrupted. */
  predicate KeepsFailing(runs: seq<Exit>, n: nat)
    requires n <= |runs|
  {
    && (forall k | 0 <= k < n ::
          runs[k].kind == ReturnedError || (runs[k].kind == ReturnedNil && !runs[k].contextDone))
    && (forall k | 0 <= k < n - 1 :: !runs[k].stoppedInWait)
  }

  /** The count reaches the budget at exit `n` and not before. */
  predicate ExhaustsBudget(cfg: Config, runs: seq<Exit>, n: nat)
    requires n <= |runs|
  {
    && KeepsFailing(runs, n)
    && FailuresAfter(runs, n, cfg.healthyRun) >= cfg.budget
    && forall k | 0 < k < n :: FailuresAfter(runs, k, cfg.healthyRun) < cfg.budget
  }

  /** With the default settings the maximum is never reached: the budget ends the waits at 2, 4, 8 and 16 seconds. */
  lemma DefaultWaits(failures: nat)
    requires 1 <= failures < DEFAULTS.budget
    ensures WaitAfter(DEFAULTS, failures) == DEFAULTS.initialBackoff * Pow2(failures - 1) < DEFAULTS.maxBackoff
    ensures WaitAfter(DEFAULTS, failures) == [2_000_000_000, 4_000_000_000, 8_000_000_000, 16_000_000_000][failures - 1]
    ensures DEFAULTS.budget == 5 && DEFAULTS.healthyRun == 60_000_000_000
  {
    assert Pow2(0) == 1 && Pow2(1) == 2 && Pow2(2) == 4 && Pow2(3) == 8;
  }

  /** One more failure doubles the wait, up to the maximum. */
  lemma NextWait(cfg: Config, failures: nat)
    requires 0 < cfg.initialBackoff <= cfg.maxBackoff && failures >= 1
    ensures WaitAfter(cfg, failures + 1) == Min(2 * WaitAfter(cfg, failures), cfg.maxBackoff)
  {
    DoubleFirst(cfg.initialBackoff, failures);
    assert cfg.initialBackoff * Pow2(failures) == 2 * (cfg.initialBackoff * Pow2(failures - 1));
  }

  lemma FirstWait(cfg: Config)
    requires 0 < cfg.initialBackoff <= cfg.maxBackoff
    ensures WaitAfter(cfg, 1) == cfg.initialBackoff
  {
  }

  lemma NoFailuresYet(runs: seq<Exit>, healthyRun: nat)
    ensures FailuresAfter(runs, 0, healthyRun) == 0
  {
  }

  lemma NextCount(runs: seq<Exit>, n: nat, healthyRun: nat)
    requires n < |runs|
    ensures FailuresAfter(runs, n + 1, healthyRun) ==
            if runs[n].runtime >= healthyRun then 1 else FailuresAfter(runs, n, healthyRun) + 1
  {
  }

  /**
   The supervisor over a finite sequence of runs. The k-th wait depends only on the number of exits since the
   last healthy run, and the loop goes fatal exactly when that number first reaches the budget.
   */
  method Supervise(cfg: Config, runs: seq<Exit>) returns (outcome: Outcome, waits: seq<int>)
    requires 0 < cfg.initialBackoff <= cfg.maxBackoff && cfg.budget > 0
    ensures |waits| <= |runs|
    ensures forall k | 0 <= k < |waits| ::
              waits[k] == WaitAfter(cfg, FailuresAfter(runs, k + 1, cfg.healthyRun))
    ensures outcome == Fatal <==> exists n | 0 < n <= |runs| :: ExhaustsBudget(cfg, runs, n)
    ensures outcome == Fatal ==> |waits| < |runs| && ExhaustsBudget(cfg, runs, |waits| + 1)
    ensures outcome == Waiting ==> |waits| == |runs| && KeepsFailing(runs, |runs|)
    ensures outcome == Stopped ==>
              exists k | 0 <= k < |runs| ::
                && KeepsFailing(runs, k) && (forall j | 0 <= j < k :: !runs[j].stoppedInWait)
                && (runs[k].stoppedInWait || runs[k].kind == ReturnedCanceled
                    || (runs[k].kind == ReturnedNil && runs[k].contextDone))
  {
    hide WaitAfter, FailuresAfter;
    FirstWait(cfg);
    NoFailuresYet(runs, cfg.healthyRun);
    var backoff: int := cfg.initialBackoff;
    var consecutiveFailures := 0;
    waits := [];
    var i := 0;
    while i < |runs|
      invariant 0 <= i <= |runs| && |waits| == i
      invariant KeepsFailing(runs, i) && forall k | 0 <= k < i :: !runs[k].stoppedInWait
      invariant consecutiveFailures == FailuresAfter(runs, i, cfg.healthyRun)
      invariant consecutiveFailures == 0 <==> i == 0
      invariant backoff == WaitAfter(cfg, consecutiveFailures + 1)
      invariant forall k | 0 < k <= i :: FailuresAfter(runs, k, cfg.healthyRun) < cfg.budget
      invariant forall k | 0 <= k < i :: waits[k] == WaitAfter(cfg, FailuresAfter(runs, k + 1, cfg.healthyRun))
    {
      var e := runs[i];
      NextCount(runs, i, cfg.healthyRun);
      if e.runtime >= cfg.healthyRun {
        consecutiveFailures := 0;
        backoff := cfg.initialBackoff;
      }
      if !Unexpected(e) {
        outcome := Stopped;
        return;
      }
      consecutiveFailures := consecutiveFailures + 1;
      if consecutiveFailures >= cfg.budget {
        assert ExhaustsBudget(cfg, runs, i + 1);
        outcome := Fatal;
        return;
      }
      waits := waits + [backoff];
      if e.stoppedInWait {
        outcome := Stopped;
        return;
      }
      NextWait(cfg, consecutiveFailures);
      backoff := backoff * 2;
      if backoff > cfg.maxBackoff {
        backoff := cfg.maxBackoff;
      }
      i := i + 1;
    }
    outcome := Waiting;
  }
}
