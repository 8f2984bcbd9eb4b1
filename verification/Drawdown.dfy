/** Risk figures of a finished backtest: drawdown and losing streak (system_one_backtest.py:166-185,
    breakout15/engine.py:246-253). */
module Drawdown {

  /** The sum of the first `n` results: the equity curve, from zero. */
  function Equity(pnls: seq<real>, n: nat): real
    requires n <= |pnls|
  {
    if n == 0 then 0.0 else Equity(pnls, n - 1) + pnls[n - 1]
  }

  /** A fall of the curve from one point to a later one. */
  function Fall(pnls: seq<real>, i: nat, j: nat): real
    requires i <= j <= |pnls|
  {
    Equity(pnls, i) - Equity(pnls, j)
  }

  /** The highest point so far. */
  ghost predicate IsPeak(pnls: seq<real>, n: nat, peak: real)
    requires n <= |pnls|
  {
    && (exists i: nat :: i <= n && Equity(pnls, i) == peak)
    && (forall i: nat :: i <= n ==> Equity(pnls, i) <= peak)
  }

  /** The largest fall so far; the curve's start counts as a peak. */
  ghost predicate IsDrawdown(pnls: seq<real>, n: nat, worst: real)
    requires n <= |pnls|
  {
    && (exists i: nat, j: nat :: i <= j <= n && Fall(pnls, i, j) == worst)
    && (forall i: nat, j: nat :: i <= j <= n ==> Fall(pnls, i, j) <= worst)
  }

  lemma PeakStep(pnls: seq<real>, n: nat, peak: real, next: real)
    requires n < |pnls| && IsPeak(pnls, n, peak)
    requires next == if Equity(pnls, n + 1) > peak then Equity(pnls, n + 1) else peak
    ensures IsPeak(pnls, n + 1, next)
  {
    var i: nat :| i <= n && Equity(pnls, i) == peak;
    if Equity(pnls, n + 1) > peak {
      assert Equity(pnls, n + 1) == next;
    } else {
      assert Equity(pnls, i) == next;
    }
  }

  lemma DrawdownStep(pnls: seq<real>, n: nat, peak: real, worst: real, next: real)
    requires n < |pnls| && IsPeak(pnls, n + 1, peak) && IsDrawdown(pnls, n, worst)
    requires next == if peak - Equity(pnls, n + 1) > worst then peak - Equity(pnls, n + 1) else worst
    ensures IsDrawdown(pnls, n + 1, next)
  {
    var k: nat :| k <= n + 1 && Equity(pnls, k) == peak;
    var i: nat, j: nat :| i <= j <= n && Fall(pnls, i, j) == worst;
    if next == worst {
      assert Fall(pnls, i, j) == next;
    } else {
      assert Fall(pnls, k, n + 1) == next;
    }
    forall a: nat, b: nat | a <= b <= n + 1
      ensures Fall(pnls, a, b) <= next
    {
      if b == n + 1 {
        assert Equity(pnls, a) <= peak;
      } else {
        assert Fall(pnls, a, b) <= worst;
      }
    }
  }

  /** One pass with the running peak finds the largest peak-to-trough fall, never below zero. */
  method MaxDrawdown(pnls: seq<real>) returns (worst: real)
    ensures IsDrawdown(pnls, |pnls|, worst) && worst >= 0.0
  {
    var equity, peak, n := 0.0, 0.0, 0;
    worst := 0.0;
    assert Equity(pnls, 0) == 0.0 && Fall(pnls, 0, 0) == 0.0;
    while n < |pnls|
      invariant n <= |pnls| && equity == Equity(pnls, n) && worst >= 0.0
      invariant IsPeak(pnls, n, peak) && IsDrawdown(pnls, n, worst)
    {
      equity := equity + pnls[n];
      var next := if equity > peak then equity else peak;
      PeakStep(pnls, n, peak, next);
      peak := next;
      var deeper := if peak - equity > worst then peak - equity else worst;
      DrawdownStep(pnls, n, peak, worst, deeper);
      worst := deeper;
      n := n + 1;
    }
  }

  /** Nothing but losses from `i` up to `j`. */
  predicate Losing(pnls: seq<real>, i: nat, j: nat)
    requires i <= j <= |pnls|
  {
    forall k :: i <= k < j ==> pnls[k] < 0.0
  }

  /** The longest stretch of consecutive losses. */
  method LongestLosingStreak(pnls: seq<real>) returns (best: nat)
    ensures exists i: nat, j: nat :: i <= j <= |pnls| && j - i == best && Losing(pnls, i, j)
    ensures forall i: nat, j: nat :: i <= j <= |pnls| && Losing(pnls, i, j) ==> j - i <= best
  {
    best := 0;
    var run, n := 0, 0;
    assert Losing(pnls, 0, 0);
    while n < |pnls|
      invariant run <= n <= |pnls| && run <= best
      invariant Losing(pnls, n - run, n) && (run < n ==> pnls[n - run - 1] >= 0.0)
      invariant exists i: nat, j: nat :: i <= j <= n && j - i == best && Losing(pnls, i, j)
      invariant forall i: nat, j: nat :: i <= j <= n && Losing(pnls, i, j) ==> j - i <= best
    {
      run := if pnls[n] < 0.0 then run + 1 else 0;
      StreakEnds(pnls, n, run);
      if run > best {
        best := run;
        assert Losing(pnls, n + 1 - run, n + 1);
      }
      n := n + 1;
    }
  }

  /** A stretch of losses that ends here is no longer than the run that ends here. */
  lemma StreakEnds(pnls: seq<real>, n: nat, run: nat)
    requires n < |pnls| && run <= n + 1
    requires run <= n ==> pnls[n - run] >= 0.0
    ensures forall i: nat, j: nat :: i <= j && j == n + 1 && Losing(pnls, i, j) ==> j - i <= run
  {
  }
}
