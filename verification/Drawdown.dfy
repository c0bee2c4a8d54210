/** The one-pass drawdown of apps/backtester/backtest_ml.py. */
module Drawdown {
  import opened Prelude

  /** The equity after the first `k` results. */
  function Equity(pnls: seq<real>, k: nat): (r: real)
    requires k <= |pnls|
  {
    if k == 0 then 0.0 else Equity(pnls, k - 1) + pnls[k - 1]
  }

  /** `peak` is the highest equity up to `n`, the start included. */
  ghost predicate Peak(pnls: seq<real>, n: nat, peak: real)
    requires n <= |pnls|
  {
    && (forall i :: 0 <= i <= n ==> Equity(pnls, i) <= peak)
    && (exists i :: 0 <= i <= n && Equity(pnls, i) == peak)
  }

  /** `d` is the deepest fall from an earlier equity to a later one. */
  ghost predicate DeepestFall(pnls: seq<real>, n: nat, d: real)
    requires n <= |pnls|
  {
    && (forall i, j :: 0 <= i <= j <= n ==> Equity(pnls, i) - Equity(pnls, j) <= d)
    && (exists i, j :: 0 <= i <= j <= n && Equity(pnls, i) - Equity(pnls, j) == d)
  }

  lemma NextPeak(pnls: seq<real>, n: nat, peak: real)
    requires n < |pnls| && Peak(pnls, n, peak)
    ensures Peak(pnls, n + 1, Max(peak, Equity(pnls, n + 1)))
  {
    hide Equity;
    var top :| 0 <= top <= n && Equity(pnls, top) == peak;
    assert Equity(pnls, if Equity(pnls, n + 1) > peak then n + 1 else top) == Max(peak, Equity(pnls, n + 1));
  }

  lemma NextFall(pnls: seq<real>, n: nat, peak: real, d: real)
    requires n < |pnls| && Peak(pnls, n + 1, peak) && DeepestFall(pnls, n, d)
    ensures DeepestFall(pnls, n + 1, Max(d, peak - Equity(pnls, n + 1)))
  {
    hide Equity;
    var e := Max(d, peak - Equity(pnls, n + 1));
    forall i, j | 0 <= i <= j <= n + 1 ensures Equity(pnls, i) - Equity(pnls, j) <= e {
      assert j <= n ==> Equity(pnls, i) - Equity(pnls, j) <= d;
    }
    var top :| 0 <= top <= n + 1 && Equity(pnls, top) == peak;
    var a, b :| 0 <= a <= b <= n && Equity(pnls, a) - Equity(pnls, b) == d;
    if e == d {
      assert Equity(pnls, a) - Equity(pnls, b) == e;
    } else {
      assert Equity(pnls, top) - Equity(pnls, n + 1) == e;
    }
  }

  /** `_max_drawdown`. */
  method MaxDrawdown(pnls: seq<real>) returns (maxDd: real)
    ensures DeepestFall(pnls, |pnls|, maxDd)
  {
    hide DeepestFall, Peak;
    var peak, cumulative := 0.0, 0.0;
    maxDd := 0.0;
    Start(pnls);
    for k := 0 to |pnls|
      invariant cumulative == Equity(pnls, k)
      invariant Peak(pnls, k, peak)
      invariant DeepestFall(pnls, k, maxDd)
    {
      NextPeak(pnls, k, peak);
      cumulative := cumulative + pnls[k];
      peak := Max(peak, cumulative);
      NextFall(pnls, k, peak, maxDd);
      maxDd := Max(maxDd, peak - cumulative);
    }
  }

  lemma Start(pnls: seq<real>)
    ensures Peak(pnls, 0, 0.0) && DeepestFall(pnls, 0, 0.0)
  {
    assert Equity(pnls, 0) == 0.0;
  }
}
