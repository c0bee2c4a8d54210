/**
 The indicator primitives of apps/backtester/feature_builder.py over reals: rolling
 windows, recursive filters, and how warm-up gaps compose. The square root is a parameter.
 */
module Indicators {
  import opened Prelude

  type Series = seq<Option<real>>

  /** A series with no value anywhere. */
  function Gap(n: nat): (r: Series)
    ensures |r| == n && forall i :: 0 <= i < n ==> r[i] == None
  {
    seq(n, _ => None)
  }

  // ---------------------------------------------------------------- windows

  function Sum(xs: seq<real>, lo: nat, hi: nat): (r: real)
    requires lo <= hi <= |xs|
  {
    if lo == hi then 0.0 else Sum(xs, lo, hi - 1) + xs[hi - 1]
  }

  lemma {:induction false} SumFromFirst(xs: seq<real>, lo: nat, hi: nat)
    requires lo < hi <= |xs|
    ensures Sum(xs, lo, hi) == xs[lo] + Sum(xs, lo + 1, hi)
  {
    if lo + 1 < hi { SumFromFirst(xs, lo, hi - 1); }
  }

  lemma {:induction false} SumPrefix(xs: seq<real>, k: nat, lo: nat, hi: nat)
    requires lo <= hi <= k <= |xs|
    ensures Sum(xs[..k], lo, hi) == Sum(xs, lo, hi)
  {
    if lo < hi { SumPrefix(xs, k, lo, hi - 1); }
  }

  /** The mean of the `length` samples that end at `i`. */
  function MeanAt(xs: seq<real>, length: nat, i: nat): (r: real)
    requires 1 <= length <= i + 1 <= |xs|
  {
    Sum(xs, i - length + 1, i + 1) / length as real
  }

  /** The sum of squared distances from `mean`. */
  function Spread(xs: seq<real>, lo: nat, hi: nat, mean: real): (r: real)
    requires lo <= hi <= |xs|
  {
    if lo == hi then 0.0 else Spread(xs, lo, hi - 1, mean) + (xs[hi - 1] - mean) * (xs[hi - 1] - mean)
  }

  lemma {:induction false} SpreadPrefix(xs: seq<real>, k: nat, lo: nat, hi: nat, mean: real)
    requires lo <= hi <= k <= |xs|
    ensures Spread(xs[..k], lo, hi, mean) == Spread(xs, lo, hi, mean)
  {
    if lo < hi { SpreadPrefix(xs, k, lo, hi - 1, mean); }
  }

  /** The mean and the variance of a window, said without dividing. */
  lemma WindowIs(xs: seq<real>, length: nat, i: nat)
    requires 1 <= length <= i + 1 <= |xs|
    ensures length as real * MeanAt(xs, length, i) == Sum(xs, i - length + 1, i + 1)
    ensures length as real * DeviationAt((x: real) => x, xs, length, i)
            == Spread(xs, i - length + 1, i + 1, MeanAt(xs, length, i))
  {
  }

  /** The mean of each full window. */
  function SmaSeq(xs: seq<real>, length: nat): (r: Series)
    requires length >= 1
    ensures |r| == |xs|
  {
    seq(|xs|, i requires 0 <= i < |xs| => if i < length - 1 then None else Some(MeanAt(xs, length, i)))
  }

  /** The population deviation of each full window. */
  function StdevSeq(root: real -> real, xs: seq<real>, length: nat): (r: Series)
    requires length >= 1
    ensures |r| == |xs|
  {
    seq(|xs|, i requires 0 <= i < |xs| => if i < length - 1 then None else Some(DeviationAt(root, xs, length, i)))
  }

  function DeviationAt(root: real -> real, xs: seq<real>, length: nat, i: nat): (r: real)
    requires 1 <= length <= i + 1 <= |xs|
  {
    root(Spread(xs, i - length + 1, i + 1, MeanAt(xs, length, i)) / length as real)
  }

  /** `sma`: a running sum that drops what leaves the window. */
  method Sma(xs: seq<real>, length: nat) returns (out: Series)
    requires length >= 1
    ensures out == SmaSeq(xs, length)
  {
    out := Gap(|xs|);
    var sum := 0.0;
    for i := 0 to |xs|
      invariant |out| == |xs| && sum == Sum(xs, if i < length then 0 else i - length, i)
      invariant forall j :: 0 <= j < i ==> out[j] == SmaSeq(xs, length)[j]
      invariant forall j :: i <= j < |xs| ==> out[j] == None
    {
      sum := sum + xs[i];
      if i >= length {
        SumFromFirst(xs, i - length, i + 1);
        sum := sum - xs[i - length];
      }
      if i >= length - 1 { out := out[i := Some(sum / length as real)]; }
    }
  }

  /** `stdev`. */
  method Stdev(root: real -> real, xs: seq<real>, length: nat) returns (out: Series)
    requires length >= 1
    ensures out == StdevSeq(root, xs, length)
  {
    out := Gap(|xs|);
    for i := 0 to |xs|
      invariant |out| == |xs| && forall j :: i <= j < |xs| ==> out[j] == None
      invariant forall j :: 0 <= j < i ==> out[j] == StdevSeq(root, xs, length)[j]
    {
      if i >= length - 1 {
        var mean := MeanAt(xs, length, i);
        out := out[i := Some(root(Spread(xs, i - length + 1, i + 1, mean) / length as real))];
      }
    }
  }

  // ---------------------------------------------------------------- recursive filters

  function EmaAt(xs: seq<real>, length: nat, i: nat): (r: real)
    requires i < |xs|
  {
    var alpha := 2.0 / (length + 1) as real;
    if i == 0 then xs[0] else alpha * xs[i] + (1.0 - alpha) * EmaAt(xs, length, i - 1)
  }

  /** The average starts at the first sample and goes 2 / (length + 1) of the way to each next one. */
  lemma EmaStep(xs: seq<real>, length: nat, i: nat)
    requires i < |xs|
    ensures i == 0 ==> EmaAt(xs, length, i) == xs[0]
    ensures i > 0 ==>
              var was := EmaAt(xs, length, i - 1);
              (length + 1) as real * (EmaAt(xs, length, i) - was) == 2.0 * (xs[i] - was)
  {
    if i > 0 {
      var was, n := EmaAt(xs, length, i - 1), (length + 1) as real;
      var alpha := 2.0 / n;
      assert n * alpha == 2.0;
      assert EmaAt(xs, length, i) - was == alpha * (xs[i] - was);
      assert n * (alpha * (xs[i] - was)) == (n * alpha) * (xs[i] - was);
    }
  }

  function EmaSeq(xs: seq<real>, length: nat): (r: seq<real>)
    ensures |r| == |xs|
  {
    seq(|xs|, i requires 0 <= i < |xs| => EmaAt(xs, length, i))
  }

  /** One step of Wilder's smoothing. */
  function Smoothed(prev: real, x: real, length: nat): (r: real)
    requires length >= 1
  {
    prev + (x - prev) / length as real
  }

  /** Wilder's smoothing, seeded with the mean of the first `length` samples. */
  function RmaAt(xs: seq<real>, length: nat, i: nat): (r: real)
    requires 1 <= length <= i + 1 <= |xs|
    decreases i
  {
    if i == length - 1 then MeanAt(xs, length, i)
    else
      Smoothed(RmaAt(xs, length, i - 1), xs[i], length)
  }

  function RmaSeq(xs: seq<real>, length: nat): (r: Series)
    requires length >= 1
    ensures |r| == |xs|
  {
    seq(|xs|, i requires 0 <= i < |xs| => if i < length - 1 then None else Some(RmaAt(xs, length, i)))
  }

  /** `ema`. */
  method Ema(xs: seq<real>, length: nat) returns (out: seq<real>)
    ensures out == EmaSeq(xs, length)
  {
    var alpha := 2.0 / (length + 1) as real;
    out := seq(|xs|, _ => 0.0);
    if xs == [] { return; }
    out := out[0 := xs[0]];
    for i := 1 to |xs|
      invariant |out| == |xs| && forall j :: 0 <= j < i ==> out[j] == EmaAt(xs, length, j)
    {
      out := out[i := alpha * xs[i] + (1.0 - alpha) * out[i - 1]];
    }
  }

  /** `rma`. */
  method Rma(xs: seq<real>, length: nat) returns (out: Series)
    requires length >= 1
    ensures out == RmaSeq(xs, length)
  {
    hide MeanAt, RmaAt;
    out := Gap(|xs|);
    if |xs| < length { return; }
    RmaStart(xs, length);
    var prev := MeanAt(xs, length, length - 1);
    out := out[length - 1 := Some(prev)];
    for i := length to |xs|
      invariant |out| == |xs| && prev == RmaAt(xs, length, i - 1)
      invariant forall j :: 0 <= j < i ==> out[j] == RmaSeq(xs, length)[j]
      invariant forall j :: i <= j < |xs| ==> out[j] == None
    {
      RmaStep(xs, length, i);
      prev := prev + (xs[i] - prev) / length as real;
      out := out[i := Some(prev)];
    }
  }

  // ---------------------------------------------------------------- no lookahead

  lemma SmaPrefix(xs: seq<real>, length: nat, k: nat)
    requires length >= 1 && k <= |xs|
    ensures SmaSeq(xs[..k], length) == SmaSeq(xs, length)[..k]
  {
    forall i | length - 1 <= i < k ensures MeanAt(xs[..k], length, i) == MeanAt(xs, length, i) {
      SumPrefix(xs, k, i - length + 1, i + 1);
    }
  }

  lemma StdevPrefix(root: real -> real, xs: seq<real>, length: nat, k: nat)
    requires length >= 1 && k <= |xs|
    ensures StdevSeq(root, xs[..k], length) == StdevSeq(root, xs, length)[..k]
  {
    forall i | length - 1 <= i < k ensures DeviationAt(root, xs[..k], length, i) == DeviationAt(root, xs, length, i) {
      SumPrefix(xs, k, i - length + 1, i + 1);
      SpreadPrefix(xs, k, i - length + 1, i + 1, MeanAt(xs, length, i));
    }
  }

  lemma {:induction false} EmaAtPrefix(xs: seq<real>, length: nat, k: nat, i: nat)
    requires i < k <= |xs|
    ensures EmaAt(xs[..k], length, i) == EmaAt(xs, length, i)
  {
    if i > 0 { EmaAtPrefix(xs, length, k, i - 1); }
  }

  lemma EmaPrefix(xs: seq<real>, length: nat, k: nat)
    requires k <= |xs|
    ensures EmaSeq(xs[..k], length) == EmaSeq(xs, length)[..k]
  {
    forall i | 0 <= i < k ensures EmaAt(xs[..k], length, i) == EmaAt(xs, length, i) {
      EmaAtPrefix(xs, length, k, i);
    }
  }

  lemma {:induction false} RmaAtPrefix(xs: seq<real>, length: nat, k: nat, i: nat)
    requires 1 <= length <= i + 1 <= k <= |xs|
    ensures RmaAt(xs[..k], length, i) == RmaAt(xs, length, i)
    decreases i
  {
    if i == length - 1 { SumPrefix(xs, k, 0, length); } else { RmaAtPrefix(xs, length, k, i - 1); }
  }

  lemma RmaPrefix(xs: seq<real>, length: nat, k: nat)
    requires length >= 1 && k <= |xs|
    ensures RmaSeq(xs[..k], length) == RmaSeq(xs, length)[..k]
  {
    forall i | length - 1 <= i < k ensures RmaAt(xs[..k], length, i) == RmaAt(xs, length, i) {
      RmaAtPrefix(xs, length, k, i);
    }
  }

  // ---------------------------------------------------------------- bounds

  ghost predicate Within(xs: seq<real>, lo: real, hi: real) {
    forall i :: 0 <= i < |xs| ==> lo <= xs[i] <= hi
  }

  /** A step of the filter stays between the two values it mixes. */
  lemma Mix(prev: real, x: real, length: nat, lo: real, hi: real)
    requires length >= 1 && lo <= prev <= hi && lo <= x <= hi
    ensures lo <= Smoothed(prev, x, length) <= hi
  {
    var n := length as real;
    if x >= prev { Share(x - prev, n); } else { Share(prev - x, n); }
    assert (x - prev) / n == -((prev - x) / n);
  }

  lemma Share(d: real, n: real)
    requires d >= 0.0 && n >= 1.0
    ensures 0.0 <= d / n <= d
  {
  }

  lemma {:induction false} SumWithin(xs: seq<real>, lo: nat, hi: nat, a: real, b: real)
    requires lo <= hi <= |xs| && Within(xs, a, b)
    ensures a * (hi - lo) as real <= Sum(xs, lo, hi) <= b * (hi - lo) as real
  {
    if lo < hi {
      SumWithin(xs, lo, hi - 1, a, b);
      OneMore(a, hi - 1 - lo);
      OneMore(b, hi - 1 - lo);
    }
  }

  lemma OneMore(a: real, n: nat)
    ensures a * (n + 1) as real == a * n as real + a
  {
  }

  lemma DivideBounds(s: real, n: nat, a: real, b: real)
    requires n >= 1 && a * n as real <= s <= b * n as real
    ensures a <= s / n as real <= b
  {
    var q := s / n as real;
    assert q * n as real == s;
    if q < a { Scaled(q, a, n as real); }
    if q > b { Scaled(b, q, n as real); }
  }

  lemma Scaled(a: real, b: real, n: real)
    requires a < b && n > 0.0
    ensures a * n < b * n
  {
  }

  /** Smoothing keeps every bound of its input. */
  lemma {:induction false} RmaWithin(xs: seq<real>, length: nat, i: nat, a: real, b: real)
    requires 1 <= length <= i + 1 <= |xs| && Within(xs, a, b)
    ensures a <= RmaAt(xs, length, i) <= b
    decreases i
  {
    hide Sum, Smoothed;
    if i == length - 1 {
      SumWithin(xs, 0, length, a, b);
      DivideBounds(Sum(xs, 0, length), length, a, b);
    } else {
      RmaWithin(xs, length, i - 1, a, b);
      Mix(RmaAt(xs, length, i - 1), xs[i], length, a, b);
    }
  }

  /** What is never negative stays positive once it is, for windows longer than one. */
  lemma RmaStaysPositive(xs: seq<real>, length: nat, i: nat)
    requires 2 <= length <= i && i < |xs| && xs[i] >= 0.0 && RmaAt(xs, length, i - 1) > 0.0
    ensures RmaAt(xs, length, i) > 0.0
  {
    var prev, n := RmaAt(xs, length, i - 1), length as real;
    hide RmaAt;
    assert RmaAt(xs, length, i) == Smoothed(prev, xs[i], length) by { RmaStep(xs, length, i); }
    LessThanWhole(prev, n);
    Share(xs[i], n);
    assert (xs[i] - prev) / n == xs[i] / n - prev / n;
  }

  lemma RmaStart(xs: seq<real>, length: nat)
    requires 1 <= length <= |xs|
    ensures RmaAt(xs, length, length - 1) == MeanAt(xs, length, length - 1)
  {
  }

  lemma RmaStep(xs: seq<real>, length: nat, i: nat)
    requires 1 <= length <= i && i < |xs|
    ensures RmaAt(xs, length, i) == Smoothed(RmaAt(xs, length, i - 1), xs[i], length)
  {
  }

  /** The smoothing starts at the mean of the first samples and goes 1 / length of the way to each next one. */
  lemma RmaMoves(xs: seq<real>, length: nat, i: nat)
    requires 1 <= length <= i + 1 <= |xs|
    ensures i == length - 1 ==> length as real * RmaAt(xs, length, i) == Sum(xs, 0, length)
    ensures i >= length ==>
              var was := RmaAt(xs, length, i - 1);
              length as real * (RmaAt(xs, length, i) - was) == xs[i] - was
  {
  }

  lemma LessThanWhole(d: real, n: real)
    requires d > 0.0 && n >= 2.0
    ensures d / n < d
  {
  }

  /** Smoothing is additive and monotone: a bound on a sum of inputs is one on the outputs. */
  lemma {:induction false} RmaSumBelow(xs: seq<real>, ys: seq<real>, zs: seq<real>, length: nat, i: nat)
    requires 1 <= length <= i + 1 <= |xs| && |xs| == |ys| == |zs|
    requires forall j :: 0 <= j < |xs| ==> xs[j] + ys[j] <= zs[j]
    ensures RmaAt(xs, length, i) + RmaAt(ys, length, i) <= RmaAt(zs, length, i)
    decreases i
  {
    hide Sum, Smoothed;
    if i == length - 1 {
      SumBelow(xs, ys, zs, length);
      MeansBelow(Sum(xs, 0, length), Sum(ys, 0, length), Sum(zs, 0, length), length);
    } else {
      RmaSumBelow(xs, ys, zs, length, i - 1);
      var a, b, c := RmaAt(xs, length, i - 1), RmaAt(ys, length, i - 1), RmaAt(zs, length, i - 1);
      SmoothedBelow(a, b, c, xs[i], ys[i], zs[i], length);
    }
  }

  lemma {:induction false} SumBelow(xs: seq<real>, ys: seq<real>, zs: seq<real>, n: nat)
    requires n <= |xs| == |ys| == |zs| && forall j :: 0 <= j < |xs| ==> xs[j] + ys[j] <= zs[j]
    ensures Sum(xs, 0, n) + Sum(ys, 0, n) <= Sum(zs, 0, n)
  {
    if n > 0 { SumBelow(xs, ys, zs, n - 1); }
  }

  lemma MeansBelow(a: real, b: real, c: real, length: nat)
    requires length >= 1 && a + b <= c
    ensures a / length as real + b / length as real <= c / length as real
  {
    var n := length as real;
    assert a / n + b / n == (a + b) / n;
    DivideBelow(a + b, c, n);
  }

  lemma DivideBelow(a: real, b: real, n: real)
    requires a <= b && n > 0.0
    ensures a / n <= b / n
  {
    var p, q := a / n, b / n;
    assert p * n == a && q * n == b;
    if p > q { Scaled(q, p, n); }
  }

  lemma SmoothedBelow(a: real, b: real, c: real, x: real, y: real, z: real, length: nat)
    requires length >= 1 && a + b <= c && x + y <= z
    ensures Smoothed(a, x, length) + Smoothed(b, y, length) <= Smoothed(c, z, length)
  {
    var n := length as real;
    var keep, gain := c - a - b, z - x - y;
    Share(keep, n);
    Share(gain, n);
    assert (z - c) / n - (x - a) / n - (y - b) / n == gain / n - keep / n;
  }

  // ---------------------------------------------------------------- relative strength

  function Gains(closes: seq<real>): (r: seq<real>)
    requires closes != []
  {
    seq(|closes| - 1, i requires 0 <= i < |closes| - 1 => Max(closes[i + 1] - closes[i], 0.0))
  }

  function Losses(closes: seq<real>): (r: seq<real>)
    requires closes != []
  {
    seq(|closes| - 1, i requires 0 <= i < |closes| - 1 => Max(closes[i] - closes[i + 1], 0.0))
  }

  /** The index of smoothed gains and losses. */
  function Strength(up: real, down: real): (r: real)
    requires up >= 0.0 && down >= 0.0
  {
    if down == 0.0 then (if up > 0.0 then 100.0 else 50.0)
    else
      assert up / down >= 0.0;
      100.0 - 100.0 / (1.0 + up / down)
  }

  lemma StrengthWithin(up: real, down: real)
    requires up >= 0.0 && down >= 0.0
    ensures 0.0 <= Strength(up, down) <= 100.0
  {
    if down > 0.0 {
      assert up / down >= 0.0;
      Share(100.0, 1.0 + up / down);
    }
  }

  lemma GainsNonNegative(closes: seq<real>, length: nat, i: nat)
    requires 1 <= length <= i < |closes|
    ensures RmaAt(Gains(closes), length, i - 1) >= 0.0 && RmaAt(Losses(closes), length, i - 1) >= 0.0
  {
    hide RmaAt;
    RmaNonNegative(Gains(closes), length, i - 1);
    RmaNonNegative(Losses(closes), length, i - 1);
  }

  lemma {:induction false} RmaNonNegative(xs: seq<real>, length: nat, i: nat)
    requires 1 <= length <= i + 1 <= |xs| && forall j :: 0 <= j < |xs| ==> xs[j] >= 0.0
    ensures RmaAt(xs, length, i) >= 0.0
    decreases i
  {
    var top := Top(xs);
    RmaWithin(xs, length, i, 0.0, top);
  }

  lemma {:induction false} Top(xs: seq<real>) returns (top: real)
    ensures top >= 0.0 && forall j :: 0 <= j < |xs| ==> xs[j] <= top
  {
    if xs == [] { top := 0.0; } else {
      var n := |xs| - 1;
      top := Top(xs[..n]);
      assert forall j :: 0 <= j < n ==> xs[j] == xs[..n][j];
      top := Max(top, xs[n]);
    }
  }

  function RsiAt(closes: seq<real>, length: nat, i: nat): (r: Option<real>)
    requires length >= 1 && i < |closes|
    ensures r.Some? ==> 0.0 <= r.value <= 100.0
    ensures r.Some? <==> i >= length
  {
    if i < length then None
    else
      GainsNonNegative(closes, length, i);
      StrengthWithin(RmaAt(Gains(closes), length, i - 1), RmaAt(Losses(closes), length, i - 1));
      Some(Strength(RmaAt(Gains(closes), length, i - 1), RmaAt(Losses(closes), length, i - 1)))
  }

  function RsiSeq(closes: seq<real>, length: nat): (r: Series)
    requires length >= 1
    ensures |r| == |closes|
  {
    seq(|closes|, i requires 0 <= i < |closes| => RsiAt(closes, length, i))
  }

  /** `rsi_from_closes`: every value it gives lies in [0, 100]. */
  method Rsi(closes: seq<real>, length: nat) returns (out: Series)
    requires length >= 1
    ensures out == RsiSeq(closes, length)
    ensures forall i :: 0 <= i < |out| && out[i].Some? ==> 0.0 <= out[i].value <= 100.0
  {
    hide RmaAt, Strength;
    out := Gap(|closes|);
    if |closes| < 2 { return; }
    var up := Rma(Gains(closes), length);
    var down := Rma(Losses(closes), length);
    for i := 1 to |closes|
      invariant |out| == |closes| && forall j :: 0 <= j < i ==> out[j] == RsiAt(closes, length, j)
      invariant forall j :: i <= j < |closes| ==> out[j] == None
    {
      var u, d := up[i - 1], down[i - 1];
      if u.None? || d.None? { continue; }
      GainsNonNegative(closes, length, i);
      out := out[i := Some(Strength(u.value, d.value))];
    }
  }

  lemma RsiPrefix(closes: seq<real>, length: nat, k: nat)
    requires length >= 1 && k <= |closes|
    ensures RsiSeq(closes[..k], length) == RsiSeq(closes, length)[..k]
  {
    hide RmaAt, Strength;
    forall i | 0 <= i < k ensures RsiAt(closes[..k], length, i) == RsiAt(closes, length, i) {
      if i >= length {
        assert Gains(closes[..k]) == Gains(closes)[..k - 1] && Losses(closes[..k]) == Losses(closes)[..k - 1];
        RmaAtPrefix(Gains(closes), length, k - 1, i - 1);
        RmaAtPrefix(Losses(closes), length, k - 1, i - 1);
      }
    }
  }

  // ---------------------------------------------------------------- mirror symmetry

  function Negated(xs: seq<real>): (r: seq<real>) {
    seq(|xs|, i requires 0 <= i < |xs| => -xs[i])
  }

  lemma StrengthMirror(up: real, down: real)
    requires up >= 0.0 && down >= 0.0
    ensures Strength(up, down) + Strength(down, up) == 100.0
  {
    if up > 0.0 && down > 0.0 {
      var a, b := up / down, down / up;
      assert a > 0.0 && b > 0.0 && a * b == 1.0;
      Reciprocals(a, b);
    }
  }

  lemma Reciprocals(a: real, b: real)
    requires a > 0.0 && b > 0.0 && a * b == 1.0
    ensures 100.0 / (1.0 + a) + 100.0 / (1.0 + b) == 100.0
  {
    var p, q := 100.0 / (1.0 + a), 100.0 / (1.0 + b);
    assert p * (1.0 + a) == 100.0 && q * (1.0 + b) == 100.0;
    assert q * (1.0 + b) * a == q * a + q * (a * b);
    assert q * (1.0 + a) == 100.0 * a;
    assert (p + q) * (1.0 + a) == 100.0 * (1.0 + a);
    Cancel(p + q, 100.0, 1.0 + a);
  }

  lemma Cancel(x: real, y: real, n: real)
    requires n > 0.0 && x * n == y * n
    ensures x == y
  {
    if x < y { Scaled(x, y, n); }
    if y < x { Scaled(y, x, n); }
  }

  /** Turning prices upside down turns the index around 50. */
  lemma RsiMirror(closes: seq<real>, length: nat, i: nat)
    requires 1 <= length <= i < |closes|
    ensures RsiAt(Negated(closes), length, i).value == 100.0 - RsiAt(closes, length, i).value
  {
    hide RmaAt, Strength;
    assert Gains(Negated(closes)) == Losses(closes) && Losses(Negated(closes)) == Gains(closes);
    GainsNonNegative(closes, length, i);
    StrengthMirror(RmaAt(Gains(closes), length, i - 1), RmaAt(Losses(closes), length, i - 1));
  }
}
