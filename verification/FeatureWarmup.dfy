/**
 When the builder of apps/backtester/feature_builder.py has features for a bar: the
 lookback it needs, and the numbers it may not divide by.
 */
module FeatureWarmup {
  import opened Prelude
  import opened Indicators
  import opened Directional
  import opened Features
  import opened FeatureLaws

  lemma AllSomeConcat(a: Series, b: Series)
    ensures AllSome(a + b) <==> AllSome(a) && AllSome(b)
  {
    var c := a + b;
    assert forall i :: 0 <= i < |a| ==> c[i] == a[i];
    assert forall i :: 0 <= i < |b| ==> c[|a| + i] == b[i];
  }

  lemma RatioDefined(a: real, b: real)
    ensures Ratio(a, b).Some? <==> b != 0.0
  {
  }

  // ---------------------------------------------------------------- group by group

  lemma ReturnsDefined(b: Builder, i: nat)
    requires i < |b.candles| && Divisible(Closes(b.candles))
    ensures AllSome(ReturnFeatures(b, i)) <==> i >= 288
  {
    hide Ratio;
    var f, cs := ReturnFeatures(b, i), b.candles;
    forall lag | 1 <= lag <= 288 ensures Ret(cs, i, lag).Some? <==> i >= lag {
      if i >= lag {
        assert Closes(cs)[i - lag] != 0.0;
        RatioDefined(cs[i].close - cs[i - lag].close, cs[i - lag].close);
      }
    }
    assert f[5] == Ret(cs, i, 288);
  }

  lemma ShapeDefined(c: Candle)
    ensures AllSome(ShapeFeatures(c)) <==> c.close != 0.0
  {
    hide Max, Min;
    assert ShapeFeatures(c)[0] == Ratio(c.high - c.low, c.close);
  }

  lemma VolatilityDefined(root: real -> real, candles: seq<Candle>, h1: nat, h4: nat, b: Builder, i: nat)
    requires h1 >= 1 && h4 >= 1 && Precompute(root, candles, h1, h4) == Some(b) && Sized(b) && b.candles == candles
    requires i < |candles|
    ensures AllSome(VolatilityFeatures(b, i)) <==> i >= 288 && candles[i].close != 0.0
  {
    hide Precompute, VolSeq, Divisible, DeviationAt, RmaAt, Ratio, Ranges, Returns1, StepsOf;
    Deviations(root, candles, h1, h4, b);
    LengthsOf(candles);
    var xs := Closes(candles);
    var rs := ReturnsAreSteps(xs);
    StepsSized(xs, rs);
    VolatilityAt(root, xs, rs, 72, i);
    VolatilityAt(root, xs, rs, 288, i);
    var f := VolatilityFeatures(b, i);
    if i >= 14 { RatioDefined(RmaAt(Ranges(candles), 14, i - 1), candles[i].close); }
    assert f[2] == b.vol288[i] && f[1] == b.vol72[i];
    assert b.atr14[i] == SmoothAt(Ranges(candles), 14, i);
    assert f[0] == if i < 14 then None else Ratio(RmaAt(Ranges(candles), 14, i - 1), candles[i].close);
  }

  lemma TrendDefined(root: real -> real, candles: seq<Candle>, h1: nat, h4: nat, b: Builder, i: nat)
    requires h1 >= 1 && h4 >= 1 && Precompute(root, candles, h1, h4) == Some(b) && Sized(b) && b.candles == candles
    requires i < |candles|
    ensures AllSome(TrendFeatures(b, i)) <==>
            && i >= 48 && candles[i].close != 0.0
            && EmaAt(Closes(candles), 50, i) != 0.0 && EmaAt(Closes(candles), 200, i) != 0.0
  {
    hide Precompute, EmaAt, Ratio, Slope;
    Averages(root, candles, h1, h4, b);
    var f, c := TrendFeatures(b, i), candles[i].close;
    RatioDefined(c - b.ema9[i], c);
    RatioDefined(c - b.ema21[i], c);
    RatioDefined(c - b.ema50[i], c);
    RatioDefined(c - b.ema200[i], c);
    SlopeDefined(Closes(candles), 50, i, 12);
    SlopeDefined(Closes(candles), 200, i, 48);
    assert f[0] == Ratio(c - b.ema9[i], c);
    assert f[3] == Slope(b.ema50, i, 12) && f[5] == Slope(b.ema200, i, 48);
  }

  lemma SlopeDefined(xs: seq<real>, length: nat, i: nat, lag: nat)
    requires i < |xs|
    ensures Slope(EmaSeq(xs, length), i, lag).Some? <==> i >= lag && EmaAt(xs, length, i) != 0.0
  {
    hide EmaAt;
  }

  lemma BandsDefined(root: real -> real, candles: seq<Candle>, h1: nat, h4: nat, b: Builder, i: nat)
    requires h1 >= 1 && h4 >= 1 && Precompute(root, candles, h1, h4) == Some(b) && Sized(b) && b.candles == candles
    requires i < |candles|
    ensures AllSome(BandFeatures(candles[i].close, b.sma20[i], b.stdev20[i])) <==>
            && i >= 19
            && DeviationAt(root, Closes(candles), 20, i) != 0.0 && MeanAt(Closes(candles), 20, i) != 0.0
    ensures b.activeRate[i].Some? <==> i >= 287
  {
    hide Precompute, MeanAt, DeviationAt, ActiveBars;
    Windows(root, candles, h1, h4, b);
    var f := BandFeatures(candles[i].close, b.sma20[i], b.stdev20[i]);
    if i >= 19 {
      var mean, dev := MeanAt(Closes(candles), 20, i), DeviationAt(root, Closes(candles), 20, i);
      assert f[0] == Ratio(candles[i].close - mean, dev) && f[1] == Ratio(4.0 * dev, mean);
    } else {
      assert f[0] == None;
    }
  }

  // ---------------------------------------------------------------- direction

  lemma RangeStays(candles: seq<Candle>, j: nat, k: nat)
    requires 14 <= j <= k < |candles| && RangeAt(candles, j) > 0.0
    ensures RangeAt(candles, k) > 0.0
    decreases k - j
  {
    hide RmaAt, Range;
    if j < k {
      RangeStays(candles, j, k - 1);
      RmaStaysPositive(Ranges(candles), 14, k - 1);
    }
  }

  /** The average of the imbalance is there 13 bars after the first bar with a smoothed range. */
  lemma AverageDefined(candles: seq<Candle>, i: nat)
    requires i < |candles| && AdxLine(candles, 14).Some? && |AdxLine(candles, 14).value| == |candles|
    ensures AdxLine(candles, 14).value[i].Some? <==> i >= 27 && RangeAt(candles, i - 13) > 0.0
  {
    hide RmaAt, LinesOf, RangeAt;
    var dx := DxLine(candles, 14);
    var start := First(dx);
    forall j | 0 <= j < |candles| ensures dx[j].Some? <==> j >= 14 && RangeAt(candles, j) > 0.0 {
      LinesMean(candles, j);
    }
    if start < |dx| {
      var dxs := Clean(dx[start..]);
      assert AdxLine(candles, 14).value[i] == (Gap(start) + ByRma(dxs, 14))[i];
      if i >= 27 && start <= i - 13 { RangeStays(candles, start, i - 13); }
    }
  }

  lemma DirectionDefined(root: real -> real, candles: seq<Candle>, h1: nat, h4: nat, b: Builder, i: nat)
    requires h1 >= 1 && h4 >= 1 && Precompute(root, candles, h1, h4) == Some(b) && Sized(b) && b.candles == candles
    requires i < |candles|
    ensures AllSome([b.rsi14[i], b.plusDi[i], b.minusDi[i], b.adx14[i]]) <==>
            i >= 27 && RangeAt(candles, i - 13) > 0.0
  {
    hide Precompute, RmaAt, LinesOf, AdxLine, RangeAt, RsiAt;
    Directions(root, candles, h1, h4, b);
    AverageDefined(candles, i);
    LinesMean(candles, i);
    var f := [b.rsi14[i], b.plusDi[i], b.minusDi[i], b.adx14[i]];
    assert f[3] == b.adx14[i];
    assert b.rsi14[i] == RsiAt(Closes(candles), 14, i);
    if i >= 27 && RangeAt(candles, i - 13) > 0.0 { RangeStays(candles, i - 13, i); }
  }

  // ---------------------------------------------------------------- higher timeframes

  lemma ClosedIff(i: nat, factor: nat, k: nat)
    requires factor >= 1
    ensures (LastClosedBin(i, factor).Some? && k <= LastClosedBin(i, factor).value) <==> (k + 1) * factor - 1 <= i
  {
    hide LastClosedBin;
    LastClosedBinIsLast(i, factor);
    assert BinEnd(k, factor) == (k + 1) * factor - 1;
  }

  /** With the bar's own close not zero, no bin closed by then is. */
  lemma BinNotZero(candles: seq<Candle>, factor: nat, i: nat, k: nat)
    requires factor >= 1 && i < |candles| && candles[i].close != 0.0 && Divisible(Closes(candles))
    requires k < |candles| / factor && (k + 1) * factor - 1 <= i
    ensures Resampled(Closes(candles), factor)[k] != 0.0
  {
    BinInside(k, |candles|, factor);
    var at := BinEnd(k, factor);
    assert Resampled(Closes(candles), factor)[k] == Closes(candles)[at];
    assert at <= i;
  }

  lemma HigherDefined(root: real -> real, candles: seq<Candle>, h1: nat, h4: nat, b: Builder, i: nat)
    requires h1 >= 1 && h4 >= 1 && Precompute(root, candles, h1, h4) == Some(b) && Sized(b) && b.candles == candles
    requires b.h1Factor == h1 && b.h4Factor == h4 && i < |candles| && candles[i].close != 0.0
    ensures AllSome(HigherFeatures(b, i)) <==> 25 * h1 - 1 <= i && h4 - 1 <= i
  {
    hide Precompute, LastClosedBin, Ratio, EmaSeq, Resampled, Divisible;
    BinsFields(root, candles, h1, h4, b);
    Deviations(root, candles, h1, h4, b);
    ClosedIff(i, h1, 0);
    ClosedIff(i, h1, 24);
    ClosedIff(i, h4, 0);
    var m, n := LastClosedBin(i, h1), LastClosedBin(i, h4);
    if m.Some? {
      ClosedBinExists(i, |candles|, h1);
      ClosedIff(i, h1, m.value);
      BinNotZero(candles, h1, i, m.value);
      RatioDefined(b.h1[m.value] - b.h1Ema[m.value], b.h1[m.value]);
      if m.value >= 24 {
        ClosedIff(i, h1, m.value - 24);
        BinNotZero(candles, h1, i, m.value - 24);
        RatioDefined(b.h1[m.value] - b.h1[m.value - 24], b.h1[m.value - 24]);
      }
    }
    if n.Some? {
      ClosedBinExists(i, |candles|, h4);
      ClosedIff(i, h4, n.value);
      BinNotZero(candles, h4, i, n.value);
      RatioDefined(b.h4[n.value] - b.h4Ema[n.value], b.h4[n.value]);
    }
    var f := HigherFeatures(b, i);
    assert f[0] == BinDistance(i, h1, b.h1, b.h1Ema) && f[2] == BinDistance(i, h4, b.h4, b.h4Ema);
    assert f[1] == if m.None? then None else BinReturn(i, h1, b.h1, 24);
  }

  // ---------------------------------------------------------------- the bar

  /** What a bar needs: its lookback, a range that has been there for 14 bars, and nothing to divide by that is zero. */
  ghost predicate Ready(root: real -> real, candles: seq<Candle>, h1: nat, h4: nat, i: nat) {
    var xs := Closes(candles);
    && 288 <= i < |candles| && 25 * h1 - 1 <= i && h4 - 1 <= i
    && xs[i] != 0.0 && EmaAt(xs, 50, i) != 0.0 && EmaAt(xs, 200, i) != 0.0
    && MeanAt(xs, 20, i) != 0.0 && DeviationAt(root, xs, 20, i) != 0.0
    && RangeAt(candles, i - 13) > 0.0
  }

  lemma FeaturesConcat(b: Builder, i: nat)
    requires Sized(b) && i < |b.candles|
    ensures AllSome(FeaturesOf(b, i)) <==>
            && AllSome(ReturnFeatures(b, i)) && AllSome(ShapeFeatures(b.candles[i]))
            && AllSome(VolatilityFeatures(b, i)) && AllSome(TrendFeatures(b, i))
            && AllSome([b.rsi14[i], b.plusDi[i], b.minusDi[i], b.adx14[i]])
            && AllSome(BandFeatures(b.candles[i].close, b.sma20[i], b.stdev20[i]))
            && b.activeRate[i].Some? && AllSome(HigherFeatures(b, i))
  {
    hide ReturnFeatures, ShapeFeatures, VolatilityFeatures, TrendFeatures, BandFeatures, HigherFeatures, Active,
      AllSome, CalendarFeatures;
    var a, s, v, t := ReturnFeatures(b, i), ShapeFeatures(b.candles[i]), VolatilityFeatures(b, i), TrendFeatures(b, i);
    var d, e := [b.rsi14[i], b.plusDi[i], b.minusDi[i], b.adx14[i]],
                BandFeatures(b.candles[i].close, b.sma20[i], b.stdev20[i]);
    var g, h, k := [Some(Active(b.candles[i])), b.activeRate[i]], HigherFeatures(b, i),
                   CalendarFeatures(b.candles[i].time);
    AllSomeConcat(a, s);
    AllSomeConcat(a + s, v);
    AllSomeConcat(a + s + v, t);
    AllSomeConcat(a + s + v + t, d);
    AllSomeConcat(a + s + v + t + d, e);
    AllSomeConcat(a + s + v + t + d + e, g);
    AllSomeConcat(a + s + v + t + d + e + g, h);
    AllSomeConcat(a + s + v + t + d + e + g + h, k);
    ClockDefined(b.candles[i].time);
    PairDefined(Active(b.candles[i]), b.activeRate[i]);
  }

  lemma ClockDefined(t: Stamp)
    ensures AllSome(CalendarFeatures(t))
  {
  }

  lemma PairDefined(x: real, y: Option<real>)
    ensures AllSome([Some(x), y]) <==> y.Some?
  {
    assert [Some(x), y][1] == y;
  }

  /** A bar has features exactly when it is ready. */
  lemma CompleteIffReady(root: real -> real, candles: seq<Candle>, h1: nat, h4: nat, i: nat)
    requires h1 >= 1 && h4 >= 1 && Divisible(Closes(candles)) && i < |candles|
    ensures Precompute(root, candles, h1, h4).Some? && Sized(Precompute(root, candles, h1, h4).value)
    ensures BuildAt(Precompute(root, candles, h1, h4).value, i).Features? <==> Ready(root, candles, h1, h4, i)
    ensures !Ready(root, candles, h1, h4, i) ==> BuildAt(Precompute(root, candles, h1, h4).value, i) == Incomplete
  {
    hide Precompute, FeaturesOf, Divisible, Sized, EmaAt, MeanAt, DeviationAt, RangeAt, ReturnFeatures, ShapeFeatures,
      VolatilityFeatures, TrendFeatures, BandFeatures, HigherFeatures, AllSome;
    PrecomputedIsSized(root, candles, h1, h4);
    var b := Precompute(root, candles, h1, h4).value;
    SameInputs(root, candles, h1, h4);
    FeaturesConcat(b, i);
    ReturnsDefined(b, i);
    ShapeDefined(candles[i]);
    VolatilityDefined(root, candles, h1, h4, b, i);
    TrendDefined(root, candles, h1, h4, b, i);
    BandsDefined(root, candles, h1, h4, b, i);
    DirectionDefined(root, candles, h1, h4, b, i);
    if candles[i].close != 0.0 { HigherDefined(root, candles, h1, h4, b, i); }
  }

  lemma SameInputs(root: real -> real, candles: seq<Candle>, h1: nat, h4: nat)
    requires h1 >= 1 && h4 >= 1 && Precompute(root, candles, h1, h4).Some?
    ensures var b := Precompute(root, candles, h1, h4).value;
            b.candles == candles && b.h1Factor == h1 && b.h4Factor == h4
  {
    hide EmaSeq, AdxLine, VolSeq, AtrSeq, Resampled, Divisible;
  }
}
