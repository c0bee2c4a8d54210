/**
 What the 35 features of apps/backtester/feature_builder.py say about the candles,
 position by position, and how they answer to rising, falling and level prices.
 */
module FeatureLaws {
  import opened Prelude
  import opened Indicators
  import opened Directional
  import opened Features

  /** The builder over the candles gives the bar these values. */
  ghost predicate Gives(root: real -> real, candles: seq<Candle>, h1: nat, h4: nat, i: nat, v: seq<real>) {
    && h1 >= 1 && h4 >= 1 && i < |candles|
    && Precompute(root, candles, h1, h4).Some? && Sized(Precompute(root, candles, h1, h4).value)
    && BuildAt(Precompute(root, candles, h1, h4).value, i) == Features(v)
  }

  /** The quotient of two numbers, said without dividing. */
  predicate Quotient(q: real, a: real, b: real) {
    b != 0.0 && q * b == a
  }

  lemma RatioIs(q: real, a: real, b: real)
    requires Ratio(a, b) == Some(q)
    ensures Quotient(q, a, b)
  {
  }

  // ---------------------------------------------------------------- positions

  lemma Positions(b: Builder, i: nat)
    requires Sized(b) && i < |b.candles|
    ensures var f, cs, c := FeaturesOf(b, i), b.candles, b.candles[i].close;
            && |f| == 35
            && f[0] == Ret(cs, i, 1) && f[1] == Ret(cs, i, 3) && f[2] == Ret(cs, i, 12)
            && f[3] == Ret(cs, i, 36) && f[4] == Ret(cs, i, 72) && f[5] == Ret(cs, i, 288)
            && f[6..10] == ShapeFeatures(cs[i]) && f[10..13] == VolatilityFeatures(b, i)
            && f[13..19] == TrendFeatures(b, i)
            && f[19] == b.rsi14[i] && f[20] == b.plusDi[i] && f[21] == b.minusDi[i] && f[22] == b.adx14[i]
            && f[23..25] == BandFeatures(c, b.sma20[i], b.stdev20[i])
            && f[25] == Some(Active(cs[i])) && f[26] == b.activeRate[i]
            && f[27..30] == HigherFeatures(b, i) && f[30..35] == CalendarFeatures(cs[i].time)
  {
    hide Ret, Ratio, LastClosedBin, BinDistance, BinReturn, ShapeFeatures, VolatilityFeatures, TrendFeatures,
      BandFeatures, HigherFeatures, CalendarFeatures, Active, Sized;
    PartSizes(b, i);
    var a, s, v, t := ReturnFeatures(b, i), ShapeFeatures(b.candles[i]), VolatilityFeatures(b, i), TrendFeatures(b, i);
    var d, e := [b.rsi14[i], b.plusDi[i], b.minusDi[i], b.adx14[i]],
                BandFeatures(b.candles[i].close, b.sma20[i], b.stdev20[i]);
    var g, h, k := [Some(Active(b.candles[i])), b.activeRate[i]], HigherFeatures(b, i),
                   CalendarFeatures(b.candles[i].time);
    Parts(FeaturesOf(b, i), a, s, v, t, d, e, g, h, k);
  }

  lemma PartSizes(b: Builder, i: nat)
    requires Sized(b) && i < |b.candles|
    ensures |ShapeFeatures(b.candles[i])| == 4 && |VolatilityFeatures(b, i)| == 3 && |TrendFeatures(b, i)| == 6
    ensures i < |b.sma20| && i < |b.stdev20| && |BandFeatures(b.candles[i].close, b.sma20[i], b.stdev20[i])| == 2
    ensures |HigherFeatures(b, i)| == 3 && |CalendarFeatures(b.candles[i].time)| == 5
    ensures i < |b.rsi14| && i < |b.plusDi| && i < |b.minusDi| && i < |b.adx14| && i < |b.activeRate|
  {
    hide Ratio, LastClosedBin, BinDistance, BinReturn;
  }

  lemma Parts(f: Series, a: Series, s: Series, v: Series, t: Series, d: Series, e: Series, g: Series, h: Series,
              k: Series)
    requires f == a + s + v + t + d + e + g + h + k
    requires |a| == 6 && |s| == 4 && |v| == 3 && |t| == 6 && |d| == 4 && |e| == 2 && |g| == 2 && |h| == 3 && |k| == 5
    ensures |f| == 35 && (forall j :: 0 <= j < 6 ==> f[j] == a[j])
    ensures f[6..10] == s && f[10..13] == v && f[13..19] == t && f[23..25] == e && f[27..30] == h && f[30..35] == k
    ensures f[19] == d[0] && f[20] == d[1] && f[21] == d[2] && f[22] == d[3] && f[25] == g[0] && f[26] == g[1]
  {
    var p := a + s + v + t;
    var q := p + d + e;
    assert f == q + (g + h + k);
    assert q[..19] == p && q[19..23] == d && q[23..] == e;
    assert p[6..10] == s && p[10..13] == v && p[13..] == t;
    assert f[..25] == q && f[25..27] == g && f[27..30] == h && f[30..] == k;
    assert f[6..10] == q[6..10] == p[6..10] && f[10..13] == p[10..13] && f[13..19] == p[13..];
    assert f[23..25] == q[23..];
  }

  lemma Given(root: real -> real, candles: seq<Candle>, h1: nat, h4: nat, i: nat, v: seq<real>) returns (b: Builder)
    requires Gives(root, candles, h1, h4, i, v)
    ensures |v| == 35 && Precompute(root, candles, h1, h4) == Some(b) && Sized(b) && i < |b.candles|
    ensures b.candles == candles && b.h1Factor == h1 && b.h4Factor == h4
    ensures |FeaturesOf(b, i)| == 35 && forall k :: 0 <= k < 35 ==> FeaturesOf(b, i)[k] == Some(v[k])
  {
    hide AdxLine, EmaSeq, VolSeq, FeaturesOf, Resampled, Divisible;
    b := Precompute(root, candles, h1, h4).value;
    Positions(b, i);
  }

  lemma Slices(f: Series, v: seq<real>, lo: nat, part: Series)
    requires lo + |part| <= |f| == |v| && f[lo..lo + |part|] == part
    requires forall k :: 0 <= k < |f| ==> f[k] == Some(v[k])
    ensures forall k :: 0 <= k < |part| ==> part[k] == Some(v[lo + k])
  {
    forall k | 0 <= k < |part| ensures part[k] == Some(v[lo + k]) { assert f[lo..lo + |part|][k] == f[lo + k]; }
  }

  // ---------------------------------------------------------------- returns, shape and calendar

  /** A return takes the close it looks back to, to the close of the bar. */
  lemma ReturnsMean(root: real -> real, candles: seq<Candle>, h1: nat, h4: nat, i: nat, v: seq<real>, k: nat, lag: nat)
    requires Gives(root, candles, h1, h4, i, v)
    requires (k, lag) in {(0, 1), (1, 3), (2, 12), (3, 36), (4, 72), (5, 288)}
    ensures |v| == 35 && lag <= i && candles[i].close == candles[i - lag].close * (1.0 + v[k])
  {
    hide FeaturesOf, Ratio, Precompute, BuildAt;
    var b := Given(root, candles, h1, h4, i, v);
    Positions(b, i);
    assert Ret(candles, i, lag) == Some(v[k]);
    var was := candles[i - lag].close;
    RatioIs(v[k], candles[i].close - was, was);
    assert was * (1.0 + v[k]) == was + v[k] * was;
  }

  /** The shape of the bar, as parts of its close. */
  lemma ShapeMean(root: real -> real, candles: seq<Candle>, h1: nat, h4: nat, i: nat, v: seq<real>)
    requires Gives(root, candles, h1, h4, i, v)
    ensures var c := candles[i];
            && |v| == 35
            && Quotient(v[6], c.high - c.low, c.close) && Quotient(v[7], c.close - c.open, c.close)
            && Quotient(v[8], c.high - Max(c.open, c.close), c.close)
            && Quotient(v[9], Min(c.open, c.close) - c.low, c.close)
  {
    hide FeaturesOf, Ratio, Precompute, BuildAt, Quotient, Max, Min;
    var b := Given(root, candles, h1, h4, i, v);
    var c := candles[i];
    Positions(b, i);
    Slices(FeaturesOf(b, i), v, 6, ShapeFeatures(c));
    RatioIs(v[6], c.high - c.low, c.close);
    RatioIs(v[7], c.close - c.open, c.close);
    RatioIs(v[8], c.high - Max(c.open, c.close), c.close);
    RatioIs(v[9], Min(c.open, c.close) - c.low, c.close);
  }

  /** The clock of the bar. */
  lemma CalendarMean(root: real -> real, candles: seq<Candle>, h1: nat, h4: nat, i: nat, v: seq<real>)
    requires Gives(root, candles, h1, h4, i, v)
    ensures var t := candles[i].time;
            && |v| == 35 && v[30] == t.hour as real && v[31] == t.weekday as real && v[32] == t.month as real
            && v[33] == 60.0 * v[30] + t.minute as real
            && (v[34] == 0.0 <==> t.hour < 7) && (v[34] == 1.0 <==> 7 <= t.hour < 13)
            && (v[34] == 2.0 <==> 13 <= t.hour < 20) && (v[34] == 3.0 <==> 20 <= t.hour)
  {
    hide FeaturesOf, Precompute, BuildAt, CalendarFeatures;
    var b := Given(root, candles, h1, h4, i, v);
    Positions(b, i);
    CalendarIs(candles[i].time);
    Slices(FeaturesOf(b, i), v, 30, CalendarFeatures(candles[i].time));
  }

  lemma CalendarIs(t: Stamp)
    ensures var f := CalendarFeatures(t);
            && |f| == 5 && f[0] == Some(t.hour as real) && f[1] == Some(t.weekday as real)
              && f[2] == Some(t.month as real)
            && f[3] == Some(60.0 * t.hour as real + t.minute as real)
            && f[4] == Some(if t.hour < 7 then 0.0 else if t.hour < 13 then 1.0 else if t.hour < 20 then 2.0 else 3.0)
  {
  }

  // ---------------------------------------------------------------- averages

  /** The distances of the close from its averages, and the slopes of two of them. */
  lemma TrendMean(root: real -> real, candles: seq<Candle>, h1: nat, h4: nat, i: nat, v: seq<real>)
    requires Gives(root, candles, h1, h4, i, v)
    ensures var xs, c := Closes(candles), candles[i].close;
            && |v| == 35 && i >= 48
            && Quotient(v[13], c - EmaAt(xs, 9, i), c) && Quotient(v[14], c - EmaAt(xs, 21, i), c)
            && Quotient(v[15], c - EmaAt(xs, 50, i), c)
            && Quotient(v[16], EmaAt(xs, 50, i) - EmaAt(xs, 50, i - 12), EmaAt(xs, 50, i))
            && Quotient(v[17], c - EmaAt(xs, 200, i), c)
            && Quotient(v[18], EmaAt(xs, 200, i) - EmaAt(xs, 200, i - 48), EmaAt(xs, 200, i))
  {
    hide FeaturesOf, Ratio, BuildAt, Quotient, EmaAt, Precompute;
    var b := Given(root, candles, h1, h4, i, v);
    var xs, c := Closes(candles), candles[i].close;
    Positions(b, i);
    Averages(root, candles, h1, h4, b);
    var t := TrendFeatures(b, i);
    Slices(FeaturesOf(b, i), v, 13, t);
    SlopeIs(v[16], b.ema50, xs, 50, i, 12);
    SlopeIs(v[18], b.ema200, xs, 200, i, 48);
    RatioIs(v[13], c - EmaAt(xs, 9, i), c);
    RatioIs(v[14], c - EmaAt(xs, 21, i), c);
    RatioIs(v[15], c - EmaAt(xs, 50, i), c);
    RatioIs(v[17], c - EmaAt(xs, 200, i), c);
  }

  lemma Averages(root: real -> real, candles: seq<Candle>, h1: nat, h4: nat, b: Builder)
    requires h1 >= 1 && h4 >= 1 && Precompute(root, candles, h1, h4) == Some(b)
    ensures var xs := Closes(candles);
            b.ema9 == EmaSeq(xs, 9) && b.ema21 == EmaSeq(xs, 21) && b.ema50 == EmaSeq(xs, 50)
              && b.ema200 == EmaSeq(xs, 200)
  {
    hide EmaSeq, AdxLine, VolSeq, Resampled, Divisible;
  }

  lemma SlopeIs(q: real, ema: seq<real>, xs: seq<real>, length: nat, i: nat, lag: nat)
    requires ema == EmaSeq(xs, length) && i < |xs| && Slope(ema, i, lag) == Some(q)
    ensures lag <= i && Quotient(q, EmaAt(xs, length, i) - EmaAt(xs, length, i - lag), EmaAt(xs, length, i))
  {
    hide Ratio, Quotient, EmaAt;
    RatioIs(q, EmaAt(xs, length, i) - EmaAt(xs, length, i - lag), EmaAt(xs, length, i));
  }

  /** The bands around the mean of the last 20 closes, and how much of the last 288 bars moved. */
  lemma BandsMean(root: real -> real, candles: seq<Candle>, h1: nat, h4: nat, i: nat, v: seq<real>)
    requires Gives(root, candles, h1, h4, i, v)
    ensures |v| == 35 && i >= 287
    ensures var xs, c := Closes(candles), candles[i].close;
            var mean, dev := MeanAt(xs, 20, i), DeviationAt(root, xs, 20, i);
            && Quotient(v[23], c - mean, dev) && Quotient(v[24], 4.0 * dev, mean)
            && v[25] == (if candles[i].high != candles[i].low then 1.0 else 0.0)
            && v[26] == MeanAt(ActiveBars(candles), 288, i)
  {
    hide FeaturesOf, Ratio, BuildAt, Quotient, Precompute, MeanAt, DeviationAt, ActiveBars;
    var b := Given(root, candles, h1, h4, i, v);
    var xs, c := Closes(candles), candles[i].close;
    Positions(b, i);
    Windows(root, candles, h1, h4, b);
    assert SmaSeq(ActiveBars(candles), 288)[i] == Some(v[26]);
    var mean, dev := MeanAt(xs, 20, i), DeviationAt(root, xs, 20, i);
    Slices(FeaturesOf(b, i), v, 23, BandFeatures(c, Some(mean), Some(dev)));
    RatioIs(v[23], c - mean, dev);
    RatioIs(v[24], 4.0 * dev, mean);
  }

  lemma Windows(root: real -> real, candles: seq<Candle>, h1: nat, h4: nat, b: Builder)
    requires h1 >= 1 && h4 >= 1 && Precompute(root, candles, h1, h4) == Some(b)
    ensures b.sma20 == SmaSeq(Closes(candles), 20) && b.stdev20 == StdevSeq(root, Closes(candles), 20)
    ensures b.activeRate == SmaSeq(ActiveBars(candles), 288)
  {
    hide EmaSeq, AdxLine, VolSeq, AtrSeq, Resampled, Divisible, SmaSeq, StdevSeq;
  }

  // ---------------------------------------------------------------- volatility

  /** The returns from close to close, as the rolling deviations see them. */
  ghost predicate StepsOf(xs: seq<real>, rs: seq<real>) {
    |rs| + 1 == |xs| && forall j :: 0 <= j < |rs| ==> xs[j + 1] == xs[j] * (1.0 + rs[j])
  }

  lemma ReturnsAreSteps(xs: seq<real>) returns (rs: seq<real>)
    requires xs != [] && Divisible(xs)
    ensures StepsOf(xs, rs) && Returns1(xs) == Later(rs)
  {
    hide Return1;
    rs := seq(|xs| - 1, j requires 0 <= j < |xs| - 1 => Return1(xs, j + 1));
    forall j | 0 <= j < |rs| ensures xs[j + 1] == xs[j] * (1.0 + rs[j]) { ReturnIs(xs, j + 1); }
  }

  lemma ReturnIs(xs: seq<real>, j: nat)
    requires 1 <= j < |xs| && xs[j - 1] != 0.0
    ensures xs[j] == xs[j - 1] * (1.0 + Return1(xs, j))
  {
    var q := Return1(xs, j);
    assert q * xs[j - 1] == xs[j] - xs[j - 1];
    assert xs[j - 1] * (1.0 + q) == xs[j - 1] + q * xs[j - 1];
  }

  lemma VolatilityAt(root: real -> real, xs: seq<real>, rs: seq<real>, length: nat, i: nat)
    requires length >= 1 && Divisible(xs) && i < |xs| && Returns1(xs) == Later(rs) && |rs| + 1 == |xs|
    ensures |VolSeq(root, xs, length)| == |xs|
    ensures VolSeq(root, xs, length)[i] == if i < length then None else Some(DeviationAt(root, rs, length, i - 1))
  {
    hide Align, Returns1, DeviationAt, Divisible;
    StdevIsCausal(root, length);
    AlignLater(rs, length, ByStdev(root));
    VolSized(root, xs, length);
  }

  /** The average range as a part of the close, and the deviations of the last 72 and 288 returns. */
  lemma VolatilityMean(root: real -> real, candles: seq<Candle>, h1: nat, h4: nat, i: nat, v: seq<real>)
    returns (rs: seq<real>)
    requires Gives(root, candles, h1, h4, i, v)
    ensures |v| == 35 && i >= 288 && |Ranges(candles)| + 1 == |candles| && StepsOf(Closes(candles), rs)
    ensures Quotient(v[10], RmaAt(Ranges(candles), 14, i - 1), candles[i].close)
    ensures v[11] == DeviationAt(root, rs, 72, i - 1) && v[12] == DeviationAt(root, rs, 288, i - 1)
  {
    hide FeaturesOf, Ratio, BuildAt, Quotient, Precompute, VolSeq, StepsOf, RmaAt, DeviationAt, Ranges, Divisible;
    var b := Given(root, candles, h1, h4, i, v);
    LengthsOf(candles);
    Deviations(root, candles, h1, h4, b);
    rs := ReturnsAreSteps(Closes(candles));
    StepsSized(Closes(candles), rs);
    VolatilityAt(root, Closes(candles), rs, 72, i);
    VolatilityAt(root, Closes(candles), rs, 288, i);
    Positions(b, i);
    Slices(FeaturesOf(b, i), v, 10, VolatilityFeatures(b, i));
    assert VolatilityFeatures(b, i)[0] == Some(v[10]) && VolatilityFeatures(b, i)[2] == Some(v[12]);
    RatioIs(v[10], RmaAt(Ranges(candles), 14, i - 1), candles[i].close);
  }

  lemma StepsSized(xs: seq<real>, rs: seq<real>)
    requires StepsOf(xs, rs)
    ensures |rs| + 1 == |xs|
  {
  }

  lemma Deviations(root: real -> real, candles: seq<Candle>, h1: nat, h4: nat, b: Builder)
    requires h1 >= 1 && h4 >= 1 && Precompute(root, candles, h1, h4) == Some(b)
    ensures Divisible(Closes(candles)) && b.atr14 == AtrSeq(candles, 14)
    ensures b.vol72 == VolSeq(root, Closes(candles), 72) && b.vol288 == VolSeq(root, Closes(candles), 288)
  {
    hide EmaSeq, AdxLine, VolSeq, AtrSeq, Resampled, Divisible;
  }

  // ---------------------------------------------------------------- strength and direction

  /** Relative strength: the share of smoothed gains in smoothed gains and losses, in percent; 50 without either. */
  predicate Share100(q: real, up: real, down: real) {
    (up + down) * q == 100.0 * up && (up + down == 0.0 ==> q == 50.0)
  }

  lemma StrengthIsShare(up: real, down: real)
    requires up >= 0.0 && down >= 0.0
    ensures Share100(Strength(up, down), up, down)
  {
    if down > 0.0 {
      var t := up / down;
      assert t >= 0.0 && t * down == up;
      var q := 100.0 / (1.0 + t);
      assert q * (1.0 + t) == 100.0;
      assert (up + down) * q == down * (q * (1.0 + t));
      assert (up + down) * (100.0 - q) == 100.0 * up + 100.0 * down - (up + down) * q;
    }
  }

  lemma RsiIsShare(xs: seq<real>, i: nat)
    requires 14 <= i < |xs|
    ensures RsiAt(xs, 14, i).Some?
    ensures Share100(RsiAt(xs, 14, i).value, RmaAt(Gains(xs), 14, i - 1), RmaAt(Losses(xs), 14, i - 1))
  {
    hide RmaAt, Strength, Share100;
    GainsNonNegative(xs, 14, i);
    StrengthIsShare(RmaAt(Gains(xs), 14, i - 1), RmaAt(Losses(xs), 14, i - 1));
  }

  /** The relative strength over 14 closes. */
  lemma StrengthMean(root: real -> real, candles: seq<Candle>, h1: nat, h4: nat, i: nat, v: seq<real>)
    requires Gives(root, candles, h1, h4, i, v)
    ensures var xs := Closes(candles);
            && |v| == 35 && i >= 14 && |Gains(xs)| + 1 == |xs| == |Losses(xs)| + 1
            && Share100(v[19], RmaAt(Gains(xs), 14, i - 1), RmaAt(Losses(xs), 14, i - 1))
  {
    hide FeaturesOf, BuildAt, RmaAt, Share100, Precompute, RsiAt;
    var b := Given(root, candles, h1, h4, i, v);
    Positions(b, i);
    Directions(root, candles, h1, h4, b);
    var xs := Closes(candles);
    assert RsiSeq(xs, 14)[i] == RsiAt(xs, 14, i);
    assert |Gains(xs)| + 1 == |xs| == |Losses(xs)| + 1;
    if i >= 14 { RsiIsShare(xs, i); }
  }

  lemma Directions(root: real -> real, candles: seq<Candle>, h1: nat, h4: nat, b: Builder)
    requires h1 >= 1 && h4 >= 1 && Precompute(root, candles, h1, h4) == Some(b)
    ensures b.rsi14 == RsiSeq(Closes(candles), 14) && b.plusDi == PlusLine(candles, 14)
    ensures b.minusDi == MinusLine(candles, 14) && AdxLine(candles, 14) == Some(b.adx14)
  {
    hide EmaSeq, AdxLine, VolSeq, Resampled, Divisible, PlusLine, MinusLine, RsiSeq;
  }

  /** The smoothed range and movements of a bar. */
  function RangeAt(candles: seq<Candle>, j: nat): (r: real)
    requires 14 <= j < |candles|
  {
    LengthsOf(candles);
    RmaAt(Ranges(candles), 14, j - 1)
  }

  function UpAt(candles: seq<Candle>, j: nat): (r: real)
    requires 14 <= j < |candles|
  {
    LengthsOf(candles);
    RmaAt(PlusMoves(candles), 14, j - 1)
  }

  function DownAt(candles: seq<Candle>, j: nat): (r: real)
    requires 14 <= j < |candles|
  {
    LengthsOf(candles);
    RmaAt(MinusMoves(candles), 14, j - 1)
  }

  /** The imbalance of the two movements in percent, none without movement. */
  predicate Imbalance(d: real, up: real, down: real) {
    d * (up + down) == 100.0 * Abs(up - down) && (up + down == 0.0 ==> d == 0.0)
  }

  lemma LinesAre(range: real, up: real, down: real)
    requires range > 0.0 && up >= 0.0 && down >= 0.0
    ensures var l := LinesAt(Some(range), Some(up), Some(down));
            && l.plus.Some? && l.minus.Some? && l.dx.Some?
            && l.plus.value * range == 100.0 * up && l.minus.value * range == 100.0 * down
            && Imbalance(l.dx.value, up, down)
  {
    var p, m := 100.0 * up / range, 100.0 * down / range;
    assert p * range == 100.0 * up && m * range == 100.0 * down;
    Portions(p, m, up, down, range);
    if p + m != 0.0 {
      var d := 100.0 * Abs(p - m) / (p + m);
      assert d * (p + m) == 100.0 * Abs(p - m);
      Transfer(d, p + m, Abs(p - m), up + down, Abs(up - down), range);
    }
  }

  lemma Portions(p: real, m: real, up: real, down: real, range: real)
    requires range > 0.0 && p * range == 100.0 * up && m * range == 100.0 * down
    ensures (p + m) * range == 100.0 * (up + down) && Abs(p - m) * range == 100.0 * Abs(up - down)
    ensures p + m == 0.0 <==> up + down == 0.0
  {
    assert (p + m) * range == 100.0 * up + 100.0 * down;
    assert (p - m) * range == 100.0 * up - 100.0 * down;
    if p >= m { Scales(m, p, range); } else { Scales(p, m, range); }
    if up + down == 0.0 { Cancel(p + m, 0.0, range); }
  }

  lemma Scales(a: real, b: real, n: real)
    requires a <= b && n > 0.0
    ensures a * n <= b * n
  {
  }

  lemma Transfer(d: real, sum: real, gap: real, total: real, spread: real, range: real)
    requires range > 0.0 && d * sum == 100.0 * gap && sum * range == 100.0 * total && gap * range == 100.0 * spread
    ensures d * total == 100.0 * spread
  {
    assert d * (sum * range) == (d * sum) * range;
    assert (100.0 * gap) * range == 100.0 * (gap * range);
    assert d * (100.0 * total) == 100.0 * (d * total);
  }

  lemma MovesNonNegative(candles: seq<Candle>, j: nat)
    requires 14 <= j < |candles|
    ensures RangeAt(candles, j) >= 0.0 && UpAt(candles, j) >= 0.0 && DownAt(candles, j) >= 0.0
  {
    hide RmaAt, PlusMove, MinusMove, Range;
    RmaNonNegative(Ranges(candles), 14, j - 1);
    RmaNonNegative(PlusMoves(candles), 14, j - 1);
    RmaNonNegative(MinusMoves(candles), 14, j - 1);
  }

  /** The lines of a bar: none while the smoothed range is zero. */
  lemma LinesMean(candles: seq<Candle>, j: nat)
    requires j < |candles|
    ensures var l := LinesOf(candles, 14, j);
            && (l.plus.Some? <==> j >= 14 && RangeAt(candles, j) > 0.0)
            && (l.minus.Some? <==> l.plus.Some?) && (l.dx.Some? <==> l.plus.Some?)
            && (l.plus.Some? ==>
                  && l.plus.value * RangeAt(candles, j) == 100.0 * UpAt(candles, j)
                  && l.minus.value * RangeAt(candles, j) == 100.0 * DownAt(candles, j)
                  && Imbalance(l.dx.value, UpAt(candles, j), DownAt(candles, j)))
  {
    hide RmaAt, Imbalance, Ranges, PlusMoves, MinusMoves, LinesAt;
    LengthsOf(candles);
    if j >= 14 {
      MovesNonNegative(candles, j);
      if RangeAt(candles, j) > 0.0 {
        LinesAre(RangeAt(candles, j), UpAt(candles, j), DownAt(candles, j));
      } else {
        FlatLines(UpAt(candles, j), DownAt(candles, j));
      }
    } else {
      NoLines(candles, j);
    }
  }

  lemma FlatLines(up: real, down: real)
    ensures LinesAt(Some(0.0), Some(up), Some(down)) == Lines(None, None, None)
  {
  }

  lemma NoLines(candles: seq<Candle>, j: nat)
    requires j < |candles| && j < 14
    ensures LinesOf(candles, 14, j) == Lines(None, None, None)
  {
    hide RmaAt;
  }

  /** Both directional indicators, and the average of the imbalance from the first bar that has one. */
  lemma DirectionMean(root: real -> real, candles: seq<Candle>, h1: nat, h4: nat, i: nat, v: seq<real>)
    returns (start: nat, dxs: seq<real>)
    requires Gives(root, candles, h1, h4, i, v)
    ensures |v| == 35 && 14 <= start && start + 13 <= i && |dxs| == |candles| - start
    ensures v[20] * RangeAt(candles, i) == 100.0 * UpAt(candles, i)
    ensures v[21] * RangeAt(candles, i) == 100.0 * DownAt(candles, i)
    ensures forall j :: 14 <= j < |candles| ==> (RangeAt(candles, j) > 0.0 <==> start <= j)
    ensures forall k :: 0 <= k < |dxs| ==> Imbalance(dxs[k], UpAt(candles, start + k), DownAt(candles, start + k))
    ensures v[22] == RmaAt(dxs, 14, i - start)
  {
    hide FeaturesOf, BuildAt, RmaAt, Precompute, Imbalance, LinesOf, RangeAt, UpAt, DownAt, AdxLine;
    var b := Given(root, candles, h1, h4, i, v);
    Positions(b, i);
    Directions(root, candles, h1, h4, b);
    LinesMean(candles, i);
    assert PlusLine(candles, 14)[i] == Some(v[20]) && MinusLine(candles, 14)[i] == Some(v[21]);
    start, dxs := AverageFrom(candles, i, v[22]);
  }

  lemma AverageFrom(candles: seq<Candle>, i: nat, q: real) returns (start: nat, dxs: seq<real>)
    requires i < |candles| && AdxLine(candles, 14).Some? && |AdxLine(candles, 14).value| == |candles|
    requires AdxLine(candles, 14).value[i] == Some(q)
    ensures 14 <= start && start + 13 <= i && |dxs| == |candles| - start && q == RmaAt(dxs, 14, i - start)
    ensures forall j :: 14 <= j < |candles| ==> (RangeAt(candles, j) > 0.0 <==> start <= j)
    ensures forall k :: 0 <= k < |dxs| ==> Imbalance(dxs[k], UpAt(candles, start + k), DownAt(candles, start + k))
  {
    hide RmaAt, Imbalance, LinesOf, RangeAt, UpAt, DownAt;
    var dx := DxLine(candles, 14);
    start := First(dx);
    assert start < |dx|;
    dxs := Clean(dx[start..]);
    assert AdxLine(candles, 14).value[i] == (Gap(start) + ByRma(dxs, 14))[i];
    forall j | 0 <= j < |candles| ensures dx[j].Some? <==> j >= 14 && RangeAt(candles, j) > 0.0 {
      LinesMean(candles, j);
    }
    assert AllSome(dx[start..]);
    forall j | start <= j < |candles| ensures dx[j].Some? { assert dx[start..][j - start] == dx[j]; }
    forall k | 0 <= k < |dxs| ensures Imbalance(dxs[k], UpAt(candles, start + k), DownAt(candles, start + k)) {
      LinesMean(candles, start + k);
    }
  }

  // ---------------------------------------------------------------- higher timeframes

  /** The closes of the full bins of so many bars. */
  ghost predicate BinsOf(candles: seq<Candle>, factor: nat, bins: seq<real>) {
    forall b :: 0 <= b < |bins| ==>
      0 <= b * factor + factor - 1 < |candles| && bins[b] == candles[b * factor + factor - 1].close
  }

  /** The last bin that has closed when a bar has. */
  predicate LastClosed(b: nat, factor: nat, i: nat) {
    b * factor + factor - 1 <= i < (b + 1) * factor + factor - 1
  }

  lemma ResampledAreBins(candles: seq<Candle>, factor: nat)
    requires factor >= 1
    ensures BinsOf(candles, factor, Resampled(Closes(candles), factor))
  {
    var bins := Resampled(Closes(candles), factor);
    forall b | 0 <= b < |bins|
      ensures 0 <= b * factor + factor - 1 < |candles| && bins[b] == candles[b * factor + factor - 1].close
    {
      BinInside(b, |candles|, factor);
    }
  }

  lemma LastClosedIs(i: nat, factor: nat)
    requires factor >= 1 && LastClosedBin(i, factor).Some?
    ensures LastClosed(LastClosedBin(i, factor).value, factor, i)
  {
    hide LastClosedBin;
    LastClosedBinIsLast(i, factor);
    var b := LastClosedBin(i, factor).value;
    assert BinEnd(b, factor) <= i && BinEnd(b + 1, factor) > i;
  }

  lemma BinsFields(root: real -> real, candles: seq<Candle>, h1: nat, h4: nat, b: Builder)
    requires h1 >= 1 && h4 >= 1 && Precompute(root, candles, h1, h4) == Some(b)
    ensures b.h1 == Resampled(Closes(candles), h1) && b.h1Ema == EmaSeq(b.h1, 50)
    ensures b.h4 == Resampled(Closes(candles), h4) && b.h4Ema == EmaSeq(b.h4, 50)
  {
    hide EmaSeq, AdxLine, VolSeq, AtrSeq, Resampled, Divisible, SmaSeq, StdevSeq;
  }

  lemma BinDistanceIs(q: real, i: nat, factor: nat, bins: seq<real>)
    requires factor >= 1 && BinDistance(i, factor, bins, EmaSeq(bins, 50)) == Some(q)
    ensures LastClosedBin(i, factor).Some? && LastClosedBin(i, factor).value < |bins|
    ensures var b := LastClosedBin(i, factor).value;
            LastClosed(b, factor, i) && Quotient(q, bins[b] - EmaAt(bins, 50, b), bins[b])
  {
    hide LastClosedBin, Ratio, EmaAt, Quotient, LastClosed;
    var b := LastClosedBin(i, factor).value;
    RatioIs(q, bins[b] - EmaAt(bins, 50, b), bins[b]);
    LastClosedIs(i, factor);
  }

  lemma BinReturnIs(q: real, i: nat, factor: nat, bins: seq<real>, lag: nat)
    requires factor >= 1 && (LastClosedBin(i, factor).Some? ==> LastClosedBin(i, factor).value < |bins|)
    requires BinReturn(i, factor, bins, lag) == Some(q)
    ensures LastClosedBin(i, factor).Some? && lag <= LastClosedBin(i, factor).value
    ensures var b := LastClosedBin(i, factor).value; bins[b] == bins[b - lag] * (1.0 + q)
  {
    hide LastClosedBin, Ratio;
    var b := LastClosedBin(i, factor).value;
    RatioIs(q, bins[b] - bins[b - lag], bins[b - lag]);
    assert bins[b - lag] * (1.0 + q) == bins[b - lag] + q * bins[b - lag];
  }

  lemma HigherSized(b: Builder, i: nat)
    requires Sized(b) && i < |b.candles|
    ensures |HigherFeatures(b, i)| == 3
  {
    hide LastClosedBin, BinDistance, BinReturn;
  }

  lemma HigherAre(b: Builder, i: nat, p: real, q: real, r: real)
    requires Sized(b) && i < |b.candles|
    requires var f := HigherFeatures(b, i); |f| == 3 && f[0] == Some(p) && f[1] == Some(q) && f[2] == Some(r)
    ensures BinDistance(i, b.h1Factor, b.h1, b.h1Ema) == Some(p) && BinDistance(i, b.h4Factor, b.h4, b.h4Ema) == Some(r)
    ensures LastClosedBin(i, b.h1Factor).Some? && LastClosedBin(i, b.h1Factor).value < |b.h1|
    ensures BinReturn(i, b.h1Factor, b.h1, 24) == Some(q)
  {
    hide LastClosedBin, BinDistance, BinReturn;
    if LastClosedBin(i, b.h1Factor).Some? { ClosedBinExists(i, |b.candles|, b.h1Factor); }
  }

  lemma HigherGiven(root: real -> real, candles: seq<Candle>, h1: nat, h4: nat, i: nat, v: seq<real>)
    returns (b: Builder)
    requires Gives(root, candles, h1, h4, i, v)
    ensures |v| == 35 && h1 >= 1 && h4 >= 1 && Precompute(root, candles, h1, h4) == Some(b)
    ensures |b.h1| == |b.h1Ema| && |b.h4| == |b.h4Ema|
    ensures BinDistance(i, h1, b.h1, b.h1Ema) == Some(v[27]) && BinDistance(i, h4, b.h4, b.h4Ema) == Some(v[29])
    ensures LastClosedBin(i, h1).Some? && LastClosedBin(i, h1).value < |b.h1|
    ensures BinReturn(i, h1, b.h1, 24) == Some(v[28])
  {
    hide FeaturesOf, BuildAt, Precompute, LastClosedBin, BinDistance, BinReturn, HigherFeatures;
    b := Given(root, candles, h1, h4, i, v);
    Positions(b, i);
    HigherSized(b, i);
    Slices(FeaturesOf(b, i), v, 27, HigherFeatures(b, i));
    HigherAre(b, i, v[27], v[28], v[29]);
  }

  /** The higher timeframes: the last bin that has closed against its average and against the bin 24 before. */
  lemma HigherMean(root: real -> real, candles: seq<Candle>, h1: nat, h4: nat, i: nat, v: seq<real>)
    returns (xs: seq<real>, m: nat, ys: seq<real>, n: nat)
    requires Gives(root, candles, h1, h4, i, v)
    ensures |v| == 35 && BinsOf(candles, h1, xs) && BinsOf(candles, h4, ys)
    ensures 24 <= m < |xs| && LastClosed(m, h1, i) && n < |ys| && LastClosed(n, h4, i)
    ensures Quotient(v[27], xs[m] - EmaAt(xs, 50, m), xs[m]) && xs[m] == xs[m - 24] * (1.0 + v[28])
    ensures Quotient(v[29], ys[n] - EmaAt(ys, 50, n), ys[n])
  {
    hide FeaturesOf, BuildAt, Precompute, EmaAt, Quotient, LastClosedBin, BinDistance, BinReturn, BinsOf, LastClosed,
      Gives, Sized, Resampled;
    var b := HigherGiven(root, candles, h1, h4, i, v);
    BinsFields(root, candles, h1, h4, b);
    xs, ys := b.h1, b.h4;
    ResampledAreBins(candles, h1);
    ResampledAreBins(candles, h4);
    BinDistanceIs(v[27], i, h1, xs);
    BinReturnIs(v[28], i, h1, xs, 24);
    BinDistanceIs(v[29], i, h4, ys);
    m, n := LastClosedBin(i, h1).value, LastClosedBin(i, h4).value;
  }
}
