/**
 The features of apps/backtester/feature_builder.py do not depend on the unit of
 price: multiplying every price by one positive factor changes none of them.
 */
module FeatureScale {
  import opened Prelude
  import opened Indicators
  import opened Directional
  import opened Features
  import opened FeatureLaws

  // ---------------------------------------------------------------- arithmetic

  /** A price in the other unit. */
  function By(c: real, x: real): (r: real) {
    c * x
  }

  lemma ByMinus(c: real, a: real, b: real)
    ensures By(c, a) - By(c, b) == By(c, a - b)
  {
  }

  lemma ByPlus(c: real, a: real, b: real)
    ensures By(c, a) + By(c, b) == By(c, a + b)
  {
  }

  lemma ByProduct(c: real, a: real, x: real)
    ensures a * By(c, x) == By(c, a * x)
  {
    assert a * (c * x) == c * (a * x);
  }

  lemma ByDivided(c: real, a: real, n: real)
    requires n != 0.0
    ensures By(c, a) / n == By(c, a / n)
  {
    var q := a / n;
    assert q * n == a;
    assert c * a == (c * q) * n;
  }

  lemma ByOrder(c: real, a: real, b: real)
    requires c > 0.0
    ensures (a < b <==> By(c, a) < By(c, b)) && (a == b <==> By(c, a) == By(c, b)) && By(c, 0.0) == 0.0
  {
    if a < b { Scaled(a, b, c); }
    if b < a { Scaled(b, a, c); }
  }

  lemma ByBoth(c: real, a: real, b: real)
    requires c > 0.0 && b != 0.0
    ensures By(c, b) != 0.0 && By(c, a) / By(c, b) == a / b
  {
    var q := a / b;
    assert q * b == a;
    assert q * (c * b) == c * a;
  }

  lemma ByRatio(c: real, a: real, b: real)
    requires c > 0.0
    ensures Ratio(By(c, a), By(c, b)) == Ratio(a, b)
  {
    hide By;
    ByOrder(c, b, 0.0);
    if b != 0.0 { ByBoth(c, a, b); }
  }

  lemma ByExtremes(c: real, a: real, b: real)
    requires c > 0.0
    ensures Max(By(c, a), By(c, b)) == By(c, Max(a, b)) && Min(By(c, a), By(c, b)) == By(c, Min(a, b))
  {
    hide By;
    ByOrder(c, a, b);
    ByOrder(c, b, a);
  }

  lemma ByAbs(c: real, a: real)
    requires c > 0.0
    ensures Abs(By(c, a)) == By(c, Abs(a))
  {
    hide By;
    ByOrder(c, a, 0.0);
    ByMinus(c, 0.0, a);
  }

  // ---------------------------------------------------------------- windows and filters

  function Times(c: real, xs: seq<real>): (r: seq<real>)
    ensures |r| == |xs| && forall i :: 0 <= i < |xs| ==> r[i] == By(c, xs[i])
  {
    seq(|xs|, i requires 0 <= i < |xs| => By(c, xs[i]))
  }

  function Each(c: real, x: Option<real>): (r: Option<real>) {
    if x.None? then None else Some(By(c, x.value))
  }

  function TimesEach(c: real, xs: Series): (r: Series)
    ensures |r| == |xs| && forall i :: 0 <= i < |xs| ==> r[i] == Each(c, xs[i])
  {
    seq(|xs|, i requires 0 <= i < |xs| => Each(c, xs[i]))
  }

  lemma {:induction false} SumTimes(c: real, xs: seq<real>, lo: nat, hi: nat)
    requires lo <= hi <= |xs|
    ensures Sum(Times(c, xs), lo, hi) == By(c, Sum(xs, lo, hi))
  {
    hide By, Times;
    if lo < hi {
      SumTimes(c, xs, lo, hi - 1);
      ByPlus(c, Sum(xs, lo, hi - 1), xs[hi - 1]);
    } else {
      ByMinus(c, 0.0, 0.0);
    }
  }

  lemma MeanTimes(c: real, xs: seq<real>, length: nat, i: nat)
    requires 1 <= length <= i + 1 <= |xs|
    ensures MeanAt(Times(c, xs), length, i) == By(c, MeanAt(xs, length, i))
  {
    hide By, Sum, Times;
    SumTimes(c, xs, i - length + 1, i + 1);
    ByDivided(c, Sum(xs, i - length + 1, i + 1), length as real);
  }

  function Square(x: real, m: real): (r: real) {
    (x - m) * (x - m)
  }

  lemma SquareTimes(c: real, x: real, m: real)
    ensures Square(By(c, x), By(c, m)) == By(c * c, Square(x, m)) && Square(x, m) >= 0.0
  {
    var d := x - m;
    assert c * x - c * m == c * d;
    assert (c * d) * (c * d) == c * c * (d * d);
  }

  lemma SpreadStep(xs: seq<real>, lo: nat, hi: nat, m: real)
    requires lo < hi <= |xs|
    ensures Spread(xs, lo, hi, m) == Spread(xs, lo, hi - 1, m) + Square(xs[hi - 1], m)
  {
  }

  lemma SpreadNone(xs: seq<real>, lo: nat, m: real)
    requires lo <= |xs|
    ensures Spread(xs, lo, lo, m) == 0.0
  {
  }

  lemma {:induction false} SpreadTimes(c: real, xs: seq<real>, lo: nat, hi: nat, m: real)
    requires lo <= hi <= |xs|
    ensures Spread(Times(c, xs), lo, hi, By(c, m)) == By(c * c, Spread(xs, lo, hi, m)) && Spread(xs, lo, hi, m) >= 0.0
  {
    hide By, Times, Square, Spread;
    if lo < hi {
      SpreadTimes(c, xs, lo, hi - 1, m);
      SpreadStep(xs, lo, hi, m);
      SpreadStep(Times(c, xs), lo, hi, By(c, m));
      SquareTimes(c, xs[hi - 1], m);
      ByPlus(c * c, Spread(xs, lo, hi - 1, m), Square(xs[hi - 1], m));
    } else {
      SpreadNone(xs, lo, m);
      SpreadNone(Times(c, xs), lo, By(c, m));
      ByMinus(c * c, 0.0, 0.0);
    }
  }

  /** What scaling asks of the square root. */
  ghost predicate Homogeneous(root: real -> real, c: real) {
    forall x :: x >= 0.0 ==> root(By(c * c, x)) == By(c, root(x))
  }

  lemma DeviationTimes(root: real -> real, c: real, xs: seq<real>, length: nat, i: nat)
    requires 1 <= length <= i + 1 <= |xs| && Homogeneous(root, c)
    ensures DeviationAt(root, Times(c, xs), length, i) == By(c, DeviationAt(root, xs, length, i))
  {
    hide By, MeanAt, Times, Spread;
    MeanTimes(c, xs, length, i);
    var m, lo, n := MeanAt(xs, length, i), i - length + 1, length as real;
    SpreadTimes(c, xs, lo, i + 1, m);
    var s := Spread(xs, lo, i + 1, m);
    ByDivided(c * c, s, n);
    NoNegativeQuotient(s, n);
  }

  lemma NoNegativeQuotient(a: real, n: real)
    requires a >= 0.0 && n > 0.0
    ensures a / n >= 0.0
  {
  }

  function Blend(alpha: real, x: real, e: real): (r: real) {
    alpha * x + (1.0 - alpha) * e
  }

  lemma BlendTimes(c: real, alpha: real, x: real, e: real)
    ensures Blend(alpha, By(c, x), By(c, e)) == By(c, Blend(alpha, x, e))
  {
    assert alpha * (c * x) == c * (alpha * x);
    assert (1.0 - alpha) * (c * e) == c * ((1.0 - alpha) * e);
    assert c * (alpha * x) + c * ((1.0 - alpha) * e) == c * (alpha * x + (1.0 - alpha) * e);
  }

  lemma EmaBlends(xs: seq<real>, length: nat, i: nat)
    requires 1 <= i < |xs|
    ensures EmaAt(xs, length, i) == Blend(2.0 / (length + 1) as real, xs[i], EmaAt(xs, length, i - 1))
  {
  }

  lemma EmaStarts(xs: seq<real>, length: nat)
    requires xs != []
    ensures EmaAt(xs, length, 0) == xs[0]
  {
  }

  lemma {:induction false} EmaTimes(c: real, xs: seq<real>, length: nat, i: nat)
    requires i < |xs|
    ensures EmaAt(Times(c, xs), length, i) == By(c, EmaAt(xs, length, i))
  {
    hide By, Times, Blend, EmaAt;
    if i > 0 {
      EmaTimes(c, xs, length, i - 1);
      EmaBlends(xs, length, i);
      EmaBlends(Times(c, xs), length, i);
      BlendTimes(c, 2.0 / (length + 1) as real, xs[i], EmaAt(xs, length, i - 1));
    } else {
      EmaStarts(xs, length);
      EmaStarts(Times(c, xs), length);
    }
  }

  lemma {:induction false} RmaTimes(c: real, xs: seq<real>, length: nat, i: nat)
    requires 1 <= length <= i + 1 <= |xs|
    ensures RmaAt(Times(c, xs), length, i) == By(c, RmaAt(xs, length, i))
    decreases i
  {
    hide By, Times, MeanAt, Smoothed;
    if i == length - 1 {
      MeanTimes(c, xs, length, i);
    } else {
      RmaTimes(c, xs, length, i - 1);
      SmoothedTimes(c, RmaAt(xs, length, i - 1), xs[i], length);
    }
  }

  lemma SmoothedTimes(c: real, prev: real, x: real, length: nat)
    requires length >= 1
    ensures Smoothed(By(c, prev), By(c, x), length) == By(c, Smoothed(prev, x, length))
  {
    hide By;
    var n := length as real;
    ByMinus(c, x, prev);
    ByDivided(c, x - prev, n);
    ByPlus(c, prev, (x - prev) / n);
  }

  lemma EmaSeqTimes(c: real, xs: seq<real>, length: nat)
    ensures EmaSeq(Times(c, xs), length) == Times(c, EmaSeq(xs, length))
  {
    hide By, EmaAt;
    forall i | 0 <= i < |xs| ensures EmaAt(Times(c, xs), length, i) == By(c, EmaAt(xs, length, i)) {
      EmaTimes(c, xs, length, i);
    }
  }

  lemma SmaSeqTimes(c: real, xs: seq<real>, length: nat)
    requires length >= 1
    ensures SmaSeq(Times(c, xs), length) == TimesEach(c, SmaSeq(xs, length))
  {
    hide By, MeanAt;
    forall i | length - 1 <= i < |xs| ensures MeanAt(Times(c, xs), length, i) == By(c, MeanAt(xs, length, i)) {
      MeanTimes(c, xs, length, i);
    }
  }

  lemma StdevSeqTimes(root: real -> real, c: real, xs: seq<real>, length: nat)
    requires length >= 1 && Homogeneous(root, c)
    ensures StdevSeq(root, Times(c, xs), length) == TimesEach(c, StdevSeq(root, xs, length))
  {
    hide By, DeviationAt, Homogeneous;
    forall i | length - 1 <= i < |xs|
      ensures DeviationAt(root, Times(c, xs), length, i) == By(c, DeviationAt(root, xs, length, i))
    {
      DeviationTimes(root, c, xs, length, i);
    }
  }

  // ---------------------------------------------------------------- relative strength

  lemma StrengthTimes(c: real, up: real, down: real)
    requires c > 0.0 && up >= 0.0 && down >= 0.0
    ensures By(c, up) >= 0.0 && By(c, down) >= 0.0 && Strength(By(c, up), By(c, down)) == Strength(up, down)
  {
    hide By;
    ByOrder(c, 0.0, up);
    ByOrder(c, 0.0, down);
    if down != 0.0 { ByBoth(c, up, down); }
  }

  lemma GainsTimes(c: real, xs: seq<real>)
    requires c > 0.0 && xs != []
    ensures Gains(Times(c, xs)) == Times(c, Gains(xs)) && Losses(Times(c, xs)) == Times(c, Losses(xs))
  {
    hide By, Max;
    var ys := Times(c, xs);
    forall i | 0 <= i < |xs| - 1
      ensures Max(ys[i + 1] - ys[i], 0.0) == By(c, Max(xs[i + 1] - xs[i], 0.0))
      ensures Max(ys[i] - ys[i + 1], 0.0) == By(c, Max(xs[i] - xs[i + 1], 0.0))
    {
      GainTimes(c, xs[i + 1], xs[i]);
      GainTimes(c, xs[i], xs[i + 1]);
    }
  }

  lemma GainTimes(c: real, a: real, b: real)
    requires c > 0.0
    ensures Max(By(c, a) - By(c, b), 0.0) == By(c, Max(a - b, 0.0))
  {
    hide By, Max, Min;
    ByMinus(c, a, b);
    ByOrder(c, a, b);
    ByExtremes(c, a - b, 0.0);
  }

  lemma RsiTimes(c: real, xs: seq<real>, length: nat)
    requires c > 0.0 && length >= 1
    ensures RsiSeq(Times(c, xs), length) == RsiSeq(xs, length)
  {
    hide By, RmaAt, Strength, Gains, Losses, Times;
    forall i | 0 <= i < |xs| ensures RsiAt(Times(c, xs), length, i) == RsiAt(xs, length, i) {
      if i >= length {
        GainsTimes(c, xs);
        GainsSized(xs);
        GainsNonNegative(xs, length, i);
        RmaTimes(c, Gains(xs), length, i - 1);
        RmaTimes(c, Losses(xs), length, i - 1);
        StrengthTimes(c, RmaAt(Gains(xs), length, i - 1), RmaAt(Losses(xs), length, i - 1));
      }
    }
  }

  lemma GainsSized(xs: seq<real>)
    requires xs != []
    ensures |Gains(xs)| + 1 == |xs| == |Losses(xs)| + 1
  {
  }

  // ---------------------------------------------------------------- candles

  function Priced(c: real, k: Candle): (r: Candle) {
    Candle(k.time, By(c, k.open), By(c, k.high), By(c, k.low), By(c, k.close))
  }

  /** The candles in another unit of price. */
  function Repriced(c: real, candles: seq<Candle>): (r: seq<Candle>)
    ensures |r| == |candles| && forall i :: 0 <= i < |candles| ==> r[i] == Priced(c, candles[i])
  {
    seq(|candles|, i requires 0 <= i < |candles| => Priced(c, candles[i]))
  }

  lemma ClosesTimes(c: real, candles: seq<Candle>)
    ensures Closes(Repriced(c, candles)) == Times(c, Closes(candles))
  {
    hide By;
  }

  lemma ActiveSame(c: real, candles: seq<Candle>)
    requires c > 0.0
    ensures ActiveBars(Repriced(c, candles)) == ActiveBars(candles)
    ensures forall i :: 0 <= i < |candles| ==> Active(Repriced(c, candles)[i]) == Active(candles[i])
  {
    hide By;
    forall i | 0 <= i < |candles| ensures Active(Repriced(c, candles)[i]) == Active(candles[i]) {
      ByOrder(c, candles[i].high, candles[i].low);
    }
  }

  lemma RangeTimes(c: real, candles: seq<Candle>, i: nat)
    requires c > 0.0 && 1 <= i < |candles|
    ensures Range(Repriced(c, candles), i) == By(c, Range(candles, i))
  {
    hide By, Max, Min, Abs, Repriced;
    var high, low, last := candles[i].high, candles[i].low, candles[i - 1].close;
    ByMinus(c, high, low);
    ByMinus(c, high, last);
    ByMinus(c, low, last);
    ByAbs(c, high - last);
    ByAbs(c, low - last);
    ByExtremes(c, high - low, Abs(high - last));
    ByExtremes(c, Max(high - low, Abs(high - last)), Abs(low - last));
  }

  lemma MoveTimes(c: real, candles: seq<Candle>, i: nat)
    requires c > 0.0 && 1 <= i < |candles|
    ensures PlusMove(Repriced(c, candles), i) == By(c, PlusMove(candles, i))
    ensures MinusMove(Repriced(c, candles), i) == By(c, MinusMove(candles, i))
  {
    hide By, Repriced;
    var up, down := candles[i].high - candles[i - 1].high, candles[i - 1].low - candles[i].low;
    ByMinus(c, candles[i].high, candles[i - 1].high);
    ByMinus(c, candles[i - 1].low, candles[i].low);
    ByOrder(c, down, up);
    ByOrder(c, up, down);
    ByOrder(c, 0.0, up);
    ByOrder(c, 0.0, down);
  }

  lemma InputsTimes(c: real, candles: seq<Candle>)
    requires c > 0.0 && candles != []
    ensures Ranges(Repriced(c, candles)) == Times(c, Ranges(candles))
    ensures PlusMoves(Repriced(c, candles)) == Times(c, PlusMoves(candles))
    ensures MinusMoves(Repriced(c, candles)) == Times(c, MinusMoves(candles))
  {
    hide By, Range, PlusMove, MinusMove, Repriced;
    LengthsOf(candles);
    LengthsOf(Repriced(c, candles));
    forall i | 1 <= i < |candles|
      ensures Range(Repriced(c, candles), i) == By(c, Range(candles, i))
      ensures PlusMove(Repriced(c, candles), i) == By(c, PlusMove(candles, i))
      ensures MinusMove(Repriced(c, candles), i) == By(c, MinusMove(candles, i))
    {
      RangeTimes(c, candles, i);
      MoveTimes(c, candles, i);
    }
  }

  lemma LinesTimes(c: real, range: real, plus: real, minus: real)
    requires c > 0.0
    ensures LinesAt(Some(By(c, range)), Some(By(c, plus)), Some(By(c, minus)))
            == LinesAt(Some(range), Some(plus), Some(minus))
  {
    hide By;
    ByOrder(c, range, 0.0);
    if range != 0.0 {
      ByProduct(c, 100.0, plus);
      ByBoth(c, 100.0 * plus, range);
      ByProduct(c, 100.0, minus);
      ByBoth(c, 100.0 * minus, range);
    }
  }

  lemma LinesSame(c: real, candles: seq<Candle>, length: nat, i: nat)
    requires c > 0.0 && length >= 1 && i < |candles|
    ensures LinesOf(Repriced(c, candles), length, i) == LinesOf(candles, length, i)
    ensures SmoothAt(Ranges(Repriced(c, candles)), length, i) ==
            Each(c, SmoothAt(Ranges(candles), length, i))
  {
    hide By, RmaAt, LinesAt, Ranges, PlusMoves, MinusMoves, Repriced, Times;
    LengthsOf(candles);
    LengthsOf(Repriced(c, candles));
    InputsTimes(c, candles);
    if i >= length {
      RmaTimes(c, Ranges(candles), length, i - 1);
      RmaTimes(c, PlusMoves(candles), length, i - 1);
      RmaTimes(c, MinusMoves(candles), length, i - 1);
      LinesTimes(c, RmaAt(Ranges(candles), length, i - 1), RmaAt(PlusMoves(candles), length, i - 1),
        RmaAt(MinusMoves(candles), length, i - 1));
    }
  }

  lemma DmiSame(c: real, candles: seq<Candle>, length: nat)
    requires c > 0.0 && length >= 1
    ensures PlusLine(Repriced(c, candles), length) == PlusLine(candles, length)
    ensures MinusLine(Repriced(c, candles), length) == MinusLine(candles, length)
    ensures AdxLine(Repriced(c, candles), length) == AdxLine(candles, length)
    ensures AtrSeq(Repriced(c, candles), length) == TimesEach(c, AtrSeq(candles, length))
  {
    hide By, Each, LinesOf, SmoothAt, Ranges, Repriced, Align;
    if candles != [] {
      LengthsOf(candles);
      LengthsOf(Repriced(c, candles));
    }
    forall i | 0 <= i < |candles|
      ensures LinesOf(Repriced(c, candles), length, i) == LinesOf(candles, length, i)
      ensures SmoothAt(Ranges(Repriced(c, candles)), length, i) ==
              Each(c, SmoothAt(Ranges(candles), length, i))
    {
      LinesSame(c, candles, length, i);
    }
    assert DxLine(Repriced(c, candles), length) == DxLine(candles, length);
  }

  lemma ReturnsSame(c: real, xs: seq<real>)
    requires c > 0.0
    ensures Divisible(Times(c, xs)) <==> Divisible(xs)
    ensures Divisible(xs) ==> Returns1(Times(c, xs)) == Returns1(xs)
  {
    hide By, Return1, Times;
    forall i | 0 <= i < |xs| ensures By(c, xs[i]) == 0.0 <==> xs[i] == 0.0 { ByOrder(c, xs[i], 0.0); }
    if Divisible(xs) {
      forall i | 1 <= i < |xs| ensures Return1(Times(c, xs), i) == Return1(xs, i) { ReturnSame(c, xs, i); }
    }
  }

  lemma ReturnSame(c: real, xs: seq<real>, i: nat)
    requires c > 0.0 && 1 <= i < |xs| && xs[i - 1] != 0.0
    ensures By(c, xs[i - 1]) != 0.0 && Return1(Times(c, xs), i) == Return1(xs, i)
  {
    hide By, Times;
    ByMinus(c, xs[i], xs[i - 1]);
    ByBoth(c, xs[i] - xs[i - 1], xs[i - 1]);
  }

  lemma VolSame(root: real -> real, c: real, xs: seq<real>, length: nat)
    requires c > 0.0 && length >= 1 && Divisible(xs)
    ensures Divisible(Times(c, xs)) && VolSeq(root, Times(c, xs), length) == VolSeq(root, xs, length)
  {
    hide By, Align, Returns1, Divisible, Times;
    ReturnsSame(c, xs);
  }

  lemma BinsTimes(c: real, xs: seq<real>, factor: nat)
    requires factor >= 1
    ensures Resampled(Times(c, xs), factor) == Times(c, Resampled(xs, factor))
  {
    hide By, Times;
    forall b | 0 <= b < |xs| / factor
      ensures Resampled(Times(c, xs), factor)[b] == By(c, Resampled(xs, factor)[b])
    {
      BinInside(b, |xs|, factor);
    }
  }

  // ---------------------------------------------------------------- the builder

  /** The builder of the repriced candles, said of the builder of the candles. */
  function RepricedBuilder(c: real, b: Builder): (r: Builder) {
    b.(candles := Repriced(c, b.candles), ema9 := Times(c, b.ema9), ema21 := Times(c, b.ema21),
       ema50 := Times(c, b.ema50), ema200 := Times(c, b.ema200), atr14 := TimesEach(c, b.atr14),
       sma20 := TimesEach(c, b.sma20), stdev20 := TimesEach(c, b.stdev20), h1 := Times(c, b.h1),
       h1Ema := Times(c, b.h1Ema), h4 := Times(c, b.h4), h4Ema := Times(c, b.h4Ema))
  }

  lemma PrecomputeRepriced(root: real -> real, c: real, candles: seq<Candle>, h1: nat, h4: nat)
    requires c > 0.0 && h1 >= 1 && h4 >= 1 && Homogeneous(root, c) && Divisible(Closes(candles))
    requires AdxLine(candles, 14).Some?
    ensures Precompute(root, candles, h1, h4).Some?
    ensures Precompute(root, Repriced(c, candles), h1, h4) ==
            Some(RepricedBuilder(c, Precompute(root, candles, h1, h4).value))
  {
    hide By, Homogeneous, Divisible, AdxLine, PlusLine, MinusLine, AtrSeq, RsiSeq, SmaSeq, StdevSeq, EmaSeq, VolSeq,
      Resampled, Times, TimesEach, Repriced, ActiveBars, Closes;
    var xs := Closes(candles);
    ClosesTimes(c, candles);
    ReturnsSame(c, xs);
    DmiSame(c, candles, 14);
    ActiveSame(c, candles);
    RsiTimes(c, xs, 14);
    EmaSeqTimes(c, xs, 9);
    EmaSeqTimes(c, xs, 21);
    EmaSeqTimes(c, xs, 50);
    EmaSeqTimes(c, xs, 200);
    SmaSeqTimes(c, xs, 20);
    StdevSeqTimes(root, c, xs, 20);
    VolSame(root, c, xs, 72);
    VolSame(root, c, xs, 288);
    BinsTimes(c, xs, h1);
    BinsTimes(c, xs, h4);
    EmaSeqTimes(c, Resampled(xs, h1), 50);
    EmaSeqTimes(c, Resampled(xs, h4), 50);
  }

  // ---------------------------------------------------------------- the features

  lemma DistanceSame(c: real, x: real, e: real)
    requires c > 0.0
    ensures Ratio(By(c, x) - By(c, e), By(c, x)) == Ratio(x - e, x)
    ensures Ratio(By(c, x) - By(c, e), By(c, e)) == Ratio(x - e, e)
  {
    hide By, Ratio;
    ByMinus(c, x, e);
    ByRatio(c, x - e, x);
    ByRatio(c, x - e, e);
  }

  lemma RetSame(c: real, candles: seq<Candle>, i: nat, lag: nat)
    requires c > 0.0 && i < |candles|
    ensures Ret(Repriced(c, candles), i, lag) == Ret(candles, i, lag)
  {
    hide By, Ratio, Repriced;
    if i >= lag { DistanceSame(c, candles[i].close, candles[i - lag].close); }
  }

  lemma ShapeSame(c: real, k: Candle)
    requires c > 0.0
    ensures ShapeFeatures(Priced(c, k)) == ShapeFeatures(k)
  {
    hide By, Ratio, Max, Min;
    ByExtremes(c, k.open, k.close);
    PartSame(c, k.high, k.low, k.close);
    PartSame(c, k.close, k.open, k.close);
    PartSame(c, k.high, Max(k.open, k.close), k.close);
    PartSame(c, Min(k.open, k.close), k.low, k.close);
  }

  lemma PartSame(c: real, a: real, b: real, whole: real)
    requires c > 0.0
    ensures Ratio(By(c, a) - By(c, b), By(c, whole)) == Ratio(a - b, whole)
  {
    hide By, Ratio;
    ByMinus(c, a, b);
    ByRatio(c, a - b, whole);
  }

  lemma SlopeSame(c: real, ema: seq<real>, i: nat, lag: nat)
    requires c > 0.0 && i < |ema|
    ensures Slope(Times(c, ema), i, lag) == Slope(ema, i, lag)
  {
    hide By, Ratio, Times;
    if i >= lag { PartSame(c, ema[i], ema[i - lag], ema[i]); }
  }

  lemma BandsSame(c: real, close: real, basis: Option<real>, deviation: Option<real>)
    requires c > 0.0
    ensures BandFeatures(By(c, close), Each(c, basis), Each(c, deviation)) == BandFeatures(close, basis, deviation)
  {
    hide By, Ratio;
    if basis.Some? && deviation.Some? {
      var m, d := basis.value, deviation.value;
      PartSame(c, close, m, d);
      WidthSame(c, d, m);
    }
  }

  lemma WidthSame(c: real, d: real, m: real)
    requires c > 0.0
    ensures Ratio(4.0 * By(c, d), By(c, m)) == Ratio(4.0 * d, m)
  {
    hide Ratio;
    var w := 4.0 * d;
    assert 4.0 * By(c, d) == By(c, w);
    ByRatio(c, w, m);
  }

  lemma BinsSame(c: real, i: nat, factor: nat, bins: seq<real>, ema: seq<real>, lag: nat)
    requires c > 0.0 && factor >= 1 && |bins| == |ema|
    requires LastClosedBin(i, factor).Some? ==> LastClosedBin(i, factor).value < |bins|
    ensures BinDistance(i, factor, Times(c, bins), Times(c, ema)) == BinDistance(i, factor, bins, ema)
    ensures BinReturn(i, factor, Times(c, bins), lag) == BinReturn(i, factor, bins, lag)
  {
    hide By, Ratio, LastClosedBin, Times;
    var b := LastClosedBin(i, factor);
    if b.Some? {
      DistanceSame(c, bins[b.value], ema[b.value]);
      if b.value >= lag { DistanceSame(c, bins[b.value], bins[b.value - lag]); }
    }
  }

  lemma HigherSame(c: real, b: Builder, i: nat)
    requires c > 0.0 && Sized(b) && Sized(RepricedBuilder(c, b)) && i < |b.candles|
    ensures HigherFeatures(RepricedBuilder(c, b), i) == HigherFeatures(b, i)
  {
    hide By, LastClosedBin, BinDistance, BinReturn, Times, TimesEach, Repriced;
    if LastClosedBin(i, b.h1Factor).Some? { ClosedBinExists(i, |b.candles|, b.h1Factor); }
    if LastClosedBin(i, b.h4Factor).Some? { ClosedBinExists(i, |b.candles|, b.h4Factor); }
    BinsSame(c, i, b.h1Factor, b.h1, b.h1Ema, 24);
    BinsSame(c, i, b.h4Factor, b.h4, b.h4Ema, 24);
  }

  lemma VolatilitySame(c: real, b: Builder, i: nat)
    requires c > 0.0 && Sized(b) && Sized(RepricedBuilder(c, b)) && i < |b.candles|
    ensures VolatilityFeatures(RepricedBuilder(c, b), i) == VolatilityFeatures(b, i)
  {
    hide By, Ratio, Times, TimesEach, Repriced;
    if b.atr14[i].Some? { ByRatio(c, b.atr14[i].value, b.candles[i].close); }
  }

  lemma TrendSame(c: real, b: Builder, i: nat)
    requires c > 0.0 && Sized(b) && Sized(RepricedBuilder(c, b)) && i < |b.candles|
    ensures TrendFeatures(RepricedBuilder(c, b), i) == TrendFeatures(b, i)
  {
    hide By, Ratio, Slope, Times, TimesEach, Repriced;
    var x := b.candles[i].close;
    DistanceSame(c, x, b.ema9[i]);
    DistanceSame(c, x, b.ema21[i]);
    DistanceSame(c, x, b.ema50[i]);
    DistanceSame(c, x, b.ema200[i]);
    SlopeSame(c, b.ema50, i, 12);
    SlopeSame(c, b.ema200, i, 48);
  }

  lemma ReturnFeaturesSame(c: real, b: Builder, i: nat)
    requires c > 0.0 && i < |b.candles|
    ensures ReturnFeatures(RepricedBuilder(c, b), i) == ReturnFeatures(b, i)
  {
    hide By, Ret, Times, TimesEach, Repriced;
    RetSame(c, b.candles, i, 1);
    RetSame(c, b.candles, i, 3);
    RetSame(c, b.candles, i, 12);
    RetSame(c, b.candles, i, 36);
    RetSame(c, b.candles, i, 72);
    RetSame(c, b.candles, i, 288);
  }

  lemma FeaturesSame(c: real, b: Builder, i: nat)
    requires c > 0.0 && Sized(b) && Sized(RepricedBuilder(c, b)) && i < |b.candles|
    ensures FeaturesOf(RepricedBuilder(c, b), i) == FeaturesOf(b, i)
  {
    hide By, Ratio, ReturnFeatures, ShapeFeatures, VolatilityFeatures, TrendFeatures, HigherFeatures, BandFeatures,
      Active, Times, TimesEach, Repriced, CalendarFeatures, Each;
    ReturnFeaturesSame(c, b, i);
    ShapeSame(c, b.candles[i]);
    VolatilitySame(c, b, i);
    TrendSame(c, b, i);
    BandsSame(c, b.candles[i].close, b.sma20[i], b.stdev20[i]);
    HigherSame(c, b, i);
    ActiveSame(c, b.candles);
  }

  /** Multiplying every price by the same positive factor changes none of the 35 features of any bar. */
  lemma UnitOfPriceIsIrrelevant(root: real -> real, c: real, candles: seq<Candle>, h1: nat, h4: nat, i: int)
    requires c > 0.0 && h1 >= 1 && h4 >= 1 && Homogeneous(root, c)
    ensures Precompute(root, Repriced(c, candles), h1, h4).Some? <==> Precompute(root, candles, h1, h4).Some?
    ensures Precompute(root, candles, h1, h4).Some? ==>
              var b, r := Precompute(root, candles, h1, h4).value, Precompute(root, Repriced(c, candles), h1, h4).value;
              Sized(b) && Sized(r) && BuildAt(r, i) == BuildAt(b, i)
  {
    hide By, Precompute, Homogeneous, Sized, Divisible, FeaturesOf, Closes, AdxLine, Times, TimesEach, Repriced;
    PrecomputedIsSized(root, candles, h1, h4);
    PrecomputedIsSized(root, Repriced(c, candles), h1, h4);
    ClosesTimes(c, candles);
    ReturnsSame(c, Closes(candles));
    if Divisible(Closes(candles)) {
      AdxNeverRaises(candles, 14);
      PrecomputeRepriced(root, c, candles, h1, h4);
      SameCandles(root, candles, h1, h4);
      SameCandles(root, Repriced(c, candles), h1, h4);
      if 0 <= i < |candles| { FeaturesSame(c, Precompute(root, candles, h1, h4).value, i); }
    }
  }
}
