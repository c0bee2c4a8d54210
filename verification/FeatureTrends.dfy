/**
 How the features of apps/backtester/feature_builder.py answer to rising, falling and
 level prices, said of the candles alone.
 */
module FeatureTrends {
  import opened Prelude
  import opened Indicators
  import opened Directional
  import opened Features
  import opened FeatureLaws

  // ---------------------------------------------------------------- smoothing what is never negative

  predicate NonNegative(xs: seq<real>, n: nat) {
    n <= |xs| && forall j :: 0 <= j < n ==> xs[j] >= 0.0
  }

  predicate ZeroUpTo(xs: seq<real>, n: nat) {
    n <= |xs| && forall j :: 0 <= j < n ==> xs[j] == 0.0
  }

  lemma {:induction false} SumZeroIff(xs: seq<real>, n: nat)
    requires NonNegative(xs, n)
    ensures Sum(xs, 0, n) >= 0.0 && (Sum(xs, 0, n) == 0.0 <==> ZeroUpTo(xs, n))
  {
    if n > 0 { SumZeroIff(xs, n - 1); }
  }

  lemma MixZeroIff(prev: real, x: real, length: nat)
    requires length >= 2 && prev >= 0.0 && x >= 0.0
    ensures Smoothed(prev, x, length) >= 0.0 && (Smoothed(prev, x, length) == 0.0 <==> prev == 0.0 && x == 0.0)
  {
    var n := length as real;
    var q := Smoothed(prev, x, length);
    assert q * n == prev * n + (x - prev) == prev * (n - 1.0) + x;
    if prev > 0.0 { Products(prev, n - 1.0); }
    if q < 0.0 { Products(-q, n); }
    if q == 0.0 { assert q * n == 0.0; }
    if prev == 0.0 && x == 0.0 { Cancel(q, 0.0, n); }
  }

  lemma Products(a: real, b: real)
    requires a > 0.0 && b > 0.0
    ensures a * b > 0.0
  {
  }

  /** What is never negative smooths to zero exactly when it has been zero all along. */
  lemma {:induction false} RmaZeroIff(xs: seq<real>, length: nat, i: nat)
    requires 2 <= length <= i + 1 <= |xs| && NonNegative(xs, i + 1)
    ensures RmaAt(xs, length, i) >= 0.0 && (RmaAt(xs, length, i) == 0.0 <==> ZeroUpTo(xs, i + 1))
    decreases i
  {
    hide Sum, Smoothed;
    if i == length - 1 {
      SumZeroIff(xs, length);
      var q, n := MeanAt(xs, length, i), length as real;
      assert q * n == Sum(xs, 0, length);
      if q < 0.0 { Products(-q, n); }
      if q > 0.0 { Products(q, n); }
    } else {
      RmaZeroIff(xs, length, i - 1);
      MixZeroIff(RmaAt(xs, length, i - 1), xs[i], length);
    }
  }

  lemma RmaConstant(xs: seq<real>, length: nat, i: nat, x: real)
    requires 1 <= length <= i + 1 <= |xs| && forall j :: 0 <= j <= i ==> xs[j] == x
    ensures RmaAt(xs, length, i) == x
  {
    hide RmaAt;
    RmaAtPrefix(xs, length, i + 1, i);
    RmaWithin(xs[..i + 1], length, i, x, x);
  }

  // ---------------------------------------------------------------- relative strength

  predicate Rises(candles: seq<Candle>, j: nat)
    requires 1 <= j < |candles|
  {
    candles[j].close > candles[j - 1].close
  }

  predicate Falls(candles: seq<Candle>, j: nat)
    requires 1 <= j < |candles|
  {
    candles[j].close < candles[j - 1].close
  }

  /** Some close up to the bar is above the one before it; and below. */
  predicate Rose(candles: seq<Candle>, i: nat)
    requires i < |candles|
  {
    exists j :: 1 <= j <= i && Rises(candles, j)
  }

  predicate Fell(candles: seq<Candle>, i: nat)
    requires i < |candles|
  {
    exists j :: 1 <= j <= i && Falls(candles, j)
  }

  lemma GainSigns(candles: seq<Candle>, j: nat)
    requires 1 <= j < |candles|
    ensures var xs := Closes(candles);
            && |Gains(xs)| + 1 == |xs| == |Losses(xs)| + 1
            && (Gains(xs)[j - 1] == 0.0 <==> !Rises(candles, j))
            && (Losses(xs)[j - 1] == 0.0 <==> !Falls(candles, j))
  {
  }

  lemma GainsZeroIff(candles: seq<Candle>, i: nat)
    requires 14 <= i < |candles|
    ensures var xs := Closes(candles);
            && |Gains(xs)| + 1 == |xs| == |Losses(xs)| + 1
            && RmaAt(Gains(xs), 14, i - 1) >= 0.0 && (RmaAt(Gains(xs), 14, i - 1) == 0.0 <==> !Rose(candles, i))
            && RmaAt(Losses(xs), 14, i - 1) >= 0.0 && (RmaAt(Losses(xs), 14, i - 1) == 0.0 <==> !Fell(candles, i))
  {
    hide RmaAt, Gains, Losses, Rises, Falls, Rose, Fell, ZeroUpTo, Closes;
    var xs := Closes(candles);
    var ups, downs := Gains(xs), Losses(xs);
    NoGainNegative(xs);
    forall j | 1 <= j <= i
      ensures (ups[j - 1] == 0.0 <==> !Rises(candles, j)) && (downs[j - 1] == 0.0 <==> !Falls(candles, j))
    {
      GainSigns(candles, j);
    }
    RmaZeroIff(ups, 14, i - 1);
    RmaZeroIff(downs, 14, i - 1);
    RisesSeen(candles, i, ups);
    FallsSeen(candles, i, downs);
  }

  lemma NoGainNegative(xs: seq<real>)
    requires xs != []
    ensures |Gains(xs)| + 1 == |xs| == |Losses(xs)| + 1
    ensures NonNegative(Gains(xs), |xs| - 1) && NonNegative(Losses(xs), |xs| - 1)
  {
  }

  lemma RisesSeen(candles: seq<Candle>, i: nat, ups: seq<real>)
    requires i < |candles| && i <= |ups|
    requires forall j :: 1 <= j <= i ==> (ups[j - 1] == 0.0 <==> !Rises(candles, j))
    ensures ZeroUpTo(ups, i) <==> !Rose(candles, i)
  {
    hide Rises;
    if !Rose(candles, i) {
      forall k | 0 <= k < i ensures ups[k] == 0.0 { assert !Rises(candles, k + 1); }
    }
  }

  lemma FallsSeen(candles: seq<Candle>, i: nat, downs: seq<real>)
    requires i < |candles| && i <= |downs|
    requires forall j :: 1 <= j <= i ==> (downs[j - 1] == 0.0 <==> !Falls(candles, j))
    ensures ZeroUpTo(downs, i) <==> !Fell(candles, i)
  {
    hide Falls;
    if !Fell(candles, i) {
      forall k | 0 <= k < i ensures downs[k] == 0.0 { assert !Falls(candles, k + 1); }
    }
  }

  lemma ShareExtremes(q: real, up: real, down: real)
    requires up >= 0.0 && down >= 0.0 && Share100(q, up, down)
    ensures (q == 100.0 <==> up > 0.0 && down == 0.0) && (q == 0.0 <==> up == 0.0 && down > 0.0)
    ensures up == down ==> q == 50.0
  {
    var s := up + down;
    if s > 0.0 {
      if down == 0.0 { Cancel(q, 100.0, s); }
      if up == 0.0 { Cancel(q, 0.0, s); }
      if up == down { Cancel(q, 50.0, s); }
      if q == 100.0 { assert s * q == 100.0 * up + 100.0 * down; }
    }
  }

  /** The strength is 100 exactly when closes have risen and never fallen, 0 exactly when they have
      fallen and never risen, and 50 when they have done neither. */
  lemma StrengthExtremes(root: real -> real, candles: seq<Candle>, h1: nat, h4: nat, i: nat, v: seq<real>)
    requires Gives(root, candles, h1, h4, i, v)
    ensures |v| == 35 && i < |candles|
    ensures v[19] == 100.0 <==> Rose(candles, i) && !Fell(candles, i)
    ensures v[19] == 0.0 <==> Fell(candles, i) && !Rose(candles, i)
    ensures !Rose(candles, i) && !Fell(candles, i) ==> v[19] == 50.0
  {
    hide Precompute, BuildAt, Sized, RmaAt, Gains, Losses, Share100, Rose, Fell;
    StrengthMean(root, candles, h1, h4, i, v);
    GainsZeroIff(candles, i);
    var xs := Closes(candles);
    ShareExtremes(v[19], RmaAt(Gains(xs), 14, i - 1), RmaAt(Losses(xs), 14, i - 1));
  }

  // ---------------------------------------------------------------- directional movement

  /** A bar that reaches above the last by more than it reaches below it; and the other way. */
  predicate MovesUp(candles: seq<Candle>, j: nat)
    requires 1 <= j < |candles|
  {
    var up, down := candles[j].high - candles[j - 1].high, candles[j - 1].low - candles[j].low;
    up > 0.0 && up > down
  }

  predicate MovesDown(candles: seq<Candle>, j: nat)
    requires 1 <= j < |candles|
  {
    var up, down := candles[j].high - candles[j - 1].high, candles[j - 1].low - candles[j].low;
    down > 0.0 && down > up
  }

  predicate MovedUp(candles: seq<Candle>, i: nat)
    requires i < |candles|
  {
    exists j :: 1 <= j <= i && MovesUp(candles, j)
  }

  predicate MovedDown(candles: seq<Candle>, i: nat)
    requires i < |candles|
  {
    exists j :: 1 <= j <= i && MovesDown(candles, j)
  }

  lemma MoveSigns(candles: seq<Candle>, j: nat)
    requires 1 <= j < |candles|
    ensures PlusMove(candles, j) == 0.0 <==> !MovesUp(candles, j)
    ensures MinusMove(candles, j) == 0.0 <==> !MovesDown(candles, j)
  {
  }

  lemma MovementsZeroIff(candles: seq<Candle>, i: nat)
    requires 14 <= i < |candles|
    ensures UpAt(candles, i) >= 0.0 && (UpAt(candles, i) == 0.0 <==> !MovedUp(candles, i))
    ensures DownAt(candles, i) >= 0.0 && (DownAt(candles, i) == 0.0 <==> !MovedDown(candles, i))
  {
    hide RmaAt, PlusMove, MinusMove, MovesUp, MovesDown;
    var ups, downs := PlusMoves(candles), MinusMoves(candles);
    RmaZeroIff(ups, 14, i - 1);
    RmaZeroIff(downs, 14, i - 1);
    forall j | 1 <= j <= i
      ensures (ups[j - 1] == 0.0 <==> !MovesUp(candles, j)) && (downs[j - 1] == 0.0 <==> !MovesDown(candles, j))
    {
      MoveSigns(candles, j);
    }
    UpsSeen(candles, i, ups);
    DownsSeen(candles, i, downs);
  }

  lemma UpsSeen(candles: seq<Candle>, i: nat, ups: seq<real>)
    requires i < |candles| && i <= |ups|
    requires forall j :: 1 <= j <= i ==> (ups[j - 1] == 0.0 <==> !MovesUp(candles, j))
    ensures ZeroUpTo(ups, i) <==> !MovedUp(candles, i)
  {
    hide MovesUp;
    if !MovedUp(candles, i) {
      forall k | 0 <= k < i ensures ups[k] == 0.0 { assert !MovesUp(candles, k + 1); }
    }
  }

  lemma DownsSeen(candles: seq<Candle>, i: nat, downs: seq<real>)
    requires i < |candles| && i <= |downs|
    requires forall j :: 1 <= j <= i ==> (downs[j - 1] == 0.0 <==> !MovesDown(candles, j))
    ensures ZeroUpTo(downs, i) <==> !MovedDown(candles, i)
  {
    hide MovesDown;
    if !MovedDown(candles, i) {
      forall k | 0 <= k < i ensures downs[k] == 0.0 { assert !MovesDown(candles, k + 1); }
    }
  }

  lemma PercentSign(q: real, range: real, part: real)
    requires range > 0.0 && part >= 0.0 && q * range == 100.0 * part
    ensures q >= 0.0 && (q == 0.0 <==> part == 0.0)
  {
    if q < 0.0 { Products(-q, range); }
    if part == 0.0 { Cancel(q, 0.0, range); }
  }

  lemma OneSided(d: real, up: real, down: real)
    requires up >= 0.0 && down >= 0.0 && Imbalance(d, up, down) && (up == 0.0 || down == 0.0) && up + down > 0.0
    ensures d == 100.0
  {
    Cancel(d, 100.0, up + down);
  }

  /** Each indicator is zero exactly when no bar has moved its way, and positive otherwise; when every bar has
      moved one way only, the average of the imbalance is 100. */
  lemma DirectionSigns(root: real -> real, candles: seq<Candle>, h1: nat, h4: nat, i: nat, v: seq<real>)
    requires Gives(root, candles, h1, h4, i, v)
    ensures |v| == 35 && i < |candles| && v[20] >= 0.0 && v[21] >= 0.0
    ensures v[20] == 0.0 <==> !MovedUp(candles, i)
    ensures v[21] == 0.0 <==> !MovedDown(candles, i)
    ensures (forall j :: 1 <= j <= i ==> MovesUp(candles, j)) ==> v[20] > 0.0 && v[21] == 0.0 && v[22] == 100.0
    ensures (forall j :: 1 <= j <= i ==> MovesDown(candles, j)) ==> v[21] > 0.0 && v[20] == 0.0 && v[22] == 100.0
  {
    hide Precompute, BuildAt, Sized, RmaAt, RangeAt, UpAt, DownAt, Imbalance, MovedUp, MovedDown;
    var start, dxs := DirectionMean(root, candles, h1, h4, i, v);
    MovementsZeroIff(candles, i);
    PercentSign(v[20], RangeAt(candles, i), UpAt(candles, i));
    PercentSign(v[21], RangeAt(candles, i), DownAt(candles, i));
    if forall j :: 1 <= j <= i ==> MovesUp(candles, j) {
      assert MovedUp(candles, i) && !MovedDown(candles, i) by { AllUp(candles, i); }
      forall k | 0 <= k <= i - start ensures dxs[k] == 100.0 {
        AllUp(candles, start + k);
        MovementsZeroIff(candles, start + k);
        OneSided(dxs[k], UpAt(candles, start + k), DownAt(candles, start + k));
      }
      RmaConstant(dxs, 14, i - start, 100.0);
    }
    if forall j :: 1 <= j <= i ==> MovesDown(candles, j) {
      assert MovedDown(candles, i) && !MovedUp(candles, i) by { AllDown(candles, i); }
      forall k | 0 <= k <= i - start ensures dxs[k] == 100.0 {
        AllDown(candles, start + k);
        MovementsZeroIff(candles, start + k);
        OneSided(dxs[k], UpAt(candles, start + k), DownAt(candles, start + k));
      }
      RmaConstant(dxs, 14, i - start, 100.0);
    }
  }

  lemma AllUp(candles: seq<Candle>, i: nat)
    requires 1 <= i < |candles| && forall j :: 1 <= j <= i ==> MovesUp(candles, j)
    ensures MovedUp(candles, i) && !MovedDown(candles, i)
  {
    assert MovesUp(candles, i);
    forall j | 1 <= j <= i ensures !MovesDown(candles, j) { assert MovesUp(candles, j); }
  }

  lemma AllDown(candles: seq<Candle>, i: nat)
    requires 1 <= i < |candles| && forall j :: 1 <= j <= i ==> MovesDown(candles, j)
    ensures MovedDown(candles, i) && !MovedUp(candles, i)
  {
    assert MovesDown(candles, i);
    forall j | 1 <= j <= i ensures !MovesUp(candles, j) { assert MovesDown(candles, j); }
  }

  // ---------------------------------------------------------------- level prices

  predicate Level(xs: seq<real>, n: nat, p: real) {
    n <= |xs| && forall j :: 0 <= j < n ==> xs[j] == p
  }

  lemma {:induction false} EmaLevel(xs: seq<real>, length: nat, i: nat, p: real)
    requires i < |xs| && Level(xs, i + 1, p)
    ensures EmaAt(xs, length, i) == p
  {
    if i > 0 {
      EmaLevel(xs, length, i - 1, p);
      var alpha := 2.0 / (length + 1) as real;
      assert alpha * p + (1.0 - alpha) * p == p;
    }
  }

  lemma {:induction false} SumLevel(xs: seq<real>, lo: nat, hi: nat, p: real)
    requires lo <= hi <= |xs| && Level(xs, hi, p)
    ensures Sum(xs, lo, hi) == p * (hi - lo) as real && Spread(xs, lo, hi, p) == 0.0
  {
    if lo < hi {
      SumLevel(xs, lo, hi - 1, p);
      OneMore(p, hi - 1 - lo);
    }
  }

  lemma DeviationLevel(root: real -> real, xs: seq<real>, length: nat, i: nat, p: real)
    requires 1 <= length <= i + 1 <= |xs| && Level(xs, i + 1, p)
    ensures MeanAt(xs, length, i) == p && DeviationAt(root, xs, length, i) == root(0.0)
  {
    SumLevel(xs, i - length + 1, i + 1, p);
    var n := length as real;
    Cancel(MeanAt(xs, length, i), p, n);
  }

  lemma SlopeLevel(xs: seq<real>, length: nat, i: nat, lag: nat, p: real)
    requires lag <= i < |xs| && Level(xs, i + 1, p) && p != 0.0
    ensures Slope(EmaSeq(xs, length), i, lag) == Some(0.0) && Ratio(p - EmaSeq(xs, length)[i], p) == Some(0.0)
  {
    hide EmaAt;
    EmaLevel(xs, length, i, p);
    EmaLevel(xs, length, i - lag, p);
  }

  lemma BandsLevel(root: real -> real, xs: seq<real>, i: nat, p: real)
    requires 19 <= i < |xs| && Level(xs, i + 1, p) && root(0.0) == 0.0
    ensures BandFeatures(p, SmaSeq(xs, 20)[i], StdevSeq(root, xs, 20)[i])[0] == None
  {
    hide MeanAt, DeviationAt;
    DeviationLevel(root, xs, 20, i, p);
  }

  /** While the close has stayed level, every return, every distance from an average and both slopes are zero;
      and, the deviation being zero, the bar has no features at all. */
  lemma LevelPrices(root: real -> real, candles: seq<Candle>, h1: nat, h4: nat, i: nat, b: Builder, p: real)
    requires h1 >= 1 && h4 >= 1 && Precompute(root, candles, h1, h4) == Some(b) && Sized(b) && b.candles == candles
    requires 288 <= i < |candles| && p != 0.0 && forall j :: 0 <= j <= i ==> candles[j].close == p
    ensures |FeaturesOf(b, i)| == 35
    ensures forall k :: 0 <= k <= 5 || 13 <= k <= 18 ==> FeaturesOf(b, i)[k] == Some(0.0)
    ensures root(0.0) == 0.0 ==> BuildAt(b, i) == Incomplete
  {
    hide FeaturesOf, Precompute, BuildAt, EmaSeq, Slope, StdevSeq, SmaSeq, Ratio, BandFeatures;
    var xs, f := Closes(candles), FeaturesOf(b, i);
    assert Level(xs, i + 1, p);
    Positions(b, i);
    Averages(root, candles, h1, h4, b);
    Windows(root, candles, h1, h4, b);
    SlopeLevel(xs, 9, i, 0, p);
    SlopeLevel(xs, 21, i, 0, p);
    SlopeLevel(xs, 50, i, 12, p);
    SlopeLevel(xs, 200, i, 48, p);
    NoReturn(p);
    assert forall k :: 13 <= k <= 18 ==> f[k] == f[13..19][k - 13];
    if root(0.0) == 0.0 {
      BandsLevel(root, xs, i, p);
      BandsSized(p, b.sma20[i], b.stdev20[i]);
      assert f[23] == f[23..25][0];
      NoneSpoils(b, i, 23);
    }
  }

  lemma NoReturn(p: real)
    requires p != 0.0
    ensures Ratio(p - p, p) == Some(0.0)
  {
  }

  lemma BandsSized(close: real, basis: Option<real>, deviation: Option<real>)
    ensures |BandFeatures(close, basis, deviation)| == 2
  {
  }

  lemma NoneSpoils(b: Builder, i: nat, k: nat)
    requires Sized(b) && i < |b.candles| && k < |FeaturesOf(b, i)| && FeaturesOf(b, i)[k] == None
    ensures BuildAt(b, i) == Incomplete
  {
    hide FeaturesOf;
  }
}
