/**
 `FeatureBuilder` of apps/backtester/feature_builder.py: the series it computes once
 over all candles, the 35 features of a bar, and that no feature looks ahead.
 */
module Features {
  import opened Prelude
  import opened Indicators
  import opened Directional

  // ---------------------------------------------------------------- higher timeframes

  /** `_last_closed_bin`. */
  function LastClosedBin(i: nat, factor: nat): (b: Option<nat>)
    requires factor >= 1
  {
    var bin := i / factor;
    var closed := if i % factor == factor - 1 then bin else bin - 1;
    if closed >= 0 then Some(closed) else None
  }

  /** It is the last bin whose last bar is at or before `i`; there is none before the first bin ends. */
  lemma LastClosedBinIsLast(i: nat, factor: nat)
    requires factor >= 1
    ensures LastClosedBin(i, factor).None? <==> i < factor - 1
    ensures forall b: nat :: BinEnd(b, factor) <= i <==>
              LastClosedBin(i, factor).Some? && b <= LastClosedBin(i, factor).value
  {
    var q, r := i / factor, i % factor;
    assert i == q * factor + r;
    forall b: nat
      ensures BinEnd(b, factor) <= i <==> LastClosedBin(i, factor).Some? && b <= LastClosedBin(i, factor).value
    {
      if b < q { Bins(b, q, factor); }
      if b > q { Bins(q, b, factor); }
    }
    if q == 0 { assert i == r; } else { Bins(0, q, factor); }
  }

  /** The last bar of a bin. */
  function BinEnd(b: nat, factor: nat): (i: int) {
    b * factor + factor - 1
  }

  lemma Bins(a: nat, b: nat, factor: nat)
    requires a < b
    ensures a * factor + factor <= b * factor
  {
    assert (b - a) * factor >= factor by { Grow(b - a, factor); }
    assert b * factor == a * factor + (b - a) * factor;
  }

  lemma Grow(n: nat, factor: nat)
    requires n >= 1
    ensures n * factor >= factor
  {
  }

  /** The closes of the full bins. */
  function Resampled(closes: seq<real>, factor: nat): (r: seq<real>)
    requires factor >= 1
    ensures |r| == |closes| / factor
  {
    seq(|closes| / factor, b requires 0 <= b < |closes| / factor => BinInside(b, |closes|, factor);
      closes[BinEnd(b, factor)])
  }

  lemma BinInside(b: nat, n: nat, factor: nat)
    requires factor >= 1 && b < n / factor
    ensures 0 <= BinEnd(b, factor) < n
  {
    assert n == n / factor * factor + n % factor;
    Bins(b, n / factor, factor);
  }

  /** A bar's last closed bin is always among the resampled ones. */
  lemma ClosedBinExists(i: nat, n: nat, factor: nat)
    requires factor >= 1 && i < n && LastClosedBin(i, factor).Some?
    ensures LastClosedBin(i, factor).value < n / factor
  {
    var b := LastClosedBin(i, factor).value;
    LastClosedBinIsLast(i, factor);
    assert BinEnd(b, factor) <= i;
    assert n == n / factor * factor + n % factor;
    if b >= n / factor {
      if b > n / factor { Bins(n / factor, b, factor); }
    }
  }

  /** `resample_closes`. */
  method Resample(closes: seq<real>, factor: nat) returns (out: seq<real>)
    requires factor >= 1
    ensures out == Resampled(closes, factor)
  {
    out := [];
    var start, n := 0, |closes|;
    while start < n - factor + 1
      invariant start == |out| * factor && |out| <= n / factor
      invariant forall b :: 0 <= b < |out| ==> out[b] == Resampled(closes, factor)[b]
    {
      AnotherBin(|out|, n, factor);
      out := out + [closes[start + factor - 1]];
      start := start + factor;
    }
    LastBin(|out|, n, factor);
  }

  lemma AnotherBin(b: nat, n: nat, factor: nat)
    requires factor >= 1 && b * factor + factor <= n
    ensures b + 1 <= n / factor && (b + 1) * factor == b * factor + factor
  {
    var q: nat := n / factor;
    assert n == q * factor + n % factor;
    if q < b { Bins(q, b, factor); }
  }

  lemma LastBin(b: nat, n: nat, factor: nat)
    requires factor >= 1 && b <= n / factor && b * factor + factor > n
    ensures b == n / factor
  {
    assert n == n / factor * factor + n % factor;
    if b < n / factor { Bins(b, n / factor, factor); }
  }

  lemma ResampledPrefix(closes: seq<real>, factor: nat, k: nat)
    requires factor >= 1 && k <= |closes|
    ensures k / factor <= |closes| / factor
    ensures Resampled(closes[..k], factor) == Resampled(closes, factor)[..k / factor]
  {
    FewerBins(k, |closes|, factor);
    forall b: nat | b < k / factor ensures Resampled(closes[..k], factor)[b] == Resampled(closes, factor)[b] {
      BinInside(b, k, factor);
    }
  }

  lemma FewerBins(k: nat, n: nat, factor: nat)
    requires factor >= 1 && k <= n
    ensures k / factor <= n / factor
  {
    assert k == k / factor * factor + k % factor && n == n / factor * factor + n % factor;
    if n / factor < k / factor { Bins(n / factor, k / factor, factor); }
  }

  // ---------------------------------------------------------------- the builder

  /** Everything `__init__` computes. */
  datatype Builder = Builder(
    candles: seq<Candle>, h1Factor: nat, h4Factor: nat,
    ema9: seq<real>, ema21: seq<real>, ema50: seq<real>, ema200: seq<real>,
    atr14: Series, rsi14: Series, plusDi: Series, minusDi: Series, adx14: Series, sma20: Series, stdev20: Series,
    vol72: Series, vol288: Series, activeRate: Series,
    h1: seq<real>, h1Ema: seq<real>, h4: seq<real>, h4Ema: seq<real>)

  function Closes(candles: seq<Candle>): (r: seq<real>)
    ensures |r| == |candles|
  {
    seq(|candles|, i requires 0 <= i < |candles| => candles[i].close)
  }

  function Active(c: Candle): (r: real) {
    if c.high != c.low then 1.0 else 0.0
  }

  function ActiveBars(candles: seq<Candle>): (r: seq<real>)
    ensures |r| == |candles|
  {
    seq(|candles|, i requires 0 <= i < |candles| => Active(candles[i]))
  }

  function AtrSeq(candles: seq<Candle>, length: nat): (r: Series)
    requires length >= 1
    ensures |r| == |candles|
  {
    seq(|candles|, i requires 0 <= i < |candles| => SmoothAt(Ranges(candles), length, i))
  }

  /** No close but the last may be zero: each of the others divides a return. */
  predicate Divisible(closes: seq<real>) {
    forall i :: 0 <= i < |closes| - 1 ==> closes[i] != 0.0
  }

  function Return1(closes: seq<real>, i: nat): (r: real)
    requires 1 <= i < |closes| && closes[i - 1] != 0.0
  {
    (closes[i] - closes[i - 1]) / closes[i - 1]
  }

  /** The one-bar returns, undefined at the first bar. */
  function Returns1(closes: seq<real>): (r: Series)
    requires Divisible(closes)
  {
    if closes == [] then [None]
    else Later(seq(|closes| - 1, i requires 0 <= i < |closes| - 1 => Return1(closes, i + 1)))
  }

  function ByStdev(root: real -> real): (f: Filter) {
    (xs: seq<real>, length: nat) => if length == 0 then Gap(|xs|) else StdevSeq(root, xs, length)
  }

  lemma StdevIsCausal(root: real -> real, length: nat)
    requires length >= 1
    ensures Causal(ByStdev(root), length)
  {
    forall xs: seq<real>, k | 0 <= k <= |xs| ensures ByStdev(root)(xs[..k], length) == ByStdev(root)(xs, length)[..k] {
      StdevPrefix(root, xs, length, k);
    }
  }

  /** The rolling deviation of the returns. */
  function VolSeq(root: real -> real, closes: seq<real>, length: nat): (r: Series)
    requires Divisible(closes) && length >= 1
    ensures closes != [] ==> |r| == |closes|
  {
    VolDefined(root, closes, length);
    Align(Returns1(closes), length, ByStdev(root)).value
  }

  lemma VolDefined(root: real -> real, closes: seq<real>, length: nat)
    requires Divisible(closes) && length >= 1
    ensures Align(Returns1(closes), length, ByStdev(root)).Some?
    ensures closes != [] ==> |Align(Returns1(closes), length, ByStdev(root)).value| == |closes|
  {
    StdevIsCausal(root, length);
    if closes == [] {
      assert Returns1(closes) == Later([]);
      AlignLater([], length, ByStdev(root));
    } else {
      var rs := seq(|closes| - 1, i requires 0 <= i < |closes| - 1 => Return1(closes, i + 1));
      assert Returns1(closes) == Later(rs);
      AlignLater(rs, length, ByStdev(root));
    }
  }

  /** `FeatureBuilder(candles)`; `None` where it raises. */
  function Precompute(root: real -> real, candles: seq<Candle>, h1: nat, h4: nat): (b: Option<Builder>)
    requires h1 >= 1 && h4 >= 1
  {
    var closes := Closes(candles);
    if AdxLine(candles, 14).None? || !Divisible(closes) then None
    else
      var c1, c4 := Resampled(closes, h1), Resampled(closes, h4);
      Some(Builder(candles, h1, h4,
                   EmaSeq(closes, 9), EmaSeq(closes, 21), EmaSeq(closes, 50), EmaSeq(closes, 200),
                   AtrSeq(candles, 14), RsiSeq(closes, 14),
                   PlusLine(candles, 14), MinusLine(candles, 14), AdxLine(candles, 14).value,
                   SmaSeq(closes, 20), StdevSeq(root, closes, 20),
                   VolSeq(root, closes, 72), VolSeq(root, closes, 288), SmaSeq(ActiveBars(candles), 288),
                   c1, EmaSeq(c1, 50), c4, EmaSeq(c4, 50)))
  }

  /** Series as long as the candles, bins as many as are full. */
  predicate Sized(b: Builder) {
    var n := |b.candles|;
    && b.h1Factor >= 1 && b.h4Factor >= 1
    && |b.ema9| == |b.ema21| == |b.ema50| == |b.ema200| == n
    && |b.atr14| == |b.rsi14| == |b.plusDi| == |b.minusDi| == |b.adx14| == |b.sma20| == |b.stdev20| == n
    && |b.activeRate| == n && (n > 0 ==> |b.vol72| == |b.vol288| == n)
    && |b.h1| == |b.h1Ema| == n / b.h1Factor && |b.h4| == |b.h4Ema| == n / b.h4Factor
  }

  lemma PrecomputedIsSized(root: real -> real, candles: seq<Candle>, h1: nat, h4: nat)
    requires h1 >= 1 && h4 >= 1
    ensures Precompute(root, candles, h1, h4).Some? <==> Divisible(Closes(candles))
    ensures Divisible(Closes(candles)) ==> Sized(Precompute(root, candles, h1, h4).value)
  {
    hide AdxLine, Divisible, EmaAt, VolSeq;
    AdxNeverRaises(candles, 14);
    if Divisible(Closes(candles)) {
      VolSized(root, Closes(candles), 72);
      VolSized(root, Closes(candles), 288);
    }
  }

  lemma VolSized(root: real -> real, closes: seq<real>, length: nat)
    requires Divisible(closes) && length >= 1
    ensures closes != [] ==> |VolSeq(root, closes, length)| == |closes|
  {
  }

  // ---------------------------------------------------------------- features of a bar

  function Ratio(a: real, b: real): (r: Option<real>) {
    if b == 0.0 then None else Some(a / b)
  }

  function Ret(candles: seq<Candle>, i: nat, lag: nat): (r: Option<real>)
    requires i < |candles|
  {
    if i < lag then None else Ratio(candles[i].close - candles[i - lag].close, candles[i - lag].close)
  }

  function ReturnFeatures(b: Builder, i: nat): (r: Series)
    requires i < |b.candles|
  {
    var cs := b.candles;
    [Ret(cs, i, 1), Ret(cs, i, 3), Ret(cs, i, 12), Ret(cs, i, 36), Ret(cs, i, 72), Ret(cs, i, 288)]
  }

  function ShapeFeatures(c: Candle): (r: Series) {
    [Ratio(c.high - c.low, c.close), Ratio(c.close - c.open, c.close),
     Ratio(c.high - Max(c.open, c.close), c.close), Ratio(Min(c.open, c.close) - c.low, c.close)]
  }

  function VolatilityFeatures(b: Builder, i: nat): (r: Series)
    requires Sized(b) && i < |b.candles|
  {
    [if b.atr14[i].None? then None else Ratio(b.atr14[i].value, b.candles[i].close), b.vol72[i], b.vol288[i]]
  }

  function Slope(ema: seq<real>, i: nat, lag: nat): (r: Option<real>)
    requires i < |ema|
  {
    if i < lag then None else Ratio(ema[i] - ema[i - lag], ema[i])
  }

  function TrendFeatures(b: Builder, i: nat): (r: Series)
    requires Sized(b) && i < |b.candles|
  {
    var c := b.candles[i].close;
    [Ratio(c - b.ema9[i], c), Ratio(c - b.ema21[i], c), Ratio(c - b.ema50[i], c), Slope(b.ema50, i, 12),
     Ratio(c - b.ema200[i], c), Slope(b.ema200, i, 48)]
  }

  function BandFeatures(close: real, basis: Option<real>, deviation: Option<real>): (r: Series) {
    if basis.None? || deviation.None? then [None, None]
    else [Ratio(close - basis.value, deviation.value), Ratio(4.0 * deviation.value, basis.value)]
  }

  /** The distance of the last closed bin from its average. */
  function BinDistance(i: nat, factor: nat, closes: seq<real>, ema: seq<real>): (r: Option<real>)
    requires factor >= 1 && |closes| == |ema|
  {
    var b := LastClosedBin(i, factor);
    if b.None? || b.value >= |closes| then None else Ratio(closes[b.value] - ema[b.value], closes[b.value])
  }

  function BinReturn(i: nat, factor: nat, closes: seq<real>, lag: nat): (r: Option<real>)
    requires factor >= 1 && (LastClosedBin(i, factor).Some? ==> LastClosedBin(i, factor).value < |closes|)
  {
    var b := LastClosedBin(i, factor);
    if b.None? || b.value < lag then None else Ratio(closes[b.value] - closes[b.value - lag], closes[b.value - lag])
  }

  function HigherFeatures(b: Builder, i: nat): (r: Series)
    requires Sized(b) && i < |b.candles|
  {
    [BinDistance(i, b.h1Factor, b.h1, b.h1Ema),
     if LastClosedBin(i, b.h1Factor).None? then None
     else ClosedBinExists(i, |b.candles|, b.h1Factor); BinReturn(i, b.h1Factor, b.h1, 24),
     BinDistance(i, b.h4Factor, b.h4, b.h4Ema)]
  }

  function Session(hour: int): (s: int) {
    if hour < 7 then 0 else if hour < 13 then 1 else if hour < 20 then 2 else 3
  }

  function CalendarFeatures(t: Stamp): (r: Series) {
    [Some(t.hour as real), Some(t.weekday as real), Some(t.month as real),
     Some((t.hour * 60 + t.minute) as real), Some(Session(t.hour) as real)]
  }

  /** All 35, in the model's order. */
  function FeaturesOf(b: Builder, i: nat): (r: Series)
    requires Sized(b) && i < |b.candles|
  {
    ReturnFeatures(b, i) + ShapeFeatures(b.candles[i]) + VolatilityFeatures(b, i) + TrendFeatures(b, i)
    + [b.rsi14[i], b.plusDi[i], b.minusDi[i], b.adx14[i]]
    + BandFeatures(b.candles[i].close, b.sma20[i], b.stdev20[i])
    + [Some(Active(b.candles[i])), b.activeRate[i]]
    + HigherFeatures(b, i) + CalendarFeatures(b.candles[i].time)
  }

  datatype Built = IndexError | Incomplete | Features(values: seq<real>)

  /** `build_at`. */
  function BuildAt(b: Builder, i: int): (r: Built)
    requires Sized(b)
  {
    if i < 0 || i >= |b.candles| then IndexError
    else if !AllSome(FeaturesOf(b, i)) then Incomplete
    else Features(Clean(FeaturesOf(b, i)))
  }

  // ---------------------------------------------------------------- no lookahead

  /** Every series of `b` begins that of `c`. */
  ghost predicate Begins(b: Builder, c: Builder, k: nat)
    requires Sized(b) && Sized(c) && 1 <= k <= |c.candles| && |b.candles| == k
  {
    && b.candles == c.candles[..k] && b.h1Factor == c.h1Factor && b.h4Factor == c.h4Factor
    && b.ema9 == c.ema9[..k] && b.ema21 == c.ema21[..k] && b.ema50 == c.ema50[..k] && b.ema200 == c.ema200[..k]
    && b.atr14 == c.atr14[..k] && b.rsi14 == c.rsi14[..k]
    && b.plusDi == c.plusDi[..k] && b.minusDi == c.minusDi[..k] && b.adx14 == c.adx14[..k]
    && b.sma20 == c.sma20[..k] && b.stdev20 == c.stdev20[..k]
    && b.vol72 == c.vol72[..k] && b.vol288 == c.vol288[..k] && b.activeRate == c.activeRate[..k]
    && b.h1 <= c.h1 && b.h1Ema <= c.h1Ema && b.h4 <= c.h4 && b.h4Ema <= c.h4Ema
  }

  lemma BuildAtSame(b: Builder, c: Builder, k: nat, i: nat)
    requires Sized(b) && Sized(c) && i < k <= |c.candles| && |b.candles| == k && Begins(b, c, k)
    ensures BuildAt(b, i) == BuildAt(c, i)
  {
    hide Ratio;
    assert b.candles[i] == c.candles[i];
    assert ReturnFeatures(b, i) == ReturnFeatures(c, i);
    assert VolatilityFeatures(b, i) == VolatilityFeatures(c, i);
    assert TrendFeatures(b, i) == TrendFeatures(c, i);
    HigherSame(b, c, k, i);
  }

  lemma HigherSame(b: Builder, c: Builder, k: nat, i: nat)
    requires Sized(b) && Sized(c) && i < k <= |c.candles| && |b.candles| == k && Begins(b, c, k)
    ensures HigherFeatures(b, i) == HigherFeatures(c, i)
  {
    hide Ratio, LastClosedBin;
    if LastClosedBin(i, b.h1Factor).Some? {
      ClosedBinExists(i, k, b.h1Factor);
      ClosedBinExists(i, |c.candles|, b.h1Factor);
    }
    if LastClosedBin(i, b.h4Factor).Some? { ClosedBinExists(i, k, b.h4Factor); }
  }

  lemma ClosesPrefix(candles: seq<Candle>, k: nat)
    requires k <= |candles|
    ensures Closes(candles[..k]) == Closes(candles)[..k] && ActiveBars(candles[..k]) == ActiveBars(candles)[..k]
    ensures Divisible(Closes(candles)) ==> Divisible(Closes(candles[..k]))
  {
  }

  lemma AtrPrefix(candles: seq<Candle>, length: nat, k: nat)
    requires length >= 1 && 1 <= k <= |candles|
    ensures AtrSeq(candles[..k], length) == AtrSeq(candles, length)[..k]
  {
    hide RmaAt, Ranges;
    InputsPrefix(candles, k);
    LengthsOf(candles);
    LengthsOf(candles[..k]);
    forall i | 0 <= i < k ensures SmoothAt(Ranges(candles[..k]), length, i) == SmoothAt(Ranges(candles), length, i) {
      if i >= length { RmaAtPrefix(Ranges(candles), length, k - 1, i - 1); }
    }
  }

  lemma Return1Prefix(closes: seq<real>, k: nat, i: nat)
    requires 1 <= i < k <= |closes| && closes[i - 1] != 0.0
    ensures Return1(closes[..k], i) == Return1(closes, i)
  {
  }

  lemma ReturnsLast(closes: seq<real>)
    requires |closes| >= 2 && Divisible(closes)
    ensures |Returns1(closes)| == |closes| && Returns1(closes)[|closes| - 1] == Some(Return1(closes, |closes| - 1))
  {
    hide Return1;
  }

  lemma ReturnsPrefix(closes: seq<real>, k: nat)
    requires Divisible(closes) && 1 <= k <= |closes|
    ensures Divisible(closes[..k]) && |Returns1(closes)| == |closes| && Returns1(closes[..k]) == Returns1(closes)[..k]
  {
    hide Return1;
    var part := closes[..k];
    forall i | 1 <= i < k ensures Return1(part, i) == Return1(closes, i) { Return1Prefix(closes, k, i); }
  }

  lemma VolPrefix(root: real -> real, closes: seq<real>, length: nat, k: nat)
    requires Divisible(closes) && length >= 1 && 1 <= k <= |closes|
    ensures Divisible(closes[..k]) && VolSeq(root, closes[..k], length) == VolSeq(root, closes, length)[..k]
  {
    hide Align, Returns1, ByStdev;
    VolDefined(root, closes, length);
    StdevIsCausal(root, length);
    ReturnsPrefix(closes, k);
    AlignPrefix(Returns1(closes), k, length, ByStdev(root));
  }

  /** Bins and their average begin alike too. */
  lemma BinsPrefix(closes: seq<real>, factor: nat, length: nat, k: nat)
    requires factor >= 1 && k <= |closes|
    ensures Resampled(closes[..k], factor) <= Resampled(closes, factor)
    ensures EmaSeq(Resampled(closes[..k], factor), length) <= EmaSeq(Resampled(closes, factor), length)
  {
    ResampledPrefix(closes, factor, k);
    EmaPrefix(Resampled(closes, factor), length, k / factor);
  }

  lemma PrecomputeBegins(root: real -> real, candles: seq<Candle>, h1: nat, h4: nat, k: nat, b: Builder, c: Builder)
    requires h1 >= 1 && h4 >= 1 && 1 <= k <= |candles| && Divisible(Closes(candles))
    requires Precompute(root, candles, h1, h4) == Some(c) && Precompute(root, candles[..k], h1, h4) == Some(b)
    requires Sized(b) && Sized(c)
    ensures Begins(b, c, k)
  {
    hide Sized, Divisible, AdxLine, PlusLine, MinusLine, AtrSeq, RsiSeq, SmaSeq, StdevSeq, EmaSeq, VolSeq, Resampled;
    var closes := Closes(candles);
    ClosesPrefix(candles, k);
    EmaPrefix(closes, 9, k);
    EmaPrefix(closes, 21, k);
    EmaPrefix(closes, 50, k);
    EmaPrefix(closes, 200, k);
    AtrPrefix(candles, 14, k);
    RsiPrefix(closes, 14, k);
    DmiPrefix(candles, 14, k);
    SmaPrefix(closes, 20, k);
    StdevPrefix(root, closes, 20, k);
    VolPrefix(root, closes, 72, k);
    VolPrefix(root, closes, 288, k);
    SmaPrefix(ActiveBars(candles), 288, k);
    BinsPrefix(closes, h1, 50, k);
    BinsPrefix(closes, h4, 50, k);
  }

  /** No lookahead: whatever candles follow, the features of a bar are the same. The one way later
      candles can be noticed is a zero close among them, which stops the constructor. */
  lemma NoLookahead(root: real -> real, candles: seq<Candle>, h1: nat, h4: nat, k: nat, i: nat)
    requires h1 >= 1 && h4 >= 1 && i < k <= |candles|
    ensures Precompute(root, candles, h1, h4).Some? <==> Divisible(Closes(candles))
    ensures Divisible(Closes(candles)) ==>
              && Precompute(root, candles[..k], h1, h4).Some?
              && Sized(Precompute(root, candles, h1, h4).value) && Sized(Precompute(root, candles[..k], h1, h4).value)
              && BuildAt(Precompute(root, candles[..k], h1, h4).value, i) ==
                BuildAt(Precompute(root, candles, h1, h4).value, i)
  {
    hide Precompute, Sized, Divisible, BuildAt, Closes, Begins;
    PrecomputedIsSized(root, candles, h1, h4);
    PrecomputedIsSized(root, candles[..k], h1, h4);
    ClosesPrefix(candles, k);
    if Divisible(Closes(candles)) {
      var b, c := Precompute(root, candles[..k], h1, h4).value, Precompute(root, candles, h1, h4).value;
      SameCandles(root, candles, h1, h4);
      SameCandles(root, candles[..k], h1, h4);
      PrecomputeBegins(root, candles, h1, h4, k, b, c);
      BuildAtSame(b, c, k, i);
    }
  }

  /** For one: a zero close in the second of three bars stops the constructor, though the first bar alone does not. */
  lemma ZeroCloseIsNoticed(root: real -> real, t: Stamp, h1: nat, h4: nat)
    requires h1 >= 1 && h4 >= 1
    ensures var one, zero := Candle(t, 1.0, 1.0, 1.0, 1.0), Candle(t, 0.0, 0.0, 0.0, 0.0);
            && Precompute(root, [one], h1, h4).Some?
            && Precompute(root, [one, zero, one], h1, h4).None?
  {
    hide Precompute;
    var one, zero := Candle(t, 1.0, 1.0, 1.0, 1.0), Candle(t, 0.0, 0.0, 0.0, 0.0);
    PrecomputedIsSized(root, [one], h1, h4);
    PrecomputedIsSized(root, [one, zero, one], h1, h4);
    assert Closes([one, zero, one])[1] == 0.0;
  }

  lemma SameCandles(root: real -> real, candles: seq<Candle>, h1: nat, h4: nat)
    requires h1 >= 1 && h4 >= 1 && Precompute(root, candles, h1, h4).Some?
    ensures Precompute(root, candles, h1, h4).value.candles == candles
  {
  }

  // ---------------------------------------------------------------- construction

  lemma OneMoreReturn(closes: seq<real>, i: nat)
    requires 1 <= i < |closes| && Divisible(closes[..i]) && closes[i - 1] != 0.0
    ensures Divisible(closes[..i + 1])
              && Returns1(closes[..i + 1]) == Returns1(closes[..i]) + [Some(Return1(closes, i))]
  {
    hide Returns1, Return1;
    var less, more := closes[..i], closes[..i + 1];
    forall j | 0 <= j < i ensures more[j] != 0.0 { assert j < i - 1 ==> less[j] == closes[j]; }
    assert more[..i] == less;
    ReturnsPrefix(more, i);
    ReturnsLast(more);
    Return1Prefix(closes, i + 1, i);
    assert Returns1(more) == Returns1(more)[..i] + [Returns1(more)[i]];
  }

  /** The one-bar returns; `raised` on a zero close. */
  method OneBarReturns(closes: seq<real>) returns (out: Series, raised: bool)
    ensures raised <==> !Divisible(closes)
    ensures !raised ==> out == Returns1(closes)
  {
    hide Return1;
    out, raised := [None], false;
    if closes == [] { return; }
    for i := 1 to |closes|
      invariant |out| == i && out[0] == None && Divisible(closes[..i])
      invariant out == Returns1(closes[..i])
    {
      if closes[i - 1] == 0.0 { return out, true; }
      out := out + [Some(Return1(closes, i))];
      OneMoreReturn(closes, i);
    }
    assert closes[..|closes|] == closes;
  }

  method Volatility(root: real -> real, ghost closes: seq<real>, returns_: Series, length: nat) returns (out: Series)
    requires Divisible(closes) && length >= 1 && returns_ == Returns1(closes)
    ensures out == VolSeq(root, closes, length)
  {
    hide Align;
    StdevIsCausal(root, length);
    VolDefined(root, closes, length);
    var raised;
    out, raised := AlignFromFirstDefined(returns_, length, ByStdev(root));
  }

  /** `__init__`. */
  method Construct(root: real -> real, candles: seq<Candle>, h1: nat, h4: nat) returns (b: Option<Builder>)
    requires h1 >= 1 && h4 >= 1
    ensures b == Precompute(root, candles, h1, h4)
    ensures b.Some? <==> Divisible(Closes(candles))
  {
    hide AdxLine, PlusLine, MinusLine, AtrSeq, RsiSeq, SmaSeq, StdevSeq, EmaSeq, VolSeq, Resampled, Divisible, Returns1;
    PrecomputedIsSized(root, candles, h1, h4);
    var closes := Closes(candles);
    var ema9 := Ema(closes, 9);
    var ema21 := Ema(closes, 21);
    var ema50 := Ema(closes, 50);
    var ema200 := Ema(closes, 200);
    var atr14 := Atr(candles, 14);
    AtrIs(candles, 14, atr14);
    var rsi14 := Rsi(closes, 14);
    var plusDi, minusDi, adx14, raised := Dmi(candles, 14);
    var sma20 := Sma(closes, 20);
    var stdev20 := Stdev(root, closes, 20);
    var ret1, failed := OneBarReturns(closes);
    if failed { return None; }
    var vol72 := Volatility(root, closes, ret1, 72);
    var vol288 := Volatility(root, closes, ret1, 288);
    var activeRate := Sma(ActiveBars(candles), 288);
    var c1 := Resample(closes, h1);
    var e1 := Ema(c1, 50);
    var c4 := Resample(closes, h4);
    var e4 := Ema(c4, 50);
    b := Some(Builder(candles, h1, h4, ema9, ema21, ema50, ema200, atr14, rsi14, plusDi, minusDi, adx14, sma20, stdev20,
                      vol72, vol288, activeRate, c1, e1, c4, e4));
  }

  lemma AtrIs(candles: seq<Candle>, length: nat, out: Series)
    requires length >= 1 && |out| == |candles|
    requires forall i :: 0 <= i < |candles| ==> out[i] == SmoothAt(Ranges(candles), length, i)
    ensures out == AtrSeq(candles, length)
  {
  }
}
