/**
 True range, the alignment of composed warm-ups, and Wilder's directional movement
 (apps/backtester/feature_builder.py), over reals.
 */
module Directional {
  import opened Prelude
  import opened Indicators

  datatype Stamp = Stamp(hour: int, minute: int, weekday: int, month: int)
  datatype Candle = Candle(time: Stamp, open: real, high: real, low: real, close: real)

  type Filter = (seq<real>, nat) -> Series

  // ---------------------------------------------------------------- alignment

  /** Where a series starts; its length when it never does. */
  function First(values: Series): (k: nat)
    ensures k <= |values| && (k < |values| ==> values[k].Some?)
    ensures forall i :: 0 <= i < k ==> values[i].None?
  {
    if values == [] || values[0].Some? then 0 else 1 + First(values[1..])
  }

  predicate AllSome(values: Series) {
    forall i :: 0 <= i < |values| ==> values[i].Some?
  }

  function Clean(values: Series): (r: seq<real>)
    requires AllSome(values)
  {
    seq(|values|, i requires 0 <= i < |values| => values[i].value)
  }

  /** `_align_from_first_defined`; `None` is the exception it raises on a hole. */
  function Align(values: Series, length: nat, f: Filter): (r: Option<Series>) {
    var start := First(values);
    if start == |values| then Some(Gap(|values|))
    else if !AllSome(values[start..]) then None
    else Some(Gap(start) + f(Clean(values[start..]), length))
  }

  /** A filter whose value at an index depends on no later sample. */
  ghost predicate Causal(f: Filter, length: nat) {
    && (forall xs :: |f(xs, length)| == |xs|)
    && (forall xs, k :: 0 <= k <= |xs| ==> f(xs[..k], length) == f(xs, length)[..k])
  }

  lemma FirstOfPrefix(values: Series, k: nat)
    requires k <= |values|
    ensures First(values[..k]) == if First(values) < k then First(values) else k
  {
    var a, b := First(values), First(values[..k]);
    if b < k { assert values[..k][b] == values[b]; }
    if a < k { assert values[..k][a] == values[a]; }
  }

  /** Aligning a prefix gives the prefix of aligning the whole. */
  lemma AlignPrefix(values: Series, k: nat, length: nat, f: Filter)
    requires k <= |values| && Causal(f, length) && Align(values, length, f).Some?
    ensures Align(values[..k], length, f) == Some(Align(values, length, f).value[..k])
  {
    FirstOfPrefix(values, k);
    var start, whole := First(values), Align(values, length, f).value;
    if k <= start {
      assert whole[..k] == Gap(k);
    } else {
      assert values[..k][start..] == values[start..][..k - start];
      assert Clean(values[..k][start..]) == Clean(values[start..])[..k - start];
      assert whole[..k] == Gap(start) + f(Clean(values[start..]), length)[..k - start];
    }
  }

  function ByRma(xs: seq<real>, length: nat): (r: Series) {
    if length == 0 then Gap(|xs|) else RmaSeq(xs, length)
  }

  lemma RmaIsCausal(length: nat)
    requires length >= 1
    ensures Causal(ByRma, length)
  {
    forall xs: seq<real>, k | 0 <= k <= |xs| ensures ByRma(xs[..k], length) == ByRma(xs, length)[..k] {
      RmaPrefix(xs, length, k);
    }
  }

  /** The alignment with its scan and copy loops; `raised` on a hole. */
  method AlignFromFirstDefined(values: Series, length: nat, f: Filter) returns (out: Series, raised: bool)
    requires Causal(f, length)
    ensures raised <==> Align(values, length, f).None?
    ensures !raised ==> Some(out) == Align(values, length, f)
  {
    out, raised := Gap(|values|), false;
    var start := 0;
    while start < |values| && values[start].None?
      invariant 0 <= start <= |values| && forall i :: 0 <= i < start ==> values[i].None?
    {
      start := start + 1;
    }
    FirstIs(values, start);
    if start == |values| { return; }
    var clean := values[start..];
    if !AllSome(clean) { return out, true; }
    var computed := f(Clean(clean), length);
    for offset := 0 to |computed|
      invariant |out| == |values| && out[..start + offset] == Gap(start) + computed[..offset]
    {
      out := out[start + offset := computed[offset]];
    }
    assert computed[..|computed|] == computed && out[..|values|] == out;
  }

  lemma FirstIs(values: Series, k: nat)
    requires k <= |values| && (k < |values| ==> values[k].Some?) && forall i :: 0 <= i < k ==> values[i].None?
    ensures First(values) == k
  {
  }

  // ---------------------------------------------------------------- true range and movement

  function Range(candles: seq<Candle>, i: nat): (r: real)
    requires 1 <= i < |candles|
    ensures r >= 0.0
  {
    var c, last := candles[i], candles[i - 1].close;
    Max(Max(c.high - c.low, Abs(c.high - last)), Abs(c.low - last))
  }

  function PlusMove(candles: seq<Candle>, i: nat): (r: real)
    requires 1 <= i < |candles|
    ensures r >= 0.0
  {
    var up, down := candles[i].high - candles[i - 1].high, candles[i - 1].low - candles[i].low;
    if up > down && up > 0.0 then up else 0.0
  }

  function MinusMove(candles: seq<Candle>, i: nat): (r: real)
    requires 1 <= i < |candles|
    ensures r >= 0.0
  {
    var up, down := candles[i].high - candles[i - 1].high, candles[i - 1].low - candles[i].low;
    if down > up && down > 0.0 then down else 0.0
  }

  predicate Proper(c: Candle) {
    c.low <= c.close <= c.high
  }

  /** On proper candles the movement of a bar is within its range. */
  lemma MovesWithinRange(candles: seq<Candle>, i: nat)
    requires 1 <= i < |candles| && Proper(candles[i - 1]) && Proper(candles[i])
    ensures PlusMove(candles, i) + MinusMove(candles, i) <= Range(candles, i)
  {
  }

  /** The three inputs, one sample for each bar after the first. */
  function Ranges(candles: seq<Candle>): (r: seq<real>)
    requires candles != []
  {
    seq(|candles| - 1, i requires 0 <= i < |candles| - 1 => Range(candles, i + 1))
  }

  function PlusMoves(candles: seq<Candle>): (r: seq<real>)
    requires candles != []
  {
    seq(|candles| - 1, i requires 0 <= i < |candles| - 1 => PlusMove(candles, i + 1))
  }

  function MinusMoves(candles: seq<Candle>): (r: seq<real>)
    requires candles != []
  {
    seq(|candles| - 1, i requires 0 <= i < |candles| - 1 => MinusMove(candles, i + 1))
  }

  /** Undefined at the first bar. */
  function Later(xs: seq<real>): (r: Series) {
    [None] + seq(|xs|, i requires 0 <= i < |xs| => Some(xs[i]))
  }

  /** Such a series aligns without a hole, one bar late. */
  lemma AlignLater(xs: seq<real>, length: nat, f: Filter)
    requires Causal(f, length)
    ensures Align(Later(xs), length, f) == Some([None] + f(xs, length))
  {
    var v := Later(xs);
    if xs == [] {
      FirstIs(v, 1);
      assert f(xs, length) == [];
      assert |v| == 1 && Gap(|v|) == [None] + f(xs, length);
    } else {
      FirstIs(v, 1);
      assert AllSome(v[1..]) && Clean(v[1..]) == xs && Gap(1) == [None];
    }
  }

  /** The smoothed input at a bar. */
  function SmoothAt(xs: seq<real>, length: nat, i: nat): (r: Option<real>)
    requires length >= 1 && i <= |xs|
  {
    if i < length then None else Some(RmaAt(xs, length, i - 1))
  }

  lemma SmoothIsAligned(xs: seq<real>, length: nat)
    requires length >= 1
    ensures Align(Later(xs), length, ByRma).Some?
    ensures var a := Align(Later(xs), length, ByRma).value;
            |a| == |xs| + 1 && forall i :: 0 <= i <= |xs| ==> a[i] == SmoothAt(xs, length, i)
  {
    RmaIsCausal(length);
    AlignLater(xs, length, ByRma);
  }

  // ---------------------------------------------------------------- the index

  datatype Lines = Lines(plus: Option<real>, minus: Option<real>, dx: Option<real>)

  /** Both directional indicators and their imbalance at a bar. */
  function LinesAt(range: Option<real>, plus: Option<real>, minus: Option<real>): (l: Lines) {
    if range.None? || range.value == 0.0 || plus.None? || minus.None? then Lines(None, None, None)
    else
      var p, m := 100.0 * plus.value / range.value, 100.0 * minus.value / range.value;
      Lines(Some(p), Some(m), Some(if p + m == 0.0 then 0.0 else 100.0 * Abs(p - m) / (p + m)))
  }

  lemma LinesBounded(range: real, plus: real, minus: real)
    requires range > 0.0 && plus >= 0.0 && minus >= 0.0 && plus + minus <= range
    ensures var l := LinesAt(Some(range), Some(plus), Some(minus));
            l.plus.value >= 0.0 && l.minus.value >= 0.0 && l.plus.value + l.minus.value <= 100.0
              && 0.0 <= l.dx.value <= 100.0
  {
    var p, m := 100.0 * plus / range, 100.0 * minus / range;
    assert p + m == 100.0 * (plus + minus) / range;
    Percent(plus + minus, range);
    Percent(plus, range);
    Percent(minus, range);
    if p + m > 0.0 { Percent(Abs(p - m), p + m); }
  }

  lemma Percent(part: real, whole: real)
    requires 0.0 <= part <= whole && whole > 0.0
    ensures 0.0 <= 100.0 * part / whole <= 100.0
  {
    var q := 100.0 * part / whole;
    assert q * whole == 100.0 * part;
    if q < 0.0 { Scaled(q, 0.0, whole); }
    if q > 100.0 { Scaled(100.0, q, whole); }
  }

  function LinesOf(candles: seq<Candle>, length: nat, i: nat): (l: Lines)
    requires length >= 1 && i < |candles|
  {
    LinesAt(SmoothAt(Ranges(candles), length, i), SmoothAt(PlusMoves(candles), length, i),
      SmoothAt(MinusMoves(candles), length, i))
  }

  function PlusLine(candles: seq<Candle>, length: nat): (r: Series)
    requires length >= 1
    ensures |r| == |candles|
  {
    seq(|candles|, i requires 0 <= i < |candles| => LinesOf(candles, length, i).plus)
  }

  function MinusLine(candles: seq<Candle>, length: nat): (r: Series)
    requires length >= 1
    ensures |r| == |candles|
  {
    seq(|candles|, i requires 0 <= i < |candles| => LinesOf(candles, length, i).minus)
  }

  function DxLine(candles: seq<Candle>, length: nat): (r: Series)
    requires length >= 1
    ensures |r| == |candles|
  {
    seq(|candles|, i requires 0 <= i < |candles| => LinesOf(candles, length, i).dx)
  }

  /** `dmi`'s third series; `None` if the alignment raises. */
  function AdxLine(candles: seq<Candle>, length: nat): (r: Option<Series>)
    requires length >= 1
  {
    Align(DxLine(candles, length), length, ByRma)
  }

  /** The imbalance is defined exactly where the smoothed range is not zero. */
  lemma DxDefined(candles: seq<Candle>, length: nat, i: nat)
    requires length >= 1 && i < |candles|
    ensures DxLine(candles, length)[i].Some? <==> i >= length && RmaAt(Ranges(candles), length, i - 1) != 0.0
    ensures i >= length ==> RmaAt(Ranges(candles), length, i - 1) >= 0.0
  {
    hide RmaAt;
    if i >= length { RmaNonNegative(Ranges(candles), length, i - 1); }
  }

  /** Once defined it stays defined, for windows longer than one. */
  lemma DxHasNoHole(candles: seq<Candle>, length: nat, i: nat)
    requires length >= 2 && i + 1 < |candles| && DxLine(candles, length)[i].Some?
    ensures DxLine(candles, length)[i + 1].Some?
  {
    hide RmaAt, LinesOf, LinesAt;
    DxDefined(candles, length, i);
    DxDefined(candles, length, i + 1);
    RmaStaysPositive(Ranges(candles), length, i);
  }

  /** So the alignment of the imbalance never raises. */
  lemma AdxNeverRaises(candles: seq<Candle>, length: nat)
    requires length >= 2
    ensures AdxLine(candles, length).Some? && |AdxLine(candles, length).value| == |candles|
  {
    hide LinesOf;
    var dx := DxLine(candles, length);
    var start := First(dx);
    if start < |dx| {
      DefinedFrom(candles, length, start);
      RmaIsCausal(length);
    }
  }

  /** A window of one keeps its input. */
  lemma RmaOfOne(xs: seq<real>, i: nat)
    requires i < |xs|
    ensures RmaAt(xs, 1, i) == xs[i]
  {
    if i == 0 { assert Sum(xs, 0, 1) == Sum(xs, 0, 0) + xs[0]; }
  }

  /** A bar that moves is followed by one that does not. */
  ghost predicate Stalls(candles: seq<Candle>) {
    exists i, j :: 1 <= i < j < |candles| && Range(candles, i) > 0.0 && Range(candles, j) == 0.0
  }

  lemma DxOfOne(candles: seq<Candle>, i: nat)
    requires i < |candles|
    ensures DxLine(candles, 1)[i].Some? <==> i >= 1 && Range(candles, i) > 0.0
  {
    hide RmaAt, Range, LinesOf;
    DxDefined(candles, 1, i);
    if i >= 1 { RmaOfOne(Ranges(candles), i - 1); }
  }

  /** `dmi` raises exactly for a window of one over bars of which one moves and a later one does not. */
  lemma AdxRaisesIff(candles: seq<Candle>, length: nat)
    requires length >= 1
    ensures AdxLine(candles, length).None? <==> length == 1 && Stalls(candles)
  {
    hide LinesOf, Range, DxLine;
    if length >= 2 {
      AdxNeverRaises(candles, length);
    } else {
      var dx := DxLine(candles, 1);
      var start := First(dx);
      forall i | 0 <= i < |candles| ensures dx[i].Some? <==> i >= 1 && Range(candles, i) > 0.0 { DxOfOne(candles, i); }
      if start < |dx| {
        if AdxLine(candles, length).None? {
          var k :| 0 <= k < |dx[start..]| && dx[start..][k].None?;
          assert dx[start + k].None? && Range(candles, start) > 0.0 && Range(candles, start + k) == 0.0;
        }
        if Stalls(candles) {
          var i, j :| 1 <= i < j < |candles| && Range(candles, i) > 0.0 && Range(candles, j) == 0.0;
          assert start <= i && dx[start..][j - start].None?;
        }
      }
    }
  }

  /** For one: three bars of which the second moves and the third does not. */
  lemma StallRaises(t: Stamp)
    ensures var flat, moving := Candle(t, 1.0, 1.0, 1.0, 1.0), Candle(t, 1.0, 2.0, 1.0, 1.0);
            AdxLine([flat, moving, flat], 1).None?
  {
    hide AdxLine;
    var flat, moving := Candle(t, 1.0, 1.0, 1.0, 1.0), Candle(t, 1.0, 2.0, 1.0, 1.0);
    var candles := [flat, moving, flat];
    assert Range(candles, 1) == 1.0 && Range(candles, 2) == 0.0;
    AdxRaisesIff(candles, 1);
  }

  lemma {:induction false} DefinedFrom(candles: seq<Candle>, length: nat, start: nat)
    requires length >= 2 && start < |candles| && DxLine(candles, length)[start].Some?
    ensures AllSome(DxLine(candles, length)[start..])
    decreases |candles| - start
  {
    hide DxLine;
    if start + 1 < |candles| {
      DxHasNoHole(candles, length, start);
      DefinedFrom(candles, length, start + 1);
    }
    var dx := DxLine(candles, length);
    assert dx[start..] == [dx[start]] + dx[start + 1..];
  }

  // ---------------------------------------------------------------- bounds

  /** On proper candles both indicators are non-negative and together at most 100; the imbalance lies in [0, 100]. */
  lemma IndicatorsBounded(candles: seq<Candle>, length: nat, i: nat)
    requires length >= 1 && i < |candles| && forall j :: 0 <= j < |candles| ==> Proper(candles[j])
    ensures var l := LinesOf(candles, length, i);
            && (l.plus.Some? <==> l.dx.Some?) && (l.minus.Some? <==> l.dx.Some?)
            && (l.dx.Some? ==> l.plus.value >= 0.0 && l.minus.value >= 0.0 && l.plus.value + l.minus.value <= 100.0
                               && 0.0 <= l.dx.value <= 100.0)
  {
    hide RmaAt, PlusMove, MinusMove, Range;
    if i >= length {
      var rs, ps, ms := Ranges(candles), PlusMoves(candles), MinusMoves(candles);
      RmaNonNegative(rs, length, i - 1);
      RmaNonNegative(ps, length, i - 1);
      RmaNonNegative(ms, length, i - 1);
      forall j | 0 <= j < |rs| ensures ps[j] + ms[j] <= rs[j] { MovesWithinRange(candles, j + 1); }
      RmaSumBelow(ps, ms, rs, length, i - 1);
      var r := RmaAt(rs, length, i - 1);
      if r > 0.0 { LinesBounded(r, RmaAt(ps, length, i - 1), RmaAt(ms, length, i - 1)); }
    }
  }

  /** And so does the average of the imbalance. */
  lemma AdxWithin(candles: seq<Candle>, length: nat)
    requires length >= 2 && forall j :: 0 <= j < |candles| ==> Proper(candles[j])
    ensures AdxLine(candles, length).Some?
    ensures forall v :: Some(v) in AdxLine(candles, length).value ==> 0.0 <= v <= 100.0
  {
    hide LinesOf, RmaAt;
    AdxNeverRaises(candles, length);
    var dx := DxLine(candles, length);
    var start := First(dx);
    if start < |dx| {
      var clean := Clean(dx[start..]);
      forall j | 0 <= j < |clean| ensures 0.0 <= clean[j] <= 100.0 { IndicatorsBounded(candles, length, start + j); }
      forall i | length - 1 <= i < |clean|
        ensures 0.0 <= RmaAt(clean, length, i) <= 100.0 { RmaWithin(clean, length, i, 0.0, 100.0); }
    }
  }

  // ---------------------------------------------------------------- no lookahead

  lemma InputsPrefix(candles: seq<Candle>, k: nat)
    requires 1 <= k <= |candles|
    ensures Ranges(candles[..k]) == Ranges(candles)[..k - 1]
    ensures PlusMoves(candles[..k]) == PlusMoves(candles)[..k - 1]
    ensures MinusMoves(candles[..k]) == MinusMoves(candles)[..k - 1]
  {
  }

  lemma LinesPrefix(candles: seq<Candle>, length: nat, k: nat, i: nat)
    requires length >= 1 && i < k <= |candles|
    ensures LinesOf(candles[..k], length, i) == LinesOf(candles, length, i)
  {
    hide RmaAt, LinesAt, Ranges, PlusMoves, MinusMoves;
    InputsPrefix(candles, k);
    LengthsOf(candles);
    if i >= length {
      RmaAtPrefix(Ranges(candles), length, k - 1, i - 1);
      RmaAtPrefix(PlusMoves(candles), length, k - 1, i - 1);
      RmaAtPrefix(MinusMoves(candles), length, k - 1, i - 1);
    }
  }

  lemma LengthsOf(candles: seq<Candle>)
    requires candles != []
    ensures |Ranges(candles)| == |PlusMoves(candles)| == |MinusMoves(candles)| == |candles| - 1
  {
  }

  lemma DmiPrefix(candles: seq<Candle>, length: nat, k: nat)
    requires length >= 2 && k <= |candles|
    ensures PlusLine(candles[..k], length) == PlusLine(candles, length)[..k]
    ensures MinusLine(candles[..k], length) == MinusLine(candles, length)[..k]
    ensures AdxLine(candles, length).Some? && |AdxLine(candles, length).value| == |candles|
    ensures AdxLine(candles[..k], length) == Some(AdxLine(candles, length).value[..k])
  {
    hide LinesOf, Align;
    forall i | 0 <= i < k ensures LinesOf(candles[..k], length, i) == LinesOf(candles, length, i) {
      LinesPrefix(candles, length, k, i);
    }
    assert DxLine(candles[..k], length) == DxLine(candles, length)[..k];
    AdxNeverRaises(candles, length);
    RmaIsCausal(length);
    AlignPrefix(DxLine(candles, length), k, length, ByRma);
  }

  // ---------------------------------------------------------------- the loops

  /** `true_range`. */
  method TrueRange(candles: seq<Candle>) returns (out: Series)
    ensures out == if candles == [] then [] else Later(Ranges(candles))
  {
    hide Range;
    out := Gap(|candles|);
    if candles == [] { return; }
    for i := 1 to |candles|
      invariant |out| == |candles| && forall j :: 1 <= j < i ==> out[j] == Some(Range(candles, j))
      invariant out[0] == None
    {
      out := out[i := Some(Range(candles, i))];
    }
  }

  /** `atr`. */
  method Atr(candles: seq<Candle>, length: nat) returns (out: Series)
    requires length >= 1
    ensures |out| == |candles| && forall i :: 0 <= i < |candles| ==> out[i] == SmoothAt(Ranges(candles), length, i)
  {
    hide Ranges, Align;
    var tr := TrueRange(candles);
    if candles == [] { return []; }
    LengthsOf(candles);
    out := AlignLaterBy(Ranges(candles), length, tr);
  }

  method AlignLaterBy(ghost xs: seq<real>, length: nat, values: Series) returns (out: Series)
    requires length >= 1 && values == Later(xs)
    ensures |out| == |xs| + 1 && forall i :: 0 <= i <= |xs| ==> out[i] == SmoothAt(xs, length, i)
  {
    hide Align, SmoothAt;
    RmaIsCausal(length);
    SmoothIsAligned(xs, length);
    var raised;
    out, raised := AlignFromFirstDefined(values, length, ByRma);
  }

  method Moves(candles: seq<Candle>) returns (plus: Series, minus: Series)
    requires candles != []
    ensures plus == Later(PlusMoves(candles)) && minus == Later(MinusMoves(candles))
  {
    hide PlusMove, MinusMove;
    plus, minus := Gap(|candles|), Gap(|candles|);
    for i := 1 to |candles|
      invariant |plus| == |minus| == |candles| && plus[0] == minus[0] == None
      invariant forall j :: 1 <= j < i ==>
                  plus[j] == Some(PlusMove(candles, j)) && minus[j] == Some(MinusMove(candles, j))
    {
      plus := plus[i := Some(PlusMove(candles, i))];
      minus := minus[i := Some(MinusMove(candles, i))];
    }
  }

  /** `dmi`: for windows longer than one it never raises. */
  method Dmi(candles: seq<Candle>, length: nat) returns (plus: Series, minus: Series, adx: Series, raised: bool)
    requires length >= 1
    ensures plus == PlusLine(candles, length) && minus == MinusLine(candles, length)
    ensures raised <==> AdxLine(candles, length).None?
    ensures !raised ==> Some(adx) == AdxLine(candles, length)
    ensures length >= 2 ==> !raised && |adx| == |candles|
  {
    hide LinesAt, Align, SmoothAt, Ranges, PlusMoves, MinusMoves;
    RmaIsCausal(length);
    plus, minus := Gap(|candles|), Gap(|candles|);
    var dx: Series := Gap(|candles|);
    if candles != [] {
      LengthsOf(candles);
      var up, down := Moves(candles);
      var ranges := Atr(candles, length);
      var ups := AlignLaterBy(PlusMoves(candles), length, up);
      var downs := AlignLaterBy(MinusMoves(candles), length, down);
      for i := 0 to |candles|
        invariant |plus| == |minus| == |dx| == |candles|
        invariant forall j :: 0 <= j < i ==> Lines(plus[j], minus[j], dx[j]) == LinesOf(candles, length, j)
        invariant forall j :: i <= j < |candles| ==> plus[j] == minus[j] == dx[j] == None
      {
        var l := LinesAt(ranges[i], ups[i], downs[i]);
        plus, minus, dx := plus[i := l.plus], minus[i := l.minus], dx[i := l.dx];
      }
    }
    assert dx == DxLine(candles, length);
    adx, raised := AlignFromFirstDefined(dx, length, ByRma);
    if length >= 2 { AdxNeverRaises(candles, length); }
  }

  // ---------------------------------------------------------------- mirror symmetry

  /** The true range is the span of the bar and the close before it. */
  lemma RangeIsSpan(candles: seq<Candle>, i: nat)
    requires 1 <= i < |candles| && candles[i].low <= candles[i].high
    ensures var c, last := candles[i], candles[i - 1].close;
            Range(candles, i) == Max(c.high, last) - Min(c.low, last)
  {
  }

  function Mirrored(candles: seq<Candle>): (r: seq<Candle>) {
    seq(|candles|, i requires 0 <= i < |candles| =>
      var c := candles[i]; Candle(c.time, -c.open, -c.low, -c.high, -c.close))
  }

  /** Turning prices upside down swaps the two indicators and keeps the imbalance. */
  lemma MirrorSwaps(candles: seq<Candle>, length: nat, i: nat)
    requires length >= 1 && i < |candles|
    ensures var l, m := LinesOf(candles, length, i), LinesOf(Mirrored(candles), length, i);
            m.plus == l.minus && m.minus == l.plus && m.dx == l.dx
  {
    hide RmaAt;
    var ms := Mirrored(candles);
    assert PlusMoves(ms) == MinusMoves(candles) && MinusMoves(ms) == PlusMoves(candles);
    assert Ranges(ms) == Ranges(candles);
  }
}
