/** `run_comparison` of apps/backtester/backtest_ml.py and what its report adds up to. */
module Replay {
  import opened Prelude
  import opened Option1
  import opened Backtest

  datatype Candle = Candle(time: int, open: real)
  datatype RawSignal = RawSignal(time: int, direction: int)

  /** The candles, and the model: no score where the features are incomplete. */
  datatype Env = Env(candles: seq<Candle>, score: (nat, int) -> Option<real>, threshold: real)

  /** The candle of a timestamp; of several, the last. */
  function IndexOf(candles: seq<Candle>, time: int): (r: Option<nat>)
    ensures r.Some? ==> r.value < |candles| && candles[r.value].time == time
    ensures forall k :: (if r.Some? then r.value + 1 else 0) <= k < |candles| ==> candles[k].time != time
  {
    if candles == [] then None
    else if candles[|candles| - 1].time == time then Some(|candles| - 1)
    else IndexOf(candles[..|candles| - 1], time)
  }

  function FillPrice(candles: seq<Candle>, index: nat): (p: Option<real>) {
    if index < |candles| then Some(candles[index].open) else None
  }

  /** `_baseline_decision`: the rule with a filter that always passes. */
  function Baseline(side: Side, position: Option<Side>): (r: (bool, bool)) {
    var close := position == Some(Opposite(side));
    (close, position != Some(side) && (position == None || close))
  }

  function BaselineOrder(b: Branch, side: Side, index: nat, price: Option<real>): (o: Order) {
    var (close, open) := Baseline(side, b.position);
    Order(side, close, if open then Some(side) else None, false, index, price)
  }

  function FilteredOrder(b: Branch, d: Decision, side: Side, index: nat, price: Option<real>): (o: Order) {
    Order(side, d.shouldClose, if d.shouldOpen then d.openDirection else None,
          Baseline(side, b.position).1 && !d.shouldOpen, index, price)
  }

  datatype Report = Report(unfiltered: Branch, filtered: Branch, scored: nat, missing: nat, incomplete: nat)

  const NOTHING := Report(Backtest.START, Backtest.START, 0, 0, 0)

  function Step(env: Env, r: Report, sig: RawSignal): (q: Report)
    requires Sound(r.unfiltered) && Sound(r.filtered)
  {
    var at := IndexOf(env.candles, sig.time);
    if at.None? then r.(missing := r.missing + 1)
    else
      var i := at.value;
      var side, price := SideOf(sig.direction), FillPrice(env.candles, i + 1);
      var r' := r.(unfiltered := Applied(r.unfiltered, BaselineOrder(r.unfiltered, side, i + 1, price)));
      if env.score(i, sig.direction).None? then r'.(incomplete := r.incomplete + 1)
      else
        var d := Decide(sig.direction, env.score(i, sig.direction), env.threshold, r.filtered.position);
        r'.(scored := r.scored + 1, filtered := Applied(r.filtered, FilteredOrder(r.filtered, d, side, i + 1, price)))
  }

  function Run(env: Env, sigs: seq<RawSignal>): (r: Report)
    ensures Sound(r.unfiltered) && Sound(r.filtered)
  {
    if sigs == [] then NOTHING
    else
      var before := Run(env, sigs[..|sigs| - 1]);
      StepSound(env, before, sigs[|sigs| - 1]);
      Step(env, before, sigs[|sigs| - 1])
  }

  // ---------------------------------------------------------------- accounting

  /** A branch whose books balance. */
  predicate Sound(b: Branch) {
    && (b.position.Some? <==> b.open)
    && (b.open ==> b.trades != [] && b.trades[|b.trades| - 1].direction == b.position.value)
    && b.seen == b.opens + b.pyramid + b.filtered
    && b.opens == b.closes + (if b.open then 1 else 0)
    && |b.trades| == b.opens
    && (forall k :: 0 <= k < |b.trades| ==>
          (b.trades[k].exitIndex.None? <==> b.open && k == |b.trades| - 1)
          && (b.trades[k].exitIndex.None? ==> b.trades[k].exitPrice.None?))
  }

  /** Orders that follow the rule for the branch's own position. */
  predicate ByTheRule(b: Branch, o: Order) {
    && (o.close ==> b.position == Some(Opposite(o.side)))
    && (o.open.Some? ==> o.open == Some(o.side) && b.position != Some(o.side) && (b.position.Some? ==> o.close))
    && (o.blocked <==> o.open.None? && b.position != Some(o.side))
  }

  lemma AppliedSound(b: Branch, o: Order)
    requires Sound(b) && ByTheRule(b, o)
    ensures Sound(Applied(b, o))
  {
  }

  lemma BaselineByTheRule(b: Branch, side: Side, index: nat, price: Option<real>)
    ensures ByTheRule(b, BaselineOrder(b, side, index, price))
  {
    assert b.position.None? || b.position.value == side || b.position.value == Opposite(side);
  }

  lemma FilteredByTheRule(env: Env, b: Branch, sig: RawSignal, index: nat, price: Option<real>, score: Option<real>)
    ensures var d := Decide(sig.direction, score, env.threshold, b.position);
            ByTheRule(b, FilteredOrder(b, d, SideOf(sig.direction), index, price))
  {
    var side := SideOf(sig.direction);
    assert b.position.None? || b.position.value == side || b.position.value == Opposite(side);
  }

  lemma StepSound(env: Env, r: Report, sig: RawSignal)
    requires Sound(r.unfiltered) && Sound(r.filtered)
    ensures Sound(Step(env, r, sig).unfiltered) && Sound(Step(env, r, sig).filtered)
  {
    hide Sound, Applied, BaselineOrder, FilteredOrder, ByTheRule, Decide;
    var at := IndexOf(env.candles, sig.time);
    if at.Some? {
      var i := at.value;
      var side, price := SideOf(sig.direction), FillPrice(env.candles, i + 1);
      BaselineByTheRule(r.unfiltered, side, i + 1, price);
      AppliedSound(r.unfiltered, BaselineOrder(r.unfiltered, side, i + 1, price));
      if env.score(i, sig.direction).Some? {
        var d := Decide(sig.direction, env.score(i, sig.direction), env.threshold, r.filtered.position);
        FilteredByTheRule(env, r.filtered, sig, i + 1, price, env.score(i, sig.direction));
        AppliedSound(r.filtered, FilteredOrder(r.filtered, d, side, i + 1, price));
      }
    }
  }

  /** Every candidate is scored, without a candle or without features; each branch saw its share. */
  lemma {:induction false} CandidatesAddUp(env: Env, sigs: seq<RawSignal>)
    ensures var r := Run(env, sigs);
            && |sigs| == r.scored + r.missing + r.incomplete
            && r.unfiltered.seen == r.scored + r.incomplete && r.filtered.seen == r.scored
  {
    hide Step, Sound;
    if sigs != [] {
      var n := |sigs| - 1;
      CandidatesAddUp(env, sigs[..n]);
      StepCounts(env, Run(env, sigs[..n]), sigs[n]);
    }
  }

  lemma StepCounts(env: Env, r: Report, sig: RawSignal)
    requires Sound(r.unfiltered) && Sound(r.filtered)
    ensures var q := Step(env, r, sig);
            && q.scored + q.missing + q.incomplete == r.scored + r.missing + r.incomplete + 1
            && q.unfiltered.seen - r.unfiltered.seen == q.scored + q.incomplete - r.scored - r.incomplete
            && q.filtered.seen - r.filtered.seen == q.scored - r.scored
  {
    hide Decide, BaselineOrder, FilteredOrder, IndexOf;
  }

  predicate Alternating(trades: seq<TradeValue>) {
    forall k :: 0 < k < |trades| ==> trades[k].direction != trades[k - 1].direction
  }

  lemma AppliedAlternates(b: Branch, side: Side, index: nat, price: Option<real>)
    requires Sound(b) && Alternating(b.trades) && (b.trades != [] ==> b.open)
    ensures var b' := Applied(b, BaselineOrder(b, side, index, price));
            Alternating(b'.trades) && (b'.trades != [] ==> b'.open)
  {
  }

  /** Without the filter, trade directions strictly alternate and a trade is always open. */
  lemma {:induction false} UnfilteredAlternates(env: Env, sigs: seq<RawSignal>)
    ensures var b := Run(env, sigs).unfiltered;
            Alternating(b.trades) && (b.trades != [] ==> b.open)
  {
    hide Sound, Applied, BaselineOrder, FilteredOrder, Decide, Alternating;
    if sigs == [] {
      NoTradesAlternate();
    } else {
      var n := |sigs| - 1;
      UnfilteredAlternates(env, sigs[..n]);
      var before, sig := Run(env, sigs[..n]), sigs[n];
      var at := IndexOf(env.candles, sig.time);
      if at.Some? {
        AppliedAlternates(before.unfiltered, SideOf(sig.direction), at.value + 1, FillPrice(env.candles, at.value + 1));
      }
    }
  }

  lemma NoTradesAlternate()
    ensures Alternating([])
  {
  }

  /** A signal the predictor decides on: it has a direction, a candle and complete features. */
  predicate Decided(env: Env, sig: RawSignal) {
    && (sig.direction == 1 || sig.direction == -1)
    && IndexOf(env.candles, sig.time).Some?
    && env.score(IndexOf(env.candles, sig.time).value, sig.direction).Some?
  }

  /** A signal without a candle, or one that is decided on with a passing score. */
  predicate Passes(env: Env, sig: RawSignal) {
    var at := IndexOf(env.candles, sig.time);
    at.None? || (Decided(env, sig) && env.score(at.value, sig.direction).value > env.threshold)
  }

  /** The model passes every signal it is asked about, with complete features. */
  predicate AlwaysPasses(env: Env, sigs: seq<RawSignal>) {
    forall k :: 0 <= k < |sigs| ==> Passes(env, sigs[k])
  }

  lemma PassingOrder(b: Branch, direction: int, score: Option<real>, threshold: real, index: nat, price: Option<real>)
    requires (direction == 1 || direction == -1) && score.Some? && score.value > threshold
    ensures FilteredOrder(b, Decide(direction, score, threshold, b.position), SideOf(direction), index, price)
            == BaselineOrder(b, SideOf(direction), index, price)
  {
    var side := SideOf(direction);
    assert b.position.None? || b.position.value == side || b.position.value == Opposite(side);
  }

  /** An always-passing filter makes the two branches the same, trade by trade. */
  lemma {:induction false} PassingFilterChangesNothing(env: Env, sigs: seq<RawSignal>)
    requires AlwaysPasses(env, sigs)
    ensures Run(env, sigs).filtered == Run(env, sigs).unfiltered
    ensures Uplift(Run(env, sigs)) == 0.0
  {
    hide Sound, Applied, BaselineOrder, FilteredOrder, Decide;
    if sigs != [] {
      var n := |sigs| - 1;
      assert AlwaysPasses(env, sigs[..n]);
      PassingFilterChangesNothing(env, sigs[..n]);
      var before, sig := Run(env, sigs[..n]), sigs[n];
      assert Passes(env, sigs[n]);
      var at := IndexOf(env.candles, sig.time);
      if at.Some? {
        var i := at.value;
        PassingOrder(before.filtered, sig.direction, env.score(i, sig.direction), env.threshold, i + 1,
          FillPrice(env.candles, i + 1));
      }
    }
  }

  // ---------------------------------------------------------------- statistics

  /** `Trade.pnl_pct`; absent when the trade has no exit price. */
  function Pnl(t: TradeValue): (p: Option<real>) {
    if t.exitPrice.None? || t.entryPrice.None? || t.entryPrice.value == 0.0 then None
    else
      var gain := (t.exitPrice.value - t.entryPrice.value) / t.entryPrice.value;
      Some(if t.direction == Long then gain else -gain)
  }

  function PnlSum(trades: seq<TradeValue>): (r: real) {
    if trades == [] then 0.0
    else
      var p := Pnl(trades[|trades| - 1]);
      PnlSum(trades[..|trades| - 1]) + (if p.Some? then p.value else 0.0)
  }

  function Uplift(r: Report): (u: real) {
    PnlSum(r.filtered.trades) - PnlSum(r.unfiltered.trades)
  }

  /** Trades without an exit price, which the report calls still open. */
  function StillOpen(trades: seq<TradeValue>): (n: nat) {
    if trades == [] then 0
    else StillOpen(trades[..|trades| - 1]) + (if trades[|trades| - 1].exitPrice.None? then 1 else 0)
  }

  /** Trades closed past the last candle, so without a price. */
  function ClosedUnpriced(trades: seq<TradeValue>): (n: nat) {
    if trades == [] then 0
    else
      var t := trades[|trades| - 1];
      ClosedUnpriced(trades[..|trades| - 1]) + (if t.exitIndex.Some? && t.exitPrice.None? then 1 else 0)
  }

  function Unfinished(trades: seq<TradeValue>): (n: nat) {
    if trades == [] then 0
    else Unfinished(trades[..|trades| - 1]) + (if trades[|trades| - 1].exitIndex.None? then 1 else 0)
  }

  lemma {:induction false} StillOpenSplits(trades: seq<TradeValue>)
    requires forall k :: 0 <= k < |trades| && trades[k].exitIndex.None? ==> trades[k].exitPrice.None?
    ensures StillOpen(trades) == Unfinished(trades) + ClosedUnpriced(trades)
  {
    if trades != [] { StillOpenSplits(trades[..|trades| - 1]); }
  }

  lemma {:induction false} NoneUnfinished(trades: seq<TradeValue>)
    requires forall k :: 0 <= k < |trades| ==> trades[k].exitIndex.Some?
    ensures Unfinished(trades) == 0
  {
    if trades != [] { NoneUnfinished(trades[..|trades| - 1]); }
  }

  /** "Opened = closed + still open" holds exactly when no closed trade lacks a price. */
  lemma AddsUpIffPriced(b: Branch)
    requires Sound(b)
    ensures b.opens == b.closes + StillOpen(b.trades) <==> ClosedUnpriced(b.trades) == 0
  {
    StillOpenSplits(b.trades);
    if b.open {
      NoneUnfinished(b.trades[..|b.trades| - 1]);
    } else {
      NoneUnfinished(b.trades);
    }
  }

  /** Two signals, the second on the last candle, so with nothing left to fill at. */
  lemma FlipPastTheEnd(b: Branch, c: Branch, price: Option<real>)
    requires b == Applied(Backtest.START, BaselineOrder(Backtest.START, Long, 1, price))
    requires c == Applied(b, BaselineOrder(b, Short, 2, None))
    ensures c.opens == 2 && c.closes == 1 && StillOpen(c.trades) == 2
  {
    assert b.trades == [TradeValue(Long, 1, price, None, None)];
    var first, second := TradeValue(Long, 1, price, Some(2), None), TradeValue(Short, 2, None, None, None);
    assert c.trades == [first, second];
    TwoStillOpen(first, second);
  }

  lemma TwoStillOpen(a: TradeValue, b: TradeValue)
    requires a.exitPrice.None? && b.exitPrice.None?
    ensures StillOpen([a, b]) == 2
  {
    assert [a, b][..1] == [a] && [a][..0] == [];
    assert StillOpen([a]) == StillOpen([a][..0]) + 1;
  }

  /** The sum can fail: over any two candles, a flip on the second leaves two trades "still open". */
  lemma ReportCanMiscount(env: Env, buy: RawSignal, sell: RawSignal)
    requires |env.candles| == 2 && env.candles[0].time != env.candles[1].time
    requires buy == RawSignal(env.candles[0].time, 1) && sell == RawSignal(env.candles[1].time, -1)
    ensures var b := Run(env, [buy] + [sell]).unfiltered;
            b.opens == 2 && b.closes == 1 && StillOpen(b.trades) == 2
  {
    hide Run, Step, Sound, Applied, BaselineOrder, StillOpen;
    var candles := env.candles;
    assert IndexOf(candles, buy.time) == Some(0) by { assert candles[..1][0] == candles[0]; }
    UnfilteredAppend(env, [], buy, 0);
    UnfilteredAppend(env, [buy], sell, 1);
    assert [] + [buy] == [buy];
    RunOfNothing(env);
    FlipPastTheEnd(Run(env, [buy]).unfiltered, Run(env, [buy] + [sell]).unfiltered, FillPrice(candles, 1));
  }

  lemma RunOfNothing(env: Env)
    ensures Run(env, []) == NOTHING
  {
  }

  /** One more signal with a candle, in the unfiltered branch. */
  lemma UnfilteredAppend(env: Env, sigs: seq<RawSignal>, sig: RawSignal, i: nat)
    requires IndexOf(env.candles, sig.time) == Some(i)
    ensures var b := Run(env, sigs).unfiltered;
            Run(env, sigs + [sig]).unfiltered ==
              Applied(b, BaselineOrder(b, SideOf(sig.direction), i + 1, FillPrice(env.candles, i + 1)))
  {
    hide Sound, Applied, BaselineOrder, FilteredOrder, Decide, IndexOf;
    assert (sigs + [sig])[..|sigs|] == sigs;
  }

  /** Candles and signals in time order, as the loaders sort them. */
  predicate InOrder(env: Env, sigs: seq<RawSignal>) {
    && (forall i, j :: 0 <= i < j < |env.candles| ==> env.candles[i].time <= env.candles[j].time)
    && (forall i, j :: 0 <= i < j < |sigs| ==> sigs[i].time <= sigs[j].time)
  }

  lemma {:induction false} IndexIsLast(candles: seq<Candle>, time: int, i: nat)
    requires i < |candles| && candles[i].time == time
    ensures IndexOf(candles, time).Some? && i <= IndexOf(candles, time).value
  {
    if candles[|candles| - 1].time != time { IndexIsLast(candles[..|candles| - 1], time, i); }
  }

  /** Later signals fill at the same bar or later. */
  lemma IndexMonotone(env: Env, sigs: seq<RawSignal>, s: int, t: int)
    requires InOrder(env, sigs) && s <= t && IndexOf(env.candles, s).Some? && IndexOf(env.candles, t).Some?
    ensures IndexOf(env.candles, s).value <= IndexOf(env.candles, t).value
  {
    if s == t { IndexIsLast(env.candles, t, IndexOf(env.candles, t).value); }
  }

  /** Trades filled from the candles, none entered after bar `upto`, and none left before it was entered. */
  predicate Priced(candles: seq<Candle>, b: Branch, upto: nat) {
    forall k :: 0 <= k < |b.trades| ==>
      var t := b.trades[k];
      && t.entryIndex <= upto && t.entryPrice == FillPrice(candles, t.entryIndex)
      && (t.exitIndex.Some? ==>
        t.entryIndex <= t.exitIndex.value && t.exitPrice == FillPrice(candles, t.exitIndex.value))
  }

  lemma AppliedPriced(candles: seq<Candle>, b: Branch, o: Order, upto: nat)
    requires Sound(b) && Priced(candles, b, upto) && upto <= o.index && o.price == FillPrice(candles, o.index)
    ensures Priced(candles, Applied(b, o), o.index)
  {
    hide FillPrice;
  }

  /** A bar no later than that of any signal from `time` on. */
  ghost predicate NotAfter(env: Env, upto: nat, time: int) {
    forall t :: time <= t && IndexOf(env.candles, t).Some? ==> upto <= IndexOf(env.candles, t).value + 1
  }

  lemma StepPriced(env: Env, r: Report, sig: RawSignal, upto: nat) returns (next: nat)
    requires Sound(r.unfiltered) && Sound(r.filtered)
    requires Priced(env.candles, r.unfiltered, upto) && Priced(env.candles, r.filtered, upto)
    requires NotAfter(env, upto, sig.time)
    ensures var q := Step(env, r, sig); Priced(env.candles, q.unfiltered, next) && Priced(env.candles, q.filtered, next)
    ensures var at := IndexOf(env.candles, sig.time); next == if at.Some? then at.value + 1 else upto
  {
    hide Sound, Applied, BaselineOrder, FilteredOrder, Decide, Priced;
    var at := IndexOf(env.candles, sig.time);
    next := upto;
    if at.Some? {
      var i, side := at.value, SideOf(sig.direction);
      var price, score := FillPrice(env.candles, i + 1), env.score(i, sig.direction);
      var d := Decide(sig.direction, score, env.threshold, r.filtered.position);
      OrdersFill(r.unfiltered, d, side, i + 1, price);
      AppliedPriced(env.candles, r.unfiltered, BaselineOrder(r.unfiltered, side, i + 1, price), upto);
      OrdersFill(r.filtered, d, side, i + 1, price);
      AppliedPriced(env.candles, r.filtered, FilteredOrder(r.filtered, d, side, i + 1, price), upto);
      PricedLater(env.candles, r.filtered, upto, i + 1);
      next := i + 1;
    }
  }

  lemma {:induction false} RunPriced(env: Env, sigs: seq<RawSignal>) returns (upto: nat)
    requires InOrder(env, sigs)
    ensures Priced(env.candles, Run(env, sigs).unfiltered, upto) && Priced(env.candles, Run(env, sigs).filtered, upto)
    ensures if sigs == [] then upto == 0 else NotAfter(env, upto, sigs[|sigs| - 1].time)
  {
    hide Step, Sound, Priced;
    if sigs == [] {
      upto := 0;
      NothingPriced(env.candles);
    } else {
      var n := |sigs| - 1;
      var sig := sigs[n];
      var before := RunPriced(env, sigs[..n]);
      assert NotAfter(env, before, sig.time) by { assert n > 0 ==> sigs[..n][n - 1].time <= sig.time; }
      upto := StepPriced(env, Run(env, sigs[..n]), sig, before);
      if IndexOf(env.candles, sig.time).Some? {
        forall t | sig.time <= t && IndexOf(env.candles, t).Some? ensures upto <= IndexOf(env.candles, t).value + 1 {
          IndexMonotone(env, sigs, sig.time, t);
        }
      }
    }
  }

  lemma NothingPriced(candles: seq<Candle>)
    ensures Priced(candles, Backtest.START, 0)
  {
  }

  lemma PricedLater(candles: seq<Candle>, b: Branch, upto: nat, later: nat)
    requires Priced(candles, b, upto) && upto <= later
    ensures Priced(candles, b, later)
  {
  }

  lemma OrdersFill(b: Branch, d: Decision, side: Side, index: nat, price: Option<real>)
    ensures var o := BaselineOrder(b, side, index, price); o.index == index && o.price == price
    ensures var o := FilteredOrder(b, d, side, index, price); o.index == index && o.price == price
  {
  }

  lemma PricedEntry(candles: seq<Candle>, b: Branch, upto: nat, k: nat)
    requires Sound(b) && Priced(candles, b, upto) && k < |b.trades|
    ensures b.trades[k].exitPrice.Some? ==> b.trades[k].entryPrice.Some?
  {
  }

  /** With candles and signals in time order, no trade has an exit price but no entry price. */
  lemma ExitPriceImpliesEntryPrice(env: Env, sigs: seq<RawSignal>)
    requires InOrder(env, sigs)
    ensures forall b, k :: b in [Run(env, sigs).unfiltered, Run(env, sigs).filtered] && 0 <= k < |b.trades| ==>
              (b.trades[k].exitPrice.Some? ==> b.trades[k].entryPrice.Some?)
  {
    hide Run, Sound, Priced;
    var upto := RunPriced(env, sigs);
    forall b, k | b in [Run(env, sigs).unfiltered, Run(env, sigs).filtered] && 0 <= k < |b.trades|
      ensures b.trades[k].exitPrice.Some? ==> b.trades[k].entryPrice.Some?
    {
      PricedEntry(env.candles, b, upto, k);
    }
  }

  // ---------------------------------------------------------------- the loop

  /** `ts_index`: the last candle of each timestamp. */
  method TimestampIndex(candles: seq<Candle>) returns (index: map<int, nat>)
    ensures forall t :: t in index <==> IndexOf(candles, t).Some?
    ensures forall t :: t in index ==> Some(index[t]) == IndexOf(candles, t)
  {
    index := map[];
    for i := 0 to |candles|
      invariant forall t :: t in index <==> IndexOf(candles[..i], t).Some?
      invariant forall t :: t in index ==> Some(index[t]) == IndexOf(candles[..i], t)
    {
      assert candles[..i + 1][..i] == candles[..i];
      index := index[candles[i].time := i];
    }
    assert candles[..|candles|] == candles;
  }

  /** Two branches that share no trade. */
  ghost predicate Apart(a: BranchState, b: BranchState)
    reads a, b
  {
    && a != b && a.Valid() && b.Valid()
    && forall i, j :: 0 <= i < |a.trades| && 0 <= j < |b.trades| ==> a.trades[i] != b.trades[j]
  }

  /** Applying an order to one branch leaves the other as it is. */
  method ApplyBeside(a: BranchState, b: BranchState, o: Order)
    requires Apart(a, b)
    modifies a, a.openTrade
    ensures Apart(a, b) && a.Value() == Applied(old(a.Value()), o) && b.Value() == old(b.Value())
    ensures b.trades == old(b.trades)
    ensures forall t :: t in a.trades ==> t in old(a.trades) || fresh(t)
  {
    hide Applied;
    a.Apply(o);
    assert b.Values() == old(b.Values());
    forall t | t in a.trades ensures t in old(a.trades) || fresh(t) {
      var k :| 0 <= k < |a.trades| && a.trades[k] == t;
      if k < |old(a.trades)| { assert t == old(a.trades)[k]; }
    }
  }

  /** The body of the loop for a signal whose candle is `i`. */
  method Observe(env: Env, sig: RawSignal, i: nat, unfiltered: BranchState, filtered: BranchState, ghost before: Report)
    returns (complete: bool)
    requires Apart(unfiltered, filtered) && IndexOf(env.candles, sig.time) == Some(i)
    requires before.unfiltered == unfiltered.Value() && before.filtered == filtered.Value()
    requires Sound(before.unfiltered) && Sound(before.filtered)
    modifies unfiltered, filtered, unfiltered.openTrade, filtered.openTrade
    ensures Apart(unfiltered, filtered)
    ensures forall t :: t in unfiltered.trades ==> t in old(unfiltered.trades) || fresh(t)
    ensures forall t :: t in filtered.trades ==> t in old(filtered.trades) || fresh(t)
    ensures Step(env, before, sig) ==
            Report(unfiltered.Value(), filtered.Value(), before.scored + (if complete then 1 else 0),
                   before.missing, before.incomplete + (if complete then 0 else 1))
  {
    hide Sound, Applied, BaselineOrder, FilteredOrder, Decide, IndexOf;
    var side, price := SideOf(sig.direction), FillPrice(env.candles, i + 1);
    ApplyBeside(unfiltered, filtered, BaselineOrder(unfiltered.Value(), side, i + 1, price));
    var score := env.score(i, sig.direction);
    complete := score.Some?;
    if complete {
      var d := Predict(sig.direction, score, env.threshold, filtered.position);
      ApplyBeside(filtered, unfiltered, FilteredOrder(filtered.Value(), d, side, i + 1, price));
    }
  }

  /** `run_comparison`: two branch objects, updated signal by signal. */
  method RunComparison(env: Env, sigs: seq<RawSignal>) returns (r: Report)
    ensures r == Run(env, sigs)
  {
    hide Sound, IndexOf, Step;
    var index := TimestampIndex(env.candles);
    var unfiltered := new BranchState();
    var filtered := new BranchState();
    var scored, missing, incomplete := 0, 0, 0;
    RunOfNothing(env);
    assert sigs[..0] == [];
    for k := 0 to |sigs|
      invariant fresh(unfiltered) && fresh(filtered) && Apart(unfiltered, filtered)
      invariant forall t :: t in unfiltered.trades ==> fresh(t)
      invariant forall t :: t in filtered.trades ==> fresh(t)
      invariant Run(env, sigs[..k]) == Report(unfiltered.Value(), filtered.Value(), scored, missing, incomplete)
    {
      var sig := sigs[k];
      ghost var before := Run(env, sigs[..k]);
      assert sigs[..k + 1][..k] == sigs[..k];
      assert Run(env, sigs[..k + 1]) == Step(env, before, sig);
      if sig.time !in index {
        MissingCandle(env, before, sig);
        missing := missing + 1;
        continue;
      }
      assert unfiltered.openTrade != null ==> unfiltered.openTrade in unfiltered.trades;
      assert filtered.openTrade != null ==> filtered.openTrade in filtered.trades;
      var complete := Observe(env, sig, index[sig.time], unfiltered, filtered, before);
      if complete { scored := scored + 1; } else { incomplete := incomplete + 1; }
    }
    assert sigs[..|sigs|] == sigs;
    r := Report(unfiltered.Value(), filtered.Value(), scored, missing, incomplete);
  }

  lemma MissingCandle(env: Env, r: Report, sig: RawSignal)
    requires Sound(r.unfiltered) && Sound(r.filtered) && IndexOf(env.candles, sig.time).None?
    ensures Step(env, r, sig) == r.(missing := r.missing + 1)
  {
  }
}
