/**
 When the backtest report's "opened = closed + still open" holds, told from the
 candles and signals of the replay (apps/backtester/backtest_ml.py).
 */
module ReplayReport {
  import opened Prelude
  import opened Option1
  import opened Backtest
  import opened Replay

  /** A signal on the last candle, against the position held: it closes a trade with no candle left to fill at. */
  predicate LateFlip(env: Env, position: Option<Side>, sig: RawSignal) {
    IndexOf(env.candles, sig.time) == Some(|env.candles| - 1) && position == Some(Opposite(SideOf(sig.direction)))
  }

  // ---------------------------------------------------------------- one update

  lemma UnpricedOfCut(trades: seq<TradeValue>, t: TradeValue)
    requires trades != []
    ensures ClosedUnpriced(trades[|trades| - 1 := t]) ==
            ClosedUnpriced(trades[..|trades| - 1]) + (if t.exitIndex.Some? && t.exitPrice.None? then 1 else 0)
  {
    var n := |trades| - 1;
    assert trades[n := t][..n] == trades[..n];
  }

  lemma UnpricedOfMore(trades: seq<TradeValue>, t: TradeValue)
    ensures ClosedUnpriced(trades + [t]) ==
              ClosedUnpriced(trades) + (if t.exitIndex.Some? && t.exitPrice.None? then 1 else 0)
  {
    assert (trades + [t])[..|trades|] == trades;
  }

  /** An update adds a trade closed without a price exactly when it closes without one. */
  lemma AppliedUnpriced(b: Branch, o: Order)
    requires Sound(b) && ByTheRule(b, o)
    ensures ClosedUnpriced(Applied(b, o).trades) ==
              ClosedUnpriced(b.trades) + (if o.close && o.price.None? then 1 else 0)
  {
    hide ClosedUnpriced;
    var trades := b.trades;
    if o.close {
      var n := |trades| - 1;
      UnpricedOfCut(trades, trades[n].(exitIndex := Some(o.index), exitPrice := o.price));
      UnpricedOfCut(trades, trades[n]);
      assert trades[n := trades[n]] == trades;
      trades := CloseLast(trades, o.index, o.price);
    }
    if o.open.Some? { UnpricedOfMore(trades, TradeValue(o.open.value, o.index, o.price, None, None)); }
  }

  lemma FillMissing(candles: seq<Candle>, i: nat)
    requires i < |candles|
    ensures FillPrice(candles, i + 1).None? <==> i == |candles| - 1
  {
  }

  lemma UnfilteredStep(env: Env, r: Report, sig: RawSignal)
    requires Sound(r.unfiltered) && Sound(r.filtered)
    ensures ClosedUnpriced(Step(env, r, sig).unfiltered.trades) ==
            ClosedUnpriced(r.unfiltered.trades) + (if LateFlip(env, r.unfiltered.position, sig) then 1 else 0)
  {
    hide Sound, Applied, FilteredOrder, ByTheRule, Decide, ClosedUnpriced, FillPrice;
    var at := IndexOf(env.candles, sig.time);
    if at.Some? {
      var i, side := at.value, SideOf(sig.direction);
      var price := FillPrice(env.candles, i + 1);
      FillMissing(env.candles, i);
      BaselineByTheRule(r.unfiltered, side, i + 1, price);
      AppliedUnpriced(r.unfiltered, BaselineOrder(r.unfiltered, side, i + 1, price));
    }
  }

  lemma FilteredStep(env: Env, r: Report, sig: RawSignal)
    requires Sound(r.unfiltered) && Sound(r.filtered)
    ensures ClosedUnpriced(Step(env, r, sig).filtered.trades) ==
            ClosedUnpriced(r.filtered.trades)
              + (if Decided(env, sig) && LateFlip(env, r.filtered.position, sig) then 1 else 0)
  {
    hide Sound, Applied, BaselineOrder, ByTheRule, ClosedUnpriced, FillPrice, Baseline;
    var at := IndexOf(env.candles, sig.time);
    if at.Some? && env.score(at.value, sig.direction).Some? {
      var i, side := at.value, SideOf(sig.direction);
      var price, score := FillPrice(env.candles, i + 1), env.score(i, sig.direction);
      var d := Decide(sig.direction, score, env.threshold, r.filtered.position);
      FillMissing(env.candles, i);
      FilteredByTheRule(env, r.filtered, sig, i + 1, price, score);
      AppliedUnpriced(r.filtered, FilteredOrder(r.filtered, d, side, i + 1, price));
    }
  }

  // ---------------------------------------------------------------- whole replays

  /** The signal at `k` is a late flip in the unfiltered branch. */
  predicate LateAt(env: Env, sigs: seq<RawSignal>, k: nat)
    requires k < |sigs|
  {
    LateFlip(env, Run(env, sigs[..k]).unfiltered.position, sigs[k])
  }

  /** And in the filtered one, which hears only decided signals. */
  predicate FilteredLateAt(env: Env, sigs: seq<RawSignal>, k: nat)
    requires k < |sigs|
  {
    Decided(env, sigs[k]) && LateFlip(env, Run(env, sigs[..k]).filtered.position, sigs[k])
  }

  lemma LatePrefix(env: Env, sigs: seq<RawSignal>, n: nat, k: nat)
    requires k < n <= |sigs|
    ensures LateAt(env, sigs[..n], k) == LateAt(env, sigs, k)
    ensures FilteredLateAt(env, sigs[..n], k) == FilteredLateAt(env, sigs, k)
  {
    hide Run;
    assert sigs[..n][..k] == sigs[..k];
  }

  lemma UnpricedNext(env: Env, sigs: seq<RawSignal>)
    requires sigs != []
    ensures var n := |sigs| - 1; var r, q := Run(env, sigs[..n]), Run(env, sigs);
            && ClosedUnpriced(q.unfiltered.trades) ==
              ClosedUnpriced(r.unfiltered.trades) + (if LateAt(env, sigs, n) then 1 else 0)
            && ClosedUnpriced(q.filtered.trades) ==
              ClosedUnpriced(r.filtered.trades) + (if FilteredLateAt(env, sigs, n) then 1 else 0)
  {
    hide Step, Sound, LateFlip, Decided, ClosedUnpriced;
    var n := |sigs| - 1;
    UnfilteredStep(env, Run(env, sigs[..n]), sigs[n]);
    FilteredStep(env, Run(env, sigs[..n]), sigs[n]);
  }

  lemma {:induction false} UnpricedIffLateFlip(env: Env, sigs: seq<RawSignal>)
    ensures ClosedUnpriced(Run(env, sigs).unfiltered.trades) == 0 <==>
              forall k :: 0 <= k < |sigs| ==> !LateAt(env, sigs, k)
    ensures ClosedUnpriced(Run(env, sigs).filtered.trades) == 0 <==>
              forall k :: 0 <= k < |sigs| ==> !FilteredLateAt(env, sigs, k)
  {
    hide Run, LateAt, FilteredLateAt, ClosedUnpriced;
    if sigs == [] {
      NothingUnpriced(env, sigs);
    } else {
      var n := |sigs| - 1;
      UnpricedIffLateFlip(env, sigs[..n]);
      UnpricedNext(env, sigs);
      forall k | 0 <= k < n
        ensures LateAt(env, sigs[..n], k) == LateAt(env, sigs, k)
        ensures FilteredLateAt(env, sigs[..n], k) == FilteredLateAt(env, sigs, k)
      {
        LatePrefix(env, sigs, n, k);
      }
    }
  }

  lemma NothingUnpriced(env: Env, sigs: seq<RawSignal>)
    requires sigs == []
    ensures Run(env, sigs).unfiltered.trades == Run(env, sigs).filtered.trades == []
    ensures ClosedUnpriced(Run(env, sigs).unfiltered.trades) == ClosedUnpriced(Run(env, sigs).filtered.trades) == 0
  {
    hide Sound, Step;
  }

  /**
   In both branches the report adds up exactly when no signal on the last candle
   turns against the position held.
   */
  lemma ReportAddsUpIff(env: Env, sigs: seq<RawSignal>)
    ensures var b := Run(env, sigs).unfiltered;
            b.opens == b.closes + StillOpen(b.trades) <==> forall k :: 0 <= k < |sigs| ==> !LateAt(env, sigs, k)
    ensures var b := Run(env, sigs).filtered;
            b.opens == b.closes + StillOpen(b.trades) <==> forall k :: 0 <= k < |sigs| ==> !FilteredLateAt(env, sigs, k)
  {
    hide Run, Sound, LateAt, FilteredLateAt;
    AddsUpIffPriced(Run(env, sigs).unfiltered);
    AddsUpIffPriced(Run(env, sigs).filtered);
    UnpricedIffLateFlip(env, sigs);
  }

  /** The side of the last signal that has a candle. */
  function LastSide(env: Env, sigs: seq<RawSignal>): (s: Option<Side>) {
    if sigs == [] then None
    else
      var sig := sigs[|sigs| - 1];
      if IndexOf(env.candles, sig.time).Some? then Some(SideOf(sig.direction)) else LastSide(env, sigs[..|sigs| - 1])
  }

  lemma BaselineHolds(b: Branch, side: Side, index: nat, price: Option<real>)
    requires Sound(b)
    ensures Applied(b, BaselineOrder(b, side, index, price)).position == Some(side)
  {
    assert b.position.None? || b.position.value == side || b.position.value == Opposite(side);
  }

  /** The unfiltered branch always holds it. */
  lemma {:induction false} UnfilteredHoldsLastSide(env: Env, sigs: seq<RawSignal>)
    ensures Run(env, sigs).unfiltered.position == LastSide(env, sigs)
  {
    hide Sound, Decide, FilteredOrder, BaselineOrder, Applied;
    if sigs != [] {
      var n := |sigs| - 1;
      UnfilteredHoldsLastSide(env, sigs[..n]);
      var at := IndexOf(env.candles, sigs[n].time);
      if at.Some? {
        BaselineHolds(Run(env, sigs[..n]).unfiltered, SideOf(sigs[n].direction), at.value + 1,
          FillPrice(env.candles, at.value + 1));
      }
    }
  }

  /** The signal at `k` is on the last candle and turns against the last signal before it that has a candle. */
  predicate TurnsLate(env: Env, sigs: seq<RawSignal>, k: nat)
    requires k < |sigs|
  {
    LateFlip(env, LastSide(env, sigs[..k]), sigs[k])
  }

  /** So the unfiltered report can be checked on the candles and signals alone. */
  lemma UnfilteredAddsUpIff(env: Env, sigs: seq<RawSignal>)
    ensures var b := Run(env, sigs).unfiltered;
            b.opens == b.closes + StillOpen(b.trades) <==> forall k :: 0 <= k < |sigs| ==> !TurnsLate(env, sigs, k)
  {
    hide Run, LateFlip, LastSide, StillOpen;
    ReportAddsUpIff(env, sigs);
    forall k | 0 <= k < |sigs| ensures LateAt(env, sigs, k) == TurnsLate(env, sigs, k) {
      UnfilteredHoldsLastSide(env, sigs[..k]);
    }
  }
}
