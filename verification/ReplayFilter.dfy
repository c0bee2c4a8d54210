/**
 What the model's filter does to a replay (apps/backtester/backtest_ml.py), told
 from candles, signals and scores: where every trade comes from and ends, and
 what the filter is counted for.
 */
module ReplayFilter {
  import opened Prelude
  import opened Option1
  import opened Backtest
  import opened Replay

  /** The open of a bar, if it is there. */
  function OpenAt(candles: seq<Candle>, i: nat): (p: Option<real>) {
    if i < |candles| then Some(candles[i].open) else None
  }

  /** The trade was entered on the signal: its side, at the open of the bar after its candle. */
  predicate EnteredOn(env: Env, t: TradeValue, sig: RawSignal) {
    var at := IndexOf(env.candles, sig.time);
    && at.Some? && t.direction == (if sig.direction == 1 then Long else Short)
    && t.entryIndex == at.value + 1 && t.entryPrice == OpenAt(env.candles, at.value + 1)
  }

  /** The trade was left on the signal: of the other side, at the open of the bar after its candle. */
  predicate LeftOn(env: Env, t: TradeValue, sig: RawSignal) {
    var at := IndexOf(env.candles, sig.time);
    && at.Some? && t.direction != (if sig.direction == 1 then Long else Short)
    && t.exitIndex == Some(at.value + 1) && t.exitPrice == OpenAt(env.candles, at.value + 1)
  }

  /** The signal's score is above the threshold. */
  predicate ScorePasses(env: Env, sig: RawSignal) {
    var at := IndexOf(env.candles, sig.time);
    && (sig.direction == 1 || sig.direction == -1) && at.Some?
    && env.score(at.value, sig.direction).Some? && env.score(at.value, sig.direction).value > env.threshold
  }

  /** Entered on one signal, in the filtered branch one that passes, and left, if at all, on a later one. */
  predicate Explained(env: Env, sigs: seq<RawSignal>, t: TradeValue, filtered: bool) {
    exists j :: 0 <= j < |sigs| && EnteredOn(env, t, sigs[j]) && (filtered ==> ScorePasses(env, sigs[j]))
                && (t.exitIndex.Some? ==> exists k :: j < k < |sigs| && LeftOn(env, t, sigs[k]))
  }

  predicate AllExplained(env: Env, sigs: seq<RawSignal>, b: Branch, filtered: bool) {
    forall i :: 0 <= i < |b.trades| ==> Explained(env, sigs, b.trades[i], filtered)
  }

  // ---------------------------------------------------------------- one more signal

  lemma ExplainedLater(env: Env, sigs: seq<RawSignal>, sig: RawSignal, t: TradeValue, filtered: bool)
    requires Explained(env, sigs, t, filtered)
    ensures Explained(env, sigs + [sig], t, filtered)
  {
    hide EnteredOn, LeftOn, ScorePasses;
    var j :| 0 <= j < |sigs| && EnteredOn(env, t, sigs[j]) && (filtered ==> ScorePasses(env, sigs[j]))
             && (t.exitIndex.Some? ==> exists k :: j < k < |sigs| && LeftOn(env, t, sigs[k]));
    var more := sigs + [sig];
    assert more[j] == sigs[j];
    if t.exitIndex.Some? {
      var k :| j < k < |sigs| && LeftOn(env, t, sigs[k]);
      assert more[k] == sigs[k];
    }
  }

  lemma ExplainedEntry(env: Env, sigs: seq<RawSignal>, sig: RawSignal, t: TradeValue, filtered: bool)
    requires EnteredOn(env, t, sig) && (filtered ==> ScorePasses(env, sig)) && t.exitIndex.None?
    ensures Explained(env, sigs + [sig], t, filtered)
  {
    assert (sigs + [sig])[|sigs|] == sig;
  }

  lemma ExplainedExit(env: Env, sigs: seq<RawSignal>, sig: RawSignal, t: TradeValue, u: TradeValue, filtered: bool)
    requires Explained(env, sigs, t, filtered) && LeftOn(env, u, sig)
    requires u == t.(exitIndex := u.exitIndex, exitPrice := u.exitPrice)
    ensures Explained(env, sigs + [sig], u, filtered)
  {
    hide LeftOn, ScorePasses;
    var j :| 0 <= j < |sigs| && EnteredOn(env, t, sigs[j]) && (filtered ==> ScorePasses(env, sigs[j]));
    var more := sigs + [sig];
    assert more[j] == sigs[j] && EnteredOn(env, u, more[j]);
    assert more[|sigs|] == sig;
  }

  /** An update by the rule keeps every trade explained. */
  lemma AppliedExplained(env: Env, sigs: seq<RawSignal>, sig: RawSignal, b: Branch, o: Order, filtered: bool)
    requires Sound(b) && ByTheRule(b, o) && AllExplained(env, sigs, b, filtered)
    requires var at := IndexOf(env.candles, sig.time);
             at.Some? && o.index == at.value + 1 && o.price == OpenAt(env.candles, at.value + 1)
    requires o.side == (if sig.direction == 1 then Long else Short)
    requires filtered && o.open.Some? ==> ScorePasses(env, sig)
    ensures AllExplained(env, sigs + [sig], Applied(b, o), filtered)
  {
    hide Explained, ScorePasses;
    var after, n := Applied(b, o).trades, |b.trades|;
    forall i | 0 <= i < |after| ensures Explained(env, sigs + [sig], after[i], filtered) {
      if i == n {
        ExplainedEntry(env, sigs, sig, after[i], filtered);
      } else if o.close && i == n - 1 {
        ExplainedExit(env, sigs, sig, b.trades[i], after[i], filtered);
      } else {
        assert after[i] == b.trades[i];
        ExplainedLater(env, sigs, sig, b.trades[i], filtered);
      }
    }
  }

  lemma KeptExplained(env: Env, sigs: seq<RawSignal>, sig: RawSignal, b: Branch, filtered: bool)
    requires AllExplained(env, sigs, b, filtered)
    ensures AllExplained(env, sigs + [sig], b, filtered)
  {
    hide Explained;
    forall i | 0 <= i < |b.trades| ensures Explained(env, sigs + [sig], b.trades[i], filtered) {
      ExplainedLater(env, sigs, sig, b.trades[i], filtered);
    }
  }

  lemma FilledAtOpen(candles: seq<Candle>, i: nat)
    ensures FillPrice(candles, i) == OpenAt(candles, i)
  {
  }

  lemma OpenedOnlyIfPassing(b: Branch, sig: RawSignal, score: Option<real>, threshold: real, index: nat,
                            price: Option<real>)
    ensures var d := Decide(sig.direction, score, threshold, b.position);
            FilteredOrder(b, d, SideOf(sig.direction), index, price).open.Some? ==>
              (sig.direction == 1 || sig.direction == -1) && score.Some? && score.value > threshold
  {
  }

  lemma StepExplained(env: Env, sigs: seq<RawSignal>, r: Report, sig: RawSignal)
    requires Sound(r.unfiltered) && Sound(r.filtered)
    requires AllExplained(env, sigs, r.unfiltered, false) && AllExplained(env, sigs, r.filtered, true)
    ensures var q := Step(env, r, sig);
            AllExplained(env, sigs + [sig], q.unfiltered, false) && AllExplained(env, sigs + [sig], q.filtered, true)
  {
    hide Sound, ByTheRule, Applied, AllExplained, Decide, FillPrice, OpenAt;
    KeptExplained(env, sigs, sig, r.unfiltered, false);
    KeptExplained(env, sigs, sig, r.filtered, true);
    var at := IndexOf(env.candles, sig.time);
    if at.Some? {
      var i, side := at.value, SideOf(sig.direction);
      var price, score := FillPrice(env.candles, i + 1), env.score(i, sig.direction);
      FilledAtOpen(env.candles, i + 1);
      BaselineByTheRule(r.unfiltered, side, i + 1, price);
      AppliedExplained(env, sigs, sig, r.unfiltered, BaselineOrder(r.unfiltered, side, i + 1, price), false);
      if score.Some? {
        var d := Decide(sig.direction, score, env.threshold, r.filtered.position);
        FilteredByTheRule(env, r.filtered, sig, i + 1, price, score);
        OpenedOnlyIfPassing(r.filtered, sig, score, env.threshold, i + 1, price);
        AppliedExplained(env, sigs, sig, r.filtered, FilteredOrder(r.filtered, d, side, i + 1, price), true);
      }
    }
  }

  /** Every trade of either branch was entered on a signal of its side, at the bar after the signal's candle,
      and left, if it was, on a later signal of the other side; every trade of the filtered branch was entered
      on a signal whose score passes. */
  lemma {:induction false} TradesFollowSignals(env: Env, sigs: seq<RawSignal>)
    ensures AllExplained(env, sigs, Run(env, sigs).unfiltered, false)
    ensures AllExplained(env, sigs, Run(env, sigs).filtered, true)
  {
    hide Sound, Step, Explained;
    if sigs != [] {
      var n := |sigs| - 1;
      TradesFollowSignals(env, sigs[..n]);
      StepExplained(env, sigs[..n], Run(env, sigs[..n]), sigs[n]);
      assert sigs == sigs[..n] + [sigs[n]];
    }
  }

  // ---------------------------------------------------------------- what the filter is counted for

  /** The signal has a candle and complete features. */
  predicate Scored(env: Env, sig: RawSignal) {
    var at := IndexOf(env.candles, sig.time);
    at.Some? && env.score(at.value, sig.direction).Some?
  }

  function Asked(sig: RawSignal): (s: Side) {
    if sig.direction == 1 then Long else Short
  }

  /** The side the filtered branch holds: a passing signal's own, and none after one that does not pass
      but finds the other side held. */
  function Held(env: Env, sigs: seq<RawSignal>): (p: Option<Side>) {
    if sigs == [] then None
    else
      var n := |sigs| - 1;
      var before, sig := Held(env, sigs[..n]), sigs[n];
      if !Scored(env, sig) || (sig.direction != 1 && sig.direction != -1) then before
      else if ScorePasses(env, sig) || before == Some(Asked(sig)) then Some(Asked(sig))
      else None
  }

  /** How many scored signals opened, closed, found their own side held, or were blocked. */
  datatype Tally = Tally(opens: nat, closes: nat, pyramid: nat, blocked: nat)

  function Tallied(env: Env, sigs: seq<RawSignal>): (t: Tally) {
    if sigs == [] then Tally(0, 0, 0, 0)
    else
      var n := |sigs| - 1;
      var before, sig, t := Held(env, sigs[..n]), sigs[n], Tallied(env, sigs[..n]);
      if !Scored(env, sig) then t
      else if before == Some(Asked(sig)) then t.(pyramid := t.pyramid + 1)
      else
        var closes := if before.Some? && (sig.direction == 1 || sig.direction == -1) then 1 else 0;
        if ScorePasses(env, sig) then t.(opens := t.opens + 1, closes := t.closes + closes)
        else t.(blocked := t.blocked + 1, closes := t.closes + closes)
  }

  predicate Tallies(b: Branch, position: Option<Side>, t: Tally) {
    b.position == position && b.opens == t.opens && b.closes == t.closes && b.pyramid == t.pyramid
    && b.filtered == t.blocked
  }

  lemma FilteredTallies(env: Env, b: Branch, sig: RawSignal, o: Order)
    requires Sound(b) && Scored(env, sig)
    requires var at := IndexOf(env.candles, sig.time).value;
             var d := Decide(sig.direction, env.score(at, sig.direction), env.threshold, b.position);
             o == FilteredOrder(b, d, SideOf(sig.direction), at + 1, FillPrice(env.candles, at + 1))
    ensures var c, own := Applied(b, o), b.position == Some(Asked(sig));
            var directed := sig.direction == 1 || sig.direction == -1;
            && c.position == (if !directed then b.position
                              else if ScorePasses(env, sig) || own then Some(Asked(sig)) else None)
            && c.pyramid == b.pyramid + (if own then 1 else 0)
            && c.opens == b.opens + (if !own && ScorePasses(env, sig) then 1 else 0)
            && c.closes == b.closes + (if !own && b.position.Some? && directed then 1 else 0)
            && c.filtered == b.filtered + (if !own && !ScorePasses(env, sig) then 1 else 0)
  {
    hide IndexOf, FillPrice;
    if b.position.Some? {
      assert b.position.value == Asked(sig) || b.position.value == Opposite(Asked(sig));
    }
  }

  /** The filtered branch's position and counters are those of the scored signals; the other branch blocks none. */
  lemma {:induction false} FilterCountsBlocked(env: Env, sigs: seq<RawSignal>)
    ensures Tallies(Run(env, sigs).filtered, Held(env, sigs), Tallied(env, sigs))
    ensures Run(env, sigs).unfiltered.filtered == 0
  {
    hide Sound, ScorePasses, Applied, FilteredOrder, BaselineOrder, Decide, FillPrice;
    if sigs != [] {
      var n := |sigs| - 1;
      FilterCountsBlocked(env, sigs[..n]);
      var r, sig := Run(env, sigs[..n]), sigs[n];
      StepBlocksNone(env, r, sig);
      if Scored(env, sig) {
        var at := IndexOf(env.candles, sig.time).value;
        var d := Decide(sig.direction, env.score(at, sig.direction), env.threshold, r.filtered.position);
        var o := FilteredOrder(r.filtered, d, SideOf(sig.direction), at + 1, FillPrice(env.candles, at + 1));
        FilteredTallies(env, r.filtered, sig, o);
        DirectedIfPassing(env, sig);
      }
    }
  }

  lemma DirectedIfPassing(env: Env, sig: RawSignal)
    ensures ScorePasses(env, sig) ==> sig.direction == 1 || sig.direction == -1
  {
  }

  lemma StepBlocksNone(env: Env, r: Report, sig: RawSignal)
    requires Sound(r.unfiltered) && Sound(r.filtered)
    ensures Step(env, r, sig).unfiltered.filtered == r.unfiltered.filtered
  {
    hide Sound, IndexOf, FillPrice, FilteredOrder, Decide;
  }

  // ---------------------------------------------------------------- profit

  /** A long trade gains what the price rises, a short one what it falls, as a part of the entry price. */
  lemma PnlIsGain(t: TradeValue)
    requires t.entryPrice.Some? && t.exitPrice.Some? && t.entryPrice.value != 0.0
    ensures Pnl(t).Some?
    ensures t.exitPrice.value ==
              t.entryPrice.value * (if t.direction == Long then 1.0 + Pnl(t).value else 1.0 - Pnl(t).value)
  {
    var a, b := t.entryPrice.value, t.exitPrice.value;
    var gain := (b - a) / a;
    assert gain * a == b - a;
    assert a * (1.0 + gain) == a + a * gain;
  }

  /** A branch's profit adds up trade by trade, one without both prices adding nothing; the uplift is what the
      filtered branch has over the other. */
  lemma ProfitAddsUp(trades: seq<TradeValue>, t: TradeValue, r: Report)
    ensures PnlSum([]) == 0.0
    ensures PnlSum(trades + [t]) == PnlSum(trades) + (if Pnl(t).Some? then Pnl(t).value else 0.0)
    ensures t.entryPrice.None? || t.exitPrice.None? ==> Pnl(t).None?
    ensures PnlSum(r.unfiltered.trades) + Uplift(r) == PnlSum(r.filtered.trades)
  {
    assert (trades + [t])[..|trades|] == trades;
  }
}
