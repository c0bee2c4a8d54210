/**
 The replay with its scores computed from the candles (apps/backtester/backtest_ml.py
 over apps/backtester/feature_builder.py): later candles change no decision on
 earlier signals.
 */
module ReplayFeatures {
  import opened Prelude
  import opened Option1
  import opened Backtest
  import opened Replay
  import Directional
  import Features

  datatype Bar = Bar(time: int, candle: Directional.Candle)

  /** What the replay is run with besides candles and signals: the model is any function of the features. */
  datatype Setup = Setup(root: real -> real, h1: nat, h4: nat, model: (seq<real>, int) -> real, threshold: real)

  predicate Usable(u: Setup) {
    u.h1 >= 1 && u.h4 >= 1
  }

  function Series(bars: seq<Bar>): (r: seq<Directional.Candle>)
    ensures |r| == |bars|
  {
    seq(|bars|, i requires 0 <= i < |bars| => bars[i].candle)
  }

  function Fills(bars: seq<Bar>): (r: seq<Candle>)
    ensures |r| == |bars|
  {
    seq(|bars|, i requires 0 <= i < |bars| => Candle(bars[i].time, bars[i].candle.open))
  }

  /** Bars the feature builder can be made of. */
  predicate Buildable(bars: seq<Bar>) {
    Features.Divisible(Features.Closes(Series(bars)))
  }

  function BuiltAt(u: Setup, bars: seq<Bar>, i: nat): (r: Features.Built)
    requires Usable(u) && Buildable(bars)
  {
    Features.PrecomputedIsSized(u.root, Series(bars), u.h1, u.h4);
    Features.BuildAt(Features.Precompute(u.root, Series(bars), u.h1, u.h4).value, i)
  }

  function Score(u: Setup, bars: seq<Bar>, i: nat, direction: int): (r: Option<real>)
    requires Usable(u) && Buildable(bars)
  {
    match BuiltAt(u, bars, i)
    case Features(values) => Some(u.model(values, direction))
    case _ => None
  }

  function EnvOf(u: Setup, bars: seq<Bar>): (env: Env)
    requires Usable(u) && Buildable(bars)
  {
    Env(Fills(bars), (i: nat, direction: int) => Score(u, bars, i, direction), u.threshold)
  }

  // ---------------------------------------------------------------- prices aside

  function NoPrices(t: TradeValue): (r: TradeValue) {
    t.(entryPrice := None, exitPrice := None)
  }

  /** A branch without its prices. */
  function Unpriced(b: Branch): (r: Branch)
    ensures |r.trades| == |b.trades| && r.position == b.position && r.open == b.open
  {
    b.(trades := seq(|b.trades|, i requires 0 <= i < |b.trades| => NoPrices(b.trades[i])))
  }

  /** Prices pass through an update without bearing on it. */
  lemma AppliedUnpriced(b: Branch, o: Order)
    requires b.open ==> b.trades != []
    ensures Unpriced(Applied(b, o)) == Applied(Unpriced(b), o.(price := None))
  {
    assert Unpriced(Applied(b, o)).trades == Applied(Unpriced(b), o.(price := None)).trades;
  }

  /** Two updates that differ in prices only. */
  lemma AppliedAlike(b: Branch, c: Branch, o: Order, q: Order)
    requires Sound(b) && Sound(c) && Unpriced(b) == Unpriced(c) && o.(price := None) == q.(price := None)
    ensures Unpriced(Applied(b, o)) == Unpriced(Applied(c, q))
  {
    hide Applied, Unpriced;
    AppliedUnpriced(b, o);
    AppliedUnpriced(c, q);
  }

  /** Two reports that differ in prices only. */
  predicate Alike(r: Report, q: Report) {
    && Unpriced(r.unfiltered) == Unpriced(q.unfiltered) && Unpriced(r.filtered) == Unpriced(q.filtered)
    && r.scored == q.scored && r.missing == q.missing && r.incomplete == q.incomplete
  }

  /** Two environments that treat a signal alike. */
  predicate SameView(e: Env, f: Env, sig: RawSignal) {
    var at := IndexOf(e.candles, sig.time);
    && at == IndexOf(f.candles, sig.time) && e.threshold == f.threshold
    && (at.Some? ==> e.score(at.value, sig.direction) == f.score(at.value, sig.direction))
  }

  /** And fill it alike. */
  predicate SameFill(e: Env, f: Env, sig: RawSignal) {
    var at := IndexOf(e.candles, sig.time);
    at.Some? ==> FillPrice(e.candles, at.value + 1) == FillPrice(f.candles, at.value + 1)
  }

  lemma StepAlike(e: Env, f: Env, r: Report, q: Report, sig: RawSignal)
    requires Sound(r.unfiltered) && Sound(r.filtered) && Sound(q.unfiltered) && Sound(q.filtered)
    requires Alike(r, q) && SameView(e, f, sig)
    ensures Alike(Step(e, r, sig), Step(f, q, sig))
  {
    hide Sound, Applied, Decide, FillPrice;
    var at := IndexOf(e.candles, sig.time);
    if at.Some? {
      var i, side := at.value, SideOf(sig.direction);
      var p, p' := FillPrice(e.candles, i + 1), FillPrice(f.candles, i + 1);
      SamePosition(r.unfiltered, q.unfiltered);
      SamePosition(r.filtered, q.filtered);
      AppliedAlike(r.unfiltered, q.unfiltered,
                   BaselineOrder(r.unfiltered, side, i + 1, p), BaselineOrder(q.unfiltered, side, i + 1, p'));
      var d := Decide(sig.direction, e.score(i, sig.direction), e.threshold, r.filtered.position);
      AppliedAlike(r.filtered, q.filtered,
                   FilteredOrder(r.filtered, d, side, i + 1, p), FilteredOrder(q.filtered, d, side, i + 1, p'));
    }
  }

  lemma SamePosition(b: Branch, c: Branch)
    requires Unpriced(b) == Unpriced(c)
    ensures b.position == c.position
  {
  }

  lemma {:induction false} RunAlike(e: Env, f: Env, sigs: seq<RawSignal>)
    requires forall j :: 0 <= j < |sigs| ==> SameView(e, f, sigs[j])
    ensures Alike(Run(e, sigs), Run(f, sigs))
  {
    hide Sound, Step, SameView, Alike;
    if sigs == [] {
      NothingAlike();
    } else {
      var n := |sigs| - 1;
      RunAlike(e, f, sigs[..n]);
      StepAlike(e, f, Run(e, sigs[..n]), Run(f, sigs[..n]), sigs[n]);
    }
  }

  lemma NothingAlike()
    ensures Alike(NOTHING, NOTHING)
  {
  }

  lemma {:induction false} RunSame(e: Env, f: Env, sigs: seq<RawSignal>)
    requires forall j :: 0 <= j < |sigs| ==> SameView(e, f, sigs[j]) && SameFill(e, f, sigs[j])
    ensures Run(e, sigs) == Run(f, sigs)
  {
    hide Sound, Applied, Decide, BaselineOrder, FilteredOrder, FillPrice;
    if sigs != [] {
      var n := |sigs| - 1;
      RunSame(e, f, sigs[..n]);
      assert SameView(e, f, sigs[n]) && SameFill(e, f, sigs[n]);
    }
  }

  // ---------------------------------------------------------------- no lookahead

  /** No bar from `k` on carries the signal's time. */
  predicate Earlier(bars: seq<Bar>, k: int, sig: RawSignal) {
    forall j :: 0 <= j < |bars| && k <= j ==> bars[j].time != sig.time
  }

  lemma {:induction false} IndexOfPrefix(candles: seq<Candle>, k: nat, time: int)
    requires k <= |candles| && forall j :: k <= j < |candles| ==> candles[j].time != time
    ensures IndexOf(candles, time) == IndexOf(candles[..k], time)
    decreases |candles|
  {
    var n := |candles| - 1;
    if k <= n {
      IndexOfPrefix(candles[..n], k, time);
      assert candles[..n][..k] == candles[..k];
    } else {
      assert candles[..k] == candles;
    }
  }

  lemma PrefixBuildable(bars: seq<Bar>, k: nat)
    requires k <= |bars| && Buildable(bars)
    ensures Buildable(bars[..k]) && Series(bars[..k]) == Series(bars)[..k] && Fills(bars[..k]) == Fills(bars)[..k]
  {
    hide Features.Divisible;
    assert Series(bars[..k]) == Series(bars)[..k];
    Features.ClosesPrefix(Series(bars), k);
  }

  /** The features of a bar do not depend on later bars. */
  lemma SameFeatures(u: Setup, bars: seq<Bar>, k: nat, i: nat)
    requires Usable(u) && Buildable(bars) && i < k <= |bars| && Buildable(bars[..k])
    ensures BuiltAt(u, bars[..k], i) == BuiltAt(u, bars, i)
  {
    hide Features.Precompute, Features.BuildAt, Features.Divisible, Features.Sized;
    assert Series(bars[..k]) == Series(bars)[..k];
    Features.NoLookahead(u.root, Series(bars), u.h1, u.h4, k, i);
  }

  lemma EarlierIsSeenAlike(u: Setup, bars: seq<Bar>, k: nat, sig: RawSignal)
    requires Usable(u) && Buildable(bars) && k <= |bars| && Buildable(bars[..k]) && Earlier(bars, k, sig)
    ensures SameView(EnvOf(u, bars[..k]), EnvOf(u, bars), sig)
  {
    hide BuiltAt, Buildable;
    var e, f := EnvOf(u, bars[..k]), EnvOf(u, bars);
    assert Fills(bars[..k]) == Fills(bars)[..k];
    IndexOfPrefix(Fills(bars), k, sig.time);
    var at := IndexOf(e.candles, sig.time);
    if at.Some? { SameFeatures(u, bars, k, at.value); }
  }

  /** Extending the candles leaves every decision and position on the earlier signals as it was, in both
      branches, and every price too once the bar it is filled at is there. */
  lemma ReplayLooksNotAhead(u: Setup, bars: seq<Bar>, k: nat, sigs: seq<RawSignal>)
    requires Usable(u) && Buildable(bars) && k <= |bars|
    requires forall j :: 0 <= j < |sigs| ==> Earlier(bars, k, sigs[j])
    ensures Buildable(bars[..k]) && Alike(Run(EnvOf(u, bars[..k]), sigs), Run(EnvOf(u, bars), sigs))
    ensures (forall j :: 0 <= j < |sigs| ==> Earlier(bars, k - 1, sigs[j])) ==>
              Run(EnvOf(u, bars[..k]), sigs) == Run(EnvOf(u, bars), sigs)
  {
    hide Run, Alike, SameView, SameFill, Buildable, Earlier, EnvOf;
    PrefixBuildable(bars, k);
    var e, f := EnvOf(u, bars[..k]), EnvOf(u, bars);
    forall j | 0 <= j < |sigs| ensures SameView(e, f, sigs[j]) { EarlierIsSeenAlike(u, bars, k, sigs[j]); }
    RunAlike(e, f, sigs);
    if forall j :: 0 <= j < |sigs| ==> Earlier(bars, k - 1, sigs[j]) {
      forall j | 0 <= j < |sigs| ensures SameFill(e, f, sigs[j]) { FilledAlready(u, bars, k, sigs[j]); }
      RunSame(e, f, sigs);
    }
  }

  lemma FilledAlready(u: Setup, bars: seq<Bar>, k: nat, sig: RawSignal)
    requires k <= |bars| && Usable(u) && Buildable(bars) && Buildable(bars[..k]) && Earlier(bars, k - 1, sig)
    ensures SameFill(EnvOf(u, bars[..k]), EnvOf(u, bars), sig)
  {
    hide Buildable, Score;
    var at := IndexOf(Fills(bars[..k]), sig.time);
    if at.Some? {
      assert bars[at.value].time == sig.time;
      assert at.value < k - 1;
    }
  }
}
