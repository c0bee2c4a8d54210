/**
 The live path of the "Option 1" rule: predictor, ingress table, shim. The book
 it leaves is compared with the filtered branch of the backtester.
 */
module LivePipeline {
  import opened Prelude
  import opened WebhookTables
  import opened Option1
  import opened Sizing
  import opened Terminal
  import Backtest
  import Replay

  /** The shim's positions of a symbol, either side. */
  function Own(book: map<nat, Position>, symbol: string): (r: set<nat>) {
    Targets(book, symbol, Long) + Targets(book, symbol, Short)
  }

  /** The book is flat, or holds exactly one position, of the given side. */
  ghost predicate Holds(book: map<nat, Position>, symbol: string, position: Option<Side>) {
    match position
    case None => Own(book, symbol) == {}
    case Some(side) => exists t :: t in book && Own(book, symbol) == {t} && book[t].side == side
  }

  /** The true position, read off the book. */
  function PositionOf(book: map<nat, Position>, symbol: string): (p: Option<Side>)
    ensures forall q :: Holds(book, symbol, q) ==> p == q
  {
    if Targets(book, symbol, Long) != {} then Some(Long)
    else if Targets(book, symbol, Short) != {} then Some(Short)
    else None
  }

  /** The position the rule asks for. */
  function Asked(d: Decision, side: Side, position: Option<Side>): (p: Option<Side>) {
    if d.shouldOpen then Some(side) else if d.shouldClose then None else position
  }

  /** What one request carries besides the signal. */
  datatype Request = Request(params: Params, market: Market)

  /** Sizing lets through an order that opens `side`. */
  predicate Sizable(q: Request, side: Side) {
    Lot(if side == Long then Buy else Sell, q.params, q.market) > 0.0
  }

  // ---------------------------------------------------------------- books

  lemma OwnAfter(before: map<nat, Position>, symbol: string, closed: set<nat>, ticket: nat, gained: Option<Position>,
                 after: map<nat, Position>)
    requires after == With(before - closed, ticket, gained) && ticket !in before
    requires gained.Some? ==> gained.value.own && gained.value.symbol == symbol
    ensures Own(after, symbol) == Own(before, symbol) - closed + (if gained.Some? then {ticket} else {})
    ensures forall t :: t in Own(after, symbol) ==>
              after[t].side == if t == ticket && gained.Some? then gained.value.side else before[t].side
  {
    assert forall t :: t in after && t != ticket ==> t in before && after[t] == before[t];
    assert forall t :: t in Own(after, symbol) <==>
      t in Own(before, symbol) - closed + (if gained.Some? then {ticket} else {});
  }

  /** A market command that fits the position never leaves more than one, and
      when all its orders go through it leaves the one it asks for. */
  lemma TradedHolds(c: Command, symbol: string, p: Params, m: Market, volume: real,
                    before: map<nat, Position>, ticket: nat, f: Fill, after: map<nat, Position>,
                    closed: set<nat>, gained: Option<Position>, position: Option<Side>)
    returns (now: Option<Side>)
    requires Traded(c, symbol, p, m, volume, before, ticket, f, after, closed, gained) && ticket !in before
    requires Holds(before, symbol, position)
    requires Closes(c) == position && (Opens(c).Some? || Closes(c).Some?)
    ensures Holds(after, symbol, now)
    ensures f.Fill? && !f.error ==> now == Opens(c)
  {
    hide Opens, Closes;
    OwnAfter(before, symbol, closed, ticket, gained, after);
    now := if gained.Some? then Opens(c) else if closed != {} then None else position;
    if position.Some? {
      var t :| t in before && Own(before, symbol) == {t} && before[t].side == position.value;
      assert Targets(before, symbol, position.value) == {t};
      if closed == {} && gained.None? {
        assert Own(after, symbol) == {t};
      } else if gained.None? {
        assert closed == {t};
      }
    }
    if gained.Some? { assert Own(after, symbol) == {ticket}; }
  }

  /** Only the shim's positions of the symbol change. */
  ghost predicate OthersKept(before: map<nat, Position>, after: map<nat, Position>, symbol: string) {
    && (forall t :: t in before && t !in Own(before, symbol) ==> t in after && after[t] == before[t])
    && (forall t :: t in after && t !in before ==> t in Own(after, symbol))
  }

  lemma TradedKeepsOthers(c: Command, symbol: string, p: Params, m: Market, volume: real,
                          before: map<nat, Position>, ticket: nat, f: Fill, after: map<nat, Position>,
                          closed: set<nat>, gained: Option<Position>)
    requires Traded(c, symbol, p, m, volume, before, ticket, f, after, closed, gained) && ticket !in before
    ensures OthersKept(before, after, symbol)
  {
    hide Opens, Closes;
    OwnAfter(before, symbol, closed, ticket, gained, after);
  }

  // ---------------------------------------------------------------- one signal

  /** The command published in enforce mode opens and closes what the decision says. */
  lemma EnforcedCommand(direction: int, score: real, threshold: real, position: Option<Side>, q: Request)
    requires direction == 1 || direction == -1
    ensures var side := SideOf(direction);
            var d := Decide(direction, Some(score), threshold, position);
            var c := Published(true, side, d, position);
            && (c.None? <==> !d.shouldOpen && !d.shouldClose)
            && (c.Some? ==> Opens(c.value) == (if d.shouldOpen then Some(side) else None)
                            && Closes(c.value) == (if d.shouldClose then position else None)
                            && Rests(c.value).None?
                            && (TooRisky(c.value, q.params, q.market) <==> d.shouldOpen && !Sizable(q, side)))
            && (d.shouldOpen && !d.shouldClose ==> position.None?)
            && (d.shouldClose ==> position == Some(Opposite(side)))
  {
    assert position.None? || position.value == SideOf(direction) || position.value == Opposite(SideOf(direction));
  }

  /** Predict, map and execute with the true position: the shim never holds two
      positions, and an accepting broker leaves the position the rule asks for
      unless sizing refused the opening leg, which then also skips the closing one. */
  method EnforcedStep(t: Terminal, symbol: string, direction: int, score: real, threshold: real, q: Request,
                      fallback: bool)
    returns (d: Decision)
    requires t.Valid() && (direction == 1 || direction == -1)
    requires Holds(t.positions, symbol, PositionOf(t.positions, symbol))
    modifies t
    ensures t.Valid() && d == Decide(direction, Some(score), threshold, old(PositionOf(t.positions, symbol)))
    ensures Holds(t.positions, symbol, PositionOf(t.positions, symbol))
              && OthersKept(old(t.positions), t.positions, symbol)
    ensures Accepting(old(t.replies)) ==> Accepting(t.replies)
    ensures Accepting(old(t.replies)) && q.market.tick.Some? ==>
              var was := old(PositionOf(t.positions, symbol));
              PositionOf(t.positions, symbol) ==
              if d.shouldOpen && !Sizable(q, SideOf(direction)) then was else Asked(d, SideOf(direction), was)
    ensures Accepting(old(t.replies)) && q.market.tick.Some? ==>
              (PositionOf(t.positions, symbol) == Asked(d, SideOf(direction), old(PositionOf(t.positions, symbol)))
               <==> (d.shouldOpen ==> Sizable(q, SideOf(direction))))
  {
    hide Opens, Closes, Rests, Lot, TooRisky, Sizable, Traded, Accepting, Decide, Published, Holds, Own;
    var position := PositionOf(t.positions, symbol);
    d := Predict(direction, Some(score), threshold, position);
    var c := Published(true, SideOf(direction), d, position);
    EnforcedCommand(direction, score, threshold, position, q);
    KeepsItself(t.positions, symbol);
    if c.None? { return; }
    ghost var before, ticket := t.positions, t.next;
    var f, closed, gained, _ := t.Execute(c.value, symbol, q.params, q.market, fallback);
    if !TooRisky(c.value, q.params, q.market) {
      ghost var lot := Lot(c.value, q.params, q.market);
      ghost var now := TradedHolds(c.value, symbol, q.params, q.market, lot, before, ticket,
                                   f, t.positions, closed, gained, position);
      TradedKeepsOthers(c.value, symbol, q.params, q.market, lot, before, ticket, f, t.positions, closed, gained);
    }
  }

  lemma KeepsItself(book: map<nat, Position>, symbol: string)
    ensures OthersKept(book, book, symbol)
  {
  }

  /** A buy at 100 with its stop at 90 and a budget of 5, where one lot is the least and loses 10. */
  const REFUSED :=
    Request(Params(1.0, 5.0, 90.0, 0.0, 0.0, None),
            Market(Some(Specs(1.0, 1.0, 1.0, 1.0, 10.0)), Some(Tick(100.0, 100.0))))

  lemma RefusedIsNotSizable()
    ensures !Sizable(REFUSED, Long)
  {
    hide SizedVolume;
    var info, p := REFUSED.market.info.value, REFUSED.params;
    assert Steps(100000000, 1.0 / DIGITS) == 1.0 && Steps(1, 1.0) == 1.0;
    assert OnGrid(Step(info), 1.0 / DIGITS) && OnGrid(info.volumeMin, Step(info));
    assert LossPerLot(info, 100.0, 90.0) == 10.0;
    RejectedIff(info, 100.0, 90.0, p.volume, p.risk);
  }

  /** A refused flip: the rule asks for long, and the short position stays. */
  method RefusedFlip(symbol: string, score: real, threshold: real) returns (t: Terminal, d: Decision)
    requires score > threshold
    ensures d.shouldClose && Asked(d, Long, Some(Short)) == Some(Long)
    ensures PositionOf(t.positions, symbol) == Some(Short)
  {
    hide Sizable, Lot, Accepting;
    var book: map<nat, Position> := map[7 := Position(symbol, Short, true, 1.0, 100.0, 110.0, 0.0, "")];
    t := new Terminal(book, map[], 8, []);
    OneShort(book, symbol);
    NothingRefused();
    RefusedIsNotSizable();
    d := EnforcedStep(t, symbol, 1, score, threshold, REFUSED, false);
  }

  lemma OneShort(book: map<nat, Position>, symbol: string)
    requires 7 in book && book.Keys == {7} && book[7].symbol == symbol && book[7].own && book[7].side == Short
    ensures PositionOf(book, symbol) == Some(Short) && Holds(book, symbol, Some(Short))
  {
    assert Own(book, symbol) == {7};
    assert 7 in Targets(book, symbol, Short);
  }

  lemma NothingRefused()
    ensures Accepting([])
  {
  }

  // ---------------------------------------------------------------- whole runs

  /** Every signal has a direction, a candle and a score. */
  predicate Scored(env: Replay.Env, sigs: seq<Replay.RawSignal>) {
    forall k :: 0 <= k < |sigs| ==> Replay.Decided(env, sigs[k])
  }

  predicate Tradable(q: Request, side: Side) {
    q.market.tick.Some? && Sizable(q, side)
  }

  /** The backtester's filtered position after one more scored signal. */
  lemma FilteredPosition(env: Replay.Env, r: Replay.Report, sig: Replay.RawSignal)
    requires Replay.Sound(r.unfiltered) && Replay.Sound(r.filtered) && Replay.Decided(env, sig)
    ensures var score := env.score(Replay.IndexOf(env.candles, sig.time).value, sig.direction);
            var d := Decide(sig.direction, score, env.threshold, r.filtered.position);
            Replay.Step(env, r, sig).filtered.position == Asked(d, SideOf(sig.direction), r.filtered.position)
  {
    hide Backtest.CloseLast;
  }

  /** Enforce mode over a whole run, from a flat book: at most one position
      whatever the broker does, and with every order accepted the position of
      the backtester's filtered branch. */
  method EnforcedRun(t: Terminal, symbol: string, env: Replay.Env, sigs: seq<Replay.RawSignal>, requests: seq<Request>,
                     fallback: bool)
    requires t.Valid() && Own(t.positions, symbol) == {}
    requires Scored(env, sigs) && |requests| == |sigs|
    modifies t
    ensures t.Valid() && Holds(t.positions, symbol, PositionOf(t.positions, symbol))
    ensures Accepting(old(t.replies))
              && (forall k :: 0 <= k < |sigs| ==> Tradable(requests[k], SideOf(sigs[k].direction))) ==>
              PositionOf(t.positions, symbol) == Replay.Run(env, sigs).filtered.position
  {
    hide Accepting, Decide, Replay.Step, Replay.Sound, Sizable, OthersKept, Replay.IndexOf;
    assert Holds(t.positions, symbol, None);
    ghost var good := && Accepting(t.replies)
                      && forall k :: 0 <= k < |sigs| ==> Tradable(requests[k], SideOf(sigs[k].direction));
    for k := 0 to |sigs|
      invariant t.Valid() && Holds(t.positions, symbol, PositionOf(t.positions, symbol))
      invariant good ==> Accepting(t.replies)
      invariant good ==> PositionOf(t.positions, symbol) == Replay.Run(env, sigs[..k]).filtered.position
    {
      assert sigs[..k + 1][..k] == sigs[..k] && Replay.Decided(env, sigs[k]);
      FilteredPosition(env, Replay.Run(env, sigs[..k]), sigs[k]);
      var score := env.score(Replay.IndexOf(env.candles, sigs[k].time).value, sigs[k].direction);
      var d := EnforcedStep(t, symbol, sigs[k].direction, score.value, env.threshold, requests[k], fallback);
    }
    assert sigs[..|sigs|] == sigs;
  }

  // ---------------------------------------------------------------- shadow mode and fail-open

  /** Publishing the caller's own action, as shadow mode and a failed prediction
      do, matches the filtered branch exactly when flat with a passing score. */
  method OwnActionStep(t: Terminal, symbol: string, direction: int, score: Option<real>, threshold: real, q: Request,
                       fallback: bool)
    requires t.Valid() && (direction == 1 || direction == -1)
    requires Holds(t.positions, symbol, PositionOf(t.positions, symbol))
    requires Accepting(t.replies) && Tradable(q, SideOf(direction))
    modifies t
    ensures t.Valid()
    ensures var position := old(PositionOf(t.positions, symbol));
            var wanted := Asked(Decide(direction, score, threshold, position), SideOf(direction), position);
            Holds(t.positions, symbol, wanted) <==> position.None? && score.Some? && score.value > threshold
  {
    hide Lot, Accepting, Holds, Targets;
    ghost var before, ticket := t.positions, t.next;
    var position := PositionOf(t.positions, symbol);
    var side := SideOf(direction);
    var c := Published(false, side, Decide(direction, score, threshold, position), position);
    var f, closed, gained, _ := t.Execute(c.value, symbol, q.params, q.market, fallback);
    OwnActionHolds(before, symbol, position, ticket, gained.value, t.positions);
  }

  lemma OwnActionHolds(before: map<nat, Position>, symbol: string, position: Option<Side>, ticket: nat,
                       gained: Position, after: map<nat, Position>)
    requires Holds(before, symbol, position) && ticket !in before && after == before[ticket := gained]
    requires gained.own && gained.symbol == symbol
    ensures forall q :: Holds(after, symbol, q) <==> position.None? && q == Some(gained.side)
  {
    OwnAfter(before, symbol, {}, ticket, Some(gained), after);
    assert before - {} == before;
    if position.None? {
      assert Own(after, symbol) == {ticket};
    } else {
      var t :| t in before && Own(before, symbol) == {t};
      assert ticket in Own(after, symbol) && t in Own(after, symbol);
    }
  }
}
