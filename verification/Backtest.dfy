/**
 The backtester's two-branch replay of the "Option 1" rule
 (apps/backtester/backtest_ml.py): one branch takes every signal, the other
 asks the model first. Prices are reals.
 */
module Backtest {
  import opened Prelude
  import opened Option1

  /** A trade; prices are absent when the fill would be past the last candle. */
  class Trade {
    const direction: Side
    const entryIndex: nat
    const entryPrice: Option<real>
    var exitIndex: Option<nat>
    var exitPrice: Option<real>

    constructor (direction: Side, index: nat, price: Option<real>)
      ensures this.direction == direction && entryIndex == index && entryPrice == price
      ensures exitIndex == None && exitPrice == None
    {
      this.direction, entryIndex, entryPrice := direction, index, price;
      exitIndex, exitPrice := None, None;
    }

    function Value(): (t: TradeValue)
      reads this
    {
      TradeValue(direction, entryIndex, entryPrice, exitIndex, exitPrice)
    }
  }

  datatype TradeValue = TradeValue(direction: Side, entryIndex: nat, entryPrice: Option<real>,
                                   exitIndex: Option<nat>, exitPrice: Option<real>)

  /** The state of a branch as a value; an open trade is always the last one. */
  datatype Branch = Branch(position: Option<Side>, open: bool, trades: seq<TradeValue>,
                           seen: nat, opens: nat, closes: nat, pyramid: nat, filtered: nat)

  const START := Branch(None, false, [], 0, 0, 0, 0, 0)

  /** One signal as a branch sees it: a decision and the next bar's fill. */
  datatype Order = Order(side: Side, close: bool, open: Option<Side>, blocked: bool, index: nat, price: Option<real>)

  function CloseLast(trades: seq<TradeValue>, index: nat, price: Option<real>): (r: seq<TradeValue>)
    requires trades != []
  {
    var n := |trades| - 1;
    trades[n := trades[n].(exitIndex := Some(index), exitPrice := price)]
  }

  /** `BranchState.apply` on values. */
  function Applied(b: Branch, o: Order): (r: Branch)
    requires b.open ==> b.trades != []
  {
    var exits := o.close && b.open;
    var trades := if exits then CloseLast(b.trades, o.index, o.price) else b.trades;
    var position := if exits then None else b.position;
    var b' := b.(seen := b.seen + 1, open := b.open && !exits, trades := trades, position := position,
                 closes := if exits then b.closes + 1 else b.closes);
    if o.open.Some? then
      b'.(open := true, trades := trades + [TradeValue(o.open.value, o.index, o.price, None, None)],
          position := o.open, opens := b.opens + 1)
    else if !o.close && b.position == Some(o.side) then b'.(pyramid := b.pyramid + 1)
    else if o.blocked then b'.(filtered := b.filtered + 1)
    else b'
  }

  class BranchState {
    var position: Option<Side>
    var openTrade: Trade?
    var trades: seq<Trade>
    var seen: nat
    var opens: nat
    var closes: nat
    var pyramid: nat
    var filtered: nat

    constructor ()
      ensures Valid() && Value() == START && trades == []
    {
      position, openTrade, trades := None, null, [];
      seen, opens, closes, pyramid, filtered := 0, 0, 0, 0, 0;
    }

    ghost predicate Valid()
      reads this
    {
      && (openTrade != null ==> trades != [] && openTrade == trades[|trades| - 1])
      && (forall i, j :: 0 <= i < j < |trades| ==> trades[i] != trades[j])
    }

    function Values(): (r: seq<TradeValue>)
      reads this, trades
      ensures |r| == |trades|
    {
      seq(|trades|, i requires 0 <= i < |trades| reads this, trades => trades[i].Value())
    }

    function Value(): (r: Branch)
      reads this, trades
      ensures Valid() && r.open ==> r.trades != []
    {
      Branch(position, openTrade != null, Values(), seen, opens, closes, pyramid, filtered)
    }

    /** Close the open trade, through the object it shares with the trade list. */
    method Exit(index: nat, price: Option<real>)
      requires Valid() && openTrade != null
      modifies this`position, this`openTrade, this`closes, openTrade
      ensures Valid() && openTrade == null && position == None && closes == old(closes) + 1
      ensures Values() == CloseLast(old(Values()), index, price)
    {
      openTrade.exitIndex := Some(index);
      openTrade.exitPrice := price;
      closes := closes + 1;
      openTrade := null;
      position := None;
    }

    method Enter(side: Side, index: nat, price: Option<real>)
      requires Valid()
      modifies this`position, this`openTrade, this`opens, this`trades
      ensures Valid() && openTrade != null && position == Some(side) && opens == old(opens) + 1
      ensures |trades| == |old(trades)| + 1 && trades[..|old(trades)|] == old(trades) && fresh(trades[|old(trades)|])
      ensures Values() == old(Values()) + [TradeValue(side, index, price, None, None)]
    {
      var t := new Trade(side, index, price);
      openTrade := t;
      trades := trades + [t];
      position := Some(side);
      opens := opens + 1;
    }

    /** `apply`. */
    method Apply(o: Order)
      requires Valid()
      modifies this, openTrade
      ensures Valid() && Value() == Applied(old(Value()), o)
      ensures var n := |old(trades)|;
              trades == old(trades) || (|trades| == n + 1 && trades[..n] == old(trades) && fresh(trades[n]))
    {
      hide CloseLast;
      ghost var was := Values();
      seen := seen + 1;
      assert Values() == was;
      var before := position;
      if o.close && openTrade != null {
        Exit(o.index, o.price);
      }
      ghost var now := Values();
      if o.open.Some? {
        Enter(o.open.value, o.index, o.price);
      } else if !o.close && before == Some(o.side) {
        pyramid := pyramid + 1;
        assert Values() == now;
      } else if o.blocked {
        filtered := filtered + 1;
        assert Values() == now;
      }
    }
  }
}
