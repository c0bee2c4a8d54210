/**
 The part of scripts/_tradestore.py the shim's monitor relies on: the orders and
 signals tables, their writers, and the walk from a ticket to the legs of its signal.
 */
module TradeStore {
  import opened Prelude

  /** A row of `orders`; a field the writer did not know is absent. A `tp` that is not a number counts as absent. */
  datatype OrderRow = OrderRow(trace: string, broker: Option<string>, command: Option<string>, tp: Option<real>)

  /** A row of `signals`; a trace list that is not a JSON list counts as empty. */
  datatype SignalRow = SignalRow(chat: int, message: int, channel: Option<string>, traces: seq<string>)

  // ---------------------------------------------------------------- the walk, on values

  /** The trace of the first order with this broker id, or nothing. */
  function TraceOf(orders: seq<OrderRow>, id: string): (r: string) {
    if orders == [] then ""
    else if orders[0].broker == Some(id) then orders[0].trace
    else TraceOf(orders[1..], id)
  }

  /** The first signal that lists a trace. */
  function SignalOf(signals: seq<SignalRow>, trace: string): (r: Option<SignalRow>)
    ensures r.Some? ==> r.value in signals && trace in r.value.traces
    ensures r.None? ==> forall s :: s in signals ==> trace !in s.traces
  {
    if signals == [] then None
    else if trace in signals[0].traces then Some(signals[0])
    else SignalOf(signals[1..], trace)
  }

  predicate HasTicket(row: OrderRow) {
    row.broker.Some? && row.broker.value != ""
  }

  /** The placed orders of a list of traces. */
  function Legs(orders: seq<OrderRow>, traces: seq<string>): (r: seq<OrderRow>) {
    if orders == [] then []
    else
      var last := orders[|orders| - 1];
      Legs(orders[..|orders| - 1], traces) + (if last.trace in traces && HasTicket(last) then [last] else [])
  }

  lemma {:induction false} LegsMembers(orders: seq<OrderRow>, traces: seq<string>, row: OrderRow)
    ensures row in Legs(orders, traces) <==> row in orders && row.trace in traces && HasTicket(row)
  {
    if orders != [] {
      var n := |orders| - 1;
      LegsMembers(orders[..n], traces, row);
      assert orders == orders[..n] + [orders[n]];
    }
  }

  /** The signal of a broker id, if the walk finds one. */
  function Found(orders: seq<OrderRow>, signals: seq<SignalRow>, id: string): (r: Option<SignalRow>) {
    if id == "" || TraceOf(orders, id) == "" then None else SignalOf(signals, TraceOf(orders, id))
  }

  /** `sibling_order_rows`. */
  function SiblingRows(orders: seq<OrderRow>, signals: seq<SignalRow>, id: string): (r: seq<OrderRow>) {
    var s := Found(orders, signals, id);
    if s.None? then [] else Legs(orders, s.value.traces)
  }

  /** Two broker ids whose orders are legs of one stored signal. */
  ghost predicate SameSignal(orders: seq<OrderRow>, signals: seq<SignalRow>, id: string, other: string) {
    exists s, a, b ::
      && s in signals && a in orders && b in orders
      && a.broker == Some(id) && b.broker == Some(other)
      && a.trace in s.traces && b.trace in s.traces
  }

  lemma {:induction false} TraceIsOfOrder(orders: seq<OrderRow>, id: string)
    requires TraceOf(orders, id) != ""
    ensures exists a :: a in orders && a.broker == Some(id) && a.trace == TraceOf(orders, id)
  {
    if orders[0].broker == Some(id) {
      assert orders[0] in orders;
    } else {
      TraceIsOfOrder(orders[1..], id);
      var a :| a in orders[1..] && a.broker == Some(id) && a.trace == TraceOf(orders[1..], id);
      assert a in orders;
    }
  }

  /** Whatever the tables hold, the walk yields only placed legs of a signal the ticket belongs to. */
  lemma WalkStaysInSignal(orders: seq<OrderRow>, signals: seq<SignalRow>, id: string, row: OrderRow)
    requires row in SiblingRows(orders, signals, id)
    ensures HasTicket(row) && SameSignal(orders, signals, id, row.broker.value)
  {
    TraceIsOfOrder(orders, id);
    LegsMembers(orders, Found(orders, signals, id).value.traces, row);
    var s := Found(orders, signals, id).value;
    var a :| a in orders && a.broker == Some(id) && a.trace == TraceOf(orders, id);
    assert a.trace in s.traces && row.trace in s.traces;
  }

  /** The first order with its ticket; later rows, such as an amendment's, may repeat it. */
  predicate FirstWithTicket(orders: seq<OrderRow>, k: nat)
    requires k < |orders|
  {
    HasTicket(orders[k]) && forall i :: 0 <= i < k ==> orders[i].broker != orders[k].broker
  }

  lemma {:induction false} TraceOfFirst(orders: seq<OrderRow>, k: nat)
    requires k < |orders| && FirstWithTicket(orders, k)
    ensures TraceOf(orders, orders[k].broker.value) == orders[k].trace
  {
    if k > 0 {
      assert orders[0].broker != orders[k].broker;
      TraceOfFirst(orders[1..], k - 1);
    }
  }

  /** From a leg that is the first order with its ticket, and whose trace only one signal lists, the walk
      is exact: it finds every leg of the signal, itself included, and nothing else. So all such legs of a
      signal see the same rows. */
  lemma WalkIsExact(orders: seq<OrderRow>, signals: seq<SignalRow>, s: SignalRow, k: nat)
    requires k < |orders| && FirstWithTicket(orders, k) && orders[k].trace != ""
    requires s in signals && forall u :: u in signals ==> (orders[k].trace in u.traces <==> u == s)
    ensures SiblingRows(orders, signals, orders[k].broker.value) == Legs(orders, s.traces)
    ensures orders[k] in SiblingRows(orders, signals, orders[k].broker.value)
  {
    TraceOfFirst(orders, k);
    LegsMembers(orders, s.traces, orders[k]);
  }

  // ---------------------------------------------------------------- the tables

  /** `COALESCE`. */
  function Coalesce<T>(given: Option<T>, kept: Option<T>): (r: Option<T>) {
    if given.Some? then given else kept
  }

  function Updated(row: OrderRow, given: OrderRow): (r: OrderRow) {
    OrderRow(row.trace, Coalesce(given.broker, row.broker), Coalesce(given.command, row.command),
      Coalesce(given.tp, row.tp))
  }

  /** The index of a trace, or the length. */
  function RowOf(orders: seq<OrderRow>, trace: string): (k: nat)
    ensures k <= |orders| && (k < |orders| ==> orders[k].trace == trace)
    ensures forall i :: 0 <= i < k ==> orders[i].trace != trace
  {
    if orders == [] || orders[0].trace == trace then 0 else 1 + RowOf(orders[1..], trace)
  }

  predicate UniqueTraces(orders: seq<OrderRow>) {
    forall i, j :: 0 <= i < j < |orders| ==> orders[i].trace != orders[j].trace
  }

  predicate UniqueSignals(signals: seq<SignalRow>) {
    forall i, j :: 0 <= i < j < |signals| ==>
      (signals[i].chat, signals[i].message) != (signals[j].chat, signals[j].message)
  }

  /** The upsert on values. */
  function Upserted(orders: seq<OrderRow>, given: OrderRow): (r: seq<OrderRow>) {
    var k := RowOf(orders, given.trace);
    if k < |orders| then orders[k := Updated(orders[k], given)] else orders + [given]
  }

  class Store {
    var orders: seq<OrderRow>
    var signals: seq<SignalRow>

    ghost predicate Valid()
      reads this
    {
      UniqueTraces(orders) && UniqueSignals(signals)
    }

    constructor ()
      ensures Valid() && orders == [] && signals == []
    {
      orders, signals := [], [];
    }

    /** `record_order`. */
    method RecordOrder(given: OrderRow)
      requires Valid()
      modifies `orders
      ensures Valid() && orders == Upserted(old(orders), given)
    {
      var k := 0;
      while k < |orders| && orders[k].trace != given.trace
        invariant 0 <= k <= |orders| && orders == old(orders)
        invariant forall i :: 0 <= i < k ==> orders[i].trace != given.trace
      {
        k := k + 1;
      }
      if k < |orders| {
        orders := orders[k := Updated(orders[k], given)];
      } else {
        orders := orders + [given];
      }
    }

    /** `append_signal_trace`: adds the trace once, to the one row with this key. */
    method AppendTrace(chat: int, message: int, trace: string)
      requires Valid()
      modifies `signals
      ensures Valid() && |signals| == |old(signals)|
      ensures forall i :: 0 <= i < |signals| ==>
                var was := old(signals)[i];
                var isNew := was.chat == chat && was.message == message && trace !in was.traces;
                signals[i] == if isNew then was.(traces := was.traces + [trace]) else was
    {
      for k := 0 to |signals|
        invariant signals == old(signals)
        invariant forall i :: 0 <= i < k ==> (signals[i].chat, signals[i].message) != (chat, message)
      {
        if signals[k].chat == chat && signals[k].message == message {
          if trace !in signals[k].traces {
            signals := signals[k := signals[k].(traces := signals[k].traces + [trace])];
          }
          return;
        }
      }
    }

    /** `sibling_order_rows`, as a sequence of scans. */
    method FindSiblings(id: string) returns (rows: seq<OrderRow>, channel: Option<string>)
      ensures rows == SiblingRows(orders, signals, id)
      ensures var s := Found(orders, signals, id); channel == if s.Some? then s.value.channel else None
    {
      if id == "" { return [], None; }
      var trace := FindTrace(id);
      if trace == "" { return [], None; }
      var s := FindSignal(trace);
      if s.None? { return [], None; }
      rows := CollectLegs(s.value.traces);
      channel := s.value.channel;
    }

    method FindSignal(trace: string) returns (s: Option<SignalRow>)
      ensures s == SignalOf(signals, trace)
    {
      for k := 0 to |signals|
        invariant SignalOf(signals, trace) == SignalOf(signals[k..], trace)
      {
        if trace in signals[k].traces { return Some(signals[k]); }
      }
      s := None;
    }

    method CollectLegs(traces: seq<string>) returns (rows: seq<OrderRow>)
      ensures rows == Legs(orders, traces)
    {
      rows := [];
      for k := 0 to |orders|
        invariant rows == Legs(orders[..k], traces)
      {
        assert orders[..k + 1][..k] == orders[..k];
        if orders[k].trace in traces && HasTicket(orders[k]) { rows := rows + [orders[k]]; }
      }
      assert orders[..|orders|] == orders;
    }

    method FindTrace(id: string) returns (trace: string)
      ensures trace == TraceOf(orders, id)
    {
      for k := 0 to |orders|
        invariant TraceOf(orders, id) == TraceOf(orders[k..], id)
      {
        if orders[k].broker == Some(id) { return orders[k].trace; }
      }
      trace := "";
    }
  }

  /** After an upsert each field is the last one given, every other row is as it was. */
  lemma UpsertKeepsFields(orders: seq<OrderRow>, given: OrderRow)
    requires UniqueTraces(orders)
    ensures UniqueTraces(Upserted(orders, given))
    ensures forall row :: row in Upserted(orders, given) && row.trace != given.trace <==>
              row in orders && row.trace != given.trace
    ensures exists row :: row in Upserted(orders, given) && row.trace == given.trace
              && (given.broker.Some? ==> row.broker == given.broker) && (given.tp.Some? ==> row.tp == given.tp)
              && (given.command.Some? ==> row.command == given.command)
              && (forall was :: was in orders && was.trace == given.trace ==>
                    (given.broker.None? ==> row.broker == was.broker) && (given.tp.None? ==> row.tp == was.tp)
                    && (given.command.None? ==> row.command == was.command))
  {
    var k, after := RowOf(orders, given.trace), Upserted(orders, given);
    assert after[k] in after && after[k].trace == given.trace;
    forall row: OrderRow | row.trace != given.trace ensures row in after <==> row in orders {
      if row in orders {
        var i :| 0 <= i < |orders| && orders[i] == row;
        assert after[i] == row;
      }
    }
  }
}
