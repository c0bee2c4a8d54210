/**
 Delivery of signals to EA connections (`dispatch` in
 apps/bridge/internal/bridge/subscriber.go), interleaved with EA sessions coming
 and going. JetStream redelivers a message, with its count increased, after a nak
 and never after an ack or a term.
 */
module Dispatch {
  import opened Prelude
  import Hub

  const MAX_DELIVER_BEFORE_TERM := 10

  datatype Param = Param(key: string, value: string)
  datatype Signal = Signal(traceId: string, instance: string, command: string, symbol: string, params: seq<Param>)

  /** What EA receives. */
  datatype SignalMsg = SignalMsg(traceId: string, command: string, symbol: string, params: map<string, string>)

  datatype Reply = Ack | Nak | Term

  /** A message as delivered: `numDelivered` is absent when its metadata is unreadable,
      `signal` when its payload does not decode. */
  datatype Delivery = Delivery(numDelivered: Option<nat>, signal: Option<Signal>)

  /** What one call of `dispatch` does. */
  datatype Effect = Effect(write: Option<SignalMsg>, reply: Reply, dispatched: nat, nacked: nat)

  function ParamsOf(ps: seq<Param>): (m: map<string, string>) {
    if ps == [] then map[] else ParamsOf(ps[..|ps| - 1])[ps[|ps| - 1].key := ps[|ps| - 1].value]
  }

  /** The last value of a repeated key is the one sent. */
  lemma {:induction false} LastParamWins(ps: seq<Param>, k: nat)
    requires k < |ps| && forall j :: k < j < |ps| ==> ps[j].key != ps[k].key
    ensures ps[k].key in ParamsOf(ps) && ParamsOf(ps)[ps[k].key] == ps[k].value
  {
    var n := |ps| - 1;
    if k < n { LastParamWins(ps[..n], k); }
  }

  function MsgOf(s: Signal): (m: SignalMsg) {
    SignalMsg(s.traceId, s.command, s.symbol, ParamsOf(s.params))
  }

  /** No later parameter repeats the key. */
  predicate LastOf(ps: seq<Param>, k: nat)
    requires k < |ps|
  {
    forall j :: k < j < |ps| ==> ps[j].key != ps[k].key
  }

  /** What is sent is the signal's: its trace, its command, its symbol, and under each key the last value given. */
  lemma MessageIsSignal(s: Signal)
    ensures MsgOf(s).traceId == s.traceId && MsgOf(s).command == s.command && MsgOf(s).symbol == s.symbol
    ensures forall key :: key in MsgOf(s).params <==> exists k :: 0 <= k < |s.params| && s.params[k].key == key
    ensures forall k :: 0 <= k < |s.params| && LastOf(s.params, k) ==>
              s.params[k].key in MsgOf(s).params && MsgOf(s).params[s.params[k].key] == s.params[k].value
  {
    OnlyParams(s.params);
    forall k | 0 <= k < |s.params| && LastOf(s.params, k)
      ensures s.params[k].key in MsgOf(s).params && MsgOf(s).params[s.params[k].key] == s.params[k].value
    {
      LastParamWins(s.params, k);
    }
  }

  lemma {:induction false} OnlyParams(ps: seq<Param>)
    ensures forall key :: key in ParamsOf(ps) <==> exists k :: 0 <= k < |ps| && ps[k].key == key
  {
    if ps != [] {
      var n := |ps| - 1;
      OnlyParams(ps[..n]);
      forall key ensures key in ParamsOf(ps) <==> exists k :: 0 <= k < |ps| && ps[k].key == key {
        if key in ParamsOf(ps[..n]) {
          var k :| 0 <= k < n && ps[..n][k].key == key;
          assert ps[k].key == key;
        }
        if k :| 0 <= k < |ps| && ps[k].key == key {
          if k < n { assert ps[..n][k].key == key; }
        }
      }
    }
  }

  function EffectOf(d: Delivery, connected: bool, writeOk: bool): (e: Effect) {
    if d.numDelivered.Some? && d.numDelivered.value > MAX_DELIVER_BEFORE_TERM then Effect(None, Term, 0, 0)
    else if d.signal.None? then Effect(None, Term, 0, 0)
    else if !connected then Effect(None, Nak, 0, 1)
    else if !writeOk then Effect(Some(MsgOf(d.signal.value)), Nak, 0, 0)
    else Effect(Some(MsgOf(d.signal.value)), Ack, 1, 0)
  }

  /** The socket of an EA connection: it records what is written and may fail. */
  class Socket {
    var written: seq<SignalMsg>
    var broken: bool

    method WriteJson(m: SignalMsg) returns (ok: bool)
      modifies this
      ensures ok <==> !old(broken)
      ensures broken == old(broken) && written == old(written) + [m]
    {
      written := written + [m];
      ok := !broken;
    }
  }

  class Subscriber {
    var conns: map<string, Socket>
    var dispatched: nat
    var nacked: nat

    /** `dispatch`. */
    method Dispatch(d: Delivery) returns (reply: Reply)
      modifies this`dispatched, this`nacked, conns.Values
      ensures var routed := d.signal.Some? && d.signal.value.instance in conns;
              var socket := if routed then Some(conns[d.signal.value.instance]) else None;
              var e := EffectOf(d, socket.Some?, socket.Some? && !old(socket.value.broken));
              && reply == e.reply
              && dispatched == old(dispatched) + e.dispatched && nacked == old(nacked) + e.nacked
              && (forall o :: o in conns.Values ==>
                    o.written == old(o.written) + (if e.write.Some? && socket == Some(o) then [e.write.value] else []))
    {
      if d.numDelivered.Some? && d.numDelivered.value > MAX_DELIVER_BEFORE_TERM { return Term; }
      if d.signal.None? { return Term; }
      var signal := d.signal.value;
      if signal.instance !in conns {
        nacked := nacked + 1;
        return Nak;
      }
      var conn := conns[signal.instance];
      assert conn in conns.Values;
      var params: map<string, string> := map[];
      for i := 0 to |signal.params|
        invariant params == ParamsOf(signal.params[..i])
      {
        assert signal.params[..i + 1][..i] == signal.params[..i];
        params := params[signal.params[i].key := signal.params[i].value];
      }
      assert signal.params[..|signal.params|] == signal.params;
      var ok := conn.WriteJson(SignalMsg(signal.traceId, signal.command, signal.symbol, params));
      if !ok { return Nak; }
      dispatched := dispatched + 1;
      return Ack;
    }
  }

  // ---------------------------------------------------------------- runs

  datatype Status = Waiting | Acked | Terminated

  /** One signal's life: how often it was delivered, and the numbers of the deliveries
      that wrote to a connection and of those whose write succeeded. */
  datatype Progress = Progress(deliveries: nat, writes: seq<nat>, sent: seq<nat>, status: Status)

  const FRESH := Progress(0, [], [], Waiting)

  datatype Event =
    | Session(e: Hub.Event)
    | Deliver(id: nat, metadata: bool, signal: Option<Signal>, writeOk: bool)

  datatype State = State(hub: Hub.State, progress: map<nat, Progress>, dispatched: nat)

  const START := State(Hub.EMPTY, map[], 0)

  function ProgressOf(s: State, id: nat): (p: Progress) {
    if id in s.progress then s.progress[id] else FRESH
  }

  function Advance(p: Progress, e: Effect, writeOk: bool): (q: Progress) {
    var n := p.deliveries + 1;
    Progress(
      n,
      p.writes + (if e.write.Some? then [n] else []),
      p.sent + (if e.write.Some? && writeOk then [n] else []),
      match e.reply { case Ack => Acked case Nak => Waiting case Term => Terminated })
  }

  function EffectAt(s: State, e: Event): (r: Effect)
    requires e.Deliver?
  {
    var p := ProgressOf(s, e.id);
    var d := Delivery(if e.metadata then Some(p.deliveries + 1) else None, e.signal);
    EffectOf(d, e.signal.Some? && Hub.Get(s.hub, e.signal.value.instance).Some?, e.writeOk)
  }

  /** A settled message is not delivered again. */
  function Step(s: State, e: Event): (r: State) {
    match e
    case Session(h) => s.(hub := Hub.Step(s.hub, h))
    case Deliver(id, _, _, _) =>
      if ProgressOf(s, id).status != Waiting then s
      else
        var effect := EffectAt(s, e);
        s.(progress := s.progress[id := Advance(ProgressOf(s, id), effect, e.writeOk)],
          dispatched := s.dispatched + effect.dispatched)
  }

  function Run(s: State, es: seq<Event>): (r: State)
    decreases |es|
  {
    if es == [] then s else Run(Step(s, es[0]), es[1..])
  }

  /** The deliveries of one signal carry readable metadata. */
  predicate MetadataReadable(es: seq<Event>, id: nat) {
    forall i :: 0 <= i < |es| && es[i].Deliver? && es[i].id == id ==> es[i].metadata
  }

  /** Settled by the 11th delivery; no delivery writes twice, and none after the 10th writes. */
  predicate Bounded(p: Progress) {
    && p.deliveries <= 11 && (p.deliveries == 11 ==> p.status == Terminated)
    && (forall i, j :: 0 <= i < j < |p.writes| ==> p.writes[i] < p.writes[j])
    && (forall i :: 0 <= i < |p.writes| ==> 1 <= p.writes[i] <= p.deliveries && p.writes[i] <= MAX_DELIVER_BEFORE_TERM)
  }

  /** The one write that succeeds is that of the delivery which is acked. */
  predicate Honest(p: Progress) {
    && p.sent == (if p.status == Acked then [p.deliveries] else [])
    && (p.status == Acked ==> p.deliveries in p.writes)
  }

  ghost function AckedIds(s: State): (ids: set<nat>) {
    set id | id in s.progress && s.progress[id].status == Acked
  }

  ghost predicate Inv(s: State) {
    (forall id :: id in s.progress ==> Honest(s.progress[id])) && s.dispatched == |AckedIds(s)|
  }

  /** A delivery is acked exactly when its write succeeds. */
  lemma AckIffSent(d: Delivery, connected: bool, writeOk: bool)
    ensures var e := EffectOf(d, connected, writeOk);
            (e.reply == Ack <==> e.write.Some? && writeOk) && e.dispatched == if e.reply == Ack then 1 else 0
  {
  }

  lemma AckIffSentAt(s: State, e: Event)
    requires e.Deliver?
    ensures var f := EffectAt(s, e);
            (f.reply == Ack <==> f.write.Some? && e.writeOk) && f.dispatched == if f.reply == Ack then 1 else 0
  {
    hide EffectOf;
    var d := Delivery(if e.metadata then Some(ProgressOf(s, e.id).deliveries + 1) else None, e.signal);
    AckIffSent(d, e.signal.Some? && Hub.Get(s.hub, e.signal.value.instance).Some?, e.writeOk);
  }

  lemma AdvanceHonest(p: Progress, e: Effect, writeOk: bool)
    requires Honest(p) && p.status == Waiting && (e.reply == Ack <==> e.write.Some? && writeOk)
    ensures Honest(Advance(p, e, writeOk)) && (Advance(p, e, writeOk).status == Acked <==> e.reply == Ack)
  {
  }

  lemma StepInv(s: State, e: Event)
    requires Inv(s)
    ensures Inv(Step(s, e))
  {
    hide EffectOf, EffectAt, Advance, Honest;
    var t := Step(s, e);
    if e.Deliver? && ProgressOf(s, e.id).status == Waiting {
      AckIffSentAt(s, e);
      FreshHonest();
      AdvanceHonest(ProgressOf(s, e.id), EffectAt(s, e), e.writeOk);
      assert AckedIds(t) == AckedIds(s) + (if EffectAt(s, e).reply == Ack then {e.id} else {});
    } else {
      assert AckedIds(t) == AckedIds(s);
    }
  }

  lemma FreshHonest()
    ensures Honest(FRESH)
  {
  }

  lemma StepBounded(s: State, e: Event, id: nat)
    requires Bounded(ProgressOf(s, id)) && (e.Deliver? && e.id == id ==> e.metadata)
    ensures Bounded(ProgressOf(Step(s, e), id))
  {
    if e.Deliver? && e.id == id && ProgressOf(s, id).status == Waiting {
      AdvanceBounded(ProgressOf(s, id), EffectAt(s, e), e.writeOk);
    }
  }

  lemma AdvanceBounded(p: Progress, e: Effect, writeOk: bool)
    requires Bounded(p) && p.status == Waiting
    requires p.deliveries == MAX_DELIVER_BEFORE_TERM ==> e.write.None? && e.reply == Term
    ensures Bounded(Advance(p, e, writeOk))
  {
  }

  lemma {:induction false} RunInv(s: State, es: seq<Event>)
    requires Inv(s)
    ensures Inv(Run(s, es))
    decreases |es|
  {
    hide Inv, Step;
    if es != [] {
      StepInv(s, es[0]);
      RunInv(Step(s, es[0]), es[1..]);
    }
  }

  /**
   In every run the delivery that is acked is the one, and the only one, whose write
   succeeded; the dispatched counter is the number of acked signals.
   */
  lemma AcksAreWrites(es: seq<Event>)
    ensures Inv(Run(START, es))
  {
    assert AckedIds(START) == {};
    RunInv(START, es);
  }

  lemma {:induction false} RunBounded(s: State, es: seq<Event>, id: nat)
    requires MetadataReadable(es, id) && Bounded(ProgressOf(s, id))
    ensures Bounded(ProgressOf(Run(s, es), id))
    decreases |es|
  {
    hide Step, Bounded, ProgressOf;
    if es != [] {
      StepBounded(s, es[0], id);
      RunBounded(Step(s, es[0]), es[1..], id);
    }
  }

  /**
   In every run, a signal with readable metadata is acked or terminated by its 11th
   delivery, is written at most once per delivery and never by the 11th.
   */
  lemma DeliveriesBounded(es: seq<Event>, id: nat)
    requires MetadataReadable(es, id)
    ensures Bounded(ProgressOf(Run(START, es), id))
  {
    RunBounded(START, es, id);
  }

  /** Without it the bound fails: a signal for an absent EA is naked and redelivered for ever. */
  lemma {:induction false} NakForever(s: State, id: nat, signal: Signal, n: nat)
    requires ProgressOf(s, id).status == Waiting && Hub.Get(s.hub, signal.instance).None?
    ensures var es := seq(n, _ => Deliver(id, false, Some(signal), true));
            ProgressOf(Run(s, es), id) == ProgressOf(s, id).(deliveries := ProgressOf(s, id).deliveries + n)
    decreases n
  {
    var e := Deliver(id, false, Some(signal), true);
    var es := seq(n, _ => e);
    if n > 0 {
      assert es[1..] == seq(n - 1, _ => e);
      NakForever(Step(s, e), id, signal, n - 1);
    }
  }

  /** Every delivery of a signal that waits, told by its number. One that can be read as the 11th or later, or whose
      payload does not decode, terminates it unwritten. Any other is written if its EA is connected, and is acked
      exactly when that write succeeds; else the signal goes on waiting. */
  lemma DeliverySettles(s: State, id: nat, metadata: bool, signal: Option<Signal>, writeOk: bool)
    requires ProgressOf(s, id).status == Waiting
    ensures var n, t := ProgressOf(s, id).deliveries + 1, Step(s, Deliver(id, metadata, signal, writeOk));
            var ended := (metadata && n > 10) || signal.None?;
            var connected := signal.Some? && Hub.Get(s.hub, signal.value.instance).Some?;
            && ProgressOf(t, id).deliveries == n && t.hub == s.hub
            && (ProgressOf(t, id).status == Terminated <==> ended)
            && (ProgressOf(t, id).status == Acked <==> !ended && connected && writeOk)
            && ProgressOf(t, id).writes == ProgressOf(s, id).writes + (if !ended && connected then [n] else [])
            && t.dispatched == s.dispatched + (if !ended && connected && writeOk then 1 else 0)
  {
    hide Hub.Get;
  }

  /** What a delivery that writes puts on the wire is its own signal; it is counted as not delivered exactly
      when its EA is not connected. */
  lemma WritesItsSignal(d: Delivery, connected: bool, writeOk: bool)
    ensures var e := EffectOf(d, connected, writeOk);
            var ended := (d.numDelivered.Some? && d.numDelivered.value > 10) || d.signal.None?;
            && (e.reply == Term <==> ended) && (e.reply == Ack <==> !ended && connected && writeOk)
            && (e.write.Some? <==> !ended && connected) && e.nacked == (if !ended && !connected then 1 else 0)
    ensures var e := EffectOf(d, connected, writeOk);
            e.write.Some? ==> d.signal.Some? && e.write.value.traceId == d.signal.value.traceId
                              && e.write.value.command == d.signal.value.command
                              && e.write.value.symbol == d.signal.value.symbol
                              && e.write.value.params == ParamsOf(d.signal.value.params)
  {
  }
}
