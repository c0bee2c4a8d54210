/**
 The broker terminal as the shim drives it: `send_market`, `send_pending`,
 `close_positions`, `modify_positions_sltp` and `execute` of scripts/ea_shim.py.
 The broker answers each request as it likes.
 */
module Terminal {
  import opened Prelude
  import opened WebhookTables
  import opened Option1
  import opened Sizing

  /** An answer to `order_send`; `Silent` is no answer at all. */
  datatype Reply = Done | InvalidFill | InvalidPrice | Refused | Silent

  datatype Position = Position(symbol: string, side: Side, own: bool, volume: real, entry: real, sl: real, tp: real,
                               comment: string)
  datatype Resting = Resting(symbol: string, side: Side, own: bool, volume: real, entry: real, sl: real, tp: real)

  datatype Tick = Tick(ask: real, bid: real)
  datatype Market = Market(info: Option<Specs>, tick: Option<Tick>)

  /** The numbers of a signal's parameters; an absent one has its default. */
  datatype Params = Params(volume: real, risk: real, sl: real, tp: real, entry: real, comment: Option<string>)

  datatype Status = Filled | Placed | Rejected

  /** What `execute` returns; `Raised` is an exception that escapes it. */
  datatype Fill = Fill(status: Status, error: bool, volume: real) | Raised

  /** What the bridge hears: an error text turns any status into a rejection. */
  function Reported(f: Fill): (s: Status)
    requires f.Fill?
  {
    if f.error then Rejected else f.status
  }

  const DEFAULT_COMMENT := "execrelay-shim"

  function Tag(comment: string): (r: string) {
    var c := if comment == "" then DEFAULT_COMMENT else comment;
    if |c| <= 26 then c else c[..26]
  }

  /** A level is sent only when positive. */
  function Level(x: real): (r: real) {
    if x > 0.0 then x else 0.0
  }

  function Bought(symbol: string, side: Side, volume: real, sl: real, tp: real, comment: string,
                  tick: Tick): (p: Position) {
    Position(symbol, side, true, volume, PriceOf(side, tick), Level(sl), Level(tp), Tag(comment))
  }

  /** A book with one more ticket, if there is one. */
  function With<T>(book: map<nat, T>, ticket: nat, added: Option<T>): (r: map<nat, T>) {
    if added.None? then book else book[ticket := added.value]
  }

  /** The shim's positions of one symbol and side. */
  function Targets(positions: map<nat, Position>, symbol: string, side: Side): (r: set<nat>) {
    set t | t in positions && positions[t].own && positions[t].symbol == symbol && positions[t].side == side
  }

  predicate StartsWith(s: string, prefix: string) {
    prefix <= s
  }

  /** Targets whose comment is in the scope of an amendment. */
  function InScope(positions: map<nat, Position>, symbol: string, side: Side, scope: string): (r: set<nat>) {
    set t | t in Targets(positions, symbol, side) && StartsWith(positions[t].comment, scope)
  }

  /** A new stop or target; a level that is not positive keeps the old one. */
  function Amended(p: Position, sl: real, tp: real): (q: Position) {
    p.(sl := if sl > 0.0 then sl else p.sl, tp := if tp > 0.0 then tp else p.tp)
  }

  function AmendAll(positions: map<nat, Position>, which: set<nat>, sl: real, tp: real): (r: map<nat, Position>) {
    map t | t in positions :: if t in which then Amended(positions[t], sl, tp) else positions[t]
  }

  // ---------------------------------------------------------------- commands

  /** The side a market command opens. */
  function Opens(c: Command): (s: Option<Side>) {
    match c
    case Buy => Some(Long)
    case Sell => Some(Short)
    case CloseLongOpenShort => Some(Short)
    case CloseShortOpenLong => Some(Long)
    case _ => None
  }

  /** The side a command closes first. */
  function Closes(c: Command): (s: Option<Side>) {
    match c
    case CloseLong => Some(Long)
    case CloseShort => Some(Short)
    case CloseLongOpenShort => Some(Long)
    case CloseShortOpenLong => Some(Short)
    case _ => None
  }

  function Rests(c: Command): (s: Option<Side>) {
    match c
    case BuyLimit => Some(Long)
    case BuyStop => Some(Long)
    case SellLimit => Some(Short)
    case SellStop => Some(Short)
    case _ => None
  }

  function Amends(c: Command): (s: Option<Side>) {
    match c
    case NewSltpLong => Some(Long)
    case NewSltpShort => Some(Short)
    case _ => None
  }

  /** The price a market order of one side fills at. */
  function PriceOf(side: Side, tick: Tick): (r: real) {
    if side == Long then tick.ask else tick.bid
  }

  /** The price an order that opens exposure is sized at: its own, or the market's. */
  function Reference(c: Command, p: Params, m: Market): (r: real) {
    if Rests(c).Some? then p.entry
    else if Opens(c).Some? && m.tick.Some? then PriceOf(Opens(c).value, m.tick.value)
    else 0.0
  }

  /** The lot an order that opens exposure is sent with. */
  function Lot(c: Command, p: Params, m: Market): (v: real) {
    if Rests(c).None? && Opens(c).None? then p.volume
    else SizedVolume(m.info, Reference(c, p, m), p.sl, p.volume, p.risk)
  }

  /** Sizing refuses the order before anything is sent. */
  predicate TooRisky(c: Command, p: Params, m: Market) {
    (Opens(c).Some? || Rests(c).Some?) && Lot(c, p, m) <= 0.0
  }

  /** The broker's next answer: done, once the script has run out. */
  function Answer(replies: seq<Reply>): (r: Reply) {
    if replies == [] then Done else replies[0]
  }

  function Later(replies: seq<Reply>): (r: seq<Reply>) {
    if replies == [] then [] else replies[1..]
  }

  /** The answer to a market request: of the second try, fill-or-kill, when the filling mode is refused. */
  function DealAnswer(replies: seq<Reply>): (r: Reply) {
    if Answer(replies) == InvalidFill then Answer(Later(replies)) else Answer(replies)
  }

  /** The answers left after a market request. */
  function DealLater(replies: seq<Reply>): (r: seq<Reply>) {
    if Answer(replies) == InvalidFill then Later(Later(replies)) else Later(replies)
  }

  function AfterDeals(replies: seq<Reply>, n: nat): (r: seq<Reply>) {
    if n == 0 then replies else DealLater(AfterDeals(replies, n - 1))
  }

  /** No answer at all to the second try. */
  predicate LostRetry(replies: seq<Reply>) {
    Answer(replies) == InvalidFill && Answer(Later(replies)) == Silent
  }

  predicate Accepting(replies: seq<Reply>) {
    forall k :: 0 <= k < |replies| ==> replies[k] == Done
  }

  /** `positions_get` and `orders_get`: every ticket once, in an order of the broker's choosing. */
  method Listing<T>(book: map<nat, T>) returns (tickets: seq<nat>)
    ensures forall t :: t in tickets <==> t in book
    ensures forall i, j :: 0 <= i < j < |tickets| ==> tickets[i] != tickets[j]
  {
    tickets := [];
    var todo := book.Keys;
    while todo != {}
      invariant forall t :: t in tickets || t in todo <==> t in book
      invariant forall t :: t in todo ==> t !in tickets
      invariant forall i, j :: 0 <= i < j < |tickets| ==> tickets[i] != tickets[j]
    {
      var t :| t in todo;
      tickets := tickets + [t];
      todo := todo - {t};
    }
  }

  class Terminal {
    var positions: map<nat, Position>
    var pendings: map<nat, Resting>
    var next: nat
    var replies: seq<Reply>

    ghost predicate Valid()
      reads this
    {
      (forall t :: t in positions ==> t < next) && (forall t :: t in pendings ==> t < next)
    }

    constructor (positions: map<nat, Position>, pendings: map<nat, Resting>, next: nat, replies: seq<Reply>)
      ensures (forall t :: t in positions ==> t < next) && (forall t :: t in pendings ==> t < next) ==> Valid()
      ensures this.positions == positions && this.pendings == pendings && this.next == next && this.replies == replies
    {
      this.positions, this.pendings, this.next, this.replies := positions, pendings, next, replies;
    }

    method Ask() returns (r: Reply)
      modifies `replies
      ensures r == Answer(old(replies)) && replies == Later(old(replies))
      ensures Accepting(old(replies)) ==> r == Done && Accepting(replies)
    {
      if replies == [] { return Done; }
      r := replies[0];
      replies := replies[1..];
    }

    /** A market request: one more try, fill-or-kill, when the filling mode is refused. */
    method Deal() returns (r: Reply, retried: bool)
      modifies `replies
      ensures replies == DealLater(old(replies))
      ensures r == DealAnswer(old(replies)) && (retried <==> Answer(old(replies)) == InvalidFill)
      ensures Accepting(old(replies)) ==> r == Done && Accepting(replies)
    {
      r := Ask();
      retried := false;
      if r == InvalidFill {
        r := Ask();
        retried := true;
      }
    }

    /** `send_market`: a lost answer to the retry raises. */
    method SendMarket(side: Side, symbol: string, volume: real, comment: string, sl: real, tp: real, tick: Option<Tick>)
      returns (ok: bool, raised: bool, ghost gained: Option<Position>)
      requires Valid()
      modifies this
      ensures Valid() && pendings == old(pendings)
      ensures positions == With(old(positions), old(next), gained)
      ensures ok ==> tick.Some? && !raised && gained == Some(Bought(symbol, side, volume, sl, tp, comment, tick.value))
      ensures !ok ==> gained.None?
      ensures ok <==> tick.Some? && DealAnswer(old(replies)) == Done
      ensures raised <==> tick.Some? && LostRetry(old(replies))
      ensures Accepting(old(replies)) ==> Accepting(replies) && (ok <==> tick.Some?) && !raised
    {
      ok, raised, gained := false, false, None;
      if tick.None? { return; }
      var r, retried := Deal();
      if r == Done {
        gained := Some(Bought(symbol, side, volume, sl, tp, comment, tick.value));
        positions := positions[next := Bought(symbol, side, volume, sl, tp, comment, tick.value)];
        next := next + 1;
        ok := true;
      } else if r == Silent && retried {
        raised := true;
      }
    }

    /** `send_pending`. */
    method SendPending(side: Side, symbol: string, volume: real, entry: real, sl: real, tp: real)
      returns (ok: bool, invalidPrice: bool)
      requires Valid()
      modifies this
      ensures Valid() && positions == old(positions)
      ensures !ok ==> next == old(next)
      ensures (ok <==> Answer(old(replies)) == Done) && (invalidPrice <==> Answer(old(replies)) == InvalidPrice)
      ensures replies == Later(old(replies))
      ensures var order := Resting(symbol, side, true, volume, entry, Level(sl), Level(tp));
              pendings == if ok then old(pendings)[old(next) := order] else old(pendings)
      ensures Accepting(old(replies)) ==> Accepting(replies) && ok
    {
      var r := Ask();
      ok, invalidPrice := r == Done, r == InvalidPrice;
      if ok {
        pendings := pendings[next := Resting(symbol, side, true, volume, entry, Level(sl), Level(tp))];
        next := next + 1;
      }
    }

    /** `close_positions`: stops at the first failure. */
    method ClosePositions(symbol: string, side: Side, tick: Option<Tick>) returns (ok: bool, closed: set<nat>)
      requires Valid()
      modifies this
      ensures Valid() && pendings == old(pendings) && next == old(next)
      ensures positions == old(positions) - closed && closed <= Targets(old(positions), symbol, side)
      ensures ok <==> closed == Targets(old(positions), symbol, side)
      ensures closed != {} <==>
                tick.Some? && Targets(old(positions), symbol, side) != {} && DealAnswer(old(replies)) == Done
      ensures ok ==> replies == AfterDeals(old(replies), |closed|)
      ensures Accepting(old(replies)) ==>
                Accepting(replies) && (ok <==> tick.Some? || Targets(old(positions), symbol, side) == {})
    {
      hide Accepting, AfterDeals, DealAnswer, DealLater, Targets, Among;
      var listed := positions;
      var tickets := Listing(listed);
      ghost var targets := Targets(listed, symbol, side);
      closed := {};
      NoDeals(replies);
      NoneAmong(tickets, targets);
      NothingRemoved(positions);
      for k := 0 to |tickets|
        invariant positions == listed - closed && pendings == old(pendings) && next == old(next)
        invariant closed == Among(tickets, k, targets)
        invariant Accepting(old(replies)) ==> Accepting(replies)
        invariant replies == AfterDeals(old(replies), |closed|) && (closed == {} ==> replies == old(replies))
        invariant closed != {} ==> tick.Some? && DealAnswer(old(replies)) == Done
      {
        var t := tickets[k];
        AmongNext(tickets, k, targets);
        AmongSubset(tickets, k, targets);
        TargetIff(listed, symbol, side, t);
        var p := listed[t];
        if p.symbol != symbol || !p.own || p.side != side { continue; }
        if tick.None? { return false, closed; }
        OneMoreDeal(old(replies), |closed|);
        var r, _ := Deal();
        if r != Done { return false, closed; }
        OneMoreRemoved(listed, closed, t);
        closed := closed + {t};
        positions := positions - {t};
      }
      AllAmong(listed, symbol, side, tickets);
      ok := true;
    }

    /** `modify_positions_sltp`: stops at the first failure. */
    method AmendPositions(symbol: string, side: Side, sl: real, tp: real, scope: string)
        returns (ok: bool, changed: set<nat>)
      requires Valid()
      modifies this
      ensures Valid() && pendings == old(pendings) && next == old(next)
      ensures positions == AmendAll(old(positions), changed, sl, tp)
      ensures changed <= InScope(old(positions), symbol, side, scope)
      ensures ok <==> changed == InScope(old(positions), symbol, side, scope)
      ensures Accepting(old(replies)) ==> Accepting(replies) && ok
    {
      hide Accepting, Amended, StartsWith;
      var tickets := Listing(positions);
      ghost var targets := InScope(positions, symbol, side, scope);
      changed := {};
      for k := 0 to |tickets|
        invariant positions == AmendAll(old(positions), changed, sl, tp)
        invariant pendings == old(pendings) && next == old(next)
        invariant changed == Among(tickets, k, targets)
        invariant Accepting(old(replies)) ==> Accepting(replies)
      {
        var t := tickets[k];
        AmongNext(tickets, k, targets);
        var p := positions[t];
        if p.symbol != symbol || !p.own || p.side != side || !StartsWith(p.comment, scope) { continue; }
        assert t in targets;
        var r := Ask();
        if r != Done { return false, changed; }
        changed := changed + {t};
        positions := positions[t := Amended(p, sl, tp)];
      }
      AmongAll(tickets, targets);
      ok := true;
    }

    /** The market commands: close one side, then open the other. */
    method Trade(c: Command, symbol: string, p: Params, m: Market, volume: real)
      returns (f: Fill, ghost closed: set<nat>, ghost gained: Option<Position>)
      requires Valid() && (Opens(c).Some? || Closes(c).Some?)
      modifies this
      ensures Valid() && pendings == old(pendings)
      ensures Traded(c, symbol, p, m, volume, old(positions), old(next), f, positions, closed, gained)
      ensures closed != {} <==> StartsClosing(c, symbol, m, old(positions), old(replies))
      ensures Opens(c).Some? ==>
                (gained.Some? <==> && closed == ClosedBy(c, symbol, old(positions)) && m.tick.Some?
                                   && DealAnswer(AfterDeals(old(replies), |closed|)) == Done)
      ensures f.Raised? <==> && Opens(c).Some? && closed == ClosedBy(c, symbol, old(positions)) && m.tick.Some?
                             && LostRetry(AfterDeals(old(replies), |closed|))
      ensures Accepting(old(replies)) ==> Accepting(replies) && (m.tick.Some? ==> f == Fill(Filled, false, volume))
    {
      hide Opens, Closes, ClosedBy, StartsClosing, DealAnswer, LostRetry, AfterDeals, Accepting, Bought;
      gained := None;
      var done, gone := CloseFirst(c, symbol, m);
      closed := gone;
      if !done || Opens(c).None? { return Fill(Filled, !done, volume), closed, gained; }
      var ok, raised, added := SendMarket(Opens(c).value, symbol, volume, CommentOf(p), p.sl, p.tp, m.tick);
      gained := added;
      if raised { return Raised, closed, gained; }
      f := Fill(if ok || Closes(c).Some? then Filled else Rejected, !ok, volume);
    }

    /** The closing leg of a market command, if it has one. */
    method CloseFirst(c: Command, symbol: string, m: Market) returns (ok: bool, closed: set<nat>)
      requires Valid()
      modifies this
      ensures Valid() && pendings == old(pendings) && next == old(next)
      ensures positions == old(positions) - closed && closed <= ClosedBy(c, symbol, old(positions))
      ensures ok <==> closed == ClosedBy(c, symbol, old(positions))
      ensures closed != {} <==> StartsClosing(c, symbol, m, old(positions), old(replies))
      ensures ok ==> replies == AfterDeals(old(replies), |closed|)
      ensures Accepting(old(replies)) ==> Accepting(replies) && (m.tick.Some? ==> ok)
    {
      hide Closes, Targets, DealAnswer, AfterDeals, Accepting;
      NoDeals(replies);
      NothingRemoved(positions);
      if Closes(c).None? { return true, {}; }
      ok, closed := ClosePositions(symbol, Closes(c).value, m.tick);
    }

    /** The pending commands, with the market fallback when the price is on the wrong side. */
    method Rest(side: Side, symbol: string, p: Params, m: Market, volume: real, fallback: bool)
      returns (f: Fill, ghost gained: Option<Position>, ghost resting: Option<Resting>)
      requires Valid()
      modifies this
      ensures Valid() && positions == With(old(positions), old(next), gained)
      ensures pendings == With(old(pendings), old(next), resting)
      ensures Rested(side, symbol, p, m, volume, fallback, old(replies), old(next), f, gained, resting)
      ensures Accepting(old(replies)) ==> Accepting(replies)
      ensures Accepting(old(replies)) ==>
                f == if p.entry <= 0.0 then Fill(Rejected, true, volume) else Fill(Placed, false, volume)
    {
      gained, resting := None, None;
      if p.entry <= 0.0 { return Fill(Rejected, true, volume), gained, resting; }
      var ok, invalidPrice := SendPending(side, symbol, volume, p.entry, p.sl, p.tp);
      if ok {
        resting := Some(Resting(symbol, side, true, volume, p.entry, Level(p.sl), Level(p.tp)));
        return Fill(Placed, false, volume), gained, resting;
      }
      if !fallback || !invalidPrice { return Fill(Filled, true, volume), gained, resting; }
      assert pendings == old(pendings) && next == old(next);
      var done, raised, added := SendMarket(side, symbol, volume, CommentOf(p) + "_M", p.sl, p.tp, m.tick);
      gained := added;
      f := if raised then Raised else Fill(Filled, !done, volume);
    }

    /** `execute`, on a resolved symbol. */
    method Execute(c: Command, symbol: string, p: Params, m: Market, fallback: bool)
      returns (f: Fill, ghost closed: set<nat>, ghost gained: Option<Position>, ghost resting: Option<Resting>)
      requires Valid()
      modifies this
      ensures Valid() && pendings == With(old(pendings), old(next), resting)
      ensures TooRisky(c, p, m) ==>
                f == Fill(Rejected, true, Lot(c, p, m)) && positions == old(positions) && gained.None? && resting.None?
      ensures !TooRisky(c, p, m) && (Opens(c).Some? || Closes(c).Some?) ==>
                && resting.None? && (closed != {} <==> StartsClosing(c, symbol, m, old(positions), old(replies)))
                && Traded(c, symbol, p, m, Lot(c, p, m), old(positions), old(next), f, positions, closed, gained)
      ensures !TooRisky(c, p, m) && Rests(c).Some? ==>
                && positions == With(old(positions), old(next), gained)
                && Rested(Rests(c).value, symbol, p, m, Lot(c, p, m), fallback,
                          old(replies), old(next), f, gained, resting)
      ensures Amends(c).Some? ==>
                resting.None? && f.Fill? && Retargeted(Amends(c).value, symbol, p, old(positions), f, positions, closed)
      ensures Opens(c).None? && Closes(c).None? && Rests(c).None? && Amends(c).None? ==>
                f == Fill(Rejected, true, p.volume) && positions == old(positions) && resting.None?
      ensures (gained.Some? ==> Opens(c).Some? || Rests(c).Some?) && (resting.Some? ==> Rests(c).Some?)
      ensures Funded(p, m) ==> InBudget(c, p, m, gained, resting)
      ensures OpensAsNamed(c, symbol, p, m, gained, resting)
      ensures TouchesAsNamed(c, symbol, p, old(positions), positions, closed)
      ensures Accepting(old(replies)) && m.tick.Some? ==>
                Obeyed(c, symbol, p, m, old(positions), positions, closed, gained, resting)
      ensures Accepting(old(replies)) ==> Accepting(replies)
      ensures Accepting(old(replies)) && !TooRisky(c, p, m) && (Opens(c).Some? || Closes(c).Some?) && m.tick.Some? ==>
                f == Fill(Filled, false, Lot(c, p, m))
    {
      hide Opens, Closes, Rests, Amends, SizedVolume, Traded, Rested, Retargeted, Accepting, InBudget, StartsClosing,
        OpensAsNamed, TouchesAsNamed, Obeyed;
      closed, gained, resting := {}, None, None;
      OneKind(c);
      NothingSent(c, p, m);
      NothingNamed(c, symbol, p, m, positions);
      var volume := Lot(c, p, m);
      if TooRisky(c, p, m) {
        RefusedObeys(c, symbol, p, m, positions);
        return Fill(Rejected, true, volume), closed, gained, resting;
      }
      if Opens(c).Some? || Closes(c).Some? {
        ghost var before, ticket := positions, next;
        f, closed, gained := Trade(c, symbol, p, m, volume);
        TradedOpens(c, symbol, p, m, volume, before, ticket, f, positions, closed, gained);
        TradedInBudget(c, symbol, p, m, before, ticket, f, positions, closed, gained);
        TradedAsNamed(c, symbol, p, m, before, ticket, f, positions, closed, gained);
        TradedObeys(c, symbol, p, m, before, ticket, f, positions, closed, gained);
      } else if Rests(c).Some? {
        ghost var before, script, ticket := positions, replies, next;
        f, gained, resting := Rest(Rests(c).value, symbol, p, m, volume, fallback);
        RestedInBudget(c, symbol, p, m, fallback, script, ticket, f, gained, resting);
        RestedAsNamed(c, symbol, p, m, fallback, script, ticket, f, gained, resting);
        RestTouchesNothing(c, symbol, p, before, positions);
        RestedObeys(c, symbol, p, m, fallback, script, ticket, f, before, positions, gained, resting);
      } else if Amends(c).Some? {
        ghost var before := positions;
        f, closed := Retarget(Amends(c).value, symbol, p);
        RetargetedAsNamed(c, symbol, p, before, f, positions, closed);
        RetargetedObeys(c, symbol, p, m, before, f, positions, closed);
      } else {
        UnknownObeys(c, symbol, p, m, positions);
        f := Fill(Rejected, true, volume);
      }
    }

    /** The amendment commands: nothing to set is refused. */
    method Retarget(side: Side, symbol: string, p: Params) returns (f: Fill, changed: set<nat>)
      requires Valid()
      modifies this
      ensures Valid() && pendings == old(pendings) && f.Fill?
      ensures Retargeted(side, symbol, p, old(positions), f, positions, changed)
      ensures Accepting(old(replies)) ==> Accepting(replies) && (f.error ==> p.tp <= 0.0 && p.sl <= 0.0)
    {
      if p.tp <= 0.0 && p.sl <= 0.0 {
        AmendNothing(positions, p.sl, p.tp);
        return Fill(Rejected, true, p.volume), {};
      }
      var ok, amended := AmendPositions(symbol, side, p.sl, p.tp, Scope(p));
      return Fill(if ok then Filled else Rejected, !ok, p.volume), amended;
    }
  }

  /** The targets among the first `k` tickets listed. */
  function Among(tickets: seq<nat>, k: nat, targets: set<nat>): (r: set<nat>)
    requires k <= |tickets|
  {
    set t | t in targets && t in tickets[..k]
  }

  lemma AmongSubset(tickets: seq<nat>, k: nat, targets: set<nat>)
    requires k <= |tickets|
    ensures Among(tickets, k, targets) <= targets
  {
  }

  lemma AmongNext(tickets: seq<nat>, k: nat, targets: set<nat>)
    requires k < |tickets| && forall i, j :: 0 <= i < j < |tickets| ==> tickets[i] != tickets[j]
    ensures Among(tickets, k + 1, targets) ==
              Among(tickets, k, targets) + (if tickets[k] in targets then {tickets[k]} else {})
    ensures tickets[k] !in Among(tickets, k, targets)
  {
    assert tickets[..k + 1] == tickets[..k] + [tickets[k]];
  }

  lemma AmongAll(tickets: seq<nat>, targets: set<nat>)
    requires forall t :: t in targets ==> t in tickets
    ensures Among(tickets, |tickets|, targets) == targets
  {
    assert tickets[..|tickets|] == tickets;
    assert forall t :: t in Among(tickets, |tickets|, targets) <==> t in targets;
  }

  /** No command is of two kinds, except the flips. */
  lemma OneKind(c: Command)
    ensures Rests(c).Some? ==> Opens(c).None? && Closes(c).None?
    ensures Amends(c).Some? ==> Opens(c).None? && Closes(c).None? && Rests(c).None?
  {
  }

  lemma AmendNothing(positions: map<nat, Position>, sl: real, tp: real)
    ensures AmendAll(positions, {}, sl, tp) == positions
  {
  }

  function CommentOf(p: Params): (r: string) {
    if p.comment.None? then DEFAULT_COMMENT else p.comment.value
  }

  /** An amendment without a comment is for every position of the side. */
  function Scope(p: Params): (r: string) {
    if p.comment.None? then "" else p.comment.value
  }

  /** The positions a command is to close. */
  function ClosedBy(c: Command, symbol: string, before: map<nat, Position>): (r: set<nat>) {
    if Closes(c).None? then {} else Targets(before, symbol, Closes(c).value)
  }

  lemma TargetIff(book: map<nat, Position>, symbol: string, side: Side, t: nat)
    requires t in book
    ensures t in Targets(book, symbol, side) <==> book[t].own && book[t].symbol == symbol && book[t].side == side
  {
  }

  lemma NoneAmong(tickets: seq<nat>, targets: set<nat>)
    ensures Among(tickets, 0, targets) == {}
  {
  }

  lemma AllAmong(book: map<nat, Position>, symbol: string, side: Side, tickets: seq<nat>)
    requires forall t :: t in tickets <==> t in book
    ensures Among(tickets, |tickets|, Targets(book, symbol, side)) == Targets(book, symbol, side)
  {
    AmongAll(tickets, Targets(book, symbol, side));
  }

  lemma NothingRemoved(book: map<nat, Position>)
    ensures book - {} == book
  {
  }

  lemma OneMoreRemoved(book: map<nat, Position>, closed: set<nat>, t: nat)
    ensures book - closed - {t} == book - (closed + {t})
  {
  }

  lemma OneMoreDeal(replies: seq<Reply>, n: nat)
    ensures AfterDeals(replies, n + 1) == DealLater(AfterDeals(replies, n))
  {
  }

  lemma NoDeals(replies: seq<Reply>)
    ensures AfterDeals(replies, 0) == replies
  {
  }

  /** What a market command does to the positions: closes only its own targets,
      and opens only after every one of them is closed. */
  ghost predicate Traded(c: Command, symbol: string, p: Params, m: Market, volume: real,
                         before: map<nat, Position>, ticket: nat, f: Fill,
                         after: map<nat, Position>, closed: set<nat>, gained: Option<Position>)
  {
    var targets := ClosedBy(c, symbol, before);
    && after == With(before - closed, ticket, gained)
    && closed <= targets
    && (gained.Some? ==> closed == targets && Opens(c).Some? && m.tick.Some?
                            && gained == Some(Bought(symbol, Opens(c).value, volume,
                                                     p.sl, p.tp, CommentOf(p), m.tick.value)))
    && (f.Fill? && !f.error ==> f.status == Filled && closed == targets && (gained.None? <==> Opens(c).None?))
    && (f.Raised? || f.error ==> gained.None?)
    && (f.Fill? && f.error && Opens(c).None? ==> closed != targets)
    && (f.Fill? ==> f.volume == volume)
  }

  /** The market fallback is tried: the order had a price, and the broker called it invalid. */
  predicate FallsBack(p: Params, fallback: bool, replies: seq<Reply>) {
    fallback && p.entry > 0.0 && Answer(replies) == InvalidPrice
  }

  /** What a pending command does: an order at rest, or its market fallback, or nothing. */
  ghost predicate Rested(side: Side, symbol: string, p: Params, m: Market, volume: real, fallback: bool,
                         replies: seq<Reply>, ticket: nat, f: Fill, gained: Option<Position>, resting: Option<Resting>)
  {
    && (resting.Some? <==> p.entry > 0.0 && Answer(replies) == Done)
    && (resting.Some? ==>
          && resting == Some(Resting(symbol, side, true, volume, p.entry, Level(p.sl), Level(p.tp)))
          && f == Fill(Placed, false, volume))
    && (gained.Some? <==> FallsBack(p, fallback, replies) && m.tick.Some? && DealAnswer(Later(replies)) == Done)
    && (gained.Some? ==>
          && gained == Some(Bought(symbol, side, volume, p.sl, p.tp, CommentOf(p) + "_M", m.tick.value))
          && f == Fill(Filled, false, volume))
    && (f.Raised? <==> FallsBack(p, fallback, replies) && m.tick.Some? && LostRetry(Later(replies)))
    && (f.Fill? && !f.error ==> resting.Some? || gained.Some?)
  }

  /** What the bridge hears of an order that opens or rests is a rejection exactly when nothing came of it. */
  lemma RestReportedHonestly(side: Side, symbol: string, p: Params, m: Market, volume: real, fallback: bool,
                             replies: seq<Reply>, ticket: nat, f: Fill,
                             gained: Option<Position>, resting: Option<Resting>)
    requires Rested(side, symbol, p, m, volume, fallback, replies, ticket, f, gained, resting) && f.Fill?
    ensures Reported(f) == Rejected <==> gained.None? && resting.None?
  {
  }

  /** A market command is reported rejected exactly when it leaves undone what it asks for: opening its
      position or, if it opens none, closing every target. The book has changed all the same exactly
      when some position was closed. */
  lemma TradeReportedHonestly(c: Command, symbol: string, p: Params, m: Market, volume: real,
                              before: map<nat, Position>, ticket: nat, f: Fill, after: map<nat, Position>,
                              closed: set<nat>, gained: Option<Position>)
    requires Traded(c, symbol, p, m, volume, before, ticket, f, after, closed, gained) && f.Fill?
    requires Opens(c).Some? || Closes(c).Some?
    ensures Opens(c).Some? ==> (Reported(f) == Rejected <==> gained.None?)
    ensures Opens(c).None? ==> (Reported(f) == Rejected <==> closed != Targets(before, symbol, Closes(c).value))
    ensures Reported(f) == Rejected ==> (after != before <==> closed != {})
  {
    hide Opens, Closes;
    if Reported(f) == Rejected {
      assert after == before - closed;
      if closed != {} {
        var t :| t in closed;
        assert t in before && t !in after;
      } else {
        assert before - {} == before;
      }
    }
  }

  /** For one: a flip whose close is done and whose opening is refused is reported rejected, and the book is flat. */
  method HiddenClose(symbol: string, p: Params, tick: Tick) returns (t: Terminal, f: Fill)
    ensures f.Fill? && Reported(f) == Rejected && t.positions == map[]
  {
    hide Targets, DealAnswer, AfterDeals, LostRetry, Accepting;
    var book: map<nat, Position> := map[7 := Position(symbol, Short, true, 1.0, 100.0, 110.0, 0.0, "")];
    var script := [Done, Refused];
    t := new Terminal(book, map[], 8, script);
    OnlyTarget(book, symbol);
    CloseThenRefuse(script);
    ghost var closed, gained;
    f, closed, gained := t.Trade(CloseShortOpenLong, symbol, p, Market(None, Some(tick)), p.volume);
    assert closed == {7} && book - {7} == map[];
  }

  lemma CloseThenRefuse(script: seq<Reply>)
    requires script == [Done, Refused]
    ensures DealAnswer(script) == Done && DealAnswer(AfterDeals(script, 1)) == Refused
    ensures !LostRetry(AfterDeals(script, 1))
  {
    OneMoreDeal(script, 0);
    NoDeals(script);
  }

  lemma OnlyTarget(book: map<nat, Position>, symbol: string)
    requires 7 in book && book.Keys == {7} && book[7].symbol == symbol && book[7].own && book[7].side == Short
    ensures Targets(book, symbol, Short) == {7}
  {
  }

  /** What an amendment does: new levels on positions in scope, on all of them unless the broker refuses. */
  ghost predicate Retargeted(side: Side, symbol: string, p: Params, before: map<nat, Position>, f: Fill,
                             after: map<nat, Position>, changed: set<nat>)
    requires f.Fill?
  {
    && after == AmendAll(before, changed, p.sl, p.tp)
    && changed <= InScope(before, symbol, side, Scope(p))
    && (p.sl <= 0.0 && p.tp <= 0.0 ==> f.error && after == before)
    && (!f.error ==> f.status == Filled && changed == InScope(before, symbol, side, Scope(p)))
  }

  /** A command closes something exactly when it has a target and the first close goes through. */
  ghost predicate StartsClosing(c: Command, symbol: string, m: Market,
                                before: map<nat, Position>, replies: seq<Reply>) {
    && Closes(c).Some? && m.tick.Some? && Targets(before, symbol, Closes(c).value) != {}
    && DealAnswer(replies) == Done
  }

  // ---------------------------------------------------------------- what the commands say

  /** What is opened or rests is of the side, volume and levels the command and its parameters name; a buy
      fills at the ask and a sell at the bid. */
  ghost predicate OpensAsNamed(c: Command, symbol: string, p: Params, m: Market,
                               gained: Option<Position>, resting: Option<Resting>)
  {
    && (gained.Some? ==>
          var q := gained.value;
          && c in {Buy, BuyLimit, BuyStop, CloseShortOpenLong, Sell, SellLimit, SellStop, CloseLongOpenShort}
          && (q.side == Long <==> c in {Buy, BuyLimit, BuyStop, CloseShortOpenLong})
          && m.tick.Some? && q.entry == (if q.side == Long then m.tick.value.ask else m.tick.value.bid)
          && q.own && q.symbol == symbol
          && (p.comment.Some? && 0 < |p.comment.value| <= 26 ==> p.comment.value <= q.comment)
          && (p.comment.None? ==> "execrelay-shim" <= q.comment)
          && q.volume == SizedVolume(m.info, if c in {BuyLimit, BuyStop, SellLimit, SellStop} then p.entry else q.entry,
                                     p.sl, p.volume, p.risk)
          && q.sl == (if p.sl > 0.0 then p.sl else 0.0) && q.tp == (if p.tp > 0.0 then p.tp else 0.0))
    && (resting.Some? ==>
          var o := resting.value;
          && c in {BuyLimit, BuyStop, SellLimit, SellStop}
          && (o.side == Long <==> c in {BuyLimit, BuyStop})
          && o.own && o.symbol == symbol && o.entry == p.entry
          && o.volume == SizedVolume(m.info, p.entry, p.sl, p.volume, p.risk)
          && o.sl == (if p.sl > 0.0 then p.sl else 0.0) && o.tp == (if p.tp > 0.0 then p.tp else 0.0))
  }

  /** The positions a command closes or amends are the shim's, of the symbol and of the side it names; an
      amendment keeps the level it does not give, and is for positions whose comment starts with its own. */
  ghost predicate TouchesAsNamed(c: Command, symbol: string, p: Params, before: map<nat, Position>,
                                 after: map<nat, Position>, touched: set<nat>)
  {
    && (touched != {} ==>
      c in {CloseLong, CloseShort, CloseLongOpenShort, CloseShortOpenLong, NewSltpLong, NewSltpShort})
    && (forall t :: t in touched ==>
          && t in before && before[t].own && before[t].symbol == symbol
          && (before[t].side == Long <==> c in {CloseLong, CloseLongOpenShort, NewSltpLong}))
    && (c in {NewSltpLong, NewSltpShort} ==>
          forall t :: t in touched ==>
            && t in after && (p.comment.Some? ==> p.comment.value <= before[t].comment)
            && after[t] == before[t].(sl := if p.sl > 0.0 then p.sl else before[t].sl,
                                      tp := if p.tp > 0.0 then p.tp else before[t].tp))
    && (forall t :: t in before && t !in touched ==> t in after && after[t] == before[t])
  }

  /** What a broker that accepts is asked for is done: the position is opened, the order rests, every position of
      the side to close is gone and every position to amend has its new levels. */
  ghost predicate Obeyed(c: Command, symbol: string, p: Params, m: Market, before: map<nat, Position>,
                         after: map<nat, Position>, touched: set<nat>, gained: Option<Position>,
                         resting: Option<Resting>)
  {
    && (c in {Buy, Sell, CloseLongOpenShort, CloseShortOpenLong} && Lot(c, p, m) > 0.0 ==> gained.Some?)
    && (c in {BuyLimit, BuyStop, SellLimit, SellStop} && Lot(c, p, m) > 0.0 && p.entry > 0.0 ==> resting.Some?)
    && (c in {CloseLong, CloseShort} || (c in {CloseLongOpenShort, CloseShortOpenLong} && Lot(c, p, m) > 0.0) ==>
          var side := if c in {CloseLong, CloseLongOpenShort} then Long else Short;
          forall t :: t in before && OwnOf(before[t], symbol, side) ==> t in touched && t !in after)
    && (c in {NewSltpLong, NewSltpShort} && (p.sl > 0.0 || p.tp > 0.0) ==>
          var side := if c == NewSltpLong then Long else Short;
          forall t :: t in before && OwnOf(before[t], symbol, side) ==>
            (p.comment.Some? ==> p.comment.value <= before[t].comment) ==> t in touched)
  }

  predicate OwnOf(q: Position, symbol: string, side: Side) {
    q.own && q.symbol == symbol && q.side == side
  }

  lemma NothingNamed(c: Command, symbol: string, p: Params, m: Market, positions: map<nat, Position>)
    ensures OpensAsNamed(c, symbol, p, m, None, None)
    ensures TouchesAsNamed(c, symbol, p, positions, positions, {})
  {
  }

  lemma TradedAsNamed(c: Command, symbol: string, p: Params, m: Market, before: map<nat, Position>, ticket: nat,
                      f: Fill, after: map<nat, Position>, closed: set<nat>, gained: Option<Position>)
    requires Traded(c, symbol, p, m, Lot(c, p, m), before, ticket, f, after, closed, gained)
    requires ticket !in before && (Opens(c).Some? || Closes(c).Some?)
    ensures OpensAsNamed(c, symbol, p, m, gained, None) && TouchesAsNamed(c, symbol, p, before, after, closed)
  {
    hide SizedVolume;
  }

  lemma RestedAsNamed(c: Command, symbol: string, p: Params, m: Market, fallback: bool,
                      replies: seq<Reply>, ticket: nat, f: Fill, gained: Option<Position>, resting: Option<Resting>)
    requires Rests(c).Some?
    requires Rested(Rests(c).value, symbol, p, m, Lot(c, p, m), fallback, replies, ticket, f, gained, resting)
    ensures OpensAsNamed(c, symbol, p, m, gained, resting)
  {
    hide SizedVolume, FallsBack, DealAnswer, LostRetry;
  }

  lemma RestTouchesNothing(c: Command, symbol: string, p: Params, before: map<nat, Position>, after: map<nat, Position>)
    requires Rests(c).Some? && forall t :: t in before ==> t in after && after[t] == before[t]
    ensures TouchesAsNamed(c, symbol, p, before, after, {})
  {
  }

  lemma RetargetedAsNamed(c: Command, symbol: string, p: Params, before: map<nat, Position>, f: Fill,
                          after: map<nat, Position>, changed: set<nat>)
    requires Amends(c).Some? && f.Fill? && Retargeted(Amends(c).value, symbol, p, before, f, after, changed)
    ensures TouchesAsNamed(c, symbol, p, before, after, changed)
  {
  }

  lemma RefusedObeys(c: Command, symbol: string, p: Params, m: Market, positions: map<nat, Position>)
    requires TooRisky(c, p, m)
    ensures Obeyed(c, symbol, p, m, positions, positions, {}, None, None)
  {
    hide Lot;
  }

  lemma UnknownObeys(c: Command, symbol: string, p: Params, m: Market, positions: map<nat, Position>)
    requires Opens(c).None? && Closes(c).None? && Rests(c).None? && Amends(c).None?
    ensures Obeyed(c, symbol, p, m, positions, positions, {}, None, None)
  {
    hide Lot;
  }

  lemma TradedObeys(c: Command, symbol: string, p: Params, m: Market, before: map<nat, Position>, ticket: nat,
                    f: Fill, after: map<nat, Position>, closed: set<nat>, gained: Option<Position>)
    requires Traded(c, symbol, p, m, Lot(c, p, m), before, ticket, f, after, closed, gained)
    requires ticket !in before && (Opens(c).Some? || Closes(c).Some?)
    ensures f.Fill? && !f.error ==> Obeyed(c, symbol, p, m, before, after, closed, gained, None)
  {
    hide Lot;
  }

  lemma RestedObeys(c: Command, symbol: string, p: Params, m: Market, fallback: bool, replies: seq<Reply>, ticket: nat,
                    f: Fill, before: map<nat, Position>, after: map<nat, Position>,
                    gained: Option<Position>, resting: Option<Resting>)
    requires Rests(c).Some?
    requires Rested(Rests(c).value, symbol, p, m, Lot(c, p, m), fallback, replies, ticket, f, gained, resting)
    ensures Accepting(replies) ==> Obeyed(c, symbol, p, m, before, after, {}, gained, resting)
  {
    hide Lot, FallsBack, DealAnswer, LostRetry;
  }

  lemma RetargetedObeys(c: Command, symbol: string, p: Params, m: Market, before: map<nat, Position>, f: Fill,
                        after: map<nat, Position>, changed: set<nat>)
    requires Amends(c).Some? && f.Fill? && Retargeted(Amends(c).value, symbol, p, before, f, after, changed)
    ensures !f.error || (p.tp <= 0.0 && p.sl <= 0.0) ==> Obeyed(c, symbol, p, m, before, after, changed, None, None)
  {
    hide Lot;
  }

  // ---------------------------------------------------------------- the risk budget

  /** A budget, a stop and an instrument to size by, in a market with prices. */
  ghost predicate Funded(p: Params, m: Market) {
    && p.risk > 0.0 && p.sl > 0.0
    && m.info.Some? && m.info.value.tickValue > 0.0 && m.info.value.tickSize > 0.0 && Sane(m.info.value)
    && (m.tick.Some? ==> m.tick.value.ask > 0.0 && m.tick.value.bid > 0.0)
  }

  /** How far from its stop a lot can be opened within a budget. */
  function Reach(info: Specs, lot: real, risk: real): (d: real)
    requires lot > 0.0 && info.tickValue > 0.0
  {
    risk / lot * info.tickSize / info.tickValue
  }

  /** What the orders sent lose at their stop: a market order and an order at rest at most the budget. A market
      fallback, sized at the order's own price, at most the budget exactly when the market is within its reach. */
  ghost predicate InBudget(c: Command, p: Params, m: Market, gained: Option<Position>, resting: Option<Resting>)
    requires Funded(p, m)
  {
    var info := m.info.value;
    && (gained.Some? && Opens(c).Some? ==> Loss(info, gained.value) <= p.risk)
    && (gained.Some? && Rests(c).Some? ==>
          && Lot(c, p, m) > 0.0
          && (Loss(info, gained.value) <= p.risk <==>
                Abs(gained.value.entry - p.sl) <= Reach(info, Lot(c, p, m), p.risk)))
    && (resting.Some? && p.entry != p.sl ==>
          resting.value.volume * LossPerLot(info, resting.value.entry, resting.value.sl) <= p.risk)
  }

  /** What a position loses at its stop. */
  function Loss(info: Specs, q: Position): (r: real)
    requires info.tickSize > 0.0
  {
    q.volume * LossPerLot(info, q.entry, q.sl)
  }

  lemma NothingSent(c: Command, p: Params, m: Market)
    ensures Funded(p, m) ==> InBudget(c, p, m, None, None)
  {
    hide Sane, Lot;
  }

  /** The lot sent is affordable at the price it is sized at, and no affordable whole-step lot is larger. */
  lemma SentIsLargest(c: Command, p: Params, m: Market)
    requires Funded(p, m) && (Opens(c).Some? || Rests(c).Some?) && !TooRisky(c, p, m)
    requires Applies(m.info, Reference(c, p, m), p.sl, p.risk)
    ensures var info, ref := m.info.value, Reference(c, p, m);
            && Affordable(info, ref, p.sl, p.risk, Lot(c, p, m))
            && forall w :: Affordable(info, ref, p.sl, p.risk, w) && OnGrid(w, Step(info)) ==> w <= Lot(c, p, m)
  {
    hide SizedVolume, LossPerLot, Sane, OnGrid, Opens, Rests;
    var info, ref := m.info.value, Reference(c, p, m);
    RejectedIff(info, ref, p.sl, p.volume, p.risk);
    LargestAffordable(info, ref, p.sl, p.volume, p.risk);
  }

  /** The order is refused exactly when the minimum lot would already lose more than the budget. */
  lemma RefusedIffOverBudget(c: Command, p: Params, m: Market)
    requires Funded(p, m) && (Opens(c).Some? || Rests(c).Some?)
    requires Applies(m.info, Reference(c, p, m), p.sl, p.risk)
    ensures var info := m.info.value;
            TooRisky(c, p, m) <==> info.volumeMin * LossPerLot(info, Reference(c, p, m), p.sl) > p.risk
  {
    hide SizedVolume, LossPerLot, Sane, Opens, Rests;
    RejectedIff(m.info.value, Reference(c, p, m), p.sl, p.volume, p.risk);
  }

  lemma NoDistanceNoLoss(info: Specs, price: real, lot: real)
    requires info.tickSize > 0.0
    ensures lot * LossPerLot(info, price, price) == 0.0
  {
    assert LossPerLot(info, price, price) == 0.0;
  }

  /** At the price it is sized at, an order loses at most the budget. */
  lemma SizedInBudget(c: Command, p: Params, m: Market)
    requires Funded(p, m) && (Opens(c).Some? || Rests(c).Some?) && !TooRisky(c, p, m) && Reference(c, p, m) > 0.0
    ensures Reference(c, p, m) != p.sl ==> Applies(m.info, Reference(c, p, m), p.sl, p.risk)
    ensures Rests(c).None? || p.entry != p.sl ==>
              Lot(c, p, m) * LossPerLot(m.info.value, Reference(c, p, m), p.sl) <= p.risk
  {
    hide SizedVolume, LossPerLot, Sane, OnGrid, Opens, Rests, Lot;
    if Reference(c, p, m) != p.sl {
      SentIsLargest(c, p, m);
    } else {
      NoDistanceNoLoss(m.info.value, p.sl, Lot(c, p, m));
    }
  }

  lemma TradedOpens(c: Command, symbol: string, p: Params, m: Market, volume: real, before: map<nat, Position>,
                    ticket: nat, f: Fill, after: map<nat, Position>, closed: set<nat>, gained: Option<Position>)
    requires Traded(c, symbol, p, m, volume, before, ticket, f, after, closed, gained)
    ensures gained.Some? ==> Opens(c).Some?
  {
  }

  lemma TradedInBudget(c: Command, symbol: string, p: Params, m: Market, before: map<nat, Position>, ticket: nat,
                       f: Fill, after: map<nat, Position>, closed: set<nat>, gained: Option<Position>)
    requires Traded(c, symbol, p, m, Lot(c, p, m), before, ticket, f, after, closed, gained)
    requires !TooRisky(c, p, m) && (Opens(c).Some? || Closes(c).Some?)
    ensures Funded(p, m) ==> InBudget(c, p, m, gained, None)
  {
    hide SizedVolume, LossPerLot, Sane, Opens, Closes, Rests, Lot;
    OneKind(c);
    if Funded(p, m) && gained.Some? { SizedInBudget(c, p, m); }
  }

  lemma RestedInBudget(c: Command, symbol: string, p: Params, m: Market, fallback: bool,
                       replies: seq<Reply>, ticket: nat, f: Fill, gained: Option<Position>, resting: Option<Resting>)
    requires Rests(c).Some? && !TooRisky(c, p, m)
    requires Rested(Rests(c).value, symbol, p, m, Lot(c, p, m), fallback, replies, ticket, f, gained, resting)
    ensures Funded(p, m) ==> InBudget(c, p, m, gained, resting)
  {
    hide SizedVolume, LossPerLot, Sane, Opens, Closes, Rests, Lot, Reach;
    OneKind(c);
    if Funded(p, m) {
      if gained.Some? { ReachIff(m.info.value, Lot(c, p, m), gained.value.entry, p.sl, p.risk); }
      if resting.Some? { SizedInBudget(c, p, m); }
    }
  }

  /** A lot is paid for exactly within its reach of the stop. */
  lemma ReachIff(info: Specs, lot: real, price: real, sl: real, risk: real)
    requires lot > 0.0 && info.tickValue > 0.0 && info.tickSize > 0.0
    ensures lot * LossPerLot(info, price, sl) <= risk <==> Abs(price - sl) <= Reach(info, lot, risk)
  {
    var d, s, v := Abs(price - sl), info.tickSize, info.tickValue;
    var a, b := d / s, risk / lot;
    DivMul(d, s);
    DivMul(risk, lot);
    DivMul(b * s, v);
    // d <= b * s / v, scaled up by v and down by s, is a * v <= b; times the lot it is the loss against the budget.
    Scale(d, b * s / v, v);
    assert d * v == a * v * s by { Swap(a, s, v); }
    Scale(a * v, b, s);
    Scale(a * v, b, lot);
    assert lot * (a * v) == a * v * lot;
  }

  lemma Swap(a: real, b: real, c: real)
    ensures a * b * c == a * c * b
  {
  }

  /** The market is within reach whenever it is no further from the stop than the order's own price. */
  lemma NearerIsWithinReach(c: Command, p: Params, m: Market, price: real)
    requires Funded(p, m) && Rests(c).Some? && !TooRisky(c, p, m) && p.entry > 0.0 && p.entry != p.sl
    requires Abs(price - p.sl) <= Abs(p.entry - p.sl)
    ensures Lot(c, p, m) > 0.0 && Abs(price - p.sl) <= Reach(m.info.value, Lot(c, p, m), p.risk)
  {
    hide SizedVolume, LossPerLot, Sane, Opens, Rests, Lot, Reach;
    SizedInBudget(c, p, m);
    ReachIff(m.info.value, Lot(c, p, m), p.entry, p.sl, p.risk);
  }

  /** Sizing at a price sends at least a lot that fits the grid exactly when the budget pays for that lot there. */
  lemma ResizedIffPaid(info: Specs, price: real, sl: real, requested: real, risk: real, lot: real)
    requires Applies(Some(info), price, sl, risk) && Sane(info)
    requires info.volumeMin <= lot <= info.volumeMax && OnGrid(lot, Step(info))
    ensures SizedVolume(Some(info), price, sl, requested, risk) >= lot <==> lot * LossPerLot(info, price, sl) <= risk
  {
    hide SizedVolume, LossPerLot, OnGrid, Sane;
    var loss, sized := LossPerLot(info, price, sl), SizedVolume(Some(info), price, sl, requested, risk);
    AppliesFacts(info, price, sl, risk);
    RejectedIff(info, price, sl, requested, risk);
    Monotone(info.volumeMin, lot, loss);
    if info.volumeMin * loss <= risk {
      LargestAffordable(info, price, sl, requested, risk);
      if sized >= lot { Monotone(lot, sized, loss); }
    }
  }

  lemma AppliesFacts(info: Specs, price: real, sl: real, risk: real)
    requires Applies(Some(info), price, sl, risk) && Sane(info)
    ensures info.tickSize > 0.0 && LossPerLot(info, price, sl) > 0.0 && info.volumeMin > 0.0
  {
    hide LossPerLot;
    LossPositive(info, price, sl);
  }

  /** With a maximum of whole steps, the market is within reach exactly when sizing there would send as much. */
  lemma WithinReachIffResized(c: Command, p: Params, m: Market, price: real)
    requires Funded(p, m) && Rests(c).Some? && !TooRisky(c, p, m) && p.entry > 0.0 && p.entry != p.sl
    requires price > 0.0 && price != p.sl && OnGrid(m.info.value.volumeMax, Step(m.info.value))
    ensures Lot(c, p, m) > 0.0
    ensures Abs(price - p.sl) <= Reach(m.info.value, Lot(c, p, m), p.risk) <==>
            SizedVolume(m.info, price, p.sl, p.volume, p.risk) >= Lot(c, p, m)
  {
    hide SizedVolume, LossPerLot, Sane, Opens, Rests, Lot, Reach, OnGrid;
    var info, lot := m.info.value, Lot(c, p, m);
    SizedInBudget(c, p, m);
    SentIsLargest(c, p, m);
    ReachIff(info, lot, price, p.sl, p.risk);
    ResizedIffPaid(info, price, p.sl, p.volume, p.risk, lot);
  }

  /** For one: an order at 100 with its stop at 90 and a budget of 10, one lot the least, falls back to a
      market at 110 and loses 20. */
  method FallbackOverspends(symbol: string) returns (t: Terminal, ghost gained: Option<Position>)
    ensures gained.Some? && Loss(Specs(1.0, 1.0, 1.0, 1.0, 10.0), gained.value) == 20.0
  {
    hide Sane, SizedVolume;
    var info := Specs(1.0, 1.0, 1.0, 1.0, 10.0);
    var p, m := Params(1.0, 10.0, 90.0, 0.0, 100.0, None), Market(Some(info), Some(Tick(110.0, 110.0)));
    OneLot(info, p);
    t := new Terminal(map[], map[], 0, [InvalidPrice]);
    var f, closed, filled, resting := t.Execute(BuyStop, symbol, p, m, true);
    gained := filled;
  }

  lemma OneLot(info: Specs, p: Params)
    requires info == Specs(1.0, 1.0, 1.0, 1.0, 10.0)
    requires p == Params(1.0, 10.0, 90.0, 0.0, 100.0, None)
    ensures SizedVolume(Some(info), p.entry, p.sl, p.volume, p.risk) == 1.0
  {
    hide SizedVolume;
    assert Steps(100000000, 1.0 / DIGITS) == 1.0 && Steps(1, 1.0) == 1.0;
    assert OnGrid(Step(info), 1.0 / DIGITS) && OnGrid(info.volumeMin, Step(info));
    assert LossPerLot(info, 100.0, 90.0) == 10.0;
    var units := Unrounded(info, p.entry, p.sl, p.volume, p.risk);
    assert units == 1;
  }
}
