/**
 The shim's position monitor (scripts/ea_shim.py): what it withdraws and which
 stops it moves when a leg of a multi-leg signal leaves the book.
 */
module Oco {
  import opened Prelude
  import opened WebhookTables
  import opened Sizing
  import opened Terminal
  import opened TradeStore
  import Option1

  /** Why the broker closed a position. */
  datatype Reason = TakeProfit | StopLoss | OtherReason

  datatype Kind = Half | Full | Undecidable

  /** A ticket in decimal, as the store keeps it. */
  function Str(n: nat): (r: string) {
    if n < 10 then [('0' as int + n) as char] else Str(n / 10) + [('0' as int + n % 10) as char]
  }

  // ---------------------------------------------------------------- half or full

  predicate Mentions(s: string, word: string) {
    |word| <= |s| && (EqFold(s[..|word|], word) || (s != "" && Mentions(s[1..], word)))
  }

  /** Whether a command profits going up; neither for a command that says neither. */
  function Upward(command: Option<string>): (up: Option<bool>) {
    var c := if command.None? then "" else command.value;
    if Mentions(c, "buy") then Some(true) else if Mentions(c, "sell") then Some(false) else None
  }

  /** A word whose first letter is nowhere in the text, in either case, is not in it. */
  lemma {:induction false} NotMentioned(s: string, word: string)
    requires word != "" && forall i :: 0 <= i < |s| ==> LowerChar(s[i]) != word[0]
    ensures !Mentions(s, word)
  {
    if |word| <= |s| {
      assert LowerChar(s[..|word|][0]) != word[0];
      NotMentioned(s[1..], word);
    }
  }

  lemma MentionedFirst(s: string, word: string)
    requires |word| <= |s| && EqFold(s[..|word|], word)
    ensures Mentions(s, word)
  {
  }

  lemma BuysUpward(name: string)
    requires |name| >= 3 && name[0] == 'b' && name[1] == 'u' && name[2] == 'y'
    ensures Upward(Some(name)) == Some(true)
  {
    hide Mentions;
    MentionedFirst(name, "buy");
  }

  lemma SellsDownward(name: string)
    requires |name| >= 4 && name[0] == 's' && name[1] == 'e' && name[2] == 'l' && name[3] == 'l'
    requires forall i :: 0 <= i < |name| ==> LowerChar(name[i]) != 'b'
    ensures Upward(Some(name)) == Some(false)
  {
    hide Mentions;
    MentionedFirst(name, "sell");
    NotMentioned(name, "buy");
  }

  /** The buying commands profit upwards and the selling ones downwards. */
  lemma UpwardByName(c: Command)
    ensures c in {Buy, BuyStop, BuyLimit} ==> Upward(Some(c.Name())) == Some(true)
    ensures c in {Sell, SellStop, SellLimit} ==> Upward(Some(c.Name())) == Some(false)
  {
    hide Upward;
    match c
    case Buy => BuysUpward("buy");
    case BuyStop => BuysUpward("buystop");
    case BuyLimit => BuysUpward("buylimit");
    case Sell => SellsDownward("sell");
    case SellStop => SellsDownward("sellstop");
    case SellLimit => SellsDownward("selllimit");
    case _ =>
  }

  /** What a command opens or leaves at rest is of the side its name profits on, where the name says one. */
  lemma OpensWhereItProfits(c: Command, symbol: string, p: Params, m: Market,
                            gained: Option<Position>, resting: Option<Resting>)
    requires OpensAsNamed(c, symbol, p, m, gained, resting)
    ensures gained.Some? && c !in {CloseLongOpenShort, CloseShortOpenLong} ==>
              Upward(Some(c.Name())) == Some(gained.value.side == Option1.Long)
    ensures resting.Some? ==> Upward(Some(c.Name())) == Some(resting.value.side == Option1.Long)
  {
    hide Upward, Lot, SizedVolume;
    UpwardByName(c);
  }

  predicate Beyond(up: bool, tp: real, own: real) {
    if up then tp > own else tp < own
  }

  function OwnRow(rows: seq<OrderRow>, id: string): (r: Option<OrderRow>)
    ensures r.Some? ==> r.value in rows && r.value.broker == Some(id)
    ensures r.None? ==> forall row :: row in rows ==> row.broker != Some(id)
  {
    if rows == [] then None
    else if rows[0].broker == Some(id) then Some(rows[0])
    else OwnRow(rows[1..], id)
  }

  /** Some other leg's target lies beyond. */
  predicate Outdone(rows: seq<OrderRow>, id: string, up: bool, tp: real) {
    exists r :: r in rows && r.broker != Some(id) && r.tp.Some? && Beyond(up, r.tp.value, tp)
  }

  function Classify(rows: seq<OrderRow>, id: string): (k: Kind) {
    var own := OwnRow(rows, id);
    if own.None? || own.value.tp.None? || Upward(own.value.command).None? then Undecidable
    else if Outdone(rows, id, Upward(own.value.command).value, own.value.tp.value) then Half
    else Full
  }

  /** `_classify_tp_close`. */
  method ClassifyClose(rows: seq<OrderRow>, id: string) returns (k: Kind)
    ensures k == Classify(rows, id)
  {
    hide Upward, Beyond;
    var own := OwnRow(rows, id);
    if own.None? || own.value.tp.None? { return Undecidable; }
    var up := Upward(own.value.command);
    if up.None? { return Undecidable; }
    for i := 0 to |rows|
      invariant !Outdone(rows[..i], id, up.value, own.value.tp.value)
    {
      var r := rows[i];
      if r.broker == Some(id) || r.tp.None? { continue; }
      if Beyond(up.value, r.tp.value, own.value.tp.value) { return Half; }
    }
    assert rows[..|rows|] == rows;
    k := Full;
  }

  /** A leg is half done exactly when its own row has a target and a side, and another leg's target is further on
      that side; without a row, a target or a side nothing can be said. */
  lemma ClassifyIff(rows: seq<OrderRow>, id: string)
    ensures var own := OwnRow(rows, id);
            var known := own.Some? && own.value.tp.Some? && Upward(own.value.command).Some?;
            && (Classify(rows, id) == Undecidable <==> !known)
            && (Classify(rows, id) == Half <==>
                  && known
                  && exists r :: r in rows && r.broker != Some(id) && r.tp.Some?
                                 && if Upward(own.value.command).value then r.tp.value > own.value.tp.value
                                    else r.tp.value < own.value.tp.value)
  {
    hide Upward;
  }

  /** Legs of one side, each with a target, one row a ticket. */
  ghost predicate SplitLegs(rows: seq<OrderRow>, up: bool) {
    && (forall r :: r in rows ==> r.broker.Some? && r.tp.Some? && Upward(r.command) == Some(up))
    && (forall q, r :: q in rows && r in rows && q.broker == r.broker ==> q == r)
  }

  /** Then a leg is full exactly when no leg's target is further. */
  lemma FullIffFurthest(rows: seq<OrderRow>, up: bool, leg: OrderRow)
    requires SplitLegs(rows, up) && leg in rows
    ensures var furthest := forall r :: r in rows ==> !Beyond(up, r.tp.value, leg.tp.value);
            Classify(rows, leg.broker.value) == if furthest then Full else Half
  {
    hide Upward;
    assert OwnRow(rows, leg.broker.value) == Some(leg);
  }

  /** So some leg of every such signal is full. */
  lemma SomeLegIsFull(rows: seq<OrderRow>, up: bool)
    requires SplitLegs(rows, up) && rows != []
    ensures exists leg :: leg in rows && Classify(rows, leg.broker.value) == Full
  {
    hide Classify, Upward;
    var leg := Furthest(rows, up);
    FullIffFurthest(rows, up, leg);
  }

  lemma {:induction false} Furthest(rows: seq<OrderRow>, up: bool) returns (leg: OrderRow)
    requires rows != [] && forall r :: r in rows ==> r.tp.Some?
    ensures leg in rows && forall r :: r in rows ==> !Beyond(up, r.tp.value, leg.tp.value)
  {
    var n := |rows| - 1;
    leg := rows[n];
    if n > 0 {
      var other := Furthest(rows[..n], up);
      if Beyond(up, other.tp.value, leg.tp.value) { leg := other; }
    }
    assert rows == rows[..n] + [rows[n]];
  }

  // ---------------------------------------------------------------- what a close calls for

  /** The other tickets of the signal. */
  function Others(rows: seq<OrderRow>, id: string): (r: set<string>) {
    set row | row in rows && HasTicket(row) && row.broker.value != id :: row.broker.value
  }

  /** The tables as values, and each channel's breakeven switch. */
  datatype Tables = Tables(orders: seq<OrderRow>, signals: seq<SignalRow>, breakeven: Option<string> -> bool)

  function RowsFor(s: Tables, id: string): (rows: seq<OrderRow>) {
    SiblingRows(s.orders, s.signals, id)
  }

  /** Another ticket among the rows of a leg's signal. */
  ghost predicate IsSibling(s: Tables, leg: nat, other: nat) {
    other != leg && exists row :: row in RowsFor(s, Str(leg)) && row.broker == Some(Str(other))
  }

  /** The shim's resting orders and open positions among them. */
  ghost function RestingSiblings(s: Tables, pendings: map<nat, Resting>, leg: nat): (r: set<nat>) {
    set o | o in pendings && pendings[o].own && IsSibling(s, leg, o)
  }

  ghost function OpenSiblings(s: Tables, positions: map<nat, Position>, leg: nat): (r: set<nat>) {
    set p | p in positions && positions[p].own && IsSibling(s, leg, p)
  }

  /** Breakeven is switched on for the channel of the signal found for a leg. */
  ghost predicate BreakevenOn(s: Tables, leg: nat) {
    var signal := Found(s.orders, s.signals, Str(leg));
    signal.Some? && s.breakeven(signal.value.channel)
  }

  lemma {:induction false} StrInjective(a: nat, b: nat)
    requires Str(a) == Str(b)
    ensures a == b
  {
    StrDigits(a);
    StrDigits(b);
    if a >= 10 && b >= 10 {
      assert Str(a / 10) == Str(a)[..|Str(a)| - 1] == Str(b / 10);
      StrInjective(a / 10, b / 10);
      assert Str(a)[|Str(a)| - 1] == Str(b)[|Str(b)| - 1];
    }
  }

  lemma StrDigits(n: nat)
    ensures Str(n) != "" && (n < 10 <==> |Str(n)| == 1)
    ensures Str(n)[|Str(n)| - 1] == ('0' as int + n % 10) as char
  {
  }

  /** The ids the shim looks for are those of the siblings. */
  lemma OthersAreSiblings(s: Tables, leg: nat, other: nat)
    ensures Str(other) in Others(RowsFor(s, Str(leg)), Str(leg)) <==> IsSibling(s, leg, other)
  {
    hide SiblingRows, Str;
    StrDigits(other);
    if Str(other) == Str(leg) { StrInjective(other, leg); }
    if IsSibling(s, leg, other) {
      var row :| row in RowsFor(s, Str(leg)) && row.broker == Some(Str(other));
      assert HasTicket(row);
    }
  }

  lemma SiblingsShareSignal(s: Tables, leg: nat, other: nat)
    requires IsSibling(s, leg, other)
    ensures SameSignal(s.orders, s.signals, Str(leg), Str(other))
  {
    hide SiblingRows, SameSignal, Str;
    var row :| row in RowsFor(s, Str(leg)) && row.broker == Some(Str(other));
    WalkStaysInSignal(s.orders, s.signals, Str(leg), row);
  }

  /** A leg that closed at half its signal's target is a row of a signal that was found. */
  lemma HalfIsFound(s: Tables, id: string)
    requires Classify(RowsFor(s, id), id) == Half
    ensures Found(s.orders, s.signals, id).Some?
  {
  }

  // ---------------------------------------------------------------- the broker side

  /** The shim's resting orders among some ids. */
  function Cancellable(pendings: map<nat, Resting>, ids: set<string>): (r: set<nat>) {
    set o | o in pendings && pendings[o].own && Str(o) in ids
  }

  function Movable(positions: map<nat, Position>, ids: set<string>): (r: set<nat>) {
    set p | p in positions && positions[p].own && Str(p) in ids
  }

  /** Stops moved to the entry price; nothing else changes. */
  function AtEntry(positions: map<nat, Position>, which: set<nat>): (r: map<nat, Position>) {
    map t | t in positions :: if t in which then positions[t].(sl := positions[t].entry) else positions[t]
  }

  /** The positions stay the same but for their stops, and those only of the ones moved. */
  lemma OnlyStopsMove(positions: map<nat, Position>, which: set<nat>, t: nat)
    requires t in positions
    ensures AtEntry(positions, which).Keys == positions.Keys
    ensures var was, now := positions[t], AtEntry(positions, which)[t];
            && now.sl == (if t in which then was.entry else was.sl)
            && now.tp == was.tp && now.entry == was.entry && now.volume == was.volume && now.side == was.side
            && now.symbol == was.symbol && now.own == was.own && now.comment == was.comment
  {
  }

  /** `cancel_pending_orders`: goes on past a refusal. */
  method CancelPending(t: Terminal, ids: set<string>) returns (removed: set<nat>, failures: set<nat>)
    modifies t
    ensures t.positions == old(t.positions) && t.pendings == old(t.pendings) - removed
    ensures removed !! failures && removed + failures == Cancellable(old(t.pendings), ids)
    ensures Accepting(old(t.replies)) ==> Accepting(t.replies) && failures == {}
  {
    hide Accepting, Str;
    removed, failures := {}, {};
    var tickets := Listing(t.pendings);
    ghost var wanted := Cancellable(t.pendings, ids);
    for k := 0 to |tickets|
      invariant t.positions == old(t.positions) && t.pendings == old(t.pendings) - removed
      invariant removed !! failures && removed + failures == Among(tickets, k, wanted)
      invariant Accepting(old(t.replies)) ==> Accepting(t.replies) && failures == {}
    {
      var o := tickets[k];
      AmongNext(tickets, k, wanted);
      if Str(o) !in ids || !t.pendings[o].own { continue; }
      assert o in wanted;
      var r := t.Ask();
      if r != Done {
        failures := failures + {o};
      } else {
        removed := removed + {o};
        t.pendings := t.pendings - {o};
      }
    }
    AmongAll(tickets, wanted);
  }

  /** `_move_siblings_to_breakeven`: resends the target, goes on past a refusal. */
  method MoveToEntry(t: Terminal, ids: set<string>) returns (moved: set<nat>, failures: set<nat>)
    modifies t
    ensures t.pendings == old(t.pendings) && t.positions == AtEntry(old(t.positions), moved)
    ensures moved !! failures && moved + failures == Movable(old(t.positions), ids)
    ensures Accepting(old(t.replies)) ==> Accepting(t.replies) && failures == {}
  {
    hide Accepting, Str, AtEntry;
    moved, failures := {}, {};
    NothingMoved(t.positions);
    EntryKeeps(t.positions, {});
    var tickets := Listing(t.positions);
    ghost var wanted := Movable(t.positions, ids);
    for k := 0 to |tickets|
      invariant t.pendings == old(t.pendings) && t.positions == AtEntry(old(t.positions), moved)
      invariant t.positions.Keys == old(t.positions).Keys
      invariant moved !! failures && moved + failures == Among(tickets, k, wanted)
      invariant Accepting(old(t.replies)) ==> Accepting(t.replies) && failures == {}
    {
      var p := tickets[k];
      AmongNext(tickets, k, wanted);
      EntryKeeps(old(t.positions), moved);
      if !t.positions[p].own || Str(p) !in ids { continue; }
      assert p in wanted;
      var r := t.Ask();
      if r != Done {
        failures := failures + {p};
      } else {
        OneMoreMoved(old(t.positions), moved, p);
        moved := moved + {p};
        t.positions := t.positions[p := t.positions[p].(sl := t.positions[p].entry, tp := t.positions[p].tp)];
      }
    }
    AmongAll(tickets, wanted);
  }

  lemma EntryKeeps(positions: map<nat, Position>, which: set<nat>)
    ensures AtEntry(positions, which).Keys == positions.Keys
    ensures forall t :: t in positions ==> AtEntry(positions, which)[t].own == positions[t].own
  {
  }

  lemma OneMoreMoved(positions: map<nat, Position>, moved: set<nat>, p: nat)
    requires p in positions
    ensures var now := AtEntry(positions, moved);
            AtEntry(positions, moved + {p}) == now[p := now[p].(sl := now[p].entry, tp := now[p].tp)]
  {
  }

  ghost function TablesOf(store: Store, breakeven: Option<string> -> bool): (s: Tables)
    reads store
  {
    Tables(store.orders, store.signals, breakeven)
  }

  /** `_handle_close_oco`: does what the close calls for, on what the broker lets through. */
  method HandleClose(t: Terminal, store: Store, breakeven: Option<string> -> bool, leg: nat, reason: Reason)
    returns (removed: set<nat>, moved: set<nat>)
    modifies t
    ensures t.pendings == old(t.pendings) - removed && t.positions == AtEntry(old(t.positions), moved)
    ensures var s := TablesOf(store, breakeven);
            var half := Classify(RowsFor(s, Str(leg)), Str(leg)) == Half;
            && removed <= RestingSiblings(s, old(t.pendings), leg) && moved <= OpenSiblings(s, old(t.positions), leg)
            && (removed != {} ==> reason == StopLoss || (reason == TakeProfit && !half))
            && (moved != {} ==> reason == TakeProfit && half && BreakevenOn(s, leg))
            && (Accepting(old(t.replies)) ==>
                  && Accepting(t.replies)
                  && (reason == StopLoss || (reason == TakeProfit && !half) ==>
                        removed == RestingSiblings(s, old(t.pendings), leg))
                  && (reason == TakeProfit && half && BreakevenOn(s, leg) ==>
                        moved == OpenSiblings(s, old(t.positions), leg)))
  {
    hide Accepting, Classify, Str, SiblingRows, Others, IsSibling, Found, AtEntry;
    removed, moved := {}, {};
    NothingMoved(t.positions);
    if reason == OtherReason { return; }
    ghost var s := TablesOf(store, breakeven);
    var rows, channel := store.FindSiblings(Str(leg));
    var kind := ClassifyClose(rows, Str(leg));
    if kind == Half { HalfIsFound(s, Str(leg)); }
    if reason == StopLoss || kind != Half {
      CancellableAre(s, t.pendings, leg);
      var gone, failures := CancelPending(t, Others(rows, Str(leg)));
      removed := gone;
    } else if breakeven(channel) {
      MovableAre(s, t.positions, leg);
      var changed, failures := MoveToEntry(t, Others(rows, Str(leg)));
      moved := changed;
    }
  }

  lemma CancellableAre(s: Tables, pendings: map<nat, Resting>, leg: nat)
    ensures Cancellable(pendings, Others(RowsFor(s, Str(leg)), Str(leg))) == RestingSiblings(s, pendings, leg)
  {
    hide Others, IsSibling, Str, RowsFor;
    forall o | o in pendings ensures Str(o) in Others(RowsFor(s, Str(leg)), Str(leg)) <==> IsSibling(s, leg, o) {
      OthersAreSiblings(s, leg, o);
    }
  }

  lemma MovableAre(s: Tables, positions: map<nat, Position>, leg: nat)
    ensures Movable(positions, Others(RowsFor(s, Str(leg)), Str(leg))) == OpenSiblings(s, positions, leg)
  {
    hide Others, IsSibling, Str, RowsFor;
    forall p | p in positions ensures Str(p) in Others(RowsFor(s, Str(leg)), Str(leg)) <==> IsSibling(s, leg, p) {
      OthersAreSiblings(s, leg, p);
    }
  }

  lemma NothingMoved(positions: map<nat, Position>)
    ensures AtEntry(positions, {}) == positions
  {
  }

  // ---------------------------------------------------------------- the monitor

  function OwnPositions(positions: map<nat, Position>): (r: map<nat, Position>) {
    map t | t in positions && positions[t].own :: positions[t]
  }

  /** A leg has left when it was the shim's at the last poll, and is not a position of the shim any more. */
  lemma LeftIff(last: map<nat, Position>, now: map<nat, Position>, leg: nat)
    ensures Left(OwnPositions(last), now, leg) <==>
            leg in last && last[leg].own && !(leg in now && now[leg].own)
  {
  }

  /** What one poll sees of the world besides the book. */
  datatype View = View(tables: Tables, reasons: nat -> Reason)

  /** A leg that was on the book at the last poll and no longer is. */
  predicate Left(known: map<nat, Position>, positions: map<nat, Position>, leg: nat) {
    leg in known && leg !in OwnPositions(positions)
  }

  /** An order may be withdrawn for a leg: a resting order of the shim, of a signal they
      share, the leg having closed at its stop, or at a target that is not a half one. */
  ghost predicate MayWithdraw(v: View, known: map<nat, Position>, positions: map<nat, Position>,
                              pendings: map<nat, Resting>, order: nat, leg: nat) {
    && Left(known, positions, leg)
    && order in pendings && pendings[order].own && IsSibling(v.tables, leg, order)
    && SameSignal(v.tables.orders, v.tables.signals, Str(leg), Str(order))
    && (v.reasons(leg) == StopLoss
        || (v.reasons(leg) == TakeProfit && Classify(RowsFor(v.tables, Str(leg)), Str(leg)) != Half))
  }

  /** A stop may be moved for a leg: a position of the shim, of a signal they share, the leg
      having closed at a half target, on a channel with breakeven switched on. */
  ghost predicate MayMove(v: View, known: map<nat, Position>, positions: map<nat, Position>, position: nat, leg: nat) {
    && Left(known, positions, leg)
    && position in positions && positions[position].own && IsSibling(v.tables, leg, position)
    && SameSignal(v.tables.orders, v.tables.signals, Str(leg), Str(position))
    && v.reasons(leg) == TakeProfit && Classify(RowsFor(v.tables, Str(leg)), Str(leg)) == Half
    && BreakevenOn(v.tables, leg)
  }

  /** The changes of a poll: what was withdrawn and moved, and the leg each was for. */
  datatype Changes = Changes(withdrawn: map<nat, nat>, moved: map<nat, nat>)

  /** Every change is one that may be made. */
  ghost predicate Allowed(v: View, known: map<nat, Position>, positions: map<nat, Position>,
                          pendings: map<nat, Resting>, c: Changes) {
    && (forall o :: o in c.withdrawn ==> MayWithdraw(v, known, positions, pendings, o, c.withdrawn[o]))
    && (forall p :: p in c.moved ==> MayMove(v, known, positions, p, c.moved[p]))
  }

  /** After a close at the stop, or at a target that is not a half one, no sibling order is left at rest. */
  ghost predicate Cleared(v: View, pendings: map<nat, Resting>, now: map<nat, Resting>, leg: nat) {
    v.reasons(leg) == StopLoss
    || (v.reasons(leg) == TakeProfit && Classify(RowsFor(v.tables, Str(leg)), Str(leg)) != Half) ==>
      forall o :: o in pendings && pendings[o].own && IsSibling(v.tables, leg, o) ==> o !in now
  }

  /** After a half close on a channel with breakeven on, every sibling position has its stop at its entry. */
  ghost predicate Settled(v: View, positions: map<nat, Position>, now: map<nat, Position>, leg: nat) {
    v.reasons(leg) == TakeProfit && Classify(RowsFor(v.tables, Str(leg)), Str(leg)) == Half
    && BreakevenOn(v.tables, leg) ==>
      forall p :: p in positions && positions[p].own && IsSibling(v.tables, leg, p) ==>
        p in now && now[p].sl == now[p].entry
  }

  function After(c: Changes, leg: nat, removed: set<nat>, moved: set<nat>): (d: Changes) {
    Changes(c.withdrawn + map o | o in removed :: leg, c.moved + map p | p in moved :: leg)
  }

  /** What `HandleClose` may do for a leg. */
  ghost predicate Justified(v: View, positions: map<nat, Position>, pendings: map<nat, Resting>, leg: nat,
                            removed: set<nat>, moved: set<nat>) {
    var half := Classify(RowsFor(v.tables, Str(leg)), Str(leg)) == Half;
    && removed <= RestingSiblings(v.tables, pendings, leg) && moved <= OpenSiblings(v.tables, positions, leg)
    && (removed != {} ==> v.reasons(leg) == StopLoss || (v.reasons(leg) == TakeProfit && !half))
    && (moved != {} ==> v.reasons(leg) == TakeProfit && half && BreakevenOn(v.tables, leg))
  }

  /** One more leg: the changes add up and stay allowed. */
  lemma AllowedAfter(v: View, known: map<nat, Position>, positions: map<nat, Position>,
                     pendings: map<nat, Resting>, c: Changes, leg: nat, removed: set<nat>, moved: set<nat>)
    requires Allowed(v, known, positions, pendings, c) && Left(known, positions, leg)
    requires Justified(v, AtEntry(positions, c.moved.Keys), pendings - c.withdrawn.Keys, leg, removed, moved)
    ensures Allowed(v, known, positions, pendings, After(c, leg, removed, moved))
  {
    hide Justified, Str, Left, MayWithdraw, MayMove;
    forall o | o in removed ensures MayWithdraw(v, known, positions, pendings, o, leg) {
      WithdrawalAllowed(v, known, positions, pendings, c, leg, removed, moved, o);
    }
    forall p | p in moved ensures MayMove(v, known, positions, p, leg) {
      MoveAllowed(v, known, positions, pendings, c, leg, removed, moved, p);
    }
  }

  lemma WithdrawalAllowed(v: View, known: map<nat, Position>, positions: map<nat, Position>,
                          pendings: map<nat, Resting>,
                          c: Changes, leg: nat, removed: set<nat>, moved: set<nat>, o: nat)
    requires Left(known, positions, leg) && o in removed
    requires Justified(v, AtEntry(positions, c.moved.Keys), pendings - c.withdrawn.Keys, leg, removed, moved)
    ensures MayWithdraw(v, known, positions, pendings, o, leg)
  {
    hide Classify, Str, RowsFor, SameSignal, IsSibling, Left, BreakevenOn, AtEntry;
    SiblingsShareSignal(v.tables, leg, o);
  }

  lemma MoveAllowed(v: View, known: map<nat, Position>, positions: map<nat, Position>, pendings: map<nat, Resting>,
                    c: Changes, leg: nat, removed: set<nat>, moved: set<nat>, p: nat)
    requires Left(known, positions, leg) && p in moved
    requires Justified(v, AtEntry(positions, c.moved.Keys), pendings - c.withdrawn.Keys, leg, removed, moved)
    ensures MayMove(v, known, positions, p, leg)
  {
    hide Classify, Str, RowsFor, SameSignal, IsSibling, Left, BreakevenOn;
    SiblingsShareSignal(v.tables, leg, p);
  }

  lemma BooksAfter(positions: map<nat, Position>, pendings: map<nat, Resting>, c: Changes, leg: nat, removed: set<nat>,
                   moved: set<nat>)
    ensures var d := After(c, leg, removed, moved);
            && pendings - c.withdrawn.Keys - removed == pendings - d.withdrawn.Keys
            && AtEntry(AtEntry(positions, c.moved.Keys), moved) == AtEntry(positions, d.moved.Keys)
  {
    var d := After(c, leg, removed, moved);
    assert d.withdrawn.Keys == c.withdrawn.Keys + removed && d.moved.Keys == c.moved.Keys + moved;
  }

  /** Withdrawing more keeps legs cleared. */
  lemma StaysCleared(v: View, pendings: map<nat, Resting>, gone: set<nat>, more: set<nat>, leg: nat)
    requires Cleared(v, pendings, pendings - gone, leg)
    ensures Cleared(v, pendings, pendings - gone - more, leg)
  {
    hide Classify, IsSibling, RowsFor, Str;
  }

  lemma NowCleared(v: View, pendings: map<nat, Resting>, gone: set<nat>, removed: set<nat>, leg: nat)
    requires v.reasons(leg) == StopLoss
             || (v.reasons(leg) == TakeProfit && Classify(RowsFor(v.tables, Str(leg)), Str(leg)) != Half) ==>
               removed == RestingSiblings(v.tables, pendings - gone, leg)
    ensures Cleared(v, pendings, pendings - gone - removed, leg)
  {
    hide Classify, IsSibling, RowsFor, Str;
  }

  /** Moving more stops keeps legs settled. */
  lemma StaysSettled(v: View, positions: map<nat, Position>, first: set<nat>, more: set<nat>, leg: nat)
    requires Settled(v, positions, AtEntry(positions, first), leg)
    ensures Settled(v, positions, AtEntry(AtEntry(positions, first), more), leg)
  {
    hide Classify, IsSibling, RowsFor, Str, BreakevenOn;
  }

  lemma NowSettled(v: View, positions: map<nat, Position>, first: set<nat>, moved: set<nat>, leg: nat)
    requires v.reasons(leg) == TakeProfit && Classify(RowsFor(v.tables, Str(leg)), Str(leg)) == Half
             && BreakevenOn(v.tables, leg) ==>
               moved == OpenSiblings(v.tables, AtEntry(positions, first), leg)
    ensures Settled(v, positions, AtEntry(AtEntry(positions, first), moved), leg)
  {
    hide Classify, IsSibling, RowsFor, Str, BreakevenOn;
  }

  /** Nothing that a leg's close calls for is left to do. */
  ghost predicate Handled(v: View, positions: map<nat, Position>, pendings: map<nat, Resting>,
                          nowOpen: map<nat, Position>, nowResting: map<nat, Resting>, leg: nat) {
    Cleared(v, pendings, nowResting, leg) && Settled(v, positions, nowOpen, leg)
  }

  /** One pass of `position_monitor` over the legs that left. */
  method HandleClosed(t: Terminal, store: Store, breakeven: Option<string> -> bool, reasons: nat -> Reason,
                      known: map<nat, Position>)
    returns (c: Changes)
    modifies t
    ensures t.pendings == old(t.pendings) - c.withdrawn.Keys && t.positions == AtEntry(old(t.positions), c.moved.Keys)
    ensures var v := View(TablesOf(store, breakeven), reasons);
            && Allowed(v, known, old(t.positions), old(t.pendings), c)
            && (Accepting(old(t.replies)) ==>
                  forall leg :: Left(known, old(t.positions), leg) ==>
                    Handled(v, old(t.positions), old(t.pendings), t.positions, t.pendings, leg))
  {
    hide Accepting, Classify, RowsFor, BreakevenOn, RestingSiblings, OpenSiblings, MayWithdraw, MayMove, Str,
      OwnPositions, Allowed, Cleared, Settled, AtEntry, After;
    ghost var v := View(TablesOf(store, breakeven), reasons);
    c := Changes(map[], map[]);
    assert c.moved.Keys == {} && c.withdrawn.Keys == {};
    NothingMoved(t.positions);
    NothingChanged(v, known, t.positions, t.pendings);
    var current := OwnPositions(t.positions);
    var legs := Listing(known);
    for k := 0 to |legs|
      invariant t.pendings == old(t.pendings) - c.withdrawn.Keys
                  && t.positions == AtEntry(old(t.positions), c.moved.Keys)
      invariant Allowed(v, known, old(t.positions), old(t.pendings), c)
      invariant Accepting(old(t.replies)) ==> Accepting(t.replies)
      invariant Accepting(old(t.replies)) ==>
                  forall i :: 0 <= i < k && legs[i] !in current ==>
                    Handled(v, old(t.positions), old(t.pendings), t.positions, t.pendings, legs[i])
    {
      var leg := legs[k];
      if leg in current { continue; }
      ghost var gone, atEntry := c.withdrawn.Keys, c.moved.Keys;
      var removed, moved := HandleClose(t, store, breakeven, leg, reasons(leg));
      AllowedAfter(v, known, old(t.positions), old(t.pendings), c, leg, removed, moved);
      BooksAfter(old(t.positions), old(t.pendings), c, leg, removed, moved);
      c := After(c, leg, removed, moved);
      if Accepting(old(t.replies)) {
        NowCleared(v, old(t.pendings), gone, removed, leg);
        NowSettled(v, old(t.positions), atEntry, moved, leg);
        forall i | 0 <= i < k && legs[i] !in current
          ensures Handled(v, old(t.positions), old(t.pendings), t.positions, t.pendings, legs[i])
        {
          StaysCleared(v, old(t.pendings), gone, removed, legs[i]);
          StaysSettled(v, old(t.positions), atEntry, moved, legs[i]);
        }
      }
    }
  }

  lemma NothingChanged(v: View, known: map<nat, Position>, positions: map<nat, Position>, pendings: map<nat, Resting>)
    ensures Allowed(v, known, positions, pendings, Changes(map[], map[]))
  {
  }

  // ---------------------------------------------------------------- whole runs

  /** What a poll finds: the book, the tables and the closing deals may be anything. */
  datatype World = World(positions: map<nat, Position>, pendings: map<nat, Resting>, replies: seq<Reply>, view: View)

  /** What a poll leaves. */
  datatype Outcome = Outcome(changes: Changes, positions: map<nat, Position>, pendings: map<nat, Resting>)

  /** A first poll, and every poll with the switch off, changes nothing; any other only
      what may be changed for a leg that left since the poll before. */
  ghost predicate Lawful(enabled: bool, last: Option<World>, w: World, o: Outcome) {
    && o.pendings == w.pendings - o.changes.withdrawn.Keys
    && o.positions == AtEntry(w.positions, o.changes.moved.Keys)
    && (last.None? || !enabled ==> o.changes == Changes(map[], map[]))
    && (last.Some? && enabled ==>
      Allowed(w.view, OwnPositions(last.value.positions), w.positions, w.pendings, o.changes))
    && (last.Some? && enabled && Accepting(w.replies) ==>
          forall leg :: Left(OwnPositions(last.value.positions), w.positions, leg) ==>
            Handled(w.view, w.positions, w.pendings, o.positions, o.pendings, leg))
  }

  function Before(worlds: seq<World>, k: nat): (w: Option<World>)
    requires k <= |worlds|
  {
    if k == 0 then None else Some(worlds[k - 1])
  }

  /** `position_monitor`, one world a poll. */
  method Monitor(worlds: seq<World>, enabled: bool) returns (outcomes: seq<Outcome>)
    ensures |outcomes| == |worlds|
    ensures forall k :: 0 <= k < |worlds| ==> Lawful(enabled, Before(worlds, k), worlds[k], outcomes[k])
  {
    hide Lawful, OwnPositions;
    outcomes := [];
    var known: Option<map<nat, Position>> := None;
    for k := 0 to |worlds|
      invariant |outcomes| == k
      invariant known == if k == 0 then None else Some(OwnPositions(worlds[k - 1].positions))
      invariant forall i :: 0 <= i < k ==> Lawful(enabled, Before(worlds, i), worlds[i], outcomes[i])
    {
      var o := Poll(worlds[k], Before(worlds, k), known, enabled);
      known := Some(OwnPositions(worlds[k].positions));
      outcomes := outcomes + [o];
    }
  }

  /** One turn of the loop. */
  method Poll(w: World, ghost last: Option<World>, known: Option<map<nat, Position>>, enabled: bool)
      returns (o: Outcome)
    requires known == if last.None? then None else Some(OwnPositions(last.value.positions))
    ensures Lawful(enabled, last, w, o)
  {
    hide Allowed, Handled, Accepting, Left, OwnPositions;
    var t := new Terminal(w.positions, w.pendings, 0, w.replies);
    var store := new Store();
    store.orders, store.signals := w.view.tables.orders, w.view.tables.signals;
    var c := Changes(map[], map[]);
    assert c.moved.Keys == {} && c.withdrawn.Keys == {};
    NothingMoved(w.positions);
    if known.Some? && enabled {
      c := HandleClosed(t, store, w.view.tables.breakeven, w.view.reasons, known.value);
    }
    o := Outcome(c, t.positions, t.pendings);
  }
}
