/**
 The bridge's table of live EA connections (apps/bridge/internal/bridge/hub.go)
 under the sessions of apps/bridge/internal/bridge/handler.go: each registers a
 fresh connection once and unregisters it once, in any interleaving.
 */
module Hub {
  import opened Prelude

  /** A connection is one object; two of the same instance are still two. */
  class Conn {
    const instance: string
    var closed: bool

    constructor (instance: string)
      ensures this.instance == instance && !closed
    {
      this.instance, closed := instance, false;
    }
  }

  class ConnHub {
    var conns: map<string, Conn>
    var gauge: int

    constructor ()
      ensures conns == map[] && gauge == 0
    {
      conns, gauge := map[], 0;
    }

    /** Each connection is filed under its own instance, and the gauge counts them. */
    ghost predicate Valid()
      reads this
    {
      gauge == |conns| && forall i :: i in conns ==> conns[i].instance == i
    }

    method Register(c: Conn)
      requires Valid()
      modifies this, conns.Values
      ensures Valid() && conns == old(conns)[c.instance := c]
      ensures gauge == if c.instance in old(conns) then old(gauge) else old(gauge) + 1
      ensures c.instance in old(conns) ==> old(conns)[c.instance].closed
      ensures forall o :: o in old(conns.Values) && o.instance != c.instance ==> o.closed == old(o.closed)
    {
      if c.instance in conns {
        var previous := conns[c.instance];
        assert previous in conns.Values;
        previous.closed := true;
      } else {
        gauge := gauge + 1;
      }
      conns := conns[c.instance := c];
    }

    method Unregister(c: Conn)
      requires Valid()
      modifies this
      ensures Valid()
      ensures conns == if c.instance in old(conns) && old(conns)[c.instance] == c then old(conns) - {c.instance}
                else old(conns)
    {
      if c.instance in conns && conns[c.instance] == c {
        conns := conns - {c.instance};
        gauge := gauge - 1;
      }
    }

    method Get(instance: string) returns (c: Conn?, ok: bool)
      ensures ok <==> instance in conns
      ensures ok ==> c == conns[instance]
    {
      if instance in conns { return conns[instance], true; }
      return null, false;
    }
  }

  // ---------------------------------------------------------------- runs

  /** A session, named by a number; `instance` tells whose it is. */
  datatype Event = Register(session: nat, instance: string) | Unregister(session: nat, instance: string)

  datatype State = State(conns: map<string, nat>, gauge: int)

  const EMPTY := State(map[], 0)

  function Step(s: State, e: Event): (r: State) {
    match e
    case Register(c, i) => State(s.conns[i := c], if i in s.conns then s.gauge else s.gauge + 1)
    case Unregister(c, i) =>
      if i in s.conns && s.conns[i] == c then State(s.conns - {i}, s.gauge - 1) else s
  }

  function Run(es: seq<Event>): (r: State) {
    if es == [] then EMPTY else Step(Run(es[..|es| - 1]), es[|es| - 1])
  }

  predicate Began(es: seq<Event>, c: nat) {
    exists k :: 0 <= k < |es| && es[k].Register? && es[k].session == c
  }

  predicate Ended(es: seq<Event>, c: nat) {
    exists k :: 0 <= k < |es| && es[k].Unregister? && es[k].session == c
  }

  /** Sessions register once, and unregister once afterwards under the same instance. */
  predicate Sessions(es: seq<Event>) {
    es == [] ||
    var n := |es| - 1;
    var before, e := es[..n], es[n];
    && Sessions(before)
    && match e {
         case Register(c, _) => !Began(before, c)
         case Unregister(c, i) => !Ended(before, c) && Register(c, i) in before
       }
  }

  /** The session that registered last for an instance. */
  function Latest(es: seq<Event>, i: string): (r: Option<nat>) {
    if es == [] then None
    else
      var e := es[|es| - 1];
      if e.Register? && e.instance == i then Some(e.session) else Latest(es[..|es| - 1], i)
  }

  lemma {:induction false} LatestBegan(es: seq<Event>, i: string)
    requires Sessions(es) && Latest(es, i).Some?
    ensures Register(Latest(es, i).value, i) in es
  {
    if es != [] {
      var n := |es| - 1;
      if !(es[n].Register? && es[n].instance == i) { LatestBegan(es[..n], i); }
    }
  }

  /** One session is never the latest of two instances. */
  lemma {:induction false} OneInstance(es: seq<Event>, c: nat, i: string, j: string)
    requires Sessions(es) && Register(c, i) in es && Register(c, j) in es
    ensures i == j
  {
    var n := |es| - 1;
    if Register(c, i) in es[..n] && Register(c, j) in es[..n] { OneInstance(es[..n], c, i, j); }
  }

  /** An event ends only the session it names. */
  lemma EndedStep(before: seq<Event>, e: Event, c: nat)
    ensures Ended(before + [e], c) <==> Ended(before, c) || (e.Unregister? && e.session == c)
  {
    var es := before + [e];
    if Ended(before, c) {
      var k :| 0 <= k < |before| && before[k].Unregister? && before[k].session == c;
      assert es[k] == before[k];
    }
    if e.Unregister? && e.session == c { assert es[|before|] == e; }
  }

  /** What the hub should hold: an instance's latest session, unless that one has ended. */
  function Live(es: seq<Event>, i: string): (r: Option<nat>) {
    if Latest(es, i).Some? && !Ended(es, Latest(es, i).value) then Latest(es, i) else None
  }

  function Get(s: State, i: string): (r: Option<nat>) {
    if i in s.conns then Some(s.conns[i]) else None
  }

  /**
   After every interleaving, `Get` returns the most recently registered session
   of an instance if that one has not ended, and the gauge counts the instances.
   */
  lemma {:induction false} HubTracksLatest(es: seq<Event>)
    requires Sessions(es)
    ensures forall i :: Get(Run(es), i) == Live(es, i)
    ensures Run(es).gauge == |Run(es).conns|
  {
    if es != [] {
      var n := |es| - 1;
      var before, e := es[..n], es[n];
      assert es == before + [e];
      HubTracksLatest(before);
      forall i ensures Get(Run(es), i) == Live(es, i) { TracksOne(before, e, i); }
      StepGauge(Run(before), e);
    }
  }

  lemma StepGauge(s: State, e: Event)
    requires s.gauge == |s.conns|
    ensures Step(s, e).gauge == |Step(s, e).conns|
  {
  }

  lemma TracksOne(before: seq<Event>, e: Event, i: string)
    requires Sessions(before + [e])
    requires forall j :: Get(Run(before), j) == Live(before, j)
    ensures Get(Run(before + [e]), i) == Live(before + [e], i)
  {
    var es := before + [e];
    assert es[..|before|] == before;
    assert Get(Run(before), i) == Live(before, i);
    if Latest(es, i).Some? {
      EndedStep(before, e, Latest(es, i).value);
    }
    if e.Register? {
      if e.instance == i { FreshNotEnded(before, e.session); }
    } else if Latest(before, i) == Some(e.session) {
      LatestBegan(before, i);
      OneInstance(before, e.session, i, e.instance);
    }
  }

  lemma {:induction false} FreshNotEnded(es: seq<Event>, c: nat)
    requires Sessions(es) && !Began(es, c)
    ensures !Ended(es, c)
  {
    if es != [] {
      var n := |es| - 1;
      assert es == es[..n] + [es[n]];
      assert !Began(es[..n], c);
      FreshNotEnded(es[..n], c);
      EndedStep(es[..n], es[n], c);
    }
  }

  /** A superseded session's unregistration leaves the hub as it is. */
  lemma SupersededLeavesAlone(es: seq<Event>, c: nat, i: string)
    requires Sessions(es) && Sessions(es + [Unregister(c, i)]) && Latest(es, i) != Some(c)
    ensures Run(es + [Unregister(c, i)]) == Run(es)
  {
    HubTracksLatest(es);
    assert (es + [Unregister(c, i)])[..|es|] == es;
    assert Get(Run(es), i) == Live(es, i);
  }

  /** When every session has ended, the hub is empty and the gauge is zero. */
  lemma AllEnded(es: seq<Event>)
    requires Sessions(es) && forall c :: Began(es, c) ==> Ended(es, c)
    ensures Run(es) == EMPTY
  {
    HubTracksLatest(es);
    forall i ensures i !in Run(es).conns {
      assert Get(Run(es), i) == Live(es, i);
      if Latest(es, i).Some? {
        LatestBegan(es, i);
        var k :| 0 <= k < |es| && es[k] == Register(Latest(es, i).value, i);
        assert Began(es, Latest(es, i).value);
      }
    }
  }

  // ---------------------------------------------------------------- the table in a run

  /** The hub holds the connections of the sessions a state names. */
  ghost predicate Represents(hub: ConnHub, sessions: map<nat, Conn>, s: State)
    reads hub
  {
    Same(hub.conns, hub.gauge, sessions, s)
  }

  ghost predicate Same(conns: map<string, Conn>, gauge: int, sessions: map<nat, Conn>, s: State) {
    && gauge == s.gauge && conns.Keys == s.conns.Keys
    && forall i :: i in s.conns ==> s.conns[i] in sessions && conns[i] == sessions[s.conns[i]]
  }

  /** Each session that began has a connection of its own, under its instance. */
  ghost predicate Distinct(sessions: map<nat, Conn>, es: seq<Event>) {
    && (forall c, d :: c in sessions && d in sessions && sessions[c] == sessions[d] ==> c == d)
    && (forall c, i :: Register(c, i) in es ==> c in sessions && sessions[c].instance == i)
    && (forall c :: c in sessions ==> Began(es, c))
  }

  lemma BeganStep(before: seq<Event>, e: Event, c: nat)
    ensures Began(before + [e], c) <==> Began(before, c) || (e.Register? && e.session == c)
  {
    var es := before + [e];
    if Began(before, c) {
      var k :| 0 <= k < |before| && before[k].Register? && before[k].session == c;
      assert es[k] == before[k];
    }
    if e.Register? && e.session == c { assert es[|before|] == e; }
  }

  lemma DistinctStep(sessions: map<nat, Conn>, before: seq<Event>, e: Event, conn: Conn)
    requires Distinct(sessions, before) && conn !in sessions.Values
    requires e.Register? && !Began(before, e.session) && conn.instance == e.instance
    ensures Distinct(sessions[e.session := conn], before + [e])
  {
    var after := sessions[e.session := conn];
    forall c | c in after ensures Began(before + [e], c) { BeganStep(before, e, c); }
    forall c, i | Register(c, i) in before + [e] ensures c in after && after[c].instance == i {
      if Register(c, i) in before {
        var k :| 0 <= k < |before| && before[k] == Register(c, i);
        assert Began(before, c);
      }
    }
    forall c, d | c in after && d in after && after[c] == after[d] ensures c == d {
      assert c in sessions ==> sessions[c] in sessions.Values;
      assert d in sessions ==> sessions[d] in sessions.Values;
    }
  }

  /** A new session. */
  method Arrive(hub: ConnHub, sessions: map<nat, Conn>, ghost s: State, ghost before: seq<Event>, c: nat, i: string)
    returns (after: map<nat, Conn>)
    requires hub.Valid() && Represents(hub, sessions, s) && hub.conns.Values <= sessions.Values
    requires Distinct(sessions, before) && !Began(before, c)
    modifies hub, hub.conns.Values
    ensures hub.Valid() && Represents(hub, after, Step(s, Register(c, i))) && hub.conns.Values <= after.Values
    ensures Distinct(after, before + [Register(c, i)]) && fresh(after.Values - sessions.Values)
  {
    hide Began, Distinct, Step, Same;
    var conn := new Conn(i);
    DistinctStep(sessions, before, Register(c, i), conn);
    NotYet(sessions, before, c);
    after := sessions[c := conn];
    ValuesWith(sessions, c, conn);
    ValuesWith(hub.conns, i, conn);
    RegisterRepresents(hub.conns, hub.gauge, sessions, s, c, conn);
    hub.Register(conn);
  }

  /** Filing a new entry adds its value, and may drop one. */
  lemma ValuesWith<K, V>(m: map<K, V>, k: K, v: V)
    ensures m[k := v].Values <= m.Values + {v}
    ensures k !in m ==> m[k := v].Values == m.Values + {v}
  {
    var w := m[k := v];
    assert w[k] in w.Values;
    if k !in m {
      forall x | x in m.Values ensures x in w.Values {
        var j :| j in m && m[j] == x;
        assert w[j] == x;
      }
    }
  }

  lemma RegisterRepresents(conns: map<string, Conn>, gauge: int, sessions: map<nat, Conn>, s: State, c: nat, conn: Conn)
    requires Same(conns, gauge, sessions, s) && c !in sessions
    ensures var i := conn.instance;
            Same(conns[i := conn], if i in conns then gauge else gauge + 1, sessions[c := conn],
              Step(s, Register(c, i)))
  {
  }

  lemma NotYet(sessions: map<nat, Conn>, es: seq<Event>, c: nat)
    requires Distinct(sessions, es) && !Began(es, c)
    ensures c !in sessions
  {
  }

  /** The end of a session. */
  method Leave(hub: ConnHub, sessions: map<nat, Conn>, ghost s: State, ghost before: seq<Event>, c: nat, i: string)
    requires hub.Valid() && Represents(hub, sessions, s) && hub.conns.Values <= sessions.Values
    requires Distinct(sessions, before) && Register(c, i) in before && c in sessions
    modifies hub
    ensures hub.Valid() && Represents(hub, sessions, Step(s, Unregister(c, i))) && hub.conns.Values <= sessions.Values
  {
    hide Began;
    hub.Unregister(sessions[c]);
  }

  lemma DistinctKept(sessions: map<nat, Conn>, before: seq<Event>, c: nat, i: string)
    requires Distinct(sessions, before)
    ensures Distinct(sessions, before + [Unregister(c, i)])
  {
    forall d | d in sessions ensures Began(before + [Unregister(c, i)], d) { BeganStep(before, Unregister(c, i), d); }
  }

  /** A run of registrations and unregistrations on the table itself does what the steps say. */
  method Serve(es: seq<Event>) returns (hub: ConnHub, sessions: map<nat, Conn>)
    requires Sessions(es)
    ensures hub.Valid() && Represents(hub, sessions, Run(es)) && Distinct(sessions, es)
    ensures fresh(hub) && fresh(sessions.Values) && hub.conns.Values <= sessions.Values
    decreases |es|
  {
    hide *;
    if es == [] {
      hub := new ConnHub();
      sessions := map[];
      NobodyYet(hub);
      return;
    }
    var n := |es| - 1;
    var before, e := es[..n], es[n];
    LastEvent(es);
    hub, sessions := Serve(before);
    match e
    case Register(c, i) => sessions := Arrive(hub, sessions, Run(before), before, c, i);
    case Unregister(c, i) =>
      KnownSession(sessions, before, c, i);
      Leave(hub, sessions, Run(before), before, c, i);
      DistinctKept(sessions, before, c, i);
  }

  lemma LastEvent(es: seq<Event>)
    requires es != [] && Sessions(es)
    ensures var n := |es| - 1; var before, e := es[..n], es[n];
            && es == before + [e] && Sessions(before) && Run(es) == Step(Run(before), e)
            && (e.Register? ==> !Began(before, e.session))
            && (e.Unregister? ==> Register(e.session, e.instance) in before)
  {
    hide Step, Began, Ended;
  }

  lemma NobodyYet(hub: ConnHub)
    requires hub.conns == map[] && hub.gauge == 0
    ensures hub.Valid() && Represents(hub, map[], Run([])) && Distinct(map[], [])
  {
  }

  lemma KnownSession(sessions: map<nat, Conn>, es: seq<Event>, c: nat, i: string)
    requires Distinct(sessions, es) && Register(c, i) in es
    ensures c in sessions
  {
  }
}
