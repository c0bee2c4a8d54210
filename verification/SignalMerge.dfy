/**
 Concatenated payloads, for both decoders: when they merge, and that numbers of
 any size are read.
 */
module SignalMerge {
  import opened Prelude
  import opened Bytes
  import opened SignalProto
  import opened SignalLaws
  import Varint

  // ---------------------------------------------------------------- the strict decoder

  /** The state the strict loop goes on with after one record, if it accepts it. */
  function StrictEffect(u: Utf8, r: Record, s: Signal): (q: Outcome<Signal>)
    requires Inside(r)
  {
    if r.Int? then Ok(if r.num == RECEIVED then s.(nano := Some(r.value)) else s)
    else if IsText(r.num) then
      if u.valid(r.raw) then Ok(s.(text := s.text[r.num := r.raw])) else ProtoError(NotUtf8)
    else if r.num == PARAMS then
      match StrictParam(u, r.raw, Param(None, None)) {
        case Ok(p) => Ok(s.(params := s.params + [p]))
        case IndexError => IndexError
        case ProtoError(e) => ProtoError(e)
      }
    else Ok(s)
  }

  lemma StrictStep(u: Utf8, data: seq<byte>, s: Signal)
    requires data != []
    ensures if Inside(Next(data)) then
              var e := StrictEffect(u, Next(data), s);
              Strict(u, data, s) == if e.Ok? then Strict(u, Next(data).rest, e.value) else e
            else Strict(u, data, s).ProtoError?
  {
    hide Next, StrictParam;
    RawNoLonger(data);
  }

  lemma RawNoLonger(data: seq<byte>)
    requires data != []
    ensures Next(data).Raw? ==> |Next(data).raw| <= Next(data).length
  {
    hide Varint.Decode;
  }

  /** What the strict decoder accepts is whole. */
  lemma {:induction false} AcceptedIsWhole(u: Utf8, data: seq<byte>, s: Signal)
    requires Strict(u, data, s).Ok?
    ensures Whole(data)
    decreases |data|
  {
    hide Next, Strict, StrictEffect;
    if data != [] {
      StrictStep(u, data, s);
      AcceptedIsWhole(u, Next(data).rest, StrictEffect(u, Next(data), s).value);
    }
  }

  /** After whole data the strict decoder goes on from the state it has reached. */
  lemma {:induction false} StrictConcat(u: Utf8, a: seq<byte>, b: seq<byte>, s: Signal)
    requires Whole(a)
    ensures Strict(u, a + b, s) == if Strict(u, a, s).Ok? then Strict(u, b, Strict(u, a, s).value) else Strict(u, a, s)
    decreases |a|
  {
    hide Next, Strict, StrictEffect;
    if a == [] {
      assert a + b == b;
      StrictOfNothing(u, s);
    } else {
      NextAppend(a, b);
      SameEffect(u, Next(a), b, s);
      StrictStep(u, a, s);
      StrictStep(u, a + b, s);
      if StrictEffect(u, Next(a), s).Ok? { StrictConcat(u, Next(a).rest, b, StrictEffect(u, Next(a), s).value); }
    }
  }

  lemma SameEffect(u: Utf8, r: Record, more: seq<byte>, s: Signal)
    requires Inside(r)
    ensures Inside(Longer(r, more)) && StrictEffect(u, Longer(r, more), s) == StrictEffect(u, r, s)
    ensures Longer(r, more).rest == r.rest + more
  {
  }

  // ---------------------------------------------------------------- two encoded signals

  lemma EncodedIsWhole(u: Utf8, s: Signal)
    requires WellTyped(u, s)
    ensures Whole(Encode(s))
  {
    StrictOfEncoded(u, s);
    AcceptedIsWhole(u, Encode(s), EMPTY);
  }

  /** Both decoders read two encoded signals, one after the other, as their merge:
      the last scalar wins and params append. */
  lemma EncodedMerge(u: Utf8, s: Signal, t: Signal)
    requires Lawful(u) && WellTyped(u, s) && WellTyped(u, t)
    ensures Decode(u, Encode(s) + Encode(t)) == Ok(Merge(Normal(s), Normal(t)))
    ensures Parse(u, Encode(s) + Encode(t)) ==
            if Encode(s) + Encode(t) == [] then ProtoError(Empty)
            else if HasRequired(Merge(Normal(s), Normal(t))) then Ok(Merge(Normal(s), Normal(t)))
            else ProtoError(Missing)
  {
    hide Encode, Strict, Lenient, Normal, Merge, HasRequired, Whole;
    EncodedIsWhole(u, s);
    RoundTrip(u, s);
    RoundTrip(u, t);
    DecodeConcat(u, Encode(s), Encode(t));
    StrictOfEncoded(u, s);
    StrictFrom(u, t, Normal(s));
    StrictConcat(u, Encode(s), Encode(t), EMPTY);
    MergedOk(Normal(s), Normal(t));
  }

  lemma MergedOk(s: Signal, t: Signal)
    ensures Merged(s, Ok(t)) == Ok(Merge(s, t))
  {
  }

  /** From any state the strict loop merges an encoded signal into it. */
  lemma StrictFrom(u: Utf8, t: Signal, s: Signal)
    requires Lawful(u) && WellTyped(u, t)
    ensures Strict(u, Encode(t), s) == Ok(Merge(s, Normal(t)))
  {
    hide Encode, Strict, Lenient, Normal, Merge, Whole;
    StrictOfEncoded(u, t);
    EncodedIsWhole(u, t);
    AcceptedFrom(u, Encode(t), EMPTY, s);
    StrictRefines(u, Encode(t), s);
    LenientFrom(u, Encode(t), s);
    RoundTrip(u, t);
    MergedOk(s, Normal(t));
  }

  /** Acceptance does not depend on the state. */
  lemma {:induction false} AcceptedFrom(u: Utf8, data: seq<byte>, s: Signal, t: Signal)
    requires Strict(u, data, s).Ok?
    ensures Strict(u, data, t).Ok?
    decreases |data|
  {
    hide Next, Strict;
    if data == [] {
      StrictOfNothing(u, t);
    } else {
      StrictStep(u, data, s);
      StrictStep(u, data, t);
      AcceptedFrom(u, Next(data).rest, StrictEffect(u, Next(data), s).value, StrictEffect(u, Next(data), t).value);
    }
  }

  // ---------------------------------------------------------------- when data merges

  /** A two-octet record: the time `n`. */
  function Mark(n: byte): (r: seq<byte>)
    requires 0 < n < 128
  {
    [0x40, n]
  }

  lemma MarkDecodes(u: Utf8, n: byte)
    requires 0 < n < 128
    ensures Decode(u, Mark(n)) == Ok(EMPTY.(nano := Some(n)))
  {
    hide Lenient;
    assert Varint.Encode(8 * RECEIVED) == [0x40] && Varint.Encode(n) == [n];
    assert Mark(n) == IntField(RECEIVED, n) + [];
    NextIntField(RECEIVED, n, []);
    LenientStep(u, Mark(n), EMPTY);
    LenientOfNothing(u, EMPTY.(nano := Some(n)));
    MergeEmpty(EMPTY.(nano := Some(n)));
  }

  lemma LenientOfNothing(u: Utf8, s: Signal)
    ensures Lenient(u, [], s) == Ok(s)
  {
  }

  /** A single octet after a record never sets the time. */
  lemma LenientLast(u: Utf8, n: byte, s: Signal)
    requires 0 < n < 8
    ensures Lenient(u, [n], s).Ok? ==> Lenient(u, [n], s).value == s
  {
    hide Lenient, LenientParam;
    assert [n][1..] == [];
    assert Varint.Decode([n]) == Varint.Read(n, []);
    assert !Next([n]).Int? && !Next([n]).Raw?;
    LenientEnds(u, [n], s);
  }

  lemma LenientEnds(u: Utf8, data: seq<byte>, s: Signal)
    requires data != [] && !Next(data).Int? && !Next(data).Raw?
    ensures Lenient(u, data, s) == if Next(data).Other? then Ok(s) else IndexError
  {
  }

  /** A record of another wire type still ends the data when more follows. */
  lemma OtherAppend(data: seq<byte>, more: seq<byte>)
    requires data != [] && Next(data).Other?
    ensures Next(data + more).Other?
  {
    Varint.DecodeAppend(data, more);
  }

  /** A record that runs over takes octets of what follows. */
  lemma OverrunAppend(data: seq<byte>, more: seq<byte>)
    requires data != [] && more != [] && Next(data).Raw? && |Next(data).raw| < Next(data).length
    ensures var r, q := Next(data), Next(data + more);
            var m := if r.length - |r.raw| <= |more| then r.length - |r.raw| else |more|;
            r.rest == [] && q == Raw(r.num, r.length, r.raw + more[..m], more[m..])
  {
    Varint.DecodeAppend(data, more);
    var afterTag := Varint.Decode(data).rest;
    Varint.DecodeAppend(afterTag, more);
    hide Varint.Decode;
  }

  /** What follows data that is not whole is not merged: it cannot set the time. */
  lemma {:induction false} CutHidesMark(u: Utf8, a: seq<byte>, n: byte, s: Signal)
    requires 0 < n < 8 && !Whole(a) && Lenient(u, a, s).Ok?
    ensures var q := Lenient(u, a + Mark(n), s); q.Ok? ==> q.value.nano == Lenient(u, a, s).value.nano
    decreases |a|
  {
    hide Lenient, Next, Effect;
    var r := Next(a);
    if Inside(r) {
      NextAppend(a, Mark(n));
      LenientStep(u, a, s);
      LenientStep(u, a + Mark(n), s);
      EffectLonger(u, r, Mark(n));
      CutHidesMark(u, r.rest, n, Merge(s, Effect(u, r).value));
    } else if r.Raw? {
      RawNoLonger(a);
      CutHidesInside(u, a, n, s);
    } else {
      LenientEnds(u, a, s);
      OtherAppend(a, Mark(n));
      LenientEnds(u, a + Mark(n), s);
    }
  }

  lemma EffectLonger(u: Utf8, r: Record, more: seq<byte>)
    requires Inside(r)
    ensures Effect(u, Longer(r, more)) == Effect(u, r) && Longer(r, more).rest == r.rest + more
  {
  }

  lemma CutHidesInside(u: Utf8, a: seq<byte>, n: byte, s: Signal)
    requires 0 < n < 8 && a != [] && Next(a).Raw? && |Next(a).raw| < Next(a).length && Lenient(u, a, s).Ok?
    ensures var q := Lenient(u, a + Mark(n), s); q.Ok? ==> q.value.nano == Lenient(u, a, s).value.nano
  {
    hide Lenient, Next, LenientParam;
    var more := Mark(n);
    OverrunAppend(a, more);
    var r, q := Next(a), Next(a + more);
    LenientStep(u, a, s);
    LenientOfNothing(u, Merge(s, Effect(u, r).value));
    LenientStep(u, a + more, s);
    if Effect(u, q).Ok? {
      var t := Merge(s, Effect(u, q).value);
      if q.rest == [] {
        LenientOfNothing(u, t);
      } else {
        assert q.rest == [n];
        LenientLast(u, n, t);
      }
    }
  }

  /** A payload the lenient decoder accepts merges with everything put after it exactly when it is whole. */
  lemma MergesIffWhole(u: Utf8, a: seq<byte>)
    requires Decode(u, a).Ok?
    ensures Whole(a) <==> forall b :: Decode(u, a + b) == Merged(Decode(u, a).value, Decode(u, b))
  {
    hide Lenient, Whole;
    if Whole(a) {
      forall b ensures Decode(u, a + b) == Merged(Decode(u, a).value, Decode(u, b)) { DecodeConcat(u, a, b); }
    } else {
      var n: byte := if Decode(u, a).value.nano == Some(1) then 2 else 1;
      CutHidesMark(u, a, n, EMPTY);
      MarkDecodes(u, n);
      assert Decode(u, a + Mark(n)) != Merged(Decode(u, a).value, Decode(u, Mark(n)));
    }
  }

  /** For one: a trace id cut after its first octet is accepted, and hides the time put after it. */
  lemma CutPayloadHides(u: Utf8)
    ensures var cut := [0x0A, 0x02, 0x41];
            && Decode(u, cut) == Ok(EMPTY.(text := map[TRACE_ID := u.repair([0x41])])) && !Whole(cut)
            && Decode(u, cut + Mark(1)) != Merged(Decode(u, cut).value, Decode(u, Mark(1)))
  {
    hide Lenient;
    var cut: seq<byte> := [0x0A, 0x02, 0x41];
    assert cut[1..] == [0x02, 0x41] && cut[1..][1..] == [0x41];
    assert Varint.Decode(cut) == Varint.Read(10, [0x02, 0x41]);
    assert Varint.Decode([0x02, 0x41]) == Varint.Read(2, [0x41]);
    assert [0x41][..1] == [0x41] && [0x41][1..] == [];
    assert Next(cut) == Raw(TRACE_ID, 2, [0x41], []);
    LenientStep(u, cut, EMPTY);
    LenientOfNothing(u, EMPTY.(text := map[TRACE_ID := u.repair([0x41])]));
    MergeEmpty(EMPTY.(text := map[TRACE_ID := u.repair([0x41])]));
    CutHidesMark(u, cut, 1, EMPTY);
    MarkDecodes(u, 1);
  }

  // ---------------------------------------------------------------- numbers of any size

  const UINT64 := 0x1_0000_0000_0000_0000

  /** No varint is too large: a signal whose time does not fit 64 bits is accepted exactly when
      its required fields are set, like any other, and the number is read back whole. */
  lemma OverflowAccepted(u: Utf8, s: Signal, n: nat)
    requires Lawful(u) && WellTyped(u, s) && n >= UINT64
    ensures Parse(u, Encode(s.(nano := Some(n)))).Ok? <==> HasRequired(s)
    ensures HasRequired(s) ==> Parse(u, Encode(s.(nano := Some(n)))).value.nano == Some(n)
    ensures Decode(u, Encode(s.(nano := Some(n)))) == Ok(Normal(s).(nano := Some(n)))
  {
    hide Encode, Strict, Lenient, NormalParams;
    RoundTrip(u, s.(nano := Some(n)));
  }

  /** For one: the number 2^64, with any valid text in the four required fields. */
  lemma OverflowExample(u: Utf8, t: Text)
    requires Lawful(u) && u.valid(t) && t != []
    ensures var s := Signal(map[TRACE_ID := t, LICENSE_ID := t, COMMAND := t, SYMBOL := t], Some(UINT64), []);
            Parse(u, Encode(s)) == Ok(s)
  {
    hide Encode, Strict, Lenient, NormalParams;
    var s := Signal(map[TRACE_ID := t, LICENSE_ID := t, COMMAND := t, SYMBOL := t], Some(UINT64), []);
    RoundTrip(u, s);
    assert NormalParams([]) == [];
    assert Normal(s).text == s.text;
  }
}
