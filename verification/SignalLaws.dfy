/** What the Signal encoder and its two decoders owe one another. */
module SignalLaws {
  import opened Prelude
  import opened Bytes
  import opened SignalProto
  import Varint

  // ---------------------------------------------------------------- strict and lenient

  lemma {:induction false} StrictParamRefines(u: Utf8, data: seq<byte>, p: Param)
    requires Lawful(u) && StrictParam(u, data, p).Ok?
    ensures LenientParam(u, data, p) == StrictParam(u, data, p)
    decreases |data|
  {
    if data != [] {
      var r := Next(data);
      StrictParamRefines(u, r.rest, WithParam(p, r.num, r.raw));
    }
  }

  lemma {:induction false} StrictRefines(u: Utf8, data: seq<byte>, s: Signal)
    requires Lawful(u) && Strict(u, data, s).Ok?
    ensures Lenient(u, data, s) == Strict(u, data, s)
    decreases |data|
  {
    if data != [] {
      match Next(data)
      case Int(num, v, rest) =>
        StrictRefines(u, rest, if num == RECEIVED then s.(nano := Some(v)) else s);
      case Raw(num, _, raw, rest) =>
        if IsText(num) {
          StrictRefines(u, rest, s.(text := s.text[num := raw]));
        } else if num == PARAMS {
          StrictParamRefines(u, raw, Param(None, None));
          StrictRefines(u, rest, s.(params := s.params + [StrictParam(u, raw, Param(None, None)).value]));
        } else {
          StrictRefines(u, rest, s);
        }
    }
  }

  /** Whatever `parse_signal` accepts, `decode_signal_proto` reads as the same Signal. */
  lemma ParseRefinesDecode(u: Utf8, data: seq<byte>)
    requires Lawful(u) && Parse(u, data).Ok?
    ensures Decode(u, data) == Parse(u, data)
    ensures HasRequired(Parse(u, data).value)
  {
    StrictRefines(u, data, EMPTY);
  }

  lemma {:induction false} StrictParamNoIndexError(u: Utf8, data: seq<byte>, p: Param)
    ensures StrictParam(u, data, p) != IndexError
    decreases |data|
  {
    if data != [] {
      match Next(data)
      case Raw(num, _, raw, rest) => StrictParamNoIndexError(u, rest, WithParam(p, num, raw));
      case _ =>
    }
  }

  lemma {:induction false} StrictNoIndexError(u: Utf8, data: seq<byte>, s: Signal)
    ensures Strict(u, data, s) != IndexError
    decreases |data|
  {
    if data != [] {
      match Next(data)
      case Int(num, v, rest) =>
        StrictNoIndexError(u, rest, if num == RECEIVED then s.(nano := Some(v)) else s);
      case Raw(num, _, raw, rest) =>
        StrictParamNoIndexError(u, raw, Param(None, None));
        StrictNoIndexError(u, rest, s);
        StrictNoIndexError(u, rest, s.(text := s.text[num := raw]));
        if StrictParam(u, raw, Param(None, None)).Ok? {
          StrictNoIndexError(u, rest, s.(params := s.params + [StrictParam(u, raw, Param(None, None)).value]));
        }
      case _ =>
    }
  }

  /** On every octet string `parse_signal` gives a complete Signal or a ProtoParseError. */
  lemma ParseTotal(u: Utf8, data: seq<byte>)
    ensures (Parse(u, data).Ok? && HasRequired(Parse(u, data).value)) || Parse(u, data).ProtoError?
  {
    StrictNoIndexError(u, data, EMPTY);
  }

  // ---------------------------------------------------------------- concatenation

  /** The data is a sequence of records that all lie inside it. */
  predicate Whole(data: seq<byte>)
    decreases |data|
  {
    data == [] || (Inside(Next(data)) && Whole(Next(data).rest))
  }

  function Longer(r: Record, more: seq<byte>): (q: Record) {
    match r
    case Int(num, v, rest) => Int(num, v, rest + more)
    case Raw(num, length, raw, rest) => Raw(num, length, raw, rest + more)
    case _ => r
  }

  lemma NextAppend(data: seq<byte>, more: seq<byte>)
    requires data != [] && Inside(Next(data))
    ensures Next(data + more) == Longer(Next(data), more)
  {
    Varint.DecodeAppend(data, more);
    var afterTag := Varint.Decode(data).rest;
    Varint.DecodeAppend(afterTag, more);
    hide Varint.Decode;
    if Next(data).Raw? {
      var v := Varint.Decode(afterTag);
      CutAppend(v.rest, more, v.value);
    }
  }

  lemma CutAppend(a: seq<byte>, b: seq<byte>, n: nat)
    requires n <= |a|
    ensures (a + b)[..n] == a[..n] && (a + b)[n..] == a[n..] + b
  {
  }

  /** Last scalar wins, params append. */
  function Merge(a: Signal, b: Signal): (r: Signal) {
    Signal(a.text + b.text, if b.nano.Some? then b.nano else a.nano, a.params + b.params)
  }

  function Merged(s: Signal, r: Outcome<Signal>): (q: Outcome<Signal>) {
    if r.Ok? then Ok(Merge(s, r.value)) else r
  }

  /** A merge has the later value of each field, and the parameters of both in order. */
  lemma MergeIs(a: Signal, b: Signal, num: nat)
    ensures num in Merge(a, b).text <==> num in a.text || num in b.text
    ensures num in b.text ==> Merge(a, b).text[num] == b.text[num]
    ensures num in a.text && num !in b.text ==> Merge(a, b).text[num] == a.text[num]
    ensures b.nano.Some? ==> Merge(a, b).nano == b.nano
    ensures b.nano.None? ==> Merge(a, b).nano == a.nano
    ensures Merge(a, b).params == a.params + b.params
  {
  }

  lemma MergeAssoc(a: Signal, b: Signal, r: Outcome<Signal>)
    ensures Merged(a, Merged(b, r)) == Merged(Merge(a, b), r)
  {
    if r.Ok? {
      assert a.text + (b.text + r.value.text) == a.text + b.text + r.value.text;
      assert a.params + (b.params + r.value.params) == a.params + b.params + r.value.params;
    }
  }

  /** What one record, read leniently, does to any Signal: merge this one into it. */
  function Effect(u: Utf8, r: Record): (q: Outcome<Signal>)
    requires r.Int? || r.Raw?
  {
    if r.Int? then Ok(if r.num == RECEIVED then EMPTY.(nano := Some(r.value)) else EMPTY)
    else if IsText(r.num) then Ok(EMPTY.(text := map[r.num := u.repair(r.raw)]))
    else if r.num == PARAMS then
      match LenientParam(u, r.raw, Param(None, None)) {
        case Ok(p) => Ok(EMPTY.(params := [p]))
        case _ => IndexError
      }
    else Ok(EMPTY)
  }

  lemma LenientStep(u: Utf8, data: seq<byte>, s: Signal)
    requires data != [] && (Next(data).Int? || Next(data).Raw?)
    ensures Lenient(u, data, s) ==
            if Effect(u, Next(data)).Ok? then Lenient(u, Next(data).rest, Merge(s, Effect(u, Next(data)).value))
            else Effect(u, Next(data))
  {
    var r := Next(data);
    if Effect(u, r).Ok? {
      var e := Effect(u, r).value;
      assert s.text + map[] == s.text && s.params + [] == s.params;
      if r.Raw? && IsText(r.num) {
        assert s.text + e.text == s.text[r.num := u.repair(r.raw)];
      }
    }
  }

  lemma MergeEmpty(s: Signal)
    ensures Merge(s, EMPTY) == s && Merge(EMPTY, s) == s
  {
    assert s.text + map[] == s.text && map[] + s.text == s.text;
    assert s.params + [] == s.params && [] + s.params == s.params;
  }

  lemma LenientStop(u: Utf8, data: seq<byte>, s: Signal)
    requires data == [] || !(Next(data).Int? || Next(data).Raw?)
    ensures Lenient(u, data, s) == Merged(s, Decode(u, data))
  {
    MergeEmpty(s);
  }

  lemma {:induction false} LenientFrom(u: Utf8, data: seq<byte>, s: Signal)
    ensures Lenient(u, data, s) == Merged(s, Decode(u, data))
    decreases |data|
  {
    hide Lenient, Effect, Merge, Merged;
    if data == [] || !(Next(data).Int? || Next(data).Raw?) {
      LenientStop(u, data, s);
    } else {
      LenientStep(u, data, s);
      LenientStep(u, data, EMPTY);
      if Effect(u, Next(data)).Ok? {
        var e := Effect(u, Next(data)).value;
        var rest := Next(data).rest;
        MergeEmpty(e);
        LenientFrom(u, rest, Merge(s, e));
        LenientFrom(u, rest, e);
        MergeAssoc(s, e, Decode(u, rest));
      } else {
        MergedError(s, Effect(u, Next(data)));
      }
    }
  }

  lemma MergedError(s: Signal, r: Outcome<Signal>)
    requires !r.Ok?
    ensures Merged(s, r) == r
  {
  }

  lemma {:induction false} LenientAppend(u: Utf8, a: seq<byte>, b: seq<byte>, s: Signal)
    requires Whole(a)
    ensures Lenient(u, a + b, s) ==
            if Lenient(u, a, s).Ok? then Lenient(u, b, Lenient(u, a, s).value) else Lenient(u, a, s)
    decreases |a|
  {
    if a == [] {
      assert a + b == b;
    } else {
      NextAppend(a, b);
      LenientStep(u, a + b, s);
      LenientStep(u, a, s);
      if Effect(u, Next(a)).Ok? {
        LenientAppend(u, Next(a).rest, b, Merge(s, Effect(u, Next(a)).value));
      }
    }
  }

  /** Decoding a concatenation merges the parts. */
  lemma DecodeConcat(u: Utf8, a: seq<byte>, b: seq<byte>)
    requires Whole(a)
    ensures Decode(u, a + b) == if Decode(u, a).Ok? then Merged(Decode(u, a).value, Decode(u, b)) else Decode(u, a)
  {
    LenientAppend(u, a, b, EMPTY);
    if Decode(u, a).Ok? { LenientFrom(u, b, Decode(u, a).value); }
  }

  // ---------------------------------------------------------------- round trip

  /** A Signal whose keys are text fields and whose strings are valid. */
  ghost predicate WellTyped(u: Utf8, s: Signal) {
    && (forall num :: num in s.text ==> IsText(num) && u.valid(s.text[num]))
    && (forall i :: 0 <= i < |s.params| ==> ValidParam(u, s.params[i]))
  }

  predicate ValidParam(u: Utf8, p: Param) {
    u.valid(OrEmpty(p.key)) && u.valid(OrEmpty(p.value))
  }

  /** The same Signal with every absent value written out or dropped, as the encoder does. */
  function Normal(s: Signal): (r: Signal) {
    Signal(
      map num | num in s.text && s.text[num] != [] :: s.text[num],
      if s.nano == Some(0) then None else s.nano,
      NormalParams(s.params))
  }

  function NormalParam(p: Param): (r: Param) {
    Param(Some(OrEmpty(p.key)), Some(OrEmpty(p.value)))
  }

  function NormalParams(ps: seq<Param>): (r: seq<Param>)
    ensures |r| == |ps|
  {
    if ps == [] then [] else [NormalParam(ps[0])] + NormalParams(ps[1..])
  }

  lemma NextBytesField(num: nat, t: seq<byte>, rest: seq<byte>)
    ensures Next(BytesField(num, t) + rest) == Raw(num, |t|, t, rest)
  {
    hide Varint.Decode, Varint.Encode;
    TagOfBytesField(num, t, rest);
    Varint.RoundTrip(|t|, t + rest);
  }

  lemma TagOfBytesField(num: nat, t: seq<byte>, rest: seq<byte>)
    ensures Varint.Decode(BytesField(num, t) + rest) == Varint.Read(8 * num + 2, Varint.Encode(|t|) + (t + rest))
  {
    hide Varint.Decode, Varint.Encode;
    var afterTag := Varint.Encode(|t|) + (t + rest);
    assert BytesField(num, t) + rest == Varint.Encode(8 * num + 2) + afterTag;
    Varint.RoundTrip(8 * num + 2, afterTag);
  }

  lemma NextIntField(num: nat, n: nat, rest: seq<byte>)
    ensures Next(IntField(num, n) + rest) == Int(num, n, rest)
  {
    hide Varint.Decode, Varint.Encode;
    assert IntField(num, n) + rest == Varint.Encode(8 * num) + (Varint.Encode(n) + rest);
    Varint.RoundTrip(8 * num, Varint.Encode(n) + rest);
    Varint.RoundTrip(n, rest);
  }

  /** The non-empty text fields among `nums`. */
  function Picked(s: Signal, nums: seq<nat>): (m: map<nat, Text>)
    ensures forall num :: num in m <==> num in nums && TextOf(s, num) != []
    ensures forall num :: num in m ==> m[num] == TextOf(s, num)
  {
    map num | num in nums && TextOf(s, num) != [] :: TextOf(s, num)
  }

  lemma StrictTextField(u: Utf8, num: nat, t: Text, rest: seq<byte>, acc: Signal)
    requires IsText(num) && u.valid(t)
    ensures Strict(u, BytesField(num, t) + rest, acc) == Strict(u, rest, acc.(text := acc.text[num := t]))
  {
    NextBytesField(num, t, rest);
  }

  lemma PickedCons(s: Signal, nums: seq<nat>, acc: map<nat, Text>)
    requires nums != []
    ensures var t := TextOf(s, nums[0]);
            acc + Picked(s, nums) == (if t == [] then acc else acc[nums[0] := t]) + Picked(s, nums[1..])
  {
    assert nums == [nums[0]] + nums[1..];
  }

  lemma {:induction false} StrictTexts(u: Utf8, s: Signal, nums: seq<nat>, rest: seq<byte>, acc: Signal)
    requires WellTyped(u, s) && forall i :: 0 <= i < |nums| ==> IsText(nums[i])
    ensures Strict(u, EncodeTexts(s, nums) + rest, acc) == Strict(u, rest, acc.(text := acc.text + Picked(s, nums)))
  {
    hide Strict, BytesField;
    if nums == [] {
      assert EncodeTexts(s, nums) + rest == rest && acc.text + Picked(s, nums) == acc.text;
    } else {
      var num, t := nums[0], TextOf(s, nums[0]);
      var tail := EncodeTexts(s, nums[1..]) + rest;
      PickedCons(s, nums, acc.text);
      if t == [] {
        assert EncodeTexts(s, nums) + rest == tail;
        StrictTexts(u, s, nums[1..], rest, acc);
      } else {
        assert EncodeTexts(s, nums) + rest == BytesField(num, t) + tail;
        StrictTextField(u, num, t, tail, acc);
        StrictTexts(u, s, nums[1..], rest, acc.(text := acc.text[num := t]));
      }
    }
  }

  lemma StrictNano(u: Utf8, s: Signal, rest: seq<byte>, acc: Signal)
    requires acc.nano == None
    ensures Strict(u, EncodeNano(s) + rest, acc) == Strict(u, rest, acc.(nano := Normal(s).nano))
  {
    if EncodeNano(s) == [] {
      assert EncodeNano(s) + rest == rest;
    } else {
      NextIntField(RECEIVED, s.nano.value, rest);
    }
  }

  lemma StrictParamBody(u: Utf8, p: Param)
    requires ValidParam(u, p)
    ensures StrictParam(u, ParamBody(p), Param(None, None)) == Ok(NormalParam(p))
  {
    var k, v := OrEmpty(p.key), OrEmpty(p.value);
    StrictParamField(u, 1, k, BytesField(2, v), Param(None, None));
    StrictParamField(u, 2, v, [], Param(Some(k), None));
    assert BytesField(2, v) + [] == BytesField(2, v);
  }

  lemma StrictParamField(u: Utf8, num: nat, t: Text, rest: seq<byte>, p: Param)
    requires u.valid(t)
    ensures StrictParam(u, BytesField(num, t) + rest, p) == StrictParam(u, rest, WithParam(p, num, t))
  {
    hide Varint.Decode, Varint.Encode, Next, BytesField;
    TagOfBytesField(num, t, rest);
    NextBytesField(num, t, rest);
  }

  lemma StrictParamRecord(u: Utf8, p: Param, rest: seq<byte>, acc: Signal)
    requires ValidParam(u, p)
    ensures Strict(u, BytesField(PARAMS, ParamBody(p)) + rest, acc) ==
            Strict(u, rest, acc.(params := acc.params + [NormalParam(p)]))
  {
    hide BytesField, ParamBody, StrictParam, Next;
    NextBytesField(PARAMS, ParamBody(p), rest);
    StrictParamBody(u, p);
  }

  lemma StrictOfNothing(u: Utf8, acc: Signal)
    ensures Strict(u, [], acc) == Ok(acc)
  {
  }

  lemma {:induction false} StrictParams(u: Utf8, ps: seq<Param>, acc: Signal)
    requires forall i :: 0 <= i < |ps| ==> ValidParam(u, ps[i])
    ensures Strict(u, EncodeParams(ps), acc) == Ok(acc.(params := acc.params + NormalParams(ps)))
  {
    hide Strict, BytesField, ParamBody, ValidParam, NormalParam;
    if ps == [] {
      assert acc.params + NormalParams(ps) == acc.params;
      StrictOfNothing(u, acc);
    } else {
      var p := NormalParam(ps[0]);
      var next := acc.(params := acc.params + [p]);
      ParamsCons(ps);
      StrictParamRecord(u, ps[0], EncodeParams(ps[1..]), acc);
      StrictParams(u, ps[1..], next);
      assert next.params + NormalParams(ps[1..]) == acc.params + NormalParams(ps);
    }
  }

  lemma ParamsCons(ps: seq<Param>)
    requires ps != []
    ensures EncodeParams(ps) == BytesField(PARAMS, ParamBody(ps[0])) + EncodeParams(ps[1..])
    ensures NormalParams(ps) == [NormalParam(ps[0])] + NormalParams(ps[1..])
  {
  }

  /** The strict loop reads back what the encoder wrote. */
  lemma StrictOfEncoded(u: Utf8, s: Signal)
    requires WellTyped(u, s)
    ensures Strict(u, Encode(s), EMPTY) == Ok(Normal(s))
  {
    var params := EncodeParams(s.params);
    var nine := EncodeTexts(s, [9]) + params;
    var acc1 := EMPTY.(text := EMPTY.text + Picked(s, FIRST_TEXTS));
    var acc2 := acc1.(nano := Normal(s).nano);
    var acc3 := acc2.(text := acc2.text + Picked(s, [9]));
    StrictTexts(u, s, FIRST_TEXTS, EncodeNano(s) + nine, EMPTY);
    StrictNano(u, s, nine, acc1);
    StrictTexts(u, s, [9], params, acc2);
    StrictParams(u, s.params, acc3);
    assert acc3.text == Normal(s).text by { AllTexts(u, s); }
    assert [] + NormalParams(s.params) == NormalParams(s.params);
  }

  lemma AllTexts(u: Utf8, s: Signal)
    requires WellTyped(u, s)
    ensures map[] + Picked(s, FIRST_TEXTS) + Picked(s, [9]) == Normal(s).text
  {
    forall num | num in s.text ensures num in FIRST_TEXTS || num in [9] {
      assert IsText(num);
      assert num != 9 ==> FIRST_TEXTS[num - 1] == num;
    }
  }

  /** Both decoders invert the encoder, up to absent and empty meaning the same. */
  lemma RoundTrip(u: Utf8, s: Signal)
    requires Lawful(u) && WellTyped(u, s)
    ensures Decode(u, Encode(s)) == Ok(Normal(s))
    ensures HasRequired(s) ==> Parse(u, Encode(s)) == Ok(Normal(s))
    ensures !HasRequired(s) ==> Parse(u, Encode(s)).ProtoError?
    ensures Same(Normal(s), s)
  {
    StrictOfEncoded(u, s);
    StrictRefines(u, Encode(s), EMPTY);
    NormalIsSame(s);
  }

  /** Equal where absent and empty mean the same. */
  ghost predicate Same(a: Signal, b: Signal) {
    && (forall num :: TextOf(a, num) == TextOf(b, num))
    && NanoOf(a) == NanoOf(b)
    && |a.params| == |b.params|
    && (forall i :: 0 <= i < |a.params| ==>
          OrEmpty(a.params[i].key) == OrEmpty(b.params[i].key)
            && OrEmpty(a.params[i].value) == OrEmpty(b.params[i].value))
  }

  function NanoOf(s: Signal): (n: nat) {
    if s.nano.Some? then s.nano.value else 0
  }

  lemma NormalIsSame(s: Signal)
    ensures Same(Normal(s), s)
  {
    NormalParamsAt(s.params);
  }

  lemma {:induction false} NormalParamsAt(ps: seq<Param>)
    ensures forall i :: 0 <= i < |ps| ==>
              NormalParams(ps)[i] == Param(Some(OrEmpty(ps[i].key)), Some(OrEmpty(ps[i].value)))
  {
    if ps != [] { NormalParamsAt(ps[1..]); }
  }

  // ---------------------------------------------------------------- replay

  lemma {:induction false} LenientParamValid(u: Utf8, data: seq<byte>, p: Param)
    requires Lawful(u) && ValidParam(u, p) && LenientParam(u, data, p).Ok?
    ensures ValidParam(u, LenientParam(u, data, p).value)
    decreases |data|
  {
    if data != [] {
      var v := Varint.Decode(data);
      if v.value % 8 != 2 {
        LenientParamValid(u, v.rest, p);
      } else {
        var r := Next(data);
        LenientParamValid(u, r.rest, WithParam(p, r.num, u.repair(r.raw)));
      }
    }
  }

  lemma EffectWellTyped(u: Utf8, r: Record)
    requires Lawful(u) && (r.Int? || r.Raw?) && Effect(u, r).Ok?
    ensures WellTyped(u, Effect(u, r).value)
  {
    if r.Raw? && r.num == PARAMS { LenientParamValid(u, r.raw, Param(None, None)); }
  }

  lemma {:induction false} LenientWellTyped(u: Utf8, data: seq<byte>, s: Signal)
    requires Lawful(u) && WellTyped(u, s) && Lenient(u, data, s).Ok?
    ensures WellTyped(u, Lenient(u, data, s).value)
    decreases |data|
  {
    if data != [] && (Next(data).Int? || Next(data).Raw?) {
      LenientStep(u, data, s);
      EffectWellTyped(u, Next(data));
      LenientWellTyped(u, Next(data).rest, Merge(s, Effect(u, Next(data)).value));
    }
  }

  /** The edit that `replay_signal` makes between decoding and encoding. */
  function Replayed(s: Signal, now: nat): (r: Signal) {
    s.(text := s.text[TRACE_ID := TextOf(s, TRACE_ID) + REPLAY_SUFFIX], nano := Some(now))
  }

  /** A replayed payload differs from the stored one in the trace id and the receive time only. */
  lemma ReplayChangesOnlyTraceAndTime(u: Utf8, stored: seq<byte>, now: nat)
    requires Lawful(u) && now > 0 && Decode(u, stored).Ok?
    ensures var s := Decode(u, stored).value;
            var out := Decode(u, Encode(Replayed(s, now)));
            && out.Ok?
            && TextOf(out.value, TRACE_ID) == TextOf(s, TRACE_ID) + REPLAY_SUFFIX
            && NanoOf(out.value) == now
            && Same(out.value.(text := out.value.text[TRACE_ID := []], nano := None),
                    s.(text := s.text[TRACE_ID := []], nano := None))
            && (Parse(u, Encode(Replayed(s, now))).Ok? <==>
                TextOf(s, LICENSE_ID) != [] && TextOf(s, COMMAND) != [] && TextOf(s, SYMBOL) != [])
  {
    hide Encode, Strict, Lenient, NormalParams;
    var s := Decode(u, stored).value;
    LenientWellTyped(u, stored, EMPTY);
    RoundTrip(u, Replayed(s, now));
  }
}
