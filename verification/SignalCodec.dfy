/**
 The loops of `encode_signal_proto` and `decode_signal_proto`
 (apps/portal-api/app.py) and of `parse_signal` (apps/persist/app.py), which
 advance a position over the data and fill a Signal as they go.
 */
module SignalCodec {
  import opened Prelude
  import opened Bytes
  import opened SignalProto
  import Varint

  function From(data: seq<byte>, pos: nat): (r: seq<byte>) {
    if pos <= |data| then data[pos..] else []
  }

  method WriteText(out: seq<byte>, s: Signal, num: nat) returns (r: seq<byte>)
    ensures r == out + EncodeText(s, num)
  {
    r := out;
    if num in s.text && s.text[num] != [] {
      var tag := Varint.Write(8 * num + 2);
      var len := Varint.Write(|s.text[num]|);
      r := r + (tag + len + s.text[num]);
    }
  }

  /** `encode_signal_proto`. */
  method WriteSignal(s: Signal) returns (out: seq<byte>)
    ensures out == Encode(s)
  {
    hide EncodeText, EncodeNano, BytesField;
    out := [];
    for num := 1 to 8
      invariant out == EncodeTexts(s, FIRST_TEXTS[..num - 1])
    {
      TextsAppend(s, FIRST_TEXTS[..num - 1], num);
      assert FIRST_TEXTS[..num] == FIRST_TEXTS[..num - 1] + [num];
      out := WriteText(out, s, num);
    }
    assert FIRST_TEXTS[..7] == FIRST_TEXTS;
    ghost var first := out;
    var nano := WriteNano(s);
    out := out + nano;
    ghost var second := out;
    out := WriteText(out, s, 9);
    TextsAppend(s, [], 9);
    assert [] + [9] == [9] && EncodeTexts(s, [9]) == EncodeText(s, 9);
    ghost var third := out;
    for i := 0 to |s.params|
      invariant out + EncodeParams(s.params[i..]) == third + EncodeParams(s.params)
    {
      var p := WriteParam(s.params[i]);
      assert s.params[i..][1..] == s.params[i + 1..];
      out := out + p;
    }
    assert s.params[|s.params|..] == [] && out + [] == out;
    Regroup(EncodeTexts(s, FIRST_TEXTS), EncodeNano(s), EncodeTexts(s, [9]), EncodeParams(s.params));
  }

  lemma Regroup(a: seq<byte>, b: seq<byte>, c: seq<byte>, d: seq<byte>)
    ensures a + b + c + d == a + (b + (c + d))
  {
  }

  lemma {:induction false} TextsAppend(s: Signal, nums: seq<nat>, num: nat)
    ensures EncodeTexts(s, nums + [num]) == EncodeTexts(s, nums) + EncodeText(s, num)
  {
    hide EncodeText;
    if nums == [] {
      assert nums + [num] == [num] && [num][1..] == [];
      assert EncodeTexts(s, [num]) == EncodeText(s, num) + EncodeTexts(s, []);
    } else {
      assert (nums + [num])[1..] == nums[1..] + [num];
      TextsAppend(s, nums[1..], num);
    }
  }

  method WriteNano(s: Signal) returns (r: seq<byte>)
    ensures r == EncodeNano(s)
  {
    r := [];
    if s.nano.Some? && s.nano.value != 0 {
      var tag := Varint.Write(8 * RECEIVED);
      var n := Varint.Write(s.nano.value);
      r := tag + n;
    }
  }

  method WriteBytes(num: nat, t: seq<byte>) returns (r: seq<byte>)
    ensures r == BytesField(num, t)
  {
    var tag := Varint.Write(8 * num + 2);
    var len := Varint.Write(|t|);
    r := tag + len + t;
  }

  method WriteParam(p: Param) returns (r: seq<byte>)
    ensures r == BytesField(PARAMS, ParamBody(p))
  {
    var k := WriteBytes(1, OrEmpty(p.key));
    var v := WriteBytes(2, OrEmpty(p.value));
    r := WriteBytes(PARAMS, k + v);
  }

  /** A length-delimited record at `pos`: `raw` is what Python's slice returns. */
  method ReadRaw(data: seq<byte>, pos: nat, ghost start: nat, tag: nat)
    returns (ok: bool, length: nat, raw: seq<byte>, next: nat)
    requires start <= pos <= |data| && start < |data| && tag % 8 == 2
    requires Varint.Decode(data[start..]) == Varint.Read(tag, data[pos..])
    ensures !ok ==> Next(data[start..]) == NoValue
    ensures ok ==> Next(data[start..]) == Raw(tag / 8, length, raw, From(data, next)) && start < next
    ensures ok && |raw| == length ==> next <= |data|
  {
    hide Varint.Decode, Next;
    NextRaw(data[start..], tag, data[pos..]);
    var p;
    ok, length, p := Varint.ReadAt(data, pos);
    next, raw := p, [];
    if ok {
      var end := if p + length <= |data| then p + length else |data|;
      raw := data[p..end];
      next := p + length;
      CutAt(data, p, end);
    }
  }

  lemma CutAt(data: seq<byte>, p: nat, end: nat)
    requires p <= end <= |data|
    ensures data[p..][..end - p] == data[p..end] && data[p..][end - p..] == data[end..]
  {
  }

  lemma NextRaw(data: seq<byte>, tag: nat, afterTag: seq<byte>)
    requires data != [] && tag % 8 == 2 && Varint.Decode(data) == Varint.Read(tag, afterTag)
    ensures Next(data) == match Varint.Decode(afterTag)
                          case Truncated => NoValue
                          case Read(length, rest) =>
                            var n := if length <= |rest| then length else |rest|;
                            Raw(tag / 8, length, rest[..n], rest[n..])
  {
    hide Varint.Decode;
  }

  /** The nested loop of `decode_signal_proto`. */
  method DecodeParam(u: Utf8, data: seq<byte>) returns (r: Outcome<Param>)
    ensures r == LenientParam(u, data, Param(None, None))
  {
    hide Varint.Decode, Next;
    var p := Param(None, None);
    var pos := 0;
    while pos < |data|
      invariant LenientParam(u, data, Param(None, None)) == LenientParam(u, From(data, pos), p)
      decreases |data| - pos
    {
      var start := pos;
      var ok, tag, after := Varint.ReadAt(data, pos);
      if !ok { return IndexError; }
      pos := after;
      if tag % 8 == 2 {
        var got, length, raw, next := ReadRaw(data, pos, start, tag);
        if !got { return IndexError; }
        p := WithParam(p, tag / 8, u.repair(raw));
        pos := next;
      }
    }
    return Ok(p);
  }

  /** `decode_signal_proto`. */
  method DecodeSignal(u: Utf8, data: seq<byte>) returns (r: Outcome<Signal>)
    ensures r == Decode(u, data)
  {
    hide Varint.Decode, LenientParam;
    var s := EMPTY;
    var pos := 0;
    while pos < |data|
      invariant Lenient(u, data, EMPTY) == Lenient(u, From(data, pos), s)
      decreases |data| - pos
    {
      var start := pos;
      var ok, tag, after := Varint.ReadAt(data, pos);
      if !ok { return IndexError; }
      pos := after;
      var num := tag / 8;
      if tag % 8 == 0 {
        var got, v, next := Varint.ReadAt(data, pos);
        if !got { return IndexError; }
        pos := next;
        if num == RECEIVED { s := s.(nano := Some(v)); }
      } else if tag % 8 == 2 {
        var got, length, raw, next := ReadRaw(data, pos, start, tag);
        if !got { return IndexError; }
        pos := next;
        if IsText(num) {
          s := s.(text := s.text[num := u.repair(raw)]);
        } else if num == PARAMS {
          var p := DecodeParam(u, raw);
          if !p.Ok? { return IndexError; }
          s := s.(params := s.params + [p.value]);
        }
      } else {
        break;
      }
    }
    return Ok(s);
  }

  /** The nested loop of `parse_signal`. */
  method ParseParam(u: Utf8, data: seq<byte>) returns (r: Outcome<Param>)
    ensures r == StrictParam(u, data, Param(None, None))
  {
    hide Varint.Decode, Next;
    var p := Param(None, None);
    var pos := 0;
    while pos < |data|
      invariant StrictParam(u, data, Param(None, None)) == StrictParam(u, From(data, pos), p)
      decreases |data| - pos
    {
      var start := pos;
      var ok, tag, after := Varint.ReadAt(data, pos);
      if !ok { return ProtoError(Cut); }
      pos := after;
      if tag % 8 != 2 { return ProtoError(WireType(tag % 8)); }
      var got, length, raw, next := ReadRaw(data, pos, start, tag);
      if !got { return ProtoError(Cut); }
      if |raw| < length { return ProtoError(Overrun); }
      if !u.valid(raw) { return ProtoError(NotUtf8); }
      pos := next;
      p := WithParam(p, tag / 8, raw);
    }
    return Ok(p);
  }

  /** `parse_signal`. */
  method ParseSignal(u: Utf8, data: seq<byte>) returns (r: Outcome<Signal>)
    ensures r == Parse(u, data)
  {
    hide Varint.Decode, StrictParam;
    if data == [] { return ProtoError(Empty); }
    var s := EMPTY;
    var pos := 0;
    while pos < |data|
      invariant Strict(u, data, EMPTY) == Strict(u, From(data, pos), s)
      decreases |data| - pos
    {
      var start := pos;
      var ok, tag, after := Varint.ReadAt(data, pos);
      if !ok { return ProtoError(Cut); }
      pos := after;
      var num := tag / 8;
      if tag % 8 == 0 {
        var got, v, next := Varint.ReadAt(data, pos);
        if !got { return ProtoError(Cut); }
        pos := next;
        if num == RECEIVED { s := s.(nano := Some(v)); }
      } else if tag % 8 == 2 {
        var got, length, raw, next := ReadRaw(data, pos, start, tag);
        if !got { return ProtoError(Cut); }
        if |raw| < length { return ProtoError(Overrun); }
        pos := next;
        if IsText(num) {
          if !u.valid(raw) { return ProtoError(NotUtf8); }
          s := s.(text := s.text[num := raw]);
        } else if num == PARAMS {
          var p := ParseParam(u, raw);
          if p.ProtoError? { return ProtoError(p.reason); }
          if p.IndexError? { return IndexError; }
          s := s.(params := s.params + [p.value]);
        }
      } else {
        return ProtoError(WireType(tag % 8));
      }
    }
    if !HasRequired(s) { return ProtoError(Missing); }
    return Ok(s);
  }
}
