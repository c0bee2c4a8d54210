/**
 Base-128 varints as apps/portal-api/app.py writes them and as both
 apps/portal-api/app.py and apps/persist/app.py read them. Values are unbounded,
 as Python integers are.
 */
module Varint {
  import opened Bytes

  /** The varint of `n`, least significant group first (`_pb_varint`). */
  function Encode(n: nat): (s: seq<byte>)
    ensures s != []
  {
    if n < 128 then [n] else [n % 128 + 128] + Encode(n / 128)
  }

  /** `Truncated` is the IndexError of running off the end of the data. */
  datatype Read = Truncated | Read(value: nat, rest: seq<byte>)

  /** The varint at the front of `data`, and what follows it. */
  function Decode(data: seq<byte>): (r: Read)
    ensures r.Read? ==> |r.rest| < |data|
  {
    if data == [] then Truncated
    else if data[0] < 128 then Read(data[0], data[1..])
    else match Decode(data[1..])
      case Truncated => Truncated
      case Read(v, rest) => Read(data[0] - 128 + 128 * v, rest)
  }

  /** What is left is a suffix of the data. */
  lemma {:induction false} DecodeLeavesSuffix(data: seq<byte>)
    requires Decode(data).Read?
    ensures var rest := Decode(data).rest; rest == data[|data| - |rest|..]
  {
    if data[0] >= 128 { DecodeLeavesSuffix(data[1..]); }
  }

  lemma {:induction false} RoundTrip(n: nat, rest: seq<byte>)
    ensures Decode(Encode(n) + rest) == Read(n, rest)
  {
    var data := Encode(n) + rest;
    if n < 128 {
      assert data[1..] == rest;
    } else {
      assert data[1..] == Encode(n / 128) + rest;
      RoundTrip(n / 128, rest);
    }
  }

  /** Octets after a complete varint do not change it. */
  lemma {:induction false} DecodeAppend(data: seq<byte>, more: seq<byte>)
    requires Decode(data).Read?
    ensures Decode(data + more) == Read(Decode(data).value, Decode(data).rest + more)
  {
    hide Decode;
    DecodeStep(data);
    DecodeStep(data + more);
    assert (data + more)[1..] == data[1..] + more;
    if data[0] >= 128 { DecodeAppend(data[1..], more); }
  }

  /** `_pb_varint`, as the loop that appends one group at a time. */
  method Write(value: nat) returns (out: seq<byte>)
    ensures out == Encode(value)
  {
    var n := value;
    out := [];
    while true
      invariant out + Encode(n) == Encode(value)
      decreases n
    {
      var b := n % 128;
      n := n / 128;
      if n != 0 {
        out := out + [b + 128];
      } else {
        out := out + [b];
        return;
      }
    }
  }

  function Scale(r: Read, low: nat, factor: nat): (s: Read) {
    match r case Truncated => Truncated case Read(v, rest) => Read(low + factor * v, rest)
  }

  /** `_varint`: read from `start`, answering the value and the next position. */
  method ReadAt(data: seq<byte>, start: nat) returns (ok: bool, value: nat, pos: nat)
    requires start <= |data|
    ensures ok ==> pos <= |data|
    ensures Decode(data[start..]) == if ok then Read(value, data[pos..]) else Truncated
  {
    hide Decode, Scale;
    value, pos := 0, start;
    var factor: nat := 1;
    ScaleByOne(Decode(data[start..]));
    while true
      invariant start <= pos <= |data|
      invariant Decode(data[start..]) == Scale(Decode(data[pos..]), value, factor)
      decreases |data| - pos
    {
      if pos == |data| {
        ScaleOfNothing(data[pos..], value, factor);
        return false, value, pos;
      }
      var b: nat := data[pos];
      ghost var here := data[pos..];
      assert here[1..] == data[pos + 1..];
      pos := pos + 1;
      ScaleStep(here, value, factor);
      value := value + (b % 128) * factor;
      if b < 128 { return true, value, pos; }
      factor := factor * 128;
    }
  }

  lemma ScaleByOne(r: Read)
    ensures Scale(r, 0, 1) == r
  {
  }

  lemma ScaleOfNothing(data: seq<byte>, low: nat, factor: nat)
    requires data == []
    ensures Scale(Decode(data), low, factor) == Truncated
  {
  }

  lemma ScaleStep(here: seq<byte>, low: nat, factor: nat)
    requires here != []
    ensures var b: nat := here[0];
            Scale(Decode(here), low, factor) ==
            if b < 128 then Read(low + (b % 128) * factor, here[1..])
            else Scale(Decode(here[1..]), low + (b % 128) * factor, factor * 128)
  {
    hide Decode;
    var b, rest := here[0], Decode(here[1..]);
    DecodeStep(here);
    LowGroup(b);
    if b >= 128 && rest.Read? { Regroup(factor, b - 128, rest.value); }
  }

  lemma DecodeStep(here: seq<byte>)
    requires here != []
    ensures Decode(here) ==
            if here[0] < 128 then Read(here[0], here[1..])
            else match Decode(here[1..])
              case Truncated => Truncated
              case Read(v, rest) => Read(here[0] - 128 + 128 * v, rest)
  {
  }

  lemma LowGroup(b: byte)
    ensures b % 128 == if b < 128 then b else b - 128
  {
  }

  lemma Regroup(factor: nat, b: nat, v: nat)
    ensures factor * (b + 128 * v) == b * factor + factor * 128 * v
  {
    Distribute(factor, b, 128 * v);
    Associate(factor, 128, v);
  }

  lemma Distribute(a: nat, b: nat, c: nat)
    ensures a * (b + c) == b * a + a * c
  {
  }

  lemma Associate(a: nat, b: nat, c: nat)
    ensures a * (b * c) == a * b * c
  {
  }
}
