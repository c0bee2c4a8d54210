/**
 The octets of the Signal message, said without the encoder and the decoders:
 base-128 varints, the field numbers and wire types of the Protocol Buffers
 encoding, and what the strict decoder asks of a message.
 */
module SignalWire {
  import opened Prelude
  import opened Bytes
  import opened SignalProto
  import opened SignalLaws
  import Varint

  // ---------------------------------------------------------------- varints

  /** The number whose groups of seven bits, least significant first, are the low bits of the octets. */
  function Groups(s: seq<byte>): (n: nat) {
    if s == [] then 0 else s[0] % 128 + 128 * Groups(s[1..])
  }

  /** All but the last octet have their high bit set. */
  predicate Continued(s: seq<byte>) {
    s != [] && s[|s| - 1] < 128 && forall i :: 0 <= i < |s| - 1 ==> s[i] >= 128
  }

  /** A written varint is the number's groups, with no group to spare. */
  lemma {:induction false} WrittenGroups(n: nat)
    ensures var s := Varint.Encode(n);
            Groups(s) == n && Continued(s) && (|s| > 1 ==> s[|s| - 1] != 0)
  {
    var s := Varint.Encode(n);
    if n >= 128 {
      WrittenGroups(n / 128);
      var rest := Varint.Encode(n / 128);
      assert s[1..] == rest;
      assert s[0] % 128 == n % 128;
      forall i | 0 <= i < |s| - 1 ensures s[i] >= 128 { if i > 0 { assert s[i] == rest[i - 1]; } }
      assert s[|s| - 1] == rest[|rest| - 1];
    } else {
      assert s == [n] && s[1..] == [];
    }
  }

  /** A varint is read as its groups, up to the first octet without a high bit; without one nothing is read. */
  lemma {:induction false} ReadGroups(data: seq<byte>, k: nat)
    requires k <= |data| && (forall i :: 0 <= i < k ==> data[i] >= 128) && (k < |data| ==> data[k] < 128)
    ensures Varint.Decode(data) ==
            if k < |data| then Varint.Read(Groups(data[..k + 1]), data[k + 1..]) else Varint.Truncated
  {
    hide Varint.Decode, Groups;
    if data == [] {
      NothingRead();
    } else if k == 0 {
      OneOctet(data);
    } else {
      ReadGroups(data[1..], k - 1);
      MoreOctets(data);
      if k < |data| {
        GroupsFrom(data[..k + 1]);
        assert data[..k + 1][1..] == data[1..][..k] && data[1..][k..] == data[k + 1..];
      }
    }
  }

  lemma NothingRead()
    ensures Varint.Decode([]) == Varint.Truncated
  {
  }

  lemma OneOctet(data: seq<byte>)
    requires data != [] && data[0] < 128
    ensures Varint.Decode(data) == Varint.Read(Groups(data[..1]), data[1..])
  {
    assert data[..1][1..] == [];
  }

  lemma MoreOctets(data: seq<byte>)
    requires data != [] && data[0] >= 128
    ensures Varint.Decode(data) ==
            match Varint.Decode(data[1..])
            case Truncated => Varint.Truncated
            case Read(v, rest) => Varint.Read(data[0] % 128 + 128 * v, rest)
  {
  }

  lemma GroupsFrom(s: seq<byte>)
    requires s != []
    ensures Groups(s) == s[0] % 128 + 128 * Groups(s[1..])
  {
  }

  // ---------------------------------------------------------------- records

  /** A length-delimited record: its tag, the length as a varint, the octets; empty text is left out. */
  function Delimited(tag: byte, t: seq<byte>): (r: seq<byte>) {
    [tag] + Varint.Encode(|t|) + t
  }

  function Optional(tag: byte, t: seq<byte>): (r: seq<byte>) {
    if t == [] then [] else Delimited(tag, t)
  }

  function Params(ps: seq<Param>): (r: seq<byte>) {
    if ps == [] then []
    else
      var key, value := OrEmpty(ps[0].key), OrEmpty(ps[0].value);
      Delimited(0x52, Delimited(0x0A, key) + Delimited(0x12, value)) + Params(ps[1..])
  }

  lemma TagOctet(num: nat, t: seq<byte>)
    requires 1 <= num <= 15
    ensures BytesField(num, t) == Delimited(8 * num + 2, t)
  {
    assert Varint.Encode(8 * num + 2) == [8 * num + 2];
  }

  lemma {:induction false} ParamsOctets(ps: seq<Param>)
    ensures EncodeParams(ps) == Params(ps)
  {
    hide BytesField, Delimited;
    if ps != [] {
      ParamsOctets(ps[1..]);
      TagOctet(1, OrEmpty(ps[0].key));
      TagOctet(2, OrEmpty(ps[0].value));
      TagOctet(10, ParamBody(ps[0]));
    }
  }

  function Text(s: Signal, num: nat): (r: seq<byte>) {
    if num in s.text then s.text[num] else []
  }

  lemma TextOctets(s: Signal, num: nat)
    requires 1 <= num <= 15
    ensures EncodeText(s, num) == Optional(8 * num + 2, Text(s, num))
  {
    hide BytesField, Delimited;
    TagOctet(num, TextOf(s, num));
  }

  lemma TextsFrom(s: Signal, nums: seq<nat>, num: nat, rest: seq<nat>)
    requires nums == [num] + rest
    ensures EncodeTexts(s, nums) == EncodeText(s, num) + EncodeTexts(s, rest)
  {
    hide EncodeText;
    assert nums[1..] == rest;
  }

  /** The first seven text fields in the order of their numbers. */
  lemma SevenTexts(s: Signal)
    ensures EncodeTexts(s, FIRST_TEXTS) ==
            Optional(0x0A, Text(s, 1)) + (Optional(0x12, Text(s, 2)) + (Optional(0x1A, Text(s, 3))
            + (Optional(0x22, Text(s, 4)) + (Optional(0x2A, Text(s, 5)) + (Optional(0x32, Text(s, 6))
            + Optional(0x3A, Text(s, 7)))))))
  {
    hide EncodeText, Optional, Text, EncodeTexts;
    TextsFrom(s, FIRST_TEXTS, 1, [2, 3, 4, 5, 6, 7]);
    TextsFrom(s, [2, 3, 4, 5, 6, 7], 2, [3, 4, 5, 6, 7]);
    TextsFrom(s, [3, 4, 5, 6, 7], 3, [4, 5, 6, 7]);
    TextsFrom(s, [4, 5, 6, 7], 4, [5, 6, 7]);
    TextsFrom(s, [5, 6, 7], 5, [6, 7]);
    TextsFrom(s, [6, 7], 6, [7]);
    LastText(s, 7);
    forall num: nat | 1 <= num <= 7 ensures EncodeText(s, num) == Optional(8 * num + 2, Text(s, num)) {
      TextOctets(s, num);
    }
  }

  lemma LastText(s: Signal, num: nat)
    ensures EncodeTexts(s, [num]) == EncodeText(s, num)
  {
    hide EncodeText;
    assert [num][1..] == [] && EncodeTexts(s, []) == [];
  }

  /** The octets of a message: its text fields 1 to 7, its receive time as field 8, its text field 9 and its
      parameters as field 10, each a record of its key as field 1 and its value as field 2. */
  lemma MessageOctets(s: Signal)
    ensures Encode(s) ==
            (Optional(0x0A, Text(s, 1)) + (Optional(0x12, Text(s, 2)) + (Optional(0x1A, Text(s, 3))
             + (Optional(0x22, Text(s, 4)) + (Optional(0x2A, Text(s, 5)) + (Optional(0x32, Text(s, 6))
             + Optional(0x3A, Text(s, 7))))))))
            + ((if s.nano.None? || s.nano.value == 0 then [] else [0x40] + Varint.Encode(s.nano.value))
            + (Optional(0x4A, Text(s, 9)) + Params(s.params)))
  {
    hide EncodeText, Optional, Text, EncodeTexts, EncodeParams, Params;
    SevenTexts(s);
    LastText(s, 9);
    TextOctets(s, 9);
    ParamsOctets(s.params);
    assert Varint.Encode(64) == [0x40];
  }

  // ---------------------------------------------------------------- acceptance

  /** The strict decoder accepts what its loop accepts with a trace id, a license, a command and a symbol. */
  lemma AcceptedIff(u: Utf8, data: seq<byte>)
    ensures Parse(u, data).Ok? <==>
            && data != [] && Strict(u, data, EMPTY).Ok?
            && var s := Strict(u, data, EMPTY).value;
               Text(s, 1) != [] && Text(s, 2) != [] && Text(s, 4) != [] && Text(s, 6) != []
    ensures Parse(u, data).Ok? ==> Parse(u, data) == Strict(u, data, EMPTY)
  {
    hide Strict;
  }
}
