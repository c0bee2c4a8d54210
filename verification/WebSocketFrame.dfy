/**
 The frame writer and the frame parser of the MT4 WebSocket DLL
 (ea/mt4-ws-dll/src/ws_dll.cpp), against the frame layout of sections 5.2 and
 5.3 of RFC 6455.
 */
module WebSocketFrame {
  import opened Prelude
  import opened Bytes

  /** The three encodings of a payload length (section 5.2 of RFC 6455). */
  datatype LengthForm = Short | Medium | Long

  /** `flags` are FIN and the reserved bits, the high half of the first octet. */
  datatype Frame = Frame(flags: nat, opcode: nat, form: LengthForm, mask: seq<byte>, payload: seq<byte>)
  {
    predicate Valid() {
      && flags < 16 && opcode < 16
      && (mask == [] || |mask| == 4)
      && |payload| < match form { case Short => 126 case Medium => 0x1_0000 case Long => 0x8000_0000 }
    }
  }

  function Masked(data: seq<byte>, mask: seq<byte>): (r: seq<byte>)
    requires |mask| == 4
    ensures |r| == |data|
  {
    seq(|data|, i requires 0 <= i < |data| => Xor(data[i], mask[i % 4]))
  }

  lemma MaskedTwice(data: seq<byte>, mask: seq<byte>)
    requires |mask| == 4
    ensures Masked(Masked(data, mask), mask) == data
  {
    forall i | 0 <= i < |data| ensures Masked(Masked(data, mask), mask)[i] == data[i] {
      XorTwice(data[i], mask[i % 4]);
    }
  }

  function LengthOctets(form: LengthForm, masked: bool, n: nat): (s: seq<byte>)
    requires form == Short ==> n < 126
    ensures |s| == LengthEnd(form) - 1
  {
    var bit := if masked then 128 else 0;
    match form
    case Short => [bit + n]
    case Medium => [bit + 126] + BeBytes(n, 2)
    case Long => [bit + 127] + BeBytes(n, 8)
  }

  function Head(f: Frame): (s: seq<byte>)
    requires f.Valid()
    ensures |s| == HeadLength(f)
  {
    [f.flags * 16 + f.opcode] + LengthOctets(f.form, f.mask != [], |f.payload|) + f.mask
  }

  function HeadLength(f: Frame): (n: nat) {
    LengthEnd(f.form) + |f.mask|
  }

  /** The octets of a frame on the wire. */
  function Encode(f: Frame): (s: seq<byte>)
    requires f.Valid()
    ensures |s| == HeadLength(f) + |f.payload| >= 2
  {
    Head(f) + if f.mask == [] then f.payload else Masked(f.payload, f.mask)
  }

  datatype ParseResult = NeedMore | TooBig | Complete(opcode: nat, payload: seq<byte>, frameLen: nat)

  /** The payload length and where it ends, once all its octets are there. */
  function ReadLength(buf: seq<byte>): (r: Option<(nat, nat)>)
    requires |buf| >= 2
    ensures r.Some? ==> 2 <= r.value.1 <= |buf|
  {
    var short := buf[1] % 128;
    if short == 126 then if |buf| < 4 then None else Some((BeValue(buf[2..4]), 4))
    else if short == 127 then if |buf| < 10 then None else Some((BeValue(buf[2..10]), 10))
    else Some((short, 2))
  }

  /** What `ws_parse_frame` answers for the octets buffered so far. */
  function Parse(buf: seq<byte>, outSize: nat): (r: ParseResult)
    ensures r.Complete? ==> 2 <= r.frameLen <= |buf| && |r.payload| <= outSize && |r.payload| < r.frameLen
  {
    if |buf| < 2 then NeedMore
    else match ReadLength(buf)
      case None => NeedMore
      case Some((plen, lengthEnd)) => ParseBody(buf, plen, lengthEnd, outSize)
  }

  function ParseBody(buf: seq<byte>, plen: nat, lengthEnd: nat, outSize: nat): (r: ParseResult)
    requires 2 <= lengthEnd <= |buf|
    ensures r.Complete? ==> 2 <= r.frameLen <= |buf| && |r.payload| <= outSize && |r.payload| < r.frameLen
  {
    var masked := buf[1] >= 128;
    var h := if masked then lengthEnd + 4 else lengthEnd;
    if |buf| < h + plen then NeedMore
    else if plen > outSize then TooBig
    else
      var src := buf[h..h + plen];
      Complete(buf[0] % 16, if masked then Masked(src, buf[h - 4..h]) else src, h + plen)
  }

  function LengthEnd(form: LengthForm): (n: nat) {
    match form case Short => 2 case Medium => 4 case Long => 10
  }

  /** A buffer that starts like a frame yields that frame's length. */
  lemma ReadEncodedLength(form: LengthForm, masked: bool, n: nat, buf: seq<byte>)
    requires n < match form { case Short => 126 case Medium => 0x1_0000 case Long => 0x8000_0000 }
    requires |buf| >= LengthEnd(form) && buf[1..LengthEnd(form)] == LengthOctets(form, masked, n)
    ensures ReadLength(buf) == Some((n, LengthEnd(form)))
    ensures buf[1] >= 128 <==> masked
  {
    hide BeValue, BeBytes;
    var octets := LengthOctets(form, masked, n);
    assert buf[1] == octets[0];
    if form != Short {
      assert buf[2..LengthEnd(form)] == buf[1..LengthEnd(form)][1..] == octets[1..];
      LengthFits(form, n);
    }
  }

  lemma LengthFits(form: LengthForm, n: nat)
    requires n < match form { case Short => 126 case Medium => 0x1_0000 case Long => 0x8000_0000 }
    ensures form == Medium ==> BeValue(BeBytes(n, 2)) == n
    ensures form == Long ==> BeValue(BeBytes(n, 8)) == n
  {
    if form == Medium {
      assert Pow256(2) == 0x1_0000;
      BeRoundTrip(n, 2);
    } else if form == Long {
      Pow256Of8();
      BeRoundTrip(n, 8);
    }
  }

  /** With the length octets cut short, no length is read. */
  lemma ReadCutLength(form: LengthForm, masked: bool, n: nat, buf: seq<byte>)
    requires form != Short && 2 <= |buf| < LengthEnd(form)
    requires buf[1] == LengthOctets(form, masked, n)[0]
    ensures ReadLength(buf) == None
  {
  }

  lemma Pow256Of8()
    ensures Pow256(8) > 0x8000_0000
  {
    assert Pow256(2) == 0x1_0000;
    assert Pow256(4) == 0x1_0000_0000;
    assert Pow256(6) == 0x1_0000 * 0x1_0000_0000;
  }

  /** Parsing inverts encoding and leaves what follows the frame alone. */
  lemma ParseEncoded(f: Frame, rest: seq<byte>, outSize: nat)
    requires f.Valid()
    ensures Parse(Encode(f) + rest, outSize) ==
            if |f.payload| > outSize then TooBig else Complete(f.opcode, f.payload, |Encode(f)|)
  {
    var buf := Encode(f) + rest;
    hide Encode, ReadLength, Masked;
    ReadEncodedLength(f.form, f.mask != [], |f.payload|, buf) by { EncodedLengthOctets(f, buf); }
    EncodedLengthOctets(f, buf);
    EncodedPayload(f, buf);
  }

  lemma EncodedPayload(f: Frame, buf: seq<byte>)
    requires f.Valid() && Encode(f) <= buf
    ensures var h, n := HeadLength(f), |f.payload|;
            f.payload == if f.mask == [] then buf[h..h + n] else Masked(buf[h..h + n], buf[h - 4..h])
  {
    hide Head, Masked;
    var h, n := HeadLength(f), |f.payload|;
    var tail := Encode(f)[h..];
    assert buf[h..h + n] == tail;
    if f.mask == [] {
      assert tail == f.payload;
    } else {
      assert tail == Masked(f.payload, f.mask);
      MaskInHead(f);
      assert buf[h - 4..h] == Encode(f)[h - 4..h] == Head(f)[h - 4..];
      MaskedTwice(f.payload, f.mask);
    }
  }

  lemma MaskInHead(f: Frame)
    requires f.Valid() && f.mask != []
    ensures HeadLength(f) >= 4 && Head(f)[HeadLength(f) - 4..] == f.mask
  {
    hide LengthOctets;
  }

  /** Every strict prefix of a frame asks for more octets. */
  lemma ParseStrictPrefix(f: Frame, n: nat, outSize: nat)
    requires f.Valid() && n < |Encode(f)|
    ensures Parse(Encode(f)[..n], outSize) == NeedMore
  {
    var buf := Encode(f)[..n];
    if n >= LengthEnd(f.form) {
      ReadEncodedLength(f.form, f.mask != [], |f.payload|, buf) by { EncodedLengthOctets(f, buf); }
    } else if n >= 2 {
      ReadCutLength(f.form, f.mask != [], |f.payload|, buf);
    }
  }

  lemma EncodedLengthOctets(f: Frame, buf: seq<byte>)
    requires f.Valid() && |buf| >= LengthEnd(f.form)
    requires buf <= Encode(f) || Encode(f) <= buf
    ensures buf[1..LengthEnd(f.form)] == LengthOctets(f.form, f.mask != [], |f.payload|)
    ensures buf[0] % 16 == f.opcode
  {
    hide LengthOctets, Masked;
    var octets := LengthOctets(f.form, f.mask != [], |f.payload|);
    var start := Head(f)[..LengthEnd(f.form)];
    assert start == [f.flags * 16 + f.opcode] + octets;
    assert buf[..LengthEnd(f.form)] == Encode(f)[..LengthEnd(f.form)] == start;
    assert buf[1..LengthEnd(f.form)] == start[1..] == octets;
  }

  /** The frame `ws_send_text` means to send. */
  function TextFrame(payload: seq<byte>, mask: seq<byte>): (f: Frame)
    requires |mask| == 4 && |payload| < 0x1_0000
    ensures f.Valid()
  {
    Frame(8, 1, if |payload| < 126 then Short else Medium, mask, payload)
  }

  /** The head that `ws_send_text` lays out in the frame buffer. */
  method WriteHead(frame: array<byte>, ghost payload: seq<byte>, payLen: nat, mask: seq<byte>) returns (hlen: nat)
    requires |mask| == 4 && payLen == |payload| < 0x1_0000 && frame.Length >= 8
    modifies frame
    ensures hlen <= 8 && frame[..hlen] == Head(TextFrame(payload, mask))
  {
    hide Head;
    frame[0] := 0x81;
    hlen := 2;
    if payLen < 126 {
      frame[1] := 0x80 + payLen;
    } else {
      frame[1], frame[2], frame[3] := 0xFE, payLen / 256, payLen % 256;
      hlen := 4;
    }
    ghost var length := frame[1..hlen];
    frame[hlen], frame[hlen + 1], frame[hlen + 2], frame[hlen + 3] := mask[0], mask[1], mask[2], mask[3];
    hlen := hlen + 4;
    assert frame[..hlen] == [0x81] + length + mask;
    TextHead(payload, mask);
  }

  lemma TextHead(payload: seq<byte>, mask: seq<byte>)
    requires |mask| == 4 && |payload| < 0x1_0000
    ensures var n := |payload|;
            Head(TextFrame(payload, mask)) ==
            [0x81] + (if n < 126 then [0x80 + n] else [0xFE, n / 256, n % 256]) + mask
  {
    hide BeBytes;
    TwoOctets(|payload|);
  }

  lemma TwoOctets(n: nat)
    requires n < 0x1_0000
    ensures BeBytes(n, 2) == [n / 256, n % 256]
  {
    assert BeBytes(n / 256, 1) == BeBytes(n / 256 / 256, 0) + [n / 256 % 256];
  }

  /** The octets of a masked text frame: the final text frame's first octet, the mask bit with the length, the
      mask, and octet `i` of the payload masked with octet `i` modulo 4 of the mask (section 5.3 of RFC 6455). */
  ghost predicate TextOctets(payload: seq<byte>, mask: seq<byte>, sent: seq<byte>)
    requires |mask| == 4
  {
    var n := |payload|;
    var h := if n < 126 then 6 else 8;
    && |sent| == h + n && sent[0] == 0x81
    && (if n < 126 then sent[1] == 0x80 + n else sent[1] == 0xFE && sent[2] as int * 256 + sent[3] as int == n)
    && sent[h - 4..h] == mask
    && forall i :: 0 <= i < n ==> sent[h + i] == Xor(payload[i], mask[i % 4])
  }

  lemma EncodedTextOctets(payload: seq<byte>, mask: seq<byte>)
    requires |mask| == 4 && |payload| < 0x1_0000
    ensures TextOctets(payload, mask, Encode(TextFrame(payload, mask)))
  {
    hide Head, Xor;
    TextHead(payload, mask);
    var n, head := |payload|, Head(TextFrame(payload, mask));
    var h := if n < 126 then 6 else 8;
    var sent := Encode(TextFrame(payload, mask));
    assert |head| == h && sent == head + Masked(payload, mask);
    assert sent[h - 4..h] == head[h - 4..] == mask;
    forall i | 0 <= i < n ensures sent[h + i] == Xor(payload[i], mask[i % 4]) {
      assert sent[h + i] == Masked(payload, mask)[i];
    }
  }

  /** `ws_send_text`: `sent` is the prefix of the frame buffer handed to send(). */
  method SendText(payload: seq<byte>, mask: seq<byte>) returns (ok: bool, sent: seq<byte>)
    requires |mask| == 4
    ensures ok <==> |payload| < 0x1_0000
    ensures ok ==> sent == Encode(TextFrame(payload, mask)) && TextOctets(payload, mask, sent)
  {
    hide Xor, Head, TextOctets;
    ok, sent := false, [];
    var payLen := |payload|;
    if payLen >= 65536 { return; }
    var frame := new byte[10 + 4 + 65536];
    var hlen := WriteHead(frame, payload, payLen, mask);
    ghost var head, body := frame[..hlen], Masked(payload, mask);
    for i := 0 to payLen
      invariant frame[..hlen + i] == head + body[..i]
    {
      frame[hlen + i] := Xor(payload[i], mask[i % 4]);
      assert frame[..hlen + i + 1] == frame[..hlen + i] + [body[i]];
    }
    EncodedTextOctets(payload, mask);
    ok, sent := true, frame[..hlen + payLen];
  }

  /** The length part of `ws_parse_frame`: `known` is false while octets are missing. */
  method ReadLengthFrom(buf: array<byte>, bufLen: nat) returns (known: bool, plen: nat, hlen: nat)
    requires 2 <= bufLen <= buf.Length
    ensures ReadLength(buf[..bufLen]) == if known then Some((plen, hlen)) else None
  {
    ghost var data := buf[..bufLen];
    known, plen, hlen := true, (buf[1] as int) % 128, 2;
    if plen == 126 {
      if bufLen < 4 { known := false; return; }
      plen := (buf[2] as int) * 256 + buf[3] as int;
      hlen := 4;
      assert data[2..4] == [] + [buf[2]] + [buf[3]];
      BeAppend([], buf[2]);
      BeAppend([] + [buf[2]], buf[3]);
    } else if plen == 127 {
      if bufLen < 10 { known := false; return; }
      plen := 0;
      for i := 0 to 8
        invariant plen == BeValue(data[2..2 + i])
      {
        BeAppend(data[2..2 + i], buf[2 + i]);
        assert data[2..2 + i + 1] == data[2..2 + i] + [buf[2 + i]];
        plen := plen * 256 + buf[2 + i] as int;
      }
      hlen := 10;
    }
  }

  /** The copy loop of `ws_parse_frame`: `mask` is read in place, just before the payload. */
  method CopyPayload(buf: array<byte>, ghost data: seq<byte>, hlen: nat, plen: nat, masked: bool, out: array<byte>)
    requires data <= buf[..] && buf != out
    requires (if masked then 4 else 0) <= hlen && hlen + plen <= |data| && plen <= out.Length
    modifies out
    ensures data <= buf[..]
    ensures out[..plen] == var src := data[hlen..hlen + plen];
                           if masked then Masked(src, data[hlen - 4..hlen]) else src
  {
    hide Xor;
    ghost var src := data[hlen..hlen + plen];
    if masked {
      ghost var mask, was := data[hlen - 4..hlen], buf[..];
      for i := 0 to plen
        invariant buf[..] == was && out[..i] == Masked(src, mask)[..i]
      {
        OctetAt(was, data, hlen + i);
        OctetAt(was, data, hlen - 4 + i % 4);
        out[i] := Xor(buf[hlen + i], buf[hlen - 4 + i % 4]);
        assert out[..i + 1] == out[..i] + [Masked(src, mask)[i]];
      }
    } else {
      forall i | 0 <= i < plen { out[i] := buf[hlen + i]; }
      assert out[..plen] == src;
    }
  }

  lemma OctetAt(buf: seq<byte>, data: seq<byte>, i: nat)
    requires data <= buf && i < |data|
    ensures buf[i] == data[i]
  {
  }

  /** `ws_parse_frame` over the receive buffer, answering 1, 0 or -1 as the source does. */
  method ParseInto(buf: array<byte>, bufLen: nat, out: array<byte>)
    returns (r: int, frameLen: nat, opcode: nat, payLen: nat)
    requires bufLen <= buf.Length && buf != out
    modifies out
    ensures match Parse(buf[..bufLen], out.Length)
            case NeedMore => r == 0
            case TooBig => r == -1
            case Complete(op, payload, len) =>
              r == 1 && opcode == op && frameLen == len && payLen == |payload| && out[..payLen] == payload
  {
    r, frameLen, opcode, payLen := 0, 0, 0, 0;
    if bufLen < 2 { return; }
    ghost var data := buf[..bufLen];
    opcode := (buf[0] as int) % 16;
    var masked := buf[1] >= 128;
    var known, plen, hlen := ReadLengthFrom(buf, bufLen);
    if !known { return; }
    if masked { hlen := hlen + 4; }
    if bufLen < hlen + plen { return; }
    if plen > out.Length { r := -1; return; }
    CopyPayload(buf, data, hlen, plen, masked, out);
    payLen := plen;
    frameLen := hlen + plen;
    r := 1;
  }
}
