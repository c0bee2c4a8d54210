/**
 The Signal message on the wire: the encoder and the lenient decoder of
 apps/portal-api/app.py and the strict decoder of apps/persist/app.py, after the
 Protocol Buffers encoding (tags, varints, length-delimited records).

 A Python string is modelled by its UTF-8 octets. What counts as valid UTF-8,
 and what errors="replace" puts in its place, are parameters.
 */
module SignalProto {
  import opened Prelude
  import opened Bytes
  import Varint

  type Text = seq<byte>

  datatype Utf8 = Utf8(valid: Text -> bool, repair: Text -> Text)

  /** What the model assumes of UTF-8: repairing yields valid text and keeps valid
      text as it is; the empty string is valid and "-r" may follow any valid text. */
  ghost predicate Lawful(u: Utf8) {
    && (forall t: Text :: u.valid(u.repair(t)))
    && (forall t: Text :: u.valid(t) ==> u.repair(t) == t && u.valid(t + REPLAY_SUFFIX))
    && u.valid([])
  }

  const REPLAY_SUFFIX: Text := [0x2D, 0x72]

  datatype Param = Param(key: Option<Text>, value: Option<Text>)

  /** The text fields are named by their field numbers. */
  datatype Signal = Signal(text: map<nat, Text>, nano: Option<nat>, params: seq<Param>)

  const EMPTY := Signal(map[], None, [])

  const TRACE_ID := 1
  const LICENSE_ID := 2
  const COMMAND := 4
  const SYMBOL := 6
  const RECEIVED := 8
  const PARAMS := 10

  predicate IsText(num: nat) {
    1 <= num <= 7 || num == 9
  }

  function OrEmpty(t: Option<Text>): (r: Text) {
    if t.Some? then t.value else []
  }

  function TextOf(s: Signal, num: nat): (r: Text) {
    if num in s.text then s.text[num] else []
  }

  // ---------------------------------------------------------------- encoding

  /** `_pb_str_field` and `_pb_bytes_field`. */
  function BytesField(num: nat, t: seq<byte>): (r: seq<byte>)
    ensures r != []
  {
    Varint.Encode(8 * num + 2) + Varint.Encode(|t|) + t
  }

  /** `_pb_int64_field`. */
  function IntField(num: nat, n: nat): (r: seq<byte>) {
    Varint.Encode(8 * num) + Varint.Encode(n)
  }

  function EncodeText(s: Signal, num: nat): (r: seq<byte>) {
    if TextOf(s, num) == [] then [] else BytesField(num, TextOf(s, num))
  }

  function EncodeTexts(s: Signal, nums: seq<nat>): (r: seq<byte>) {
    if nums == [] then [] else EncodeText(s, nums[0]) + EncodeTexts(s, nums[1..])
  }

  function EncodeNano(s: Signal): (r: seq<byte>) {
    if s.nano.None? || s.nano.value == 0 then [] else IntField(RECEIVED, s.nano.value)
  }

  function ParamBody(p: Param): (r: seq<byte>) {
    BytesField(1, OrEmpty(p.key)) + BytesField(2, OrEmpty(p.value))
  }

  function EncodeParams(ps: seq<Param>): (r: seq<byte>) {
    if ps == [] then [] else BytesField(PARAMS, ParamBody(ps[0])) + EncodeParams(ps[1..])
  }

  const FIRST_TEXTS: seq<nat> := [1, 2, 3, 4, 5, 6, 7]

  /** `encode_signal_proto`. */
  function Encode(s: Signal): (r: seq<byte>) {
    EncodeTexts(s, FIRST_TEXTS) + (EncodeNano(s) + (EncodeTexts(s, [9]) + EncodeParams(s.params)))
  }

  // ---------------------------------------------------------------- decoding

  datatype Reason = Empty | Cut | Overrun | NotUtf8 | WireType(wt: nat) | Missing

  datatype Outcome<+T> = Ok(value: T) | IndexError | ProtoError(reason: Reason)

  /** One record at the front of the data; `raw` is shorter than `length` on overrun. */
  datatype Record =
    | NoTag
    | NoValue
    | Other(wt: nat, afterTag: seq<byte>)
    | Int(num: nat, value: nat, rest: seq<byte>)
    | Raw(num: nat, length: nat, raw: seq<byte>, rest: seq<byte>)

  function Next(data: seq<byte>): (r: Record)
    requires data != []
    ensures r.Int? || r.Raw? ==> |r.rest| < |data|
    ensures r.Other? ==> |r.afterTag| < |data|
    ensures r.Raw? ==> |r.raw| < |data|
  {
    match Varint.Decode(data)
    case Truncated => NoTag
    case Read(tag, afterTag) =>
      if tag % 8 == 0 then
        match Varint.Decode(afterTag)
        case Truncated => NoValue
        case Read(v, rest) => Int(tag / 8, v, rest)
      else if tag % 8 == 2 then
        match Varint.Decode(afterTag)
        case Truncated => NoValue
        case Read(length, rest) =>
          var n := if length <= |rest| then length else |rest|;
          Raw(tag / 8, length, rest[..n], rest[n..])
      else Other(tag % 8, afterTag)
  }

  /** A record that lies wholly inside the data. */
  predicate Inside(r: Record) {
    r.Int? || (r.Raw? && |r.raw| == r.length)
  }

  function WithParam(p: Param, num: nat, t: Text): (r: Param) {
    if num == 1 then p.(key := Some(t)) else if num == 2 then p.(value := Some(t)) else p
  }

  /** The nested loop of `decode_signal_proto`. A record of another wire type loses
      only its tag there: its value is read as further tags. */
  function LenientParam(u: Utf8, data: seq<byte>, p: Param): (r: Outcome<Param>)
    decreases |data|
  {
    if data == [] then Ok(p)
    else match Varint.Decode(data)
      case Truncated => IndexError
      case Read(tag, afterTag) =>
        if tag % 8 != 2 then LenientParam(u, afterTag, p)
        else match Next(data)
          case Raw(num, _, raw, rest) => LenientParam(u, rest, WithParam(p, num, u.repair(raw)))
          case _ => IndexError
  }

  /** `decode_signal_proto`, from the state `s`. */
  function Lenient(u: Utf8, data: seq<byte>, s: Signal): (r: Outcome<Signal>)
    decreases |data|
  {
    if data == [] then Ok(s)
    else match Next(data)
      case NoTag => IndexError
      case NoValue => IndexError
      case Other(_, _) => Ok(s)
      case Int(num, v, rest) => Lenient(u, rest, if num == RECEIVED then s.(nano := Some(v)) else s)
      case Raw(num, _, raw, rest) =>
        if IsText(num) then Lenient(u, rest, s.(text := s.text[num := u.repair(raw)]))
        else if num == PARAMS then
          match LenientParam(u, raw, Param(None, None))
          case Ok(p) => Lenient(u, rest, s.(params := s.params + [p]))
          case _ => IndexError
        else Lenient(u, rest, s)
  }

  /** The nested loop of `parse_signal`. */
  function StrictParam(u: Utf8, data: seq<byte>, p: Param): (r: Outcome<Param>)
    decreases |data|
  {
    if data == [] then Ok(p)
    else match Varint.Decode(data)
      case Truncated => ProtoError(Cut)
      case Read(tag, _) =>
        if tag % 8 != 2 then ProtoError(WireType(tag % 8))
        else match Next(data)
          case Raw(num, length, raw, rest) =>
            if |raw| < length then ProtoError(Overrun)
            else if !u.valid(raw) then ProtoError(NotUtf8)
            else StrictParam(u, rest, WithParam(p, num, raw))
          case _ => ProtoError(Cut)
  }

  /** The outer loop of `parse_signal`, from the state `s`. */
  function Strict(u: Utf8, data: seq<byte>, s: Signal): (r: Outcome<Signal>)
    decreases |data|
  {
    if data == [] then Ok(s)
    else match Next(data)
      case NoTag => ProtoError(Cut)
      case NoValue => ProtoError(Cut)
      case Other(wt, _) => ProtoError(WireType(wt))
      case Int(num, v, rest) => Strict(u, rest, if num == RECEIVED then s.(nano := Some(v)) else s)
      case Raw(num, length, raw, rest) =>
        if |raw| < length then ProtoError(Overrun)
        else if IsText(num) then
          if !u.valid(raw) then ProtoError(NotUtf8)
          else Strict(u, rest, s.(text := s.text[num := raw]))
        else if num == PARAMS then
          match StrictParam(u, raw, Param(None, None))
          case Ok(p) => Strict(u, rest, s.(params := s.params + [p]))
          case IndexError => IndexError
          case ProtoError(e) => ProtoError(e)
        else Strict(u, rest, s)
  }

  predicate HasRequired(s: Signal) {
    TextOf(s, TRACE_ID) != [] && TextOf(s, LICENSE_ID) != [] && TextOf(s, COMMAND) != [] && TextOf(s, SYMBOL) != []
  }

  /** `decode_signal_proto`. */
  function Decode(u: Utf8, data: seq<byte>): (r: Outcome<Signal>) {
    Lenient(u, data, EMPTY)
  }

  /** `parse_signal`. */
  function Parse(u: Utf8, data: seq<byte>): (r: Outcome<Signal>) {
    if data == [] then ProtoError(Empty)
    else match Strict(u, data, EMPTY)
      case Ok(s) => if HasRequired(s) then Ok(s) else ProtoError(Missing)
      case IndexError => IndexError
      case ProtoError(e) => ProtoError(e)
  }
}
