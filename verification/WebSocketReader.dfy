/**
 The receive loop of the MT4 WebSocket DLL (`WsRead` in
 ea/mt4-ws-dll/src/ws_dll.cpp): octets arrive in arbitrary pieces, control
 frames are swallowed (section 5.5 of RFC 6455) and data payloads are returned
 one per call.
 */
module WebSocketReader {
  import opened Bytes
  import opened WebSocketFrame

  const IBUF_SIZE := 65536
  const PBUF_SIZE := 65536

  const CLOSE := 8
  const PING := 9
  const PONG := 10

  predicate Fits(f: Frame) {
    f.Valid() && |Encode(f)| <= IBUF_SIZE
  }

  predicate AllFit(fs: seq<Frame>) {
    forall i :: 0 <= i < |fs| ==> Fits(fs[i])
  }

  function EncodeAll(fs: seq<Frame>): (s: seq<byte>)
    requires AllFit(fs)
  {
    if fs == [] then [] else Encode(fs[0]) + EncodeAll(fs[1..])
  }

  /** What one frame gives to a caller whose buffer holds `size` octets. */
  function HeardOf(f: Frame, size: nat): (r: seq<seq<byte>>) {
    var p := f.payload[..if |f.payload| <= size then |f.payload| else size];
    if f.opcode == CLOSE || f.opcode == PING || f.opcode == PONG || p == [] then [] else [p]
  }

  /** A frame is heard exactly when it is not a close, a ping or a pong (section 5.5 of RFC 6455) and has something
      to put in the buffer; what is heard is its payload, cut to the buffer. */
  lemma HeardIff(f: Frame, size: nat)
    ensures HeardOf(f, size) == [] <==> f.opcode in {8, 9, 10} || f.payload == [] || size == 0
    ensures HeardOf(f, size) != [] ==>
              |HeardOf(f, size)| == 1 && HeardOf(f, size)[0] <= f.payload
              && (|f.payload| <= size ==> HeardOf(f, size)[0] == f.payload)
              && (|f.payload| > size ==> |HeardOf(f, size)[0]| == size)
  {
  }

  /** The non-empty data payloads of a run of frames, in order. */
  function Heard(fs: seq<Frame>, size: nat): (r: seq<seq<byte>>) {
    if fs == [] then [] else HeardOf(fs[0], size) + Heard(fs[1..], size)
  }

  lemma {:induction false} HeardConcat(a: seq<Frame>, b: seq<Frame>, size: nat)
    ensures Heard(a + b, size) == Heard(a, size) + Heard(b, size)
  {
    hide HeardOf;
    if a == [] {
      assert a + b == b;
    } else {
      HeardConcat(a[1..], b, size);
      assert (a + b)[0] == a[0] && (a + b)[1..] == a[1..] + b;
      Reassociate(HeardOf(a[0], size), Heard(a[1..], size), Heard(b, size));
    }
  }

  lemma Reassociate<T>(a: seq<T>, b: seq<T>, c: seq<T>)
    ensures a + (b + c) == a + b + c
  {
  }

  predicate NoClose(fs: seq<Frame>) {
    forall i :: 0 <= i < |fs| ==> fs[i].opcode != CLOSE
  }

  /** The frames `fs[from..to]` give the caller `heard`; `closed` if the last of them, and only it, is a close frame. */
  predicate Told(fs: seq<Frame>, from: nat, to: nat, size: nat, heard: seq<seq<byte>>, closed: bool) {
    && from <= to <= |fs|
    && Heard(fs[from..to], size) == heard
    && if closed then from < to && fs[to - 1].opcode == CLOSE && NoClose(fs[from..to - 1]) else NoClose(fs[from..to])
  }

  lemma ToldNothing(fs: seq<Frame>, at: nat, size: nat)
    requires at <= |fs|
    ensures Told(fs, at, at, size, [], false)
  {
  }

  lemma ToldOne(fs: seq<Frame>, at: nat, size: nat)
    requires at < |fs|
    ensures Told(fs, at, at + 1, size, HeardOf(fs[at], size), fs[at].opcode == CLOSE)
  {
    assert fs[at..at + 1] == [fs[at]];
    assert Heard([fs[at]], size) == HeardOf(fs[at], size) + Heard([], size);
  }

  lemma ToldJoin(fs: seq<Frame>, a: nat, b: nat, c: nat, size: nat, h: seq<seq<byte>>, k: seq<seq<byte>>, closed: bool)
    requires Told(fs, a, b, size, h, false) && Told(fs, b, c, size, k, closed)
    ensures Told(fs, a, c, size, h + k, closed)
  {
    hide Heard;
    assert fs[a..c] == fs[a..b] + fs[b..c];
    HeardConcat(fs[a..b], fs[b..c], size);
    if closed { assert fs[a..c - 1] == fs[a..b] + fs[b..c - 1]; }
  }

  /**
   A buffer on a frame boundary either holds the whole next frame, which the
   parser then returns, or a strict prefix of it that leaves room to receive.
   */
  lemma NextFrame(buf: seq<byte>, inFlight: seq<byte>, rest: seq<Frame>)
    requires AllFit(rest) && buf + inFlight == EncodeAll(rest)
    ensures rest == [] ==> buf == [] && inFlight == []
    ensures rest != [] ==>
              var f := rest[0]; var n := |Encode(f)|;
              if n <= |buf| then
                && Parse(buf, PBUF_SIZE) == Complete(f.opcode, f.payload, n)
                && buf[n..] + inFlight == EncodeAll(rest[1..])
              else
                Parse(buf, PBUF_SIZE) == NeedMore && |buf| < IBUF_SIZE && inFlight != []
  {
    hide Encode, Parse;
    if rest != [] {
      var f := rest[0];
      var n := |Encode(f)|;
      var whole := buf + inFlight;
      if n <= |buf| {
        assert buf == Encode(f) + buf[n..] by { assert buf == whole[..|buf|]; }
        assert buf[n..] + inFlight == whole[n..];
        ParseEncoded(f, buf[n..], PBUF_SIZE);
      } else {
        assert buf == Encode(f)[..|buf|] by { assert buf == whole[..|buf|]; }
        ParseStrictPrefix(f, |buf|, PBUF_SIZE);
      }
    }
  }

  /** What recv() reports: some octets, none yet, or an orderly or abrupt end. */
  datatype Recv = Octets(n: nat) | Quiet | Gone

  /** One turn of the outer loop: is the deadline over, what does recv() report,
      and has another thread dropped the socket during the sleep. */
  datatype Poll = Poll(expired: bool, recv: Recv, dropped: bool)

  datatype Cause = NotOpen | CloseFrame | PeerGone | Dropped | BadFrame | BufferFull

  datatype Outcome = Delivered | Idle | Dead(cause: Cause)

  /** Dropping the first frame leaves the frames that follow. */
  lemma AfterFrame(buf: seq<byte>, inFlight: seq<byte>, sent: seq<Frame>, taken: nat)
    requires taken < |sent| && AllFit(sent) && buf + inFlight == EncodeAll(sent[taken..])
    requires |Encode(sent[taken])| <= |buf|
    ensures buf[|Encode(sent[taken])|..] + inFlight == EncodeAll(sent[taken + 1..])
  {
    hide Encode, EncodeAll, Parse;
    NextFrame(buf, inFlight, sent[taken..]);
    assert sent[taken..][1..] == sent[taken + 1..];
  }

  lemma AtLeastTwo(f: Frame)
    requires f.Valid()
    ensures |Encode(f)| >= 2
  {
  }

  /** How many of the frames lie wholly in the first `n` octets sent. */
  function Arrived(fs: seq<Frame>, n: nat): (k: nat)
    requires AllFit(fs)
    ensures k <= |fs|
  {
    if fs == [] || |Encode(fs[0])| > n then 0 else 1 + Arrived(fs[1..], n - |Encode(fs[0])|)
  }

  /** With `k` frames and less than the next one behind them, it is `k` that have arrived. */
  lemma {:induction false} ArrivedIs(fs: seq<Frame>, k: nat, n: nat)
    requires AllFit(fs) && k <= |fs| && |EncodeAll(fs)| - |EncodeAll(fs[k..])| <= n
    requires k < |fs| ==> n < |EncodeAll(fs)| - |EncodeAll(fs[k..])| + |Encode(fs[k])|
    ensures Arrived(fs, n) == k
    decreases |fs|
  {
    hide Encode;
    if k > 0 {
      assert fs[1..][k - 1..] == fs[k..];
      ShorterRest(fs[1..], k - 1);
      ArrivedIs(fs[1..], k - 1, n - |Encode(fs[0])|);
    } else {
      assert fs[0..] == fs;
    }
  }

  lemma {:induction false} ShorterRest(fs: seq<Frame>, k: nat)
    requires AllFit(fs) && k <= |fs|
    ensures |EncodeAll(fs[k..])| <= |EncodeAll(fs)|
  {
    hide Encode;
    if k > 0 {
      assert fs[1..][k - 1..] == fs[k..];
      ShorterRest(fs[1..], k - 1);
    } else {
      assert fs[0..] == fs;
    }
  }

  class Connection {
    var ibuf: array<byte>
    var ilen: nat
    var open: bool

    // The network: octets sent but not yet received, and how they will arrive.
    var inFlight: seq<byte>
    var polls: seq<Poll>

    // Every frame the server sends, and how many have left the buffer.
    ghost const sent: seq<Frame>
    ghost var taken: nat

    /** The buffer always starts on a frame boundary. */
    ghost predicate Valid()
      reads this, ibuf
    {
      && ibuf.Length == IBUF_SIZE && ilen <= IBUF_SIZE
      && taken <= |sent| && AllFit(sent)
      && ibuf[..ilen] + inFlight == EncodeAll(sent[taken..])
    }

    /** What is buffered is less than the next frame. */
    ghost predicate AllTaken()
      requires Valid()
      reads this, ibuf
    {
      taken == |sent| || ilen < |Encode(sent[taken])|
    }

    constructor (ghost frames: seq<Frame>, octets: seq<byte>, polls: seq<Poll>)
      requires AllFit(frames) && octets == EncodeAll(frames)
      ensures Valid() && open && fresh(ibuf) && sent == frames && taken == 0
      ensures inFlight == octets && this.polls == polls
    {
      ibuf := new byte[IBUF_SIZE];
      ilen, open, inFlight, this.polls := 0, true, octets, polls;
      sent, taken := frames, 0;
      new;
      assert sent[0..] == sent && ibuf[..0] + inFlight == inFlight;
    }

    /** Drop a parsed frame from the front of the buffer. */
    method Consume(frameLen: nat)
      requires Valid() && taken < |sent|
      requires frameLen == |Encode(sent[taken])| <= ilen
      modifies this`ilen, this`taken, ibuf
      ensures Valid() && taken == old(taken) + 1 && ilen == old(ilen) - frameLen
    {
      hide Encode, EncodeAll, AllFit;
      ghost var buf := ibuf[..ilen];
      AfterFrame(buf, inFlight, sent, taken);
      forall i | 0 <= i < ilen - frameLen { ibuf[i] := ibuf[i + frameLen]; }
      ilen := ilen - frameLen;
      taken := taken + 1;
      assert ibuf[..ilen] == buf[frameLen..];
    }

    /** Append what recv() hands over: at most the room left in the buffer. */
    method Receive(n: nat)
      requires Valid() && ilen < IBUF_SIZE && 1 <= n <= |inFlight|
      modifies this`ilen, this`inFlight, ibuf
      ensures Valid() && |inFlight| < |old(inFlight)|
    {
      hide EncodeAll, AllFit;
      var avail := IBUF_SIZE - ilen;
      var count := if n <= avail then n else avail;
      ghost var buf := ibuf[..ilen];
      forall i | 0 <= i < count { ibuf[ilen + i] := inFlight[i]; }
      ilen := ilen + count;
      assert ibuf[..ilen] == buf + inFlight[..count];
      assert inFlight == inFlight[..count] + inFlight[count..];
      inFlight := inFlight[count..];
    }

    /**
     The inner loop: parse frames out of the buffer until a data frame, a close
     frame or an incomplete frame. `r` is -2 when more octets are needed.
     */
    method Drain(outBuf: array<byte>) returns (r: int, ghost heard: seq<seq<byte>>, ghost outcome: Outcome)
      requires Valid() && open && outBuf != ibuf
      modifies this`ilen, this`taken, this`open, ibuf, outBuf
      ensures Valid() && old(taken) <= taken
      ensures Told(sent, old(taken), taken, outBuf.Length, heard, outcome.Dead?)
      ensures match outcome
              case Delivered => open && 0 <= r <= outBuf.Length && heard == (if r > 0 then [outBuf[..r]] else [])
              case Dead(cause) => !open && r == -1 && heard == [] && cause == CloseFrame
              case Idle => open && r == -2 && heard == [] && ilen < IBUF_SIZE && AllTaken()
    {
      hide Encode, EncodeAll, Parse, Told;
      ghost var from := taken;
      ToldNothing(sent, from, outBuf.Length);
      while ilen >= 2
        invariant Valid() && open && from <= taken
        invariant Told(sent, from, taken, outBuf.Length, [], false)
        decreases ilen
      {
        NextFrame(ibuf[..ilen], inFlight, sent[taken..]);
        var payload := new byte[PBUF_SIZE];
        var parsed, frameLen, opcode, payLen := ParseInto(ibuf, ilen, payload);
        if parsed < 0 { assert false; }
        if parsed == 0 { break; }
        heard := HeardOf(sent[taken], outBuf.Length);
        ToldOne(sent, taken, outBuf.Length);
        ToldJoin(sent, from, taken, taken + 1, outBuf.Length, [], heard, sent[taken].opcode == CLOSE);
        assert [] + heard == heard;
        Consume(frameLen);
        if opcode == CLOSE {
          open := false;
          return -1, heard, Dead(CloseFrame);
        }
        if opcode == PING || opcode == PONG { continue; }
        if payLen > outBuf.Length { payLen := outBuf.Length; }
        forall i | 0 <= i < payLen { outBuf[i] := payload[i]; }
        assert outBuf[..payLen] == sent[taken - 1].payload[..payLen];
        return payLen, heard, Delivered;
      }
      NextFrame(ibuf[..ilen], inFlight, sent[taken..]);
      if taken < |sent| { AtLeastTwo(sent[taken]); }
      return -2, [], Idle;
    }

    /** `WsRead`. */
    method Read(outBuf: array<byte>, timeoutMs: int) returns (r: int, ghost outcome: Outcome)
      requires Valid() && outBuf != ibuf
      modifies this, ibuf, outBuf
      ensures Valid() && ibuf == old(ibuf) && -1 <= r <= outBuf.Length
      ensures Told(sent, old(taken), taken, outBuf.Length, if r > 0 then [outBuf[..r]] else [],
                outcome == Dead(CloseFrame))
      ensures match outcome
              case Delivered => r >= 0 && open
              case Idle => r == 0 && open && AllTaken()
              case Dead(cause) => r == -1 && !open && cause != BadFrame && cause != BufferFull
      ensures timeoutMs == 0 ==> inFlight == old(inFlight)
    {
      hide Encode, EncodeAll, AllFit, Told;
      ToldNothing(sent, taken, outBuf.Length);
      if !open { return -1, Dead(NotOpen); }
      ghost var from := taken;
      while true
        invariant Valid() && open && ibuf == old(ibuf)
        invariant Told(sent, from, taken, outBuf.Length, [], false)
        invariant timeoutMs == 0 ==> inFlight == old(inFlight)
        decreases |polls|
      {
        ghost var before := taken;
        ghost var heard;
        r, heard, outcome := Drain(outBuf);
        ToldJoin(sent, from, before, taken, outBuf.Length, [], heard, outcome.Dead?);
        assert [] + heard == heard;
        if r != -2 { return; }
        if polls == [] || (timeoutMs >= 0 && (timeoutMs == 0 || polls[0].expired)) {
          return 0, Idle;
        }
        var poll := polls[0];
        polls := polls[1..];
        if IBUF_SIZE - ilen <= 0 { assert false; }
        if poll.recv.Octets? && poll.recv.n > 0 && inFlight != [] {
          Receive(if poll.recv.n <= |inFlight| then poll.recv.n else |inFlight|);
          continue;
        }
        if poll.recv.Gone? {
          open := false;
          return -1, Dead(PeerGone);
        }
        if poll.dropped {
          open := false;
          return -1, Dead(Dropped);
        }
      }
    }
  }

  /** The frames before the first close frame. */
  function UntilClose(fs: seq<Frame>): (r: seq<Frame>) {
    if fs == [] || fs[0].opcode == CLOSE then [] else [fs[0]] + UntilClose(fs[1..])
  }

  lemma {:induction false} UntilCloseAt(fs: seq<Frame>, k: nat)
    requires k <= |fs| && NoClose(fs[..k])
    ensures UntilClose(fs) == fs[..k] + UntilClose(fs[k..])
  {
    if k > 0 {
      assert fs[1..][..k - 1] == fs[..k][1..] && fs[1..][k - 1..] == fs[k..];
      assert fs[..k][0] == fs[0];
      UntilCloseAt(fs[1..], k - 1);
    } else {
      assert fs[0..] == fs;
    }
  }

  lemma ToldFromStart(fs: seq<Frame>, to: nat, size: nat, heard: seq<seq<byte>>, closed: bool)
    requires Told(fs, 0, to, size, heard, closed)
    ensures heard <= Heard(UntilClose(fs), size)
    ensures closed || to == |fs| ==> heard == Heard(UntilClose(fs), size)
  {
    var k := if closed then to - 1 else to;
    UntilCloseAt(fs, k) by { assert fs[0..k] == fs[..k]; }
    HeardConcat(fs[..k], UntilClose(fs[k..]), size);
    assert fs[0..to] == fs[..to];
    if closed {
      assert fs[..to] == fs[..k] + [fs[k]];
      HeardConcat(fs[..k], [fs[k]], size);
      assert HeardOf(fs[k], size) == [] && Heard([fs[k]], size) == [] + Heard([fs[k]][1..], size);
      assert UntilClose(fs[k..]) == [];
    } else if to == |fs| {
      assert fs[to..] == [];
    }
  }

  lemma InFlightPart(fs: seq<Frame>, taken: nat, buf: seq<byte>, inFlight: seq<byte>)
    requires AllFit(fs) && taken <= |fs| && buf + inFlight == EncodeAll(fs[taken..])
    ensures |EncodeAll(fs)| - |inFlight| == |EncodeAll(fs)| - |EncodeAll(fs[taken..])| + |buf|
    ensures |inFlight| <= |EncodeAll(fs)|
    ensures taken == |fs| ==> buf == [] && inFlight == []
    ensures inFlight == [] && taken < |fs| ==> |buf| >= |Encode(fs[taken])|
  {
    hide Encode;
    ShorterRest(fs, taken);
  }

  lemma ToldSoFar(fs: seq<Frame>, to: nat, size: nat, heard: seq<seq<byte>>, closed: bool)
    requires Told(fs, 0, to, size, heard, closed)
    ensures heard == Heard(fs[..to], size)
  {
    assert fs[0..to] == fs[..to];
  }

  /**
   Successive `WsRead` calls on one connection, for every way the octets arrive:
   they return the data payloads before the first close frame, in order and each
   once. The framing-error and buffer-full teardowns do not happen.
   */
  method Session(ghost frames: seq<Frame>, octets: seq<byte>, polls: seq<Poll>, size: nat, timeouts: seq<int>)
    returns (got: seq<seq<byte>>, left: nat, ghost last: Outcome)
    requires AllFit(frames) && octets == EncodeAll(frames)
    ensures got <= Heard(UntilClose(frames), size)
    ensures last == Dead(CloseFrame) || (last == Idle && left == 0) ==> got == Heard(UntilClose(frames), size)
    ensures left <= |octets|
    ensures last == Idle ==> got == Heard(frames[..Arrived(frames, |octets| - left)], size)
    ensures last.Dead? ==> last.cause != BadFrame && last.cause != BufferFull
  {
    hide EncodeAll, AllFit, Told, Heard, UntilClose;
    var c := new Connection(frames, octets, polls);
    var outBuf := new byte[size];
    got, last := [], Delivered;
    ToldNothing(frames, 0, size);
    var i := 0;
    while i < |timeouts| && c.open
      invariant c.Valid() && fresh(c) && fresh(c.ibuf) && fresh(outBuf) && outBuf != c.ibuf && c.sent == frames
      invariant c.open <==> !last.Dead?
      invariant Told(frames, 0, c.taken, size, got, last == Dead(CloseFrame))
      invariant last == Idle ==> c.AllTaken()
      invariant last.Dead? ==> last.cause != BadFrame && last.cause != BufferFull
      decreases |timeouts| - i
    {
      ghost var before, heard := c.taken, got;
      var r;
      r, last := c.Read(outBuf, timeouts[i]);
      if r > 0 { got := got + [outBuf[..r]]; }
      ghost var more := if r > 0 then [outBuf[..r]] else [];
      ToldJoin(frames, 0, before, c.taken, size, heard, more, last == Dead(CloseFrame));
      assert got == heard + more;
      i := i + 1;
    }
    left := |c.inFlight|;
    ghost var n := |octets| - left;
    InFlightPart(frames, c.taken, c.ibuf[..c.ilen], c.inFlight);
    if last == Idle { ArrivedIs(frames, c.taken, n); }
    ToldSoFar(frames, c.taken, size, got, last == Dead(CloseFrame));
    ToldFromStart(frames, c.taken, size, got, last == Dead(CloseFrame));
  }
}
