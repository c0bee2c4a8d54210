/**
 The streaming SHA-1 of the MT4 WebSocket DLL (ea/mt4-ws-dll/src/ws_dll.cpp)
 against RFC 3174: padding in section 4, block-by-block digest in section 6.1.
 The compression function is a parameter, so every result holds for each one.
 */
module Sha1 {
  import opened Bytes

  const BLOCK := 64
  const WORD := 0x1_0000_0000

  type word = x: int | 0 <= x < WORD
  type Digest = s: seq<word> | |s| == 5 witness [0, 0, 0, 0, 0]
  type Compress = (Digest, seq<byte>) -> Digest

  const INITIAL: Digest := [0x67452301, 0xEFCDAB89, 0x98BADCFE, 0x10325476, 0xC3D2E1F0]

  /** The initial words of section 6.1 of RFC 3174: the octets 01 23 45 67 and so on, each word least octet first. */
  lemma InitialOctets(k: nat)
    requires k < 5
    ensures var w := [[0x01, 0x23, 0x45, 0x67], [0x89, 0xAB, 0xCD, 0xEF], [0xFE, 0xDC, 0xBA, 0x98],
                      [0x76, 0x54, 0x32, 0x10], [0xF0, 0xE1, 0xD2, 0xC3]][k];
            INITIAL[k] as int == w[0] + 256 * (w[1] + 256 * (w[2] + 256 * w[3]))
  {
  }

  /** Run the whole blocks of `m` through the compression function. */
  function Fold(f: Compress, s: Digest, m: seq<byte>): (r: Digest)
    decreases |m|
  {
    if |m| < BLOCK then s else Fold(f, f(s, m[..BLOCK]), m[BLOCK..])
  }

  lemma {:induction false} FoldConcat(f: Compress, s: Digest, a: seq<byte>, b: seq<byte>)
    requires |a| % BLOCK == 0
    ensures Fold(f, s, a + b) == Fold(f, Fold(f, s, a), b)
    decreases |a|
  {
    if a == [] {
      assert a + b == b;
    } else {
      FoldConcat(f, f(s, a[..BLOCK]), a[BLOCK..], b);
      assert (a + b)[..BLOCK] == a[..BLOCK] && (a + b)[BLOCK..] == a[BLOCK..] + b;
    }
  }

  function Zeros(n: nat): (s: seq<byte>)
    ensures |s| == n
  {
    seq(n, _ => 0)
  }

  /** How many zero octets bring `n` octets, 0x80 and the length to whole blocks. */
  function PadZeros(n: nat): (k: nat) {
    (119 - n % BLOCK) % BLOCK
  }

  /** Section 4 of RFC 3174: 0x80, the fewest zeros, and the 64-bit bit count. */
  function Padded(m: seq<byte>): (r: seq<byte>) {
    m + [0x80] + Zeros(PadZeros(|m|)) + BeBytes(8 * |m|, 8)
  }

  /** What is hashed: the message, the octet 80, zeros, and the length in bits as eight octets, in whole blocks. */
  lemma PaddedOctets(m: seq<byte>)
    requires 8 * |m| < Pow256(8)
    ensures var p, n := Padded(m), |m|;
            && |p| % 64 == 0 && n + 9 <= |p| < n + 73 && m <= p && p[n] == 0x80
            && (forall i :: n < i < |p| - 8 ==> p[i] == 0) && BeValue(p[|p| - 8..]) == 8 * n
  {
    hide BeBytes, BeValue;
    PadZerosLeast(|m|, 0);
    var p := Padded(m);
    assert p[|p| - 8..] == BeBytes(8 * |m|, 8);
    BeRoundTrip(8 * |m|, 8);
  }

  /** `PadZeros` is the least count that fills the last block. */
  lemma PadZerosLeast(n: nat, k: nat)
    ensures (n + 1 + PadZeros(n) + 8) % BLOCK == 0
    ensures (n + 1 + k + 8) % BLOCK == 0 ==> PadZeros(n) <= k
  {
  }

  /** The octets of a sequence of words, most significant first. */
  function WordOctets(s: seq<word>): (r: seq<byte>) {
    if s == [] then [] else WordOctets(s[..|s| - 1]) + BeBytes(s[|s| - 1], 4)
  }

  /** The digest RFC 3174 defines. */
  function Hash(f: Compress, m: seq<byte>): (r: seq<byte>) {
    WordOctets(Fold(f, INITIAL, Padded(m)))
  }

  /** The digest's octets are its words', most significant first. */
  lemma {:induction false} DigestOctets(s: seq<word>, j: nat)
    requires j < |s|
    ensures |WordOctets(s)| == 4 * |s| && BeValue(WordOctets(s)[4 * j..4 * j + 4]) == s[j]
  {
    hide BeBytes, BeValue;
    var n := |s| - 1;
    var before, last := WordOctets(s[..n]), BeBytes(s[n], 4);
    assert n > 0 ==> |before| == 4 * n by { if n > 0 { DigestOctets(s[..n], 0); } }
    assert n == 0 ==> before == [] by { if n == 0 { assert s[..n] == []; } }
    assert WordOctets(s) == before + last;
    if j < n {
      DigestOctets(s[..n], j);
      assert WordOctets(s)[4 * j..4 * j + 4] == before[4 * j..4 * j + 4];
    } else {
      assert WordOctets(s)[4 * j..4 * j + 4] == last;
      Pow256Of4();
      BeRoundTrip(s[n], 4);
    }
  }

  lemma Pow256Of4()
    ensures Pow256(4) == WORD
  {
    assert Pow256(2) == 0x1_0000;
  }

  const OCTETS := 0x2000_0000 // a word counts this many octets, in bits

  /** The bit counter `c[1]:c[0]` is 8n modulo 2^64. */
  predicate Counts(c0: word, c1: word, n: nat) {
    c0 == 8 * (n % OCTETS) && c1 == n / OCTETS % WORD
  }

  lemma CountsBlock(c0: word, c1: word, n: nat)
    requires Counts(c0, c1, n)
    ensures c0 / 8 % BLOCK == n % BLOCK
  {
    var r := n % OCTETS;
    assert c0 / 8 == r by { EightTimes(r); }
    Remainder(n / OCTETS, r);
  }

  lemma EightTimes(r: nat)
    ensures 8 * r / 8 == r
  {
  }

  lemma Remainder(q: nat, r: nat)
    ensures (q * OCTETS + r) % BLOCK == r % BLOCK
  {
    assert q * OCTETS + r == q * 0x80_0000 * BLOCK + r;
    WholeBlocks(q * 0x80_0000, r);
  }

  lemma WholeBlocks(k: nat, r: nat)
    ensures (k * BLOCK + r) % BLOCK == r % BLOCK
  {
  }

  /** The padding loop stops after exactly `PadZeros` zero octets. */
  lemma PadStops(n: nat, zeros: nat)
    requires zeros <= PadZeros(n)
    ensures (n + 1 + zeros) % BLOCK == 56 <==> zeros == PadZeros(n)
  {
    hide PadZeros;
    var r := n % BLOCK;
    ZerosFor(n);
    WholeBlocks(n / BLOCK, r + 1 + zeros);
  }

  lemma ZerosFor(n: nat)
    ensures var r := n % BLOCK; PadZeros(n) == if r < 56 then 55 - r else 119 - r
  {
  }

  lemma LowBits(n: nat)
    ensures 8 * n % WORD == 8 * (n % OCTETS)
  {
  }

  /** The carry test of `sha1_update` keeps the two-word counter exact. */
  lemma CounterStep(c0: word, c1: word, n: nat, len: nat)
    requires Counts(c0, c1, n)
    ensures var low := (c0 + 8 * len % WORD) % WORD;
            var carry := if low < 8 * len % WORD then 1 else 0;
            Counts(low, ((c1 + carry) % WORD + len / OCTETS) % WORD, n + len)
  {
    LowBits(len);
    SumParts(n, len);
    var carry := if n % OCTETS + len % OCTETS >= OCTETS then 1 else 0;
    AddMod(n / OCTETS, c1, carry);
    AddMod(n / OCTETS + carry, (c1 + carry) % WORD, len / OCTETS);
  }

  lemma SumParts(n: nat, len: nat)
    ensures var r, v := n % OCTETS, len % OCTETS;
            var carry := if r + v >= OCTETS then 1 else 0;
            && (n + len) / OCTETS == n / OCTETS + carry + len / OCTETS
            && (n + len) % OCTETS == r + v - carry * OCTETS
  {
  }

  lemma AddMod(q: int, c: int, d: int)
    requires c == q % WORD
    ensures (c + d) % WORD == (q + d) % WORD
  {
  }

  /** The four low octets of `n`, shifted out eight bits at a time. */
  function Four(n: nat): (r: seq<byte>) {
    [n / 256 / 256 / 256 % 256, n / 256 / 256 % 256, n / 256 % 256, n % 256]
  }

  lemma LastFour(n: nat, k: nat)
    ensures BeBytes(n, k + 4) == BeBytes(n / WORD, k) + Four(n)
  {
    var a, b, c := n / 256, n / 256 / 256, n / 256 / 256 / 256;
    assert c / 256 == n / WORD;
    calc {
      BeBytes(n, k + 4);
      BeBytes(a, k + 3) + [n % 256];
      BeBytes(b, k + 2) + [a % 256] + [n % 256];
      BeBytes(c, k + 1) + [b % 256] + [a % 256] + [n % 256];
      BeBytes(c / 256, k) + [c % 256] + [b % 256] + [a % 256] + [n % 256];
    }
  }

  lemma OneWord(n: nat)
    ensures BeBytes(n, 4) == Four(n)
  {
    LastFour(n, 0);
  }

  lemma FourOfRemainder(n: nat)
    ensures Four(n % WORD) == Four(n)
  {
    var q, r := n / WORD, n % WORD;
    assert n / 256 == 0x100_0000 * q + r / 256;
    assert n / 256 / 256 == 0x1_0000 * q + r / 256 / 256;
    assert n / 256 / 256 / 256 == 256 * q + r / 256 / 256 / 256;
  }

  /** The eight length octets of `sha1_final` are the 64-bit bit count. */
  lemma LengthOctets(c0: word, c1: word, n: nat)
    requires Counts(c0, c1, n)
    ensures Four(c1) + Four(c0) == BeBytes(8 * n, 8)
  {
    var high := 8 * n / WORD;
    assert high == n / OCTETS;
    LastFour(8 * n, 4);
    OneWord(high);
    FourOfRemainder(high);
    FourOfRemainder(8 * n);
    LowBits(n);
  }

  /** `s` has seen the whole blocks of `msg`, and `pending` is the rest. */
  ghost predicate InSync(f: Compress, s: Digest, pending: seq<byte>, msg: seq<byte>) {
    var whole := |msg| / BLOCK * BLOCK;
    s == Fold(f, INITIAL, msg[..whole]) && pending == msg[whole..]
  }

  lemma Split(f: Compress, s: Digest, pending: seq<byte>, msg: seq<byte>) returns (done: seq<byte>)
    requires InSync(f, s, pending, msg)
    ensures msg == done + pending && |done| % BLOCK == 0 && s == Fold(f, INITIAL, done)
  {
    done := msg[..|msg| / BLOCK * BLOCK];
  }

  lemma Joined(f: Compress, done: seq<byte>, pending: seq<byte>)
    requires |done| % BLOCK == 0 && |pending| < BLOCK
    ensures InSync(f, Fold(f, INITIAL, done), pending, done + pending)
    ensures |done + pending| % BLOCK == |pending|
  {
    hide Fold;
    var msg := done + pending;
    assert |msg| / BLOCK * BLOCK == |done|;
    assert msg[..|done|] == done && msg[|done|..] == pending;
  }

  class Context {
    const compress: Compress
    var s: Digest
    var c0: word
    var c1: word
    const buf: array<byte>
    ghost var msg: seq<byte>

    /** The state is that of the octets given so far, however they were cut. */
    ghost predicate Valid()
      reads this, buf
    {
      && buf.Length == BLOCK
      && Counts(c0, c1, |msg|)
      && InSync(compress, s, buf[..|msg| % BLOCK], msg)
    }

    /** `sha1_init`. */
    constructor (f: Compress)
      ensures Valid() && fresh(buf) && compress == f && msg == []
    {
      compress := f;
      s, c0, c1 := INITIAL, 0, 0;
      buf := new byte[BLOCK];
      msg := [];
    }

    /** `sha1_update`. */
    method Update(d: seq<byte>)
      requires Valid() && |d| + BLOCK <= WORD
      modifies this, buf
      ensures Valid() && msg == old(msg) + d
    {
      hide Counts, InSync;
      var j := c0 / 8 % BLOCK;
      CountsBlock(c0, c1, |msg|);
      Count(|d|);
      Absorb(d, j);
    }

    /** The counter part of `sha1_update`. */
    method Count(len: nat)
      requires Counts(c0, c1, |msg|)
      modifies this`c0, this`c1
      ensures Counts(c0, c1, |msg| + len)
    {
      hide Counts;
      CounterStep(c0, c1, |msg|, len);
      var bits := 8 * len % WORD;
      c0 := (c0 + bits) % WORD;
      if c0 < bits { c1 := (c1 + 1) % WORD; }
      c1 := (c1 + len / OCTETS) % WORD;
    }

    /** The second memcpy of `sha1_update`. */
    method Stash(tail: seq<byte>, j: nat)
      requires j + |tail| < BLOCK == buf.Length
      modifies buf
      ensures buf[..j + |tail|] == old(buf[..j]) + tail
    {
      forall k | 0 <= k < |tail| { buf[j + k] := tail[k]; }
    }

    /** The compression calls of `sha1_update`: the block in `buf`, then blocks of `d`. */
    method Blocks(d: seq<byte>, j: nat, ghost before: seq<byte>) returns (i: nat, ghost done: seq<byte>)
      requires buf.Length == BLOCK && j < BLOCK && j + |d| > 63
      requires |before| % BLOCK == 0 && s == Fold(compress, INITIAL, before)
      modifies this`s, buf
      ensures i <= |d| < i + BLOCK
      ensures done == before + old(buf[..j]) + d[..i]
      ensures |done| % BLOCK == 0 && s == Fold(compress, INITIAL, done)
    {
      hide Fold;
      i := BLOCK - j;
      ghost var pending := buf[..j];
      forall k | 0 <= k < i { buf[j + k] := d[k]; }
      ghost var first := pending + d[..i];
      assert buf[..] == first;
      FoldOne(compress, before, first);
      s := compress(s, buf[..]);
      done := before + first;
      Regroup(before, first, j);
      while i + 63 < |d|
        invariant BLOCK - j <= i <= |d|
        invariant |done| % BLOCK == 0 && done == before + pending + d[..i]
        invariant s == Fold(compress, INITIAL, done)
      {
        var block := d[i..i + BLOCK];
        FoldOne(compress, done, block);
        Longer(before + pending, d, i);
        s := compress(s, block);
        done := done + block;
        i := i + BLOCK;
      }
    }

    /** The block part of `sha1_update`, with `j` octets pending. */
    method Absorb(d: seq<byte>, j: nat)
      requires buf.Length == BLOCK && Counts(c0, c1, |msg| + |d|)
      requires j == |msg| % BLOCK && InSync(compress, s, buf[..j], msg)
      modifies this`s, this`msg, buf
      ensures Valid() && msg == old(msg) + d
    {
      hide Counts, Fold, InSync;
      ghost var pending := buf[..j];
      ghost var done := Split(compress, s, pending, msg);
      if j + |d| > 63 {
        var i;
        ghost var before := done;
        i, done := Blocks(d, j, before);
        Stash(d[i..], 0);
        pending := d[i..];
        assert buf[..|pending|] == pending;
        Regroup(msg, d, i);
      } else {
        Stash(d, j);
        assert msg + d == done + (pending + d);
        pending := pending + d;
      }
      Joined(compress, done, pending);
      msg := msg + d;
    }

    /** The padding loop of `sha1_final`. */
    method Pad()
      requires Valid()
      modifies this, buf
      ensures Valid() && msg == old(msg) + [0x80] + Zeros(PadZeros(|old(msg)|))
    {
      hide InSync, Counts, PadZeros;
      ghost var m := msg;
      Update([0x80]);
      ghost var zeros := 0;
      CountsBlock(c0, c1, |msg|);
      PadStops(|m|, zeros);
      while c0 / 8 % BLOCK != 56
        invariant Valid() && msg == m + [0x80] + Zeros(zeros)
        invariant zeros <= PadZeros(|m|)
        invariant c0 / 8 % BLOCK == 56 <==> zeros == PadZeros(|m|)
        decreases PadZeros(|m|) - zeros
      {
        Update([0]);
        zeros := zeros + 1;
        assert Zeros(zeros) == Zeros(zeros - 1) + [0];
        CountsBlock(c0, c1, |msg|);
        PadStops(|m|, zeros);
      }
    }

    /** `sha1_final`. */
    method Final() returns (out: seq<byte>)
      requires Valid()
      modifies this, buf
      ensures out == Hash(compress, old(msg))
    {
      hide Counts, BeBytes, Fold, PadZeros, Four;
      ghost var m := msg;
      var fc := Four(c1) + Four(c0);
      LengthOctets(c0, c1, |m|);
      Pad();
      Update(fc);
      assert msg == Padded(m);
      PaddedWhole(m);
      assert buf[..0] == [];
      ghost var done := Split(compress, s, [], msg);
      assert done == Padded(m);
      var words := s;
      out := [];
      for i := 0 to 5
        invariant out == WordOctets(words[..i])
      {
        OneWord(words[i]);
        assert words[..i + 1][..i] == words[..i];
        out := out + Four(words[i]);
      }
      assert words[..5] == words;
    }
  }

  lemma Regroup(a: seq<byte>, d: seq<byte>, i: nat)
    requires i <= |d|
    ensures a + d == a + d[..i] + d[i..]
  {
    assert d == d[..i] + d[i..];
  }

  lemma Longer(a: seq<byte>, d: seq<byte>, i: nat)
    requires i + BLOCK <= |d|
    ensures a + d[..i + BLOCK] == a + d[..i] + d[i..i + BLOCK]
  {
    assert d[..i + BLOCK] == d[..i] + d[i..i + BLOCK];
  }

  lemma PaddedWhole(m: seq<byte>)
    ensures |Padded(m)| % BLOCK == 0
  {
    hide BeBytes;
  }

  lemma FoldOne(f: Compress, done: seq<byte>, block: seq<byte>)
    requires |done| % BLOCK == 0 && |block| == BLOCK
    ensures Fold(f, INITIAL, done + block) == f(Fold(f, INITIAL, done), block)
    ensures |done + block| % BLOCK == 0
  {
    FoldConcat(f, INITIAL, done, block);
    var s := Fold(f, INITIAL, done);
    assert block[..BLOCK] == block;
    assert Fold(f, s, block) == Fold(f, f(s, block), block[BLOCK..]);
  }

  function Flatten(chunks: seq<seq<byte>>): (r: seq<byte>) {
    if chunks == [] then [] else Flatten(chunks[..|chunks| - 1]) + chunks[|chunks| - 1]
  }

  /** Any sequence of `sha1_update` calls, then `sha1_final`: only the octets matter. */
  method HashChunks(f: Compress, chunks: seq<seq<byte>>) returns (out: seq<byte>)
    requires forall i :: 0 <= i < |chunks| ==> |chunks[i]| + BLOCK <= WORD
    ensures out == Hash(f, Flatten(chunks))
  {
    var ctx := new Context(f);
    for i := 0 to |chunks|
      invariant fresh(ctx) && fresh(ctx.buf) && ctx.Valid() && ctx.compress == f
      invariant ctx.msg == Flatten(chunks[..i])
    {
      ctx.Update(chunks[i]);
      assert chunks[..i + 1][..i] == chunks[..i];
    }
    assert chunks[..|chunks|] == chunks;
    out := ctx.Final();
  }
}
