/** Octets, big-endian numbers and the exclusive or that WebSocket masking uses. */
module Bytes {

  type byte = x: int | 0 <= x < 256

  /** Exclusive or, bit by bit from the least significant. */
  function XorNat(a: nat, b: nat): (r: nat)
    decreases a + b
  {
    if a == 0 && b == 0 then 0 else (a + b) % 2 + 2 * XorNat(a / 2, b / 2)
  }

  lemma {:induction false} XorNatBound(a: nat, b: nat, bits: nat)
    requires a < Pow2(bits) && b < Pow2(bits)
    ensures XorNat(a, b) < Pow2(bits)
    decreases bits
  {
    if bits > 0 { XorNatBound(a / 2, b / 2, bits - 1); }
  }

  function Pow2(n: nat): (r: nat) {
    if n == 0 then 1 else 2 * Pow2(n - 1)
  }

  function Xor(a: byte, b: byte): (r: byte) {
    XorNatBound(a, b, 8);
    XorNat(a, b)
  }

  lemma {:induction false} XorNatTwice(a: nat, b: nat)
    ensures XorNat(XorNat(a, b), b) == a
    decreases a + b
  {
    hide XorNat;
    var x, high := XorNat(a, b), XorNat(a / 2, b / 2);
    XorStep(a, b);
    if a + b > 0 {
      Parity(a, b, high);
      XorStep(x, b);
      XorNatTwice(a / 2, b / 2);
    }
  }

  lemma XorStep(a: nat, b: nat)
    ensures XorNat(a, b) == (a + b) % 2 + 2 * XorNat(a / 2, b / 2)
  {
  }

  /** Both parts of an exclusive or can be read off it. */
  lemma Parity(a: nat, b: nat, high: nat)
    ensures var x := (a + b) % 2 + 2 * high; x / 2 == high && (x + b) % 2 == a % 2
  {
    var low := (a + b) % 2;
    assert (low + 2 * high) / 2 == high;
    EvenPart(low + b, high);
    EvenPart(a, b);
    assert (low + b) % 2 == (a + 2 * b) % 2;
  }

  lemma EvenPart(n: nat, k: nat)
    ensures (n + 2 * k) % 2 == n % 2
  {
  }

  function Bit(n: nat, k: nat): (b: nat) {
    if k == 0 then n % 2 else Bit(n / 2, k - 1)
  }

  /** A bit of an exclusive or is set exactly when the two bits it comes from differ. */
  lemma {:induction false} XorBits(a: nat, b: nat, k: nat)
    ensures Bit(XorNat(a, b), k) == if Bit(a, k) == Bit(b, k) then 0 else 1
    decreases k
  {
    hide XorNat;
    XorStep(a, b);
    var low, high := (a + b) % 2, XorNat(a / 2, b / 2);
    assert (low + 2 * high) / 2 == high && (low + 2 * high) % 2 == low;
    if k > 0 { XorBits(a / 2, b / 2, k - 1); }
  }

  lemma XorBit(a: byte, b: byte, k: nat)
    ensures Bit(Xor(a, b), k) == if Bit(a, k) == Bit(b, k) then 0 else 1
  {
    XorBits(a, b, k);
  }

  /** Masking twice with the same byte restores it (section 5.3 of RFC 6455). */
  lemma XorTwice(a: byte, b: byte)
    ensures Xor(Xor(a, b), b) == a
  {
    XorNatTwice(a, b);
  }

  /** The number whose big-endian digits in base 256 are `s`. */
  function BeValue(s: seq<byte>): (n: nat) {
    if s == [] then 0 else BeValue(s[..|s| - 1]) * 256 + s[|s| - 1]
  }

  lemma BeAppend(s: seq<byte>, b: byte)
    ensures BeValue(s + [b]) == BeValue(s) * 256 + b
  {
    assert (s + [b])[..|s|] == s;
  }

  /** The low `k` big-endian octets of `n`. */
  function BeBytes(n: nat, k: nat): (s: seq<byte>)
    ensures |s| == k
    decreases k
  {
    if k == 0 then [] else BeBytes(n / 256, k - 1) + [n % 256]
  }

  function Pow256(k: nat): (r: nat)
    ensures r > 0
  {
    if k == 0 then 1 else 256 * Pow256(k - 1)
  }

  lemma {:induction false} BeRoundTrip(n: nat, k: nat)
    requires n < Pow256(k)
    ensures BeValue(BeBytes(n, k)) == n
    decreases k
  {
    if k > 0 {
      BeRoundTrip(n / 256, k - 1);
      assert BeBytes(n, k)[..k - 1] == BeBytes(n / 256, k - 1);
    }
  }
}
