/**
 * Fixed-width machine integers of the driver (uint8_t, uint16_t, uint32_t) as
 * subsets of int, and the bit operations the driver applies to them, written
 * arithmetically: a mask `x & (2^k - 1)` is `x % 2^k`, a right shift `x >> k`
 * is `x / 2^k`, the cast `(uint8_t)x` keeps the low eight bits, and `|` is
 * the bitwise OR of two naturals, defined bit by bit.
 */
module Bytes {

  type Byte = x: int | 0 <= x < 0x100
  type U16 = x: int | 0 <= x < 0x1_0000
  type U32 = x: int | 0 <= x < 0x1_0000_0000

  function Pow2(k: nat): (p: nat)
    ensures p >= 1
  {
    if k == 0 then 1 else 2 * Pow2(k - 1)
  }

  /** The C cast `(uint8_t)x`: the low eight bits of x. */
  function Low8(x: nat): Byte {
    x % 0x100
  }

  /** Bitwise OR of two naturals, least significant bit first. */
  function Or(a: nat, b: nat): nat
    decreases a + b
  {
    if a == 0 && b == 0 then 0
    else 2 * Or(a / 2, b / 2) + (if a % 2 == 1 || b % 2 == 1 then 1 else 0)
  }

  /** Big-endian reading of two bytes. */
  function Be16(s: seq<Byte>): nat
    requires |s| == 2
  {
    s[0] as int * 0x100 + s[1]
  }

  /** Big-endian reading of four bytes. */
  function Be32(s: seq<Byte>): nat
    requires |s| == 4
  {
    s[0] as int * 0x100_0000 + s[1] as int * 0x1_0000 + s[2] as int * 0x100 + s[3]
  }

  /** OR with zero is the identity, on either side. */
  lemma {:induction false} OrZero(a: nat)
    ensures Or(a, 0) == a && Or(0, a) == a
    decreases a
  {
    if a != 0 {
      OrZero(a / 2);
    }
  }

  /** OR of two k-bit numbers is a k-bit number. */
  lemma {:induction false} OrBound(a: nat, b: nat, k: nat)
    requires a < Pow2(k) && b < Pow2(k)
    ensures Or(a, b) < Pow2(k)
    decreases k
  {
    if a == 0 && b == 0 {
    } else {
      assert k > 0;
      OrBound(a / 2, b / 2, k - 1);
    }
  }

  /** OR of two bytes is a byte. */
  lemma OrByte(a: Byte, b: Byte)
    ensures Or(a, b) < 0x100
  {
    assert Pow2(8) == 0x100;
    OrBound(a, b, 8);
  }

  /**
   * OR-ing a two-bit value v into a leaves the bits of a above bit 1 alone,
   * and the low two bits become the OR of a's low two bits with v.
   */
  lemma OrLowTwoBits(a: nat, v: nat)
    requires v < 4
    ensures Or(a, v) / 4 == a / 4
    ensures Or(a, v) % 4 == Or(a % 4, v)
  {
    var q, r := a / 4, a % 4;
    var bit0 := if r % 2 == 1 || v % 2 == 1 then 1 else 0;
    var bit1 := if r / 2 == 1 || v / 2 == 1 then 1 else 0;
    assert a / 2 == 2 * q + r / 2 && a % 2 == r % 2;
    assert (a / 2) / 2 == q && (a / 2) % 2 == r / 2;
    OrZero(q);
    OrStep(a / 2, v / 2);
    assert Or(a / 2, v / 2) == 2 * q + bit1;
    OrStep(a, v);
    assert Or(a, v) == 4 * q + (2 * bit1 + bit0);
    OrStep(r / 2, v / 2);
    assert Or(r / 2, v / 2) == bit1;
    OrStep(r, v);
    assert Or(r, v) == 2 * bit1 + bit0;
  }

  /** One step of the bitwise definition, also when both operands are zero. */
  lemma OrStep(a: nat, b: nat)
    ensures Or(a, b) == 2 * Or(a / 2, b / 2) + (if a % 2 == 1 || b % 2 == 1 then 1 else 0)
  {
  }

  /** The low byte of w, taken after masking w to ten bits, is the low byte of w. */
  lemma LowByteOfTenBits(w: nat)
    ensures (w % 0x400) % 0x100 == w % 0x100
  {
    var r := w % 0x400;
    assert w == (w / 0x400) * 0x400 + r;
    assert r == (r / 0x100) * 0x100 + r % 0x100;
    LowByteOf(w, (w / 0x400) * 4 + r / 0x100, r % 0x100);
  }

  /** w written as a multiple of 0x100 plus a byte has that byte as its low byte. */
  lemma LowByteOf(w: int, a: int, b: int)
    requires 0 <= b < 0x100 && w == a * 0x100 + b
    ensures w % 0x100 == b
  {
  }

  /** Splitting a word into bits 15..8 and 7..0 and reading them back gives the word modulo 2^16. */
  lemma Be16Split(w: nat)
    ensures Be16([Low8(w / 0x100), Low8(w)]) == w % 0x1_0000
  {
    var q := w / 0x100;
    assert w == q * 0x100 + w % 0x100;
    var p := q / 0x100;
    assert q == p * 0x100 + q % 0x100;
    assert w == p * 0x1_0000 + (q % 0x100) * 0x100 + w % 0x100;
  }

  /** Splitting a 32-bit word into its four bytes, high byte first, and reading them back gives the word. */
  lemma Be32Split(w: U32)
    ensures Be32([Low8(w / 0x100_0000), Low8(w / 0x1_0000), Low8(w / 0x100), Low8(w)]) == w
  {
    var b0, b1, b2, b3 := w / 0x100_0000, (w / 0x1_0000) % 0x100, (w / 0x100) % 0x100, w % 0x100;
    assert w / 0x100 == (w / 0x1_0000) * 0x100 + b2;
    assert w / 0x1_0000 == b0 * 0x100 + b1;
  }

  /** Euclidean division is unique: a quotient with a remainder in range is the quotient. */
  lemma Quotient(x: int, d: int, q: int, r: int)
    requires 0 < d && 0 <= r < d && x == d * q + r
    ensures x / d == q
  {
    var q', r' := x / d, x % d;
    assert d * (q - q') == r' - r && d * (q' - q) == r - r';
    if q' < q {
      AtLeastOnce(d, q - q');
    } else if q' > q {
      AtLeastOnce(d, q' - q);
    }
  }

  lemma {:induction false} AtLeastOnce(d: int, k: int)
    requires 0 < d && 1 <= k
    ensures d * k >= d
    decreases k
  {
    if k > 1 {
      AtLeastOnce(d, k - 1);
      assert d * k == d * (k - 1) + d;
    }
  }

  /** Halving the even number 2v - 4ek by 2e keeps the parity of v / e. */
  lemma HalfShift(x: int, v: int, e: int, k: int)
    requires 0 < e && x == 2 * v - 4 * e * k
    ensures (x / (2 * e)) % 2 == (v / e) % 2
  {
    var q, r := v / e, v % e;
    assert v == e * q + r;
    assert x == (2 * e) * (q - 2 * k) + 2 * r;
    Quotient(x, 2 * e, q - 2 * k, 2 * r);
    SameParity(q, k);
  }

  lemma SameParity(x: int, k: int)
    ensures (x - 2 * k) % 2 == x % 2
  {
  }
}
