/** hash_32: multiply modulo 2^32 and keep the high bits (lib/hash.h). */
module Hashing {
  import opened Basics

  const GOLDEN_RATIO_32: u32 := 0x61C88647
  const WORD := 0x1_0000_0000
  /** The inverse of GOLDEN_RATIO_32 modulo 2^32. */
  const INVERSE: u32 := 0xEBB34377

  function Pow2(n: nat): (r: nat)
    ensures r > 0
  {
    if n == 0 then 1 else 2 * Pow2(n - 1)
  }

  lemma Double(x: int, y: int)
    ensures (2 * x) * y == 2 * (x * y)
  {
  }

  lemma {:induction false} Pow2Sum(m: nat, n: nat)
    ensures Pow2(m) * Pow2(n) == Pow2(m + n)
  {
    if m > 0 {
      Pow2Sum(m - 1, n);
      Double(Pow2(m - 1), Pow2(n));
    }
  }

  lemma WordIsPow2()
    ensures Pow2(32) == WORD
  {
    Pow2Sum(16, 16);
    Pow2Sum(8, 8);
    assert Pow2(8) == 256;
  }

  lemma Monotonic(x: int, y: int, d: nat)
    requires x <= y
    ensures x * d <= y * d
  {
  }

  lemma Division(x: nat, d: nat)
    requires d > 0
    ensures x / d >= 0 && 0 <= x % d < d
    ensures x == (x / d) * d + x % d
  {
  }

  lemma Quotient(q: nat, r: nat, d: nat)
    requires r < d
    ensures (q * d + r) / d == q && (q * d + r) % d == r
  {
    var x := q * d + r;
    Division(x, d);
    if x / d < q {
      Monotonic(x / d + 1, q, d);
    } else if x / d > q {
      Monotonic(q + 1, x / d, d);
    }
  }

  /** The low 32 bits of a product. */
  function Times(a: u32, b: u32): u32 {
    a * b % WORD
  }

  /** A multiplication, and a right shift by 32 - bits. */
  function Hash32(val: u32, bits: nat): nat
    requires bits <= 32
  {
    Division(Times(val, GOLDEN_RATIO_32), Pow2(32 - bits));
    Times(val, GOLDEN_RATIO_32) / Pow2(32 - bits)
  }

  // ---- the multiplication permutes the 32-bit words

  lemma TimesUnit(a: u32, b: u32, c: u32, q: int)
    requires b * c == q * WORD + 1
    ensures Times(Times(a, b), c) == a
  {
    var n := a * b / WORD;
    var r := Times(a, b);
    assert a * b == n * WORD + r;
    calc {
      r * c;
      (a * b - n * WORD) * c;
      a * b * c - n * WORD * c;
      { assert a * b * c == a * (b * c); }
      a * (q * WORD + 1) - n * WORD * c;
      { Collect(a, q, n, c); }
      (a * q - n * c) * WORD + a;
    }
  }

  lemma Collect(a: int, q: int, n: int, c: int)
    ensures a * (q * WORD + 1) - n * WORD * c == (a * q - n * c) * WORD + a
  {
  }

  /** Multiplying by the constant loses nothing: distinct words have distinct products, and every word is one. */
  lemma ProductPermutes(v: u32)
    ensures Times(Times(v, GOLDEN_RATIO_32), INVERSE) == v
    ensures Times(Times(v, INVERSE), GOLDEN_RATIO_32) == v
  {
    TimesUnit(v, GOLDEN_RATIO_32, INVERSE, 1510444094);
    TimesUnit(v, INVERSE, GOLDEN_RATIO_32, 1510444094);
  }

  /** What the shift throws away. */
  function Rank(val: u32, bits: nat): nat
    requires bits <= 32
  {
    Times(val, GOLDEN_RATIO_32) % Pow2(32 - bits)
  }

  lemma SplitAt(b: int, p: int, d: int, r: int)
    requires 0 <= r < d
    ensures b * d + r < p * d <==> b < p
  {
    if b < p {
      Monotonic(b + 1, p, d);
    } else {
      Monotonic(p, b, d);
    }
  }

  lemma Split(b: int, bits: nat, r: nat)
    requires bits <= 32 && 0 <= r < Pow2(32 - bits)
    ensures b * Pow2(32 - bits) + r < WORD <==> b < Pow2(bits)
  {
    Pow2Sum(bits, 32 - bits);
    WordIsPow2();
    SplitAt(b, Pow2(bits), Pow2(32 - bits), r);
  }

  /** The constant is the golden one: the multiple (3 - sqrt 5) / 2 of 2^32, rounded up. */
  lemma GoldenRatio()
    ensures var y := 3 * 0x1_0000_0000 - 2 * GOLDEN_RATIO_32;
      y > 0 && y * y < 5 * (0x1_0000_0000 * 0x1_0000_0000) < (y + 1) * (y + 1)
  {
  }

  /** The hash is the high `bits` bits of the 32-bit product. */
  lemma HashIsHighBits(v: u32, bits: nat)
    requires bits <= 32
    ensures var d, product := Pow2(32 - bits), v * GOLDEN_RATIO_32 % 0x1_0000_0000;
      Hash32(v, bits) * d <= product < (Hash32(v, bits) + 1) * d
  {
    var d := Pow2(32 - bits);
    Division(Times(v, GOLDEN_RATIO_32), d);
    assert (Hash32(v, bits) + 1) * d == Hash32(v, bits) * d + d;
  }

  /** A hash of `bits` bits indexes a table of 2^bits buckets. */
  lemma HashInRange(v: u32, bits: nat)
    requires bits <= 32
    ensures Hash32(v, bits) < Pow2(bits)
  {
    Division(Times(v, GOLDEN_RATIO_32), Pow2(32 - bits));
    Split(Hash32(v, bits), bits, Rank(v, bits));
  }

  /** The key of a given rank in a given bucket. */
  function KeyOf(bits: nat, b: nat, r: nat): u32
    requires bits <= 32 && b < Pow2(bits) && r < Pow2(32 - bits)
  {
    Split(b, bits, r);
    Times(b * Pow2(32 - bits) + r, INVERSE)
  }

  /** Buckets are perfectly balanced: each of the 2^bits buckets holds exactly one key of each of the 2^(32-bits)
      ranks. */
  lemma BucketsBalanced(bits: nat, b: nat, r: nat, v: u32)
    requires bits <= 32 && b < Pow2(bits) && r < Pow2(32 - bits)
    ensures v == KeyOf(bits, b, r) <==> Hash32(v, bits) == b && Rank(v, bits) == r
  {
    var d := Pow2(32 - bits);
    Split(b, bits, r);
    ProductPermutes(v);
    ProductPermutes(b * d + r);
    Quotient(b, r, d);
    Division(Times(v, GOLDEN_RATIO_32), d);
  }
}
