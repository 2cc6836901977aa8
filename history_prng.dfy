/**
 * The seeded random source of the mock history endpoint: a Java-style string
 * hash that picks the seed, and the mulberry32 generator it seeds.
 */
module HistoryPrng {
  import opened JsText

  const TwoTo31: int := 0x8000_0000
  const TwoTo32: int := 0x1_0000_0000

  /** JavaScript's ToInt32: the signed 32-bit integer congruent to `x` modulo 2^32. */
  function ToInt32(x: int): (r: int)
    ensures -TwoTo31 <= r < TwoTo31
    ensures (x - r) % TwoTo32 == 0
  {
    var m := x % TwoTo32;
    if m >= TwoTo31 then m - TwoTo32 else m
  }

  /** `Math.abs` on integers. */
  function Abs(x: int): (r: nat)
    ensures r == x || r == -x
  {
    if x < 0 then -x else x
  }

  /** The hash without any overflow: `h * 31 + c` folded over the code units. */
  function HashFold(units: seq<int>): int {
    if units == [] then 0 else HashFold(units[..|units| - 1]) * 31 + units[|units| - 1]
  }

  /** `hashString`: the folded hash reduced to 32 bits, then made non-negative. */
  function HashString(s: string): nat {
    Abs(ToInt32(HashFold(CodeUnits(s))))
  }

  /** ToInt32 depends only on the residue modulo 2^32. */
  lemma ToInt32Congruent(x: int, y: int)
    requires (x - y) % TwoTo32 == 0
    ensures ToInt32(x) == ToInt32(y)
  {
    assert x % TwoTo32 == y % TwoTo32 by {
      var q := (x - y) / TwoTo32;
      assert x == y + q * TwoTo32;
    }
  }

  /** One step of the hash loop wraps exactly like the unbounded fold. */
  lemma HashStep(h: int, x: int, c: int)
    requires h == ToInt32(x)
    ensures ToInt32(ToInt32(h * 32) - h + c) == ToInt32(x * 31 + c)
  {
    var p := ToInt32(h * 32);
    assert (h * 32 - p) % TwoTo32 == 0;
    assert (x - h) % TwoTo32 == 0;
    var q1 := (h * 32 - p) / TwoTo32;
    var q2 := (x - h) / TwoTo32;
    assert (p - h + c) - (x * 31 + c) == -(q1 * TwoTo32) - q2 * 31 * TwoTo32;
    assert ((p - h + c) - (x * 31 + c)) == (-q1 - q2 * 31) * TwoTo32;
    ToInt32Congruent(p - h + c, x * 31 + c);
  }

  /**
   * The hash loop over `str.charCodeAt(i)`: `hash = (hash << 5) - hash + char`,
   * kept to 32 bits by `hash & hash`, and `Math.abs` of the result.
   */
  method ComputeHash(s: string) returns (h: nat)
    ensures h == HashString(s)
    ensures h <= TwoTo31
  {
    var units := CodeUnits(s);
    var hash := 0;
    var i := 0;
    while i < |units|
      invariant 0 <= i <= |units|
      invariant hash == ToInt32(HashFold(units[..i]))
    {
      assert units[..i + 1][..i] == units[..i];
      HashStep(hash, HashFold(units[..i]), units[i]);
      hash := ToInt32(ToInt32(hash * 32) - hash + units[i]);
      i := i + 1;
    }
    assert units[..|units|] == units;
    h := Abs(hash);
  }

  /** The seed string of the default 3-day query is plain ASCII. */
  lemma DefaultQueryUnits()
    ensures CodeUnits("3d-5m") == [51, 100, 45, 53, 109]
  {
    CodeUnitsAscii("3d-5m");
  }

  /** The hash of the seed string of the default 3-day query. */
  lemma HashOfDefaultQuery()
    ensures HashFold(CodeUnits("3d-5m")) == 50123668
    ensures HashString("3d-5m") == 50123668
  {
    DefaultQueryUnits();
    assert HashFold([51]) == 51 by { assert [51][..0] == []; }
    assert HashFold([51, 100]) == 1681 by { assert [51, 100][..1] == [51]; }
    assert HashFold([51, 100, 45]) == 52156 by { assert [51, 100, 45][..2] == [51, 100]; }
    assert HashFold([51, 100, 45, 53]) == 1616889 by { assert [51, 100, 45, 53][..3] == [51, 100, 45]; }
    assert HashFold([51, 100, 45, 53, 109]) == 50123668 by {
      assert [51, 100, 45, 53, 109][..4] == [51, 100, 45, 53];
    }
  }

  /** The golden-ratio increment added to the state on every draw. */
  const Increment: int := 0x6d2b79f5

  /** 2 to the power `n`. */
  function Pow2(n: nat): (p: nat)
    ensures p >= 1
  {
    if n == 0 then 1 else 2 * Pow2(n - 1)
  }

  lemma {:induction false} Pow2Add(m: nat, n: nat)
    ensures Pow2(m + n) == Pow2(m) * Pow2(n)
  {
    if n > 0 {
      Pow2Add(m, n - 1);
      assert Pow2(m + n) == 2 * Pow2(m + n - 1);
    }
  }

  lemma Pow2Of32()
    ensures Pow2(32) == TwoTo32
  {
    assert Pow2(4) == 16;
    Pow2Add(4, 4);
    Pow2Add(8, 8);
    Pow2Add(16, 16);
  }

  /** Bitwise XOR of `a` and `b`, one bit at a time from the lowest. */
  function Xor(a: nat, b: nat): nat
    decreases a + b
  {
    if a == 0 && b == 0 then 0 else (if a % 2 == b % 2 then 0 else 1) + 2 * Xor(a / 2, b / 2)
  }

  /** Bitwise OR of `a` and `b`, one bit at a time from the lowest. */
  function Or(a: nat, b: nat): nat
    decreases a + b
  {
    if a == 0 && b == 0 then 0 else (if a % 2 == 1 || b % 2 == 1 then 1 else 0) + 2 * Or(a / 2, b / 2)
  }

  /** Shift-and-add multiplication of `a` by `b`. */
  function ShiftAdd(a: nat, b: nat): nat
    decreases b
  {
    if b == 0 then 0 else (if b % 2 == 1 then a else 0) + 2 * ShiftAdd(a, b / 2)
  }

  /** Words of `n` bits stay words of `n` bits under XOR and OR. */
  lemma {:induction false} BitsBelow(a: nat, b: nat, n: nat)
    requires a < Pow2(n) && b < Pow2(n)
    ensures Xor(a, b) < Pow2(n) && Or(a, b) < Pow2(n)
    decreases n
  {
    if a != 0 || b != 0 {
      assert n > 0;
      BitsBelow(a / 2, b / 2, n - 1);
    }
  }

  /** A number is its lowest bit plus twice the rest. */
  lemma Halves(n: nat, bit: nat, rest: nat)
    requires bit < 2 && n == bit + 2 * rest
    ensures n % 2 == bit && n / 2 == rest
  {
  }

  /** Two numbers with the same lowest bit and the same remaining bits are equal. */
  lemma SameBits(m: nat, n: nat)
    requires m % 2 == n % 2 && m / 2 == n / 2
    ensures m == n
  {
  }

  /** The lowest bit of an XOR, and the XOR of the remaining bits. */
  lemma XorBits(a: nat, b: nat)
    ensures Xor(a, b) % 2 == (if a % 2 == b % 2 then 0 else 1)
    ensures Xor(a, b) / 2 == Xor(a / 2, b / 2)
  {
    if a != 0 || b != 0 {
      Halves(Xor(a, b), if a % 2 == b % 2 then 0 else 1, Xor(a / 2, b / 2));
    }
  }

  /** XOR with the same word twice gives the word back. */
  lemma {:induction false} XorInvolution(a: nat, b: nat)
    ensures Xor(Xor(a, b), b) == a
    decreases a + b
  {
    if a != 0 || b != 0 {
      var c := Xor(a, b);
      XorBits(a, b);
      XorBits(c, b);
      XorInvolution(a / 2, b / 2);
      SameBits(Xor(c, b), a);
    }
  }

  /** Shift-and-add computes the product. */
  lemma {:induction false} ShiftAddIsProduct(a: nat, b: nat)
    ensures ShiftAdd(a, b) == a * b
    decreases b
  {
    if b > 0 {
      var half := b / 2;
      ShiftAddIsProduct(a, half);
      DoubleProduct(a, half, b % 2);
    }
  }

  /** Multiplying by `2 * half + bit` is doubling the product by `half` and adding `a` for the bit. */
  lemma DoubleProduct(a: nat, half: nat, bit: nat)
    requires bit < 2
    ensures a * (2 * half + bit) == 2 * (a * half) + (if bit == 1 then a else 0)
  {
  }

  /** `x ^ y` on 32-bit words. */
  function Xor32(x: nat, y: nat): (r: nat)
    requires x < TwoTo32 && y < TwoTo32
    ensures r < TwoTo32
  {
    Pow2Of32();
    BitsBelow(x, y, 32);
    Xor(x, y)
  }

  /** `x | y` on 32-bit words. */
  function Or32(x: nat, y: nat): (r: nat)
    requires x < TwoTo32 && y < TwoTo32
    ensures r < TwoTo32
  {
    Pow2Of32();
    BitsBelow(x, y, 32);
    Or(x, y)
  }

  /** `Math.imul(x, y)` read as an unsigned word. */
  function Imul(x: nat, y: nat): (r: nat)
    ensures r < TwoTo32
  {
    ShiftAdd(x, y) % TwoTo32
  }

  /** `Imul` is the 32-bit wrapped product. */
  lemma ImulIsProduct(x: nat, y: nat)
    ensures Imul(x, y) == (x * y) % TwoTo32
  {
    ShiftAddIsProduct(x, y);
  }

  /**
   * The mulberry32 output function applied to the new state, on unsigned
   * 32-bit words (the bits the source's signed intermediates carry):
   * `t = imul(t ^ t >>> 15, t | 1)`, `t ^= t + imul(t ^ t >>> 7, t | 61)`,
   * then `t ^ t >>> 14`.
   */
  function Mix(state: int): (r: nat)
    ensures r < TwoTo32
  {
    var t0 := state % TwoTo32;
    var t1 := Imul(Xor32(t0, t0 / 0x8000), Or32(t0, 1));
    var t2 := Xor32(t1, (t1 + Imul(Xor32(t1, t1 / 0x80), Or32(t1, 61))) % TwoTo32);
    Xor32(t2, t2 / 0x4000)
  }

  /** The draw for a given state: the mixed word divided by 2^32. */
  function Output(state: int): (r: real)
    ensures 0.0 <= r < 1.0
  {
    Mix(state) as real / (TwoTo32 as real)
  }

  /**
   * The `k`-th value (from 0) a generator seeded with `seed` returns: the
   * first call advances the captured number by the increment, after which the
   * generator behaves as one seeded with the advanced number.
   */
  function Draw(seed: int, k: nat): (r: real)
    ensures 0.0 <= r < 1.0
    decreases k
  {
    if k == 0 then Output(seed + 0x6d2b79f5) else Draw(seed + 0x6d2b79f5, k - 1)
  }

  /** The captured number after `k + 1` calls of a generator seeded with `seed`. */
  function StateAfter(seed: int, k: nat): int
    decreases k
  {
    if k == 0 then seed + 0x6d2b79f5 else StateAfter(seed + 0x6d2b79f5, k - 1)
  }

  /** Each call adds the increment once: after `k + 1` calls it has been added `k + 1` times. */
  lemma {:induction false} StateAfterIs(seed: int, k: nat)
    ensures StateAfter(seed, k) == seed + (k + 1) * 0x6d2b79f5
    decreases k
  {
    if k > 0 {
      StateAfterIs(seed + 0x6d2b79f5, k - 1);
    }
  }

  /** The `k`-th draw is the output for the state after `k + 1` calls. */
  lemma {:induction false} DrawAt(seed: int, k: nat)
    ensures Draw(seed, k) == Output(StateAfter(seed, k))
    decreases k
  {
    if k > 0 {
      DrawAt(seed + 0x6d2b79f5, k - 1);
    }
  }

  /** `mulberry32(a)`: the closure and the number `a` it captures and advances. */
  class Mulberry32 {
    /** The captured accumulator; it grows without bound, as the source's number does. */
    var a: int
    ghost const seed: int
    ghost var draws: nat

    ghost predicate Valid()
      reads this
    {
      a == seed + draws * 0x6d2b79f5
    }

    constructor (seed0: int)
      ensures Valid() && seed == seed0 && draws == 0
    {
      a := seed0;
      seed := seed0;
      draws := 0;
    }

    /** One call of the returned closure. */
    method Next() returns (r: real)
      requires Valid()
      modifies this
      ensures Valid() && draws == old(draws) + 1
      ensures r == Draw(seed, old(draws))
      ensures 0.0 <= r < 1.0
    {
      a := a + Increment;
      draws := draws + 1;
      r := Output(a);
      DrawAt(seed, old(draws));
      StateAfterIs(seed, old(draws));
    }
  }
}
