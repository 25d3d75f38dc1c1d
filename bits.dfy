/**
 * Bit operations of C on non-negative integers, defined one bit at a time,
 * with the arithmetic facts the masks and shifts of the window layer need:
 * `x & (m - 1)` is `x % m` and `x & ~(p - 1)` clears the bits below `p`
 * when `m` and `p` are powers of two, and `x & 2^k` is bit k of x.
 */
module Bits {

  /** 2 to the power k. */
  function Pow2(k: nat): (r: nat)
    ensures r >= 1
  {
    if k == 0 then 1 else 2 * Pow2(k - 1)
  }

  /** p is 1, 2, 4, 8, ... */
  predicate IsPowerOfTwo(p: nat)
    decreases p
  {
    p == 1 || (p >= 2 && p % 2 == 0 && IsPowerOfTwo(p / 2))
  }

  /** Bitwise AND of two naturals, one bit at a time from the least significant. */
  function BitAnd(a: nat, b: nat): nat
    decreases a
  {
    if a == 0 || b == 0 then 0
    else 2 * BitAnd(a / 2, b / 2) + (if a % 2 == 1 && b % 2 == 1 then 1 else 0)
  }

  lemma MulMonotone(p: nat, a: nat, b: nat)
    requires a <= b
    ensures p * a <= p * b
  {
  }

  lemma {:induction false} Pow2Add(a: nat, b: nat)
    ensures Pow2(a + b) == Pow2(a) * Pow2(b)
    decreases a
  {
    if a > 0 {
      Pow2Add(a - 1, b);
      assert Pow2(a + b) == 2 * Pow2(a - 1 + b);
    }
  }

  /** The product of two powers of two is one. */
  lemma {:induction false} ProductIsPowerOfTwo(p: nat, q: nat)
    requires IsPowerOfTwo(p) && IsPowerOfTwo(q)
    ensures IsPowerOfTwo(p * q)
    decreases q
  {
    if q == 1 {
      assert p * q == p;
    } else {
      var h := q / 2;
      ProductIsPowerOfTwo(p, h);
      var ph := p * h;
      assert p * q == ph + ph by {
        assert q == h + h;
      }
      assert (ph + ph) / 2 == ph && (ph + ph) % 2 == 0;
    }
  }

  /** 2^64, the number of values of a 64-bit `size_t`, is a power of two. */
  lemma Pow64IsPowerOfTwo()
    ensures IsPowerOfTwo(0x1_0000_0000_0000_0000)
  {
    assert IsPowerOfTwo(2);
    ProductIsPowerOfTwo(2, 2);
    ProductIsPowerOfTwo(4, 4);
    ProductIsPowerOfTwo(16, 16);
    ProductIsPowerOfTwo(256, 256);
    ProductIsPowerOfTwo(0x1_0000, 0x1_0000);
    ProductIsPowerOfTwo(0x1_0000_0000, 0x1_0000_0000);
  }

  /** x % p splits into the bits above and the lowest bit, for an even p. */
  lemma ModHalf(x: nat, p: nat)
    requires p >= 2 && p % 2 == 0
    ensures x % p == 2 * ((x / 2) % (p / 2)) + x % 2
  {
    var h, q := p / 2, x / 2;
    var t, s := q / h, q % h;
    assert q == h * t + s;
    assert x == p * t + (2 * s + x % 2);
    ModUnique(x, p, t, 2 * s + x % 2);
  }

  /** x with its remainder removed is a multiple of p within p of x. */
  lemma RoundDown(x: nat, p: nat)
    requires p > 0
    ensures (x - x % p) % p == 0
    ensures x - p < x - x % p <= x
  {
    assert x == p * (x / p) + x % p;
    ModUnique(x - x % p, p, x / p, 0);
  }

  /** Two distinct multiples of p are at least p apart. */
  lemma MultiplesApart(p: nat, r: nat, m: nat)
    requires p > 0 && r % p == 0 && m % p == 0 && m < r
    ensures m + p <= r
  {
    var a, b := m / p, r / p;
    assert m == p * a;
    assert r == p * b;
    if b <= a {
      MulMonotone(p, b, a);
    } else {
      MulMonotone(p, a + 1, b);
      assert p * (a + 1) == p * a + p;
    }
  }

  /** Division with remainder is unique. */
  lemma ModUnique(x: nat, p: nat, t: nat, r: nat)
    requires p > 0 && r < p && x == p * t + r
    ensures x % p == r && x / p == t
  {
    var t', r' := x / p, x % p;
    assert x == p * t' + r';
    if t < t' {
      MulMonotone(p, t + 1, t');
    } else if t' < t {
      MulMonotone(p, t' + 1, t);
    }
  }

  /** AND with m - p, both powers of two, clears the bits below p. */
  lemma {:induction false} MaskClearsLowBits(x: nat, p: nat, m: nat)
    requires IsPowerOfTwo(p) && IsPowerOfTwo(m) && p <= m && x < m
    ensures BitAnd(x, m - p) == x - x % p
    decreases p
  {
    if p == 1 {
      LowBits(x, m);
      ModUnique(x, m, 0, x);
    } else if m == p {
      assert BitAnd(x, 0) == 0;
      ModUnique(x, p, 0, x);
    } else if x == 0 {
      ModUnique(0, p, 0, 0);
    } else {
      var h, hp, hm := x / 2, p / 2, m / 2;
      assert IsPowerOfTwo(hp) && IsPowerOfTwo(hm) && hp <= hm && h < hm;
      MaskClearsLowBits(h, hp, hm);
      var b := m - p;
      assert b / 2 == hm - hp && b % 2 == 0;
      assert BitAnd(x, b) == 2 * BitAnd(h, hm - hp);
      ModHalf(x, p);
    }
  }

  /** AND with m - 1, m a power of two, is the remainder modulo m. */
  lemma {:induction false} LowBits(x: nat, m: nat)
    requires IsPowerOfTwo(m)
    ensures BitAnd(x, m - 1) == x % m
    decreases m
  {
    if m == 1 {
    } else if x == 0 {
    } else {
      LowBits(x / 2, m / 2);
      assert (m - 1) / 2 == m / 2 - 1 && (m - 1) % 2 == 1;
      ModHalf(x, m);
    }
  }

  /** AND with 2^k is bit k of x, in place. */
  lemma {:induction false} SingleBit(x: nat, k: nat)
    ensures BitAnd(x, Pow2(k)) == Pow2(k) * ((x / Pow2(k)) % 2)
    decreases k
  {
    if k == 0 {
      assert BitAnd(x, 1) == x % 2 by { LowBits(x, 2); assert IsPowerOfTwo(2); }
    } else {
      SingleBit(x / 2, k - 1);
      DoubledBit(x, Pow2(k - 1));
    }
  }

  /** One step of SingleBit: from the mask q on x / 2 to the mask 2q on x. */
  lemma {:induction false} DoubledBit(x: nat, q: nat)
    requires q >= 1 && BitAnd(x / 2, q) == q * (((x / 2) / q) % 2)
    ensures BitAnd(x, q + q) == (q + q) * ((x / (q + q)) % 2)
  {
    DivDiv(x, 2, q);
    AndEvenMask(x, q);
    TwiceScaled(q, ((x / 2) / q) % 2);
  }

  /** AND with an even mask 2q drops the lowest bit of x. */
  lemma {:induction false} AndEvenMask(x: nat, q: nat)
    requires q >= 1
    ensures BitAnd(x, q + q) == 2 * BitAnd(x / 2, q)
  {
    assert (q + q) % 2 == 0 && (q + q) / 2 == q;
  }

  lemma TwiceScaled(q: nat, b: nat)
    requires b < 2
    ensures 2 * (q * b) == (q + q) * b
  {
  }

  /** Dividing twice is dividing by the product. */
  lemma DivDiv(n: nat, a: nat, b: nat)
    requires a > 0 && b > 0
    ensures (n / a) / b == n / (a * b)
  {
    var q, r1 := n / a, n % a;
    var q2, r2 := q / b, q % b;
    assert n == a * q + r1;
    assert q == b * q2 + r2;
    assert n == (a * b) * q2 + (a * r2 + r1) by {
      assert a * q == a * (b * q2) + a * r2;
    }
    MulMonotone(a, r2, b - 1);
    assert a * (b - 1) == a * b - a;
    ModUnique(n, a * b, q2, a * r2 + r1);
    assert n / (a * b) == q2 by {
      assert n == (a * b) * (n / (a * b)) + n % (a * b);
    }
  }
}
