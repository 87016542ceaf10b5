/** Bitwise operators on unbounded naturals, as Python's integers have them, defined bit by
    bit, and the arithmetic facts about them that hashing needs. */
module Bits {

  function Xor(a: nat, b: nat): nat
    decreases a + b
  {
    if a == 0 then b
    else if b == 0 then a
    else 2 * Xor(a / 2, b / 2) + (a + b) % 2
  }

  function And(a: nat, b: nat): nat
    decreases a
  {
    if a == 0 || b == 0 then 0
    else 2 * And(a / 2, b / 2) + (a % 2) * (b % 2)
  }

  function Pow2(k: nat): nat {
    if k == 0 then 1 else 2 * Pow2(k - 1)
  }

  lemma XorBits(a: nat, b: nat)
    ensures Xor(a, b) / 2 == Xor(a / 2, b / 2)
    ensures Xor(a, b) % 2 == (a + b) % 2
  {
  }

  lemma {:induction false} XorSymmetric(a: nat, b: nat)
    ensures Xor(a, b) == Xor(b, a)
    decreases a + b
  {
    if a != 0 && b != 0 {
      XorSymmetric(a / 2, b / 2);
    }
  }

  lemma {:induction false} XorInvolution(a: nat, b: nat)
    ensures Xor(Xor(a, b), b) == a
    decreases a + b
  {
    if a != 0 || b != 0 {
      var x := Xor(a, b);
      var y := Xor(x, b);
      XorBits(a, b);
      XorBits(x, b);
      assert y / 2 == a / 2 by {
        XorInvolution(a / 2, b / 2);
      }
      ParityTwice(a, b, x, y);
      SameHalves(a, y);
    }
  }

  lemma ParityTwice(a: nat, b: nat, x: nat, y: nat)
    requires x % 2 == (a + b) % 2 && y % 2 == (x + b) % 2
    ensures y % 2 == a % 2
  {
  }

  lemma SameHalves(a: nat, b: nat)
    requires a / 2 == b / 2 && a % 2 == b % 2
    ensures a == b
  {
  }

  lemma {:induction false} XorBound(a: nat, b: nat, k: nat)
    requires a < Pow2(k) && b < Pow2(k)
    ensures Xor(a, b) < Pow2(k)
    decreases k
  {
    if k > 0 {
      XorBits(a, b);
      XorBound(a / 2, b / 2, k - 1);
    }
  }

  lemma Pow2Positive(k: nat)
    ensures Pow2(k) >= 1
  {
  }

  /** Splitting off the last bit of a remainder. */
  lemma ModPow2(a: nat, k: nat)
    requires k > 0
    ensures Pow2(k - 1) >= 1 && Pow2(k) >= 1
    ensures a % Pow2(k) / 2 == a / 2 % Pow2(k - 1)
    ensures a % Pow2(k) % 2 == a % 2
  {
    Pow2Positive(k - 1);
    var n := Pow2(k - 1);
    DoubleDivisor(a, n);
  }

  lemma DoubleDivisor(a: nat, n: nat)
    requires n >= 1
    ensures a % (2 * n) / 2 == a / 2 % n && a % (2 * n) % 2 == a % 2
  {
    var q, r := a / 2 / n, a / 2 % n;
    var low := 2 * r + a % 2;
    assert a == (2 * n) * q + low by {
      assert a / 2 == n * q + r;
      assert 2 * (n * q) == (2 * n) * q;
    }
    Remainder(a, 2 * n, q, low);
  }

  /** Division with remainder is unique. */
  lemma Remainder(a: nat, n: nat, q: nat, r: nat)
    requires n > 0 && a == n * q + r && r < n
    ensures a % n == r && a / n == q
  {
    var d := q - a / n;
    assert n * d == a % n - r by {
      assert n * (a / n) + a % n == n * q + r;
      assert n * d == n * q - n * (a / n);
    }
    MultipleBetween(n, d, 1);
  }

  /** A multiple of n strictly between -n and c * n is one of 0, n, ..., (c - 1) * n. */
  lemma MultipleBetween(n: int, d: int, c: int)
    requires n > 0 && 1 <= c <= 2 && -n < n * d < c * n
    ensures 0 <= d < c
  {
  }

  /** Exclusive or acts on the low `k` bits and on the rest independently. */
  lemma {:induction false} XorMod(a: nat, b: nat, k: nat)
    ensures Pow2(k) >= 1
    ensures Xor(a, b) % Pow2(k) == Xor(a % Pow2(k), b % Pow2(k))
    decreases k
  {
    Pow2Positive(k);
    if k > 0 {
      hide Xor, Pow2;
      var n := Pow2(k);
      var x, y := Xor(a, b), Xor(a % n, b % n);
      assert x % n / 2 == y / 2 by {
        XorBits(a, b);
        ModPow2(x, k);
        XorMod(a / 2, b / 2, k - 1);
        ModPow2(a, k);
        ModPow2(b, k);
        XorBits(a % n, b % n);
      }
      assert x % n % 2 == y % 2 by {
        XorBits(a, b);
        ModPow2(x, k);
        ModPow2(a, k);
        ModPow2(b, k);
        XorBits(a % n, b % n);
        ParityOfSum(a, b, a % n, b % n);
      }
    }
  }

  lemma ParityOfSum(a: nat, b: nat, c: nat, d: nat)
    requires a % 2 == c % 2 && b % 2 == d % 2
    ensures (a + b) % 2 == (c + d) % 2
  {
    ParityOfParities(a, b);
    ParityOfParities(c, d);
  }

  lemma ParityOfParities(a: nat, b: nat)
    ensures (a + b) % 2 == (a % 2 + b % 2) % 2
  {
    var q := a / 2 + b / 2;
    assert a + b == 2 * q + (a % 2 + b % 2);
  }

  /** Masking with k ones is reduction modulo 2^k. */
  lemma {:induction false} AndMask(a: nat, k: nat)
    ensures Pow2(k) >= 1
    ensures And(a, Pow2(k) - 1) == a % Pow2(k)
    decreases k
  {
    Pow2Positive(k);
    if a == 0 {
      Remainder(0, Pow2(k), 0, 0);
    } else if k > 0 {
      var ones, r := Pow2(k) - 1, a % Pow2(k);
      assert r == 2 * (r / 2) + r % 2;
      ModPow2(a, k);
      AndMask(a / 2, k - 1);
      OddMask(Pow2(k - 1), ones);
      assert And(a, ones) == 2 * And(a / 2, ones / 2) + (a % 2) * (ones % 2);
    }
  }

  lemma OddMask(half: nat, ones: nat)
    requires half >= 1 && ones == 2 * half - 1
    ensures ones / 2 == half - 1 && ones % 2 == 1 && ones > 0
  {
  }
}
