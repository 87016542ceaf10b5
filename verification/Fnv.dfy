/** danube/message_router.py, `_fnv1a_hash`: FNV-1a with 64 bits, section 2 ("FNV Basics")
    of draft-eastlake-fnv.  A routing key is its UTF-8 encoding, a sequence of bytes. */
module Fnv {
  import opened Wire
  import opened Bits

  const OFFSET: nat := 0xCBF29CE484222325
  const PRIME: nat := 0x100000001B3
  const MASK: nat := 0xFFFFFFFFFFFFFFFF
  const TWO64: nat := 0x1_0000_0000_0000_0000

  /** Multiplying by this undoes multiplying by PRIME, modulo 2^64. */
  const UNPRIME: nat := 0xCE965057AFF6957B

  function Step(h: nat, b: Byte): nat {
    And(Xor(h, b) * PRIME, MASK)
  }

  /** The rest of the loop from state `h`. */
  function From(h: nat, key: Bytes): nat
    decreases key
  {
    if key == [] then h else From(Step(h, key[0]), key[1..])
  }

  function Hash(key: Bytes): nat {
    From(OFFSET, key)
  }

  method Fnv1aHash(key: Bytes) returns (h: nat)
    ensures h == Hash(key)
  {
    h := OFFSET;
    for i := 0 to |key|
      invariant From(h, key[i..]) == Hash(key)
    {
      assert key[i..][1..] == key[i + 1..];
      h := Xor(h, key[i]);
      h := And(h * PRIME, MASK);
    }
  }

  lemma Two64()
    ensures Pow2(64) == TWO64 && Pow2(8) == 256
  {
    assert Pow2(8) == 256;
    assert Pow2(16) == 0x10000;
    assert Pow2(24) == 0x1000000;
    assert Pow2(32) == 0x100000000;
    assert Pow2(40) == 0x10000000000;
    assert Pow2(48) == 0x1000000000000;
    assert Pow2(56) == 0x100000000000000;
  }

  lemma StepMod(h: nat, b: Byte)
    ensures Step(h, b) == Xor(h, b) * PRIME % TWO64
  {
    Two64();
    AndMask(Xor(h, b) * PRIME, 64);
  }

  lemma ModAdd(r: nat, k: nat)
    ensures (r + TWO64 * k) % TWO64 == r % TWO64
  {
  }

  /** Reducing a factor first does not change a product modulo 2^64. */
  lemma ModFactor(x: nat, c: nat)
    ensures x % TWO64 * c % TWO64 == x * c % TWO64
  {
    var q, r := x / TWO64, x % TWO64;
    assert x == TWO64 * q + r;
    assert x * c == r * c + TWO64 * (q * c);
    ModAdd(r * c, q * c);
  }

  lemma PrimeInverse(x: nat)
    requires x < TWO64
    ensures x * PRIME % TWO64 * UNPRIME % TWO64 == x
    ensures x * UNPRIME % TWO64 * PRIME % TWO64 == x
  {
    var k: nat := PRIME * UNPRIME / TWO64;
    assert PRIME * UNPRIME == 1 + TWO64 * k;
    assert x * (PRIME * UNPRIME) == x + TWO64 * (x * k);
    ModAdd(x, x * k);
    ModFactor(x * PRIME, UNPRIME);
    ModFactor(x * UNPRIME, PRIME);
    assert x * PRIME * UNPRIME == x * (PRIME * UNPRIME);
    assert x * UNPRIME * PRIME == x * (PRIME * UNPRIME);
  }

  lemma XorByteBound(h: nat, b: Byte)
    requires h < TWO64
    ensures Xor(h, b) < TWO64
  {
    Two64();
    XorBound(h, b, 64);
  }

  /** The state before the step that consumed `b`. */
  function Unstep(h: nat, b: Byte): nat {
    Xor(h * UNPRIME % TWO64, b)
  }

  /** For each byte the loop body is a bijection on 64-bit states. */
  lemma StepBijective(h: nat, b: Byte)
    requires h < TWO64
    ensures Step(h, b) < TWO64 && Unstep(Step(h, b), b) == h
    ensures Unstep(h, b) < TWO64 && Step(Unstep(h, b), b) == h
  {
    XorByteBound(h, b);
    StepMod(h, b);
    PrimeInverse(Xor(h, b));
    XorInvolution(h, b);

    var y := h * UNPRIME % TWO64;
    XorByteBound(y, b);
    StepMod(Unstep(h, b), b);
    XorInvolution(y, b);
    PrimeInverse(h);
  }

  lemma {:induction false} FromBound(h: nat, key: Bytes)
    requires h < TWO64
    ensures From(h, key) < TWO64
    decreases key
  {
    if key != [] {
      StepBijective(h, key[0]);
      FromBound(Step(h, key[0]), key[1..]);
    }
  }

  /** Running the loop over the same bytes never merges two states. */
  lemma {:induction false} FromInjective(g: nat, h: nat, key: Bytes)
    requires g < TWO64 && h < TWO64
    ensures From(g, key) == From(h, key) <==> g == h
    decreases key
  {
    if key != [] {
      StepBijective(g, key[0]);
      StepBijective(h, key[0]);
      FromInjective(Step(g, key[0]), Step(h, key[0]), key[1..]);
    }
  }

  lemma {:induction false} FromSplit(h: nat, a: Bytes, b: Bytes)
    ensures From(h, a + b) == From(From(h, a), b)
    decreases a
  {
    if a == [] {
      assert a + b == b;
    } else {
      assert (a + b)[1..] == a[1..] + b;
      FromSplit(Step(h, a[0]), a[1..], b);
    }
  }

  /** Appending a common suffix neither creates nor removes a collision. */
  lemma SuffixCollision(a: Bytes, b: Bytes, s: Bytes)
    ensures Hash(a + s) == Hash(b + s) <==> Hash(a) == Hash(b)
  {
    FromSplit(OFFSET, a, s);
    FromSplit(OFFSET, b, s);
    FromBound(OFFSET, a);
    FromBound(OFFSET, b);
    FromInjective(Hash(a), Hash(b), s);
  }

  lemma StepByteInjective(h: nat, x: Byte, y: Byte)
    requires h < TWO64 && Step(h, x) == Step(h, y)
    ensures x == y
  {
    StepMod(h, x);
    StepMod(h, y);
    XorByteBound(h, x);
    XorByteBound(h, y);
    PrimeInverse(Xor(h, x));
    PrimeInverse(Xor(h, y));
    XorSymmetric(h, x);
    XorSymmetric(h, y);
    XorInvolution(x, h);
    XorInvolution(y, h);
  }

  /** Two keys of one length that differ in exactly one byte never share a hash. */
  lemma OneByteApart(a: Bytes, b: Bytes, i: nat)
    requires |a| == |b| && i < |a| && a[i] != b[i]
    requires forall j :: 0 <= j < |a| && j != i ==> a[j] == b[j]
    ensures Hash(a) != Hash(b)
  {
    var u, s := a[..i], a[i + 1..];
    assert a == u + ([a[i]] + s);
    assert b == u + ([b[i]] + s);
    var h := From(OFFSET, u);
    FromBound(OFFSET, u);
    FromSplit(OFFSET, u, [a[i]] + s);
    FromSplit(OFFSET, u, [b[i]] + s);
    assert ([a[i]] + s)[1..] == s && ([b[i]] + s)[1..] == s;
    StepBijective(h, a[i]);
    StepBijective(h, b[i]);
    FromInjective(Step(h, a[i]), Step(h, b[i]), s);
    if Step(h, a[i]) == Step(h, b[i]) {
      StepByteInjective(h, a[i], b[i]);
    }
  }

  /** The textbook form: the loop in unbounded integers, no masking. */
  function Unbounded(h: nat, key: Bytes): nat
    decreases key
  {
    if key == [] then h else Unbounded(Xor(h, key[0]) * PRIME, key[1..])
  }

  lemma XorByte64(h: nat, b: Byte)
    ensures Xor(h, b) % TWO64 == Xor(h % TWO64, b)
  {
    Two64();
    XorSmall(h, b, 64);
  }

  lemma XorSmall(h: nat, b: Byte, k: nat)
    requires b < Pow2(k)
    ensures Xor(h, b) % Pow2(k) == Xor(h % Pow2(k), b)
  {
    XorMod(h, b, k);
    Remainder(b, Pow2(k), 0, b);
  }

  lemma StepReduced(h: nat, b: Byte)
    ensures Step(h % TWO64, b) == Xor(h, b) * PRIME % TWO64
  {
    var x := Xor(h, b);
    assert x % TWO64 == Xor(h % TWO64, b) by {
      XorByte64(h, b);
    }
    StepMod(h % TWO64, b);
    ModFactor(x, PRIME);
  }

  lemma {:induction false} FromUnbounded(h: nat, key: Bytes)
    ensures From(h % TWO64, key) == Unbounded(h, key) % TWO64
    decreases key
  {
    if key != [] {
      StepReduced(h, key[0]);
      FromUnbounded(Xor(h, key[0]) * PRIME, key[1..]);
    }
  }

  /** Masking after every step equals one reduction modulo 2^64 at the end. */
  lemma MaskOnceAtTheEnd(key: Bytes)
    ensures Hash(key) == Unbounded(OFFSET, key) % TWO64
  {
    FromUnbounded(OFFSET, key);
  }

  /** The published value of the hash of the one-letter key "a". */
  lemma KnownVector()
    ensures Hash([]) == 0xCBF29CE484222325
    ensures Hash([0x61]) == 0xAF63DC4C8601EC8C
  {
    hide From, Step, Xor, And;
    XorOffset();
    StepMod(OFFSET, 0x61);
    FromOne(OFFSET, 0x61);
    FromNone(OFFSET);
  }

  lemma FromNone(h: nat)
    ensures From(h, []) == h
  {
  }

  lemma FromOne(h: nat, b: Byte)
    ensures From(h, [b]) == Step(h, b)
  {
    assert [b][1..] == [];
    FromNone(Step(h, b));
  }

  lemma XorOffset()
    ensures Xor(OFFSET, 0x61) == 0xCBF29CE484222344
  {
    assert Xor(OFFSET / 0x80, 0) == OFFSET / 0x80;
    assert Xor(OFFSET / 0x40, 0x01) == 2 * (OFFSET / 0x80) + 1;
    assert Xor(OFFSET / 0x20, 0x03) == OFFSET / 0x20 - OFFSET / 0x20 % 0x4 + 0x2;
    assert Xor(OFFSET / 0x10, 0x06) == OFFSET / 0x10 - OFFSET / 0x10 % 0x8 + 0x4;
    assert Xor(OFFSET / 0x8, 0x0C) == OFFSET / 0x8 - OFFSET / 0x8 % 0x10 + 0x8;
    assert Xor(OFFSET / 0x4, 0x18) == OFFSET / 0x4 - OFFSET / 0x4 % 0x20 + 0x11;
    assert Xor(OFFSET / 0x2, 0x30) == OFFSET / 0x2 - OFFSET / 0x2 % 0x40 + 0x22;
  }
}
