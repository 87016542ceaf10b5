/** danube/message_router.py: round-robin and key-based choice of a partition. */
module Router {
  import opened Wire
  import Bits
  import Fnv

  /** One call of `round_robin` when the previous pick was `last`. */
  function NextPart(last: nat, n: nat): nat
    requires n > 0
  {
    (last + 1) % n
  }

  function KeyRoute(key: Bytes, n: nat): (p: nat)
    requires n > 0
    ensures p < n
  {
    Fnv.Hash(key) % n
  }

  /** A key's partition is its FNV-1a hash, computed without intermediate masking, modulo the
      partition count. */
  lemma KeyRouteIsHash(key: Bytes, n: nat)
    requires n > 0
    ensures KeyRoute(key, n) == Fnv.Unbounded(Fnv.OFFSET, key) % Fnv.TWO64 % n
  {
    Fnv.MaskOnceAtTheEnd(key);
  }

  class MessageRouter {
    const partitions: int
    var last: int

    ghost predicate Valid()
      reads this
    {
      partitions > 0 ==> 0 <= last < partitions
    }

    constructor (partitions: int)
      ensures Valid() && this.partitions == partitions && last == partitions - 1
    {
      this.partitions := partitions;
      last := partitions - 1;
    }

    method RoundRobin() returns (part: nat)
      requires Valid() && partitions > 0
      modifies this
      ensures Valid() && last == part == NextPart(old(last), partitions) < partitions
      ensures part == if old(last) == partitions - 1 then 0 else old(last) + 1
    {
      NextPartCases(last, partitions);
      part := (last + 1) % partitions;
      last := part;
    }

    method RouteKey(key: Bytes) returns (part: nat)
      requires partitions > 0
      ensures part == KeyRoute(key, partitions)
      ensures part == Fnv.Unbounded(Fnv.OFFSET, key) % Fnv.TWO64 % partitions
    {
      KeyRouteIsHash(key, partitions);
      var h := Fnv.Fnv1aHash(key);
      part := h % partitions;
    }
  }

  /** The next `k` picks of a router over `n` partitions whose previous pick was `last`. */
  function Picks(last: nat, n: nat, k: nat): (s: seq<nat>)
    requires n > 0
    ensures |s| == k
    decreases k
  {
    if k == 0 then [] else [NextPart(last, n)] + Picks(NextPart(last, n), n, k - 1)
  }

  function Count(s: seq<nat>, p: nat): nat {
    if s == [] then 0 else (if s[0] == p then 1 else 0) + Count(s[1..], p)
  }

  /** How many picks come before the first pick of `p`. */
  function Distance(p: nat, last: nat, n: nat): nat
    requires p < n && last < n
  {
    var first := if last + 1 == n then 0 else last + 1;
    if p >= first then p - first else p - first + n
  }

  lemma NextPartCases(last: nat, n: nat)
    requires last < n
    ensures NextPart(last, n) == if last + 1 == n then 0 else last + 1
  {
    if last + 1 == n {
      Bits.Remainder(n, n, 1, 0);
    } else {
      Bits.Remainder(last + 1, n, 0, last + 1);
    }
  }

  lemma DivShift(x: nat, n: nat)
    requires n > 0
    ensures (x + n) / n == x / n + 1
  {
    assert x == n * (x / n) + x % n;
    assert x + n == n * (x / n + 1) + x % n;
    Bits.Remainder(x + n, n, x / n + 1, x % n);
  }

  /** Exactly how often each partition is picked in any window. */
  lemma {:induction false} CountOfPicks(last: nat, n: nat, k: nat, p: nat)
    requires p < n && last < n
    ensures Count(Picks(last, n, k), p) == (k + n - 1 - Distance(p, last, n)) / n
    decreases k
  {
    var d := Distance(p, last, n);
    if k == 0 {
      Bits.Remainder(n - 1 - d, n, 0, n - 1 - d);
    } else {
      NextPartCases(last, n);
      var q := NextPart(last, n);
      CountOfPicks(q, n, k - 1, p);
      assert Picks(last, n, k)[1..] == Picks(q, n, k - 1);
      if d == 0 {
        assert Distance(p, q, n) == n - 1;
        DivShift(k - 1, n);
      } else {
        assert Distance(p, q, n) == d - 1;
      }
    }
  }

  lemma DivClose(x: nat, y: nat, n: nat)
    requires n > 0 && x <= y <= x + n - 1
    ensures x / n <= y / n <= x / n + 1
  {
    var d := y / n - x / n;
    assert n * d == y - x - (y % n - x % n) by {
      assert n * d == n * (y / n) - n * (x / n);
    }
    Bits.MultipleBetween(n, d, 2);
  }

  /** Fairness: in any window no partition is ahead of another by more than one. */
  lemma RoundRobinFair(last: nat, n: nat, k: nat, p: nat, q: nat)
    requires p < n && q < n && last < n
    ensures Count(Picks(last, n, k), p) <= Count(Picks(last, n, k), q) + 1
  {
    CountOfPicks(last, n, k, p);
    CountOfPicks(last, n, k, q);
    var x, y := k + n - 1 - Distance(p, last, n), k + n - 1 - Distance(q, last, n);
    if x <= y {
      DivClose(x, y, n);
    } else {
      DivClose(y, x, n);
    }
  }

  /** Any n consecutive picks name every partition exactly once. */
  lemma FullRound(last: nat, n: nat, p: nat)
    requires p < n && last < n
    ensures Count(Picks(last, n, n), p) == 1
  {
    CountOfPicks(last, n, n, p);
    var d := Distance(p, last, n);
    Bits.Remainder(n + n - 1 - d, n, 1, n - 1 - d);
  }

  /** A new router starts at partition 0 and walks upwards. */
  lemma {:induction false} WalksUpwards(last: nat, n: nat, k: nat, i: nat)
    requires last < n && i < k && (if last + 1 == n then i else last + 1 + i) < n
    ensures Picks(last, n, k)[i] == if last + 1 == n then i else last + 1 + i
    decreases i
  {
    NextPartCases(last, n);
    if i > 0 {
      WalksUpwards(NextPart(last, n), n, k - 1, i - 1);
    }
  }
}
