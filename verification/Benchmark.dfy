/** Host arithmetic of benchmark.c: the power-of-two test on the buffer size and the number of TLPs
    a latency test asks for. */
module Benchmark {
  import opened Hw
  import opened RqModel
  import opened RqPlan
  import opened RqTotals
  import opened RqCursor
  import opened RandomAddr

  lemma {:induction false} Pow2Grows(a: nat, b: nat)
    requires a < b
    ensures 2 * Pow2(a) <= Pow2(b)
  {
    if a + 1 < b { Pow2Grows(a, b - 1); }
  }

  /** The doubling loop accepts exactly the powers of two. The bound is where a 64-bit counter
      still reaches the size. */
  method IsPowerOfTwo(size: nat) returns (ok: bool)
    requires size <= 0x8000_0000_0000_0000
    ensures ok <==> exists h :: Pow2(h) == size
  {
    var limit := 1;
    ghost var n: nat := 0;
    while limit < size
      invariant limit == Pow2(n) <= 0x8000_0000_0000_0000 && (n > 0 ==> Pow2(n - 1) < size)
      invariant limit >= 1
      decreases size - limit
    {
      limit := W64(2 * limit);
      n := n + 1;
      Doubled(n);
    }
    ok := limit == size;
    if h: nat :| Pow2(h) == size {
      if n < h { Pow2Grows(n, h); }
      if h < n && n > 0 {
        if h < n - 1 { Pow2Grows(h, n - 1); }
      }
    }
  }

  lemma {:induction false} Doubled(n: nat)
    requires n > 0 && Pow2(n - 1) < 0x8000_0000_0000_0000
    ensures Pow2(n) == 2 * Pow2(n - 1) <= 0x8000_0000_0000_0000
  {
    Pow63();
    if n - 1 >= 63 {
      if n - 1 > 63 { Pow2Grows(63, n - 1); }
    } else if n < 63 {
      Pow2Grows(n, 63);
    }
  }

  /** The counter of the loop after k rounds, if the loop is still going. */
  function Limit(k: nat): nat { if k == 0 then 1 else W64(2 * Limit(k - 1)) }

  lemma {:induction false} LimitIs(k: nat)
    ensures Limit(k) == W64(Pow2(k))
  {
    if k > 0 {
      LimitIs(k - 1);
      W64Add(Pow2(k - 1), Pow2(k - 1));
      W64Add(W64(Pow2(k - 1)), Pow2(k - 1));
      W64Add(Pow2(k - 1), W64(Pow2(k - 1)));
    }
  }

  /** Above that bound the 64-bit counter wraps to 0 and never gets there: in no round does the
      condition of the loop fail. */
  lemma DoublingNeverEnds(size: nat, k: nat)
    requires size > 0x8000_0000_0000_0000
    ensures Limit(k) < size
  {
    LimitIs(k);
    PowerBelow(size, k);
  }

  lemma PowerBelow(size: nat, k: nat)
    requires size > 0x8000_0000_0000_0000
    ensures Pow2(k) % B64 < size
  {
    hide Pow2;
    Pow63();
    if k < 63 {
      Pow2Grows(k, 63);
    } else if k > 63 {
      PowAdd(k - 64, 64);
      Twice(63);
      Multiple(Pow2(k), Pow2(k - 64), B64);
    }
  }

  lemma Twice(n: nat)
    ensures Pow2(n + 1) == 2 * Pow2(n)
  {
  }

  lemma Multiple(x: nat, q: nat, b: nat)
    requires b > 0 && x == q * b
    ensures x % b == 0
  {
    DivIs(x, b, q, 0);
  }

  /** A latency test asks for the truncated quotient, so its reads cover the block iff the block is
      a multiple of the largest read, or smaller than it; otherwise the last piece is missing. */
  lemma LatencyReadsBlock(c: Cfg)
    requires Legal(c) && c.doesRead && c.tlps == c.size / MaxTlp(c)
    ensures InBlock(c, Plan(c)) && Bytes(c, Plan(c), false) <= c.size
    ensures Bytes(c, Plan(c), false) == c.size <==> c.size % MaxTlp(c) == 0 || c.size < MaxTlp(c)
    ensures c.size > MaxTlp(c) ==> Bytes(c, Plan(c), false) == c.size / MaxTlp(c) * MaxTlp(c)
  {
    hide Split, Bytes, Count, Pow2, HostBytes;
    PerBlockFacts(c);
    CutCount(c);
    var m := MaxTlp(c);
    var k, x := QuotRem(c.size, m);
    CeilOf(c.size, m, k, x);
    DivIs(c.size, m, k, x);
    if k == 0 {
      FullSums(c, 1);
      assert Before(c, 0) == 0 && Before(c, 1) == 1;
      PlanEnds(c, 0);
    } else {
      ReadBytesMatchHost(c);
      HostOfQuotient(c.size, m, k, x);
    }
  }

  lemma HostOfQuotient(size: nat, m: nat, k: nat, x: nat)
    requires m > 0 && k > 0 && size == k * m + x && x < m
    ensures HostBytes(k, size, m) == k * m
  {
    DivIs(size, m, k, x);
    assert m * k == k * m;
    if x == 0 {
      DivIs(k, k, 1, 0);
    } else {
      DivIs(k, k + 1, 0, k);
    }
  }
}
