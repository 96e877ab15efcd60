/** The random address pipeline: every offset it delivers is a whole block inside the host
    buffer and inside one 4 KB page, whatever the shift register contains. */
module RandomAddr {
  import opened Hw
  import opened RqModel

  /** x is a multiple of 2^n. */
  predicate Mult(x: nat, n: nat) { n == 0 || (x % 2 == 0 && Mult(x / 2, n - 1)) }

  lemma {:induction false} MultAdd(x: nat, y: nat, n: nat)
    requires Mult(x, n) && Mult(y, n)
    ensures Mult(x + y, n)
  {
    if n > 0 {
      MultAdd(x / 2, y / 2, n - 1);
      assert (x + y) / 2 == x / 2 + y / 2;
    }
  }

  lemma {:induction false} MultWeaken(x: nat, n: nat, m: nat)
    requires Mult(x, m) && n <= m
    ensures Mult(x, n)
  {
    if n > 0 { MultWeaken(x / 2, n - 1, m - 1); }
  }

  lemma {:induction false} MultScale(k: nat, n: nat, p: nat)
    requires p == Pow2(n)
    ensures Mult(p * k, n)
  {
    if n > 0 {
      var h := Pow2(n - 1);
      assert p * k == 2 * (h * k);
      MultScale(k, n - 1, h);
    }
  }

  lemma {:induction false} MultIsMod(x: nat, n: nat)
    ensures Mult(x, n) <==> x % Pow2(n) == 0
  {
    ShrLow(x, n);
    ModShift(Low(x, n), Pow2(n), Shr(x, n));
    assert x % Pow2(n) == Low(x, n) by { DivIs(x, Pow2(n), Shr(x, n), Low(x, n)); }
    MultIsLow(x, n);
  }

  lemma {:induction false} MultIsLow(x: nat, n: nat)
    ensures Mult(x, n) <==> Low(x, n) == 0
  {
    if n > 0 { MultIsLow(x / 2, n - 1); }
  }

  lemma {:induction false} AndMult(a: nat, b: nat, n: nat)
    requires Mult(b, n)
    ensures Mult(And(a, b), n) && And(a, b) <= a
    decreases a
  {
    if a > 0 {
      AndMult(a / 2, b / 2, if n == 0 then 0 else n - 1);
    } else {
      MultScale(0, n, Pow2(n));
    }
  }

  /** Masking with a power of two minus one keeps the low bits. */
  lemma {:induction false} AndLow(a: nat, n: nat)
    ensures And(a, Pow2(n) - 1) == Low(a, n)
    decreases a
  {
    if a == 0 {
      ZeroBits(n);
    } else if n == 0 {
      AndZero(a);
    } else {
      AndLow(a / 2, n - 1);
      assert (Pow2(n) - 1) / 2 == Pow2(n - 1) - 1 && (Pow2(n) - 1) % 2 == 1;
    }
  }

  lemma {:induction false} AndZero(a: nat)
    ensures And(a, 0) == 0
    decreases a
  {
    if a > 0 { AndZero(a / 2); }
  }

  /** Truncating a block boundary leaves a block boundary with room for the block. */
  lemma {:induction false} LowBlock(x: nat, n: nat, h: nat)
    requires Mult(x, n) && n <= h
    ensures Mult(Low(x, h), n) && Low(x, h) + Pow2(n) <= Pow2(h)
  {
    if n == 0 {
      ShrLow(x, h);
    } else {
      LowBlock(x / 2, n - 1, h - 1);
      assert Low(x, h) / 2 == Low(x / 2, h - 1) && Low(x, h) % 2 == 0;
    }
  }

  // ---------------------------------------------------------------- the block size

  lemma Powers()
    ensures Pow2(1) == 2 && Pow2(2) == 4 && Pow2(3) == 8 && Pow2(4) == 16 && Pow2(5) == 32 && Pow2(6) == 64
    ensures Pow2(7) == 128 && Pow2(8) == 256 && Pow2(9) == 512 && Pow2(10) == 1024 && Pow2(11) == 2048
      && Pow2(12) == 4096
  {
    assert Pow2(0) == 1;
    assert Pow2(1) == 2 && Pow2(2) == 4 && Pow2(3) == 8;
    assert Pow2(4) == 16 && Pow2(5) == 32 && Pow2(6) == 64;
    assert Pow2(7) == 128 && Pow2(8) == 256 && Pow2(9) == 512;
    assert Pow2(10) == 1024 && Pow2(11) == 2048 && Pow2(12) == 4096;
  }

  /** The logarithm rounds up, and is the least that does (from 4 bytes on). */
  lemma Clog2Covers(size: nat)
    requires 4 <= size <= 4096
    ensures size <= Pow2(Clog2(size)) && Pow2(Clog2(size) - 1) < size
  {
    Powers();
  }

  lemma {:induction false} Pow2Mono(a: nat, b: nat)
    requires a <= b
    ensures Pow2(a) <= Pow2(b)
  {
    if a < b { Pow2Mono(a, b - 1); }
  }

  // ---------------------------------------------------------------- the pipeline

  /** What random mode needs: blocks of 4 to 4096 bytes in a host buffer of 2^h bytes. */
  predicate RandLegal(c: Cfg, h: nat) {
    4 <= c.size <= 4096 && h <= 63 && c.hostSize == Pow2(h) && c.size <= c.hostSize
  }

  /** A whole block at offset r: on a block boundary, inside the buffer, inside one page. */
  predicate Good(c: Cfg, r: nat) {
    r % Pow2(Clog2(c.size)) == 0 && r + c.size <= c.hostSize && r % 4096 + c.size <= 4096
  }

  /** The stages that n cycles with a stable descriptor have filled. */
  predicate Warm(c: Cfg, x: Rand, n: nat) {
    && (n >= 1 ==> x.sizeR == c.size)
    && (n >= 2 ==> x.clog == Clog2(c.size))
    && (n >= 3 ==> x.blockMask == Pow2(Clog2(c.size)) - 1)
    && (n >= 4 ==> Mult(x.wrOff, Clog2(c.size)) && Mult(x.rdOff, Clog2(c.size)))
    && (n >= 5 ==> Mult(x.wrRaw, Clog2(c.size)) && Mult(x.rdRaw, Clog2(c.size)))
    && (n >= 6 ==> Good(c, x.wrOut) && Good(c, x.rdOut))
  }

  lemma OffsetBlock(c: Cfg, x: Rand)
    requires 4 <= c.size && x.blockMask == Pow2(Clog2(c.size)) - 1
    ensures Mult(NextOff(c, x), Clog2(c.size))
  {
    hide Clog2, Mult, And, Pow2;
    var n := Clog2(c.size);
    Powers();
    Pow2Mono(n, 12);
    ComplementMult(n);
    assert (4095 - x.blockMask) % 4096 == 4096 - Pow2(n);
    AndMult(x.lfsr % 4096, 4096 - Pow2(n), n);
  }

  lemma ComplementMult(n: nat)
    requires n <= 12
    ensures Pow2(n) <= 4096 && Mult(4096 - Pow2(n), n)
  {
    Powers();
    Pow2Mono(n, 12);
    MultScale(Pow2(12 - n) - 1, n, Pow2(n));
    assert Pow2(n) * Pow2(12 - n) == 4096 by { PowAdd(n, 12 - n); }
    assert Pow2(n) * (Pow2(12 - n) - 1) == 4096 - Pow2(n);
  }

  lemma Double(x: nat, y: nat)
    ensures (2 * x) * y == 2 * (x * y)
  {
  }

  lemma {:induction false} PowAdd(a: nat, b: nat)
    ensures Pow2(a) * Pow2(b) == Pow2(a + b)
  {
    if a > 0 {
      PowAdd(a - 1, b);
      Double(Pow2(a - 1), Pow2(b));
    }
  }

  lemma RawBlock(page: nat, off: nat, n: nat)
    requires Mult(off, n) && n <= 12
    ensures Mult(PageOf(page) + off, n)
  {
    Powers();
    MultScale(page / 4096, 12, 4096);
    MultWeaken(PageOf(page), n, 12);
    MultAdd(PageOf(page), off, n);
  }

  lemma OutGood(c: Cfg, h: nat, raw: nat)
    requires RandLegal(c, h) && Mult(raw, Clog2(c.size))
    ensures Good(c, And(raw, HostMask(c)))
  {
    var n, r := Clog2(c.size), And(raw, HostMask(c));
    Clog2Covers(c.size);
    if h < n { Pow2Mono(h, n - 1); }
    assert n <= h;
    assert Pow2(h) <= B64 by { Pow2Mono(h, 63); Pow63(); }
    AndLow(raw, h);
    LowBlock(raw, n, h);
    MultIsMod(r, n);
    LowBlock(r, n, 12);
    Powers();
    ShrLow(r, 12);
    DivIs(r, 4096, Shr(r, 12), Low(r, 12));
  }

  lemma Pow63()
    ensures Pow2(63) == 0x8000_0000_0000_0000
  {
    Powers();
    PowAdd(12, 12);
    PowAdd(24, 24);
    PowAdd(48, 12);
    PowAdd(60, 3);
  }

  /** Each cycle fills one more stage. */
  lemma WarmStep(c: Cfg, h: nat, x: Rand, wrTx: nat, rdTx: nat, n: nat)
    requires RandLegal(c, h) && Warm(c, x, n)
    ensures Warm(c, NextRand(c, x, wrTx, rdTx), n + 1)
  {
    hide And, Pow2, Mult;
    var k := Clog2(c.size);
    if n >= 2 {
      assert Pow2(k) <= 4096 by { ComplementMult(k); }
    }
    if n >= 3 { OffsetBlock(c, x); }
    if n >= 4 {
      RawBlock(x.wrPage, x.wrOff, k);
      RawBlock(x.rdPage, x.rdOff, k);
    }
    if n >= 5 {
      OutGood(c, h, x.wrRaw);
      OutGood(c, h, x.rdRaw);
    }
  }
}
