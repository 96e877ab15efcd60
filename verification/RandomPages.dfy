/** Where random mode goes: the block that the pipeline delivers, in terms of the contents of the
    shift register some cycles before and of the block address then in force. */
module RandomPages {
  import opened Hw
  import opened RqModel
  import opened RqPlan
  import opened RqRefine
  import opened RqRuns
  import opened RandomAddr
  import opened RqAddress

  const B31 := 0x8000_0000

  /** The drawn page, or the one after it if the drawn one is the page of the address in force. */
  function Drawn(c: Cfg, v: nat, tx: nat): nat
    requires c.hostSize > 0
  {
    var p := v % c.hostSize / 4096;
    if p == tx / 4096 then p + 1 else p
  }

  /** Place in the page: a block boundary. */
  function Inner(c: Cfg, w: nat): (o: nat)
    ensures o < 4096
  {
    w % 4096 - w % 4096 % Pow2(Clog2(c.size))
  }

  /** Offset of the block for content v, content w two cycles later and address tx in that cycle. */
  function Block(c: Cfg, v: nat, w: nat, tx: nat): nat
    requires c.hostSize > 0
  {
    (4096 * Drawn(c, v, tx) + Inner(c, w)) % c.hostSize
  }

  // ---------------------------------------------------------------- masks as remainders

  lemma AndIsMod(a: nat, c: Cfg, h: nat)
    requires RandLegal(c, h)
    ensures And(a, HostMask(c)) == a % c.hostSize
  {
    hide And, Pow2, Low, Shr;
    assert Pow2(h) <= B64 by {
      Pow2Mono(h, 63);
      Pow63();
    }
    AndLow(a, h);
    ShrLow(a, h);
    DivIs(a, Pow2(h), Shr(a, h), Low(a, h));
  }

  /** Clearing the low n of k bits. */
  lemma {:induction false} AndHigh(a: nat, n: nat, k: nat)
    requires n <= k && a < Pow2(k)
    ensures Pow2(n) <= Pow2(k) && And(a, Pow2(k) - Pow2(n)) == a - Low(a, n)
  {
    hide And;
    Pow2Mono(n, k);
    if n == 0 {
      AllBits(a, k);
    } else {
      assert a / 2 < Pow2(k - 1);
      AndHigh(a / 2, n - 1, k - 1);
      AndEven(a, Pow2(k - 1) - Pow2(n - 1));
    }
  }

  lemma AllBits(a: nat, k: nat)
    requires a < Pow2(k)
    ensures And(a, Pow2(k) - 1) == a
  {
    hide And, Pow2, Low, Shr;
    AndLow(a, k);
    ShrLow(a, k);
    if Shr(a, k) > 0 { MulMono(1, Shr(a, k), Pow2(k)); }
  }

  lemma AndEven(a: nat, b: nat)
    ensures And(a, 2 * b) == 2 * And(a / 2, b)
  {
    if a > 0 { assert 2 * b / 2 == b && (2 * b) % 2 == 0; }
  }

  lemma OffsetIs(c: Cfg, x: Rand)
    requires 4 <= c.size && x.blockMask == Pow2(Clog2(c.size)) - 1
    ensures NextOff(c, x) == Inner(c, x.lfsr)
  {
    hide Clog2, And, Pow2, Low, Shr;
    var n, a := Clog2(c.size), x.lfsr % 4096;
    Powers();
    AndHigh(a, n, 12);
    ShrLow(a, n);
    DivIs(a, Pow2(n), Shr(a, n), Low(a, n));
  }

  // ---------------------------------------------------------------- the pipeline

  lemma PageIs(c: Cfg, x: Rand, v: nat, tx: nat)
    requires 0 < c.hostSize <= B64 / 2 && x.cand == v % c.hostSize && x.candPlus == W64(x.cand + 4096)
    ensures NextPage(x, tx) == 4096 * Drawn(c, v, tx)
  {
  }

  /** Five cycles of the pipeline, for one direction. */
  lemma Delivered(c: Cfg, h: nat, v: nat, x2: Rand, page: nat, tx: nat)
    requires RandLegal(c, h) && x2.cand == And(v, HostMask(c)) && x2.candPlus == W64(x2.cand + 4096)
    requires x2.blockMask == Pow2(Clog2(c.size)) - 1 && page == NextPage(x2, tx)
    ensures And(PageOf(page) + NextOff(c, x2), HostMask(c)) == Block(c, v, x2.lfsr, tx)
  {
    hide And, Pow2, Clog2, HostMask, NextPage, NextOff, Drawn, Inner;
    assert c.hostSize <= B64 / 2 by {
      Pow2Mono(h, 63);
      Pow63();
    }
    AndIsMod(v, c, h);
    PageIs(c, x2, v, tx);
    OffsetIs(c, x2);
    AndIsMod(PageOf(page) + NextOff(c, x2), c, h);
  }

  /** In every run: the offset that stands at the end of the pipeline is the block drawn with the
      content of the shift register five cycles before. The page is the drawn one, moved up by one,
      modulo the buffer, iff it is the page of the block address in force three cycles before. */
  lemma RandomBlock(c: Cfg, h: nat, s: Rq, l: Log, ins: seq<In>)
    requires Legal(c) && RandLegal(c, h) && Shaped(c, s) && Warm(c, s.x, 1) && |ins| == 5
    ensures var t, r := Exec(c, s, l, ins[..2]).0, Exec(c, s, l, ins).0;
      && r.x.wrOut == Block(c, s.x.lfsr, t.x.lfsr, t.g.wrRand)
      && r.x.rdOut == Block(c, s.x.lfsr, t.x.lfsr, t.g.rdRand)
  {
    hide Next, Record, Legal, NextRand, Warm, Block, RandLegal;
    var s1 := OneCycle(c, s, l, ins, 0);
    var s2 := OneCycle(c, s, l, ins, 1);
    var s3 := OneCycle(c, s, l, ins, 2);
    var s4 := OneCycle(c, s, l, ins, 3);
    var s5 := OneCycle(c, s, l, ins, 4);
    assert ins[..5] == ins && ins[..0] == [];
    WarmStep(c, h, s.x, s.g.wrRand, s.g.rdRand, 1);
    WarmStep(c, h, s1.x, s1.g.wrRand, s1.g.rdRand, 2);
    Through(c, h, s, s1, s2, s3, s4, s5);
  }

  lemma OneCycle(c: Cfg, s: Rq, l: Log, ins: seq<In>, k: nat) returns (r: Rq)
    requires Legal(c) && Shaped(c, s) && k < |ins|
    ensures var p := Exec(c, s, l, ins[..k]).0;
      r == Exec(c, s, l, ins[..k + 1]).0 && r.x == NextRand(c, p.x, p.g.wrRand, p.g.rdRand)
  {
    hide Next, Record, NextRand;
    r := Exec(c, s, l, ins[..k + 1]).0;
    assert ins[..k + 1][..k] == ins[..k];
    RandRegs(c, Exec(c, s, l, ins[..k]).0, ins[k]);
  }

  lemma Through(c: Cfg, h: nat, s: Rq, s1: Rq, s2: Rq, s3: Rq, s4: Rq, s5: Rq)
    requires RandLegal(c, h) && Warm(c, s2.x, 3)
    requires s1.x == NextRand(c, s.x, s.g.wrRand, s.g.rdRand) && s2.x == NextRand(c, s1.x, s1.g.wrRand, s1.g.rdRand)
    requires s3.x == NextRand(c, s2.x, s2.g.wrRand, s2.g.rdRand) && s4.x == NextRand(c, s3.x, s3.g.wrRand, s3.g.rdRand)
    requires s5.x == NextRand(c, s4.x, s4.g.wrRand, s4.g.rdRand)
    ensures s5.x.wrOut == Block(c, s.x.lfsr, s2.x.lfsr, s2.g.wrRand)
    ensures s5.x.rdOut == Block(c, s.x.lfsr, s2.x.lfsr, s2.g.rdRand)
  {
    hide And, Pow2, Clog2, HostMask, NextPage, NextOff, Block, PageOf, Mult, Good, RandLegal;
    Delivered(c, h, s.x.lfsr, s2.x, s3.x.wrPage, s2.g.wrRand);
    Delivered(c, h, s.x.lfsr, s2.x, s3.x.rdPage, s2.g.rdRand);
  }

  /** The base of the next block is taken from there when a block ends. */
  lemma BlockTakesIt(c: Cfg, s: Rq, i: In)
    requires Legal(c) && Shaped(c, s)
    ensures var g := Next(c, s, i).g;
      && (s.st == Idle || (WrTlpEnd(s, i) && WrBlockEnd(s)) ==> g.wrRand == W64(c.addr + s.x.wrOut))
      && (s.st == Idle || (RdIssue(s, i) && RdBlockEnd(s)) ==> g.rdRand == W64(c.addr + s.x.rdOut))
  {
    hide NextRand, NextDims, NextBusy, NextSizes, NextBuf, NextOut, NextSt, NextRdRem, NextWrRem, W64;
  }

  // ---------------------------------------------------------------- which pages

  lemma PageOfBlock(c: Cfg, h: nat, v: nat, w: nat, tx: nat)
    requires RandLegal(c, h) && c.hostSize >= 4096
    ensures c.hostSize % 4096 == 0
    ensures Block(c, v, w, tx) / 4096 == Drawn(c, v, tx) % (c.hostSize / 4096)
    ensures Block(c, v, w, tx) % 4096 == Inner(c, w)
  {
    hide Drawn, Inner, Pow2;
    Powers();
    if h < 12 { Pow2Mono(h, 11); }
    PowAdd(12, h - 12);
    var n, d := Pow2(h - 12), Drawn(c, v, tx);
    assert c.hostSize == n * 4096;
    DivIs(c.hostSize, 4096, n, 0);
    Fold(d, Inner(c, w), n);
  }

  lemma Fold(d: nat, o: nat, n: nat)
    requires o < 4096 && n > 0
    ensures (4096 * d + o) % (n * 4096) == 4096 * (d % n) + o
  {
    var q, r := d / n, d % n;
    MulMono(r + 1, n, 4096);
    assert d == q * n + r;
    assert (q * n) * 4096 == q * (n * 4096);
    assert 4096 * d + o == q * (n * 4096) + (4096 * r + o);
    DivIs(4096 * d + o, n * 4096, q, 4096 * r + o);
  }

  function Pages(c: Cfg): nat { c.hostSize / 4096 }

  /** The 31 bits of the register name that many pages. */
  const NAMES := 0x8_0000

  /** Page q can be drawn while t is the page of the address in force: it has a name and is not t, or
      it is the one after t. */
  predicate CanDraw(n: nat, t: nat, q: nat)
    requires n > 0
  {
    (q < n && q < NAMES && q != t) || (t < n && t < NAMES && (t + 1) % n == q)
  }

  /** A page of the buffer is reached by some content of the register iff it can be drawn. */
  lemma PageReached(c: Cfg, h: nat, w: nat, tx: nat, q: nat)
    requires RandLegal(c, h) && c.hostSize >= 4096 && q < Pages(c)
    ensures (exists v :: 0 <= v < B31 && Block(c, v, w, tx) / 4096 == q) <==> CanDraw(Pages(c), tx / 4096, q)
  {
    var t, n := tx / 4096, Pages(c);
    if v :| 0 <= v < B31 && Block(c, v, w, tx) / 4096 == q {
      Named(c, h, v, w, tx);
    }
    if q < NAMES && q != t {
      Naming(c, h, w, tx, q);
      assert Block(c, 4096 * q, w, tx) / 4096 == q;
    } else if t < n && t < NAMES && (t + 1) % n == q {
      Naming(c, h, w, tx, t);
      assert Block(c, 4096 * t, w, tx) / 4096 == q;
    }
  }

  /** The page a content names. */
  lemma Named(c: Cfg, h: nat, v: nat, w: nat, tx: nat)
    requires RandLegal(c, h) && c.hostSize >= 4096 && v < B31
    ensures CanDraw(Pages(c), tx / 4096, Block(c, v, w, tx) / 4096)
  {
    PageOfBlock(c, h, v, w, tx);
    hide RandLegal, Block;
    var n, p := Pages(c), v % c.hostSize / 4096;
    DrawnSmall(v, c.hostSize, n);
    assert Drawn(c, v, tx) % n == if p == tx / 4096 then (p + 1) % n else p;
  }

  lemma DrawnSmall(v: nat, m: nat, n: nat)
    requires v < B31 && n > 0 && m == n * 4096
    ensures var p := v % m / 4096; p < n && p < NAMES && p % n == p
  {
    var q, r := QuotRem(v, m);
    MulMono(0, q, m);
    PageBelow(r, n);
  }

  lemma PageBelow(r: nat, n: nat)
    requires r < n * 4096 && r < B31
    ensures r / 4096 < n && r / 4096 < NAMES && r / 4096 % n == r / 4096
  {
    DivIs(r / 4096, n, 0, r / 4096);
  }

  /** The content that names page q. */
  lemma Naming(c: Cfg, h: nat, w: nat, tx: nat, q: nat)
    requires RandLegal(c, h) && c.hostSize >= 4096 && q < Pages(c) && q < NAMES
    ensures 4096 * q < B31
    ensures Block(c, 4096 * q, w, tx) / 4096 == if q == tx / 4096 then (q + 1) % Pages(c) else q
  {
    PageOfBlock(c, h, 4096 * q, w, tx);
    hide RandLegal, Block;
    var n := Pages(c);
    assert (4096 * q) % c.hostSize == 4096 * q by { DivIs(4096 * q, c.hostSize, 0, 4096 * q); }
    assert Drawn(c, 4096 * q, tx) == if q == tx / 4096 then q + 1 else q;
    assert q % n == q by { DivIs(q, n, 0, q); }
  }

  /** The source compares the drawn page, which is an offset, with the page of an absolute address. A
      block never falls in the page of the block in force, at offset o of the buffer, iff both
      numbers are the same, as for a buffer at address 0, or the register cannot name that page nor
      step to it. */
  lemma NeverTheSamePage(c: Cfg, h: nat, w: nat, o: nat)
    requires RandLegal(c, h) && c.hostSize >= 8192 && o < c.hostSize
    ensures var q, tx := o / 4096, W64(c.addr + o);
      (forall v :: 0 <= v < B31 ==> Block(c, v, w, tx) / 4096 != q)
      <==> tx / 4096 == q || (q >= NAMES && !(q == NAMES && tx / 4096 == q - 1))
  {
    var q, tx := o / 4096, W64(c.addr + o);
    PageOfBlock(c, h, 0, w, tx);
    hide Block;
    PageReached(c, h, w, tx, q);
    hide RandLegal;
    StepsTo(Pages(c), tx / 4096, q);
  }

  lemma StepsTo(n: nat, t: nat, q: nat)
    requires n >= 2 && q < n
    ensures CanDraw(n, t, q) <==> !(t == q || (q >= NAMES && !(q == NAMES && t == q - 1)))
  {
    if t + 1 < n {
      DivIs(t + 1, n, 0, t + 1);
    } else if t + 1 == n {
      DivIs(t + 1, n, 1, 0);
    }
  }

  // ---------------------------------------------------------------- the shift register

  /** It never gets stuck at zero. */
  lemma {:induction false} NeverStuck(c: Cfg, l: Log, ins: seq<In>)
    requires Legal(c)
    ensures 0 < Exec(c, Reset(c), l, ins).0.x.lfsr < B31
  {
    hide Next, Record, NextRand, Legal;
    if ins == [] {
      ResetContent(c);
    } else {
      hide Reset;
      var k := |ins| - 1;
      NeverStuck(c, l, ins[..k]);
      var s := OneCycle(c, Reset(c), l, ins, k);
      assert ins[..k + 1] == ins;
      var p := Exec(c, Reset(c), l, ins[..k]).0;
      Moves(c, p.x, p.g.wrRand, p.g.rdRand);
    }
  }

  lemma ResetContent(c: Cfg)
    ensures Reset(c).x.lfsr == 1
  {
  }

  /** One step: up by one bit, and a new lowest bit. */
  lemma Moves(c: Cfg, x: Rand, wrTx: nat, rdTx: nat)
    requires x.lfsr < B31
    ensures var y := NextRand(c, x, wrTx, rdTx).lfsr;
      && y < B31 && y / 2 == Low(x.lfsr, 30) && (x.lfsr > 0 ==> y > 0)
      && y % 2 == (Shr(x.lfsr, 30) + Shr(x.lfsr, 27)) % 2
  {
    hide And, HostMask, NextPage, NextOff, Clog2, Shr, Low, Pow2;
    BigPowers();
    ShrIs(x.lfsr, 27);
    ShrIs(x.lfsr, 30);
    OneBit(x.lfsr, x.lfsr / 0x4000_0000, x.lfsr % 0x4000_0000, x.lfsr / 0x800_0000);
  }

  lemma ShrIs(x: nat, n: nat)
    ensures Shr(x, n) == x / Pow2(n) && Low(x, n) == x % Pow2(n)
  {
    hide Shr, Low, Pow2;
    ShrLow(x, n);
    DivIs(x, Pow2(n), Shr(x, n), Low(x, n));
  }

  lemma OneBit(v: nat, top: nat, low: nat, mid: nat)
    requires v < B31 && v == 0x4000_0000 * top + low && low < 0x4000_0000
    requires 0x800_0000 * mid <= v < 0x800_0000 * (mid + 1)
    ensures var y := (2 * v) % 0x8000_0000 + (top % 2 + mid % 2) % 2;
      y < B31 && y / 2 == low && (v > 0 ==> y > 0) && y % 2 == (top + mid) % 2
  {
    assert (2 * v) % 0x8000_0000 == 2 * low;
  }

  lemma BigPowers()
    ensures Pow2(27) == 0x800_0000 && Pow2(30) == 0x4000_0000
  {
    hide Pow2;
    Powers();
    PowAdd(12, 12);
    PowAdd(24, 3);
    PowAdd(24, 6);
  }

  lemma {:induction false} KeepsBit(y: nat, k: nat, j: nat)
    requires j < k
    ensures Shr(Low(y, k), j) % 2 == Shr(y, j) % 2
  {
    if j > 0 {
      assert Low(y, k) / 2 == Low(y / 2, k - 1);
      KeepsBit(y / 2, k - 1, j - 1);
    }
  }

  lemma Bit0(y: nat, j: nat)
    ensures Shr(y, j) == if j == 0 then y else Shr(y / 2, j - 1)
  {
  }

  /** A bit that came in j cycles ago stands at position j. */
  lemma {:induction false} Shifted(c: Cfg, s: Rq, l: Log, ins: seq<In>, j: nat)
    requires Legal(c) && Shaped(c, s) && s.x.lfsr < B31 && j <= |ins| && j <= 30
    ensures var y := Exec(c, s, l, ins[..j]).0.x.lfsr; y < B31 && Shr(y, j) % 2 == s.x.lfsr % 2
  {
    hide Next, Record, NextRand, Legal, Low, Shr;
    if j == 0 {
      assert ins[..0] == [];
      Bit0(s.x.lfsr, 0);
    } else {
      Shifted(c, s, l, ins, j - 1);
      var r := OneCycle(c, s, l, ins, j - 1);
      var p := Exec(c, s, l, ins[..j - 1]).0;
      Moves(c, p.x, p.g.wrRand, p.g.rdRand);
      KeepsBit(p.x.lfsr, 30, j - 1);
      Bit0(r.x.lfsr, j);
    }
  }

  /** In every run the lowest bits form the sequence b(n + 31) = b(n) xor b(n + 3). */
  lemma Recurrence(c: Cfg, s: Rq, l: Log, ins: seq<In>)
    requires Legal(c) && Shaped(c, s) && s.x.lfsr < B31 && |ins| == 31
    ensures var s3, s31 := Exec(c, s, l, ins[..3]).0, Exec(c, s, l, ins).0;
      s31.x.lfsr % 2 == (s.x.lfsr % 2 + s3.x.lfsr % 2) % 2
  {
    hide Next, Record, NextRand, Legal, Low, Shr, Exec;
    Shifted(c, s, l, ins, 30);
    Shifted(c, s, l, ins, 3);
    var (s3, l3) := Exec(c, s, l, ins[..3]);
    Shifted(c, s3, l3, ins[3..], 27);
    ExecJoins(c, s, l, ins, 3, 30);
    var p := Exec(c, s, l, ins[..30]).0;
    var r := OneCycle(c, s, l, ins, 30);
    assert ins[..31] == ins;
    Moves(c, p.x, p.g.wrRand, p.g.rdRand);
  }

  lemma {:induction false} ExecJoins(c: Cfg, s: Rq, l: Log, ins: seq<In>, a: nat, b: nat)
    requires Legal(c) && Shaped(c, s) && a <= b <= |ins|
    ensures var (r, m) := Exec(c, s, l, ins[..a]); Exec(c, r, m, ins[a..][..b - a]) == Exec(c, s, l, ins[..b])
  {
    hide Next, Record, Legal;
    if b == a {
      assert ins[a..][..0] == [];
    } else {
      ExecJoins(c, s, l, ins, a, b - 1);
      assert ins[a..][..b - a][..b - a - 1] == ins[a..][..b - 1 - a] && ins[..b][..b - 1] == ins[..b - 1];
      assert ins[a..][..b - a][b - a - 1] == ins[b - 1] == ins[..b][b - 1];
    }
  }
}
