/** Where the blocks of an operation go. The base address of every block is tied to the address
    mode, the sequential generator to a closed form, and no TLP crosses a 4 KB boundary. */
module RqAddress {
  import opened Hw
  import opened RqModel
  import opened RqPlan
  import opened RqRefine
  import opened RandomAddr

  // ---------------------------------------------------------------- sequential mode

  /** Offset of block k: hop by the block size, back to the start when the block after the next
      hop would end in another page. */
  function Hops(c: Cfg, k: nat): nat {
    if k == 0 then 0 else if k == 1 then c.size
    else
      var o := Hops(c, k - 1);
      if W64(c.addr + o + 2 * c.size) / 4096 != c.addr / 4096 then 0 else o + c.size
  }

  /** Blocks that fit before the hop back. */
  function Period(c: Cfg): nat
    requires c.size > 0
  {
    (4095 - c.addr % 4096) / c.size
  }

  /** The closed form of the sequential offsets. */
  function Cycled(c: Cfg, k: nat): nat
    requires c.size > 0
  {
    if Period(c) == 0 then 0 else k % Period(c) * c.size
  }

  lemma PageTest(addr: nat, d: nat)
    requires addr < B64 && d < 8192
    ensures W64(addr + d) / 4096 != addr / 4096 <==> addr % 4096 + d >= 4096
  {
  }

  lemma PeriodFacts(c: Cfg)
    requires 0 < c.size && c.addr % 4096 + 2 * c.size < 4096
    ensures Period(c) >= 2 && Period(c) * c.size <= 4095 - c.addr % 4096 < (Period(c) + 1) * c.size
  {
    var q, r := QuotRem(4095 - c.addr % 4096, c.size);
    assert (q + 1) * c.size == q * c.size + c.size;
    MulLess(2, q + 1, c.size);
  }

  lemma ModStep(k: nat, n: nat)
    requires n >= 2
    ensures (k + 1) % n == if k % n + 1 == n then 0 else k % n + 1
  {
    var q, r := QuotRem(k, n);
    if r + 1 == n {
      assert (q + 1) * n == q * n + n;
      DivIs(k + 1, n, q + 1, 0);
    } else {
      DivIs(k + 1, n, q, r + 1);
    }
  }

  lemma {:induction false} HopsCycle(c: Cfg, k: nat)
    requires 0 < c.size && c.addr < B64 && c.addr % 4096 + 2 * c.size < 4096
    ensures Hops(c, k) == Cycled(c, k)
    ensures c.addr % 4096 + Hops(c, k) + c.size < 4096
  {
    var n := Period(c);
    PeriodFacts(c);
    if k == 0 {
      DivIs(0, n, 0, 0);
      assert 0 * c.size == 0;
    } else if k == 1 {
      DivIs(1, n, 0, 1);
    } else {
      HopsCycle(c, k - 1);
      HopStep(c, k - 1, (k - 1) % n);
    }
  }

  lemma HopUnfold(c: Cfg, k: nat)
    requires k >= 1 && c.addr < B64 && Hops(c, k) + 2 * c.size < 8192
    ensures Hops(c, k + 1) == if c.addr % 4096 + Hops(c, k) + 2 * c.size >= 4096 then 0 else Hops(c, k) + c.size
  {
    PageTest(c.addr, Hops(c, k) + 2 * c.size);
  }

  lemma HopStep(c: Cfg, k: nat, j: nat)
    requires k >= 1 && 0 < c.size && c.addr < B64 && c.addr % 4096 + 2 * c.size < 4096
    requires Period(c) >= 2 && j == k % Period(c) && Hops(c, k) == j * c.size
    requires c.addr % 4096 + Hops(c, k) + c.size < 4096
    ensures Hops(c, k + 1) == Cycled(c, k + 1) && c.addr % 4096 + Hops(c, k + 1) + c.size < 4096
  {
    HopUnfold(c, k);
    PeriodFacts(c);
    ModStep(k, Period(c));
    HopPlace(c.addr % 4096, c.size, Period(c), j);
  }

  /** Hop j of n has room for a successor iff it is not the last. */
  lemma HopPlace(a: nat, size: nat, n: nat, j: nat)
    requires j < n && n * size <= 4095 - a < (n + 1) * size
    ensures a + j * size + 2 * size >= 4096 <==> j + 1 == n
    ensures (j + 1) * size == j * size + size && 0 * size == 0
  {
    assert (j + 2) * size == j * size + 2 * size;
    if j + 1 < n { MulMono(j + 2, n, size); }
  }

  /** The closed form describes the generator exactly when two blocks fit behind the start. */
  lemma SequentialClosedForm(c: Cfg)
    requires 0 < c.size < B64 && c.addr < B64
    ensures (forall k: nat :: W64(c.addr + Hops(c, k)) == W64(c.addr + Cycled(c, k)))
       <==> c.addr % 4096 + 2 * c.size < 4096
  {
    hide Hops, Cycled, W64;
    if c.addr % 4096 + 2 * c.size < 4096 {
      forall k: nat ensures W64(c.addr + Hops(c, k)) == W64(c.addr + Cycled(c, k)) {
        HopsCycle(c, k);
      }
    } else {
      SecondBlockEscapes(c);
      assert W64(c.addr + Hops(c, 1)) != W64(c.addr + Cycled(c, 1));
    }
  }

  lemma SecondBlockEscapes(c: Cfg)
    requires 0 < c.size < B64 && c.addr < B64 && c.addr % 4096 + 2 * c.size >= 4096
    ensures W64(c.addr + Hops(c, 1)) != c.addr == W64(c.addr + Cycled(c, 1))
  {
    var q, r := QuotRem(4095 - c.addr % 4096, c.size);
    MulLess(q, 2, c.size);
    if q == 1 {
      DivIs(1, 1, 1, 0);
      assert 0 * c.size == 0;
    }
  }

  // ---------------------------------------------------------------- bases of the blocks

  predicate SeqAt(c: Cfg, here: nat, next: nat, page: nat, k: nat) {
    page == c.addr / 4096 && here == W64(c.addr + Hops(c, k)) && next == W64(c.addr + Hops(c, k) + c.size)
  }

  /** What the address mode demands of the base of block k. */
  predicate BaseOk(c: Cfg, k: nat, b: nat) {
    if c.mode == 0 then b == if k == 0 then c.addr else W64(c.addr + c.offset)
    else if c.mode == 1 then b == W64(c.addr + Hops(c, k))
    else Good(c, W64(b - c.addr))
  }

  predicate BasesOk(c: Cfg, bs: seq<nat>) { forall k :: 0 <= k < |bs| ==> BaseOk(c, k, bs[k]) }

  predicate GenOk(c: Cfg, s: Rq, l: Log) {
    && s.g.fix == W64(c.addr + c.offset)
    && (c.mode >= 2 ==> Warm(c, s.x, 6))
    && (c.mode >= 2 && s.st != Idle ==> Good(c, W64(s.g.wrRand - c.addr)) && Good(c, W64(s.g.rdRand - c.addr)))
    && (c.mode == 1 && s.st in {InitWrite, Write, InitRead} ==>
          && (c.doesWrite ==> SeqAt(c, s.g.wrSeq, s.g.wrNext, s.g.wrPage, |l.wrBases|))
          && (c.doesRead ==> SeqAt(c, s.g.rdSeq, s.g.rdNext, s.g.rdPage, |l.rdBases|)))
    && (s.st in {InitWrite, Write, InitRead} ==> l.wrBases != [] && l.rdBases != [])
    && (s.st in {InitWrite, Write} ==> c.doesWrite) && (s.st == InitRead ==> c.doesRead)
    && BasesOk(c, l.wrBases) && BasesOk(c, l.rdBases)
  }

  lemma SeqStep(c: Cfg, here: nat, next: nat, page: nat, k: nat)
    requires SeqAt(c, here, next, page, k) && k >= 1 && c.addr < B64
    ensures SeqAt(c, SeqAddr(c, next, page), SeqNext(c, next, page), page, k + 1)
  {
    hide Hops, W64;
    var o := Hops(c, k);
    HopNext(c, k);
    W64Add(c.addr + o + c.size, c.size);
    assert c.addr + o + c.size + c.size == c.addr + o + 2 * c.size;
    W64Start(c.addr);
  }

  lemma W64Start(a: nat)
    requires a < B64
    ensures W64(a) == a
  {
  }

  lemma HopNext(c: Cfg, k: nat)
    requires k >= 1
    ensures Hops(c, k + 1)
         == if W64(c.addr + Hops(c, k) + 2 * c.size) / 4096 != c.addr / 4096 then 0 else Hops(c, k) + c.size
  {
  }

  lemma W64Back(a: nat, r: nat)
    requires r < B64
    ensures W64(W64(a + r) - a) == r
  {
    W64Add(a + r, -(a as int));
  }

  lemma RandStep(c: Cfg, h: nat, r: nat)
    requires RandLegal(c, h) && Good(c, r) && c.addr < B64
    ensures Good(c, W64(W64(c.addr + r) - c.addr))
  {
    hide Pow2;
    Pow2Mono(h, 63);
    Pow63();
    W64Back(c.addr, r);
  }

  lemma FirstGood(c: Cfg, h: nat)
    requires RandLegal(c, h)
    ensures Good(c, 0)
  {
  }

  predicate Addressable(c: Cfg, h: nat) { c.mode >= 2 ==> RandLegal(c, h) }

  lemma GenRand(c: Cfg, h: nat, s: Rq, i: In, l: Log)
    requires Legal(c) && Addressable(c, h) && Shaped(c, s) && GenOk(c, s, l)
    ensures var s' := Next(c, s, i);
      && s'.g.fix == W64(c.addr + c.offset)
      && (c.mode >= 2 ==> Warm(c, s'.x, 6) && Good(c, W64(s'.g.wrRand - c.addr)) && Good(c, W64(s'.g.rdRand - c.addr)))
  {
    hide Next, Hops, Good, Warm, BasesOk, SeqAt, NextRand, W64, Split, FreeTag;
    RandRegs(c, s, i);
    if c.mode >= 2 {
      WarmStep(c, h, s.x, s.g.wrRand, s.g.rdRand, 6);
      WarmOut(c, s.x);
      WarmLess(c, NextRand(c, s.x, s.g.wrRand, s.g.rdRand));
      RandStep(c, h, s.x.wrOut);
      RandStep(c, h, s.x.rdOut);
    }
  }

  lemma RandRegs(c: Cfg, s: Rq, i: In)
    requires Shaped(c, s)
    ensures var s' := Next(c, s, i);
      && s'.g.fix == W64(c.addr + c.offset) && s'.x == NextRand(c, s.x, s.g.wrRand, s.g.rdRand)
      && (s'.g.wrRand == W64(c.addr + s.x.wrOut) || (s.st != Idle && s'.g.wrRand == s.g.wrRand))
      && (s'.g.rdRand == W64(c.addr + s.x.rdOut) || (s.st != Idle && s'.g.rdRand == s.g.rdRand))
  {
    hide NextRand, NextDims, NextBusy, NextSizes, NextBuf, NextOut, NextSt, NextRdRem, NextWrRem, WrTlpEnd, RdIssue,
         W64, SeqAddr, SeqNext, NextWrAddr, NextRdAddr, NextWrRmd, NextWrTlp, NextWrMod, NextRdTlp, NextRdMod;
  }

  lemma WarmOut(c: Cfg, x: Rand)
    requires Warm(c, x, 6)
    ensures Good(c, x.wrOut) && Good(c, x.rdOut)
  {
  }

  lemma WarmLess(c: Cfg, x: Rand)
    requires Warm(c, x, 7)
    ensures Warm(c, x, 6)
  {
  }

  lemma BasesSnoc(c: Cfg, bs: seq<nat>, b: nat)
    requires BasesOk(c, bs) && BaseOk(c, |bs|, b)
    ensures BasesOk(c, bs + [b])
  {
  }

  lemma GenBases(c: Cfg, h: nat, s: Rq, i: In, l: Log)
    requires Legal(c) && Addressable(c, h) && Shaped(c, s) && GenOk(c, s, l)
    ensures var l' := Record(c, s, i, l); BasesOk(c, l'.wrBases) && BasesOk(c, l'.rdBases)
  {
    hide Hops, Good, Warm, Split, FirstFree;
    if Start(c, s, i) {
      if c.mode >= 2 { FirstGood(c, h); }
      assert Hops(c, 0) == 0 by { NoHops(c); }
    } else if WrTlpEnd(s, i) {
      BasesSnoc(c, l.wrBases, WrGenAddr(c, s.g));
    } else if RdIssue(s, i) {
      BasesSnoc(c, l.rdBases, RdGenAddr(c, s.g));
    }
  }

  lemma NoHops(c: Cfg)
    ensures Hops(c, 0) == 0 && Hops(c, 1) == c.size
  {
  }

  /** The step of both sequential generators, register by register. */
  lemma GenSeqRegs(c: Cfg, s: Rq, i: In)
    requires Legal(c) && Shaped(c, s) && s.st != Idle
    ensures var g, g' := s.g, NextGen(c, s, i);
      && g'.wrPage == g.wrPage && g'.rdPage == g.rdPage
      && (if WrTlpEnd(s, i) && WrBlockEnd(s)
          then g'.wrSeq == SeqAddr(c, g.wrNext, g.wrPage) && g'.wrNext == SeqNext(c, g.wrNext, g.wrPage)
          else g'.wrSeq == g.wrSeq && g'.wrNext == g.wrNext)
      && (if RdIssue(s, i) && RdBlockEnd(s)
          then g'.rdSeq == SeqAddr(c, g.rdNext, g.rdPage) && g'.rdNext == SeqNext(c, g.rdNext, g.rdPage)
          else g'.rdSeq == g.rdSeq && g'.rdNext == g.rdNext)
  {
    hide SeqAddr, SeqNext;
  }

  lemma GenSeqStart(c: Cfg, s: Rq, i: In)
    requires Legal(c) && Shaped(c, s) && Start(c, s, i)
    ensures var g := NextGen(c, s, i);
      && (c.doesWrite ==> SeqAt(c, g.wrSeq, g.wrNext, g.wrPage, 1))
      && (c.doesRead ==> SeqAt(c, g.rdSeq, g.rdNext, g.rdPage, 1))
  {
    hide SeqAddr, SeqNext;
    NoHops(c);
  }

  lemma GenSeq(c: Cfg, s: Rq, i: In, l: Log)
    requires Legal(c) && Shaped(c, s) && GenOk(c, s, l) && c.mode == 1
    ensures var g, l' := NextGen(c, s, i), Record(c, s, i, l);
      s.st in {InitWrite, Write, InitRead} || Start(c, s, i) ==>
        && (c.doesWrite ==> SeqAt(c, g.wrSeq, g.wrNext, g.wrPage, |l'.wrBases|))
        && (c.doesRead ==> SeqAt(c, g.rdSeq, g.rdNext, g.rdPage, |l'.rdBases|))
  {
    hide NextGen, SeqAt, Hops, Split, FirstFree, SeqAddr, SeqNext, BasesOk, Warm, Good;
    if Start(c, s, i) {
      GenSeqStart(c, s, i);
    } else if s.st in {InitWrite, Write, InitRead} {
      GenSeqRegs(c, s, i);
      if c.doesWrite { SeqStep(c, s.g.wrSeq, s.g.wrNext, s.g.wrPage, |l.wrBases|); }
      if c.doesRead { SeqStep(c, s.g.rdSeq, s.g.rdNext, s.g.rdPage, |l.rdBases|); }
    }
  }

  lemma GenStep(c: Cfg, h: nat, s: Rq, i: In, l: Log)
    requires Legal(c) && Addressable(c, h) && Shaped(c, s) && GenOk(c, s, l)
    ensures GenOk(c, Next(c, s, i), Record(c, s, i, l))
  {
    hide NextRand, NextGen, NextDims, NextBusy, NextSizes, NextBuf, NextOut, Hops, Good, Warm, Split, FirstFree,
         BasesOk, SeqAt;
    GenRand(c, h, s, i, l);
    GenBases(c, h, s, i, l);
    if c.mode == 1 { GenSeq(c, s, i, l); }
  }
}
