/** Run-level consequences of the address invariants, and the start of every run: from reset, a
    descriptor that is stable for a few idle cycles makes the requester ready. */
module RqSafety {
  import opened Hw
  import opened RqModel
  import opened RqPlan
  import opened RqRefine
  import opened RqSteps
  import opened RqRuns
  import opened RandomAddr
  import opened RqAddress

  lemma {:induction false} RunGen(c: Cfg, h: nat, s: Rq, ins: seq<In>)
    requires Legal(c) && Addressable(c, h) && Ready(c, s) && GenOk(c, s, EMPTY)
    ensures var (r, l) := Exec(c, s, EMPTY, ins); GenOk(c, r, l)
  {
    hide Next, Record, GenOk;
    if ins != [] {
      RunGen(c, h, s, ins[..|ins| - 1]);
      var (s1, l1) := Exec(c, s, EMPTY, ins[..|ins| - 1]);
      GenStep(c, h, s1, ins[|ins| - 1], l1);
    }
  }

  // ---------------------------------------------------------------- reset

  /** What n idle cycles with a stable descriptor have established. */
  predicate Warming(c: Cfg, s: Rq, n: nat) {
    && Shaped(c, s) && s.st == Idle
    && (n >= 1 ==> s.d.winR == c.window && Bounded(s.g) && s.g.fix == W64(c.addr + c.offset))
    && (n >= 2 ==> DimsOk(c, s.d))
    && (c.mode >= 2 ==> Warm(c, s.x, n))
  }

  /** Stable cycles an operation needs before its start: two, or six to fill the random pipeline. */
  predicate Enough(c: Cfg, n: nat) { if c.mode <= 1 then n >= 2 else n >= 6 }

  lemma WarmingRegs(c: Cfg, s: Rq, i: In, n: nat)
    requires Legal(c) && Warming(c, s, n) && !Start(c, s, i)
    ensures var s' := Next(c, s, i);
      && Shaped(c, s') && s'.st == Idle
      && s'.d.winR == c.window && Bounded(s'.g) && s'.g.fix == W64(c.addr + c.offset)
      && s'.d == NextDims(c, s.d) && s'.x == NextRand(c, s.x, s.g.wrRand, s.g.rdRand)
  {
    hide NextRand, NextBusy, NextSizes, NextBuf, NextOut, Warm, Good, DimsOk, Even, Odd, NextRdRem, NextWrRem;
  }

  lemma WarmingStep(c: Cfg, h: nat, s: Rq, i: In, n: nat)
    requires Legal(c) && Addressable(c, h) && Warming(c, s, n) && !Start(c, s, i)
    ensures Warming(c, Next(c, s, i), n + 1)
  {
    hide Next, NextRand, NextDims, Warm, Good, DimsOk, Start;
    WarmingRegs(c, s, i, n);
    if n >= 1 { DimsStep(c, s.d); }
    if c.mode >= 2 {
      WarmStep(c, h, s.x, s.g.wrRand, s.g.rdRand, n);
    }
  }

  lemma WarmDown(c: Cfg, x: Rand, n: nat)
    requires Warm(c, x, n) && n >= 6
    ensures Good(c, x.wrOut) && Good(c, x.rdOut) && Warm(c, x, 6)
  {
  }

  /** Nothing in course and nothing left to send, whatever descriptor was used before. */
  predicate AtIdle(c: Cfg, s: Rq) { Shaped(c, s) && s.st == Idle && s.pipe == Idle && !s.out.valid }

  lemma IdleKept(c: Cfg, s: Rq, i: In)
    requires Legal(c) && AtIdle(c, s) && !i.valid
    ensures AtIdle(c, Next(c, s, i)) && Record(c, s, i, EMPTY) == EMPTY && !Start(c, s, i)
  {
    hide NextRand, NextGen, NextDims, NextBusy, NextSizes, NextBuf, Pow2, Split;
  }

  predicate NotAsked(ins: seq<In>) { forall k :: 0 <= k < |ins| ==> !ins[k].valid }

  lemma {:induction false} WarmUp(c: Cfg, h: nat, s: Rq, ins: seq<In>)
    requires Legal(c) && Addressable(c, h) && AtIdle(c, s) && NotAsked(ins)
    ensures var (r, l) := Exec(c, s, EMPTY, ins); Warming(c, r, |ins|) && AtIdle(c, r) && l == EMPTY
  {
    hide Next, Record, Start;
    if ins != [] {
      WarmUp(c, h, s, ins[..|ins| - 1]);
      IdleKept(c, Exec(c, s, EMPTY, ins[..|ins| - 1]).0, ins[|ins| - 1]);
      WarmingStep(c, h, Exec(c, s, EMPTY, ins[..|ins| - 1]).0, ins[|ins| - 1], |ins| - 1);
    }
  }

  /** After any earlier operation and any earlier descriptor, one cycle with TREADY empties the output
      register of a requester that is back in its idle state. */
  lemma IdleAfterEnd(c: Cfg, s: Rq, i: In)
    requires Shaped(c, s) && s.st == Idle && i.ready && !i.valid
    ensures AtIdle(c, Next(c, s, i))
  {
    hide NextRand, NextGen, NextDims, NextBusy, NextSizes, NextBuf, Pow2;
  }

  /** From there, two cycles without a request put every register that follows the descriptor in
      place, in random mode six. */
  lemma ReadyAfterIdle(c: Cfg, h: nat, s: Rq, ins: seq<In>)
    requires Legal(c) && Addressable(c, h) && AtIdle(c, s) && NotAsked(ins) && Enough(c, |ins|)
    ensures var (r, l) := Exec(c, s, EMPTY, ins); Ready(c, r) && GenOk(c, r, EMPTY) && l == EMPTY
  {
    hide Next, Record, Exec, Warming, Ready, GenOk;
    WarmUp(c, h, s, ins);
    WarmIsReady(c, Exec(c, s, EMPTY, ins).0, |ins|);
  }

  /** The same from reset. */
  lemma ReadyAfterReset(c: Cfg, h: nat, ins: seq<In>)
    requires Legal(c) && Addressable(c, h) && NotAsked(ins) && Enough(c, |ins|)
    ensures var (r, l) := Exec(c, Reset(c), EMPTY, ins); Ready(c, r) && GenOk(c, r, EMPTY) && l == EMPTY
  {
    hide Exec, Ready, GenOk;
    ReadyAfterIdle(c, h, Reset(c), ins);
  }

  lemma WarmIsReady(c: Cfg, r: Rq, n: nat)
    requires Legal(c) && Warming(c, r, n) && AtIdle(c, r) && Enough(c, n)
    ensures Ready(c, r) && GenOk(c, r, EMPTY)
  {
    hide Warming, Settled, GenOk;
    WarmIsSettled(c, r, n);
  }

  lemma WarmIsSettled(c: Cfg, r: Rq, n: nat)
    requires Legal(c) && Warming(c, r, n) && Enough(c, n)
    ensures Settled(c, r) && GenOk(c, r, EMPTY)
  {
    hide Warm, Good, DimsOk, Split, Hops;
    if c.mode >= 2 { WarmDown(c, r.x, n); }
  }

  /** A start from a settled idle state establishes the invariants, even while the last beat of the
      operation before is still being taken. */
  lemma StartEstablishes(c: Cfg, h: nat, s: Rq, i: In, l: Log)
    requires Legal(c) && Addressable(c, h) && Settled(c, s) && GenOk(c, s, EMPTY) && Start(c, s, i)
    ensures Inv(c, Next(c, s, i), Record(c, s, i, l)) && GenOk(c, Next(c, s, i), Record(c, s, i, l))
  {
    hide Next, Record, GenOk, Inv, Start, DimsOk, Bounded, Split;
    var clear := s.(out := s.out.(valid := false));
    SameStart(c, s, clear, i, l);
    ClearInv(c, clear);
    InvStep(c, clear, i, EMPTY);
    GenStep(c, h, clear, i, EMPTY);
  }

  lemma SameStart(c: Cfg, s: Rq, clear: Rq, i: In, l: Log)
    requires Legal(c) && Settled(c, s) && Start(c, s, i) && clear == s.(out := s.out.(valid := false))
    requires GenOk(c, s, EMPTY)
    ensures Settled(c, clear) && GenOk(c, clear, EMPTY) && !clear.out.valid
    ensures clear.st == Idle && clear.pipe != InitWrite && clear.pipe != Write
    ensures Next(c, clear, i) == Next(c, s, i) && Record(c, clear, i, EMPTY) == Record(c, s, i, l)
  {
    hide NextRand, NextGen, NextDims, NextBusy, NextSizes, NextBuf, Pow2, Split, DimsOk, Good, Warm, Hops, BasesOk,
         SeqAt;
    SameGen(c, s, clear, i);
  }

  lemma SameGen(c: Cfg, s: Rq, clear: Rq, i: In)
    requires clear == s.(out := s.out.(valid := false))
    ensures NextGen(c, clear, i) == NextGen(c, s, i) && Pops(clear, i) == Pops(s, i)
  {
  }

  lemma ClearInv(c: Cfg, s: Rq)
    requires Legal(c) && Settled(c, s) && s.st == Idle && s.pipe != InitWrite && s.pipe != Write && !s.out.valid
    ensures Inv(c, s, EMPTY)
  {
    hide DimsOk, Split;
    assert FrameAll([]) == [];
  }

  // ---------------------------------------------------------------- six cycles are needed

  /** After reset the first offsets are cut with the mask of the old size. */
  predicate Early(x: Rand, n: nat) {
    && (n == 0 ==> x.lfsr == 1 && x.sizeR == 0)
    && (n == 1 ==> x.lfsr == 2 && x.clog == 1)
    && (n == 2 ==> x.lfsr == 4 && x.blockMask == 1)
    && (n == 3 ==> x.wrOff % 8 == x.rdOff % 8 == 4)
    && (n == 4 ==> x.wrRaw % 8 == x.rdRaw % 8 == 4)
  }

  lemma EarlyStep(c: Cfg, x: Rand, wrTx: nat, rdTx: nat, n: nat)
    requires c.size > 0 && Early(x, n) && n < 4
    ensures Early(NextRand(c, x, wrTx, rdTx), n + 1)
  {
    hide HostMask, NextPage, And, Pow2, PageOf;
    if n < 3 {
      FewBits();
    } else {
      SamePlace(x.wrPage, x.wrOff);
      SamePlace(x.rdPage, x.rdOff);
    }
  }

  lemma FewBits()
    ensures Pow2(1) == 2 && And(4, 4094) == 4
  {
    assert Pow2(0) == 1;
    assert And(1, 1023) == 1 && And(2, 2047) == 2;
  }

  lemma SamePlace(page: nat, off: nat)
    ensures (PageOf(page) + off) % 8 == off % 8
  {
    ModShift(off, 8, page / 4096 * 512);
  }

  lemma AtReset(c: Cfg)
    ensures AtIdle(c, Reset(c)) && Early(Reset(c).x, 0)
  {
    hide Mask, Early;
    EarlyFirst(Reset(c).x);
  }

  lemma EarlyFirst(x: Rand)
    requires x.lfsr == 1 && x.sizeR == 0
    ensures Early(x, 0)
  {
  }

  lemma {:induction false} EarlyRun(c: Cfg, ins: seq<In>)
    requires Legal(c) && NotAsked(ins) && |ins| <= 4
    ensures var r := Exec(c, Reset(c), EMPTY, ins).0; AtIdle(c, r) && Early(r.x, |ins|)
  {
    hide Next, Record, Early, Start, Reset, AtIdle, NextRand, Legal;
    if ins == [] {
      AtReset(c);
    } else {
      EarlyRun(c, ins[..|ins| - 1]);
      var s := Exec(c, Reset(c), EMPTY, ins[..|ins| - 1]).0;
      IdleCycle(c, s, ins[|ins| - 1]);
      EarlyStep(c, s.x, s.g.wrRand, s.g.rdRand, |ins| - 1);
    }
  }

  lemma IdleCycle(c: Cfg, s: Rq, i: In)
    requires Legal(c) && AtIdle(c, s) && !i.valid
    ensures c.size > 0 && AtIdle(c, Next(c, s, i)) && Next(c, s, i).x == NextRand(c, s.x, s.g.wrRand, s.g.rdRand)
  {
    hide Next, Record, Start, NextRand;
    IdleKept(c, s, i);
    RandRegs(c, s, i);
  }

  /** Such an offset suits the smallest block only. */
  lemma EarlyOut(c: Cfg, h: nat, raw: nat)
    requires RandLegal(c, h) && raw % 8 == 4
    ensures var out := And(raw, HostMask(c)); out < B64 && (Good(c, out) <==> c.size == 4)
  {
    hide And, Pow2, Low, Mult, Shr;
    var out := And(raw, HostMask(c));
    assert out == Low(raw, h) < B64 by {
      Pow2Mono(h, 63);
      Pow63();
      AndLow(raw, h);
      ShrLow(raw, h);
    }
    if c.size == 4 {
      MultFour(raw);
      OutGood(c, h, raw);
    } else {
      LowThree(raw, h);
      NoBlock(c, out);
    }
  }

  lemma MultFour(x: nat)
    requires x % 8 == 4
    ensures Mult(x, 2)
  {
    hide Mult, Pow2;
    Powers();
    MultScale(2 * (x / 8) + 1, 2, 4);
  }

  lemma NoBlock(c: Cfg, r: nat)
    requires c.size > 4 && r % 8 == 4
    ensures !Good(c, r)
  {
    hide Pow2, Mult;
    var n := Clog2(c.size);
    MultIsMod(r, n);
    MultIsMod(r, 3);
    Powers();
    if Mult(r, n) { MultWeaken(r, 3, n); }
  }

  lemma LowThree(x: nat, h: nat)
    requires Pow2(h) > 4
    ensures Low(x, h) % 8 == x % 8
  {
    hide Pow2, Low, Shr;
    Powers();
    if h < 3 { Pow2Mono(h, 2); }
    PowAdd(3, h - 3);
    ShrLow(x, h);
    var k := Pow2(h - 3);
    assert Shr(x, h) * (8 * k) == Shr(x, h) * k * 8;
    ModShift(Low(x, h), 8, Shr(x, h) * k);
  }

  /** From its start on the operation has not come back to rest. */
  predicate Ongoing(c: Cfg, s: Rq, l: Log, ins: seq<In>)
    requires Legal(c) && Shaped(c, s)
  {
    if ins == [] then s.st != Idle
    else Ongoing(c, s, l, ins[..|ins| - 1]) && Exec(c, s, l, ins).0.st != Idle
  }

  /** The second block of either direction takes the base that the start has latched. */
  lemma {:induction false} SecondBase(c: Cfg, s: Rq, l: Log, ins: seq<In>)
    requires Legal(c) && Shaped(c, s) && c.mode >= 2 && |l.wrBases| == |l.rdBases| == 1 && Ongoing(c, s, l, ins)
    ensures var (r, m) := Exec(c, s, l, ins);
      && |m.wrBases| >= 1 && |m.rdBases| >= 1 && r.st != Idle
      && (if |m.wrBases| == 1 then r.g.wrRand else m.wrBases[1]) == s.g.wrRand
      && (if |m.rdBases| == 1 then r.g.rdRand else m.rdBases[1]) == s.g.rdRand
  {
    if ins != [] {
      hide Next, Record;
      SecondBase(c, s, l, ins[..|ins| - 1]);
      var (r, m) := Exec(c, s, l, ins[..|ins| - 1]);
      BasesMove(c, r, m, ins[|ins| - 1]);
    }
  }

  lemma BasesMove(c: Cfg, s: Rq, l: Log, i: In)
    requires Legal(c) && Shaped(c, s) && c.mode >= 2 && s.st != Idle
    ensures var g, m := Next(c, s, i).g, Record(c, s, i, l);
      var wr, rd := WrTlpEnd(s, i) && WrBlockEnd(s), RdIssue(s, i) && RdBlockEnd(s);
      && m.wrBases == (if wr then l.wrBases + [s.g.wrRand] else l.wrBases) && (!wr ==> g.wrRand == s.g.wrRand)
      && m.rdBases == (if rd then l.rdBases + [s.g.rdRand] else l.rdBases) && (!rd ==> g.rdRand == s.g.rdRand)
  {
    hide NextRand, NextDims, NextBusy, NextSizes, NextBuf, NextOut, NextRdRem, NextWrRem;
  }

  lemma FifthCycle(c: Cfg, h: nat, ins: seq<In>)
    requires Legal(c) && RandLegal(c, h) && NotAsked(ins) && |ins| == 5
    ensures var x := Exec(c, Reset(c), EMPTY, ins).0.x;
      && x.wrOut < B64 && (Good(c, x.wrOut) <==> c.size == 4)
      && x.rdOut < B64 && (Good(c, x.rdOut) <==> c.size == 4)
  {
    hide Next, Good, And, HostMask, Start, Record, Legal, Reset, AtIdle, RandLegal;
    EarlyRun(c, ins[..4]);
    var s := Exec(c, Reset(c), EMPTY, ins[..4]).0;
    assert Exec(c, Reset(c), EMPTY, ins).0 == Next(c, s, ins[4]);
    IdleCycle(c, s, ins[4]);
    EarlyOut(c, h, s.x.wrRaw);
    EarlyOut(c, h, s.x.rdRaw);
  }

  /** The start latches what the pipeline shows in its cycle. */
  lemma StartLatches(c: Cfg, s: Rq, i: In)
    requires Legal(c) && Shaped(c, s) && Start(c, s, i) && s.x.wrOut < B64 && s.x.rdOut < B64
    ensures var g, l := Next(c, s, i).g, Record(c, s, i, EMPTY);
      && |l.wrBases| == |l.rdBases| == 1
      && W64(g.wrRand - c.addr) == s.x.wrOut && W64(g.rdRand - c.addr) == s.x.rdOut
  {
    hide Next, W64, Legal;
    RandRegs(c, s, i);
    W64Back(c.addr, s.x.wrOut);
    W64Back(c.addr, s.x.rdOut);
  }

  /** Six cycles are the exact number: an operation in random mode that starts after five cycles from
      reset takes its second blocks from a base that is on a block boundary only for blocks of one
      dword. */
  lemma SixCyclesNeeded(c: Cfg, h: nat, ins: seq<In>, i: In, more: seq<In>)
    requires Legal(c) && c.mode >= 2 && RandLegal(c, h) && NotAsked(ins) && |ins| == 5
    requires var r := Exec(c, Reset(c), EMPTY, ins).0;
      Start(c, r, i) && Ongoing(c, Next(c, r, i), Record(c, r, i, EMPTY), more)
    ensures var r := Exec(c, Reset(c), EMPTY, ins).0;
      var l := Exec(c, Next(c, r, i), Record(c, r, i, EMPTY), more).1;
      && (|l.wrBases| >= 2 ==> (BaseOk(c, 1, l.wrBases[1]) <==> c.size == 4))
      && (|l.rdBases| >= 2 ==> (BaseOk(c, 1, l.rdBases[1]) <==> c.size == 4))
  {
    hide Next, Record, Good, Exec, Ongoing, Start, W64;
    FifthCycle(c, h, ins);
    var r := Exec(c, Reset(c), EMPTY, ins).0;
    StartLatches(c, r, i);
    SecondBase(c, Next(c, r, i), Record(c, r, i, EMPTY), more);
  }

  // ---------------------------------------------------------------- pages

  /** The bytes a TLP names lie in one 4 KB page. */
  predicate OnePage(t: Tlp) { (4 * t.dwAddr) % 4096 + 4 * t.words <= 4096 }

  /** When the requests of each address mode stay inside pages. */
  predicate PageSafe(c: Cfg, h: nat) {
    if c.mode == 0 then c.addr % MaxTlp(c) == 0 && c.offset % MaxTlp(c) == 0
    else if c.mode == 1 then c.addr % 4096 + 2 * c.size < 4096
    else c.addr % 4096 == 0 && RandLegal(c, h)
  }

  lemma ByteAddress(a: nat, n: nat)
    requires a % 4096 + n <= 4096
    ensures (4 * (a / 4)) % 4096 + n <= 4096
  {
    var q, r := a / 4096, a % 4096;
    ModShift(4 * (r / 4), 4096, q);
    assert 4 * (a / 4) == q * 4096 + 4 * (r / 4);
  }

  /** A base aligned to the largest TLP keeps every TLP inside an aligned chunk. */
  lemma AlignedTlp(c: Cfg, base: nat, idx: nat)
    requires Legal(c) && idx < PerBlock(c) && base % MaxTlp(c) == 0
    ensures W64(base + Off(c, idx)) % 4096 + 4 * Words(c, idx) <= 4096
  {
    hide Split, Pow2;
    PerBlockFacts(c);
    SplitterRefined(c, idx);
    W64Page(base + Off(c, idx));
    AlignedSum(base, idx, MaxTlp(c));
  }

  lemma AlignedSum(base: nat, idx: nat, m: nat)
    requires m in {128, 256, 512, 1024, 2048, 4096} && base % m == 0
    ensures (base + idx * m) % 4096 + m <= 4096
  {
    ModShift(base, m, idx);
    ChunkInPage(base + idx * m, m);
  }

  /** A page holds a whole number of the largest TLPs. */
  lemma ModChunk(x: nat, m: nat) returns (k: nat)
    requires m in {128, 256, 512, 1024, 2048, 4096}
    ensures k * m == 4096 && x % m == x % 4096 % m
  {
    k := 4096 / m;
    assert k * m == 4096;
    var p := x / 4096;
    assert p * k * m == p * (k * m);
    ModShift(x % 4096, m, p * k);
  }

  lemma ChunkInPage(x: nat, m: nat)
    requires m in {128, 256, 512, 1024, 2048, 4096} && x % m == 0
    ensures x % 4096 + m <= 4096
  {
    var k := ModChunk(x, m);
    var q, r := QuotRem(x % 4096, m);
    MulLess(q, k, m);
    MulMono(q + 1, k, m);
    assert (q + 1) * m == q * m + m;
  }

  /** A block that fits in its page keeps all its TLPs there. */
  lemma InPageTlp(c: Cfg, base: nat, idx: nat)
    requires Legal(c) && idx < PerBlock(c) && base % 4096 + c.size <= 4096
    ensures W64(base + Off(c, idx)) % 4096 + 4 * Words(c, idx) <= 4096
  {
    hide Split, Pow2;
    PieceInside(c, idx);
    W64Page(base + Off(c, idx));
  }

  lemma PieceInside(c: Cfg, idx: nat)
    requires Legal(c) && idx < PerBlock(c)
    ensures Off(c, idx) + 4 * Words(c, idx) <= c.size && Words(c, idx) >= 1
  {
    hide Split, Pow2, Even, Odd;
    PerBlockFacts(c);
    SplitterRefined(c, idx);
    MulMono(idx + 1, PerBlock(c) - 1, MaxTlp(c));
    assert (idx + 1) * MaxTlp(c) == idx * MaxTlp(c) + MaxTlp(c);
  }

  lemma BaseInPage(c: Cfg, h: nat, k: nat, b: nat)
    requires Legal(c) && PageSafe(c, h) && BaseOk(c, k, b) && b < B64
    ensures if c.mode == 0 then b % MaxTlp(c) == 0 else b % 4096 + c.size <= 4096
  {
    hide Split, Pow2, Hops, RandLegal;
    if c.mode == 0 {
      PerBlockFacts(c);
      FixedAligned(c.addr, c.offset, MaxTlp(c));
    } else if c.mode == 1 {
      SeqPage(c, k);
    } else {
      RandomPage(c.addr, b);
    }
  }

  lemma FixedAligned(addr: nat, offset: nat, m: nat)
    requires m in {128, 256, 512, 1024, 2048, 4096} && addr % m == 0 && offset % m == 0
    ensures W64(addr + offset) % m == 0
  {
    var x := addr + offset;
    var q, r := QuotRem(addr, m);
    ModShift(offset, m, q);
    W64Page(x);
    var k := ModChunk(x, m);
    var k' := ModChunk(W64(x), m);
  }

  lemma SeqPage(c: Cfg, k: nat)
    requires Legal(c) && c.addr % 4096 + 2 * c.size < 4096
    ensures W64(c.addr + Hops(c, k)) % 4096 + c.size <= 4096
  {
    hide Split, Pow2, Hops, Cycled;
    HopsCycle(c, k);
    W64Page(c.addr + Hops(c, k));
  }

  lemma RandomPage(addr: nat, b: nat)
    requires addr % 4096 == 0 && addr < B64 && b < B64
    ensures b % 4096 == W64(b - addr) % 4096
  {
  }

  lemma TlpInPage(c: Cfg, h: nat, k: nat, b: nat, idx: nat, t: Tlp)
    requires Legal(c) && PageSafe(c, h) && BaseOk(c, k, b) && b < B64 && idx < PerBlock(c)
    requires t.dwAddr == W64(b + Off(c, idx)) / 4 && t.words == Words(c, idx)
    ensures OnePage(t)
  {
    hide Split, Pow2, Hops;
    BaseInPage(c, h, k, b);
    if c.mode == 0 { AlignedTlp(c, b, idx); } else { InPageTlp(c, b, idx); }
    ByteAddress(W64(b + Off(c, idx)), 4 * t.words);
  }

  predicate Wide(bs: seq<nat>) { forall k :: 0 <= k < |bs| ==> bs[k] < B64 }

  lemma {:induction false} RunWide(c: Cfg, s: Rq, ins: seq<In>)
    requires Legal(c) && Ready(c, s)
    ensures var l := Exec(c, s, EMPTY, ins).1; Wide(l.wrBases) && Wide(l.rdBases)
  {
    hide Next, Record, Inv, Split;
    if ins != [] {
      RunWide(c, s, ins[..|ins| - 1]);
      RunInv(c, s, ins[..|ins| - 1]);
      var (s1, l1) := Exec(c, s, EMPTY, ins[..|ins| - 1]);
      InvSettled(c, s1, l1);
      WideStep(c, s1, ins[|ins| - 1], l1);
    }
  }

  lemma WideStep(c: Cfg, s: Rq, i: In, l: Log)
    requires Legal(c) && Settled(c, s) && Wide(l.wrBases) && Wide(l.rdBases)
    ensures var l' := Record(c, s, i, l); Wide(l'.wrBases) && Wide(l'.rdBases)
  {
    hide FirstFree, Split, DimsOk;
  }

  lemma InvSettled(c: Cfg, s: Rq, l: Log)
    requires Legal(c) && Inv(c, s, l)
    ensures Settled(c, s)
  {
  }

  /** No request of any run crosses a 4 KB boundary (section 2.2.7 of the PCI Express Base
      Specification 3.0), in each of the three address modes. */
  lemma NoPageCrossing(c: Cfg, h: nat, s: Rq, ins: seq<In>)
    requires Legal(c) && PageSafe(c, h) && Ready(c, s) && GenOk(c, s, EMPTY)
    ensures var ts := Exec(c, s, EMPTY, ins).1.tlps; forall k :: 0 <= k < |ts| ==> OnePage(ts[k])
  {
    hide Next, Record, FrameAll, Split, Good, Warm, Hops, OnePage, BaseOk;
    FollowsPlan(c, s, ins);
    RunGen(c, h, s, ins);
    RunWide(c, s, ins);
    var (r, l) := Exec(c, s, EMPTY, ins);
    forall k | 0 <= k < |l.tlps| ensures OnePage(l.tlps[k]) {
      var p, t := l.slots[k], l.tlps[k];
      assert Matches(c, l.wrBases, l.rdBases, p, t);
      TlpInPage(c, h, p.blk, if p.isWrite then l.wrBases[p.blk] else l.rdBases[p.blk], p.idx, t);
    }
  }

  /** The bytes a TLP names lie in the host buffer. */
  predicate InBuffer(c: Cfg, t: Tlp) { c.addr <= 4 * t.dwAddr && 4 * t.dwAddr + 4 * t.words <= c.addr + c.hostSize }

  /** In random mode every request of every run stays inside the host buffer. */
  lemma RandomInsideBuffer(c: Cfg, h: nat, s: Rq, ins: seq<In>)
    requires Legal(c) && c.mode >= 2 && RandLegal(c, h) && c.addr % 4 == 0 && c.addr + c.hostSize <= B64
    requires Ready(c, s) && GenOk(c, s, EMPTY)
    ensures var ts := Exec(c, s, EMPTY, ins).1.tlps; forall k :: 0 <= k < |ts| ==> InBuffer(c, ts[k])
  {
    hide Next, Record, FrameAll, Split, Good, Warm, Hops, RandLegal, BaseOk;
    FollowsPlan(c, s, ins);
    RunGen(c, h, s, ins);
    RunWide(c, s, ins);
    var (r, l) := Exec(c, s, EMPTY, ins);
    forall k | 0 <= k < |l.tlps| ensures InBuffer(c, l.tlps[k]) {
      var p, t := l.slots[k], l.tlps[k];
      assert Matches(c, l.wrBases, l.rdBases, p, t);
      TlpInBuffer(c, p.blk, if p.isWrite then l.wrBases[p.blk] else l.rdBases[p.blk], p.idx, t);
    }
  }

  lemma TlpInBuffer(c: Cfg, k: nat, b: nat, idx: nat, t: Tlp)
    requires Legal(c) && c.mode >= 2 && c.addr % 4 == 0 && c.addr + c.hostSize <= B64
    requires BaseOk(c, k, b) && b < B64 && idx < PerBlock(c)
    requires t.dwAddr == W64(b + Off(c, idx)) / 4 && t.words == Words(c, idx)
    ensures InBuffer(c, t)
  {
    hide Split, Pow2, Hops;
    PieceInside(c, idx);
    OffsetInside(c.addr, c.hostSize, b, c.size, Off(c, idx), t.words);
  }

  lemma OffsetInside(addr: nat, host: nat, b: nat, size: nat, off: nat, words: nat)
    requires addr % 4 == 0 && addr + host <= B64 && b < B64 && W64(b - addr) + size <= host
    requires words >= 1 && off + 4 * words <= size
    ensures var x := W64(b + off) / 4; addr <= 4 * x && 4 * x + 4 * words <= addr + host
  {
    var r := W64(b - addr);
    assert b == addr + r;
  }

  /** In fixed and sequential mode a read names the bytes that the write of the same place wrote. */
  lemma ReadsWhatWasWritten(c: Cfg, s: Rq, ins: seq<In>)
    requires Legal(c) && c.mode <= 1 && Ready(c, s) && GenOk(c, s, EMPTY)
    ensures var l := Exec(c, s, EMPTY, ins).1;
      && |l.tlps| == |l.slots|
      && forall j, k :: 0 <= j < |l.tlps| && 0 <= k < |l.tlps| && Twins(l.slots[j], l.slots[k]) ==>
           l.tlps[k].dwAddr == l.tlps[j].dwAddr && l.tlps[k].words == l.tlps[j].words
  {
    hide Next, Record, FrameAll, Split, Good, Warm, Hops;
    FollowsPlan(c, s, ins);
    RunGen(c, 0, s, ins);
    var (r, l) := Exec(c, s, EMPTY, ins);
    forall j, k | 0 <= j < |l.tlps| && 0 <= k < |l.tlps| && Twins(l.slots[j], l.slots[k])
      ensures l.tlps[k].dwAddr == l.tlps[j].dwAddr && l.tlps[k].words == l.tlps[j].words
    {
      assert Matches(c, l.wrBases, l.rdBases, l.slots[j], l.tlps[j]);
      assert Matches(c, l.wrBases, l.rdBases, l.slots[k], l.tlps[k]);
    }
  }

  /** A write and the read with the same place in the same block. */
  predicate Twins(w: Slot, r: Slot) { w.isWrite && r == w.(isWrite := false) }
}
