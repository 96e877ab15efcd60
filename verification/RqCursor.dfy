/** Preservation of the position invariant: counters, addresses and word counts of the
    requester stay in step with the plan. */
module RqCursor {
  import opened Hw
  import opened RqModel
  import opened RqPlan
  import opened RqRefine
  import opened RqSteps

  /** The place after TLP k of block b. */
  function NextBlk(c: Cfg, b: nat, k: nat): nat
  {
    if k + 1 == PerBlock(c) then b + 1 else b
  }

  function NextIdx(c: Cfg, k: nat): nat
  {
    if k + 1 == PerBlock(c) then 0 else k + 1
  }

  /** The counters never reach the width of their registers. */
  lemma NoWrap(c: Cfg, b: nat, k: nat)
    requires Legal(c) && Before(c, b) < Total(c) && k < PerBlock(c)
    ensures Before(c, b) + k + 2 < B32
  {
  }

  /** Advancing an address by the TLP just sent. */
  lemma AddrStep(c: Cfg, base: nat, k: nat)
    requires Legal(c) && k + 1 < PerBlock(c)
    ensures W64(W64(base + Off(c, k)) + 4 * Words(c, k)) == W64(base + Off(c, k + 1))
  {
    OffStep(c, k + 1);
    W64Add(base + Off(c, k), 4 * Words(c, k));
  }

  lemma WrCounts(c: Cfg, s: Rq, i: In, l: Log, b: nat, k: nat)
    requires Legal(c) && c.doesWrite && Settled(c, s) && WrAt(c, s, l, b, k) && WrTlpEnd(s, i)
    requires Before(c, b) < Total(c)
    ensures NextWrMod(s, i) == NextIdx(c, k) + 1
    ensures NextWrTlp(s, i) == Before(c, NextBlk(c, b, k)) + NextIdx(c, k) + 1
    ensures NextWrRem(c, s, i) == Words(c, NextIdx(c, k))
    ensures NextWrRmd(c, s, i) == NextWrRem(c, s, i) % 16
  {
    WrFacts(c, s, l, b, k);
    NoWrap(c, b, k);
  }

  lemma WrAddress(c: Cfg, s: Rq, i: In, l: Log, b: nat, k: nat)
    requires Legal(c) && c.doesWrite && Settled(c, s) && WrAt(c, s, l, b, k) && WrTlpEnd(s, i)
    ensures k + 1 == PerBlock(c) ==> NextWrAddr(c, s, i) == W64(WrGenAddr(c, s.g) + Off(c, 0))
    ensures k + 1 < PerBlock(c) ==> NextWrAddr(c, s, i) == W64(l.wrBases[b] + Off(c, k + 1))
  {
    hide Split, Pow2, Before, FirstFree, Odd, Even, DimsOk, W64, Off, MaxPayload;
    WrFacts(c, s, l, b, k);
    if k + 1 < PerBlock(c) {
      var w := Words(c, k);
      assert WrWords(c, s) % 2048 == w;
      assert NextWrAddr(c, s, i) == W64(s.wrAddr + 4 * w);
      AddrStep(c, l.wrBases[b], k);
    } else {
      OffStep(c, 0);
    }
  }

  lemma WrAdvance(c: Cfg, s: Rq, i: In, l: Log, b: nat, k: nat)
    requires Legal(c) && c.doesWrite && Settled(c, s) && WrAt(c, s, l, b, k) && WrTlpEnd(s, i)
    requires Before(c, b) < Total(c)
    ensures NextIdx(c, k) < PerBlock(c)
    ensures WrAt(c, Next(c, s, i), Record(c, s, i, l), NextBlk(c, b, k), NextIdx(c, k))
  {
    hide NextRand, NextGen, NextDims, NextBusy, NextSizes, NextBuf, NextOut, NextSt, NextRdMod, NextRdTlp,
         NextRdAddr, NextRdRem, NextWrMod, NextWrTlp, NextWrAddr, NextWrRem, NextWrRmd, Split, Before, Popped, Pow2,
         FirstFree;
    WrCounts(c, s, i, l, b, k);
    WrAddress(c, s, i, l, b, k);
    WrFacts(c, s, l, b, k);
  }

  lemma RdCounts(c: Cfg, s: Rq, i: In, l: Log, b: nat, k: nat)
    requires Legal(c) && Settled(c, s) && RdAt(c, s, l, b, k) && RdIssue(s, i)
    requires Before(c, b) < Total(c)
    ensures NextRdMod(s, i) == NextIdx(c, k) + 1
    ensures NextRdTlp(s, i) == Before(c, NextBlk(c, b, k)) + NextIdx(c, k) + 1
    ensures NextRdRem(c, s, i) == Words(c, NextIdx(c, k)) && 1 <= Words(c, NextIdx(c, k)) <= 1024
  {
    RdFacts(c, s, l, b, k);
    NoWrap(c, b, k);
    PerBlockFacts(c);
    SplitterRefined(c, NextIdx(c, k));
  }

  lemma RdAddress(c: Cfg, s: Rq, i: In, l: Log, b: nat, k: nat)
    requires Legal(c) && Settled(c, s) && RdAt(c, s, l, b, k) && RdIssue(s, i)
    ensures k + 1 == PerBlock(c) ==> NextRdAddr(c, s, i) == W64(RdGenAddr(c, s.g) + Off(c, 0))
    ensures k + 1 < PerBlock(c) ==> NextRdAddr(c, s, i) == W64(l.rdBases[b] + Off(c, k + 1))
  {
    hide Split, Pow2, Before, FirstFree, Odd, Even, DimsOk, W64, Off, MaxTlp;
    RdFacts(c, s, l, b, k);
    if k + 1 < PerBlock(c) {
      var w := Words(c, k);
      assert RdWords(c, s) % 2048 == w;
      assert NextRdAddr(c, s, i) == W64(s.rdAddr + 4 * w);
      AddrStep(c, l.rdBases[b], k);
    } else {
      OffStep(c, 0);
    }
  }

  lemma RdAdvance(c: Cfg, s: Rq, i: In, l: Log, b: nat, k: nat)
    requires Legal(c) && Settled(c, s) && RdAt(c, s, l, b, k) && RdIssue(s, i)
    requires Before(c, b) < Total(c)
    ensures NextIdx(c, k) < PerBlock(c)
    ensures RdAt(c, Next(c, s, i), Record(c, s, i, l), NextBlk(c, b, k), NextIdx(c, k))
  {
    hide NextRand, NextGen, NextDims, NextBusy, NextSizes, NextBuf, NextOut, NextSt, NextRdMod, NextRdTlp,
         NextRdAddr, NextRdRem, NextWrMod, NextWrTlp, NextWrAddr, NextWrRem, NextWrRmd, Split, Before, Popped, Pow2,
         FirstFree;
    RdCounts(c, s, i, l, b, k);
    RdAddress(c, s, i, l, b, k);
    RdFacts(c, s, l, b, k);
  }

  // ---------------------------------------------------------------- places in the plan

  lemma WrSlot(c: Cfg, b: nat, w: nat)
    requires Legal(c)
    ensures Upto(c, b, w, 0) + [Slot(true, b, w)] == Upto(c, b, w + 1, 0)
  {
    assert Run(false, b, 0) == [];
  }

  lemma RdSlot(c: Cfg, b: nat, w: nat, r: nat)
    requires Legal(c)
    ensures Upto(c, b, w, r) + [Slot(false, b, r)] == Upto(c, b, w, r + 1)
  {
  }

  lemma BlockWrap(c: Cfg, b: nat)
    requires Legal(c)
    ensures Upto(c, b, WrCount(c), RdCount(c, b)) == Full(c, b + 1) == Upto(c, b + 1, 0, 0)
  {
    assert Run(true, b + 1, 0) == [] && Run(false, b + 1, 0) == [];
  }

  lemma {:induction false} BeforeIs(c: Cfg, b: nat)
    ensures Before(c, b) == b * PerBlock(c)
  {
    if b > 0 {
      BeforeIs(c, b - 1);
      assert b * PerBlock(c) == (b - 1) * PerBlock(c) + PerBlock(c);
    }
  }

  /** The plan ends with the block that reaches the requested number of TLPs. */
  lemma PlanEnds(c: Cfg, b: nat)
    requires Legal(c) && Before(c, b) < Total(c) <= Before(c, b + 1)
    ensures Blocks(c) == b + 1 && Plan(c) == Full(c, b + 1)
  {
    BeforeIs(c, b);
    BeforeIs(c, b + 1);
    PerBlockFacts(c);
    CeilDivIs(Total(c), PerBlock(c), b + 1);
  }

  // ---------------------------------------------------------------- starting

  lemma FirstTlp(c: Cfg)
    requires Legal(c)
    ensures PerBlock(c) >= 1 && Off(c, 0) == 0 && Words(c, 0) == Min(c.size / 4, MaxTlp(c) / 4)
    ensures 1 <= Words(c, 0) <= 1024 && (Words(c, 0) <= 1 <==> c.size / 4 <= 1)
  {
    PerBlockFacts(c);
    SplitterRefined(c, 0);
  }

  lemma StartCursor(c: Cfg, s: Rq, i: In, l: Log)
    requires Legal(c) && Settled(c, s) && Start(c, s, i)
    ensures Next(c, s, i).st != Idle && Next(c, s, i).st != WaitRead
    ensures Cursor(c, Next(c, s, i), Record(c, s, i, l))
  {
    hide NextRand, NextGen, NextDims, NextBusy, NextSizes, NextBuf, NextOut, Split, Pow2, FirstFree, PerBlock, Off,
         Words, Upto, DimsOk, Bounded, NextRdRem, NextWrRem, NextWrRmd, MaxTlp, MaxPayload, Sent, Popped, One, Two;
    FirstTlp(c);
    FirstWords(c, s, i);
    assert Upto(c, 0, 0, 0) == [] by { NothingUpto(c); }
  }

  lemma NothingUpto(c: Cfg)
    requires Legal(c)
    ensures Upto(c, 0, 0, 0) == []
  {
  }

  /** The word counts loaded in the idle state are those of the first TLP. */
  lemma FirstWords(c: Cfg, s: Rq, i: In)
    requires Legal(c) && s.st == Idle && i.ready && PerBlock(c) >= 1
    ensures c.doesWrite ==> NextWrRem(c, s, i) == Words(c, 0)
    ensures NextWrRmd(c, s, i) == NextWrRem(c, s, i) % 16
    ensures (NextRdRem(c, s, i) / 2) % 1024 == 0 <==> Words(c, 0) <= 1
  {
    hide Split, Pow2, PerBlock, Words;
    FirstTlp(c);
    MaxTlpValues(c.logRead);
    MaxTlpValues(c.logPayload);
  }

  // ---------------------------------------------------------------- cycles inside a TLP

  /** Cycles that neither start, finish nor issue anything leave the counters alone. */
  lemma CountersHold(c: Cfg, s: Rq, i: In, l: Log, b: nat, k: nat)
    requires Legal(c) && Shaped(c, s) && s.st != Idle
    ensures !WrTlpEnd(s, i) && WrAt(c, s, l, b, k) ==> WrAt(c, Next(c, s, i), Record(c, s, i, l), b, k)
    ensures !RdIssue(s, i) && RdAt(c, s, l, b, k) ==> RdAt(c, Next(c, s, i), Record(c, s, i, l), b, k)
  {
    hide NextRand, NextGen, NextDims, NextBusy, NextSizes, NextBuf, NextOut, NextSt, Split, Pow2, FirstFree, Before;
  }

  /** The word count goes down by the payload taken, and its low four bits with it. */
  lemma RemStep(c: Cfg, s: Rq, i: In, w: nat, n: nat)
    requires i.ready && !WrTlpEnd(s, i) && w <= 1024 && s.wrRem % 16 == s.wrRmd
    requires (s.st == InitWrite && n == 0 && s.wrRem == w) || (s.st == Write && s.wrRem == w - 4 * n)
    requires Pops(s, i) > 0
    ensures NextWrRem(c, s, i) == w - 4 * (n + Pops(s, i)) > 0
    ensures NextWrRem(c, s, i) % 16 == NextWrRmd(c, s, i)
    ensures (n + Pops(s, i)) % 2 == if s.st == InitWrite then 1 else n % 2
  {
    hide Occupancy, MaxPayload, ReloadWr;
    Mod16(s.wrRem);
    if s.st == Write { assert Pops(s, i) == 2; }
  }

  lemma Mod16(x: nat)
    ensures (x - 4) % 16 == (x % 16 - 4) % 16 && (x - 8) % 16 == (x % 16 - 8) % 16
  {
    var q, r := x / 16, x % 16;
    assert x - 4 == 16 * q + (r - 4) && x - 8 == 16 * q + (r - 8);
  }

  lemma GoesOnCursor(c: Cfg, s: Rq, i: In, l: Log)
    requires Legal(c) && Settled(c, s) && Cursor(c, s, l)
    requires (s.st == InitWrite || s.st == Write) && !WrTlpEnd(s, i)
    ensures Cursor(c, Next(c, s, i), Record(c, s, i, l))
  {
    hide NextRand, NextGen, NextDims, NextBusy, NextSizes, NextBuf, Split, Pow2, FirstFree, Before;
    var s', l' := Next(c, s, i), Record(c, s, i, l);
    CountersHold(c, s, i, l, l.blk, l.wi);
    CountersHold(c, s, i, l, l.blk, 0);
    WrFacts(c, s, l, l.blk, l.wi);
    if Pops(s, i) > 0 {
      RemStep(c, s, i, Words(c, l.wi), |l.cur|);
    } else {
      assert l.cur + Popped(s, i) == l.cur;
    }
  }

  lemma WaitsCursor(c: Cfg, s: Rq, i: In, l: Log)
    requires Legal(c) && Settled(c, s) && Cursor(c, s, l) && s.st == InitRead && !RdIssue(s, i)
    ensures Cursor(c, Next(c, s, i), Record(c, s, i, l))
  {
    hide NextRand, NextGen, NextDims, NextBusy, NextSizes, NextBuf, NextOut, Split, Pow2, FirstFree, Before;
    CountersHold(c, s, i, l, l.blk, l.ri);
    CountersHold(c, s, i, l, l.blk + 1, 0);
  }

  // ---------------------------------------------------------------- finishing a TLP

  lemma WrEndSlots(c: Cfg, s: Rq, i: In, l: Log)
    requires Legal(c) && Shaped(c, s) && WrTlpEnd(s, i) && l.ri == 0 && l.wi < PerBlock(c) && c.doesWrite
    requires l.slots == Upto(c, l.blk, l.wi, 0)
    ensures var l' := Record(c, s, i, l); l'.slots == Upto(c, l'.blk, l'.wi, 0) && l'.ri == 0 && l'.cur == []
  {
    hide Split, Pow2, Before;
    WrSlot(c, l.blk, l.wi);
    if l.wi + 1 == PerBlock(c) && !c.doesRead {
      assert RdCount(c, l.blk) == 0;
      BlockWrap(c, l.blk);
    }
  }

  lemma EndCursor(c: Cfg, s: Rq, i: In, l: Log)
    requires Legal(c) && Settled(c, s) && Cursor(c, s, l) && WrTlpEnd(s, i)
    ensures var s', l' := Next(c, s, i), Record(c, s, i, l);
      if s'.st == Idle then Resting(c, s', l') else s'.st != WaitRead && Cursor(c, s', l')
  {
    hide NextRand, NextGen, NextDims, NextBusy, NextSizes, NextBuf, NextOut, Split, Pow2, FirstFree, Popped, Sent,
         CurTlp, CurRead, NextWrMod, NextWrTlp, NextWrAddr, NextWrRem, NextWrRmd, NextRdMod, NextRdTlp, NextRdAddr,
         NextRdRem, Upto, Plan, Off, Words, PerBlock, One, Two;
    var s', l' := Next(c, s, i), Record(c, s, i, l);
    var b, k := l.blk, l.wi;
    WrFacts(c, s, l, b, k);
    WrAdvance(c, s, i, l, b, k);
    WrCounts(c, s, i, l, b, k);
    WrEndSlots(c, s, i, l);
    if c.doesRead {
      CountersHold(c, s, i, l, b, 0);
    } else if k + 1 == PerBlock(c) && c.tlps <= s.wrTlp {
      PlanEnds(c, b);
      BlockWrap(c, b);
    }
  }

  lemma RdEndSlots(c: Cfg, s: Rq, i: In, l: Log)
    requires Legal(c) && Shaped(c, s) && RdIssue(s, i) && c.doesRead
    requires l.ri < PerBlock(c) && l.wi == WrCount(c) && Before(c, l.blk) + l.ri < Total(c)
    requires l.slots == Upto(c, l.blk, l.wi, l.ri)
    ensures var l' := Record(c, s, i, l); l'.slots == Upto(c, l'.blk, l'.wi, l'.ri)
    ensures Before(c, l.blk) + l.ri + 1 >= Total(c) ==> Record(c, s, i, l).slots == Plan(c)
  {
    hide Split, Pow2, FirstFree;
    RdSlot(c, l.blk, l.wi, l.ri);
    if l.ri + 1 == PerBlock(c) || Before(c, l.blk) + l.ri + 1 >= Total(c) {
      assert RdCount(c, l.blk) == l.ri + 1;
      BlockWrap(c, l.blk);
    }
    if Before(c, l.blk) + l.ri + 1 >= Total(c) {
      PlanEnds(c, l.blk);
    }
  }

  lemma IssueCursor(c: Cfg, s: Rq, i: In, l: Log)
    requires Legal(c) && Settled(c, s) && Cursor(c, s, l) && RdIssue(s, i)
    ensures var s', l' := Next(c, s, i), Record(c, s, i, l);
      s'.st != Idle && if s'.st == WaitRead then Resting(c, s', l') else Cursor(c, s', l')
  {
    hide NextRand, NextGen, NextDims, NextBusy, NextSizes, NextBuf, NextOut, Split, Pow2, FirstFree, Popped, Sent,
         CurTlp, CurRead, NextRdMod, NextRdTlp, NextRdAddr, NextRdRem, NextWrMod, NextWrTlp, NextWrAddr, Upto, Plan,
         Off, Words, PerBlock, One, Two, FreeTag;
    var s', l' := Next(c, s, i), Record(c, s, i, l);
    RdFacts(c, s, l, l.blk, l.ri);
    RdAdvance(c, s, i, l, l.blk, l.ri);
    RdEndSlots(c, s, i, l);
    CountersHold(c, s, i, l, l.blk + 1, 0);
  }
}
