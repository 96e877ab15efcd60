/** The DMA requester of dma_rq_logic.v as a clocked transition system: one record for its
    registers and one function for each clocked block. Every register of the next state is
    computed from the present state, the descriptor and the inputs of the cycle. */
module RqModel {
  import opened Hw

  datatype St = Idle | InitWrite | Write | InitRead | WaitRead

  /** One 128-bit entry of the payload buffer, as four dwords. */
  datatype Quad = Quad(d0: nat, d1: nat, d2: nat, d3: nat)

  datatype Header = Header(isWrite: bool, tag: nat, words: nat, dwAddr: nat)

  /** One half of the 256-bit data bus. */
  datatype Lane = Zero | Head(h: Header) | Data(q: Quad)

  datatype Beat = Beat(lo: Lane, hi: Lane, keep: nat, last: bool, firstBe: nat, lastBe: nat)

  /** The output register of the request stream. */
  datatype Out = Out(valid: bool, beat: Beat)

  /** Parameters of the instance and the descriptor, which is stable while an operation runs. */
  datatype Cfg = Cfg(
    logPayload: nat, logRead: nat, tags: nat,
    doesWrite: bool, doesRead: bool, mode: nat,
    addr: nat, size: nat, hostSize: nat, offset: nat, tlps: nat, window: nat)

  /** What the requester sees in one cycle. */
  datatype In = In(ready: bool, valid: bool, c2sValid: bool, lo: Quad, hi: Quad, both: bool, completed: seq<bool>)

  /** The 16-slot circular payload buffer with its 5-bit pointers. */
  datatype Buf = Buf(slots: seq<Quad>, rd: nat, wr: nat)

  /** Registers that only depend on the descriptor. */
  datatype Dims = Dims(
    wrTotal: nat, rdTotal: nat, wrEven: nat, wrOdd: nat, rdEven: nat, rdOdd: nat,
    winR: nat, mask: seq<bool>)

  /** Address generators: fixed, sequential and random, for writes and for reads. */
  datatype Gen = Gen(
    fix: nat,
    wrSeq: nat, wrNext: nat, wrPage: nat, wrRand: nat,
    rdSeq: nat, rdNext: nat, rdPage: nat, rdRand: nat)

  /** The pipeline that turns the shift register into random block offsets. */
  datatype Rand = Rand(
    lfsr: nat, modulus: nat, cand: nat, candPlus: nat,
    wrPage: nat, rdPage: nat, wrRaw: nat, rdRaw: nat, wrOut: nat, rdOut: nat,
    sizeR: nat, clog: nat, blockMask: nat, wrOff: nat, rdOff: nat)

  datatype Rq = Rq(
    st: St, pipe: St, endR: bool,
    wrTlp: nat, wrMod: nat, rdTlp: nat, rdMod: nat,
    wrRem: nat, wrRmd: nat, rdRem: nat, wrAddr: nat, rdAddr: nat,
    d: Dims, g: Gen, x: Rand,
    busy: seq<bool>, sizes: seq<nat>,
    buf: Buf, out: Out)

  // ---------------------------------------------------------------- wires

  /** Bytes of the largest write TLP and of the largest TLP of the operation. */
  function MaxPayload(c: Cfg): nat { Pow2(c.logPayload) }
  function LogTlp(c: Cfg): nat { if c.doesWrite then c.logPayload else c.logRead }
  function MaxTlp(c: Cfg): nat { Pow2(LogTlp(c)) }

  function Occupancy(b: Buf): (n: nat) ensures n < 32 { (b.wr - b.rd) % 32 }
  predicate One(s: Rq) { Occupancy(s.buf) != 0 }
  predicate Two(s: Rq) { Occupancy(s.buf) / 2 != 0 }
  predicate Last1(s: Rq) { s.wrRem <= 4 }
  predicate Last2(s: Rq) { s.wrRem <= 8 }
  predicate WrBlockEnd(s: Rq) { s.d.wrEven == s.wrMod }
  predicate RdBlockEnd(s: Rq) { s.d.rdEven == s.rdMod }

  /** Some tag selected by the window mask is free. */
  predicate FreeTag(s: Rq) {
    exists j :: 0 <= j < |s.busy| && j < |s.d.mask| && s.d.mask[j] && !s.busy[j]
  }

  predicate NoTagBusy(s: Rq) {
    forall j :: 0 <= j < |s.busy| && j < |s.d.mask| && s.d.mask[j] ==> !s.busy[j]
  }

  predicate EndOp(s: Rq) {
    (s.st == WaitRead && NoTagBusy(s)) || (s.st == Idle && (s.pipe == InitWrite || s.pipe == Write))
  }

  predicate Go(s: Rq, i: In) { i.ready && i.valid && !s.endR && !EndOp(s) }
  predicate Start(c: Cfg, s: Rq, i: In) { s.st == Idle && Go(s, i) && (c.doesWrite || c.doesRead) }

  predicate WrTlpEnd(s: Rq, i: In) {
    i.ready && ((s.st == InitWrite && One(s) && Last1(s))
                || (s.st == Write && ((One(s) && Last1(s)) || (Two(s) && Last2(s)))))
  }

  predicate RdIssue(s: Rq, i: In) { s.st == InitRead && i.ready && FreeTag(s) }

  function WrWords(c: Cfg, s: Rq): nat { if WrBlockEnd(s) then s.d.wrOdd else MaxPayload(c) / 4 }
  function RdWords(c: Cfg, s: Rq): nat { if RdBlockEnd(s) then s.d.rdOdd else MaxTlp(c) / 4 }

  function WrGenAddr(c: Cfg, g: Gen): nat { if c.mode == 0 then g.fix else if c.mode == 1 then g.wrSeq else g.wrRand }
  function RdGenAddr(c: Cfg, g: Gen): nat { if c.mode == 0 then g.fix else if c.mode == 1 then g.rdSeq else g.rdRand }

  /** Lowest free tag, 0 when there is none. */
  function FirstFree(b: seq<bool>, k: nat := 0): nat
    decreases |b| - k
  {
    if k >= |b| then 0 else if !b[k] then k else FirstFree(b, k + 1)
  }

  // ---------------------------------------------------------------- payload buffer

  /** Entries taken from the buffer in this cycle. */
  function Pops(s: Rq, i: In): (n: nat)
    ensures n <= 2 && n <= Occupancy(s.buf)
  {
    if !i.ready then 0
    else if s.st == InitWrite then (if One(s) then 1 else 0)
    else if s.st == Write then (if One(s) && Last1(s) then 1 else if Two(s) then 2 else 0)
    else 0
  }

  predicate Accepts(b: Buf) { Occupancy(b) <= 12 }

  function NextBuf(b: Buf, pops: nat, push: bool, lo: Quad, hi: Quad, both: bool): Buf
    requires |b.slots| == 16
  {
    var rd := (b.rd + pops) % 32;
    if push && Accepts(b) then
      Buf(b.slots[b.wr % 16 := lo][(b.wr + 1) % 16 := hi], rd, (b.wr + (if both then 2 else 1)) % 32)
    else b.(rd := rd)
  }

  // ---------------------------------------------------------------- descriptor-derived registers

  function Even(size: nat, log: nat): nat {
    if Low(size, log) != 0 then W32(W32(Shr(size, log)) + 1) else W32(Shr(size, log))
  }

  function Odd(size: nat, log: nat): nat { if Low(size, log) > 0 then W32(Low(size, log) / 4) else Pow2(log) / 4 }

  function Mask(tags: nat, window: nat): seq<bool> { seq(tags, j => j < window) }

  function NextDims(c: Cfg, d: Dims): Dims {
    Dims(W32(c.tlps), W32(c.tlps),
         Even(c.size, c.logPayload), Odd(c.size, c.logPayload),
         Even(c.size, LogTlp(c)), Odd(c.size, LogTlp(c)),
         c.window % 256, Mask(c.tags, d.winR))
  }

  // ---------------------------------------------------------------- state, counters, words, addresses

  function AfterWrTlp(c: Cfg, s: Rq): St {
    if !WrBlockEnd(s) then InitWrite
    else if c.doesRead then InitRead
    else if s.d.wrTotal <= s.wrTlp then Idle else InitWrite
  }

  function NextSt(c: Cfg, s: Rq, i: In): St {
    match s.st
    case Idle => if Go(s, i) && c.doesWrite then InitWrite else if Go(s, i) && c.doesRead then InitRead else Idle
    case InitWrite =>
      if !i.ready || !One(s) then InitWrite else if Last1(s) then AfterWrTlp(c, s) else Write
    case Write => if WrTlpEnd(s, i) then AfterWrTlp(c, s) else Write
    case InitRead =>
      if !RdIssue(s, i) then InitRead
      else if s.d.rdTotal <= s.rdTlp then WaitRead
      else if c.doesWrite && RdBlockEnd(s) then InitWrite else InitRead
    case WaitRead => if EndOp(s) then Idle else WaitRead
  }

  function Step1(block: bool, k: nat): nat { if block then 1 else W32(k + 1) }

  function NextWrTlp(s: Rq, i: In): nat {
    if s.st == Idle then (if i.ready then 1 else s.wrTlp)
    else if WrTlpEnd(s, i) then W32(s.wrTlp + 1) else s.wrTlp
  }

  function NextWrMod(s: Rq, i: In): nat {
    if s.st == Idle then (if i.ready then 1 else s.wrMod)
    else if WrTlpEnd(s, i) then Step1(WrBlockEnd(s), s.wrMod) else s.wrMod
  }

  function NextRdTlp(s: Rq, i: In): nat {
    if s.st == Idle then (if i.ready then 1 else s.rdTlp)
    else if RdIssue(s, i) then W32(s.rdTlp + 1) else s.rdTlp
  }

  function NextRdMod(s: Rq, i: In): nat {
    if s.st == Idle then (if i.ready then 1 else s.rdMod)
    else if RdIssue(s, i) then Step1(RdBlockEnd(s), s.rdMod) else s.rdMod
  }

  /** Words of the write TLP that follows the current one. */
  function ReloadWr(c: Cfg, s: Rq): nat {
    if s.d.wrEven == W32(s.wrMod + 1) || s.d.wrEven == 1 then s.d.wrOdd else MaxPayload(c) / 4
  }

  /** The new 64-bit word count together with the truncated count that sizes TKEEP. */
  function NextWrRem(c: Cfg, s: Rq, i: In): nat {
    if s.st == Idle then Min(c.size / 4, MaxPayload(c) / 4)
    else if WrTlpEnd(s, i) then ReloadWr(c, s)
    else if s.st == InitWrite && i.ready && One(s) then W64(s.wrRem - 4)
    else if s.st == Write && i.ready && Two(s) then W64(s.wrRem - 8)
    else s.wrRem
  }

  function NextWrRmd(c: Cfg, s: Rq, i: In): nat {
    if s.st == Idle then Min(c.size / 4, MaxPayload(c) / 4) % 16
    else if WrTlpEnd(s, i) then ReloadWr(c, s) % 16
    else if s.st == InitWrite && i.ready && One(s) then (s.wrRmd - 4) % 16
    else if s.st == Write && i.ready && Two(s) then (s.wrRmd - 8) % 16
    else s.wrRmd
  }

  function NextRdRem(c: Cfg, s: Rq, i: In): nat {
    if s.st == Idle && i.ready then
      (if c.size / 4 <= Pow2(c.logRead) / 4 then c.size / 4 else MaxTlp(c) / 4)
    else if RdIssue(s, i) then
      (if s.d.rdEven == W32(s.rdMod + 1) || s.d.rdEven == 1 then s.d.rdOdd else MaxTlp(c) / 4)
    else s.rdRem
  }

  function NextWrAddr(c: Cfg, s: Rq, i: In): nat {
    if s.st == Idle then c.addr
    else if WrTlpEnd(s, i) then
      (if WrBlockEnd(s) then WrGenAddr(c, s.g) else W64(s.wrAddr + 4 * (WrWords(c, s) % 2048)))
    else s.wrAddr
  }

  function NextRdAddr(c: Cfg, s: Rq, i: In): nat {
    if s.st == Idle then (if i.ready then c.addr else s.rdAddr)
    else if RdIssue(s, i) then
      (if RdBlockEnd(s) then RdGenAddr(c, s.g) else W64(s.rdAddr + 4 * (RdWords(c, s) % 2048)))
    else s.rdAddr
  }

  // ---------------------------------------------------------------- address generators

  /** The next pair of sequential addresses: wrap to the descriptor when the block after the
      next one would leave the page of the descriptor. */
  predicate SeqWraps(c: Cfg, next: nat, page: nat) { W64(next + c.size) / 4096 != page }
  function SeqAddr(c: Cfg, next: nat, page: nat): nat { if SeqWraps(c, next, page) then c.addr else next }
  function SeqNext(c: Cfg, next: nat, page: nat): nat {
    if SeqWraps(c, next, page) then W64(c.addr + c.size) else W64(next + c.size)
  }

  function NextGen(c: Cfg, s: Rq, i: In): Gen {
    var g := s.g;
    var wrGo := s.st == Idle && Go(s, i) && c.doesWrite;
    var rdGo := s.st == Idle && Go(s, i) && c.doesRead;
    var wrStep := WrTlpEnd(s, i) && WrBlockEnd(s);
    var rdStep := RdIssue(s, i) && RdBlockEnd(s);
    Gen(
      W64(c.addr + c.offset),
      if s.st == Idle then (if wrGo then W64(c.addr + c.size) else c.addr)
      else if wrStep then SeqAddr(c, g.wrNext, g.wrPage) else g.wrSeq,
      if s.st == Idle then (if wrGo then W64(c.addr + 2 * c.size) else W64(c.addr + c.size))
      else if wrStep then SeqNext(c, g.wrNext, g.wrPage) else g.wrNext,
      if s.st == Idle then c.addr / 4096 else g.wrPage,
      if s.st == Idle || wrStep then W64(c.addr + s.x.wrOut) else g.wrRand,
      if s.st == Idle then (if rdGo then W64(c.addr + c.size) else c.addr)
      else if rdStep then SeqAddr(c, g.rdNext, g.rdPage) else g.rdSeq,
      if s.st == Idle then (if rdGo then W64(c.addr + 2 * c.size) else W64(c.addr + c.size))
      else if rdStep then SeqNext(c, g.rdNext, g.rdPage) else g.rdNext,
      if s.st == Idle then c.addr / 4096 else g.rdPage,
      if s.st == Idle || rdStep then W64(c.addr + s.x.rdOut) else g.rdRand)
  }

  /** Discrete logarithm of the block size, between 1 and 12. */
  function Clog2(x: nat): (n: nat)
    ensures 1 <= n <= 12
  {
    if x <= 2 then 1 else if x <= 4 then 2 else if x <= 8 then 3 else if x <= 16 then 4
    else if x <= 32 then 5 else if x <= 64 then 6 else if x <= 128 then 7 else if x <= 256 then 8
    else if x <= 512 then 9 else if x <= 1024 then 10 else if x <= 2048 then 11 else 12
  }

  function PageOf(x: nat): nat { x / 4096 * 4096 }
  function HostMask(c: Cfg): nat { W64(c.hostSize - 1) }

  function NextPage(x: Rand, tx: nat): nat {
    if x.cand / 4096 != tx / 4096 then PageOf(x.cand) else PageOf(x.candPlus)
  }

  function NextOff(c: Cfg, x: Rand): nat {
    if c.size != 0 then And(x.lfsr % 4096, (4095 - x.blockMask) % 4096) else 0
  }

  function NextRand(c: Cfg, x: Rand, wrTx: nat, rdTx: nat): Rand {
    Rand(
      (2 * x.lfsr) % 0x8000_0000 + (x.lfsr / 0x4000_0000 % 2 + x.lfsr / 0x800_0000 % 2) % 2,
      And(x.lfsr, HostMask(c)),
      x.modulus, W64(x.modulus + 4096),
      NextPage(x, wrTx), NextPage(x, rdTx),
      PageOf(x.wrPage) + x.wrOff, PageOf(x.rdPage) + x.rdOff,
      And(x.wrRaw, HostMask(c)), And(x.rdRaw, HostMask(c)),
      c.size, Clog2(x.sizeR), (Pow2(x.clog) - 1) % 4096,
      NextOff(c, x), NextOff(c, x))
  }

  // ---------------------------------------------------------------- read tags

  /** Tag j is the one handed out in this cycle. */
  predicate Taken(busy: seq<bool>, window: nat, issuing: bool, j: nat)
    requires j < |busy|
  {
    issuing && j < window && !busy[j] && forall k :: 0 <= k < j ==> busy[k]
  }

  predicate Completes(completed: seq<bool>, j: nat) { j < |completed| && completed[j] }

  function NextBusy(busy: seq<bool>, window: nat, issuing: bool, completed: seq<bool>): (r: seq<bool>)
    ensures |r| == |busy|
  {
    seq(|busy|, j requires 0 <= j < |busy| =>
      Taken(busy, window, issuing, j)
      || (busy[j] && !Completes(completed, j))
      || (j >= 1 && j >= window))
  }

  function NextSizes(sizes: seq<nat>, busy: seq<bool>, window: nat, issuing: bool, words: nat): (r: seq<nat>)
    requires |sizes| == |busy|
    ensures |r| == |sizes|
  {
    seq(|sizes|, j requires 0 <= j < |sizes| => if Taken(busy, window, issuing, j) then words % 2048 else sizes[j])
  }

  // ---------------------------------------------------------------- output register

  function WrHeader(c: Cfg, s: Rq): Header {
    Header(true, W32(s.wrTlp - 1) % 256, WrWords(c, s) % 2048, s.wrAddr / 4)
  }

  function RdHeader(c: Cfg, s: Rq): Header {
    Header(false, FirstFree(s.busy) % 256, RdWords(c, s) % 2048, s.rdAddr / 4)
  }

  function HeadKeep(rmd: nat): nat {
    if rmd == 0 then 0x0f else if rmd == 1 then 0x1f else if rmd == 2 then 0x3f else if rmd == 3 then 0x7f else 0xff
  }

  function TailKeep(rmd: nat): nat {
    if rmd == 0 then 0x00 else if rmd == 1 then 0x01 else if rmd == 2 then 0x03 else if rmd == 3 then 0x07
    else if rmd == 4 then 0x0f else if rmd == 5 then 0x1f else if rmd == 6 then 0x3f
    else if rmd == 7 then 0x7f else 0xff
  }

  function Slot0(b: Buf): Quad
    requires |b.slots| == 16
  {
    b.slots[b.rd % 16]
  }

  function Slot1(b: Buf): Quad
    requires |b.slots| == 16
  {
    b.slots[(b.rd + 1) % 16]
  }

  function NextOut(c: Cfg, s: Rq, i: In): Out
    requires |s.buf.slots| == 16
  {
    var o := s.out;
    var b := o.beat;
    if !i.ready then o
    else match s.st
      case InitWrite =>
        Out(One(s), Beat(Head(WrHeader(c, s)), Data(Slot0(s.buf)),
                         if One(s) then (if Last1(s) then HeadKeep(s.wrRmd) else 0xff) else b.keep,
                         if One(s) then Last1(s) else b.last,
                         0xf, if s.wrRem <= 1 then 0 else 0xf))
      case Write =>
        if One(s) && Last1(s) then
          Out(true, b.(lo := Data(Slot0(s.buf)), hi := Zero, keep := TailKeep(s.wrRmd), last := true))
        else if Two(s) && Last2(s) then
          Out(true, b.(lo := Data(Slot0(s.buf)), hi := Data(Slot1(s.buf)), keep := TailKeep(s.wrRmd), last := true))
        else if Two(s) then
          Out(true, b.(lo := Data(Slot0(s.buf)), hi := Data(Slot1(s.buf))))
        else o.(valid := false)
      case InitRead =>
        Out(FreeTag(s), Beat(Head(RdHeader(c, s)), Zero, 0x0f, true, 0xf, if (s.rdRem / 2) % 1024 == 0 then 0 else 0xf))
      case _ => Out(false, b.(lo := Zero, hi := Zero))
  }

  // ---------------------------------------------------------------- one clock edge

  predicate Shaped(c: Cfg, s: Rq) {
    |s.buf.slots| == 16 && |s.busy| == c.tags && |s.sizes| == c.tags
  }

  function Next(c: Cfg, s: Rq, i: In): (r: Rq)
    requires Shaped(c, s)
    ensures Shaped(c, r)
  {
    var issuing := s.st == InitRead && i.ready;
    Rq(NextSt(c, s, i), s.st, if i.valid then EndOp(s) || s.endR else EndOp(s),
       NextWrTlp(s, i), NextWrMod(s, i), NextRdTlp(s, i), NextRdMod(s, i),
       NextWrRem(c, s, i), NextWrRmd(c, s, i), NextRdRem(c, s, i), NextWrAddr(c, s, i), NextRdAddr(c, s, i),
       NextDims(c, s.d), NextGen(c, s, i), NextRand(c, s.x, s.g.wrRand, s.g.rdRand),
       NextBusy(s.busy, c.window % 256, issuing, i.completed),
       NextSizes(s.sizes, s.busy, c.window % 256, issuing, RdWords(c, s)),
       NextBuf(s.buf, Pops(s, i), i.c2sValid, i.lo, i.hi, i.both),
       NextOut(c, s, i))
  }

  // ---------------------------------------------------------------- reset

  const NO_QUAD := Quad(0, 0, 0, 0)

  /** Registers after reset. */
  function Reset(c: Cfg): (s: Rq)
    ensures Shaped(c, s)
  {
    Rq(Idle, Idle, false, 1, 1, 1, 1, 0, 0, 0, 0, 0,
       Dims(0, 0, 0, 0, 0, 0, 0, Mask(c.tags, 0)),
       Gen(0, 0, 0, 0, 0, 0, 0, 0, 0),
       Rand(1, 0, 0, 0, 0, 0, 0, 0, 0, 0, 0, 0, 0, 0, 0),
       seq(c.tags, j => false), seq(c.tags, j => 0),
       Buf(seq(16, j => NO_QUAD), 0, 0),
       Out(false, Beat(Zero, Zero, 0, false, 0, 0)))
  }
}
