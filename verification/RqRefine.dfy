/** The requester refines its plan. A log records, for the operation in course, the beats that
    crossed the stream and the TLPs they belong to; the invariant ties registers, log and plan,
    and holds in every state of every run, whatever TREADY, payload and completions do. */
module RqRefine {
  import opened Hw
  import opened RqModel
  import opened RqPlan

  datatype Log = Log(
    sent: seq<Beat>,      // beats transferred since the operation started
    tlps: seq<Tlp>,       // TLPs completely handed to the output register
    slots: seq<Slot>,     // their places in the plan
    cur: seq<Quad>,       // payload already taken for the unfinished write TLP
    taken: seq<Quad>,     // all payload taken since the operation started
    blk: nat, wi: nat, ri: nat,
    wrBases: seq<nat>, rdBases: seq<nat>)

  function Popped(s: Rq, i: In): (q: seq<Quad>)
    requires |s.buf.slots| == 16
    ensures |q| == Pops(s, i)
  {
    if Pops(s, i) == 0 then [] else if Pops(s, i) == 1 then [Slot0(s.buf)] else [Slot0(s.buf), Slot1(s.buf)]
  }

  /** The write TLP under way, if its payload were q. */
  function CurTlp(c: Cfg, s: Rq, q: seq<Quad>): Tlp {
    WriteTlp(W32(s.wrTlp - 1) % 256, s.wrAddr / 4, WrWords(c, s) % 2048, q)
  }

  function CurRead(c: Cfg, s: Rq): Tlp {
    ReadTlp(FirstFree(s.busy) % 256, s.rdAddr / 4, RdWords(c, s) % 2048)
  }

  function Sent(s: Rq, i: In, l: Log): seq<Beat> {
    if s.out.valid && i.ready then l.sent + [s.out.beat] else l.sent
  }

  function Record(c: Cfg, s: Rq, i: In, l: Log): Log
    requires Legal(c) && Shaped(c, s)
  {
    if Start(c, s, i) then Log([], [], [], [], [], 0, 0, 0, [c.addr], [c.addr])
    else if WrTlpEnd(s, i) then
      var next := l.wi + 1 == PerBlock(c) && !c.doesRead;
      Log(Sent(s, i, l), l.tlps + [CurTlp(c, s, l.cur + Popped(s, i))], l.slots + [Slot(true, l.blk, l.wi)],
          [], l.taken + Popped(s, i),
          if next then l.blk + 1 else l.blk, if next then 0 else l.wi + 1, 0,
          if WrBlockEnd(s) then l.wrBases + [WrGenAddr(c, s.g)] else l.wrBases, l.rdBases)
    else if RdIssue(s, i) then
      var next := l.ri + 1 == PerBlock(c);
      Log(Sent(s, i, l), l.tlps + [CurRead(c, s)], l.slots + [Slot(false, l.blk, l.ri)], l.cur, l.taken,
          if next then l.blk + 1 else l.blk, if next then 0 else l.wi, if next then 0 else l.ri + 1,
          l.wrBases, if RdBlockEnd(s) then l.rdBases + [RdGenAddr(c, s.g)] else l.rdBases)
    else l.(sent := Sent(s, i, l), cur := l.cur + Popped(s, i), taken := l.taken + Popped(s, i))
  }

  // ---------------------------------------------------------------- the invariant

  /** The registers computed from the descriptor describe the simple splitter. */
  predicate DimsOk(c: Cfg, d: Dims) {
    && d.wrTotal == d.rdTotal == c.tlps
    && d.rdEven == PerBlock(c) > 0 && d.rdOdd == Words(c, PerBlock(c) - 1)
    && (c.doesWrite ==> d.wrEven == d.rdEven && d.wrOdd == d.rdOdd)
    && d.winR == c.window && d.mask == Mask(c.tags, c.window)
  }

  /** The write (read) registers stand at TLP k of block b. */
  predicate WrAt(c: Cfg, s: Rq, l: Log, b: nat, k: nat)
    requires Legal(c)
  {
    && k < PerBlock(c) && s.wrMod == k + 1 && s.wrTlp == Before(c, b) + k + 1
    && |l.wrBases| == b + 1 && s.wrAddr == W64(l.wrBases[b] + Off(c, k))
  }

  predicate RdAt(c: Cfg, s: Rq, l: Log, b: nat, k: nat)
    requires Legal(c)
  {
    && k < PerBlock(c) && s.rdMod == k + 1 && s.rdTlp == Before(c, b) + k + 1
    && |l.rdBases| == b + 1 && s.rdAddr == W64(l.rdBases[b] + Off(c, k))
    && ((s.rdRem / 2) % 1024 == 0 <==> Words(c, k) <= 1)
  }

  predicate WriteSide(c: Cfg, s: Rq, l: Log)
    requires Legal(c)
  {
    && c.doesWrite && l.ri == 0
    && WrAt(c, s, l, l.blk, l.wi)
    && s.wrRem % 16 == s.wrRmd
    && (c.doesRead ==> RdAt(c, s, l, l.blk, 0))
  }

  predicate Cursor(c: Cfg, s: Rq, l: Log)
    requires Legal(c)
  {
    && Before(c, l.blk) < Total(c)
    && l.slots == Upto(c, l.blk, l.wi, l.ri)
    && (match s.st
        case InitWrite => WriteSide(c, s, l) && l.cur == [] && s.wrRem == Words(c, l.wi)
        case Write =>
          && WriteSide(c, s, l) && |l.cur| % 2 == 1 && s.wrRem == Words(c, l.wi) - 4 * |l.cur| && s.wrRem > 0
          && s.out.beat.keep == 0xff && !s.out.beat.last
          && s.out.beat.firstBe == 0xf && s.out.beat.lastBe == LastBe(Words(c, l.wi))
        case InitRead =>
          && c.doesRead && l.cur == [] && l.wi == WrCount(c) && RdAt(c, s, l, l.blk, l.ri)
          && Before(c, l.blk) + l.ri < Total(c)
          && (c.doesWrite ==> WrAt(c, s, l, l.blk + 1, 0) && s.wrRem == Words(c, 0) && s.wrRem % 16 == s.wrRmd)
        case _ => true)
  }

  /** Where a TLP of the log belongs in the plan, and what it must look like there. */
  predicate Matches(c: Cfg, wrBases: seq<nat>, rdBases: seq<nat>, p: Slot, t: Tlp)
    requires Legal(c)
  {
    && p.idx < PerBlock(c) && WellFormed(t) && t.WriteTlp? == p.isWrite
    && t.words == Words(c, p.idx)
    && (if p.isWrite
        then p.blk < |wrBases| && t.dwAddr == W64(wrBases[p.blk] + Off(c, p.idx)) / 4
             && t.tag == (Before(c, p.blk) + p.idx) % 256
        else p.blk < |rdBases| && t.dwAddr == W64(rdBases[p.blk] + Off(c, p.idx)) / 4 && t.tag < c.window)
  }

  predicate Matched(c: Cfg, l: Log)
    requires Legal(c)
  {
    |l.slots| == |l.tlps| && forall k :: 0 <= k < |l.tlps| ==> Matches(c, l.wrBases, l.rdBases, l.slots[k], l.tlps[k])
  }

  function Pending(o: Out): seq<Beat> { if o.valid then [o.beat] else [] }

  /** The frame of the unfinished write TLP as far as its payload has been taken. */
  function Half(c: Cfg, s: Rq, cur: seq<Quad>): seq<Beat> {
    if cur == [] then [] else Beats(CurTlp(c, s, cur), (|cur| + 1) / 2)
  }

  predicate Joined(sent: seq<Beat>, o: Out, tlps: seq<Tlp>, part: seq<Beat>) {
    AllWellFormed(tlps) && sent + Pending(o) == FrameAll(tlps) + part
  }

  /** Beats sent, then the beat in the register: exactly the frames of the logged TLPs. */
  predicate Streamed(c: Cfg, s: Rq, l: Log) { Joined(l.sent, s.out, l.tlps, Half(c, s, l.cur)) }

  function Payload(ts: seq<Tlp>): seq<Quad> {
    if ts == [] then [] else
      Payload(ts[..|ts| - 1]) + (if ts[|ts| - 1].WriteTlp? then ts[|ts| - 1].payload else [])
  }

  predicate Bounded(g: Gen) {
    && g.fix < B64 && g.wrSeq < B64 && g.wrNext < B64 && g.wrRand < B64
    && g.rdSeq < B64 && g.rdNext < B64 && g.rdRand < B64
  }

  /** The registers that follow the descriptor have caught up with it. */
  predicate Settled(c: Cfg, s: Rq) { Shaped(c, s) && DimsOk(c, s.d) && Bounded(s.g) }

  predicate Resting(c: Cfg, s: Rq, l: Log)
    requires Legal(c)
  {
    && l.cur == []
    && (l.slots == Plan(c) || (l.slots == [] && s.st == Idle && s.pipe != InitWrite && s.pipe != Write))
  }

  predicate Inv(c: Cfg, s: Rq, l: Log)
    requires Legal(c)
  {
    && Settled(c, s)
    && (if s.st == Idle || s.st == WaitRead then Resting(c, s, l) else Cursor(c, s, l))
    && Matched(c, l)
    && Streamed(c, s, l)
    && l.taken == Payload(l.tlps) + l.cur
  }
}
