/** What one descriptor asks for, said without registers: how a block is cut into TLPs, which
    TLPs an operation consists of and in which order, and how one TLP looks on the stream. */
module RqPlan {
  import opened Hw
  import opened RqModel

  /** What the code demands of its environment: sizes the 11-bit length field can carry, a
      window the tag table can hold, and counters that do not wrap. */
  predicate Legal(c: Cfg) {
    && 7 <= c.logPayload <= 12 && 7 <= c.logRead <= 12
    && 1 <= c.window <= c.tags <= 255
    && (c.doesWrite || c.doesRead)
    && 0 < c.size < B64 && c.size % 4 == 0
    && c.addr < B64
    && Total(c) + |Split(0, c.size, MaxTlp(c))| < B32
  }

  /** TLPs the operation has to reach; the hardware always sends at least one. */
  function Total(c: Cfg): nat { if c.tlps == 0 then 1 else c.tlps }

  lemma MaxTlpValues(n: nat)
    requires 7 <= n <= 12
    ensures Pow2(n) in {128, 256, 512, 1024, 2048, 4096}
  {
    assert Pow2(7) == 128 by { assert Pow2(4) == 16; }
    if n > 7 { MaxTlpValues(n - 1); }
    if n == 12 { assert Pow2(12) == 2 * Pow2(11) == 4 * Pow2(10) == 8 * Pow2(9); }
    if n == 11 { assert Pow2(11) == 2 * Pow2(10) == 4 * Pow2(9) == 8 * Pow2(8); }
    if n == 10 { assert Pow2(10) == 2 * Pow2(9) == 4 * Pow2(8) == 8 * Pow2(7); }
    if n == 9 { assert Pow2(9) == 2 * Pow2(8) == 4 * Pow2(7); }
  }

  // ---------------------------------------------------------------- cutting a block

  /** Part of a block: offset in bytes and length in dwords. */
  datatype Piece = Piece(off: nat, words: nat)

  /** The simple splitter: cut off the maximum until the rest fits. */
  function Split(off: nat, size: nat, m: nat): seq<Piece>
    requires m > 0
    decreases size
  {
    if size <= m then [Piece(off, size / 4)] else [Piece(off, m / 4)] + Split(off + m, size - m, m)
  }

  function SumWords(ps: seq<Piece>): nat { if ps == [] then 0 else ps[0].words + SumWords(ps[1..]) }

  /** TLPs in a block, and offset and dwords of TLP idx of a block. */
  function PerBlock(c: Cfg): nat { |Split(0, c.size, MaxTlp(c))| }

  function Off(c: Cfg, idx: nat): nat
    requires idx < PerBlock(c)
  {
    Split(0, c.size, MaxTlp(c))[idx].off
  }

  function Words(c: Cfg, idx: nat): nat
    requires idx < PerBlock(c)
  {
    Split(0, c.size, MaxTlp(c))[idx].words
  }

  /** TLPs of one direction in the first b blocks. */
  function Before(c: Cfg, b: nat): nat { if b == 0 then 0 else Before(c, b - 1) + PerBlock(c) }

  /** The closed form of the splitter: piece i starts at i * m and all but the last are full. */
  lemma {:induction false} SplitShape(off: nat, size: nat, m: nat, n: nat, i: nat)
    requires m > 0 && n > 0 && (n - 1) * m < size <= n * m && i < n
    ensures |Split(off, size, m)| == n
    ensures Split(off, size, m)[i].off == off + i * m
    ensures Split(off, size, m)[i].words == if i + 1 < n then m / 4 else (size - (n - 1) * m) / 4
    decreases n
  {
    if n > 1 {
      MulSteps(n, i, m);
      SplitShape(off + m, size - m, m, n - 1, if i == 0 then 0 else i - 1);
    }
  }

  lemma MulSteps(n: nat, i: nat, m: nat)
    requires n > 1
    ensures n * m == (n - 1) * m + m && (n - 1) * m == (n - 2) * m + m && (n - 1) * m >= m
    ensures i > 0 ==> i * m == (i - 1) * m + m
  {
    assert (n - 2) * m >= 0;
  }

  /** The pieces cover the block, follow each other without a gap and respect the maximum. */
  lemma {:induction false} SplitCovers(off: nat, size: nat, m: nat)
    requires m > 0 && m % 4 == 0 && size > 0 && size % 4 == 0
    ensures var ps := Split(off, size, m);
      && SumWords(ps) == size / 4
      && ps[0].off == off
      && (forall i :: 0 <= i < |ps| ==> 1 <= ps[i].words <= m / 4)
      && (forall i :: 0 < i < |ps| ==> ps[i].off == ps[i - 1].off + 4 * ps[i - 1].words)
    decreases size
  {
    if size > m {
      SplitCovers(off + m, size - m, m);
      var ps := Split(off, size, m);
      assert ps[1..] == Split(off + m, size - m, m);
    }
  }

  lemma CutCount(c: Cfg)
    requires 0 < c.size
    ensures PerBlock(c) == CeilDiv(c.size, MaxTlp(c))
  {
    CeilDivBounds(c.size, MaxTlp(c));
    SplitShape(0, c.size, MaxTlp(c), CeilDiv(c.size, MaxTlp(c)), 0);
  }

  /** Quotient and remainder of the block by the largest TLP, as the hardware slices them. */
  lemma EvenOdd(size: nat, log: nat, n: nat)
    requires size > 0 && size % 4 == 0 && 7 <= log <= 12 && n < B32
    requires n > 0 && (n - 1) * Pow2(log) < size <= n * Pow2(log)
    ensures Even(size, log) == n && 1 <= Odd(size, log) <= Pow2(log) / 4
    ensures size == (n - 1) * Pow2(log) + 4 * Odd(size, log)
  {
    hide Shr, Low, Pow2;
    var q, r, m := Shr(size, log), Low(size, log), Pow2(log);
    MaxTlpValues(log);
    ShrLow(size, log);
    Remainder(size, m / 4, q, r);
    QuotientIs(size, m, n, q, r);
  }

  lemma Remainder(size: nat, k: nat, q: nat, r: nat)
    requires size % 4 == 0 && size == q * (4 * k) + r
    ensures r % 4 == 0
  {
    assert q * (4 * k) == 4 * (q * k);
  }

  lemma QuotientIs(size: nat, m: nat, n: nat, q: nat, r: nat)
    requires n > 0 && r < m && size == q * m + r && (n - 1) * m < size <= n * m
    ensures n == (if r == 0 then q else q + 1)
    ensures size == (n - 1) * m + (if r == 0 then m else r)
  {
    var k := if r == 0 then q else q + 1;
    assert (k - 1) * m < size <= k * m by { assert (q + 1) * m == q * m + m && (q - 1) * m == q * m - m; }
    MulLess(n - 1, k, m);
    MulLess(k - 1, n, m);
    assert (q - 1) * m == q * m - m;
  }

  /** The registers the hardware derives from the descriptor describe the simple splitter. */
  lemma PerBlockFacts(c: Cfg)
    requires Legal(c)
    ensures MaxTlp(c) in {128, 256, 512, 1024, 2048, 4096}
    ensures 1 <= PerBlock(c) < B32 && Even(c.size, LogTlp(c)) == PerBlock(c)
    ensures 1 <= Odd(c.size, LogTlp(c)) <= MaxTlp(c) / 4
    ensures c.size == (PerBlock(c) - 1) * MaxTlp(c) + 4 * Odd(c.size, LogTlp(c))
    ensures (PerBlock(c) - 1) * MaxTlp(c) < c.size <= PerBlock(c) * MaxTlp(c)
  {
    MaxTlpValues(LogTlp(c));
    CutCount(c);
    CeilDivBounds(c.size, MaxTlp(c));
    EvenOdd(c.size, LogTlp(c), PerBlock(c));
  }

  /** Hardware offsets and lengths are those of the simple splitter. */
  lemma SplitterRefined(c: Cfg, idx: nat)
    requires Legal(c) && idx < PerBlock(c)
    ensures Off(c, idx) == idx * MaxTlp(c)
    ensures Words(c, idx) == (if idx + 1 == PerBlock(c) then Odd(c.size, LogTlp(c)) else MaxTlp(c) / 4)
    ensures 1 <= Words(c, idx) <= MaxTlp(c) / 4 <= 1024
  {
    PerBlockFacts(c);
    SplitShape(0, c.size, MaxTlp(c), PerBlock(c), idx);
  }

  /** TLP counter modulo the block after k TLPs of one block. */
  function Counted(even: nat, k: nat): nat {
    if k == 0 then 1 else Step1(even == Counted(even, k - 1), Counted(even, k - 1))
  }

  /** With SIZE 0 a block has no TLP by the registers, and the counter meets that only after it has
      wrapped: the block ends with its 2^32-th TLP and not before. */
  lemma {:induction false} ZeroSizeBlock(log: nat, k: nat)
    requires k < B32
    ensures Even(0, log) == 0 && Counted(0, k) == W32(k + 1)
    ensures Counted(0, k) == Even(0, log) <==> k == B32 - 1
  {
    ZeroBits(log);
    if k > 0 { ZeroSizeBlock(log, k - 1); }
  }

  /** The registers after a sequence of cycles, and the write TLPs finished in them. */
  function Ticks(c: Cfg, s: Rq, ins: seq<In>): (r: Rq)
    requires Shaped(c, s)
    ensures Shaped(c, r)
  {
    if ins == [] then s else Next(c, Ticks(c, s, ins[..|ins| - 1]), ins[|ins| - 1])
  }

  function Finished(c: Cfg, s: Rq, ins: seq<In>): nat
    requires Shaped(c, s)
  {
    if ins == [] then 0
    else Finished(c, s, ins[..|ins| - 1]) + if WrTlpEnd(Ticks(c, s, ins[..|ins| - 1]), ins[|ins| - 1]) then 1 else 0
  }

  predicate NeverIdle(c: Cfg, s: Rq, ins: seq<In>)
    requires Shaped(c, s)
  {
    ins == [] || (NeverIdle(c, s, ins[..|ins| - 1]) && Ticks(c, s, ins[..|ins| - 1]).st != Idle)
  }

  lemma ZeroSizeStep(c: Cfg, s: Rq, i: In)
    requires Shaped(c, s) && c.size == 0 && s.st != Idle && s.d.wrEven == 0
    ensures var r := Next(c, s, i);
      r.d.wrEven == 0 && r.wrMod == if WrTlpEnd(s, i) then Step1(s.wrMod == 0, s.wrMod) else s.wrMod
  {
    hide NextRand, NextGen, NextBusy, NextSizes, NextBuf, NextOut, NextSt, FirstFree, Shr, Low, Pow2, One, Two;
    ZeroBits(c.logPayload);
  }

  /** In every run of an operation with SIZE 0 the modulus counter counts the finished write TLPs, so it
      meets the TLP count of the block first when 2^32 - 1 of them are finished. */
  lemma {:induction false} ZeroSizeRun(c: Cfg, s: Rq, ins: seq<In>)
    requires Shaped(c, s) && c.size == 0 && s.d.wrEven == 0 && s.wrMod == 1 && NeverIdle(c, s, ins)
    requires Finished(c, s, ins) < B32
    ensures var r := Ticks(c, s, ins);
      && r.d.wrEven == 0 && r.wrMod == W32(Finished(c, s, ins) + 1)
      && (WrBlockEnd(r) <==> Finished(c, s, ins) == B32 - 1)
  {
    hide Next;
    ZeroSizeBlock(c.logPayload, Finished(c, s, ins));
    if ins != [] {
      var pre := ins[..|ins| - 1];
      ZeroSizeRun(c, s, pre);
      ZeroSizeStep(c, Ticks(c, s, pre), ins[|ins| - 1]);
    }
  }

  lemma OffStep(c: Cfg, idx: nat)
    requires Legal(c) && idx < PerBlock(c)
    ensures if idx == 0 then Off(c, idx) == 0 else Off(c, idx) == Off(c, idx - 1) + 4 * Words(c, idx - 1)
  {
    MaxTlpValues(LogTlp(c));
    SplitCovers(0, c.size, MaxTlp(c));
  }

  // ---------------------------------------------------------------- the TLPs of an operation

  /** TLP idx of block blk, of the write half or of the read half. */
  datatype Slot = Slot(isWrite: bool, blk: nat, idx: nat)

  function Run(isWrite: bool, blk: nat, n: nat): (r: seq<Slot>)
    ensures |r| == n
  {
    if n == 0 then [] else Run(isWrite, blk, n - 1) + [Slot(isWrite, blk, n - 1)]
  }

  function WrCount(c: Cfg): nat
    requires Legal(c)
  {
    if c.doesWrite then PerBlock(c) else 0
  }

  /** Reads of block b: a whole block, or what is left of the total in the last one. */
  function RdCount(c: Cfg, b: nat): nat
    requires Legal(c)
  {
    if !c.doesRead || Total(c) <= Before(c, b) then 0 else Min(PerBlock(c), Total(c) - Before(c, b))
  }

  function Blocks(c: Cfg): nat
    requires Legal(c)
  {
    PerBlockFacts(c);
    CeilDiv(Total(c), PerBlock(c))
  }

  /** The first b blocks, then w writes and r reads of block b. */
  function Full(c: Cfg, b: nat): seq<Slot>
    requires Legal(c)
    decreases b, 0
  {
    if b == 0 then [] else Upto(c, b - 1, WrCount(c), RdCount(c, b - 1))
  }

  function Upto(c: Cfg, b: nat, w: nat, r: nat): seq<Slot>
    requires Legal(c)
    decreases b, 1
  {
    Full(c, b) + Run(true, b, w) + Run(false, b, r)
  }

  function Plan(c: Cfg): seq<Slot>
    requires Legal(c)
  {
    Full(c, Blocks(c))
  }

  lemma {:induction false} RunPrefix(isWrite: bool, b: nat, n: nat, m: nat)
    requires n <= m
    ensures Run(isWrite, b, n) <= Run(isWrite, b, m)
  {
    if n < m { RunPrefix(isWrite, b, n, m - 1); }
  }

  lemma {:induction false} FullPrefix(c: Cfg, b: nat, n: nat)
    requires Legal(c) && b <= n
    ensures Full(c, b) <= Full(c, n)
  {
    if b < n { FullPrefix(c, b, n - 1); }
  }

  /** Partial progress inside a block is a prefix of the plan when writes come first. */
  lemma UptoPrefix(c: Cfg, b: nat, w: nat, r: nat)
    requires Legal(c) && b < Blocks(c) && w <= WrCount(c) && r <= RdCount(c, b)
    requires r > 0 ==> w == WrCount(c)
    ensures Upto(c, b, w, r) <= Plan(c)
  {
    FullPrefix(c, b + 1, Blocks(c));
    RunPrefix(true, b, w, WrCount(c));
    RunPrefix(false, b, r, RdCount(c, b));
    var head := Full(c, b) + Run(true, b, WrCount(c));
    assert Full(c, b + 1) == head + Run(false, b, RdCount(c, b));
    if r == 0 {
      assert Upto(c, b, w, r) == Full(c, b) + Run(true, b, w);
      assert Upto(c, b, w, r) <= head;
    }
  }

  // ---------------------------------------------------------------- framing

  datatype Tlp =
    | WriteTlp(tag: nat, dwAddr: nat, words: nat, payload: seq<Quad>)
    | ReadTlp(tag: nat, dwAddr: nat, words: nat)

  function Quads(words: nat): nat { (words + 3) / 4 }
  function NumBeats(words: nat): nat { if words <= 4 then 1 else 1 + (words + 3) / 8 }
  function LastBe(words: nat): nat { if words <= 1 then 0 else 0xf }

  predicate WellFormed(t: Tlp) {
    t.words >= 1 && (t.WriteTlp? ==> |t.payload| == Quads(t.words))
  }

  /** Beat k of a write: the header with the first entry, then two entries per beat. */
  function WriteBeat(t: Tlp, k: nat): Beat
    requires t.WriteTlp? && (if k == 0 then 0 else 2 * k - 1) < |t.payload|
  {
    if k == 0 then
      Beat(Head(Header(true, t.tag, t.words, t.dwAddr)), Data(t.payload[0]),
           TailKeep(Min(8, 4 + t.words)), t.words <= 4, 0xf, LastBe(t.words))
    else
      var left := if t.words < 8 * k - 4 then 0 else t.words - (8 * k - 4);
      Beat(Data(t.payload[2 * k - 1]), if 2 * k < |t.payload| then Data(t.payload[2 * k]) else Zero,
           TailKeep(Min(8, left)), left <= 8, 0xf, LastBe(t.words))
  }

  function Beats(t: Tlp, m: nat): (bs: seq<Beat>)
    requires t.WriteTlp? && 2 * m <= |t.payload| + 2 && (m > 0 ==> t.payload != [])
    ensures |bs| == m
  {
    if m == 0 then [] else Beats(t, m - 1) + [WriteBeat(t, m - 1)]
  }

  function Frame(t: Tlp): seq<Beat>
    requires WellFormed(t)
  {
    if t.WriteTlp? then Beats(t, NumBeats(t.words))
    else [Beat(Head(Header(false, t.tag, t.words, t.dwAddr)), Zero, 0x0f, true, 0xf, LastBe(t.words))]
  }

  predicate AllWellFormed(ts: seq<Tlp>) { forall k :: 0 <= k < |ts| ==> WellFormed(ts[k]) }

  function FrameAll(ts: seq<Tlp>): seq<Beat>
    requires AllWellFormed(ts)
  {
    if ts == [] then [] else FrameAll(ts[..|ts| - 1]) + Frame(ts[|ts| - 1])
  }
}
