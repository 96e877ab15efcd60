/** When exactly the TLPs of an operation stay inside 4 KB pages. One block is safe iff it starts on
    a multiple of the largest TLP or does not reach the end of its page; in fixed and sequential mode
    a whole operation is safe iff its first two blocks are. */
module RqPages {
  import opened Hw
  import opened RqModel
  import opened RqPlan
  import opened RqRefine
  import opened RqCursor
  import opened RqRuns
  import opened RqTotals
  import opened RqAddress
  import opened RqSafety

  /** Piece idx of a block at b, seen through the dword address of its header. */
  predicate PieceSafe(c: Cfg, b: nat, idx: nat)
    requires idx < PerBlock(c)
  {
    4 * (W64(b + Off(c, idx)) / 4) % 4096 + 4 * Words(c, idx) <= 4096
  }

  /** The first n pieces of a block at b. */
  predicate BlockSafe(c: Cfg, b: nat, n: nat)
    requires n <= PerBlock(c)
  {
    b / 4 * 4 % MaxTlp(c) == 0 || b / 4 * 4 % 4096 + Upper(c, n) <= 4096
  }

  // ---------------------------------------------------------------- one block

  lemma Folded(b: nat, off: nat)
    requires off % 4 == 0
    ensures 4 * (W64(b + off) / 4) % 4096 == (b / 4 * 4 % 4096 + off) % 4096
  {
    var x, o := b + off, off / 4;
    W64Page(x);
    Truncated(W64(x));
    Truncated(x);
    assert 4 * (x / 4) == b / 4 * 4 + off by { assert x / 4 == b / 4 + o; }
    Reduced(b / 4 * 4, off);
  }

  lemma Truncated(x: nat)
    ensures 4 * (x / 4) % 4096 == x % 4096 / 4 * 4
  {
    var q, r := x / 4096, x % 4096;
    assert 4 * (x / 4) == q * 4096 + r / 4 * 4;
    ModShift(r / 4 * 4, 4096, q);
  }

  lemma Reduced(x: nat, y: nat)
    ensures (x + y) % 4096 == (x % 4096 + y) % 4096
  {
    assert x + y == x / 4096 * 4096 + (x % 4096 + y);
    ModShift(x % 4096 + y, 4096, x / 4096);
  }

  lemma Fits(r: nat, idx: nat, m: nat, len: nat)
    requires m in {128, 256, 512, 1024, 2048, 4096} && r % m == 0 && len <= m
    ensures (r + idx * m) % 4096 + len <= 4096
  {
    AlignedSum(r, idx, m);
  }

  /** The piece on the page boundary of a block that is not aligned. */
  lemma Straddles(r: nat, m: nat) returns (q: nat, rem: nat)
    requires m in {128, 256, 512, 1024, 2048, 4096} && r < 4096 && r % m != 0
    ensures r + q * m + rem == 4096 && 0 < rem < m
  {
    q, rem := QuotRem(4096 - r, m);
    var k := ModChunk(0, m);
    if rem == 0 {
      assert r == (k - q) * m by { assert (k - q) * m == k * m - q * m; }
      MulLess(q, k + 1, m);
      DivIs(r, m, k - q, 0);
    }
  }

  lemma BlockIff(c: Cfg, b: nat, n: nat)
    requires Legal(c) && 0 < n <= PerBlock(c)
    ensures (forall idx :: 0 <= idx < n ==> PieceSafe(c, b, idx)) <==> BlockSafe(c, b, n)
  {
    hide Split, Pow2, PieceSafe;
    PerBlockFacts(c);
    var m, r := MaxTlp(c), b / 4 * 4 % 4096;
    if BlockSafe(c, b, n) {
      forall idx | 0 <= idx < n ensures PieceSafe(c, b, idx) { SafePiece(c, b, n, idx); }
    } else {
      Residue(b / 4 * 4, m);
      var q, rem := Straddles(r, m);
      Crossing(c, b, n, q, rem);
    }
  }

  lemma Residue(x: nat, m: nat)
    requires m in {128, 256, 512, 1024, 2048, 4096}
    ensures x % 4096 % m == x % m
  {
    var k := ModChunk(x, m);
  }

  lemma SafePiece(c: Cfg, b: nat, n: nat, idx: nat)
    requires Legal(c) && idx < n <= PerBlock(c) && BlockSafe(c, b, n)
    ensures PieceSafe(c, b, idx)
  {
    hide Split, Pow2, Even, Odd, W64, Upper, MaxTlp, Words, Off;
    PerBlockFacts(c);
    SplitterRefined(c, idx);
    var m, r := MaxTlp(c), b / 4 * 4 % 4096;
    FourDivides(idx, m);
    Folded(b, Off(c, idx));
    if b / 4 * 4 % m == 0 {
      Residue(b / 4 * 4, m);
      Fits(r, idx, m, 4 * Words(c, idx));
    } else {
      UpperGrows(c, idx + 1, n);
      UpperStep(c, idx);
      UpperIsOff(c, idx);
      Small(r + Off(c, idx));
    }
  }

  lemma UpperIsOff(c: Cfg, idx: nat)
    requires idx < PerBlock(c)
    ensures Upper(c, idx) == Off(c, idx)
  {
  }

  lemma Small(x: nat)
    requires x < 4096
    ensures x % 4096 == x
  {
  }

  lemma FourDivides(idx: nat, m: nat)
    requires m in {128, 256, 512, 1024, 2048, 4096}
    ensures idx * m % 4 == 0
  {
    var k := m / 4;
    assert idx * m == (idx * k) * 4;
    ModShift(0, 4, idx * k);
  }

  lemma {:induction false} UpperGrows(c: Cfg, k: nat, n: nat)
    requires Legal(c) && k <= n <= PerBlock(c)
    ensures Upper(c, k) <= Upper(c, n)
  {
    hide Split, Pow2, Upper;
    if k < n {
      UpperGrows(c, k, n - 1);
      UpperStep(c, n - 1);
    }
  }

  lemma Crossing(c: Cfg, b: nat, n: nat, q: nat, rem: nat)
    requires Legal(c) && 0 < n <= PerBlock(c) && 0 < rem < MaxTlp(c)
    requires b / 4 * 4 % 4096 + q * MaxTlp(c) + rem == 4096 && b / 4 * 4 % 4096 + Upper(c, n) > 4096
    ensures q < n && !PieceSafe(c, b, q)
  {
    hide Split, Pow2, Even, Odd, Upper;
    PerBlockFacts(c);
    var m := MaxTlp(c);
    UpperAt(c, n);
    if n <= q { MulMono(n, q, m); }
    SplitterRefined(c, q);
    UpperStep(c, q);
    UpperAt(c, q);
    UpperGrows(c, q + 1, n);
    FourDivides(q, m);
    Folded(b, Off(c, q));
    if q + 1 == n { assert 4 * Words(c, q) > rem; } else { assert Words(c, q) == m / 4; }
  }

  lemma UpperAt(c: Cfg, n: nat)
    requires Legal(c) && n <= PerBlock(c)
    ensures Upper(c, n) <= n * MaxTlp(c) && (n < PerBlock(c) ==> Upper(c, n) == n * MaxTlp(c))
  {
    hide Split, Pow2;
    PerBlockFacts(c);
    if n < PerBlock(c) { SplitterRefined(c, n); }
  }

  // ---------------------------------------------------------------- a whole operation

  /** The base of block k in fixed and sequential mode. */
  function BaseOf(c: Cfg, k: nat): nat {
    if c.mode == 1 then W64(c.addr + Hops(c, k)) else if k == 0 then c.addr else W64(c.addr + c.offset)
  }

  /** Pieces of block k that the operation emits in its first direction. */
  function Emitted(c: Cfg, k: nat): nat
    requires Legal(c)
  {
    if c.doesWrite then PerBlock(c) else RdCount(c, k)
  }

  /** What belongs to the first n blocks of the plan, and where. */
  lemma {:induction false} FullHas(c: Cfg, n: nat, p: Slot)
    requires Legal(c)
    ensures p in Full(c, n) <==> p.blk < n && p.idx < (if p.isWrite then WrCount(c) else RdCount(c, p.blk))
  {
    hide Split, Pow2, RdCount;
    if n > 0 {
      FullHas(c, n - 1, p);
      RunHas(true, n - 1, WrCount(c), p);
      RunHas(false, n - 1, RdCount(c, n - 1), p);
    }
  }

  lemma {:induction false} RunHas(w: bool, b: nat, n: nat, p: Slot)
    ensures p in Run(w, b, n) <==> p.isWrite == w && p.blk == b && p.idx < n
  {
    if n > 0 { RunHas(w, b, n - 1, p); }
  }

  /** Block k as far as it is emitted. */
  predicate SafeAt(c: Cfg, k: nat)
    requires Legal(c)
  {
    Emitted(c, k) <= PerBlock(c) && BlockSafe(c, BaseOf(c, k), Emitted(c, k))
  }

  predicate AllSafe(c: Cfg)
    requires Legal(c)
  {
    forall k :: 0 <= k < Blocks(c) ==> SafeAt(c, k)
  }

  lemma EmittedBounds(c: Cfg, k: nat)
    requires Legal(c) && k < Blocks(c)
    ensures 0 < Emitted(c, k) <= PerBlock(c)
  {
    hide Split, Pow2;
    PerBlockFacts(c);
    LastBlock(c);
    BeforeIs(c, k);
    BeforeIs(c, Blocks(c) - 1);
    MulMono(k, Blocks(c) - 1, PerBlock(c));
  }

  /** One TLP of a run, and the piece it is. */
  lemma TlpIsPiece(c: Cfg, l: Log, k: nat)
    requires Legal(c) && c.mode <= 1 && Matched(c, l) && BasesOk(c, l.wrBases) && BasesOk(c, l.rdBases) && k < |l.tlps|
    ensures var p := l.slots[k]; p.idx < PerBlock(c) && (OnePage(l.tlps[k]) <==> PieceSafe(c, BaseOf(c, p.blk), p.idx))
  {
    hide Split, Hops, WellFormed;
    assert Matches(c, l.wrBases, l.rdBases, l.slots[k], l.tlps[k]);
  }

  /** In fixed and sequential mode the requests of a whole operation stay inside 4 KB pages (section
      2.2.7 of the PCI Express Base Specification 3.0) iff every block does. */
  lemma PagesExactly(c: Cfg, s: Rq, ins: seq<In>)
    requires Legal(c) && c.mode <= 1 && Ready(c, s) && GenOk(c, s, EMPTY)
    ensures var l := Exec(c, s, EMPTY, ins).1;
      l.slots == Plan(c) ==> ((forall k :: 0 <= k < |l.tlps| ==> OnePage(l.tlps[k])) <==> AllSafe(c))
  {
    hide Next, Record, Exec, FrameAll, Split, Hops, OnePage, Matches, PieceSafe, BlockSafe, Full, BaseOf;
    FollowsPlan(c, s, ins);
    RunGen(c, 0, s, ins);
    var l := Exec(c, s, EMPTY, ins).1;
    if l.slots == Plan(c) {
      if AllSafe(c) {
        forall k | 0 <= k < |l.tlps| ensures OnePage(l.tlps[k]) { SafeTlp(c, l, k); }
      }
      if forall k :: 0 <= k < |l.tlps| ==> OnePage(l.tlps[k]) {
        forall k | 0 <= k < Blocks(c) ensures SafeAt(c, k) {
          SafeBlock(c, l, k);
        }
      }
    }
  }

  lemma SafeTlp(c: Cfg, l: Log, k: nat)
    requires Legal(c) && c.mode <= 1 && Matched(c, l) && BasesOk(c, l.wrBases) && BasesOk(c, l.rdBases) && k < |l.tlps|
    requires l.slots == Plan(c) && AllSafe(c)
    ensures OnePage(l.tlps[k])
  {
    hide Split, Hops, OnePage, PieceSafe, BlockSafe, Full, Matches, BaseOf, BasesOk;
    var p := l.slots[k];
    assert p in Plan(c);
    FullHas(c, Blocks(c), p);
    TlpIsPiece(c, l, k);
    assert SafeAt(c, p.blk);
    EmittedBounds(c, p.blk);
    BlockIff(c, BaseOf(c, p.blk), Emitted(c, p.blk));
  }

  lemma SafeBlock(c: Cfg, l: Log, b: nat)
    requires Legal(c) && c.mode <= 1 && Matched(c, l) && BasesOk(c, l.wrBases) && BasesOk(c, l.rdBases) && b < Blocks(c)
    requires l.slots == Plan(c) && forall k :: 0 <= k < |l.tlps| ==> OnePage(l.tlps[k])
    ensures SafeAt(c, b)
  {
    hide Split, Hops, OnePage, PieceSafe, BlockSafe, Full, Matches, BaseOf, BasesOk;
    EmittedBounds(c, b);
    forall idx | 0 <= idx < Emitted(c, b) ensures PieceSafe(c, BaseOf(c, b), idx) {
      var p := Slot(c.doesWrite, b, idx);
      FullHas(c, Blocks(c), p);
      var k :| 0 <= k < |l.slots| && l.slots[k] == p;
      TlpIsPiece(c, l, k);
    }
    BlockIff(c, BaseOf(c, b), Emitted(c, b));
  }

  // ---------------------------------------------------------------- two blocks decide

  /** A step that leaves the page does not come back to it around the end of the address space. */
  lemma LeavesPage(a: nat, x: nat)
    requires a < B64 && 4096 <= a % 4096 + x && x <= B64 - 4096
    ensures W64(a + x) / 4096 != a / 4096
  {
    if a + x >= B64 { assert W64(a + x) == a + x - B64 by { W64Add(a + x, -B64); } }
  }

  /** The counters bound the size. */
  lemma SizeBound(c: Cfg)
    requires Legal(c)
    ensures c.size < 4096 * B32
  {
    hide Split, Pow2, Even, Odd;
    PerBlockFacts(c);
    MulMono(MaxTlp(c), 4096, PerBlock(c));
  }

  /** Past the second block the sequential generator stays at the start when two blocks do not fit. */
  lemma {:induction false} HopsReturn(c: Cfg, k: nat)
    requires 0 < c.size < 4096 * B32 && c.addr < B64 && c.addr % 4096 + 2 * c.size >= 4096 && k >= 2
    ensures Hops(c, k) == 0
  {
    if k > 2 { HopsReturn(c, k - 1); }
    var o := Hops(c, k - 1);
    assert o == 0 || o == c.size;
    LeavesPage(c.addr, o + 2 * c.size);
  }

  lemma FewerSafe(c: Cfg, b: nat, n: nat, k: nat)
    requires Legal(c) && k <= n <= PerBlock(c) && BlockSafe(c, b, n)
    ensures BlockSafe(c, b, k)
  {
    hide Split, Pow2;
    UpperGrows(c, k, n);
  }

  lemma EmittedFalls(c: Cfg, j: nat, k: nat)
    requires Legal(c) && j <= k < Blocks(c)
    ensures Emitted(c, k) <= Emitted(c, j)
  {
    hide Split, Pow2;
    BeforeIs(c, j);
    BeforeIs(c, k);
    MulMono(j, k, PerBlock(c));
  }

  /** The condition a caller can check: the first two blocks. */
  lemma TwoBlocksDecide(c: Cfg)
    requires Legal(c) && c.mode <= 1
    ensures AllSafe(c) <==> forall k :: 0 <= k < 2 && k < Blocks(c) ==> SafeAt(c, k)
  {
    hide Split, Pow2, BlockSafe, Hops, Emitted, Blocks;
    if forall k :: 0 <= k < 2 && k < Blocks(c) ==> SafeAt(c, k) {
      forall k | 0 <= k < Blocks(c) ensures SafeAt(c, k) {
        EmittedBounds(c, k);
        if k >= 2 { LaterSafe(c, k); }
      }
    }
  }

  lemma LaterSafe(c: Cfg, k: nat)
    requires Legal(c) && c.mode <= 1 && 2 <= k < Blocks(c)
    requires SafeAt(c, 0) && SafeAt(c, 1)
    ensures SafeAt(c, k)
  {
    hide Split, Pow2, BlockSafe, Hops, Emitted, Blocks;
    EmittedFalls(c, 0, k);
    EmittedFalls(c, 1, k);
    if c.mode == 0 {
      FewerSafe(c, BaseOf(c, 1), Emitted(c, 1), Emitted(c, k));
    } else if c.addr % 4096 + 2 * c.size >= 4096 {
      SizeBound(c);
      HopsReturn(c, k);
      NoHops(c);
      FewerSafe(c, BaseOf(c, 0), Emitted(c, 0), Emitted(c, k));
    } else {
      SeqPage(c, k);
      InsideSafe(c, BaseOf(c, k), Emitted(c, k));
    }
  }

  lemma InsideSafe(c: Cfg, b: nat, n: nat)
    requires Legal(c) && n <= PerBlock(c) && b % 4096 + c.size <= 4096
    ensures BlockSafe(c, b, n)
  {
    hide Split, Pow2;
    PerBlockFacts(c);
    UpperGrows(c, n, PerBlock(c));
    Truncated(b);
  }
}
