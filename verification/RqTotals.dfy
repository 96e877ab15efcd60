/** What a whole operation amounts to: how many TLPs and bytes the plan holds, compared with the
    byte formula of the host benchmark, and the order of writes and reads. */
module RqTotals {
  import opened Hw
  import opened RqModel
  import opened RqPlan
  import opened RqRefine
  import opened RqCursor
  import opened RqRuns

  predicate InBlock(c: Cfg, ps: seq<Slot>) { forall k :: 0 <= k < |ps| ==> ps[k].idx < PerBlock(c) }

  /** Bytes and TLPs of one direction in a list of slots. */
  function Bytes(c: Cfg, ps: seq<Slot>, isWrite: bool): nat
    requires InBlock(c, ps)
  {
    if ps == [] then 0 else
      var p := ps[|ps| - 1];
      Bytes(c, ps[..|ps| - 1], isWrite) + if p.isWrite == isWrite then 4 * Words(c, p.idx) else 0
  }

  function Count(ps: seq<Slot>, isWrite: bool): nat {
    if ps == [] then 0 else Count(ps[..|ps| - 1], isWrite) + if ps[|ps| - 1].isWrite == isWrite then 1 else 0
  }

  lemma {:induction false} SumApp(c: Cfg, ps: seq<Slot>, qs: seq<Slot>, w: bool)
    requires InBlock(c, ps) && InBlock(c, qs)
    ensures InBlock(c, ps + qs) && Bytes(c, ps + qs, w) == Bytes(c, ps, w) + Bytes(c, qs, w)
    ensures Count(ps + qs, w) == Count(ps, w) + Count(qs, w)
  {
    hide Split;
    if qs == [] {
      assert ps + qs == ps;
    } else {
      SumApp(c, ps, qs[..|qs| - 1], w);
      assert (ps + qs)[..|ps + qs| - 1] == ps + qs[..|qs| - 1];
    }
  }

  lemma SumSnoc(c: Cfg, ps: seq<Slot>, p: Slot, w: bool)
    requires InBlock(c, ps) && p.idx < PerBlock(c)
    ensures InBlock(c, ps + [p])
    ensures Bytes(c, ps + [p], w) == Bytes(c, ps, w) + if p.isWrite == w then 4 * Words(c, p.idx) else 0
    ensures Count(ps + [p], w) == Count(ps, w) + if p.isWrite == w then 1 else 0
  {
    hide Split;
    assert (ps + [p])[..|ps|] == ps;
  }

  /** Bytes of the first n TLPs of a block. */
  function Upper(c: Cfg, n: nat): nat
    requires n <= PerBlock(c)
  {
    if n < PerBlock(c) then Off(c, n) else c.size
  }

  lemma UpperStep(c: Cfg, n: nat)
    requires Legal(c) && n < PerBlock(c)
    ensures Upper(c, n + 1) == Upper(c, n) + 4 * Words(c, n)
    ensures n == 0 ==> Upper(c, n) == 0
  {
    PerBlockFacts(c);
    SplitterRefined(c, n);
    OffStep(c, n);
    if n + 1 < PerBlock(c) { OffStep(c, n + 1); }
  }

  lemma {:induction false} RunSums(c: Cfg, w: bool, b: nat, n: nat)
    requires Legal(c) && n <= PerBlock(c)
    ensures InBlock(c, Run(w, b, n))
    ensures Bytes(c, Run(w, b, n), w) == Upper(c, n) && Bytes(c, Run(w, b, n), !w) == 0
    ensures Count(Run(w, b, n), w) == n && Count(Run(w, b, n), !w) == 0
  {
    hide Split, Pow2, Bytes, Count;
    if n == 0 {
      PerBlockFacts(c);
      UpperStep(c, 0);
      EmptySums(c);
    } else {
      RunSums(c, w, b, n - 1);
      UpperStep(c, n - 1);
      SumSnoc(c, Run(w, b, n - 1), Slot(w, b, n - 1), w);
      SumSnoc(c, Run(w, b, n - 1), Slot(w, b, n - 1), !w);
    }
  }

  lemma {:induction false} FullSums(c: Cfg, b: nat)
    requires Legal(c) && (b > 0 ==> Before(c, b - 1) < Total(c))
    ensures InBlock(c, Full(c, b))
    ensures Count(Full(c, b), true) == (if c.doesWrite then Before(c, b) else 0)
    ensures Bytes(c, Full(c, b), true) == (if c.doesWrite then b * c.size else 0)
    ensures Count(Full(c, b), false) == (if c.doesRead then Min(Total(c), Before(c, b)) else 0)
    ensures c.doesRead && Before(c, b) <= Total(c) ==> Bytes(c, Full(c, b), false) == b * c.size
    ensures c.doesRead && b > 0 && Total(c) < Before(c, b) ==>
      Bytes(c, Full(c, b), false) == (b - 1) * c.size + Upper(c, Total(c) - Before(c, b - 1))
  {
    hide Split, Pow2, Bytes, Count;
    if b == 0 {
      EmptySums(c);
    } else {
      FullSums(c, b - 1);
      BlockSums(c, b - 1);
      assert b * c.size == (b - 1) * c.size + c.size;
    }
  }

  lemma EmptySums(c: Cfg)
    ensures forall w :: Count([], w) == 0 && Bytes(c, [], w) == 0
  {
  }

  lemma BlockSums(c: Cfg, b: nat)
    requires Legal(c) && Before(c, b) < Total(c) && InBlock(c, Full(c, b))
    ensures InBlock(c, Full(c, b + 1))
    ensures Count(Full(c, b + 1), true) == Count(Full(c, b), true) + WrCount(c)
    ensures Bytes(c, Full(c, b + 1), true) == Bytes(c, Full(c, b), true) + if c.doesWrite then c.size else 0
    ensures Count(Full(c, b + 1), false) == Count(Full(c, b), false) + RdCount(c, b)
    ensures RdCount(c, b) <= PerBlock(c)
    ensures Bytes(c, Full(c, b + 1), false) == Bytes(c, Full(c, b), false) + Upper(c, RdCount(c, b))
  {
    hide Split, Pow2, Bytes, Count;
    PerBlockFacts(c);
    var f, w, r := Full(c, b), Run(true, b, WrCount(c)), Run(false, b, RdCount(c, b));
    RunSums(c, true, b, WrCount(c));
    RunSums(c, false, b, RdCount(c, b));
    SumApp(c, f, w, true);
    SumApp(c, f, w, false);
    SumApp(c, f + w, r, true);
    SumApp(c, f + w, r, false);
    UpperStep(c, 0);
  }

  /** TLPs the hardware sends: reads stop at the total, writes finish their block. */
  lemma PlanCounts(c: Cfg)
    requires Legal(c)
    ensures Count(Plan(c), false) == (if c.doesRead then Total(c) else 0)
    ensures Count(Plan(c), true) == (if c.doesWrite then PerBlock(c) * CeilDiv(Total(c), PerBlock(c)) else 0)
  {
    var n := Blocks(c);
    LastBlock(c);
    FullSums(c, n);
    BeforeIs(c, n);
  }

  lemma LastBlock(c: Cfg)
    requires Legal(c)
    ensures Blocks(c) >= 1 && Before(c, Blocks(c) - 1) < Total(c) <= Before(c, Blocks(c))
  {
    PerBlockFacts(c);
    CeilDivBounds(Total(c), PerBlock(c));
    BeforeIs(c, Blocks(c) - 1);
    BeforeIs(c, Blocks(c));
  }

  // ---------------------------------------------------------------- the byte formula of the benchmark

  /** total_bytes of the benchmark for nbytes per block, n TLPs and at most m bytes per TLP. */
  function HostBytes(n: nat, nbytes: nat, m: nat): nat
    requires m > 0 && nbytes > 0
  {
    var complete := nbytes / m;
    var incomplete := if nbytes != m * complete then 1 else 0;
    assert complete + incomplete > 0;
    n / (complete + incomplete) * nbytes + n % (complete + incomplete) * m
  }

  /** The host counts TLPs per block as the hardware does. */
  lemma HostPerBlock(c: Cfg) returns (q: nat, r: nat)
    requires Legal(c) && c.tlps > 0
    ensures c.tlps == q * PerBlock(c) + r && r < PerBlock(c)
    ensures HostBytes(c.tlps, c.size, MaxTlp(c)) == q * c.size + r * MaxTlp(c)
  {
    hide Split, Pow2, HostBytes, CeilDiv, PerBlock, MaxTlp;
    PerBlockFacts(c);
    CutCount(c);
    var m, e := MaxTlp(c), PerBlock(c);
    var k, x := QuotRem(c.size, m);
    CeilOf(c.size, m, k, x);
    q, r := QuotRem(c.tlps, e);
    HostForm(c.tlps, c.size, m, k, x, e, q, r);
  }

  lemma HostForm(n: nat, size: nat, m: nat, k: nat, x: nat, e: nat, q: nat, r: nat)
    requires m > 0 && size > 0 && size == k * m + x && x < m && e == (if x == 0 then k else k + 1)
    requires n == q * e + r && r < e
    ensures HostBytes(n, size, m) == q * size + r * m
  {
    DivIs(size, m, k, x);
    DivIs(n, e, q, r);
    assert m * k == k * m;
  }

  lemma CeilOf(size: nat, m: nat, q: nat, r: nat)
    requires m > 0 && size == q * m + r && r < m && size > 0
    ensures CeilDiv(size, m) == if r == 0 then q else q + 1
  {
    assert (q - 1) * m == q * m - m && (q + 1) * m == q * m + m;
    if r == 0 {
      assert q > 0 by { MulMono(q, 0, m); }
      CeilDivIs(size, m, q);
    } else {
      CeilDivIs(size, m, q + 1);
    }
  }

  /** Reads move exactly the bytes the benchmark divides by the measured time. */
  lemma ReadBytesMatchHost(c: Cfg)
    requires Legal(c) && c.doesRead && c.tlps > 0
    ensures InBlock(c, Plan(c)) && Bytes(c, Plan(c), false) == HostBytes(c.tlps, c.size, MaxTlp(c))
  {
    hide Split, Pow2, HostBytes, Bytes, Count, Full;
    var q, r := HostPerBlock(c);
    BeforeIs(c, q);
    PerBlockFacts(c);
    if r == 0 {
      PlanEnds(c, q - 1);
      FullSums(c, q);
    } else {
      PlanEnds(c, q);
      FullSums(c, q + 1);
      SplitterRefined(c, r);
      assert Upper(c, r) == r * MaxTlp(c);
    }
  }

  /** Writes always move whole blocks, so the formula is a lower bound, exact iff the requested
      number of TLPs is a positive multiple of the TLPs per block. */
  lemma WriteBytesBoundHost(c: Cfg)
    requires Legal(c) && c.doesWrite
    ensures InBlock(c, Plan(c)) && Bytes(c, Plan(c), true) == Blocks(c) * c.size
    ensures HostBytes(c.tlps, c.size, MaxTlp(c)) <= Bytes(c, Plan(c), true)
    ensures HostBytes(c.tlps, c.size, MaxTlp(c)) == Bytes(c, Plan(c), true)
      <==> c.tlps > 0 && exists q: nat :: c.tlps == q * PerBlock(c)
  {
    hide Split, Pow2, Bytes, Count;
    LastBlock(c);
    FullSums(c, Blocks(c));
    PerBlockFacts(c);
    if c.tlps == 0 {
      ZeroHost(c);
    } else {
      WriteRest(c);
    }
  }

  lemma ZeroHost(c: Cfg)
    requires Legal(c) && c.tlps == 0
    ensures HostBytes(c.tlps, c.size, MaxTlp(c)) == 0 && Blocks(c) * c.size > 0
  {
    hide Split, Pow2, PerBlock, Blocks, MaxTlp;
    LastBlock(c);
    MulMono(1, Blocks(c), c.size);
    PerBlockFacts(c);
    NoTlps(c.size, MaxTlp(c));
  }

  lemma NoTlps(size: nat, m: nat)
    requires size > 0 && m > 0
    ensures HostBytes(0, size, m) == 0
  {
    var k, x := QuotRem(size, m);
    SomeTlp(size, m, k, x);
    HostForm(0, size, m, k, x, if x == 0 then k else k + 1, 0, 0);
  }

  lemma SomeTlp(size: nat, m: nat, k: nat, x: nat)
    requires size > 0 && size == k * m + x
    ensures k > 0 || x > 0
  {
  }

  lemma WriteRest(c: Cfg)
    requires Legal(c) && c.tlps > 0
    ensures HostBytes(c.tlps, c.size, MaxTlp(c)) <= Blocks(c) * c.size
    ensures HostBytes(c.tlps, c.size, MaxTlp(c)) == Blocks(c) * c.size <==> exists q: nat :: c.tlps == q * PerBlock(c)
  {
    hide Split, Pow2, HostBytes, PerBlock, MaxTlp, Blocks, Plan;
    var q, r := HostPerBlock(c);
    PerBlockFacts(c);
    BeforeIs(c, q);
    if r == 0 {
      Rounded(c, q);
    } else {
      PlanEnds(c, q);
      Truncated(q, r, c.size, PerBlock(c), MaxTlp(c));
      NoMultiple(c.tlps, PerBlock(c), q, r);
    }
  }

  lemma Rounded(c: Cfg, q: nat)
    requires Legal(c) && c.tlps > 0 && c.tlps == q * PerBlock(c)
    ensures Blocks(c) == q
  {
    hide Split, Pow2, PerBlock, Plan;
    PerBlockFacts(c);
    SomeTlp(c.tlps, PerBlock(c), q, 0);
    BeforeIs(c, q);
    BeforeIs(c, q - 1);
    assert (q - 1) * PerBlock(c) == q * PerBlock(c) - PerBlock(c);
    PlanEnds(c, q - 1);
  }

  lemma Truncated(q: nat, r: nat, size: nat, e: nat, m: nat)
    requires r < e && (e - 1) * m < size
    ensures q * size + r * m < (q + 1) * size
  {
    MulMono(r, e - 1, m);
    assert (q + 1) * size == q * size + size;
  }

  lemma NoMultiple(n: nat, e: nat, q: nat, r: nat)
    requires n == q * e + r && 0 < r < e
    ensures !exists k: nat :: n == k * e
  {
    if k: nat :| n == k * e {
      DivIs(n, e, q, r);
      DivIs(n, e, k, 0);
    }
  }

  // ---------------------------------------------------------------- writes before reads

  lemma {:induction false} RunAt(w: bool, b: nat, n: nat, i: nat)
    requires i < n
    ensures Run(w, b, n)[i] == Slot(w, b, i)
  {
    if i + 1 < n { RunAt(w, b, n - 1, i); }
  }

  predicate Written(ps: seq<Slot>, blk: nat, k: nat) { Slot(true, blk, k) in ps }

  /** All writes of the block of slot j come before slot j. */
  predicate BlockWritten(c: Cfg, ps: seq<Slot>, j: nat)
    requires j < |ps|
  {
    forall k :: 0 <= k < PerBlock(c) ==> Written(ps[..j], ps[j].blk, k)
  }

  lemma {:induction false} FullReadsFollowWrites(c: Cfg, b: nat, j: nat)
    requires Legal(c) && c.doesWrite && j < |Full(c, b)| && !Full(c, b)[j].isWrite
    ensures BlockWritten(c, Full(c, b), j)
  {
    hide Split, Pow2;
    var f, w, r := Full(c, b - 1), Run(true, b - 1, WrCount(c)), Run(false, b - 1, RdCount(c, b - 1));
    assert Full(c, b) == f + w + r;
    if j < |f| {
      FullReadsFollowWrites(c, b - 1, j);
      assert Full(c, b)[..j] == f[..j];
    } else {
      if j < |f| + |w| { RunAt(true, b - 1, |w|, j - |f|); }
      RunAt(false, b - 1, |r|, j - |f| - |w|);
      var pre, blk := Full(c, b)[..j], b - 1;
      forall k | 0 <= k < PerBlock(c) ensures Written(pre, blk, k) {
        RunAt(true, blk, |w|, k);
        assert pre[|f| + k] == w[k];
      }
    }
  }

  /** At no point of any run has a read of a block been issued before all writes of that block. */
  lemma NoReadBeforeItsBlockIsWritten(c: Cfg, s: Rq, ins: seq<In>)
    requires Legal(c) && Ready(c, s) && c.doesWrite
    ensures var (r, l) := Exec(c, s, EMPTY, ins);
      forall j :: 0 <= j < |l.slots| && !l.slots[j].isWrite ==> BlockWritten(c, l.slots, j)
  {
    hide Next, Record, Matches, FrameAll, Split;
    FollowsPlan(c, s, ins);
    var (r, l) := Exec(c, s, EMPTY, ins);
    forall j | 0 <= j < |l.slots| && !l.slots[j].isWrite ensures BlockWritten(c, l.slots, j) {
      FullReadsFollowWrites(c, Blocks(c), j);
      assert l.slots[..j] == Plan(c)[..j];
    }
  }
}
