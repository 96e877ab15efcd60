/** The 16-slot payload buffer refines an unbounded queue: over every run, what was pushed is
    what was taken followed by what is still inside, in the same order. */
module RqBuffer {
  import opened Hw
  import opened RqModel
  import opened RqPlan
  import opened RqRefine
  import opened RqRuns

  predicate BufWf(b: Buf) { |b.slots| == 16 && b.rd < 32 && b.wr < 32 && Occupancy(b) <= 14 }

  /** The queue the pointers delimit, oldest entry first. */
  function Contents(b: Buf): (q: seq<Quad>)
    requires |b.slots| == 16
    ensures |q| == Occupancy(b)
  {
    seq(Occupancy(b), k requires 0 <= k => b.slots[(b.rd + k) % 16])
  }

  function Pushed(b: Buf, push: bool, lo: Quad, hi: Quad, both: bool): seq<Quad> {
    if !push || !Accepts(b) then [] else if both then [lo, hi] else [lo]
  }

  lemma SlotApart(rd: nat, a: nat, b: nat)
    requires a < b < a + 16
    ensures (rd + a) % 16 != (rd + b) % 16
  {
  }

  lemma WriteSlot(b: Buf)
    requires BufWf(b)
    ensures b.wr % 16 == (b.rd + Occupancy(b)) % 16 && (b.wr + 1) % 16 == (b.rd + Occupancy(b) + 1) % 16
  {
  }

  /** Live entries are not overwritten; in particular the second slot, which is written
      speculatively, never holds one. */
  lemma LiveSlotKept(b: Buf, pops: nat, push: bool, lo: Quad, hi: Quad, both: bool, k: nat)
    requires BufWf(b) && k < Occupancy(b)
    ensures NextBuf(b, pops, push, lo, hi, both).slots[(b.rd + k) % 16] == b.slots[(b.rd + k) % 16]
  {
    WriteSlot(b);
    if Accepts(b) {
      SlotApart(b.rd, k, Occupancy(b));
      SlotApart(b.rd, k, Occupancy(b) + 1);
    }
  }

  lemma Pointers(rd: nat, wr: nat, pops: nat, n: nat)
    requires rd < 32 && wr < 32 && pops <= 2 && n <= 2 && pops <= (wr - rd) % 32 <= 14
      && (n > 0 ==> (wr - rd) % 32 <= 12)
    ensures ((wr + n) % 32 - (rd + pops) % 32) % 32 == (wr - rd) % 32 - pops + n
  {
    assert (wr + n) % 32 == if wr + n < 32 then wr + n else wr + n - 32;
    assert (rd + pops) % 32 == if rd + pops < 32 then rd + pops else rd + pops - 32;
    assert (wr - rd) % 32 == if wr >= rd then wr - rd else wr - rd + 32;
  }

  lemma ReadSlot(rd: nat, pops: nat, k: nat)
    ensures ((rd + pops) % 32 + k) % 16 == (rd + (pops + k)) % 16
  {
    var x := rd + pops;
    ModShift(x % 32 + k, 16, 2 * (x / 32));
  }

  lemma PointerStep(b: Buf, pops: nat, push: bool, lo: Quad, hi: Quad, both: bool)
    requires BufWf(b) && pops <= 2 && pops <= Occupancy(b)
    ensures var b' := NextBuf(b, pops, push, lo, hi, both);
      BufWf(b') && b'.rd == (b.rd + pops) % 32 && Occupancy(b') == Occupancy(b) - pops + |Pushed(b, push, lo, hi, both)|
  {
    Pointers(b.rd, b.wr, pops, |Pushed(b, push, lo, hi, both)|);
  }

  lemma NewSlot(b: Buf, pops: nat, lo: Quad, hi: Quad, both: bool)
    requires BufWf(b) && Accepts(b)
    ensures var t := NextBuf(b, pops, true, lo, hi, both).slots;
      t[(b.rd + Occupancy(b)) % 16] == lo && t[(b.rd + (Occupancy(b) + 1)) % 16] == hi
  {
    WriteSlot(b);
    SlotApart(b.rd, Occupancy(b), Occupancy(b) + 1);
  }

  /** Push and pop, possibly in the same cycle, act on the queue as on a list. */
  lemma BufferStep(b: Buf, pops: nat, push: bool, lo: Quad, hi: Quad, both: bool)
    requires BufWf(b) && pops <= 2 && pops <= Occupancy(b)
    ensures var b' := NextBuf(b, pops, push, lo, hi, both);
      BufWf(b') && Contents(b') == Contents(b)[pops..] + Pushed(b, push, lo, hi, both)
  {
    hide NextBuf;
    var b', n := NextBuf(b, pops, push, lo, hi, both), Occupancy(b);
    PointerStep(b, pops, push, lo, hi, both);
    if push && Accepts(b) { NewSlot(b, pops, lo, hi, both); }
    var q := Contents(b)[pops..] + Pushed(b, push, lo, hi, both);
    forall k | 0 <= k < |q| ensures Contents(b')[k] == q[k] {
      ReadSlot(b.rd, pops, k);
      if pops + k < n { LiveSlotKept(b, pops, push, lo, hi, both, pops + k); }
    }
  }

  /** The entries put on the bus are the head of the queue. */
  lemma PoppedIsHead(s: Rq, i: In)
    requires BufWf(s.buf)
    ensures Popped(s, i) == Contents(s.buf)[..Pops(s, i)]
  {
  }

  // ---------------------------------------------------------------- whole runs

  function PushedAll(c: Cfg, s: Rq, l: Log, ins: seq<In>): seq<Quad>
    requires Legal(c) && Shaped(c, s)
  {
    if ins == [] then [] else
      var (r, i) := (Exec(c, s, l, ins[..|ins| - 1]).0, ins[|ins| - 1]);
      PushedAll(c, s, l, ins[..|ins| - 1]) + Pushed(r.buf, i.c2sValid, i.lo, i.hi, i.both)
  }

  function PoppedAll(c: Cfg, s: Rq, l: Log, ins: seq<In>): seq<Quad>
    requires Legal(c) && Shaped(c, s)
  {
    if ins == [] then [] else
      var (r, i) := (Exec(c, s, l, ins[..|ins| - 1]).0, ins[|ins| - 1]);
      PoppedAll(c, s, l, ins[..|ins| - 1]) + Popped(r, i)
  }

  lemma QueueStep(c: Cfg, s: Rq, i: In)
    requires Shaped(c, s) && BufWf(s.buf)
    ensures var b := Next(c, s, i).buf;
      BufWf(b) && Contents(s.buf) + Pushed(s.buf, i.c2sValid, i.lo, i.hi, i.both) == Popped(s, i) + Contents(b)
  {
    hide NextRand, NextGen, NextDims, NextBusy, NextSizes, NextOut, NextSt;
    BufferStep(s.buf, Pops(s, i), i.c2sValid, i.lo, i.hi, i.both);
    PoppedIsHead(s, i);
    var n, q, p := Pops(s, i), Contents(s.buf), Pushed(s.buf, i.c2sValid, i.lo, i.hi, i.both);
    assert q + p == q[..n] + (q[n..] + p);
  }

  /** First in, first out, nothing lost and nothing invented, with at most 14 entries inside. */
  lemma {:induction false} BufferIsQueue(c: Cfg, s: Rq, l: Log, ins: seq<In>)
    requires Legal(c) && Shaped(c, s) && BufWf(s.buf)
    ensures var r := Exec(c, s, l, ins).0;
      && BufWf(r.buf)
      && Contents(s.buf) + PushedAll(c, s, l, ins) == PoppedAll(c, s, l, ins) + Contents(r.buf)
  {
    hide Next, Record, Contents, Pushed, Popped;
    if ins != [] {
      var pre, i := ins[..|ins| - 1], ins[|ins| - 1];
      BufferIsQueue(c, s, l, pre);
      var r := Exec(c, s, l, pre).0;
      QueueStep(c, r, i);
      var p, q := Pushed(r.buf, i.c2sValid, i.lo, i.hi, i.both), Popped(r, i);
      var c0, c1, c2 := Contents(s.buf), Contents(r.buf), Contents(Next(c, r, i).buf);
      var u, v := PushedAll(c, s, l, pre), PoppedAll(c, s, l, pre);
      calc {
        c0 + (u + p);
        (c0 + u) + p;
        (v + c1) + p;
        v + (c1 + p);
        v + (q + c2);
        (v + q) + c2;
      }
    }
  }

  /** The payload of the operation in course is the tail of everything taken so far. */
  lemma {:induction false} PayloadIsTaken(c: Cfg, s: Rq, ins: seq<In>)
    requires Legal(c) && Shaped(c, s)
    ensures var l, all := Exec(c, s, EMPTY, ins).1, PoppedAll(c, s, EMPTY, ins);
      |l.taken| <= |all| && all[|all| - |l.taken|..] == l.taken
  {
    hide Next, Popped, Record;
    if ins != [] {
      var pre, i := ins[..|ins| - 1], ins[|ins| - 1];
      PayloadIsTaken(c, s, pre);
      var (r, l) := Exec(c, s, EMPTY, pre);
      TakenStep(c, r, i, l);
      TailSnoc(PoppedAll(c, s, EMPTY, pre), l.taken, Popped(r, i));
    }
  }

  lemma TailSnoc(all: seq<Quad>, t: seq<Quad>, x: seq<Quad>)
    requires |t| <= |all| && all[|all| - |t|..] == t
    ensures (all + x)[|all + x| - |t + x|..] == t + x
  {
  }

  lemma TakenStep(c: Cfg, s: Rq, i: In, l: Log)
    requires Legal(c) && Shaped(c, s)
    ensures var t := Record(c, s, i, l).taken; t == [] || t == l.taken + Popped(s, i)
  {
    hide Popped, FirstFree, Split;
  }
}
