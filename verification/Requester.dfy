/** The requester in the form of its source: registers updated in place at every clock edge.
    Each clocked block reads the registers as they were before the edge and is proved against
    the function of the transition system that it implements. */
module Requester {
  import opened Hw
  import opened RqModel

  /** The loop of the priority encoder runs from the highest tag down. */
  method LowestFree(busy: array<bool>) returns (r: nat)
    ensures r == FirstFree(busy[..])
  {
    r := 0;
    var k := busy.Length;
    while k > 0
      invariant 0 <= k <= busy.Length && r == FirstFree(busy[..], k)
    {
      k := k - 1;
      if !busy[k] { r := k; }
    }
  }

  /** Compare the busy tags with the window mask, bit by bit. */
  method ScanWindow(busy: array<bool>, mask: seq<bool>) returns (free: bool, quiet: bool)
    ensures free <==> exists j :: 0 <= j < busy.Length && j < |mask| && mask[j] && !busy[j]
    ensures quiet <==> forall j :: 0 <= j < busy.Length && j < |mask| && mask[j] ==> !busy[j]
  {
    free, quiet := false, true;
    var k := 0;
    while k < busy.Length && k < |mask|
      invariant 0 <= k <= busy.Length
      invariant free <==> exists j :: 0 <= j < k && j < |mask| && mask[j] && !busy[j]
      invariant quiet <==> forall j :: 0 <= j < k && j < |mask| && mask[j] ==> !busy[j]
    {
      if mask[k] {
        if busy[k] { quiet := false; } else { free := true; }
      }
      k := k + 1;
    }
  }

  lemma OneTag(b0: seq<bool>, s0: seq<nat>, window: nat, issuing: bool, completed: seq<bool>, words: nat, j: nat)
    requires j < |b0| == |s0|
    ensures NextBusy(b0, window, issuing, completed)[j] ==
      (Taken(b0, window, issuing, j) || (b0[j] && !Completes(completed, j)) || (j >= 1 && j >= window))
    ensures NextSizes(s0, b0, window, issuing, words)[j] ==
      if Taken(b0, window, issuing, j) then words % 2048 else s0[j]
  {
  }

  /** The combinational signals that several blocks share. */
  datatype Wires = Wires(one: bool, two: bool, last1: bool, last2: bool, free: bool, end: bool)

  class Engine {
    var st: St
    var pipe: St
    var endR: bool
    var wrTlp: nat
    var wrMod: nat
    var rdTlp: nat
    var rdMod: nat
    var wrRem: nat
    var wrRmd: nat
    var rdRem: nat
    var wrAddr: nat
    var rdAddr: nat
    var dims: Dims
    var gen: Gen
    var rand: Rand
    var rd: nat
    var wr: nat
    var out: Out
    const busy: array<bool>
    const sizes: array<nat>
    const slots: array<Quad>

    ghost predicate Valid(c: Cfg) {
      slots.Length == 16 && busy.Length == sizes.Length == c.tags
    }

    /** The registers as one value. */
    ghost function State(): Rq
      reads this, busy, sizes, slots
    {
      Rq(st, pipe, endR, wrTlp, wrMod, rdTlp, rdMod, wrRem, wrRmd, rdRem, wrAddr, rdAddr,
         dims, gen, rand, busy[..], sizes[..], Buf(slots[..], rd, wr), out)
    }

    ghost predicate Shows(w: Wires)
      reads this, busy, sizes, slots
    {
      var s := State();
      w == Wires(One(s), Two(s), Last1(s), Last2(s), FreeTag(s), EndOp(s))
    }

    constructor (c: Cfg)
      ensures Valid(c) && fresh(busy) && fresh(sizes) && fresh(slots)
      ensures State() == Reset(c)
    {
      st, pipe, endR := Idle, Idle, false;
      wrTlp, wrMod, rdTlp, rdMod := 1, 1, 1, 1;
      wrRem, wrRmd, rdRem, wrAddr, rdAddr := 0, 0, 0, 0, 0;
      dims := Dims(0, 0, 0, 0, 0, 0, 0, Mask(c.tags, 0));
      gen := Gen(0, 0, 0, 0, 0, 0, 0, 0, 0);
      rand := Rand(1, 0, 0, 0, 0, 0, 0, 0, 0, 0, 0, 0, 0, 0, 0);
      rd, wr := 0, 0;
      out := Out(false, Beat(Zero, Zero, 0, false, 0, 0));
      busy := new bool[c.tags](_ => false);
      sizes := new nat[c.tags](_ => 0);
      slots := new Quad[16](_ => Quad(0, 0, 0, 0));
    }

    method Sense() returns (w: Wires)
      ensures Shows(w)
    {
      var free, quiet := ScanWindow(busy, dims.mask);
      var occupancy := (wr - rd) % 32;
      var end := (st == WaitRead && quiet) || (st == Idle && (pipe == InitWrite || pipe == Write));
      w := Wires(occupancy != 0, occupancy / 2 != 0, wrRem <= 4, wrRem <= 8, free, end);
    }

    function AfterTlp(c: Cfg): (r: St)
      reads this, busy, sizes, slots
      ensures r == AfterWrTlp(c, State())
    {
      if dims.wrEven != wrMod then InitWrite
      else if c.doesRead then InitRead
      else if dims.wrTotal <= wrTlp then Idle
      else InitWrite
    }

    /** The main state machine. */
    method StateBlock(c: Cfg, i: In, w: Wires) returns (r: St)
      requires Shows(w)
      ensures r == NextSt(c, State(), i)
    {
      r := st;
      match st {
        case Idle =>
          if i.ready && c.doesWrite && i.valid && !endR && !w.end {
            r := InitWrite;
          } else if i.ready && c.doesRead && i.valid && !endR && !w.end {
            r := InitRead;
          }
        case InitWrite =>
          if i.ready && w.one {
            if w.last1 { r := AfterTlp(c); } else { r := Write; }
          }
        case Write =>
          if i.ready && ((w.last1 && w.one) || (w.last2 && w.two)) { r := AfterTlp(c); }
        case InitRead =>
          if i.ready && w.free {
            if dims.rdTotal <= rdTlp {
              r := WaitRead;
            } else if c.doesWrite && dims.rdEven == rdMod {
              r := InitWrite;
            }
          }
        case WaitRead =>
          if w.end { r := Idle; }
      }
    }

    /** TLP counters and their counterparts modulo the block. */
    method CounterBlock(i: In, w: Wires) returns (wt: nat, wm: nat, rt: nat, rm: nat)
      requires Shows(w)
      ensures wt == NextWrTlp(State(), i) && wm == NextWrMod(State(), i)
      ensures rt == NextRdTlp(State(), i) && rm == NextRdMod(State(), i)
    {
      wt, wm, rt, rm := wrTlp, wrMod, rdTlp, rdMod;
      var wrDone := false;
      match st {
        case Idle => if i.ready { wt, wm, rt, rm := 1, 1, 1, 1; }
        case InitWrite => wrDone := i.ready && w.one && w.last1;
        case Write => wrDone := i.ready && ((w.two && w.last2) || (w.one && w.last1));
        case InitRead =>
          if w.free && i.ready {
            rt := W32(rdTlp + 1);
            rm := if dims.rdEven == rdMod then 1 else W32(rdMod + 1);
          }
        case WaitRead =>
      }
      if wrDone {
        wt := W32(wrTlp + 1);
        wm := if dims.wrEven == wrMod then 1 else W32(wrMod + 1);
      }
    }

    /** Words left, in full and truncated to four bits, and address of the write TLP. */
    method WriteBlock(c: Cfg, i: In, w: Wires) returns (rem: nat, rmd: nat, addr: nat)
      requires Shows(w)
      ensures rem == NextWrRem(c, State(), i) && rmd == NextWrRmd(c, State(), i) && addr == NextWrAddr(c, State(), i)
    {
      rem, rmd, addr := wrRem, wrRmd, wrAddr;
      var most := MaxPayload(c) / 4;
      var done := false;
      match st {
        case Idle =>
          rem := if c.size / 4 <= most then c.size / 4 else most;
          rmd := rem % 16;
          addr := c.addr;
        case InitWrite =>
          if i.ready && w.one {
            if w.last1 { done := true; } else { rem, rmd := W64(wrRem - 4), (wrRmd - 4) % 16; }
          }
        case Write =>
          if i.ready {
            if (w.one && w.last1) || (w.two && w.last2) {
              done := true;
            } else if w.two {
              rem, rmd := W64(wrRem - 8), (wrRmd - 8) % 16;
            }
          }
        case InitRead =>
        case WaitRead =>
      }
      if done {
        rem := if dims.wrEven == W32(wrMod + 1) || dims.wrEven == 1 then dims.wrOdd else most;
        if dims.wrEven == wrMod {
          addr := if c.mode == 0 then gen.fix else if c.mode == 1 then gen.wrSeq else gen.wrRand;
        } else {
          addr := W64(wrAddr + 4 * (most % 2048));
        }
        rmd := rem % 16;
      }
    }

    /** Words and address of the read TLP. */
    method ReadBlock(c: Cfg, i: In, w: Wires) returns (rem: nat, addr: nat)
      requires Shows(w)
      ensures rem == NextRdRem(c, State(), i) && addr == NextRdAddr(c, State(), i)
    {
      rem, addr := rdRem, rdAddr;
      if i.ready && st == Idle {
        addr := c.addr;
        rem := if c.size / 4 <= Pow2(c.logRead) / 4 then c.size / 4 else MaxTlp(c) / 4;
      } else if i.ready && st == InitRead && w.free {
        rem := if dims.rdEven == W32(rdMod + 1) || dims.rdEven == 1 then dims.rdOdd else MaxTlp(c) / 4;
        if dims.rdEven == rdMod {
          addr := if c.mode == 0 then gen.fix else if c.mode == 1 then gen.rdSeq else gen.rdRand;
        } else {
          addr := W64(rdAddr + 4 * (MaxTlp(c) / 4 % 2048));
        }
      }
    }

    /** Data, TKEEP, TLAST, byte enables and the read pointer of the payload buffer. */
    method OutputBlock(c: Cfg, i: In, w: Wires) returns (o: Out, next: nat)
      requires Valid(c) && Shows(w)
      ensures o == NextOut(c, State(), i) && next == (rd + Pops(State(), i)) % 32
    {
      var b := out.beat;
      o, next := out, rd % 32;
      if i.ready {
        match st {
          case InitWrite =>
            var words := if dims.wrEven == wrMod then dims.wrOdd else MaxPayload(c) / 4;
            var header := Header(true, W32(wrTlp - 1) % 256, words % 2048, wrAddr / 4);
            b := b.(lo := Head(header), hi := Data(slots[rd % 16]));
            b := b.(firstBe := 0xf, lastBe := if wrRem <= 1 then 0 else 0xf);
            if w.one {
              next := (rd + 1) % 32;
              b := b.(keep := if w.last1 then HeadKeep(wrRmd) else 0xff, last := w.last1);
            }
            o := Out(w.one, b);
          case Write =>
            if w.one && w.last1 {
              next := (rd + 1) % 32;
              o := Out(true, b.(lo := Data(slots[rd % 16]), hi := Zero));
            } else if w.two {
              next := (rd + 2) % 32;
              o := Out(true, b.(lo := Data(slots[rd % 16]), hi := Data(slots[(rd + 1) % 16])));
            } else {
              o := o.(valid := false);
            }
            if (w.two && w.last2) || (w.one && w.last1) {
              o := o.(beat := o.beat.(keep := TailKeep(wrRmd), last := w.last2));
            }
          case InitRead =>
            var tag := LowestFree(busy);
            var words := if dims.rdEven == rdMod then dims.rdOdd else MaxTlp(c) / 4;
            var header := Header(false, tag % 256, words % 2048, rdAddr / 4);
            var lastBe := if (rdRem / 2) % 1024 == 0 then 0 else 0xf;
            o := Out(w.free, Beat(Head(header), Zero, 0x0f, true, 0xf, lastBe));
          case _ => o := Out(false, b.(lo := Zero, hi := Zero));
        }
      }
    }

    /** One register pair per tag. Going down, the tags below are still as before the edge. */
    method TagBlock(c: Cfg, i: In, issuing: bool, words: nat)
      requires Valid(c)
      modifies busy, sizes
      ensures busy[..] == NextBusy(old(busy[..]), c.window % 256, issuing, i.completed)
      ensures sizes[..] == NextSizes(old(sizes[..]), old(busy[..]), c.window % 256, issuing, words)
    {
      ghost var b0, s0 := busy[..], sizes[..];
      ghost var b1 := NextBusy(b0, c.window % 256, issuing, i.completed);
      ghost var s1 := NextSizes(s0, b0, c.window % 256, issuing, words);
      var j := busy.Length;
      while j > 0
        invariant 0 <= j <= busy.Length
        invariant forall k :: 0 <= k < j ==> busy[k] == b0[k] && sizes[k] == s0[k]
        invariant forall k :: j <= k < busy.Length ==> busy[k] == b1[k] && sizes[k] == s1[k]
      {
        hide NextBusy, NextSizes;
        j := j - 1;
        var below := AllBusy(j);
        OneTag(b0, s0, c.window % 256, issuing, i.completed, words, j);
        assert below <==> forall k :: 0 <= k < j ==> b0[k];
        if issuing && j < c.window % 256 && !busy[j] && below {
          busy[j], sizes[j] := true, words % 2048;
        } else {
          busy[j] := (busy[j] && !(j < |i.completed| && i.completed[j])) || (j >= 1 && j >= c.window % 256);
        }
      }
    }

    method AllBusy(j: nat) returns (all: bool)
      requires j <= busy.Length
      ensures all <==> forall k :: 0 <= k < j ==> busy[k]
    {
      var n := 0;
      while n < j && busy[n]
        invariant 0 <= n <= j && forall k :: 0 <= k < n ==> busy[k]
      {
        n := n + 1;
      }
      all := n == j;
    }

    /** Write side of the payload buffer: two slots are written, the pointer moves by what is valid. */
    method PushBlock(c: Cfg, i: In, next: nat, ghost pops: nat)
      requires Valid(c) && next == (rd + pops) % 32
      modifies this`rd, this`wr, slots
      ensures Buf(slots[..], rd, wr) == NextBuf(old(State()).buf, pops, i.c2sValid, i.lo, i.hi, i.both)
    {
      if i.c2sValid && (wr - rd) % 32 <= 12 {
        slots[wr % 16] := i.lo;
        slots[(wr + 1) % 16] := i.hi;
        wr := (wr + (if i.both then 2 else 1)) % 32;
      }
      rd := next;
    }

    /** Address generators: reloaded while idle, advanced at the end of a block. */
    method GenBlock(c: Cfg, i: In, w: Wires) returns (g: Gen)
      requires Shows(w)
      ensures g == NextGen(c, State(), i)
    {
      g := gen.(fix := W64(c.addr + c.offset));
      var wrDone := i.ready && ((st == InitWrite && w.one && w.last1)
                                || (st == Write && ((w.one && w.last1) || (w.two && w.last2))));
      if st == Idle {
        var go := i.ready && i.valid && !endR && !w.end;
        g := g.(wrSeq := c.addr, wrNext := W64(c.addr + c.size), wrPage := c.addr / 4096);
        g := g.(rdSeq := c.addr, rdNext := W64(c.addr + c.size), rdPage := c.addr / 4096);
        g := g.(wrRand := W64(c.addr + rand.wrOut), rdRand := W64(c.addr + rand.rdOut));
        if go && c.doesWrite { g := g.(wrSeq := W64(c.addr + c.size), wrNext := W64(c.addr + 2 * c.size)); }
        if go && c.doesRead { g := g.(rdSeq := W64(c.addr + c.size), rdNext := W64(c.addr + 2 * c.size)); }
      } else if i.ready && st == InitRead && w.free && dims.rdEven == rdMod {
        g := g.(rdRand := W64(c.addr + rand.rdOut));
        g := g.(rdSeq := SeqAddr(c, gen.rdNext, gen.rdPage), rdNext := SeqNext(c, gen.rdNext, gen.rdPage));
      } else if wrDone && dims.wrEven == wrMod {
        g := g.(wrRand := W64(c.addr + rand.wrOut));
        g := g.(wrSeq := SeqAddr(c, gen.wrNext, gen.wrPage), wrNext := SeqNext(c, gen.wrNext, gen.wrPage));
      }
    }

    /** The next value of every register outside the tables. */
    method Sample(c: Cfg, i: In) returns (n: Rq, next: nat)
      requires Valid(c)
      ensures n == Next(c, State(), i).(busy := [], sizes := [], buf := Buf([], 0, 0))
      ensures next == (rd + Pops(State(), i)) % 32
    {
      hide NextSt, NextWrTlp, NextWrMod, NextRdTlp, NextRdMod, NextWrRem, NextWrRmd, NextRdRem, NextWrAddr,
           NextRdAddr, NextDims, NextGen, NextRand, NextBusy, NextSizes, NextBuf, NextOut, Pops, RdWords, FreeTag,
           NoTagBusy;
      var w := Sense();
      var st1 := StateBlock(c, i, w);
      var wt, wm, rt, rm := CounterBlock(i, w);
      var wrRem1, wrRmd1, wrAddr1 := WriteBlock(c, i, w);
      var rdRem1, rdAddr1 := ReadBlock(c, i, w);
      var out1, rd1 := OutputBlock(c, i, w);
      var gen1 := GenBlock(c, i, w);
      next := rd1;
      n := Rq(st1, st, if i.valid then w.end || endR else w.end, wt, wm, rt, rm, wrRem1, wrRmd1, rdRem1,
              wrAddr1, rdAddr1,
              NextDims(c, dims), gen1, NextRand(c, rand, gen.wrRand, gen.rdRand), [], [], Buf([], 0, 0), out1);
    }

    method CommitControl(n: Rq)
      modifies this`st, this`pipe, this`endR, this`wrTlp, this`wrMod, this`rdTlp, this`rdMod
      ensures st == n.st && pipe == n.pipe && endR == n.endR
      ensures wrTlp == n.wrTlp && wrMod == n.wrMod && rdTlp == n.rdTlp && rdMod == n.rdMod
    {
      st, pipe, endR := n.st, n.pipe, n.endR;
      wrTlp, wrMod, rdTlp, rdMod := n.wrTlp, n.wrMod, n.rdTlp, n.rdMod;
    }

    method CommitData(n: Rq)
      modifies this`wrRem, this`wrRmd, this`wrAddr, this`rdRem, this`rdAddr, this`dims, this`gen, this`rand, this`out
      ensures wrRem == n.wrRem && wrRmd == n.wrRmd && wrAddr == n.wrAddr && rdRem == n.rdRem && rdAddr == n.rdAddr
      ensures dims == n.d && gen == n.g && rand == n.x && out == n.out
    {
      wrRem, wrRmd, wrAddr := n.wrRem, n.wrRmd, n.wrAddr;
      rdRem, rdAddr := n.rdRem, n.rdAddr;
      dims, gen, rand, out := n.d, n.g, n.x, n.out;
    }

    method Commit(n: Rq)
      modifies this`st, this`pipe, this`endR, this`wrTlp, this`wrMod, this`rdTlp, this`rdMod,
        this`wrRem, this`wrRmd, this`wrAddr, this`rdRem, this`rdAddr, this`dims, this`gen, this`rand, this`out
      ensures st == n.st && pipe == n.pipe && endR == n.endR
      ensures wrTlp == n.wrTlp && wrMod == n.wrMod && rdTlp == n.rdTlp && rdMod == n.rdMod
      ensures wrRem == n.wrRem && wrRmd == n.wrRmd && wrAddr == n.wrAddr && rdRem == n.rdRem && rdAddr == n.rdAddr
      ensures dims == n.d && gen == n.g && rand == n.x && out == n.out
    {
      CommitControl(n);
      CommitData(n);
    }

    /** One rising edge: everything is sampled first, then the tables and registers change. */
    method Tick(c: Cfg, i: In)
      requires Valid(c)
      modifies this, busy, sizes, slots
      ensures Valid(c) && State() == Next(c, old(State()), i)
    {
      hide NextSt, NextWrTlp, NextWrMod, NextRdTlp, NextRdMod, NextWrRem, NextWrRmd, NextRdRem, NextWrAddr,
           NextRdAddr, NextDims, NextGen, NextRand, NextBusy, NextSizes, NextBuf, NextOut, Pops, FreeTag, NoTagBusy;
      ghost var s := State();
      var n, next := Sample(c, i);
      TagBlock(c, i, st == InitRead && i.ready, if dims.rdEven == rdMod then dims.rdOdd else MaxTlp(c) / 4);
      PushBlock(c, i, next, Pops(s, i));
      ghost var b, z, q, r0, w0 := busy[..], sizes[..], slots[..], rd, wr;
      Commit(n);
      assert busy[..] == b && sizes[..] == z && slots[..] == q && rd == r0 && wr == w0;
    }
  }
}
