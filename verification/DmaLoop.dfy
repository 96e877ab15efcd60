/** Requester and completion side of one engine, wired together as dma_logic does it. What the
    requester believes about its tags is compared with the ledger of outstanding reads: the end
    of an operation that reads means that every read has been answered in full. */
module DmaLoop {
  import opened Hw
  import opened RqModel
  import opened RqPlan
  import opened RqRefine
  import opened RqRuns
  import opened RqTotals
  import opened RcModel
  import opened TagLoop
  import opened RqAddress
  import opened RqSafety
  import opened RandomAddr
  import RqSteps

  /** Both state machines, their log and ledger, and the reads issued before this operation. */
  datatype Sys = Sys(s: Rq, l: Log, rc: Rc, led: Ledger, base: nat)

  /** What comes from outside: the stream handshakes, the payload and the completion beat. */
  datatype Outside = Outside(ready: bool, valid: bool, c2sValid: bool, lo: Quad, hi: Quad, both: bool, b: RcIn)

  function LoopOf(y: Sys): Loop { Loop(y.s.busy, y.s.sizes, y.rc, y.led) }

  function RqIn(y: Sys, o: Outside): In {
    In(o.ready, o.valid, o.c2sValid, o.lo, o.hi, o.both, Completed(y.rc))
  }

  function TagIn(c: Cfg, y: Sys, o: Outside): LoopIn {
    LoopIn(o.ready, y.s.st == InitRead && o.ready, RdWords(c, y.s), o.b)
  }

  predicate Wired(c: Cfg, y: Sys) { Shaped(c, y.s) && Sized(LoopOf(y), c.tags) }

  function NextSys(c: Cfg, y: Sys, o: Outside): (z: Sys)
    requires Legal(c) && Wired(c, y)
    ensures Wired(c, z)
  {
    Sys(Next(c, y.s, RqIn(y, o)), Record(c, y.s, RqIn(y, o), y.l),
        NextRc(y.rc, o.b, y.s.busy, y.s.sizes), NextLedger(LoopOf(y), c.window, TagIn(c, y, o)),
        if Start(c, y.s, RqIn(y, o)) then y.led.issued else y.base)
  }

  /** The only demands on the outside: well-behaved completions, and no one-beat completion directly
      after a cycle in which the idle bus shows a tag that is handed out for the first time. */
  predicate OutsideOk(c: Cfg, y: Sys, o: Outside)
    requires Wired(c, y)
  {
    BeatOk(LoopOf(y), o.b) && !Strikes(LoopOf(y), o.b)
  }

  /** Log and ledger count the same reads; no tag is busy at rest; a header still waiting in the
      output register of a finished requester is one the ledger knows to be pending. */
  predicate Linked(c: Cfg, y: Sys) {
    && y.led.issued == y.base + Count(y.l.slots, false)
    && (y.s.st == Idle || !c.doesRead ==> AllFree(y.s, c.window))
    && (y.s.st == WaitRead ==> c.doesRead && (y.s.out.valid ==> y.led.pend.Some?))
  }

  /** No tag of the window is busy. */
  predicate AllFree(s: Rq, window: nat) { forall j :: 0 <= j < window && j < |s.busy| ==> !s.busy[j] }

  predicate SysInv(c: Cfg, y: Sys)
    requires Legal(c)
  {
    Inv(c, y.s, y.l) && Wired(c, y) && LoopInv(LoopOf(y), c.window) && Linked(c, y)
  }

  /** The requester issues exactly when the ledger books a read. */
  lemma SameIssue(c: Cfg, y: Sys, o: Outside)
    requires Legal(c) && Settled(c, y.s)
    ensures RdIssue(y.s, RqIn(y, o)) <==> Issues(LoopOf(y), c.window, TagIn(c, y, o))
  {
    hide Split, Pow2, RdWords, DimsOk;
    assert y.s.d.mask == Mask(c.tags, c.window) by { DimsMask(c, y.s.d); }
    if RdIssue(y.s, RqIn(y, o)) {
      var j :| 0 <= j < |y.s.busy| && j < |y.s.d.mask| && y.s.d.mask[j] && !y.s.busy[j];
      assert j < c.window;
    }
    if Issues(LoopOf(y), c.window, TagIn(c, y, o)) {
      var j :| 0 <= j < |y.s.busy| && j < c.window && !y.s.busy[j];
      assert y.s.d.mask[j];
    }
  }

  lemma DimsMask(c: Cfg, d: Dims)
    requires Legal(c) && DimsOk(c, d)
    ensures d.mask == Mask(c.tags, c.window)
  {
  }

  lemma RequestOk(c: Cfg, y: Sys, o: Outside)
    requires Legal(c) && SysInv(c, y) && OutsideOk(c, y, o)
    ensures EnvOk(LoopOf(y), TagIn(c, y, o))
  {
    hide LoopInv, Split, Pow2, Before, Matched, Streamed, BeatOk, Glitch, RdWords;
    if y.s.st == InitRead { RqSteps.RdFacts(c, y.s, y.l, y.l.blk, y.l.ri); }
  }

  /** Seen by the tag protocol, a step of the system is a step of the loop. */
  lemma Projects(c: Cfg, y: Sys, o: Outside)
    requires Legal(c) && Wired(c, y)
    ensures LoopOf(NextSys(c, y, o)) == NextLoop(LoopOf(y), c.window, TagIn(c, y, o))
  {
    hide NextRand, NextGen, NextDims, NextBuf, NextOut, Split, NextBusy, NextSizes, NextRc, NextLedger, Record,
         RdWords;
  }

  lemma Reading(c: Cfg, y: Sys)
    requires Legal(c) && SysInv(c, y) && y.s.st == InitRead
    ensures c.doesRead
  {
    hide Split, LoopInv, Matched, Streamed;
  }

  lemma CountSnoc(ps: seq<Slot>, p: Slot)
    ensures Count(ps + [p], false) == Count(ps, false) + if p.isWrite then 0 else 1
  {
    assert (ps + [p])[..|ps|] == ps;
  }

  lemma CountStep(c: Cfg, s: Rq, i: In, l: Log)
    requires Legal(c) && Shaped(c, s) && !Start(c, s, i)
    ensures Count(Record(c, s, i, l).slots, false) == Count(l.slots, false) + if RdIssue(s, i) then 1 else 0
  {
    hide Split, FirstFree, FreeTag, Pow2, Count, Popped, Sent, CurTlp, CurRead;
    CountSnoc(l.slots, Slot(true, l.blk, l.wi));
    CountSnoc(l.slots, Slot(false, l.blk, l.ri));
  }

  lemma StartStep(c: Cfg, s: Rq, i: In, l: Log)
    requires Legal(c) && Shaped(c, s) && Start(c, s, i)
    ensures Count(Record(c, s, i, l).slots, false) == 0 && !RdIssue(s, i)
  {
    hide Split;
  }

  /** A read header enters the output register exactly when the ledger notes it as pending. */
  lemma HeaderStep(c: Cfg, y: Sys, o: Outside)
    requires Legal(c) && Wired(c, y) && (y.s.st == InitRead ==> c.doesRead)
    requires y.s.st == WaitRead ==> c.doesRead && (y.s.out.valid ==> y.led.pend.Some?)
    requires RdIssue(y.s, RqIn(y, o)) <==> Issues(LoopOf(y), c.window, TagIn(c, y, o))
    ensures var z := NextSys(c, y, o); z.s.st == WaitRead ==> c.doesRead && (z.s.out.valid ==> z.led.pend.Some?)
  {
    hide NextRand, NextGen, NextDims, NextBusy, NextSizes, NextBuf, NextRc, Split, Pow2, FirstFree, FreeTag,
         NoTagBusy, Record, RdWords, Issues, Start, One, Two, WrHeader, RdHeader, Slot0, Slot1, AfterWrTlp;
    OutStep(c, y.s, RqIn(y, o));
  }

  lemma OutStep(c: Cfg, s: Rq, i: In)
    requires Shaped(c, s)
    ensures NextSt(c, s, i) == WaitRead ==> s.st == WaitRead || (s.st == InitRead && RdIssue(s, i))
    ensures s.st == WaitRead ==> NextOut(c, s, i).valid == (s.out.valid && !i.ready)
  {
    hide FreeTag, NoTagBusy, Pow2;
  }

  /** An idle requester has no busy tag, because the wait ends only when all tags are free. */
  lemma FreeStep(c: Cfg, y: Sys, o: Outside)
    requires Legal(c) && SysInv(c, y)
    ensures var z := NextSys(c, y, o); z.s.st == Idle || !c.doesRead ==> AllFree(z.s, c.window)
  {
    hide NextRand, NextGen, NextDims, NextSizes, NextBuf, NextOut, NextRc, Split, Pow2, FirstFree, FreeTag,
         NoTagBusy, Record, RdWords, LoopInv, Inv, One, Two, EndOp, Finishes, GotNow, NextLedger;
    InvShaped(c, y);
    if y.s.st == InitRead { Reading(c, y); }
    if y.s.st == WaitRead && EndOp(y.s) { EndFrees(c, y); }
    if Next(c, y.s, RqIn(y, o)).st == Idle { BackToIdle(c, y, o); }
  }

  lemma BackToIdle(c: Cfg, y: Sys, o: Outside)
    requires Legal(c) && SysInv(c, y) && Next(c, y.s, RqIn(y, o)).st == Idle
    ensures y.s.st != InitRead && (y.s.st == InitWrite || y.s.st == Write ==> !c.doesRead)
    ensures y.s.st == WaitRead ==> EndOp(y.s)
  {
    hide NextRand, NextGen, NextDims, NextBusy, NextSizes, NextBuf, NextOut, Split, Pow2, FirstFree, LoopInv, Inv,
         NoTagBusy, One, Two;
  }

  lemma LinkStep(c: Cfg, y: Sys, o: Outside)
    requires Legal(c) && SysInv(c, y) && OutsideOk(c, y, o)
    ensures Linked(c, NextSys(c, y, o))
  {
    hide Next, Record, NextRc, Inv, LoopInv, OutsideOk, Issues, RdIssue, Start, Target, Finishes, GotNow, FirstFree,
         Count, Split;
    InvShaped(c, y);
    SameIssue(c, y, o);
    if y.s.st == InitRead { Reading(c, y); }
    if Start(c, y.s, RqIn(y, o)) {
      StartStep(c, y.s, RqIn(y, o), y.l);
    } else {
      CountStep(c, y.s, RqIn(y, o), y.l);
    }
    HeaderStep(c, y, o);
    FreeStep(c, y, o);
  }

  lemma InvShaped(c: Cfg, y: Sys)
    requires Legal(c) && SysInv(c, y)
    ensures Settled(c, y.s)
  {
    hide LoopInv, Split;
  }

  lemma SysStep(c: Cfg, y: Sys, o: Outside)
    requires Legal(c) && SysInv(c, y) && OutsideOk(c, y, o)
    ensures SysInv(c, NextSys(c, y, o))
  {
    hide Inv, LoopInv, Linked, Next, Record, NextLedger, NextRc, OutsideOk, Split, EnvOk;
    InvStep(c, y.s, RqIn(y, o), y.l);
    RequestOk(c, y, o);
    Projects(c, y, o);
    LoopStep(LoopOf(y), c.window, TagIn(c, y, o));
    LinkStep(c, y, o);
  }

  // ---------------------------------------------------------------- runs

  function RunSys(c: Cfg, y: Sys, os: seq<Outside>): (z: Sys)
    requires Legal(c) && Wired(c, y)
    ensures Wired(c, z)
  {
    if os == [] then y else NextSys(c, RunSys(c, y, os[..|os| - 1]), os[|os| - 1])
  }

  predicate RunOk(c: Cfg, y: Sys, os: seq<Outside>)
    requires Legal(c) && Wired(c, y)
  {
    os == [] || (RunOk(c, y, os[..|os| - 1]) && OutsideOk(c, RunSys(c, y, os[..|os| - 1]), os[|os| - 1]))
  }

  /** An engine at rest: no operation in course, no read outstanding, the descriptor settled. */
  predicate AtRest(c: Cfg, y: Sys)
    requires Legal(c)
  {
    && Ready(c, y.s) && Wired(c, y) && LoopInv(LoopOf(y), c.window)
    && y.l == EMPTY && y.base == y.led.issued && AllFree(y.s, c.window)
  }

  function BootSys(c: Cfg): (y: Sys)
    ensures Wired(c, y)
  {
    Sys(Reset(c), EMPTY, Initial(c.tags).rc, Initial(c.tags).led, 0)
  }

  /** No operation is requested and the completion bus is idle. */
  predicate AllIdle(os: seq<Outside>) { forall k :: 0 <= k < |os| ==> !os[k].valid && !os[k].b.valid }

  /** Between operations: the requester idle, its tags and the ledger in agreement, nothing open. */
  predicate Between(c: Cfg, y: Sys) {
    && Wired(c, y) && AtIdle(c, y.s) && LoopInv(LoopOf(y), c.window) && AllFree(y.s, c.window)
  }

  /** The log of the next operation starts afresh. */
  function Fresh(y: Sys): Sys { y.(l := EMPTY, base := y.led.issued) }

  predicate Warmed(c: Cfg, y: Sys, n: nat) {
    && Wired(c, y) && Warming(c, y.s, n) && AtIdle(c, y.s) && LoopInv(LoopOf(y), c.window)
    && y.l == EMPTY && y.base == y.led.issued && AllFree(y.s, c.window)
  }

  lemma IdleStep(c: Cfg, h: nat, y: Sys, o: Outside, n: nat)
    requires Legal(c) && Addressable(c, h) && Warmed(c, y, n) && !o.valid && !o.b.valid
    ensures Warmed(c, NextSys(c, y, o), n + 1)
  {
    hide Next, Record, Split, LoopInv, Warm, Good, DimsOk, RdWords, FirstFree, NextRc, Target, Finishes, GotNow;
    IdleKept(c, y.s, RqIn(y, o));
    WarmingStep(c, h, y.s, RqIn(y, o), n);
    Projects(c, y, o);
    LoopStep(LoopOf(y), c.window, TagIn(c, y, o));
  }

  lemma {:induction false} IdleRun(c: Cfg, h: nat, y: Sys, os: seq<Outside>)
    requires Legal(c) && Addressable(c, h) && Between(c, y) && AllIdle(os)
    ensures Warmed(c, RunSys(c, Fresh(y), os), |os|)
  {
    hide NextSys, LoopInv;
    if os == [] {
      WarmUp(c, h, y.s, []);
    } else {
      hide Warming;
      IdleRun(c, h, y, os[..|os| - 1]);
      IdleStep(c, h, RunSys(c, Fresh(y), os[..|os| - 1]), os[|os| - 1], |os| - 1);
    }
  }

  /** Between any two operations, two idle cycles with the new descriptor (six in random mode) bring the
      engine to rest, whatever the descriptor before was. */
  lemma RestAfterIdle(c: Cfg, h: nat, y: Sys, os: seq<Outside>)
    requires Legal(c) && Addressable(c, h) && Between(c, y) && AllIdle(os) && Enough(c, |os|)
    ensures AtRest(c, RunSys(c, Fresh(y), os))
  {
    hide NextSys, LoopInv, Warming, RunSys;
    IdleRun(c, h, y, os);
    WarmIsReady(c, RunSys(c, Fresh(y), os).s, |os|);
  }

  lemma RestAfterReset(c: Cfg, h: nat, os: seq<Outside>)
    requires Legal(c) && Addressable(c, h) && AllIdle(os) && Enough(c, |os|)
    ensures AtRest(c, RunSys(c, BootSys(c), os))
  {
    hide NextSys, RunSys;
    assert LoopOf(BootSys(c)) == Initial(c.tags);
    RunLoopInv(c.tags, c.window, []);
    assert Fresh(BootSys(c)) == BootSys(c);
    RestAfterIdle(c, h, BootSys(c), os);
  }

  /** With all tags free the window may shrink. */
  lemma WindowShrinks(x: Loop, window: nat, less: nat)
    requires LoopInv(x, window) && 1 <= less <= window && forall j :: 0 <= j < window ==> !x.busy[j]
    ensures LoopInv(x, less)
  {
    hide BookOk;
    NoneLive(x, window);
    forall j | less <= j < |x.busy| ensures DeadOk(x, j) {
      if j < window { assert TagOk(x, j); } else { assert DeadOk(x, j); }
    }
    forall j | 0 <= j < less ensures TagOk(x, j) { assert TagOk(x, j); }
  }

  /** Two operations in a row with different descriptors: when the first one is over and the output
      register empty, enough idle cycles with the second descriptor bring the engine to rest again, so
      that all results on runs apply to the second one as well. */
  lemma NextDescriptor(c: Cfg, y: Sys, os: seq<Outside>, c2: Cfg, h: nat, idle: seq<Outside>)
    requires Legal(c) && AtRest(c, y) && RunOk(c, y, os)
    requires Legal(c2) && Addressable(c2, h) && c2.tags == c.tags && c2.window <= c.window
    requires AllIdle(idle) && Enough(c2, |idle|)
    ensures var z := RunSys(c, y, os);
      AtIdle(c, z.s) ==> AtRest(c2, RunSys(c2, Fresh(z), idle))
  {
    hide NextSys, RunSys, RunOk, Inv, LoopInv, Ready, Split;
    RunSysInv(c, y, os);
    var z := RunSys(c, y, os);
    if AtIdle(c, z.s) {
      WindowShrinks(LoopOf(z), c.window, c2.window);
      NoneLive(LoopOf(z), c.window);
      RestAfterIdle(c2, h, z, idle);
    }
  }

  lemma {:induction false} RunSysInv(c: Cfg, y: Sys, os: seq<Outside>)
    requires Legal(c) && AtRest(c, y) && RunOk(c, y, os)
    ensures SysInv(c, RunSys(c, y, os))
  {
    hide NextSys, OutsideOk, LoopInv, Split;
    if os == [] {
      assert FrameAll([]) == [];
    } else {
      RunSysInv(c, y, os[..|os| - 1]);
      SysStep(c, RunSys(c, y, os[..|os| - 1]), os[|os| - 1]);
    }
  }

  lemma NoneLive(x: Loop, window: nat)
    requires LoopInv(x, window) && forall j :: 0 <= j < window ==> !x.busy[j]
    ensures x.led.live == map[] && x.led.pend == None && x.led.issued == |x.led.retired|
    ensures x.led.fly == None && !x.led.shown
  {
    if x.led.shown { ShownTag(x, window); }
    forall j | 0 <= j < window ensures j !in x.led.live && x.led.pend != Some(j) && x.led.fly != Some(j) {
      assert TagOk(x, j);
    }
    assert x.led.live.Keys == {};
  }

  function Below(n: nat): (r: set<nat>)
    ensures |r| == n && forall j: nat :: j in r <==> j < n
  {
    if n == 0 then {} else Below(n - 1) + {n - 1}
  }

  lemma {:induction false} DistinctFit(r: seq<nat>, s: set<nat>)
    requires forall a :: 0 <= a < |r| ==> r[a] in s
    requires forall a, b :: 0 <= a < b < |r| ==> r[a] != r[b]
    ensures |r| <= |s|
  {
    if |r| > 0 {
      var n := |r| - 1;
      DistinctFit(r[..n], s - {r[n]});
    }
  }

  /** Distinct numbers below their count are all the numbers below it. */
  lemma AllBelow(r: seq<nat>, n: nat, k: nat)
    requires |r| == n && k < n
    requires forall a :: 0 <= a < |r| ==> r[a] < n
    requires forall a, b :: 0 <= a < b < |r| ==> r[a] != r[b]
    ensures k in r
  {
    if k !in r { DistinctFit(r, Below(n) - {k}); }
  }

  /** In every run, when an operation that reads signals its end: all its Total reads were issued,
      every read ever issued has been answered to the last dword exactly once, none is waiting,
      and every beat of the plan has crossed the stream. */
  lemma EndMeansAnswered(c: Cfg, y: Sys, os: seq<Outside>)
    requires Legal(c) && AtRest(c, y) && RunOk(c, y, os)
    ensures var z := RunSys(c, y, os); z.s.st == WaitRead && EndOp(z.s) ==>
      && z.led.issued == z.base + Total(c) == |z.led.retired| && z.led.live == map[]
      && (forall k :: 0 <= k < z.led.issued ==> k in z.led.retired)
      && z.l.slots == Plan(c) && AllWellFormed(z.l.tlps) && z.l.sent == FrameAll(z.l.tlps) && !z.s.out.valid
  {
    hide NextSys, OutsideOk, Split, Pow2, Before, FrameAll, Matches, RunOk, RunSys;
    RunSysInv(c, y, os);
    var z := RunSys(c, y, os);
    if z.s.st == WaitRead && EndOp(z.s) {
      EndFrees(c, z);
      NoneLive(LoopOf(z), c.window);
      PlanCounts(c);
      forall k | 0 <= k < z.led.issued ensures k in z.led.retired { AllBelow(z.led.retired, z.led.issued, k); }
      assert z.l.sent + Pending(z.s.out) == z.l.sent
        && FrameAll(z.l.tlps) + Half(c, z.s, z.l.cur) == FrameAll(z.l.tlps);
    }
  }

  lemma EndFrees(c: Cfg, z: Sys)
    requires Legal(c) && SysInv(c, z) && z.s.st == WaitRead && EndOp(z.s)
    ensures AllFree(z.s, c.window)
  {
    hide LoopInv, Split, Pow2;
    forall j | 0 <= j < c.window ensures !z.s.busy[j] {
      assert z.s.d.mask[j];
    }
  }

  /** The converse: when the last read of a finished requester has been answered, the end is signalled
      in the same cycle or in the next. */
  lemma AnsweredMeansEnd(c: Cfg, y: Sys, os: seq<Outside>, o: Outside)
    requires Legal(c) && AtRest(c, y) && RunOk(c, y, os)
    ensures var z := RunSys(c, y, os);
      z.s.st == WaitRead && z.led.live == map[] ==> EndOp(z.s) || EndOp(NextSys(c, z, o).s)
  {
    hide NextSys, RunSys, RunOk, AtRest, EndOp, Split;
    assert Wired(c, y) by { RestWired(c, y); }
    RunSysInv(c, y, os);
    var z := RunSys(c, y, os);
    if z.s.st == WaitRead && z.led.live == map[] && !EndOp(z.s) { PulsesThenEnd(c, z, o); }
  }

  lemma RestWired(c: Cfg, y: Sys)
    requires Legal(c) && AtRest(c, y)
    ensures Wired(c, y)
  {
  }

  /** Tags that are still busy without an outstanding read are being released in this cycle. */
  lemma PulsesThenEnd(c: Cfg, z: Sys, o: Outside)
    requires Legal(c) && SysInv(c, z) && z.s.st == WaitRead && z.led.live == map[] && !EndOp(z.s)
    ensures EndOp(NextSys(c, z, o).s)
  {
    hide NextRand, NextGen, NextSizes, NextBuf, NextOut, NextRc, Split, Pow2, FirstFree, Record, RdWords, NextLedger,
         Even, Odd, Matched, Streamed;
    var r := Next(c, z.s, RqIn(z, o));
    assert r.st == WaitRead;
    assert r.d.mask == Mask(c.tags, c.window);
    forall j | 0 <= j < c.window ensures !r.busy[j] {
      assert TagOk(LoopOf(z), j);
    }
  }

  /** At every moment of every run the requester has handed out reads with pairwise different
      tags, counts them as the ledger does, and holds the end back while one is outstanding. */
  lemma NoEndWhileOutstanding(c: Cfg, y: Sys, os: seq<Outside>)
    requires Legal(c) && AtRest(c, y) && RunOk(c, y, os)
    ensures var z := RunSys(c, y, os);
      && (forall t :: t in z.led.live ==>
          t < c.window <= |z.s.busy| && z.s.busy[t] && !(z.s.st == WaitRead && EndOp(z.s)))
      && z.base + Count(z.l.slots, false) == |z.led.retired| + |z.led.live|
  {
    hide NextSys, OutsideOk, Split, Pow2, Before, FrameAll, Matches, RunOk, RunSys;
    RunSysInv(c, y, os);
    var z := RunSys(c, y, os);
    forall t | t in z.led.live ensures t < c.window && z.s.busy[t] && !(z.s.st == WaitRead && EndOp(z.s)) {
      assert TagOk(LoopOf(z), t);
      if z.s.st == WaitRead && EndOp(z.s) { EndFrees(c, z); }
    }
  }
}
