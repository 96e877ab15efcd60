/** A driver call from its register writes to the TLPs on the stream: an enabled call with the index
    of the driver's counter makes the requester emit exactly the plan of its order. */
module Calls {
  import opened Hw
  import opened RqModel
  import opened RqPlan
  import opened RqRefine
  import opened RqSafety
  import opened Manager
  import opened Lockstep
  import opened Descriptors
  import opened Driver
  import opened Session
  import opened Operations

  /** What the order of a call asks of the requester. */
  function Wanted(n: Inst, d: Order, phys: nat, window: seq<nat>): Cfg {
    Cfg(n.logPayload, n.logRead, n.tags, d.toHost, d.fromHost, d.mode, phys, d.length, d.bufferSize, d.offset, d.tlps,
        Val(window))
  }

  /** All fields fit their 64-bit registers. */
  predicate Fits64(d: Order, phys: nat) {
    phys < B64 && d.length < B64 && d.bufferSize < B64 && d.offset < B64 && d.tlps < B64
  }

  function Pow256(n: nat): nat { if n == 0 then 1 else 256 * Pow256(n - 1) }

  lemma {:induction false} ValBytes(v: nat, n: nat)
    requires v < Pow256(n)
    ensures Val(Bytes(v, n)) == v
  {
    if n > 0 {
      ValBytes(v / 256, n - 1);
      assert Bytes(v, n)[1..] == Bytes(v / 256, n - 1);
    }
  }

  lemma Val64(v: nat)
    requires v < B64
    ensures Val(Bytes(v, 8)) == v
  {
    assert Pow256(4) == 0x1_0000_0000 by { assert Pow256(2) == 0x1_0000; }
    assert Pow256(8) == B64;
    ValBytes(v, 8);
  }

  // ---------------------------------------------------------------- what the writes leave behind

  /** The configuration registers after write k of a call. */
  lemma ScriptConfig(g: Config, d: Order, phys: nat, m: nat, k: nat)
    requires ConfigOk(g) && OrderOk(d) && k < |Script(d, phys, m)|
    ensures NextConfig(g, Script(d, phys, m)[k]).regs ==
      if k == 0 then g.regs[1 := Bytes(d.bufferSize, 8)] else if k == 1 then g.regs[4 := Bytes(d.tlps, 8)]
      else if k == 2 then g.regs[2 := Bytes(d.offset, 8)] else if k == 3 then g.regs[3 := Bytes(d.incr, 8)] else g.regs
  {
    hide Bytes, Direction, Merge;
    if k == 0 { WholeWord(TABLE + 4, d.bufferSize); }
    if k == 1 { WholeWord(TABLE + 7, d.tlps); }
    if k == 2 { WholeWord(TABLE + 5, d.offset); }
    if k == 3 { WholeWord(TABLE + 6, d.incr); }
  }

  /** The direction bits of the two control writes. */
  lemma DirectionBits(d: Order)
    requires OrderOk(d)
    ensures Bit(Direction(d), 2) == d.toHost && Bit(Direction(d), 3) == d.fromHost && Direction(d) / 16 % 4 == d.mode
    ensures Bit(Direction(d) + 1, 2) == d.toHost && Bit(Direction(d) + 1, 3) == d.fromHost
    ensures (Direction(d) + 1) / 16 % 4 == d.mode
  {
    assert Pow2(2) == 4 && Pow2(3) == 8 by { assert Pow2(1) == 2; }
    hide Pow2;
    var a, b, k := B2N(d.toHost), B2N(d.fromHost), d.mode;
    assert Direction(d) == 4 * a + 8 * b + 16 * k;
  }

  lemma ScriptControl(c: Ctl, d: Order, phys: nat, m: nat, k: nat, end: bool)
    requires OrderOk(d) && k < |Script(d, phys, m)|
    ensures var n := NextCtl(c, Script(d, phys, m)[k], end);
      if k == 6 || k == 8 then n.capW == d.toHost && n.capR == d.fromHost && n.mode == d.mode
      else n.capW == c.capW && n.capR == c.capR && n.mode == c.mode
    ensures k == 8 ==> var b := Script(d, phys, m)[k].din[0];
      Bit(b, 2) == d.toHost && Bit(b, 3) == d.fromHost && b / 16 % 4 == d.mode
  {
    hide Bytes, Bit, Direction;
    ControlBits(d);
    DirectionBits(d);
  }

  /** The settings of a call after k of its writes. */
  predicate Configured(v: Full, f: Full, d: Order, k: nat, n: Inst)
    requires Built(f, n) && Built(v, n)
  {
    var g, m := f.g, f.w.z.m;
    && g.window == g.regs[0] == v.g.regs[0]
    && (k >= 1 ==> g.regs[1] == Bytes(d.bufferSize, 8)) && (k >= 2 ==> g.regs[4] == Bytes(d.tlps, 8))
    && (k >= 3 ==> g.regs[2] == Bytes(d.offset, 8))
    && (k >= 7 ==> m.capW == d.toHost && m.capR == d.fromHost && m.mode == d.mode)
  }

  /** How calm the table is after k writes that are never in adjacent cycles; rest says that the last
      cycle was idle. */
  predicate Calmed(f: Full, k: nat, rest: bool) {
    && (6 <= k <= 8 ==> f.w.calm >= 2 * (k - 6) + B2N(rest))
    && (k == 8 ==> f.held >= 1)
  }

  /** The next write keeps the rules and the settings follow. */
  lemma WriteStep(v: Full, f: Full, d: Order, phys: nat, k: nat, c: Cyc, n: Inst)
    requires Built(v, n) && Built(f, n) && OpInv(f, n) && WireOk(f, c, n) && OrderOk(d)
    requires k < |Script(d, phys, v.w.z.y.calls % SLOTS)| && c.a == Script(d, phys, v.w.z.y.calls % SLOTS)[k]
    requires Underway(v.w, f.w, d, phys, k) && Configured(v, f, d, k, n) && Calmed(f, k, true)
    ensures FullDriverOk(f, c.a)
    ensures var r := NextF(f, c, n);
      Underway(v.w, r.w, d, phys, k + 1) && Configured(v, r, d, k + 1, n) && (k < 8 ==> Calmed(r, k + 1, false))
  {
    hide NextTable, Stored, EndOp, Start, InOp, FetchInv, LockInv, Script, Next, NextStore, NextConfig, NextCtl,
         Record, Legal, Val, Bytes, Working, Emitted, Usable, Enough, Warming, Underway, TableDriverOk, Touches;
    var m := v.w.z.y.calls % SLOTS;
    ScriptStep(v.w, f.w, d, phys, k, c, n.tags);
    ScriptConfig(f.g, d, phys, m, k);
    ScriptControl(f.w.z.m, d, phys, m, k, EndOp(f.w.z.s));
    ScriptTouches(d, phys, m, k);
    NotPolling(v.w, f.w, d, phys, k);
    IsEnable(v.w, f.w, d, phys, k);
    ControlFactsOf(f.w, c, n.tags);
    WindowFollows(f.g, c.a);
  }

  lemma NotPolling(v: DSys, w: DSys, d: Order, phys: nat, k: nat)
    requires d.index < |v.a| && d.index < |v.s| && Underway(v, w, d, phys, k) && k < 9
    ensures w.z.y.phase != Polling
  {
  }

  lemma IsEnable(v: DSys, w: DSys, d: Order, phys: nat, k: nat)
    requires d.index < |v.a| && d.index < |v.s| && Underway(v, w, d, phys, k)
    requires OrderOk(d) && k < |Script(d, phys, v.z.y.calls % SLOTS)|
    ensures Enables(Script(d, phys, v.z.y.calls % SLOTS)[k]) <==> k == 8
  {
    hide Bytes, Script, Enables, DriverOk;
    if k == 8 { SameEnable(d, phys, v.z.y.calls % SLOTS, w.z.y.calls % SLOTS); }
    CallIsDriven(d, phys, w.z, k);
  }

  lemma ControlFactsOf(w: DSys, c: Cyc, tags: nat)
    requires DFormed(w, tags) && CycOk(w.z, c, tags) && LockInv(w.z) && TableDriverOk(w, c.a) && w.z.y.phase != Polling
    ensures !EndOp(w.z.s)
  {
    hide Next, EndOp, Start, InOp, NextCtl, NextStore;
    ControlFacts(w.z, c, tags);
  }

  lemma WindowFollows(g: Config, a: Access)
    requires ConfigOk(g) && AccessOk(a)
    ensures NextConfig(g, a).window == g.regs[0]
  {
  }

  /** An idle cycle of a call. */
  lemma RestStep(v: Full, f: Full, d: Order, phys: nat, k: nat, c: Cyc, n: Inst, rest: bool)
    requires Built(v, n) && Built(f, n) && OpInv(f, n) && WireOk(f, c, n) && OrderOk(d) && !c.a.en && k < 9
    requires Underway(v.w, f.w, d, phys, k) && Configured(v, f, d, k, n) && Calmed(f, k, rest)
    ensures FullDriverOk(f, c.a)
    ensures var r := NextF(f, c, n); Underway(v.w, r.w, d, phys, k) && Configured(v, r, d, k, n) && Calmed(r, k, true)
  {
    hide NextTable, Stored, EndOp, Start, InOp, FetchInv, LockInv, Next, NextStore, Record, Legal, Val, Bytes,
         Working, Emitted, Usable, Enough, Warming, Underway, TableDriverOk, Touches, Bit;
    Session.IdleStep(v.w, f.w, d, phys, k, c, n.tags);
    IdleAccess(c.a);
    NotPolling(v.w, f.w, d, phys, k);
    ControlFactsOf(f.w, c, n.tags);
  }

  // ---------------------------------------------------------------- from the enable to the return

  /** Descriptors that are settled when the operation starts: in random mode the pipeline takes longer
      to fill, and the call has to be slow. */
  predicate Served(c: Cfg, slow: bool) { Usable(c) && (c.mode <= 1 || slow) }

  /** Slow enough to fill the random pipeline: the enable comes nine cycles after the last descriptor
      write and five after the direction was set. */
  predicate Slow(f: Full) { f.w.calm >= 8 && f.held >= 4 }

  /** An enabled call after its last write: its operation has not started, is in course, or is over. */
  predicate Running(v: Full, f: Full, d: Order, phys: nat, slow: bool, n: Inst)
    requires Built(v, n) && Built(f, n) && d.index < SLOTS
  {
    var y, e, want := f.w.z.y, v.w.z.y.ends, Wanted(n, d, phys, v.g.regs[0]);
    && (y.phase == Polling || y.phase == Free) && f.w.mark == e && y.goal == e + 1 && e <= y.ends
    && e % SLOTS == d.index && Configured(v, f, d, 9, n)
    && f.w.a[d.index] == Bytes(phys, 8) && f.w.s[d.index] == Bytes(d.length, 8)
    && (y.ends == e ==> f.w.calm >= 6 && (InOp(f.w.z.s) ==> f.op == want && (Served(want, slow) ==> f.ok)))
    && (y.ends == e && slow ==>
          f.w.calm >= 9 && f.held >= 5 && (f.w.z.m.valid ==> f.w.calm >= 10 && f.held >= 6))
    && (y.ends > e ==>
          |f.done| > 0 && var last := f.done[|f.done| - 1]; last.op == want && (Served(want, slow) ==> last.ok))
  }

  /** Neither a poll nor an idle cycle changes the settings. */
  lemma PollSettings(m: Ctl, g: Config, a: Access, end: bool)
    requires ConfigOk(g) && AccessOk(a) && (!a.en || Polls(a))
    ensures NextConfig(g, a).regs == g.regs && NextConfig(g, a).window == g.regs[0]
    ensures var r := NextCtl(m, a, end); r.capW == m.capW && r.capR == m.capR && r.mode == m.mode
  {
    hide Bit, Merge;
    PollWrites(a);
    assert a.en ==> !(TABLE + 3 <= a.addr <= TABLE + 7);
  }

  /** What the requester sees when the operation starts is what the order asks for. */
  lemma NowIsWanted(v: Full, f: Full, d: Order, phys: nat, slow: bool, n: Inst)
    requires Built(v, n) && Built(f, n) && d.index < SLOTS && Fits64(d, phys) && Running(v, f, d, phys, slow, n)
    requires f.w.q.outA == f.w.a[d.index] && f.w.q.outS == f.w.s[d.index]
    ensures Now(f, n) == Wanted(n, d, phys, v.g.regs[0])
  {
    hide Bytes, Val, InOp, Usable;
    Val64(phys);
    Val64(d.length);
    Val64(d.bufferSize);
    Val64(d.offset);
    Val64(d.tlps);
  }

  /** The operation starts with what was wanted, settled. */
  lemma StartIsServed(v: Full, f: Full, d: Order, phys: nat, slow: bool, c: Cyc, n: Inst)
    requires Built(v, n) && Built(f, n) && OpInv(f, n) && WireOk(f, c, n) && d.index < SLOTS && Fits64(d, phys)
    requires Running(v, f, d, phys, slow, n) && Start(c.c, f.w.z.s, c.i)
    ensures var want := Wanted(n, d, phys, v.g.regs[0]);
      c.c == want && f.w.z.y.ends == v.w.z.y.ends && (Served(want, slow) ==> NextF(f, c, n).ok)
  {
    hide LockInv, Working, Emitted, Usable, InOp, Start, CycOk, NextD, NextConfig, Record, EndOp, Warming, Legal,
         Val, Bytes, Wanted, FetchInv, Configured;
    StartFacts(f.w.z, c, n.tags);
    NoOpAtStart(f.w.z, c, n.tags);
    NotChained(f.w, n.tags);
    ActiveIs(f.w.z);
    NowIsWanted(v, f, d, phys, slow, n);
    WantedMode(n, d, phys, v.g.regs[0]);
  }

  lemma WantedMode(n: Inst, d: Order, phys: nat, window: seq<nat>)
    ensures Wanted(n, d, phys, window).mode == d.mode
  {
  }

  lemma PollStepF(v: Full, f: Full, d: Order, phys: nat, slow: bool, c: Cyc, n: Inst)
    requires Built(v, n) && Built(f, n) && OpInv(f, n) && WireOk(f, c, n) && d.index < SLOTS && Fits64(d, phys)
    requires Running(v, f, d, phys, slow, n) && (!c.a.en || Polls(c.a))
    ensures FullDriverOk(f, c.a) && Running(v, NextF(f, c, n), d, phys, slow, n)
  {
    hide NextTable, Stored, EndOp, Start, InOp, FetchInv, LockInv, Next, NextStore, NextConfig, NextCtl, Record,
         Legal, Val, Bytes, Working, Emitted, Usable, Enough, Warming, TableDriverOk, Touches, Served, Wanted;
    Session.PollStep(f.w, f.w, c, n.tags);
    PollSettings(f.w.z.m, f.g, c.a, EndOp(f.w.z.s));
    PollWrites(c.a);
    ControlOf(f.w, c, n.tags);
    if Start(c.c, f.w.z.s, c.i) { StartIsServed(v, f, d, phys, slow, c, n); }
    if EndOp(f.w.z.s) { EndIsFirst(f, n); }
  }

  /** What starts and ends do, for a poll or an idle cycle. */
  lemma ControlOf(w: DSys, c: Cyc, tags: nat)
    requires DFormed(w, tags) && CycOk(w.z, c, tags) && LockInv(w.z) && TableDriverOk(w, c.a)
    requires !WritesControl(c.a) && !Touches(c.a)
    ensures var r := NextD(w, c, tags); var end := EndOp(w.z.s);
      && r.z.y.ends == w.z.y.ends + B2N(end) && r.calm == (if end then 0 else w.calm + 1) && (end ==> InOp(w.z.s))
      && (InOp(r.z.s) ==> Start(c.c, w.z.s, c.i) || (InOp(w.z.s) && !end))
      && (Start(c.c, w.z.s, c.i) ==> !end)
  {
    hide Next, EndOp, Start, InOp, NextCtl, NextStore, NextTable, Stored, Touches;
    ControlFacts(w.z, c, tags);
  }

  lemma EndIsFirst(f: Full, n: Inst)
    requires Built(f, n) && OpInv(f, n) && EndOp(f.w.z.s) && InOp(f.w.z.s) && f.w.z.y.goal == f.w.mark + 1
    ensures f.w.z.y.ends == f.w.mark
  {
    hide LockInv, FetchInv, Working, Emitted, EndOp, InOp, Settling;
    InOpFacts(f.w.z);
    NotChained(f.w, n.tags);
  }

  // ---------------------------------------------------------------- whole calls

  /** No two accesses in adjacent cycles, as the completer in front of the manager guarantees. */
  predicate Spaced(ks: seq<Cyc>) { forall j :: 0 < j < |ks| ==> !ks[j].a.en || !ks[j - 1].a.en }

  predicate Rested(ks: seq<Cyc>) { ks == [] || !ks[|ks| - 1].a.en }

  predicate WiredF(f: Full, ks: seq<Cyc>, n: Inst)
    requires Built(f, n)
  {
    ks == [] || (WiredF(f, ks[..|ks| - 1], n) && WireOk(RunF(f, ks[..|ks| - 1], n), ks[|ks| - 1], n))
  }

  lemma {:induction false} RunFJoins(f: Full, a: seq<Cyc>, b: seq<Cyc>, n: Inst)
    requires Built(f, n)
    ensures RunF(f, a + b, n) == RunF(RunF(f, a, n), b, n)
    ensures FullDriven(f, a + b, n) <==> FullDriven(f, a, n) && FullDriven(RunF(f, a, n), b, n)
    ensures WiredF(f, a + b, n) <==> WiredF(f, a, n) && WiredF(RunF(f, a, n), b, n)
  {
    hide NextF, WireOk, FullDriverOk;
    if b == [] {
      assert a + b == a;
    } else {
      RunFJoins(f, a, b[..|b| - 1], n);
      assert (a + b)[..|a + b| - 1] == a + b[..|b| - 1];
    }
  }

  /** Between two calls: the window register follows, and no call is underway. */
  predicate Quiet0(f: Full, m: nat, n: Inst)
    requires Built(f, n)
  {
    OpInv(f, n) && f.g.window == f.g.regs[0] && f.w.z.y.phase != Polling && f.w.z.y.calls == m
  }

  /** A call whose operation will be its own. */
  predicate Own(v: Full, x: Call) {
    x.d.enable && v.w.z.y.pending == 0 && x.d.index == v.w.z.y.calls % SLOTS && Fits64(x.d, x.phys)
  }

  /** Where a call from state v stands after k of its writes. */
  predicate Stands(v: Full, f: Full, x: Call, k: nat, rest: bool, slow: bool, n: Inst)
    requires Built(v, n) && Built(f, n) && OrderOk(x.d)
  {
    && OpInv(f, n) && Underway(v.w, f.w, x.d, x.phys, k) && Configured(v, f, x.d, k, n)
    && (k < 9 ==> Calmed(f, k, rest)) && (k == 9 && Own(v, x) ==> Running(v, f, x.d, x.phys, slow, n))
  }

  lemma WriteStands(v: Full, f: Full, x: Call, k: nat, c: Cyc, n: Inst)
    requires Built(v, n) && Built(f, n) && OrderOk(x.d) && Quiet0(v, v.w.z.y.calls, n) && WireOk(f, c, n)
    requires k < |Script(x.d, x.phys, v.w.z.y.calls % SLOTS)| && c.a == Script(x.d, x.phys, v.w.z.y.calls % SLOTS)[k]
    requires Stands(v, f, x, k, true, false, n)
    ensures FullDriverOk(f, c.a) && Stands(v, NextF(f, c, n), x, k + 1, false, Slow(f), n)
  {
    hide OpInv, Underway, Configured, NextF, FullDriverOk, Running, WireOk, Script;
    WriteStep(v, f, x.d, x.phys, k, c, n);
    OpStep(f, c, n);
    IsEnable(v.w, f.w, x.d, x.phys, k);
    if k == 8 && Own(v, x) { EnableRuns(v, f, x, c, n); }
  }

  /** The enable itself. */
  lemma EnableRuns(v: Full, f: Full, x: Call, c: Cyc, n: Inst)
    requires Built(v, n) && Built(f, n) && OrderOk(x.d) && Quiet0(v, v.w.z.y.calls, n) && OpInv(f, n) && WireOk(f, c, n)
    requires Own(v, x) && FullDriverOk(f, c.a) && Enables(c.a) && Calmed(f, 8, true)
    requires Underway(v.w, f.w, x.d, x.phys, 8) && Underway(v.w, NextF(f, c, n).w, x.d, x.phys, 9)
    requires Configured(v, NextF(f, c, n), x.d, 9, n)
    ensures Running(v, NextF(f, c, n), x.d, x.phys, Slow(f), n)
  {
    hide LockInv, FetchInv, Working, Emitted, Settling, NextTable, Stored, NextStore, NextCtl, NextConfig, Next,
         EndOp, Start, InOp, Record, Legal, Val, Bytes, Touches, Served, Wanted, Usable, Enough, Configured,
         FullDriverOk;
    TableOnly(f, c.a);
    BoundaryEnds(v.w.z);
    ControlFacts(f.w.z, c, n.tags);
    EnableCalm(f.w, c.a);
    EnableKeeps(f, c.a, EndOp(f.w.z.s), n);
  }

  lemma EnableKeeps(f: Full, a: Access, end: bool, n: Inst)
    requires Built(f, n) && OpInv(f, n) && AccessOk(a) && FullDriverOk(f, a) && Enables(a)
    ensures SettingsOf(NextCtl(f.w.z.m, a, end), NextConfig(f.g, a)) == SettingsOf(f.w.z.m, f.g)
  {
    hide LockInv, FetchInv, Working, Emitted, Warming, InOp, Usable, Merge, Bit, NextLast, TableDriverOk;
    EnableIsControl(a);
  }

  lemma TableOnly(f: Full, a: Access)
    requires AccessOk(a) && ConfigOk(f.g) && FullDriverOk(f, a)
    ensures TableDriverOk(f.w, a) && DriverOk(f.w.z, a)
  {
  }

  lemma EnableCalm(w: DSys, a: Access)
    requires AccessOk(a) && Enables(a)
    ensures !Touches(a)
  {
  }

  lemma RestStands(v: Full, f: Full, x: Call, k: nat, c: Cyc, n: Inst, rest: bool, slow: bool)
    requires Built(v, n) && Built(f, n) && OrderOk(x.d) && WireOk(f, c, n) && !c.a.en && k <= 9
    requires Stands(v, f, x, k, rest, slow, n)
    ensures FullDriverOk(f, c.a) && Stands(v, NextF(f, c, n), x, k, true, slow, n)
  {
    hide OpInv, Underway, Configured, NextF, FullDriverOk, Running, WireOk;
    if k < 9 {
      RestStep(v, f, x.d, x.phys, k, c, n, rest);
    } else {
      LateRest(v, f, x, c, n);
      if Own(v, x) { PollStepF(v, f, x.d, x.phys, slow, c, n); }
    }
    OpStep(f, c, n);
  }

  lemma LateRest(v: Full, f: Full, x: Call, c: Cyc, n: Inst)
    requires Built(v, n) && Built(f, n) && OrderOk(x.d) && OpInv(f, n) && WireOk(f, c, n) && !c.a.en
    requires Underway(v.w, f.w, x.d, x.phys, 9) && Configured(v, f, x.d, 9, n)
    ensures FullDriverOk(f, c.a)
    ensures Underway(v.w, NextF(f, c, n).w, x.d, x.phys, 9) && Configured(v, NextF(f, c, n), x.d, 9, n)
  {
    hide NextTable, Stored, EndOp, Start, InOp, FetchInv, LockInv, Next, NextStore, NextConfig, NextCtl, Record,
         Legal, Val, Bytes, Working, Emitted, Usable, Enough, Warming, TableDriverOk, Touches, Underway;
    Session.IdleStep(v.w, f.w, x.d, x.phys, 9, c, n.tags);
    PollSettings(f.w.z.m, f.g, c.a, EndOp(f.w.z.s));
    PollWrites(c.a);
  }

  /** The last access of the cycles came late enough. */
  predicate SlowCall(v: Full, ks: seq<Cyc>, n: Inst)
    requires Built(v, n)
  {
    ks != [] && if ks[|ks| - 1].a.en then Slow(RunF(v, ks[..|ks| - 1], n)) else SlowCall(v, ks[..|ks| - 1], n)
  }

  lemma {:induction false} PlayRunF(v: Full, x: Call, ks: seq<Cyc>, k: nat, n: Inst)
    requires Built(v, n) && Quiet0(v, v.w.z.y.calls, n) && OrderOk(x.d)
    requires var script := Script(x.d, x.phys, v.w.z.y.calls % SLOTS); k <= |script| && Plays(ks, script[..k])
    requires WiredF(v, ks, n) && Spaced(ks)
    ensures FullDriven(v, ks, n) && Stands(v, RunF(v, ks, n), x, k, Rested(ks), k == 9 && SlowCall(v, ks, n), n)
  {
    hide NextF, Stands, Script, WireOk, FullDriverOk;
    if ks == [] {
      AtFirst(v, x, n);
    } else {
      var script, pre, c := Script(x.d, x.phys, v.w.z.y.calls % SLOTS), ks[..|ks| - 1], ks[|ks| - 1];
      if !c.a.en && Plays(pre, script[..k]) {
        PlayRunF(v, x, pre, k, n);
        RestStands(v, RunF(v, pre, n), x, k, c, n, Rested(pre), k == 9 && SlowCall(v, pre, n));
      } else {
        assert script[..k][..k - 1] == script[..k - 1] && script[..k][k - 1] == script[k - 1];
        PlayRunF(v, x, pre, k - 1, n);
        LastWrite(v, x, ks, k, n);
      }
    }
  }

  /** The last cycle of the list is write k of the call. */
  lemma LastWrite(v: Full, x: Call, ks: seq<Cyc>, k: nat, n: Inst)
    requires Built(v, n) && Quiet0(v, v.w.z.y.calls, n) && OrderOk(x.d) && ks != [] && WiredF(v, ks, n) && Spaced(ks)
    requires 0 < k <= |Script(x.d, x.phys, v.w.z.y.calls % SLOTS)|
    requires ks[|ks| - 1].a == Script(x.d, x.phys, v.w.z.y.calls % SLOTS)[k - 1]
    requires var pre := ks[..|ks| - 1];
      FullDriven(v, pre, n) && Stands(v, RunF(v, pre, n), x, k - 1, Rested(pre), k - 1 == 9 && SlowCall(v, pre, n), n)
    ensures FullDriven(v, ks, n) && Stands(v, RunF(v, ks, n), x, k, Rested(ks), k == 9 && SlowCall(v, ks, n), n)
  {
    hide NextF, Stands, Script, WireOk, FullDriverOk, Slow;
    var pre, c := ks[..|ks| - 1], ks[|ks| - 1];
    ScriptEnabled(x.d, x.phys, v.w.z.y.calls % SLOTS, k - 1);
    assert Rested(pre) by { if pre != [] { assert ks[|ks| - 2] == pre[|pre| - 1]; } }
    WriteStands(v, RunF(v, pre, n), x, k - 1, c, n);
    if k < 9 { SlowIsLater(v, RunF(v, ks, n), x, k, Slow(RunF(v, pre, n)), n); }
  }

  /** Before the enable it does not matter yet. */
  lemma SlowIsLater(v: Full, f: Full, x: Call, k: nat, slow: bool, n: Inst)
    requires Built(v, n) && Built(f, n) && OrderOk(x.d) && k < 9 && Stands(v, f, x, k, false, slow, n)
    ensures Stands(v, f, x, k, false, false, n)
  {
    hide OpInv, Underway, Configured, Running;
  }

  lemma ScriptEnabled(d: Order, phys: nat, m: nat, k: nat)
    requires OrderOk(d) && k < |Script(d, phys, m)|
    ensures Script(d, phys, m)[k].en
  {
    hide Bytes, Direction;
  }

  lemma AtFirst(v: Full, x: Call, n: Inst)
    requires Built(v, n) && Quiet0(v, v.w.z.y.calls, n) && OrderOk(x.d)
    ensures Stands(v, v, x, 0, true, false, n)
  {
    hide OpInv, Running;
  }

  /** An enabled call while it polls. */
  predicate Polled(v: Full, f: Full, x: Call, slow: bool, n: Inst)
    requires Built(v, n) && Built(f, n) && OrderOk(x.d)
  {
    var y := f.w.z.y;
    && OpInv(f, n) && Configured(v, f, x.d, 9, n) && (y.phase == Polling || y.phase == Free)
    && y.calls == v.w.z.y.calls + 1 && y.pending == 0 && (Own(v, x) ==> Running(v, f, x.d, x.phys, slow, n))
  }

  lemma PolledStep(v: Full, f: Full, x: Call, slow: bool, c: Cyc, n: Inst)
    requires Built(v, n) && Built(f, n) && OrderOk(x.d) && Polled(v, f, x, slow, n) && WireOk(f, c, n)
    requires !c.a.en || Polls(c.a)
    ensures FullDriverOk(f, c.a) && Polled(v, NextF(f, c, n), x, slow, n)
  {
    hide NextTable, Stored, EndOp, Start, InOp, FetchInv, LockInv, Next, NextStore, NextConfig, NextCtl, Record,
         Legal, Val, Bytes, Working, Settling, Emitted, Usable, Enough, Warming, TableDriverOk, Touches, Running;
    Session.PollStep(f.w, f.w, c, n.tags);
    PollSettings(f.w.z.m, f.g, c.a, EndOp(f.w.z.s));
    PollWrites(c.a);
    if Own(v, x) { PollStepF(v, f, x.d, x.phys, slow, c, n); }
    OpStep(f, c, n);
  }

  lemma {:induction false} PollRunF(v: Full, f: Full, x: Call, slow: bool, ks: seq<Cyc>, n: Inst)
    requires Built(v, n) && Built(f, n) && OrderOk(x.d) && Polled(v, f, x, slow, n) && OnlyPolls(ks) && WiredF(f, ks, n)
    ensures FullDriven(f, ks, n) && Polled(v, RunF(f, ks, n), x, slow, n)
  {
    hide NextF, Polled, WireOk, FullDriverOk;
    if ks != [] {
      PollRunF(v, f, x, slow, ks[..|ks| - 1], n);
      PolledStep(v, RunF(f, ks[..|ks| - 1], n), x, slow, ks[|ks| - 1], n);
    }
  }

  /** One call of the driver from state f with its counter at m. */
  predicate CallOkF(f: Full, x: Call, m: nat, n: Inst)
    requires Built(f, n)
  {
    && OrderOk(x.d) && Plays(x.writes, Script(x.d, x.phys, m)) && Spaced(x.writes) && OnlyPolls(x.polls)
    && WiredF(f, x.writes + x.polls, n)
    && (if x.d.enable then RunF(f, x.writes + x.polls, n).w.z.y.phase == Free else x.polls == [])
  }

  /** A call from start to return: when it enables alone and for its own slot, the operation that has
      ended last is the one its order asks for. */
  lemma CallRunF(f: Full, x: Call, m: nat, n: Inst)
    requires Built(f, n) && Quiet0(f, m, n) && CallOkF(f, x, m % SLOTS, n)
    ensures var r := RunF(f, x.writes + x.polls, n);
      && FullDriven(f, x.writes + x.polls, n) && Quiet0(r, m + 1, n) && r.g.regs[0] == f.g.regs[0]
      && (if x.d.enable then r.w.z.y.pending == 0 else r.w.z.y.pending > 0)
      && (Own(f, x) ==>
            |r.done| > 0 && var last, want := r.done[|r.done| - 1], Wanted(n, x.d, x.phys, f.g.regs[0]);
            last.op == want && (Served(want, SlowCall(f, x.writes, n)) ==> last.ok))
  {
    hide NextF, OpInv, Script, WireOk, FullDriven, RunF, WiredF, Plays, Wanted, Served, FullDriverOk;
    var script := Script(x.d, x.phys, m % SLOTS);
    assert script[..|script|] == script;
    RunFJoins(f, x.writes, x.polls, n);
    PlayRunF(f, x, x.writes, |script|, n);
    var u := RunF(f, x.writes, n);
    if x.d.enable {
      var slow := SlowCall(f, x.writes, n);
      PollRunF(f, u, x, slow, x.polls, n);
      if Own(f, x) { AllEnded(f, RunF(u, x.polls, n), x, slow, n); }
    } else {
      assert x.writes + x.polls == x.writes;
    }
  }

  lemma AllEnded(v: Full, f: Full, x: Call, slow: bool, n: Inst)
    requires Built(v, n) && Built(f, n) && OrderOk(x.d) && OpInv(f, n)
    requires Running(v, f, x.d, x.phys, slow, n) && f.w.z.y.phase == Free
    ensures f.w.z.y.ends > v.w.z.y.ends
  {
    hide FetchInv, Working, Settling, Emitted, LockInv, InOp, Served, Wanted, Configured;
    BetweenCalls(f.w.z);
  }

  // ---------------------------------------------------------------- sessions

  function AfterF(n: Inst, window: seq<nat>, xs: seq<Call>): (f: Full)
    requires |window| == 8
    ensures Built(f, n)
  {
    RunF(BootF(n, window), Cycles(xs), n)
  }

  predicate SessionF(n: Inst, window: seq<nat>, xs: seq<Call>)
    requires |window| == 8
  {
    xs == [] || (SessionF(n, window, xs[..|xs| - 1])
                 && CallOkF(AfterF(n, window, xs[..|xs| - 1]), xs[|xs| - 1], Counter(|xs| - 1), n))
  }

  lemma {:induction false} SessionRunF(n: Inst, window: seq<nat>, xs: seq<Call>)
    requires |window| == 8 && SessionF(n, window, xs)
    ensures FullDriven(BootF(n, window), Cycles(xs), n) && Quiet0(AfterF(n, window, xs), |xs|, n)
    ensures var f := AfterF(n, window, xs);
      && f.g.regs[0] == window
      && (f.w.z.y.pending == 0 <==> xs == [] || xs[|xs| - 1].d.enable)
  {
    hide NextF, OpInv, CallOkF, Wanted, Served;
    if xs == [] {
      BootInv(n, window);
    } else {
      var pre, x := xs[..|xs| - 1], xs[|xs| - 1];
      SessionRunF(n, window, pre);
      CounterIs(|xs| - 1);
      CallRunF(AfterF(n, window, pre), x, |xs| - 1, n);
      RunFJoins(BootF(n, window), Cycles(pre), x.writes + x.polls, n);
    }
  }

  /** From the order to the stream: in every session, a call that enables after one that did, with the
      index of the driver's counter and an order the requester can serve, has at its return emitted
      exactly the plan of its order, with every TLP in its place and the stream made of their frames.
      In random mode the enable has to come nine cycles after the size and five after the direction. */
  lemma CallEmitsPlan(n: Inst, window: seq<nat>, xs: seq<Call>, x: Call)
    requires |window| == 8 && SessionF(n, window, xs + [x]) && (xs != [] ==> xs[|xs| - 1].d.enable)
    requires x.d.enable && x.d.index == Counter(|xs|) && Fits64(x.d, x.phys)
    requires Served(Wanted(n, x.d, x.phys, window), SlowCall(AfterF(n, window, xs), x.writes, n))
    ensures var f := AfterF(n, window, xs + [x]);
      && |f.done| == f.w.z.y.ends > 0
      && var last := f.done[|f.done| - 1]; last.op == Wanted(n, x.d, x.phys, window) && Emitted(last)
  {
    hide NextF, OpInv, CallOkF, Wanted, Served, Emitted, RunF, FullDriven, WiredF;
    assert (xs + [x])[..|xs|] == xs;
    SessionRunF(n, window, xs);
    SessionRunF(n, window, xs + [x]);
    CounterIs(|xs|);
    var v := AfterF(n, window, xs);
    CallRunF(v, x, |xs|, n);
    assert Cycles(xs + [x]) == Cycles(xs) + (x.writes + x.polls);
    RunFJoins(BootF(n, window), Cycles(xs), x.writes + x.polls, n);
    DoneEmitted(AfterF(n, window, xs + [x]), n);
  }

  lemma DoneEmitted(f: Full, n: Inst)
    requires Built(f, n) && OpInv(f, n)
    ensures |f.done| == f.w.z.y.ends && forall j :: 0 <= j < |f.done| && f.done[j].ok ==> Emitted(f.done[j])
  {
    hide LockInv, FetchInv, Settling, Working, Emitted;
  }
}
