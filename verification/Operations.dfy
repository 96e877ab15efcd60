/** The requester fed by the manager: the descriptor it sees in a cycle is what the descriptor
    memories, the configuration registers and the control register hold. An operation that starts
    with a settled descriptor emits exactly the plan of that descriptor. */
module Operations {
  import opened Hw
  import opened RqModel
  import opened RqPlan
  import opened RqRefine
  import opened RqRuns
  import opened RandomAddr
  import opened RqAddress
  import opened RqSafety
  import opened Manager
  import opened Lockstep
  import opened Descriptors

  /** Parameters of the instance. */
  datatype Inst = Inst(logPayload: nat, logRead: nat, tags: nat)

  function CfgOf(n: Inst, m: Ctl, q: Table, g: Config): Cfg
    requires ConfigOk(g)
  {
    Cfg(n.logPayload, n.logRead, n.tags, m.capW, m.capR, m.mode,
        Val(q.outA), Val(q.outS), Val(g.regs[1]), Val(g.regs[2]), Val(g.regs[4]), Val(g.window))
  }

  /** An operation that has ended: its descriptor, whether it started settled and as the first of its
      enable, its log, and the output register in the cycle of the end. */
  datatype Done = Done(op: Cfg, ok: bool, l: Log, out: Out)

  /** Descriptor system, configuration, idle cycles since the descriptor last changed, cycles since
      the settings last changed, and the operation in course. */
  datatype Full = Full(w: DSys, g: Config, same: nat, held: nat, l: Log, op: Cfg, ok: bool, done: seq<Done>)

  predicate Built(f: Full, n: Inst) { DFormed(f.w, n.tags) && ConfigOk(f.g) }

  function Now(f: Full, n: Inst): Cfg
    requires Built(f, n)
  {
    CfgOf(n, f.w.z.m, f.w.q, f.g)
  }

  /** The inputs of a cycle are what the wires carry. */
  predicate WireOk(f: Full, k: Cyc, n: Inst)
    requires Built(f, n)
  {
    CycOk(f.w.z, k, n.tags) && k.c == Now(f, n)
  }

  /** The part of the descriptor that the host sets directly. */
  datatype Settings = Settings(capW: bool, capR: bool, mode: nat, regs: seq<seq<nat>>, window: seq<nat>)

  function SettingsOf(m: Ctl, g: Config): Settings { Settings(m.capW, m.capR, m.mode, g.regs, g.window) }

  function NextF(f: Full, k: Cyc, n: Inst): (r: Full)
    requires Built(f, n) && WireOk(f, k, n)
    ensures Built(r, n)
  {
    var s := f.w.z.s;
    var w, g, start := NextD(f.w, k, n.tags), NextConfig(f.g, k.a), Start(k.c, s, k.i);
    Full(w, g,
         if s.st == Idle && !start && CfgOf(n, w.z.m, w.q, g) == k.c then f.same + 1 else 0,
         if SettingsOf(w.z.m, g) == SettingsOf(f.w.z.m, f.g) then f.held + 1 else 0,
         if Legal(k.c) then Record(k.c, s, k.i, f.l) else f.l,
         if start then k.c else f.op,
         if start then Usable(k.c) && Enough(k.c, f.same) && !Chained(f.w) else f.ok,
         if EndOp(s) then f.done + [Done(f.op, f.ok, f.l, s.out)] else f.done)
  }

  /** A descriptor the requester can serve. */
  predicate Usable(c: Cfg) { Legal(c) && (c.mode >= 2 ==> IsRandLegal(c)) }

  predicate IsRandLegal(c: Cfg) { exists h :: 0 <= h <= 63 && RandLegal(c, h) }

  /** Besides the rules for the table: settings are left alone while the engine works, and the enable
      repeats the direction that was set at least one cycle before. */
  predicate FullDriverOk(f: Full, a: Access)
    requires AccessOk(a) && ConfigOk(f.g)
  {
    && TableDriverOk(f.w, a)
    && (f.w.z.y.phase == Polling ==> NextConfig(f.g, a).regs == f.g.regs)
    && (Enables(a) ==>
          && f.held >= 1 && NextConfig(f.g, a).regs == f.g.regs
          && Bit(a.din[0], 2) == f.w.z.m.capW && Bit(a.din[0], 3) == f.w.z.m.capR && a.din[0] / 16 % 4 == f.w.z.m.mode)
  }

  // ---------------------------------------------------------------- invariant

  /** A finished operation that started well has handed out its whole plan. */
  predicate Emitted(d: Done) {
    && Usable(d.op) && d.l.slots == Plan(d.op) && AllWellFormed(d.l.tlps)
    && (forall j :: 0 <= j < |d.l.tlps| && j < |d.l.slots| ==>
          Matches(d.op, d.l.wrBases, d.l.rdBases, d.l.slots[j], d.l.tlps[j]))
    && |d.l.tlps| == |d.l.slots| && BasesOk(d.op, d.l.wrBases) && BasesOk(d.op, d.l.rdBases)
    && d.l.sent + Pending(d.out) == FrameAll(d.l.tlps)
  }

  predicate Settling(f: Full, n: Inst)
    requires Built(f, n)
  {
    var z := f.w.z;
    && (z.s.st == Idle && Usable(Now(f, n)) ==> Warming(Now(f, n), z.s, f.same))
    && (!InOp(z.s) ==> f.same >= Min(f.held, f.w.calm - 4))
    && (z.y.phase == Polling && z.y.ends == f.w.mark ==> f.held >= 2 && (z.m.valid ==> f.held >= 3))
    && (f.held >= 1 ==> f.g.window == f.g.regs[0])
  }

  predicate Working(f: Full, n: Inst)
    requires Built(f, n)
  {
    InOp(f.w.z.s) && !Chained(f.w) ==>
      && Now(f, n) == f.op
      && (f.ok ==> Usable(f.op) && Inv(f.op, f.w.z.s, f.l) && GenOk(f.op, f.w.z.s, f.l))
  }

  predicate OpInv(f: Full, n: Inst)
    requires Built(f, n)
  {
    && LockInv(f.w.z) && FetchInv(f.w, n.tags) && Settling(f, n) && Working(f, n)
    && (InOp(f.w.z.s) && Chained(f.w) ==> !f.ok)
    && (forall j :: 0 <= j < |f.done| && f.done[j].ok ==> Emitted(f.done[j]))
    && |f.done| == f.w.z.y.ends
  }

  // ---------------------------------------------------------------- one cycle

  /** While the first operation of an enable can run, nothing changes what the requester sees. */
  lemma Steady(f: Full, k: Cyc, n: Inst)
    requires Built(f, n) && WireOk(f, k, n) && FullDriverOk(f, k.a) && LockInv(f.w.z) && FetchInv(f.w, n.tags)
    requires f.w.z.y.phase == Polling && !Chained(f.w) && f.w.z.m.valid && !EndOp(f.w.z.s) && f.held >= 1
    requires f.g.window == f.g.regs[0]
    ensures var r := NextF(f, k, n); Now(r, n) == k.c && SettingsOf(r.w.z.m, r.g) == SettingsOf(f.w.z.m, f.g)
  {
    hide LockInv, NextStore, Next, EndOp, Start, Record, Legal, Usable, Bit, Stored, Touches, Val;
    PollKeepsControl(f.w, k.a);
    OutsKept(f.w, k, n.tags);
  }

  lemma PollKeepsControl(w: DSys, a: Access)
    requires AccessOk(a) && TableDriverOk(w, a) && w.z.y.phase == Polling
    ensures !WritesControl(a) && !Touches(a) && !Enables(a)
  {
    hide Bit, Touches;
  }

  /** With all stages filled the outputs stay as they are. */
  lemma OutsKept(w: DSys, k: Cyc, tags: nat)
    requires DFormed(w, tags) && CycOk(w.z, k, tags) && FetchInv(w, tags) && !Touches(k.a)
    requires Lead(w) >= 3
    ensures var q := NextTable(w.q, k.a, w.z.update, w.z.m.active); q.outA == w.q.outA && q.outS == w.q.outS
  {
    hide Stale, Due, InOp, NextPut, Filed;
  }

  lemma WarmingHolds(f: Full, k: Cyc, n: Inst)
    requires Built(f, n) && WireOk(f, k, n) && Settling(f, n)
    ensures var r := NextF(f, k, n); r.w.z.s.st == Idle && Usable(Now(r, n)) ==> Warming(Now(r, n), r.w.z.s, r.same)
  {
    hide NextTable, NextCtl, NextConfig, NextStore, Stored, Record, Next, Legal, Warm, Good, DimsOk, Val, RandLegal,
         Start, EndOp;
    var r, s, c := NextF(f, k, n), f.w.z.s, k.c;
    if r.w.z.s.st == Idle && Usable(Now(r, n)) {
      if s.st == Idle && !Start(c, s, k.i) && Now(r, n) == c {
        var h := RandExponent(c);
        WarmingStep(c, h, s, k.i, f.same);
      } else {
        ColdStart(Now(r, n), r.w.z.s);
      }
    }
  }

  lemma RandExponent(c: Cfg) returns (h: nat)
    requires Usable(c)
    ensures Addressable(c, h)
  {
    if c.mode >= 2 { h :| 0 <= h <= 63 && RandLegal(c, h); } else { h := 0; }
  }

  lemma ColdStart(c: Cfg, s: Rq)
    requires Shaped(c, s) && s.st == Idle
    ensures Warming(c, s, 0)
  {
  }

  /** The descriptor has been stable for as long as both of its parts have. */
  lemma SameHolds(f: Full, k: Cyc, n: Inst)
    requires Built(f, n) && WireOk(f, k, n) && FullDriverOk(f, k.a) && OpInv(f, n)
    ensures var r := NextF(f, k, n); !InOp(r.w.z.s) ==> r.same >= Min(r.held, r.w.calm - 4)
  {
    hide NextTable, NextCtl, NextConfig, NextStore, Stored, Record, Next, Legal, Val, Start, EndOp, InOp, Touches,
         Warming, Working, Emitted, Usable, Enough, LockInv, FetchInv;
    var r := NextF(f, k, n);
    ControlFacts(f.w.z, k, n.tags);
    if !InOp(r.w.z.s) && r.held >= 1 && r.w.calm >= 5 {
      NotStarting(f.w.z, k, n.tags);
      LeadFull(f.w, n.tags);
      OutsKept(f.w, k, n.tags);
    }
  }

  lemma NotStarting(z: Sys, k: Cyc, tags: nat)
    requires Formed(z, tags) && CycOk(z, k, tags) && !InOp(Next(k.c, z.s, k.i)) && !EndOp(z.s)
    ensures z.s.st == Idle && !Start(k.c, z.s, k.i) && !InOp(z.s)
  {
    hide Next, Start, EndOp;
    Bracket(k.c, z.s, k.i);
  }

  lemma LeadFull(w: DSys, tags: nat)
    requires DFormed(w, tags) && FetchInv(w, tags) && w.calm >= 4
    ensures Lead(w) >= 3
  {
  }

  /** The settings stay as they are from the enable on. */
  lemma HeldHolds(f: Full, k: Cyc, n: Inst)
    requires Built(f, n) && WireOk(f, k, n) && FullDriverOk(f, k.a) && OpInv(f, n)
    ensures var r := NextF(f, k, n); var z := r.w.z;
      && (z.y.phase == Polling && z.y.ends == r.w.mark ==> r.held >= 2 && (z.m.valid ==> r.held >= 3))
      && (r.held >= 1 ==> r.g.window == r.g.regs[0])
  {
    hide NextTable, NextStore, Stored, Record, Next, Legal, Val, Start, EndOp, InOp, Touches, Warming, Working,
         Emitted, Usable, Enough, LockInv, FetchInv, Bit, Merge, NextLast;
    var r := NextF(f, k, n);
    ControlFacts(f.w.z, k, n.tags);
    if r.w.z.y.phase == Polling && r.w.z.y.ends == r.w.mark {
      if Enables(k.a) {
        EnableIsControl(k.a);
      } else {
        PollKeepsControl(f.w, k.a);
        MarkKept(f.w, n.tags);
      }
    }
  }

  lemma EnableIsControl(a: Access)
    requires AccessOk(a) && Enables(a)
    ensures WritesControl(a)
  {
  }

  /** The start of an operation: the invariants of the requester hold if the descriptor is settled. */
  lemma StartWorks(f: Full, k: Cyc, n: Inst)
    requires Built(f, n) && WireOk(f, k, n) && FullDriverOk(f, k.a) && OpInv(f, n) && Start(k.c, f.w.z.s, k.i)
    ensures Working(NextF(f, k, n), n) && (Chained(NextF(f, k, n).w) ==> !NextF(f, k, n).ok)
  {
    hide NextTable, NextCtl, NextConfig, NextStore, Stored, Record, Next, Legal, Val, Start, EndOp, InOp, Touches,
         Warming, Emitted, Enough, LockInv, FetchInv, Inv, GenOk, RandLegal;
    var r := NextF(f, k, n);
    ControlFacts(f.w.z, k, n.tags);
    StartFacts(f.w.z, k, n.tags);
    IsIdle(f.w.z, k, n.tags);
    PollKeepsControl(f.w, k.a);
    MarkKept(f.w, n.tags);
    TableStep(f.w, k, n.tags);
    Bracket(k.c, f.w.z.s, k.i);
    InOpFacts(r.w.z);
    if !Chained(f.w) {
      Steady(f, k, n);
      if r.ok {
        var h := RandExponent(k.c);
        WarmIsSettled(k.c, f.w.z.s, f.same);
        StartEstablishes(k.c, h, f.w.z.s, k.i, f.l);
      }
    }
  }

  lemma IsIdle(z: Sys, k: Cyc, tags: nat)
    requires Formed(z, tags) && CycOk(z, k, tags) && Start(k.c, z.s, k.i)
    ensures z.s.st == Idle && !EndOp(z.s)
  {
  }

  /** A cycle inside an operation. */
  lemma WorkGoesOn(f: Full, k: Cyc, n: Inst)
    requires Built(f, n) && WireOk(f, k, n) && FullDriverOk(f, k.a) && OpInv(f, n)
    requires InOp(f.w.z.s) && !EndOp(f.w.z.s) && !Start(k.c, f.w.z.s, k.i)
    ensures Working(NextF(f, k, n), n) && (Chained(NextF(f, k, n).w) ==> !NextF(f, k, n).ok)
  {
    hide NextTable, NextCtl, NextConfig, NextStore, Stored, Record, Next, Legal, Val, Start, EndOp, InOp, Touches,
         Warming, Emitted, Enough, LockInv, FetchInv, Inv, GenOk, RandLegal;
    var r := NextF(f, k, n);
    ControlFacts(f.w.z, k, n.tags);
    InOpFacts(f.w.z);
    PollKeepsControl(f.w, k.a);
    MarkKept(f.w, n.tags);
    if !Chained(f.w) {
      Steady(f, k, n);
      if f.ok {
        var h := RandExponent(k.c);
        InvStep(k.c, f.w.z.s, k.i, f.l);
        GenStep(k.c, h, f.w.z.s, k.i, f.l);
      }
    }
  }

  /** The end of an operation that started well: the plan is complete. */
  lemma EndEmits(op: Cfg, s: Rq, l: Log)
    requires Usable(op) && Inv(op, s, l) && GenOk(op, s, l) && EndOp(s)
    ensures Emitted(Done(op, true, l, s.out))
  {
    hide Matches, FrameAll, Split, Legal, RandLegal, DimsOk, Cursor, WellFormed, BasesOk;
    assert Half(op, s, l.cur) == [];
    assert FrameAll(l.tlps) + [] == FrameAll(l.tlps);
  }

  lemma OpStep(f: Full, k: Cyc, n: Inst)
    requires Built(f, n) && WireOk(f, k, n) && FullDriverOk(f, k.a) && OpInv(f, n)
    ensures OpInv(NextF(f, k, n), n)
  {
    hide NextD, NextConfig, Record, Legal, Val, Start, EndOp, InOp, Warming, Emitted, Enough, LockInv, FetchInv, Inv,
         GenOk, TableDriverOk, CycOk;
    var r := NextF(f, k, n);
    TableStep(f.w, k, n.tags);
    WarmingHolds(f, k, n);
    SameHolds(f, k, n);
    HeldHolds(f, k, n);
    OpCases(f, k, n);
  }

  lemma OpCases(f: Full, k: Cyc, n: Inst)
    requires Built(f, n) && WireOk(f, k, n) && FullDriverOk(f, k.a) && OpInv(f, n)
    ensures var r := NextF(f, k, n);
      && Working(r, n) && (InOp(r.w.z.s) && Chained(r.w) ==> !r.ok) && |r.done| == r.w.z.y.ends
      && (forall j :: 0 <= j < |r.done| && r.done[j].ok ==> Emitted(r.done[j]))
  {
    hide NextTable, NextCtl, NextConfig, NextStore, Stored, Record, Next, Legal, Val, Start, EndOp, InOp, Touches,
         Warming, Emitted, Enough, LockInv, FetchInv, Inv, GenOk, RandLegal, Settling;
    var s := f.w.z.s;
    ControlFacts(f.w.z, k, n.tags);
    Bracket(k.c, s, k.i);
    if Start(k.c, s, k.i) {
      IsIdle(f.w.z, k, n.tags);
      StartWorks(f, k, n);
    } else if EndOp(s) {
      InOpFacts(f.w.z);
      if f.ok { EndEmits(f.op, s, f.l); }
    } else if InOp(s) {
      WorkGoesOn(f, k, n);
    }
  }

  // ---------------------------------------------------------------- runs

  function RunF(f: Full, ks: seq<Cyc>, n: Inst): (r: Full)
    requires Built(f, n)
    ensures Built(r, n)
  {
    if ks == [] then f
    else
      var v := RunF(f, ks[..|ks| - 1], n);
      if WireOk(v, ks[|ks| - 1], n) then NextF(v, ks[|ks| - 1], n) else v
  }

  predicate FullDriven(f: Full, ks: seq<Cyc>, n: Inst)
    requires Built(f, n)
  {
    ks == [] || (&& FullDriven(f, ks[..|ks| - 1], n)
                 && WireOk(RunF(f, ks[..|ks| - 1], n), ks[|ks| - 1], n)
                 && FullDriverOk(RunF(f, ks[..|ks| - 1], n), ks[|ks| - 1].a))
  }

  /** After reset, with the window at its default. */
  function BootF(n: Inst, window: seq<nat>): (f: Full)
    requires |window| == 8
    ensures Built(f, n)
  {
    var zero := seq(8, k => 0);
    var c := Cfg(n.logPayload, n.logRead, n.tags, false, true, 0, 0, 0, 0, 0, 0, 0);
    Full(BootD(c), Config([window, zero, zero, zero, zero], window), 0, 0, EMPTY, c, false, [])
  }

  lemma BootInv(n: Inst, window: seq<nat>)
    requires |window| == 8
    ensures OpInv(BootF(n, window), n)
  {
    var c := Cfg(n.logPayload, n.logRead, n.tags, false, true, 0, 0, 0, 0, 0, 0, 0);
    BootOk(c);
    BootFetched(c);
    hide LockInv, FetchInv;
  }

  lemma {:induction false} RunOp(f: Full, ks: seq<Cyc>, n: Inst)
    requires Built(f, n) && OpInv(f, n) && FullDriven(f, ks, n)
    ensures OpInv(RunF(f, ks, n), n)
  {
    hide NextF, OpInv, WireOk, FullDriverOk;
    if ks != [] {
      RunOp(f, ks[..|ks| - 1], n);
      OpStep(RunF(f, ks[..|ks| - 1], n), ks[|ks| - 1], n);
    }
  }

  /** In every driven run each operation that was the first of its enable and started with a usable and
      settled descriptor has emitted exactly the plan of that descriptor when it ends: every TLP in its
      place with its length, address and tag, the blocks where the address mode puts them, and the
      stream made of their frames. */
  lemma OperationsEmitPlans(n: Inst, window: seq<nat>, ks: seq<Cyc>)
    requires |window| == 8 && FullDriven(BootF(n, window), ks, n)
    ensures var f := RunF(BootF(n, window), ks, n);
      |f.done| == f.w.z.y.ends && forall j :: 0 <= j < |f.done| && f.done[j].ok ==> Emitted(f.done[j])
  {
    hide LockInv, FetchInv, Settling, Working, Emitted, RunF, FullDriven, BootF;
    BootInv(n, window);
    RunOp(BootF(n, window), ks, n);
  }

  /** How long the descriptor has been stable when an operation starts: as long as the settings have,
      and since the fourth cycle after the last descriptor write. */
  lemma StableAtStart(n: Inst, window: seq<nat>, ks: seq<Cyc>, k: Cyc)
    requires |window| == 8 && FullDriven(BootF(n, window), ks, n)
    ensures var f := RunF(BootF(n, window), ks, n);
      WireOk(f, k, n) && Start(k.c, f.w.z.s, k.i) ==>
        && f.same >= Min(f.held, f.w.calm - 4)
        && (!Chained(f.w) ==> f.held >= 3 && f.w.calm >= 4)
        && (NextF(f, k, n).ok <==> Usable(k.c) && Enough(k.c, f.same) && !Chained(f.w))
  {
    hide LockInv, Working, Emitted, RunF, FullDriven, BootF, Usable, Enough, InOp, Start, CycOk, NextD, NextConfig,
         Record, EndOp, Warming, Legal;
    BootInv(n, window);
    RunOp(BootF(n, window), ks, n);
    var f := RunF(BootF(n, window), ks, n);
    if WireOk(f, k, n) && Start(k.c, f.w.z.s, k.i) {
      StartFacts(f.w.z, k, n.tags);
      NoOpAtStart(f.w.z, k, n.tags);
    }
  }

  lemma NoOpAtStart(z: Sys, k: Cyc, tags: nat)
    requires Formed(z, tags) && CycOk(z, k, tags) && Start(k.c, z.s, k.i)
    ensures !InOp(z.s)
  {
    hide Next;
    Bracket(k.c, z.s, k.i);
  }
}
