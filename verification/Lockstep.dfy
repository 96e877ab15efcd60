/** Driver, engine manager and requester together. The driver and the hardware keep separate
    counters; in every run that follows the driver they agree, every enable runs exactly the
    descriptors that are pending, and the statistics of an operation land in the next slot. */
module Lockstep {
  import opened Hw
  import opened RqModel
  import opened Manager

  /** Where the driver is: between calls, between the stop index and the enable, or polling. */
  datatype Phase = Free | Armed | Polling

  /** Calls of the driver, calls since the last enable, operations started and ended, the number
      of ends at which the engine will stop, the statistics sampled after every end, and the status
      word that the last poll met and that has not come back yet. */
  datatype Tally = Tally(phase: Phase, calls: nat, pending: nat, starts: nat, ends: nat, goal: nat,
                         hist: seq<seq<nat>>, polled: Option<nat>)

  datatype Sys = Sys(m: Ctl, t: Store, s: Rq, update: bool, y: Tally)

  /** One cycle: the host access, the requester's inputs, its five statistics counters, and the data of
      a completion that reaches the polling driver. */
  datatype Cyc = Cyc(a: Access, c: Cfg, i: In, stats: seq<nat>, back: Option<nat>)

  predicate Formed(z: Sys, tags: nat) {
    |z.s.buf.slots| == 16 && |z.s.busy| == |z.s.sizes| == tags && StoreOk(z.t) && z.m.active < SLOTS
  }

  predicate CycOk(z: Sys, k: Cyc, tags: nat) {
    && AccessOk(k.a) && k.c.tags == tags && |k.stats| == 5
    && k.i.valid == z.m.valid && k.c.doesWrite == z.m.capW && k.c.doesRead == z.m.capR
    && (k.back.Some? ==> z.y.polled == k.back)
  }

  predicate WritesLast(a: Access)
    requires AccessOk(a)
  {
    a.en && a.addr == TABLE + 1 && (a.we[0] || a.we[1])
  }

  predicate Enables(a: Access)
    requires AccessOk(a)
  {
    WritesControl(a) && Bit(a.din[0], 0)
  }

  predicate Polls(a: Access) { a.en && a.addr == TABLE && a.we == seq(8, k => false) }

  /** What the driver does: a call writes the 16-bit stop index with its own counter, enables
      once, and then only polls the enable bit until it reads 0. */
  predicate DriverOk(z: Sys, a: Access)
    requires AccessOk(a)
  {
    && (WritesLast(a) ==> z.y.phase != Polling && a.we[0] && a.we[1] && a.din[0] + 256 * a.din[1] == z.y.calls % SLOTS)
    && (Enables(a) ==> z.y.phase == Armed)
    && (WritesControl(a) ==> z.y.phase != Polling && !Bit(a.din[0], 1))
  }

  function NextTally(z: Sys, k: Cyc): Tally
    requires AccessOk(k.a)
  {
    var y := z.y;
    var ends := y.ends + B2N(EndOp(z.s));
    Tally(if WritesLast(k.a) then Armed
          else if Enables(k.a) then Polling
          else if y.phase == Polling && k.back.Some? && k.back.value % 2 == 0 then Free
          else y.phase,
          y.calls + B2N(WritesLast(k.a)),
          if Enables(k.a) then 0 else y.pending + B2N(WritesLast(k.a)),
          y.starts + B2N(Start(k.c, z.s, k.i)),
          ends,
          if Enables(k.a) then ends + (z.m.last - z.m.active) % SLOTS + 1 else y.goal,
          if z.update then y.hist + [k.stats] else y.hist,
          if Enables(k.a) || k.back.Some? then None
          else if Polls(k.a) then Some(EngineWord(z.m, k.a.addr))
          else y.polled)
  }

  function NextSys(z: Sys, k: Cyc, tags: nat): (r: Sys)
    requires Formed(z, tags) && CycOk(z, k, tags)
    ensures Formed(r, tags)
  {
    Sys(NextCtl(z.m, k.a, EndOp(z.s)), NextStore(z.t, z.update, k.stats, z.m.active),
        Next(k.c, z.s, k.i), EndOp(z.s), NextTally(z, k))
  }

  /** An operation is in course from its start until the cycle in which its end is signalled. */
  predicate InOp(s: Rq) { s.st != Idle || s.pipe == InitWrite || s.pipe == Write }

  /** Start and end bracket an operation, whatever the descriptor and the inputs do. */
  lemma Bracket(c: Cfg, s: Rq, i: In)
    requires Shaped(c, s)
    ensures InOp(Next(c, s, i)) <==> Start(c, s, i) || (InOp(s) && !EndOp(s))
    ensures Start(c, s, i) ==> !InOp(s) && i.valid && !s.endR
    ensures EndOp(s) ==> InOp(s) && !EndOp(Next(c, s, i))
    ensures Next(c, s, i).endR == if i.valid then EndOp(s) || s.endR else EndOp(s)
  {
    hide NextRand, NextGen, NextDims, NextBusy, NextSizes, NextBuf, NextOut, FirstFree, Pow2;
  }

  predicate Idle0(z: Sys) { !InOp(z.s) && !z.m.valid && !z.m.stop && !z.m.clStats && !z.m.enable && !z.update }

  /** Registers that only change together; the running bit follows the enable bit one cycle late. */
  predicate Timing(z: Sys) {
    var m := z.m;
    && m.active < SLOTS && m.last < SLOTS
    && (z.update ==>
          !InOp(z.s) && (m.valid ==> z.s.endR) && m.active != m.pipeIdx && m.enable && !z.t.ena && !m.clStats)
    && (!z.update ==> m.active == m.pipeIdx && !m.stop)
    && (z.t.ena ==> !InOp(z.s) && !m.valid && !m.clStats)
    && (InOp(z.s) ==> m.valid && !m.clStats)
    && (m.valid ==> m.enable && !m.stop && !m.clStats)
    && (m.stop ==> z.update)
    && (m.clStats ==> m.enable) && !m.resetR && m.running == (m.enable && !m.clStats)
    && (z.y.phase == Polling && z.y.polled.Some? && z.y.polled.value % 2 == 0 ==> !m.enable)
    && (z.y.phase != Polling ==> Idle0(z) && !z.t.ena)
  }

  /** Both counters of the ring, and how many ends are still to come. */
  predicate Counting(z: Sys) {
    var m, y := z.m, z.y;
    && m.active == y.ends % SLOTS
    && m.last == (if y.calls == 0 then 0 else (y.calls - 1) % SLOTS)
    && y.starts == y.ends + B2N(InOp(z.s))
    && (y.phase == Armed ==> y.pending > 0 && y.calls > 0)
    && (y.phase == Polling && m.enable && !m.stop ==> y.goal == y.ends + (m.last - m.active) % SLOTS + 1)
    && (y.phase == Polling && (m.stop || !m.enable) ==> y.goal == y.ends)
    && (y.phase == Polling ==> y.pending == 0 && y.calls > 0 && y.goal % SLOTS == y.calls % SLOTS)
    && (y.phase != Polling ==> y.goal == y.ends && (y.ends + y.pending) % SLOTS == y.calls % SLOTS)
  }

  /** The rows of the last operations; a row still on its way is in the write port. */
  predicate Rested(t: Store, h: seq<seq<nat>>)
    requires StoreOk(t)
  {
    && (t.ena ==> |h| > 0 && t.dina == h[|h| - 1])
    && (forall n :: 0 <= n < |h| && |h| <= n + SLOTS && !(t.ena && n == |h| - 1) ==> t.ram[(n + 1) % SLOTS] == h[n])
  }

  predicate Landed(z: Sys)
    requires StoreOk(z.t)
  {
    |z.y.hist| + B2N(z.update) == z.y.ends && Rested(z.t, z.y.hist)
  }

  predicate LockInv(z: Sys)
    requires StoreOk(z.t)
  { Timing(z) && Counting(z) && Landed(z) }

  // ---------------------------------------------------------------- arithmetic of the ring

  lemma SuccMod(n: nat, k: nat)
    requires k == n % SLOTS
    ensures Succ(k) == (n + 1) % SLOTS
  {
  }

  /** One descriptor further, the distance to the stop index is one less. */
  lemma Closer(last: nat, active: nat)
    requires last < SLOTS && active < SLOTS && active != last
    ensures (last - Succ(active)) % SLOTS == (last - active) % SLOTS - 1
  {
  }

  /** The distance to the stop index is what the driver still has pending. */
  lemma Distance(calls: nat, ends: nat, pending: nat)
    requires calls > 0 && pending > 0 && (ends + pending) % SLOTS == calls % SLOTS
    ensures ((calls - 1) % SLOTS - ends % SLOTS) % SLOTS == (pending - 1) % SLOTS
    ensures (ends + (pending - 1) % SLOTS + 1) % SLOTS == calls % SLOTS
  {
    var t := calls / SLOTS - (ends + pending) / SLOTS;
    assert calls == ends + pending + SLOTS * t;
    var u := (calls - 1) / SLOTS - ends / SLOTS;
    SameMod((calls - 1) % SLOTS - ends % SLOTS, pending - 1, t - u);
    SameMod(ends + (pending - 1) % SLOTS + 1, calls, -t - (pending - 1) / SLOTS);
  }

  lemma SameMod(x: int, y: int, t: int)
    requires x == y + SLOTS * t
    ensures x % SLOTS == y % SLOTS
  {
  }

  lemma BothNext(x: nat, y: nat)
    requires x % SLOTS == y % SLOTS
    ensures (x + 1) % SLOTS == (y + 1) % SLOTS
  {
    SameMod(x + 1, y + 1, x / SLOTS - y / SLOTS);
  }

  // ---------------------------------------------------------------- one cycle

  lemma TimingStep(z: Sys, k: Cyc, tags: nat)
    requires Formed(z, tags) && CycOk(z, k, tags) && DriverOk(z, k.a) && Timing(z)
    ensures Timing(NextSys(z, k, tags))
  {
    hide Next, EndOp, Start, InOp, Bit, Pow2;
    Bracket(k.c, z.s, k.i);
  }

  /** The driver goes on polling as long as the engine is enabled. */
  lemma StillPolling(z: Sys, k: Cyc, tags: nat)
    requires Formed(z, tags) && CycOk(z, k, tags) && DriverOk(z, k.a) && Timing(z)
    requires z.y.phase == Polling && z.m.enable
    ensures NextTally(z, k).phase == Polling
  {
    hide EndOp, Start, InOp, Bit, EngineWord;
  }

  lemma LastIs(z: Sys, a: Access)
    requires AccessOk(a) && DriverOk(z, a) && z.m.last < SLOTS
    ensures NextLast(z.m.last, a) == if WritesLast(a) then z.y.calls % SLOTS else z.m.last
  {
    hide Bit;
  }

  /** The end of an operation: one descriptor further, and the engine stops at the last one. */
  lemma CountEnd(z: Sys, k: Cyc, tags: nat)
    requires Formed(z, tags) && CycOk(z, k, tags) && DriverOk(z, k.a) && Timing(z) && Counting(z) && EndOp(z.s)
    ensures Counting(NextSys(z, k, tags))
  {
    hide Next, EndOp, Start, InOp, Bit, NextStore, Pow2, NextLast;
    Bracket(k.c, z.s, k.i);
    LastIs(z, k.a);
    SuccMod(z.y.ends, z.m.active);
    if z.m.active != z.m.last { Closer(z.m.last, z.m.active); }
  }

  /** The host enables: the distance to the stop index decides how many descriptors will run. */
  lemma CountEnable(z: Sys, k: Cyc, tags: nat)
    requires Formed(z, tags) && CycOk(z, k, tags) && DriverOk(z, k.a) && Timing(z) && Counting(z) && Enables(k.a)
    ensures Counting(NextSys(z, k, tags))
    ensures NextTally(z, k).goal == z.y.ends + (z.y.pending - 1) % SLOTS + 1
  {
    hide Next, EndOp, Start, InOp, Bit, NextStore, Pow2, NextLast;
    Bracket(k.c, z.s, k.i);
    LastIs(z, k.a);
    Distance(z.y.calls, z.y.ends, z.y.pending);
  }

  lemma CountOther(z: Sys, k: Cyc, tags: nat)
    requires Formed(z, tags) && CycOk(z, k, tags) && DriverOk(z, k.a) && Timing(z) && Counting(z)
    requires !EndOp(z.s) && !Enables(k.a)
    ensures Counting(NextSys(z, k, tags))
  {
    hide Next, EndOp, Start, InOp, Bit, NextStore, Pow2, NextLast;
    Bracket(k.c, z.s, k.i);
    LastIs(z, k.a);
    if z.y.phase != Polling { BothNext(z.y.ends + z.y.pending, z.y.calls); }
  }

  lemma LockStep(z: Sys, k: Cyc, tags: nat)
    requires Formed(z, tags) && CycOk(z, k, tags) && DriverOk(z, k.a) && LockInv(z)
    ensures LockInv(NextSys(z, k, tags))
  {
    hide NextSys, Timing, Counting, Landed;
    TimingStep(z, k, tags);
    LandedStep(z, k, tags);
    if EndOp(z.s) {
      CountEnd(z, k, tags);
    } else if Enables(k.a) {
      CountEnable(z, k, tags);
    } else {
      CountOther(z, k, tags);
    }
  }

  lemma SlotsApart(n: nat, m: nat)
    requires n < m < n + SLOTS
    ensures n % SLOTS != m % SLOTS
  {
  }

  lemma RowsStep(t: Store, update: bool, stats: seq<nat>, active: nat, h: seq<seq<nat>>)
    requires StoreOk(t) && |stats| == 5 && active < SLOTS && Rested(t, h)
    requires t.ena ==> active == |h| % SLOTS && !update
    ensures Rested(NextStore(t, update, stats, active), if update then h + [stats] else h)
  {
    var t', h' := NextStore(t, update, stats, active), if update then h + [stats] else h;
    forall n | 0 <= n < |h'| && |h'| <= n + SLOTS && !(t'.ena && n == |h'| - 1)
      ensures t'.ram[(n + 1) % SLOTS] == h'[n]
    {
      if t.ena && n + 1 < |h| { SlotsApart(n + 1, |h|); }
    }
  }

  lemma LandedStep(z: Sys, k: Cyc, tags: nat)
    requires Formed(z, tags) && CycOk(z, k, tags) && LockInv(z)
    ensures Landed(NextSys(z, k, tags))
  {
    hide Next, EndOp, Start, InOp, Bit, Pow2, NextCtl, NextStore, Rested;
    Bracket(k.c, z.s, k.i);
    RowsStep(z.t, z.update, k.stats, z.m.active, z.y.hist);
  }

  // ---------------------------------------------------------------- runs

  function RunSys(z: Sys, ks: seq<Cyc>, tags: nat): (r: Sys)
    requires Formed(z, tags)
    ensures Formed(r, tags)
  {
    if ks == [] then z
    else
      var y := RunSys(z, ks[..|ks| - 1], tags);
      if CycOk(y, ks[|ks| - 1], tags) then NextSys(y, ks[|ks| - 1], tags) else y
  }

  /** Every cycle is one the driver can cause. */
  predicate Driven(z: Sys, ks: seq<Cyc>, tags: nat)
    requires Formed(z, tags)
  {
    ks == [] || (&& Driven(z, ks[..|ks| - 1], tags)
                 && CycOk(RunSys(z, ks[..|ks| - 1], tags), ks[|ks| - 1], tags)
                 && DriverOk(RunSys(z, ks[..|ks| - 1], tags), ks[|ks| - 1].a))
  }

  function Boot(c: Cfg): (z: Sys)
    ensures Formed(z, c.tags)
  {
    var row := seq(5, k => 0);
    Sys(CTL_RESET, Store(false, row, seq(SLOTS, k => row)), Reset(c), false, Tally(Free, 0, 0, 0, 0, 0, [], None))
  }

  lemma {:induction false} RunLock(z: Sys, ks: seq<Cyc>, tags: nat)
    requires Formed(z, tags) && LockInv(z) && Driven(z, ks, tags)
    ensures LockInv(RunSys(z, ks, tags))
  {
    hide NextSys, LockInv, DriverOk;
    if ks != [] {
      RunLock(z, ks[..|ks| - 1], tags);
      LockStep(RunSys(z, ks[..|ks| - 1], tags), ks[|ks| - 1], tags);
    }
  }

  lemma BootOk(c: Cfg)
    ensures LockInv(Boot(c))
  {
  }

  /** From reset, in every run that follows the driver: operations start and end strictly one
      after the other, the hardware index counts the ends, and whenever the driver is between
      two calls that all enabled, it equals the driver's own counter. */
  lemma IndicesAgree(c: Cfg, ks: seq<Cyc>)
    requires Driven(Boot(c), ks, c.tags)
    ensures var z := RunSys(Boot(c), ks, c.tags);
      && z.m.active == z.y.ends % SLOTS && z.y.ends <= z.y.starts <= z.y.ends + 1 && z.y.ends <= z.y.goal
      && (z.y.phase == Free ==> z.y.starts == z.y.ends == z.y.goal)
      && (z.y.phase == Free && z.y.pending == 0 ==> z.m.active == z.y.calls % SLOTS)
  {
    hide NextSys, DriverOk;
    BootOk(c);
    RunLock(Boot(c), ks, c.tags);
  }

  lemma BetweenCalls(z: Sys)
    requires StoreOk(z.t) && LockInv(z) && z.y.phase != Polling
    ensures z.y.starts == z.y.ends == z.y.goal == |z.y.hist|
    ensures forall n :: 0 <= n < z.y.ends <= n + SLOTS ==> z.t.ram[(n + 1) % SLOTS] == z.y.hist[n]
  {
    hide InOp;
  }

  lemma OnePending(n: nat)
    requires n > 0
    ensures (n - 1) % SLOTS == 0 <==> n % SLOTS == 1
  {
  }

  predicate Quiet(ks: seq<Cyc>) { forall n :: 0 <= n < |ks| ==> AccessOk(ks[n].a) && !Enables(ks[n].a) }

  lemma {:induction false} GoalKept(z: Sys, ks: seq<Cyc>, tags: nat)
    requires Formed(z, tags) && Quiet(ks)
    ensures RunSys(z, ks, tags).y.goal == z.y.goal
  {
    hide Next, NextCtl, NextStore, EndOp, Start;
    if ks != [] { GoalKept(z, ks[..|ks| - 1], tags); }
  }

  lemma {:induction false} RunJoins(z: Sys, a: seq<Cyc>, b: seq<Cyc>, tags: nat)
    requires Formed(z, tags)
    ensures RunSys(z, a + b, tags) == RunSys(RunSys(z, a, tags), b, tags)
    ensures Driven(z, a + b, tags) <==> Driven(z, a, tags) && Driven(RunSys(z, a, tags), b, tags)
  {
    hide NextSys, CycOk, DriverOk;
    if b == [] {
      assert a + b == a;
    } else {
      RunJoins(z, a, b[..|b| - 1], tags);
      assert (a + b)[..|a + b| - 1] == a + b[..|b| - 1];
    }
  }

  lemma RunOne(z: Sys, k: Cyc, tags: nat)
    requires Formed(z, tags) && Driven(z, [k], tags)
    ensures CycOk(z, k, tags) && DriverOk(z, k.a) && RunSys(z, [k], tags) == NextSys(z, k, tags)
  {
    hide NextSys, CycOk, DriverOk;
    assert [k][..0] == [];
    assert RunSys(z, [], tags) == z;
  }

  /** An enable runs exactly as many operations as calls are pending (modulo the ring): one, if
      every call enables. When the driver has polled the engine idle, all of them are over. */
  lemma EnableRunsPending(c: Cfg, ks: seq<Cyc>, k: Cyc, more: seq<Cyc>)
    requires Driven(Boot(c), ks + [k] + more, c.tags) && AccessOk(k.a) && Enables(k.a) && Quiet(more)
    ensures var z, z2 := RunSys(Boot(c), ks, c.tags), RunSys(Boot(c), ks + [k] + more, c.tags);
      z2.y.phase == Free ==>
        && z2.y.ends - z.y.ends == z2.y.starts - z.y.starts == (z.y.pending - 1) % SLOTS + 1
        && (z2.y.ends - z.y.ends == 1 <==> z.y.pending % SLOTS == 1)
  {
    hide NextSys, LockInv, DriverOk, Enables, RunSys, Driven, CycOk;
    RunJoins(Boot(c), ks + [k], more, c.tags);
    RunJoins(Boot(c), ks, [k], c.tags);
    var z := RunSys(Boot(c), ks, c.tags);
    RunOne(z, k, c.tags);
    BootOk(c);
    RunLock(Boot(c), ks, c.tags);
    LockStep(z, k, c.tags);
    EnableFrom(z, k, c.tags);
    var z1 := NextSys(z, k, c.tags);
    RunLock(z1, more, c.tags);
    GoalKept(z1, more, c.tags);
    var z2 := RunSys(z1, more, c.tags);
    if z2.y.phase == Free {
      BetweenCalls(z);
      BetweenCalls(z2);
      OnePending(z.y.pending);
    }
  }

  lemma EnableFrom(z: Sys, k: Cyc, tags: nat)
    requires Formed(z, tags) && CycOk(z, k, tags) && DriverOk(z, k.a) && LockInv(z) && Enables(k.a)
    ensures z.y.phase == Armed && z.y.pending > 0
    ensures NextSys(z, k, tags).y.goal == z.y.ends + (z.y.pending - 1) % SLOTS + 1
  {
    hide Next, NextCtl, NextStore, EndOp, Start, Landed, Timing;
    CountEnable(z, k, tags);
  }

  /** Between two calls the row of each of the last 1024 operations is in place: that of operation n
      in slot n + 1. */
  lemma StatisticsInNextSlot(c: Cfg, ks: seq<Cyc>, n: nat)
    requires Driven(Boot(c), ks, c.tags) && RunSys(Boot(c), ks, c.tags).y.phase == Free
    requires n < RunSys(Boot(c), ks, c.tags).y.ends <= n + SLOTS
    ensures var z := RunSys(Boot(c), ks, c.tags);
      |z.y.hist| == z.y.ends && z.t.ram[(n + 1) % SLOTS] == z.y.hist[n]
  {
    hide NextSys, DriverOk, LockInv, RunSys, Driven;
    BootOk(c);
    RunLock(Boot(c), ks, c.tags);
    BetweenCalls(RunSys(Boot(c), ks, c.tags));
  }

  // ---------------------------------------------------------------- running time

  /** Cycles of the run in which the engine is enabled and not about to stop. */
  function Worked(z: Sys, ks: seq<Cyc>, tags: nat): nat
    requires Formed(z, tags)
  {
    if ks == [] then 0
    else
      var m := RunSys(z, ks[..|ks| - 1], tags).m;
      Worked(z, ks[..|ks| - 1], tags) + B2N(m.enable && !m.stop)
  }

  lemma TimeStep(z: Sys, k: Cyc, tags: nat)
    requires Formed(z, tags) && CycOk(z, k, tags) && DriverOk(z, k.a) && !Enables(k.a)
    ensures var m := NextSys(z, k, tags).m;
      && !m.clStats
      && m.time == if z.m.clStats then 0 else if z.m.enable && !z.m.stop then W64(z.m.time + 1) else z.m.time
  {
    hide Next, NextStore, NextTally, EndOp, Start, NextLast;
  }

  lemma {:induction false} TimeSince(z: Sys, ks: seq<Cyc>, tags: nat)
    requires Formed(z, tags) && !z.m.clStats && z.m.time == 0 && Driven(z, ks, tags) && Quiet(ks)
    ensures var m := RunSys(z, ks, tags).m; !m.clStats && m.time == W64(Worked(z, ks, tags))
  {
    hide NextSys, CycOk, DriverOk, Enables, W64;
    if ks == [] {
      WrapsOn(0, 0);
    } else {
      var p := RunSys(z, ks[..|ks| - 1], tags);
      TimeSince(z, ks[..|ks| - 1], tags);
      TimeStep(p, ks[|ks| - 1], tags);
      WrapsOn(Worked(z, ks[..|ks| - 1], tags), B2N(p.m.enable && !p.m.stop));
    }
  }

  lemma WrapsOn(n: nat, d: nat)
    ensures W64(0) == 0 && W64(W64(n) + d) == W64(n + d)
  {
    W64Add(n, d);
  }

  /** The time register counts the working cycles of the last enable: those since the cycle after it,
      in which the register is cleared. */
  lemma EnableTime(c: Cfg, ks: seq<Cyc>, e: Cyc, k: Cyc, more: seq<Cyc>)
    requires Driven(Boot(c), ks + [e] + [k] + more, c.tags) && AccessOk(e.a) && Enables(e.a) && Quiet([k] + more)
    ensures var z := RunSys(Boot(c), ks + [e] + [k], c.tags);
      RunSys(Boot(c), ks + [e] + [k] + more, c.tags).m.time == W64(Worked(z, more, c.tags))
  {
    hide NextSys, CycOk, DriverOk, Enables, RunSys, Driven, Worked;
    RunJoins(Boot(c), ks + [e] + [k], more, c.tags);
    RunJoins(Boot(c), ks + [e], [k], c.tags);
    RunJoins(Boot(c), ks, [e], c.tags);
    var z0, z1 := RunSys(Boot(c), ks, c.tags), RunSys(Boot(c), ks + [e], c.tags);
    RunOne(z0, e, c.tags);
    RunOne(z1, k, c.tags);
    Clears(z0, e, c.tags);
    assert ([k] + more)[0] == k;
    TimeStep(z1, k, c.tags);
    assert forall n :: 0 <= n < |more| ==> ([k] + more)[n + 1] == more[n];
    TimeSince(RunSys(Boot(c), ks + [e] + [k], c.tags), more, c.tags);
  }

  lemma Clears(z: Sys, e: Cyc, tags: nat)
    requires Formed(z, tags) && CycOk(z, e, tags) && Enables(e.a)
    ensures NextSys(z, e, tags).m.clStats
  {
    hide Next, NextStore, NextTally, EndOp, Start, NextLast;
  }
}
