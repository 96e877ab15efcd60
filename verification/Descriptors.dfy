/** The descriptor memories under the driver: which address and size an operation runs with. The
    driver writes a slot through a pipeline, the manager fetches the active slot through another
    one; the two meet in time for the first operation of an enable, and too late for a chained one
    that starts at once. */
module Descriptors {
  import opened Hw
  import opened RqModel
  import opened Manager
  import opened Lockstep

  /** The lockstep system with its descriptor memories, what the host has stored in them so far, the
      cycles since the last descriptor access or end of an operation, the ends at the last enable,
      and the slot that was active before the last end. */
  datatype DSys = DSys(z: Sys, q: Table, a: seq<seq<nat>>, s: seq<seq<nat>>, calm: nat, mark: nat, prev: nat)

  predicate DFormed(w: DSys, tags: nat) {
    && Formed(w.z, tags) && TableOk(w.q) && |w.a| == |w.s| == SLOTS && Words(w.a) && Words(w.s) && w.prev < SLOTS
  }

  predicate Touches(a: Access) { a.en && InRange(a.addr) }

  /** What a host access stores in a column of the table, at once. */
  function Stored(mem: seq<seq<nat>>, a: Access, word: nat): (r: seq<seq<nat>>)
    requires AccessOk(a) && Words(mem) && |mem| == SLOTS
    ensures |r| == SLOTS && Words(r)
  {
    if Touches(a) && Eff(a.addr) % 8 == word
    then mem[SlotOf(a.addr, word) := Merge(mem[SlotOf(a.addr, word)], a.din, a.we)] else mem
  }

  function NextD(w: DSys, k: Cyc, tags: nat): (r: DSys)
    requires DFormed(w, tags) && CycOk(w.z, k, tags)
    ensures DFormed(r, tags)
  {
    var end := EndOp(w.z.s);
    DSys(NextSys(w.z, k, tags), NextTable(w.q, k.a, w.z.update, w.z.m.active),
         Stored(w.a, k.a, 0), Stored(w.s, k.a, 1),
         if Touches(k.a) || end then 0 else w.calm + 1,
         if Enables(k.a) then w.z.y.ends else w.mark,
         if end then w.z.m.active else w.prev)
  }

  /** Besides the rules of the lockstep: descriptors are left alone while the engine works, and two
      cycles pass between the last of them and the enable. */
  predicate TableDriverOk(w: DSys, a: Access)
    requires AccessOk(a)
  {
    && DriverOk(w.z, a)
    && (Touches(a) ==> w.z.y.phase != Polling)
    && (Enables(a) ==> w.calm >= 2)
  }

  // ---------------------------------------------------------------- invariant

  /** A pending write only delays what the host has stored. */
  predicate Due(q: Table, a: seq<seq<nat>>, s: seq<seq<nat>>)
    requires TableOk(q)
  {
    a == Filed(q.addrs, q.put.enaA, q.put.slotA, q.put) && s == Filed(q.sizes, q.put.enaS, q.put.slotS, q.put)
  }

  /** The three stages behind the memories, n cycles after everything came to rest. */
  predicate Fetched(q: Table, ra: seq<nat>, rs: seq<nat>, n: int) {
    && (n >= 1 ==> q.a1 == ra && q.s1 == rs)
    && (n >= 2 ==> q.a2 == ra && q.s2 == rs)
    && (n >= 3 ==> q.outA == ra && q.outS == rs)
  }

  /** What they still show of the slot before, n cycles after the last end. */
  predicate Stale(q: Table, ra: seq<nat>, rs: seq<nat>, n: int) {
    && (n <= 0 ==> q.a1 == ra && q.s1 == rs)
    && (n <= 1 ==> q.a2 == ra && q.s2 == rs)
    && (n <= 2 ==> q.outA == ra && q.outS == rs)
  }

  /** An earlier operation of the same enable has ended. */
  predicate Chained(w: DSys) { w.z.y.phase == Polling && w.z.y.ends > w.mark }

  /** Cycles the pipeline has had: after an end the memory is at rest already, after a write not yet. */
  function Lead(w: DSys): int { if Chained(w) then w.calm else w.calm - 1 }

  predicate FetchInv(w: DSys, tags: nat)
    requires DFormed(w, tags)
  {
    var z := w.z;
    && Due(w.q, w.a, w.s)
    && (w.calm >= 1 || z.y.phase == Polling ==> !w.q.put.enaA && !w.q.put.enaS)
    && Fetched(w.q, w.a[z.m.active], w.s[z.m.active], Lead(w))
    && (z.y.phase == Polling ==> w.mark <= z.y.ends)
    && (z.y.phase == Polling && z.y.ends == w.mark ==> w.calm >= 3 && (z.m.valid ==> w.calm >= 4))
    && (Chained(w) ==>
          && Stale(w.q, w.a[w.prev], w.s[w.prev], w.calm)
          && (w.calm == 0 <==> z.update) && (w.calm == 1 <==> z.t.ena)
          && w.prev == (z.y.ends - 1) % SLOTS)
    && (InOp(z.s) ==> Lead(w) >= 2)
  }

  // ---------------------------------------------------------------- one cycle

  /** A write of the host is stored one cycle later, unless it meets an update of the statistics: then it is
      lost. */
  lemma PendingStep(q: Table, a: seq<seq<nat>>, s: seq<seq<nat>>, x: Access, update: bool, active: nat)
    requires TableOk(q) && AccessOk(x) && active < SLOTS && |a| == |s| == SLOTS && Words(a) && Words(s)
    requires Due(q, a, s)
    ensures var q' := NextTable(q, x, update, active);
      && Due(q', if update then a else Stored(a, x, 0), if update then s else Stored(s, x, 1))
      && (!Touches(x) ==> !q'.put.enaA && !q'.put.enaS)
  {
    hide Merge, Eff, SlotOf;
  }

  /** With the memory at rest every stage takes over the active row from the one before. */
  lemma FetchStep(q: Table, a: seq<seq<nat>>, s: seq<seq<nat>>, x: Access, update: bool, active: nat, n: int)
    requires TableOk(q) && AccessOk(x) && active < SLOTS && |a| == |s| == SLOTS
    requires n >= 0 ==> q.addrs == a && q.sizes == s
    requires Fetched(q, a[active], s[active], n)
    ensures Fetched(NextTable(q, x, update, active), a[active], s[active], n + 1)
  {
    hide Merge, Eff, SlotOf, NextPut;
  }

  lemma StaleStep(q: Table, ra: seq<nat>, rs: seq<nat>, x: Access, update: bool, active: nat, n: nat)
    requires TableOk(q) && AccessOk(x) && active < SLOTS && Stale(q, ra, rs, n)
    ensures Stale(NextTable(q, x, update, active), ra, rs, n + 1)
  {
    hide Merge, Eff, SlotOf, NextPut;
  }

  /** At an end all stages still show the slot that was active. */
  lemma StaleStart(q: Table, a: seq<seq<nat>>, s: seq<seq<nat>>, x: Access, update: bool, active: nat)
    requires TableOk(q) && AccessOk(x) && active < SLOTS && |a| == |s| == SLOTS && q.addrs == a && q.sizes == s
    requires Fetched(q, a[active], s[active], 2)
    ensures Stale(NextTable(q, x, update, active), a[active], s[active], 0)
  {
    hide Merge, Eff, SlotOf, NextPut;
  }

  lemma AtRestMemory(q: Table, a: seq<seq<nat>>, s: seq<seq<nat>>)
    requires TableOk(q) && Due(q, a, s) && !q.put.enaA && !q.put.enaS
    ensures q.addrs == a && q.sizes == s
  {
  }

  lemma StoredSame(mem: seq<seq<nat>>, a: Access, word: nat)
    requires AccessOk(a) && Words(mem) && |mem| == SLOTS && !Touches(a)
    ensures Stored(mem, a, word) == mem
  {
  }

  /** What the control side does in the same cycle. */
  lemma ControlFacts(z: Sys, k: Cyc, tags: nat)
    requires Formed(z, tags) && CycOk(z, k, tags) && LockInv(z) && DriverOk(z, k.a)
    ensures var r := NextSys(z, k, tags);
      && r.update == EndOp(z.s) && r.t.ena == z.update
      && (EndOp(z.s) ==> z.y.phase == Polling && InOp(z.s) && !z.update)
      && r.y.ends == z.y.ends + B2N(EndOp(z.s)) && (!EndOp(z.s) ==> r.m.active == z.m.active)
      && (InOp(r.s) ==> Start(k.c, z.s, k.i) || (InOp(z.s) && !EndOp(z.s)))
      && (Start(k.c, z.s, k.i) ==> z.m.valid && !z.update && !z.t.ena && !InOp(z.s))
      && (z.y.phase != Polling ==> !z.update && !InOp(z.s) && !z.m.valid)
      && (Enables(k.a) ==> z.y.phase == Armed && r.y.phase == Polling && !r.m.valid && !EndOp(z.s))
      && (!Enables(k.a) && r.y.phase == Polling ==> z.y.phase == Polling)
      && (InOp(z.s) ==> z.m.valid)
      && (z.update ==> !z.t.ena)
      && (z.y.phase == Polling && (z.m.enable || z.m.valid) ==> r.y.phase == Polling)
  {
    hide Next, EndOp, Start, InOp, Bit, Pow2, NextLast, Counting, Landed, EngineWord;
    Bracket(k.c, z.s, k.i);
    if z.y.phase == Polling && z.m.enable { StillPolling(z, k, tags); }
  }

  /** A cycle in which the host touches the table: the engine is idle. */
  lemma TouchStep(w: DSys, k: Cyc, tags: nat)
    requires DFormed(w, tags) && CycOk(w.z, k, tags) && LockInv(w.z) && TableDriverOk(w, k.a) && FetchInv(w, tags)
    requires Touches(k.a)
    ensures FetchInv(NextD(w, k, tags), tags)
  {
    hide NextSys, NextTable, LockInv, Stored, EndOp, Start, InOp, Fetched, Stale, Due, Words, TableOk, Eff;
    ControlFacts(w.z, k, tags);
    PendingStep(w.q, w.a, w.s, k.a, w.z.update, w.z.m.active);
    NoFetch(NextD(w, k, tags));
    TouchIsNoEnable(k.a);
    var v := NextD(w, k, tags);
    assert v.z.y.phase != Polling && !InOp(v.z.s);
  }

  lemma TouchIsNoEnable(a: Access)
    requires AccessOk(a) && Touches(a)
    ensures !WritesControl(a)
  {
  }

  lemma NoFetch(w: DSys)
    requires Lead(w) <= 0 && w.z.m.active < |w.a| && w.z.m.active < |w.s|
    ensures Fetched(w.q, w.a[w.z.m.active], w.s[w.z.m.active], Lead(w))
  {
  }

  /** The end of an operation. */
  lemma EndStep(w: DSys, k: Cyc, tags: nat)
    requires DFormed(w, tags) && CycOk(w.z, k, tags) && LockInv(w.z) && TableDriverOk(w, k.a) && FetchInv(w, tags)
    requires !Touches(k.a) && EndOp(w.z.s)
    ensures FetchInv(NextD(w, k, tags), tags)
  {
    hide NextSys, NextTable, LockInv, Stored, EndOp, Start, InOp, Stale, Due, Words, TableOk, Eff, Touches;
    var z := w.z;
    ControlFacts(z, k, tags);
    PendingStep(w.q, w.a, w.s, k.a, z.update, z.m.active);
    StoredSame(w.a, k.a, 0);
    StoredSame(w.s, k.a, 1);
    AtRestMemory(w.q, w.a, w.s);
    StaleStart(w.q, w.a, w.s, k.a, z.update, z.m.active);
    NoFetch(NextD(w, k, tags));
    ActiveIs(z);
  }

  lemma ActiveIs(z: Sys)
    requires StoreOk(z.t) && LockInv(z)
    ensures z.m.active == z.y.ends % SLOTS
  {
    hide InOp, Timing, Landed;
  }

  /** Any other cycle: the pipeline moves on by one. */
  lemma CalmStep(w: DSys, k: Cyc, tags: nat)
    requires DFormed(w, tags) && CycOk(w.z, k, tags) && LockInv(w.z) && TableDriverOk(w, k.a) && FetchInv(w, tags)
    requires !Touches(k.a) && !EndOp(w.z.s)
    ensures FetchInv(NextD(w, k, tags), tags)
  {
    hide NextSys, NextTable, LockInv, Stored, EndOp, Start, InOp, Stale, Due, Words, TableOk, Eff, Touches;
    var z := w.z;
    ControlFacts(z, k, tags);
    PendingStep(w.q, w.a, w.s, k.a, z.update, z.m.active);
    StoredSame(w.a, k.a, 0);
    StoredSame(w.s, k.a, 1);
    if !w.q.put.enaA && !w.q.put.enaS { AtRestMemory(w.q, w.a, w.s); }
    FetchStep(w.q, w.a, w.s, k.a, z.update, z.m.active, Lead(w));
    if Chained(w) { StaleStep(w.q, w.a[w.prev], w.s[w.prev], k.a, z.update, z.m.active, w.calm); }
  }

  lemma TableStep(w: DSys, k: Cyc, tags: nat)
    requires DFormed(w, tags) && CycOk(w.z, k, tags) && LockInv(w.z) && TableDriverOk(w, k.a) && FetchInv(w, tags)
    ensures LockInv(NextD(w, k, tags).z) && FetchInv(NextD(w, k, tags), tags)
  {
    hide LockInv, FetchInv, NextSys, NextTable, Stored, EndOp, Touches;
    LockStep(w.z, k, tags);
    if Touches(k.a) {
      TouchStep(w, k, tags);
    } else if EndOp(w.z.s) {
      EndStep(w, k, tags);
    } else {
      CalmStep(w, k, tags);
    }
  }

  // ---------------------------------------------------------------- runs

  function RunD(w: DSys, ks: seq<Cyc>, tags: nat): (r: DSys)
    requires DFormed(w, tags)
    ensures DFormed(r, tags)
  {
    if ks == [] then w
    else
      var v := RunD(w, ks[..|ks| - 1], tags);
      if CycOk(v.z, ks[|ks| - 1], tags) then NextD(v, ks[|ks| - 1], tags) else v
  }

  predicate TableDriven(w: DSys, ks: seq<Cyc>, tags: nat)
    requires DFormed(w, tags)
  {
    ks == [] || (&& TableDriven(w, ks[..|ks| - 1], tags)
                 && CycOk(RunD(w, ks[..|ks| - 1], tags).z, ks[|ks| - 1], tags)
                 && TableDriverOk(RunD(w, ks[..|ks| - 1], tags), ks[|ks| - 1].a))
  }

  function BootD(c: Cfg): (w: DSys)
    ensures DFormed(w, c.tags)
  {
    var word := seq(8, k => 0);
    var mem := seq(SLOTS, j => word);
    var put := Put(false, false, seq(8, k => false), 0, 0, word);
    DSys(Boot(c), Table(put, mem, mem, word, word, word, word, word, word), mem, mem, 0, 0, 0)
  }

  lemma BootFetched(c: Cfg)
    ensures FetchInv(BootD(c), c.tags)
  {
  }

  /** The lockstep run inside. */
  lemma {:induction false} RunParts(w: DSys, ks: seq<Cyc>, tags: nat)
    requires DFormed(w, tags)
    ensures RunD(w, ks, tags).z == RunSys(w.z, ks, tags)
    ensures TableDriven(w, ks, tags) ==> Driven(w.z, ks, tags)
  {
    hide NextSys, NextTable, Stored, CycOk, DriverOk;
    if ks != [] { RunParts(w, ks[..|ks| - 1], tags); }
  }

  lemma {:induction false} RunFetched(w: DSys, ks: seq<Cyc>, tags: nat)
    requires DFormed(w, tags) && LockInv(w.z) && FetchInv(w, tags) && TableDriven(w, ks, tags)
    ensures LockInv(RunD(w, ks, tags).z) && FetchInv(RunD(w, ks, tags), tags)
  {
    hide NextD, LockInv, FetchInv, TableDriverOk;
    if ks != [] {
      RunFetched(w, ks[..|ks| - 1], tags);
      TableStep(RunD(w, ks[..|ks| - 1], tags), ks[|ks| - 1], tags);
    }
  }

  /** In every driven run, operation n starts while slot n is active. The first operation of an enable
      starts with the address and the size last stored there. A chained one does iff it does not start
      in the third cycle after the end before it; then it gets those of the slot before. */
  lemma OperationDescriptor(c: Cfg, ks: seq<Cyc>, k: Cyc)
    requires TableDriven(BootD(c), ks, c.tags)
    ensures var w := RunD(BootD(c), ks, c.tags); var n := w.z.y.ends;
      CycOk(w.z, k, c.tags) && Start(k.c, w.z.s, k.i) ==>
        var slot := if Chained(w) && w.calm == 2 then (n - 1) % SLOTS else n % SLOTS;
        && w.z.m.active == n % SLOTS && (Chained(w) ==> w.calm >= 2)
        && w.q.outA == w.a[slot] && w.q.outS == w.s[slot]
  {
    hide NextD, LockInv, RunD, TableDriven, Start, InOp;
    BootOk(c);
    BootFetched(c);
    RunFetched(BootD(c), ks, c.tags);
    var w := RunD(BootD(c), ks, c.tags);
    ActiveIs(w.z);
    if CycOk(w.z, k, c.tags) && Start(k.c, w.z.s, k.i) { StartFacts(w.z, k, c.tags); }
  }

  lemma StartFacts(z: Sys, k: Cyc, tags: nat)
    requires Formed(z, tags) && CycOk(z, k, tags) && LockInv(z) && Start(k.c, z.s, k.i)
    ensures z.m.valid && !z.update && !z.t.ena && z.y.phase == Polling
  {
    hide Next, EndOp, InOp, Counting, Landed;
    Bracket(k.c, z.s, k.i);
  }

  // ---------------------------------------------------------------- chained operations

  /** A cycle in which the host keeps quiet and no operation ends. */
  lemma QuietCycle(w: DSys, k: Cyc, tags: nat)
    requires DFormed(w, tags) && LockInv(w.z) && FetchInv(w, tags) && CycOk(w.z, k, tags) && !k.a.en
    ensures TableDriverOk(w, k.a) && LockInv(NextD(w, k, tags).z) && FetchInv(NextD(w, k, tags), tags)
    ensures var m, n := w.z.m, NextD(w, k, tags).z.m; var end := EndOp(w.z.s);
      && n.capW == m.capW && n.capR == m.capR && n.last == m.last && n.enable == (m.enable && !m.stop)
      && n.stop == (!m.clStats && end && m.active == m.last) && n.pipeIdx == m.active
      && n.valid == if end then m.active != m.last else m.active == m.pipeIdx && m.enable
  {
    hide FetchInv, LockInv, NextTable, NextStore, Next, Stored, EndOp, Bit;
    TableStep(w, k, tags);
  }

  /** Two cycles after an end that does not stop the engine it is ready to start again. */
  lemma AfterEnd(w: DSys, k0: Cyc, k1: Cyc, k2: Cyc, tags: nat) returns (v: DSys)
    requires DFormed(w, tags) && LockInv(w.z) && FetchInv(w, tags) && EndOp(w.z.s) && w.z.m.active != w.z.m.last
    requires CycOk(w.z, k0, tags) && !k0.a.en && !k1.a.en && !k2.a.en
    requires var w1 := NextD(w, k0, tags); CycOk(w1.z, k1, tags) && CycOk(NextD(w1, k1, tags).z, k2, tags)
    ensures v == NextD(NextD(NextD(w, k0, tags), k1, tags), k2, tags) && FetchInv(v, tags) && LockInv(v.z)
    ensures v.z.m.valid && v.z.m.capW == w.z.m.capW && v.z.m.capR == w.z.m.capR
    ensures !InOp(v.z.s) && !v.z.s.endR && Chained(v) && v.calm == 2
  {
    hide FetchInv, LockInv, NextTable, NextStore, Next, Stored, EndOp, InOp, NextCtl, Start, Touches;
    var w1 := NextD(w, k0, tags);
    var w2 := NextD(w1, k1, tags);
    v := NextD(w2, k2, tags);
    IdleAccess(k0.a);
    IdleAccess(k1.a);
    IdleAccess(k2.a);
    QuietCycle(w, k0, tags);
    ControlFacts(w.z, k0, tags);
    InOpFacts(w.z);
    Bracket(k0.c, w.z.s, k0.i);
    QuietCycle(w1, k1, tags);
    ControlFacts(w1.z, k1, tags);
    Bracket(k1.c, w1.z.s, k1.i);
    UpdateFacts(w1.z);
    QuietCycle(w2, k2, tags);
    ControlFacts(w2.z, k2, tags);
    Bracket(k2.c, w2.z.s, k2.i);
    MarkKept(w, tags);
  }

  lemma IdleAccess(a: Access)
    requires AccessOk(a) && !a.en
    ensures !Touches(a) && !WritesLast(a) && !WritesControl(a) && !Polls(a)
  {
  }

  lemma InOpFacts(z: Sys)
    requires StoreOk(z.t) && LockInv(z) && InOp(z.s)
    ensures z.m.valid && z.m.enable && !z.m.stop && !z.m.clStats && z.y.phase == Polling
  {
    hide InOp, Counting, Landed;
  }

  lemma UpdateFacts(z: Sys)
    requires StoreOk(z.t) && LockInv(z) && z.update
    ensures !InOp(z.s) && (z.m.valid ==> z.s.endR) && z.m.active != z.m.pipeIdx && z.m.enable
  {
    hide InOp, Counting, Landed;
  }

  lemma MarkKept(w: DSys, tags: nat)
    requires DFormed(w, tags) && FetchInv(w, tags) && w.z.y.phase == Polling
    ensures w.mark <= w.z.y.ends
  {
  }

  /** A chained operation that is not held up always starts with the descriptor of the slot before: in
      every driven run, when an operation ends short of the stop index and the host keeps quiet, the
      next one starts in the third cycle after the end if TREADY is high in it, and its address and
      size are those of the operation that has just ended. */
  lemma ChainedIsStale(c: Cfg, ks: seq<Cyc>, k0: Cyc, k1: Cyc, k2: Cyc, k3: Cyc)
    requires TableDriven(BootD(c), ks, c.tags)
    requires var w := RunD(BootD(c), ks, c.tags);
      && CycOk(w.z, k0, c.tags) && !k0.a.en && !k1.a.en && !k2.a.en
      && CycOk(NextD(w, k0, c.tags).z, k1, c.tags) && CycOk(NextD(NextD(w, k0, c.tags), k1, c.tags).z, k2, c.tags)
    ensures var w := RunD(BootD(c), ks, c.tags);
      var v := NextD(NextD(NextD(w, k0, c.tags), k1, c.tags), k2, c.tags);
      EndOp(w.z.s) && w.z.m.active != w.z.m.last && (w.z.m.capW || w.z.m.capR)
      && CycOk(v.z, k3, c.tags) && k3.i.ready ==>
        && Start(k3.c, v.z.s, k3.i) && Chained(v) && v.calm == 2 && v.prev == (v.z.y.ends - 1) % SLOTS
        && v.q.outA == v.a[v.prev] && v.q.outS == v.s[v.prev]
  {
    hide NextD, LockInv, FetchInv, RunD, TableDriven, EndOp, InOp, CycOk, Start;
    BootOk(c);
    BootFetched(c);
    RunFetched(BootD(c), ks, c.tags);
    var w := RunD(BootD(c), ks, c.tags);
    if EndOp(w.z.s) && w.z.m.active != w.z.m.last {
      var v := AfterEnd(w, k0, k1, k2, c.tags);
      StaleFacts(v, c.tags);
      if (w.z.m.capW || w.z.m.capR) && CycOk(v.z, k3, c.tags) && k3.i.ready { Starts(v.z, k3, c.tags); }
    }
  }

  lemma StaleFacts(v: DSys, tags: nat)
    requires DFormed(v, tags) && FetchInv(v, tags) && Chained(v) && v.calm == 2
    ensures v.prev == (v.z.y.ends - 1) % SLOTS && v.q.outA == v.a[v.prev] && v.q.outS == v.s[v.prev]
  {
  }

  lemma Starts(z: Sys, k: Cyc, tags: nat)
    requires CycOk(z, k, tags) && z.m.valid && (z.m.capW || z.m.capR) && !InOp(z.s) && !z.s.endR && k.i.ready
    ensures Start(k.c, z.s, k.i)
  {
  }
}
