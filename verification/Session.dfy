/** Whole sessions of the driver: any list of calls, each one playing its register writes with idle
    cycles in between, and polling if it enables. Every such session is one the lockstep and
    descriptor results speak about, so the driver's own counter, the hardware index, the descriptor
    an operation runs with and the row the benchmark reads can be compared call by call. */
module Session {
  import opened RqModel
  import opened Manager
  import opened Lockstep
  import opened Descriptors
  import opened Driver

  /** One call: its order, the address of its mapping, the cycles up to its last write, and those in
      which it polls. */
  datatype Call = Call(d: Order, phys: nat, writes: seq<Cyc>, polls: seq<Cyc>)

  /** The cycles contain exactly the accesses of the script, in order; all others are idle. */
  predicate Plays(ks: seq<Cyc>, script: seq<Access>) {
    if ks == [] then script == []
    else
      var k := ks[|ks| - 1];
      (!k.a.en && Plays(ks[..|ks| - 1], script))
      || (script != [] && k.a == script[|script| - 1] && Plays(ks[..|ks| - 1], script[..|script| - 1]))
  }

  predicate OnlyPolls(ks: seq<Cyc>) { forall k :: 0 <= k < |ks| ==> !ks[k].a.en || Polls(ks[k].a) }

  /** The inputs of every cycle are what the wires carry in that cycle. */
  predicate Wired(w: DSys, ks: seq<Cyc>, tags: nat)
    requires DFormed(w, tags)
  {
    ks == [] || (Wired(w, ks[..|ks| - 1], tags) && CycOk(RunD(w, ks[..|ks| - 1], tags).z, ks[|ks| - 1], tags))
  }

  function Counter(n: nat): nat { if n == 0 then 0 else Bump(Counter(n - 1)) }

  /** One call of the driver from state w, with its counter at n: it returns at once, or when it has
      polled the engine idle. */
  predicate CallOk(w: DSys, x: Call, n: nat, tags: nat)
    requires DFormed(w, tags)
  {
    && OrderOk(x.d) && Plays(x.writes, Script(x.d, x.phys, n)) && OnlyPolls(x.polls)
    && Wired(w, x.writes + x.polls, tags)
    && (if x.d.enable then RunD(w, x.writes + x.polls, tags).z.y.phase == Free else x.polls == [])
  }

  function Cycles(xs: seq<Call>): seq<Cyc> {
    if xs == [] then [] else Cycles(xs[..|xs| - 1]) + (xs[|xs| - 1].writes + xs[|xs| - 1].polls)
  }

  function After(c: Cfg, xs: seq<Call>): (w: DSys)
    ensures DFormed(w, c.tags)
  {
    RunD(BootD(c), Cycles(xs), c.tags)
  }

  predicate SessionOk(c: Cfg, xs: seq<Call>) {
    xs == [] || (SessionOk(c, xs[..|xs| - 1])
                 && CallOk(After(c, xs[..|xs| - 1]), xs[|xs| - 1], Counter(|xs| - 1), c.tags))
  }

  lemma {:induction false} CounterIs(n: nat)
    ensures Counter(n) == n % SLOTS
  {
    if n > 0 {
      CounterIs(n - 1);
      SameMod((n - 1) % SLOTS + 1, n, -((n - 1) / SLOTS));
    }
  }

  lemma {:induction false} RunDJoins(w: DSys, a: seq<Cyc>, b: seq<Cyc>, tags: nat)
    requires DFormed(w, tags)
    ensures RunD(w, a + b, tags) == RunD(RunD(w, a, tags), b, tags)
    ensures TableDriven(w, a + b, tags) <==> TableDriven(w, a, tags) && TableDriven(RunD(w, a, tags), b, tags)
    ensures Wired(w, a + b, tags) <==> Wired(w, a, tags) && Wired(RunD(w, a, tags), b, tags)
  {
    hide NextD, CycOk, TableDriverOk;
    if b == [] {
      assert a + b == a;
    } else {
      RunDJoins(w, a, b[..|b| - 1], tags);
      assert (a + b)[..|a + b| - 1] == a + b[..|b| - 1];
    }
  }

  // ---------------------------------------------------------------- the writes of a call

  /** Where a call from state v stands after k of its accesses. */
  predicate Underway(v: DSys, w: DSys, d: Order, phys: nat, k: nat)
    requires d.index < |v.a| && d.index < |v.s|
  {
    var y, m, e, p := w.z.y, v.z.y.calls, v.z.y.ends, v.z.y.pending;
    && y.calls == m + (if k >= 8 then 1 else 0)
    && (if k == 9 then y.phase == Polling else if k == 8 then y.phase == Armed else y.phase != Polling)
    && (7 <= k <= 8 ==> w.calm >= k - 6)
    && w.a == (if k >= 5 then v.a[d.index := Bytes(phys, 8)] else v.a)
    && w.s == (if k >= 6 then v.s[d.index := Bytes(d.length, 8)] else v.s)
    && (k < 9 ==> y.ends == e && y.pending == p + (if k == 8 then 1 else 0))
    && (k == 9 ==> y.pending == 0 && y.polled.None? && w.mark == e && y.goal == e + p % SLOTS + 1)
  }

  lemma WholeWord(addr: nat, v: nat)
    requires addr < 0x1_0000
    ensures forall was: seq<nat> | |was| == 8 :: Merge(was, Store64(addr, v).din, Store64(addr, v).we) == Bytes(v, 8)
  {
  }

  /** The two descriptor writes, and nothing else in the script, touch the table. */
  lemma ScriptTouches(d: Order, phys: nat, n: nat, k: nat)
    requires OrderOk(d) && k < |Script(d, phys, n)|
    ensures var a := Script(d, phys, n)[k];
      && (Touches(a) <==> k == 4 || k == 5)
      && (k == 4 ==> Eff(a.addr) % 8 == 0 && SlotOf(a.addr, 0) == d.index && a == Store64(a.addr, phys))
      && (k == 5 ==> Eff(a.addr) % 8 == 1 && SlotOf(a.addr, 1) == d.index && a == Store64(a.addr, d.length))
  {
    hide Bytes, Direction;
    var i := d.index;
    assert Eff(TABLE + 8 + 8 * i) == 8 * i && Eff(TABLE + 9 + 8 * i) == 8 * i + 1;
    assert SlotOf(TABLE + 8 + 8 * i, 0) == i && SlotOf(TABLE + 9 + 8 * i, 1) == i;
  }

  /** Neither an idle cycle nor a poll writes anything. */
  lemma PollWrites(a: Access)
    requires AccessOk(a) && (!a.en || Polls(a))
    ensures !Touches(a) && !WritesLast(a) && !WritesControl(a)
  {
  }

  lemma TableWrite(w: DSys, d: Order, phys: nat, n: nat, k: nat)
    requires OrderOk(d) && k < |Script(d, phys, n)| && |w.a| == |w.s| == SLOTS && Words(w.a) && Words(w.s)
    ensures var a := Script(d, phys, n)[k];
      && Stored(w.a, a, 0) == (if k == 4 then w.a[d.index := Bytes(phys, 8)] else w.a)
      && Stored(w.s, a, 1) == (if k == 5 then w.s[d.index := Bytes(d.length, 8)] else w.s)
  {
    hide Bytes, Script, Merge, Eff, SlotOf, Store64;
    var a := Script(d, phys, n)[k];
    ScriptTouches(d, phys, n, k);
    if k == 4 { WholeWord(a.addr, phys); }
    if k == 5 { WholeWord(a.addr, d.length); }
  }

  lemma SameEnable(d: Order, phys: nat, n: nat, m: nat)
    requires OrderOk(d) && d.enable
    ensures Script(d, phys, n)[8] == Script(d, phys, m)[8]
  {
  }

  /** The next access of the script. */
  lemma ScriptStep(v: DSys, w: DSys, d: Order, phys: nat, k: nat, c: Cyc, tags: nat)
    requires DFormed(v, tags) && DFormed(w, tags) && LockInv(w.z) && FetchInv(w, tags) && CycOk(w.z, c, tags)
    requires OrderOk(d) && k < |Script(d, phys, v.z.y.calls % SLOTS)| && c.a == Script(d, phys, v.z.y.calls % SLOTS)[k]
    requires Underway(v, w, d, phys, k)
    ensures TableDriverOk(w, c.a) && Underway(v, NextD(w, c, tags), d, phys, k + 1)
  {
    hide NextTable, Stored, EndOp, Start, InOp, FetchInv, LockInv, Script, Next, NextCtl, NextStore, Enables,
         WritesLast, WritesControl, DriverOk, Bytes, Eff, Words;
    var m := v.z.y.calls;
    if k == 8 { SameEnable(d, phys, m % SLOTS, w.z.y.calls % SLOTS); }
    CallIsDriven(d, phys, w.z, k);
    ScriptTouches(d, phys, m % SLOTS, k);
    ControlFacts(w.z, c, tags);
    TableWrite(w, d, phys, m % SLOTS, k);
    if k == 8 { EnableFrom(w.z, c, tags); }
  }

  lemma IdleStep(v: DSys, w: DSys, d: Order, phys: nat, k: nat, c: Cyc, tags: nat)
    requires DFormed(v, tags) && DFormed(w, tags) && LockInv(w.z) && FetchInv(w, tags) && CycOk(w.z, c, tags)
    requires !c.a.en && OrderOk(d)
    requires k <= 9 && Underway(v, w, d, phys, k)
    ensures TableDriverOk(w, c.a) && Underway(v, NextD(w, c, tags), d, phys, k)
  {
    hide NextTable, Stored, EndOp, Start, InOp, FetchInv, LockInv, Next, NextCtl, NextStore, Bytes, Eff, Words,
         Touches;
    PollWrites(c.a);
    ControlFacts(w.z, c, tags);
    StoredSame(w.a, c.a, 0);
    StoredSame(w.s, c.a, 1);
  }

  /** All writes of a call: allowed where they happen, and the call is underway. */
  lemma {:induction false} PlayRun(w: DSys, x: Call, ks: seq<Cyc>, k: nat, tags: nat)
    requires DFormed(w, tags) && LockInv(w.z) && FetchInv(w, tags) && OrderOk(x.d) && w.z.y.phase != Polling
    requires var script := Script(x.d, x.phys, w.z.y.calls % SLOTS); k <= |script| && Plays(ks, script[..k])
    requires Wired(w, ks, tags)
    ensures TableDriven(w, ks, tags) && Underway(w, RunD(w, ks, tags), x.d, x.phys, k)
    ensures LockInv(RunD(w, ks, tags).z) && FetchInv(RunD(w, ks, tags), tags)
  {
    hide NextD, LockInv, FetchInv, Script, CycOk, TableDriverOk, Underway;
    if ks == [] {
      NothingYet(w, x.d, x.phys);
    } else {
      var script, pre, c := Script(x.d, x.phys, w.z.y.calls % SLOTS), ks[..|ks| - 1], ks[|ks| - 1];
      if !c.a.en && Plays(pre, script[..k]) {
        PlayRun(w, x, pre, k, tags);
        IdleStep(w, RunD(w, pre, tags), x.d, x.phys, k, c, tags);
      } else {
        assert script[..k][..k - 1] == script[..k - 1] && script[..k][k - 1] == script[k - 1];
        PlayRun(w, x, pre, k - 1, tags);
        ScriptStep(w, RunD(w, pre, tags), x.d, x.phys, k - 1, c, tags);
      }
      TableStep(RunD(w, pre, tags), c, tags);
    }
  }

  lemma NothingYet(w: DSys, d: Order, phys: nat)
    requires d.index < |w.a| && d.index < |w.s| && w.z.y.phase != Polling
    ensures Underway(w, w, d, phys, 0)
  {
  }

  /** What polling leaves alone. */
  predicate Waits(v: DSys, w: DSys) {
    && v.z.y.calls == w.z.y.calls && v.z.y.pending == w.z.y.pending && v.z.y.goal == w.z.y.goal
    && v.mark == w.mark && v.a == w.a && v.s == w.s && (v.z.y.phase == Polling || v.z.y.phase == Free)
  }

  lemma PollStep(w: DSys, v: DSys, c: Cyc, tags: nat)
    requires DFormed(w, tags) && DFormed(v, tags) && Waits(v, w) && CycOk(v.z, c, tags) && (!c.a.en || Polls(c.a))
    ensures TableDriverOk(v, c.a) && Waits(NextD(v, c, tags), w)
  {
    hide NextTable, Stored, EndOp, Start, Next, NextCtl, NextStore, Touches, Words;
    PollWrites(c.a);
    StoredSame(v.a, c.a, 0);
    StoredSame(v.s, c.a, 1);
  }

  lemma {:induction false} PollRun(w: DSys, ks: seq<Cyc>, tags: nat)
    requires DFormed(w, tags) && LockInv(w.z) && FetchInv(w, tags) && w.z.y.phase == Polling
    requires OnlyPolls(ks) && Wired(w, ks, tags)
    ensures TableDriven(w, ks, tags) && Waits(RunD(w, ks, tags), w)
    ensures LockInv(RunD(w, ks, tags).z) && FetchInv(RunD(w, ks, tags), tags)
  {
    hide NextD, LockInv, FetchInv, CycOk, TableDriverOk;
    if ks != [] {
      var pre, c := ks[..|ks| - 1], ks[|ks| - 1];
      PollRun(w, pre, tags);
      PollStep(w, RunD(w, pre, tags), c, tags);
      TableStep(RunD(w, pre, tags), c, tags);
    }
  }

  // ---------------------------------------------------------------- whole sessions

  /** Between two calls. */
  predicate Returned(w: DSys, m: nat, tags: nat)
    requires DFormed(w, tags)
  {
    LockInv(w.z) && FetchInv(w, tags) && w.z.y.calls == m && w.z.y.phase != Polling
  }

  /** One call from start to return. */
  lemma CallRun(w: DSys, x: Call, m: nat, tags: nat)
    requires DFormed(w, tags) && Returned(w, m, tags) && CallOk(w, x, m % SLOTS, tags)
    ensures var v := RunD(w, x.writes + x.polls, tags);
      && TableDriven(w, x.writes + x.polls, tags) && Returned(v, m + 1, tags)
      && (x.d.enable ==> v.z.y.phase == Free && v.z.y.pending == 0 && v.z.y.goal > 0)
      && (!x.d.enable ==> v.z.y.pending > 0)
  {
    hide NextD, LockInv, FetchInv, Script, CycOk, TableDriven, RunD, Wired, Plays;
    var script := Script(x.d, x.phys, m % SLOTS);
    assert script[..|script|] == script;
    RunDJoins(w, x.writes, x.polls, tags);
    PlayRun(w, x, x.writes, |script|, tags);
    var u := RunD(w, x.writes, tags);
    if x.d.enable {
      PollRun(u, x.polls, tags);
    } else {
      assert x.writes + x.polls == x.writes;
    }
  }

  lemma {:induction false} SessionRun(c: Cfg, xs: seq<Call>)
    requires SessionOk(c, xs)
    ensures TableDriven(BootD(c), Cycles(xs), c.tags) && Returned(After(c, xs), |xs|, c.tags)
    ensures var y := After(c, xs).z.y;
      xs != [] ==> if xs[|xs| - 1].d.enable then y.phase == Free && y.pending == 0 && y.goal > 0 else y.pending > 0
    ensures xs == [] ==> After(c, xs).z.y.pending == 0
  {
    hide NextD, LockInv, FetchInv, CallOk;
    if xs == [] {
      BootOk(c);
      BootFetched(c);
    } else {
      var pre, x := xs[..|xs| - 1], xs[|xs| - 1];
      SessionRun(c, pre);
      CounterIs(|xs| - 1);
      CallRun(After(c, pre), x, |xs| - 1, c.tags);
      RunDJoins(BootD(c), Cycles(pre), x.writes + x.polls, c.tags);
    }
  }

  /** Operation m is the last one whose statistics went to the slot. */
  predicate LastWriter(ends: nat, slot: nat, m: nat) {
    m < ends && Bump(m) == slot && forall j :: m < j < ends ==> Bump(j) != slot
  }

  /** Driver and hardware in every session: at the return of an enabled call all its operations are
      over, the hardware index is the driver's counter, and the statistics row that the benchmark
      reads for the call's index is the one of the call iff the index was the driver's counter. */
  lemma CallReturns(c: Cfg, xs: seq<Call>)
    requires SessionOk(c, xs) && xs != [] && xs[|xs| - 1].d.enable
    ensures var z, n, d := After(c, xs).z, Counter(|xs| - 1), xs[|xs| - 1].d;
      && Driven(Boot(c), Cycles(xs), c.tags) && z == RunSys(Boot(c), Cycles(xs), c.tags)
      && z.m.active == Counter(|xs|) == z.y.calls % SLOTS && z.y.starts == z.y.ends > 0
      && |z.y.hist| == z.y.ends && z.t.ram[Bump(n)] == z.y.hist[z.y.ends - 1]
      && (LastWriter(z.y.ends, Bump(d.index), z.y.ends - 1) <==> d.index == n)
  {
    hide NextD, FetchInv, TableDriven, RunD, Driven, RunSys, Wired, Plays;
    SessionRun(c, xs);
    RunParts(BootD(c), Cycles(xs), c.tags);
    var z := After(c, xs).z;
    CounterIs(|xs| - 1);
    CounterIs(|xs|);
    BetweenCalls(z);
    ActiveIs(z);
    SlotsAgree(z.y.ends, z.y.calls);
    LastSlot(z.y.ends, Counter(|xs| - 1), xs[|xs| - 1].d.index);
  }

  lemma SlotsAgree(ends: nat, calls: nat)
    requires ends % SLOTS == calls % SLOTS && ends > 0 && calls > 0
    ensures (ends - 1) % SLOTS == (calls - 1) % SLOTS
  {
    SameMod(ends - 1, calls - 1, ends / SLOTS - calls / SLOTS);
  }

  lemma LastSlot(ends: nat, n: nat, i: nat)
    requires ends > 0 && n < SLOTS && i < SLOTS && (ends - 1) % SLOTS == n
    ensures Bump(n) == ends % SLOTS && (LastWriter(ends, Bump(i), ends - 1) <==> i == n)
  {
    SameMod(n + 1, ends, -((ends - 1) / SLOTS));
    BumpApart(i, n);
    hide Bump;
    assert Bump(ends - 1) == Bump(n) by { BumpOf(ends - 1, n); }
  }

  lemma BumpApart(i: nat, n: nat)
    requires i < SLOTS && n < SLOTS
    ensures Bump(i) == Bump(n) <==> i == n
  {
  }

  lemma BumpOf(m: nat, n: nat)
    requires m % SLOTS == n
    ensures Bump(m) == Bump(n)
  {
    SameMod(n + 1, m + 1, -(m / SLOTS));
  }

  /** A call that enables after one that did: while it polls, its operation starts on the slot of the
      driver's counter, with the address and the size last stored there: the call's own if its index is
      that counter, and else what the slot held before the call. */
  lemma CallDescriptor(c: Cfg, xs: seq<Call>, x: Call, k: Cyc)
    requires SessionOk(c, xs) && (xs != [] ==> xs[|xs| - 1].d.enable)
    requires OrderOk(x.d) && x.d.enable && OnlyPolls(x.polls)
    requires Plays(x.writes, Script(x.d, x.phys, Counter(|xs|))) && Wired(After(c, xs), x.writes + x.polls, c.tags)
    ensures var w, n := RunD(After(c, xs), x.writes + x.polls, c.tags), Counter(|xs|);
      CycOk(w.z, k, c.tags) && Start(k.c, w.z.s, k.i) ==>
        && w.z.m.active == n && w.q.outA == w.a[n] && w.q.outS == w.s[n]
        && w.q.outA == (if x.d.index == n then Bytes(x.phys, 8) else After(c, xs).a[n])
        && w.q.outS == (if x.d.index == n then Bytes(x.d.length, 8) else After(c, xs).s[n])
  {
    hide NextD, LockInv, FetchInv, Script, TableDriven, RunD, Wired, Plays, Start, InOp, SessionOk, Cycles, CallOk,
         CycOk, Bytes, OnlyPolls, Words, TableOk;
    var v, script := After(c, xs), Script(x.d, x.phys, Counter(|xs|));
    SessionRun(c, xs);
    CounterIs(|xs|);
    assert script[..|script|] == script;
    RunDJoins(v, x.writes, x.polls, c.tags);
    PlayRun(v, x, x.writes, |script|, c.tags);
    var u := RunD(v, x.writes, c.tags);
    PollRun(u, x.polls, c.tags);
    var w := RunD(u, x.polls, c.tags);
    if CycOk(w.z, k, c.tags) && Start(k.c, w.z.s, k.i) {
      StartFacts(w.z, k, c.tags);
      NotChained(w, c.tags);
      BoundaryEnds(v.z);
      ActiveIs(w.z);
    }
  }

  /** A running engine has not reached its goal. */
  lemma NotChained(w: DSys, tags: nat)
    requires DFormed(w, tags) && LockInv(w.z) && FetchInv(w, tags)
    requires w.z.y.phase == Polling && w.z.m.valid && w.z.y.goal == w.mark + 1
    ensures w.z.y.ends == w.mark && w.q.outA == w.a[w.z.m.active] && w.q.outS == w.s[w.z.m.active]
  {
    hide Landed, InOp, Stale, Due;
  }

  lemma BoundaryEnds(z: Sys)
    requires StoreOk(z.t) && LockInv(z) && z.y.phase != Polling && z.y.pending == 0
    ensures z.y.ends % SLOTS == z.y.calls % SLOTS
  {
    hide Landed, InOp;
  }
}
