/** The whole way from the host to the registers and back: request, byte lanes, registers of the manager,
    completion, and the polling driver that reads it. */
module HostPath {
  import opened Hw
  import opened RqModel
  import opened Manager
  import opened Completer
  import opened AckPath
  import opened Lockstep
  import opened Descriptors
  import opened Driver

  // ---------------------------------------------------------------- bytes written

  /** Bytes that 16 bits of word address reach. */
  const SPACE := 0x8_0000

  /** The request as the manager sees it, which drops the upper address bits. */
  function Local(r: Req): (l: Req)
    ensures ReqOk(r) ==> ReqOk(l) && Lanes(l) == Lanes(r) && LaneData(l) == LaneData(r)
    ensures l.addr / 2 == Bus(r.addr) && l.addr / 2 < 0x1_0000 && l.addr % 2 == r.addr % 2
    ensures l.cnt == r.cnt && l.first == r.first && l.second == r.second
  {
    r.(addr := r.addr % 0x2_0000)
  }

  /** What an access does to byte x. */
  function Effect(a: Access, x: nat): Byte {
    if a.en && |a.we| == |a.din| == 8 && x / 8 == a.addr && a.we[x % 8] then Set(a.din[x % 8]) else Kept
  }

  function Content(b: Byte): seq<nat> { if b.Set? then [b.value] else [] }

  /** The values that a list of accesses gives to byte x, in order. */
  function Values(accs: seq<Access>, x: nat): seq<nat> {
    if accs == [] then [] else Values(accs[..|accs| - 1], x) + Content(Effect(accs[|accs| - 1], x))
  }

  predicate Fine(rs: seq<Req>) { forall k :: 0 <= k < |rs| ==> ReqOk(rs[k]) && 1 <= rs[k].cnt <= 2 }

  /** The values that a list of write requests asks for. */
  function Requested(rs: seq<Req>, x: nat): seq<nat>
    requires Fine(rs)
  {
    if rs == [] then [] else Requested(rs[..|rs| - 1], x) + Content(Asked(Local(rs[|rs| - 1]), x))
  }

  /** The requests that land where they should. */
  predicate Straight(r: Req) { r.cnt == 1 || r.addr % 2 == 0 || NothingEnabled(r) }

  predicate AllStraight(rs: seq<Req>) { forall k :: 0 <= k < |rs| ==> Straight(rs[k]) }

  lemma ValuesMore(accs: seq<Access>, a: Access, x: nat)
    ensures Values(accs + [a], x) == Values(accs, x) + Content(Effect(a, x))
  {
    assert (accs + [a])[..|accs|] == accs;
  }

  lemma RequestedMore(rs: seq<Req>, r: Req, x: nat)
    requires Fine(rs) && ReqOk(r) && 1 <= r.cnt <= 2
    ensures Requested(rs + [r], x) == Requested(rs, x) + Content(Asked(Local(r), x))
  {
    assert (rs + [r])[..|rs|] == rs;
  }

  /** In the store cycle of a write the access does what the request asks for, and in all other cycles
      nothing. */
  lemma StoreDoes(b: Bar, x: nat)
    requires ReqOk(b.req) && x < SPACE && (b.cs == StoreWr ==> 1 <= b.req.cnt <= 2 && Straight(b.req))
    ensures Effect(AccessOf(b), x) == if b.cs == StoreWr then Asked(Local(b.req), x) else Kept
  {
    hide Asked, Local, Lanes, LaneData, Bus, Octets;
    if b.cs == StoreWr {
      Lands(Local(b.req), x);
      Within(x, Local(b.req).addr / 2);
    } else {
      assert (OFF4 + OFF4)[x % 8] == false;
    }
  }

  lemma Within(x: nat, u: nat)
    requires x < SPACE && u < 0x1_0000
    ensures x < APERTURE && u % 0x100_0000 == u
  {
  }

  predicate WriteInv(b: Bar)
    requires BarOk(b)
  {
    && Fine(b.l.wrote) && (b.cs == StoreWr ==> b.l.wrote != [] && b.req == b.l.wrote[|b.l.wrote| - 1])
    && (AllStraight(b.l.wrote) ==>
          forall x :: 0 <= x < SPACE ==> Values(b.l.drove + [AccessOf(b)], x) == Requested(b.l.wrote, x))
  }

  lemma WriteStep(b: Bar, o: Obs)
    requires BarOk(b) && ObsOk(o) && WriteInv(b)
    ensures WriteInv(NextBar(b, o))
  {
    hide NextReader, NextCpl, Values, Requested, AccessOf, Straight, Rows, InTable, RowOf, Column, Octets;
    var n := NextBar(b, o);
    if AllStraight(n.l.wrote) {
      var taken := b.cs == WaitReq && Proper(BAR0, o.beat, MemWrite);
      assert AllStraight(b.l.wrote) by { assert n.l.wrote[..|b.l.wrote|] == b.l.wrote; }
      assert n.cs == StoreWr ==> n.req == n.l.wrote[|n.l.wrote| - 1];
      forall x | 0 <= x < SPACE ensures Values(n.l.drove + [AccessOf(n)], x) == Requested(n.l.wrote, x) {
        ValuesMore(n.l.drove, AccessOf(n), x);
        StoreDoes(n, x);
        if taken { RequestedMore(b.l.wrote, o.beat.req, x); }
      }
    }
  }

  /** In every run, byte by byte: the accesses of all cycles up to now give each byte of the space exactly the
      values that the writes offered to the waiting completer ask for, each once and in order, if those
      land where they should. */
  lemma WritesDelivered(b: Bar, os: seq<Obs>)
    requires AckPath.Boot(b) && AllOk(os)
    ensures var n := RunBar(b, os); var l := n.l;
      && |l.drove| == |os| && (forall k :: 0 <= k < |os| ==> l.drove[k] == AccessOf(RunBar(b, os[..k])))
      && Fine(l.wrote)
      && (AllStraight(l.wrote) ==>
            forall x :: 0 <= x < SPACE ==> Values(l.drove + [AccessOf(n)], x) == Requested(l.wrote, x))
  {
    WriteRun(b, os);
    DroveAll(b, os);
  }

  /** The ledger holds the accesses of all cycles. */
  lemma {:induction false} DroveAll(b: Bar, os: seq<Obs>)
    requires AckPath.Boot(b) && AllOk(os)
    ensures var l := RunBar(b, os).l;
      |l.drove| == |os| && forall k :: 0 <= k < |os| ==> l.drove[k] == AccessOf(RunBar(b, os[..k]))
  {
    hide NextBar, ObsOk, AccessOf;
    if os != [] {
      var pre := os[..|os| - 1];
      DroveAll(b, pre);
      Drives(RunBar(b, pre), os[|os| - 1]);
      forall k | 0 <= k < |os| ensures RunBar(b, os).l.drove[k] == AccessOf(RunBar(b, os[..k])) {
        if k < |pre| { assert pre[..k] == os[..k]; }
      }
    }
  }

  lemma Drives(b: Bar, o: Obs)
    requires BarOk(b) && ObsOk(o)
    ensures NextBar(b, o).l.drove == b.l.drove + [AccessOf(b)]
  {
    hide NextReader, NextCpl, AccessOf, RowOf, Column;
  }

  lemma {:induction false} WriteRun(b: Bar, os: seq<Obs>)
    requires AckPath.Boot(b) && AllOk(os)
    ensures WriteInv(RunBar(b, os))
  {
    hide NextBar, ObsOk, WriteInv;
    if os == [] {
      NothingWritten(b);
    } else {
      WriteRun(b, os[..|os| - 1]);
      WriteStep(RunBar(b, os[..|os| - 1]), os[|os| - 1]);
    }
  }

  lemma NothingWritten(b: Bar)
    requires AckPath.Boot(b)
    ensures WriteInv(b)
  {
    hide Effect, Lanes, LaneData;
    forall x | 0 <= x < SPACE ensures Values([] + [AccessOf(b)], x) == [] {
      ValuesMore([], AccessOf(b), x);
      StoreDoes(b, x);
    }
  }

  // ---------------------------------------------------------------- registers and memories

  function LastOf(s: seq<nat>, was: nat): nat { if s == [] then was else s[|s| - 1] }

  /** Byte k of word u after the accesses, was before any of them. */
  function Held(accs: seq<Access>, u: nat, k: nat, was: nat): nat { LastOf(Values(accs, 8 * u + k), was) }

  lemma HeldMore(accs: seq<Access>, a: Access, u: nat, k: nat, was: nat)
    requires k < 8 && AccessOk(a)
    ensures Held(accs + [a], u, k, was) == if a.en && a.addr == u && a.we[k] then a.din[k] else Held(accs, u, k, was)
  {
    hide Values;
    ValuesMore(accs, a, 8 * u + k);
  }

  /** Stop index, direction and mode are the last bytes written to them. */
  predicate ControlHeld(accs: seq<Access>, m: Ctl) {
    var lo, hi, b := Held(accs, TABLE + 1, 0, 0), Held(accs, TABLE + 1, 1, 0), Held(accs, TABLE, 0, 8);
    && lo < 256 && m.last == lo + 256 * (hi % 4)
    && m.capW == Bit(b, 2) && m.capR == Bit(b, 3) && m.mode == b / 16 % 4
  }

  lemma ControlHeldStep(accs: seq<Access>, m: Ctl, a: Access, end: bool)
    requires AccessOk(a) && ControlHeld(accs, m)
    ensures ControlHeld(accs + [a], NextCtl(m, a, end))
  {
    hide Held, Bit;
    HeldMore(accs, a, TABLE + 1, 0, 0);
    HeldMore(accs, a, TABLE + 1, 1, 0);
    HeldMore(accs, a, TABLE, 0, 8);
  }

  /** So are the bytes of the configuration registers. */
  predicate ConfigHeld(accs: seq<Access>, g: Config, window: seq<nat>)
    requires ConfigOk(g) && |window| == 8
  {
    forall j, k :: 0 <= j < 5 && 0 <= k < 8 ==> g.regs[j][k] == Held(accs, TABLE + 3 + j, k, Default(window, j, k))
  }

  /** The window has a default, the other registers start at zero. */
  function Default(window: seq<nat>, j: nat, k: nat): nat
    requires k < |window|
  {
    if j == 0 then window[k] else 0
  }

  lemma ConfigHeldStep(accs: seq<Access>, g: Config, window: seq<nat>, a: Access)
    requires AccessOk(a) && ConfigOk(g) && |window| == 8 && ConfigHeld(accs, g, window)
    ensures ConfigHeld(accs + [a], NextConfig(g, a), window)
  {
    hide Held, Default, Merge;
    forall j, k | 0 <= j < 5 && 0 <= k < 8
      ensures NextConfig(g, a).regs[j][k] == Held(accs + [a], TABLE + 3 + j, k, Default(window, j, k))
    {
      HeldMore(accs, a, TABLE + 3 + j, k, Default(window, j, k));
      MergeAt(g.regs[j], a, k);
    }
  }

  lemma MergeAt(was: seq<nat>, a: Access, k: nat)
    requires |was| == 8 && AccessOk(a) && k < 8
    ensures Merge(was, a.din, a.we)[k] == if a.we[k] then a.din[k] else was[k]
  {
  }

  /** And those of a column of the descriptor table. */
  predicate ColumnHeld(accs: seq<Access>, mem: seq<seq<nat>>, word: nat)
    requires |mem| == SLOTS && Words(mem)
  {
    forall j, k :: 0 <= j < SLOTS && 0 <= k < 8 ==> mem[j][k] == Held(accs, TABLE + 8 + 8 * j + word, k, 0)
  }

  /** The place of a word in the table. The range check lets one word too many pass: the one behind the table
      stands for the address of slot 0. */
  lemma Placed(u: nat, j: nat, word: nat)
    requires u < 0x1_0000 && j < SLOTS && word < 8
    ensures InRange(u) && Eff(u) % 8 == word && SlotOf(u, word) == j
       <==> u == TABLE + 8 + 8 * j + word || (u == TABLE + 8 + 8 * SLOTS && word == j == 0)
  {
    if u >= TABLE + 8 {
      var e := u - TABLE - 8;
      assert Eff(u) == e;
      if e % 8 == word { assert (e - word) / 8 == e / 8; }
    }
  }

  lemma ColumnHeldStep(accs: seq<Access>, mem: seq<seq<nat>>, word: nat, a: Access)
    requires AccessOk(a) && |mem| == SLOTS && Words(mem) && word < 8 && ColumnHeld(accs, mem, word)
    requires a.en ==> TABLE <= a.addr < TABLE + 8 + 8 * SLOTS
    ensures ColumnHeld(accs + [a], Stored(mem, a, word), word)
  {
    hide Held, Eff, SlotOf, InRange;
    forall j, k | 0 <= j < SLOTS && 0 <= k < 8
      ensures Stored(mem, a, word)[j][k] == Held(accs + [a], TABLE + 8 + 8 * j + word, k, 0)
    {
      HeldMore(accs, a, TABLE + 8 + 8 * j + word, k, 0);
      if a.en { Placed(a.addr, j, word); }
    }
  }

  // ---------------------------------------------------------------- completer, manager and driver

  datatype Host = Host(b: Bar, w: DSys, g: Config)

  /** One cycle: the request stream, the completion handshake, and the requester's inputs. */
  datatype Tick = Tick(beat: Completer.Beat, ready: bool, other: nat, c: Cfg, i: In, stats: seq<nat>)

  predicate HostOk(h: Host, tags: nat) { BarOk(h.b) && DFormed(h.w, tags) && ConfigOk(h.g) }

  predicate TickOk(h: Host, t: Tick, tags: nat) {
    var m := h.w.z.m;
    && t.c.tags == tags && |t.stats| == 5 && t.i.valid == m.valid && t.c.doesWrite == m.capW && t.c.doesRead == m.capR
    && ReqOk(t.beat.req) && InTable(t.beat.req.addr)
  }

  /** A read that shows the status word. */
  predicate IsPoll(r: Req) { Bus(r.addr) == TABLE && (r.cnt == 2 || r.addr % 2 == 0) }

  /** What comes back to the driver in this cycle. */
  function Back(h: Host, t: Tick): Option<nat> {
    if h.b.cs == SendCpl && t.ready && IsPoll(h.b.req) then Some(h.b.cpl.data) else None
  }

  function ObsOf(h: Host, t: Tick): Obs { Obs(t.beat, t.ready, h.w.z.m, h.w.z.t.ram, t.other) }

  function CycOf(h: Host, t: Tick): Cyc
    requires BarOk(h.b)
  {
    Cyc(AccessOf(h.b), t.c, t.i, t.stats, Back(h, t))
  }

  predicate CanStep(h: Host, t: Tick, tags: nat)
    requires HostOk(h, tags)
  {
    ObsOk(ObsOf(h, t)) && CycOk(h.w.z, CycOf(h, t), tags)
  }

  function NextHost(h: Host, t: Tick, tags: nat): (r: Host)
    requires HostOk(h, tags) && CanStep(h, t, tags)
    ensures HostOk(r, tags)
  {
    Host(NextBar(h.b, ObsOf(h, t)), NextD(h.w, CycOf(h, t), tags), NextConfig(h.g, AccessOf(h.b)))
  }

  predicate BarInv(b: Bar)
    requires BarOk(b)
  {
    AckInv(b) && PathInv(b) && Paired(b) && SentInv(b) && WriteInv(b)
  }

  lemma BarStep(b: Bar, o: Obs)
    requires BarOk(b) && ObsOk(o) && BarInv(b)
    ensures BarInv(NextBar(b, o))
  {
    hide NextBar, AckInv, PathInv, Paired, SentInv, WriteInv, ObsOk;
    AckStep(b, o);
    PathStep(b, o);
    PairStep(b, o);
    SentStep(b, o);
    WriteStep(b, o);
  }

  /** A poll in course has met the status word that the tally remembers, and nothing has been written
      since. */
  predicate PollInv(b: Bar, z: Sys) {
    b.cs == WaitCpl || b.cs == SendCpl ==>
      && (IsPoll(b.req) ==> z.y.polled == Some(EngineWord(b.l.at, TABLE)))
      && b.l.at.last == z.m.last
  }

  predicate HeldInv(accs: seq<Access>, w: DSys, g: Config, window: seq<nat>, tags: nat)
    requires DFormed(w, tags) && ConfigOk(g) && |window| == 8
  {
    ControlHeld(accs, w.z.m) && ConfigHeld(accs, g, window) && ColumnHeld(accs, w.a, 0) && ColumnHeld(accs, w.s, 1)
  }

  predicate HostInv(h: Host, window: seq<nat>, tags: nat)
    requires HostOk(h, tags) && |window| == 8
  {
    && BarInv(h.b) && LockInv(h.w.z) && FetchInv(h.w, tags) && CtlOk(h.w.z.m) && PollInv(h.b, h.w.z)
    && HeldInv(h.b.l.drove, h.w, h.g, window, tags)
  }

  /** What comes back is what the poll has met. */
  lemma BackIsPolled(h: Host, t: Tick, tags: nat)
    requires HostOk(h, tags) && BarInv(h.b) && PollInv(h.b, h.w.z) && Back(h, t).Some?
    ensures Back(h, t) == h.w.z.y.polled && Back(h, t).value % 2 == B2N(h.b.l.at.enable)
  {
    hide AckInv, PathInv, Paired, WriteInv, Bus, EngineWord, Half;
    assert Carries(h.b);
    StatusWord(h.b.l.at);
    Narrow(h.b.req.addr, h.b.req.cnt, EngineWord(h.b.l.at, TABLE));
  }

  lemma CanAlwaysStep(h: Host, t: Tick, window: seq<nat>, tags: nat)
    requires HostOk(h, tags) && |window| == 8 && HostInv(h, window, tags) && TickOk(h, t, tags)
    ensures CanStep(h, t, tags)
  {
    hide BarInv, LockInv, FetchInv, HeldInv, PollInv, AccessOf, Back;
    if Back(h, t).Some? { BackIsPolled(h, t, tags); }
  }

  lemma PollKept(b: Bar, z: Sys, o: Obs, k: Cyc, tags: nat)
    requires BarOk(b) && ObsOk(o) && Formed(z, tags) && CycOk(z, k, tags) && PollInv(b, z)
    requires k.a == AccessOf(b) && o.m == z.m && (k.back.Some? ==> b.cs == SendCpl && o.ready)
    ensures PollInv(NextBar(b, o), NextSys(z, k, tags))
  {
    hide NextReader, NextCpl, Bus, EngineWord, NextStore, Next, EndOp, Start, Rows, Octets, ReaderOk, Bit, Lanes,
         LaneData, RowOf, Column, Dout;
    assert OFF4 + OFF4 == seq(8, k => false);
  }

  lemma AccessInTable(b: Bar)
    requires BarOk(b) && PathInv(b)
    ensures AccessOf(b).en ==> TABLE <= AccessOf(b).addr < TABLE + 8 + 8 * SLOTS
  {
    hide Bus, Lanes, LaneData, Eff, RowOf;
  }

  lemma HeldKept(h: Host, t: Tick, window: seq<nat>, tags: nat)
    requires HostOk(h, tags) && |window| == 8 && HostInv(h, window, tags) && CanStep(h, t, tags)
    ensures var n := NextHost(h, t, tags); HeldInv(n.b.l.drove, n.w, n.g, window, tags)
  {
    hide AckInv, PathInv, Paired, SentInv, WriteInv, LockInv, FetchInv, PollInv, ControlHeld, ConfigHeld, ColumnHeld,
         NextCtl, NextConfig, Stored, NextTable, NextStore, NextTally, Next, EndOp, AccessOf, NextReader, NextCpl,
         ObsOk, CycOk, RowOf, Column;
    var a := AccessOf(h.b);
    AccessInTable(h.b);
    ControlHeldStep(h.b.l.drove, h.w.z.m, a, EndOp(h.w.z.s));
    ConfigHeldStep(h.b.l.drove, h.g, window, a);
    ColumnHeldStep(h.b.l.drove, h.w.a, 0, a);
    ColumnHeldStep(h.b.l.drove, h.w.s, 1, a);
  }

  lemma CtlKept(z: Sys, k: Cyc, tags: nat)
    requires Formed(z, tags) && CycOk(z, k, tags) && LockInv(z) && CtlOk(z.m) && DriverOk(z, k.a)
    ensures CtlOk(NextSys(z, k, tags).m)
  {
    hide Next, NextStore, NextTally, EndOp, Start, InOp, Counting, Landed, Bit, NextLast;
    LastIs(z, k.a);
  }

  lemma HostStep(h: Host, t: Tick, window: seq<nat>, tags: nat)
    requires HostOk(h, tags) && |window| == 8 && HostInv(h, window, tags) && TickOk(h, t, tags)
    requires TableDriverOk(h.w, AccessOf(h.b))
    ensures CanStep(h, t, tags) && HostInv(NextHost(h, t, tags), window, tags)
  {
    CanAlwaysStep(h, t, window, tags);
    hide BarInv, LockInv, FetchInv, PollInv, HeldInv, NextBar, NextSys, NextTable, Stored, NextConfig, AccessOf, ObsOk,
         CycOk, CtlOk, DriverOk;
    BarStep(h.b, ObsOf(h, t));
    TableStep(h.w, CycOf(h, t), tags);
    CtlKept(h.w.z, CycOf(h, t), tags);
    PollKept(h.b, h.w.z, ObsOf(h, t), CycOf(h, t), tags);
    HeldKept(h, t, window, tags);
  }

  // ---------------------------------------------------------------- runs

  function RunHost(h: Host, ts: seq<Tick>, tags: nat): (r: Host)
    requires HostOk(h, tags)
    ensures HostOk(r, tags)
  {
    if ts == [] then h
    else
      var p := RunHost(h, ts[..|ts| - 1], tags);
      if CanStep(p, ts[|ts| - 1], tags) then NextHost(p, ts[|ts| - 1], tags) else p
  }

  /** The wires carry what they should, and the requests are those of the driver. */
  predicate HostDriven(h: Host, ts: seq<Tick>, tags: nat)
    requires HostOk(h, tags)
  {
    ts == [] || (var p := RunHost(h, ts[..|ts| - 1], tags);
                 && HostDriven(h, ts[..|ts| - 1], tags)
                 && TickOk(p, ts[|ts| - 1], tags) && TableDriverOk(p.w, AccessOf(p.b)))
  }

  /** The cycles of the manager inside. */
  function CycsOf(h: Host, ts: seq<Tick>, tags: nat): seq<Cyc>
    requires HostOk(h, tags)
  {
    if ts == [] then []
    else CycsOf(h, ts[..|ts| - 1], tags) + [CycOf(RunHost(h, ts[..|ts| - 1], tags), ts[|ts| - 1])]
  }

  function BootHost(b: Bar, c: Cfg, window: seq<nat>): (h: Host)
    requires AckPath.Boot(b) && |window| == 8
    ensures HostOk(h, c.tags)
  {
    var zero := seq(8, k => 0);
    Host(b, BootD(c), Config([window, zero, zero, zero, zero], window))
  }

  lemma BootInv(b: Bar, c: Cfg, window: seq<nat>)
    requires AckPath.Boot(b) && |window| == 8
    ensures HostInv(BootHost(b, c, window), window, c.tags)
  {
    hide LockInv, FetchInv;
    BootOk(c);
    BootFetched(c);
    BootBar(b);
    BootHeld(c, window);
  }

  lemma BootBar(b: Bar)
    requires AckPath.Boot(b)
    ensures BarInv(b)
  {
    hide WriteInv;
    NothingWritten(b);
  }

  lemma BootHeld(c: Cfg, window: seq<nat>)
    requires |window| == 8
    ensures var zero := seq(8, k => 0);
      HeldInv([], BootD(c), Config([window, zero, zero, zero, zero], window), window, c.tags)
  {
    assert Bit(8, 3) && !Bit(8, 2) by { assert Pow2(2) == 4 && Pow2(3) == 8; }
  }

  /** In every run that follows the driver the invariants hold, and the manager inside sees one of the
      driven runs that the results on descriptors and on the lockstep speak about. */
  lemma {:induction false} HostRun(h: Host, ts: seq<Tick>, window: seq<nat>, tags: nat)
    requires HostOk(h, tags) && |window| == 8 && HostInv(h, window, tags) && HostDriven(h, ts, tags)
    ensures HostInv(RunHost(h, ts, tags), window, tags)
    ensures var ks := CycsOf(h, ts, tags); TableDriven(h.w, ks, tags) && RunHost(h, ts, tags).w == RunD(h.w, ks, tags)
  {
    hide HostInv, NextD, NextBar, NextConfig, CycOf, TickOk, TableDriverOk, AccessOf, CycOk, ObsOk;
    if ts != [] {
      var pre, t := ts[..|ts| - 1], ts[|ts| - 1];
      HostRun(h, pre, window, tags);
      var p := RunHost(h, pre, tags);
      HostStep(p, t, window, tags);
      var ks := CycsOf(h, pre, tags);
      assert (ks + [CycOf(p, t)])[..|ks|] == ks;
      SameAccess(p, t);
    }
  }

  lemma SameAccess(h: Host, t: Tick)
    requires BarOk(h.b)
    ensures CycOf(h, t).a == AccessOf(h.b)
  {
  }

  /** The call is over in the hardware as well. */
  predicate Over(z: Sys) {
    z.y.phase == Free && !z.m.enable && z.y.starts == z.y.ends == z.y.goal && z.m.active == z.y.calls % SLOTS
  }

  /** The polling loop of the driver: the bit it reads is the enable bit of the store cycle. The driver
      leaves the loop exactly with a completion whose bit 0 is clear; then all operations are over and
      the hardware index is the driver's counter. */
  lemma LoopEnds(b: Bar, c: Cfg, window: seq<nat>, ts: seq<Tick>, t: Tick)
    requires AckPath.Boot(b) && |window| == 8 && HostDriven(BootHost(b, c, window), ts + [t], c.tags)
    ensures var h0 := BootHost(b, c, window);
      var h, n := RunHost(h0, ts, c.tags), RunHost(h0, ts + [t], c.tags);
      h.w.z.y.phase == Polling ==>
        var d := Back(h, t);
        && (n.w.z.y.phase != Polling <==> d.Some? && d.value % 2 == 0)
        && (d.Some? ==> d.value % 2 == B2N(h.b.l.at.enable))
        && (n.w.z.y.phase != Polling ==> Over(n.w.z))
  {
    hide HostInv, NextHost, CycOf, TickOk, TableDriverOk, AccessOf, CanStep, Back;
    var h0 := BootHost(b, c, window);
    assert (ts + [t])[..|ts|] == ts;
    BootInv(b, c, window);
    HostRun(h0, ts, window, c.tags);
    var h := RunHost(h0, ts, c.tags);
    HostStep(h, t, window, c.tags);
    HostRun(h0, ts + [t], window, c.tags);
    if h.w.z.y.phase == Polling { LeavesOn(h, t, window, c.tags); }
  }

  lemma LeavesOn(h: Host, t: Tick, window: seq<nat>, tags: nat)
    requires HostOk(h, tags) && |window| == 8 && HostInv(h, window, tags) && CanStep(h, t, tags)
    requires TableDriverOk(h.w, AccessOf(h.b)) && h.w.z.y.phase == Polling
    requires HostInv(NextHost(h, t, tags), window, tags)
    ensures var z, d := NextHost(h, t, tags).w.z, Back(h, t);
      && (z.y.phase != Polling <==> d.Some? && d.value % 2 == 0)
      && (d.Some? ==> d.value % 2 == B2N(h.b.l.at.enable))
      && (z.y.phase != Polling ==> Over(z))
  {
    hide BarInv, FetchInv, PollInv, HeldInv, NextBar, NextConfig, NextTable, Stored, Next, NextStore, NextCtl, AccessOf,
         ObsOk, EndOp, Start, InOp, Bit, Back, Landed;
    if Back(h, t).Some? { BackIsPolled(h, t, tags); }
  }

  /** Byte k of word u as the requests leave it, was before any of them. */
  function Asks(rs: seq<Req>, u: nat, k: nat, was: nat): nat
    requires Fine(rs)
  {
    LastOf(Requested(rs, 8 * u + k), was)
  }

  /** Stop index, direction, mode, configuration and descriptors are what the requests ask for. */
  predicate Arrived(h: Host, window: seq<nat>, tags: nat)
    requires HostOk(h, tags) && |window| == 8 && Fine(h.b.l.wrote)
  {
    var rs, m := h.b.l.wrote, h.w.z.m;
    && m.last == Asks(rs, TABLE + 1, 0, 0) + 256 * (Asks(rs, TABLE + 1, 1, 0) % 4)
    && m.capW == Bit(Asks(rs, TABLE, 0, 8), 2) && m.capR == Bit(Asks(rs, TABLE, 0, 8), 3)
    && m.mode == Asks(rs, TABLE, 0, 8) / 16 % 4
    && (forall j, k :: 0 <= j < 5 && 0 <= k < 8 ==>
          h.g.regs[j][k] == Asks(rs, TABLE + 3 + j, k, Default(window, j, k)))
    && (forall j, k :: 0 <= j < SLOTS && 0 <= k < 8 ==>
          && h.w.a[j][k] == Asks(rs, TABLE + 8 + 8 * j, k, 0)
          && h.w.s[j][k] == Asks(rs, TABLE + 9 + 8 * j, k, 0))
  }

  /** A register or descriptor byte is the last one that an accepted write asked for: whenever no store is
      under way, in every run of the driver whose writes land where they should. */
  lemma WritesArrive(b: Bar, c: Cfg, window: seq<nat>, ts: seq<Tick>)
    requires AckPath.Boot(b) && |window| == 8 && HostDriven(BootHost(b, c, window), ts, c.tags)
    ensures var h := RunHost(BootHost(b, c, window), ts, c.tags);
      Fine(h.b.l.wrote) && (AllStraight(h.b.l.wrote) && h.b.cs != StoreWr ==> Arrived(h, window, c.tags))
  {
    hide HostInv, NextHost, TickOk, TableDriverOk, AccessOf, CanStep;
    BootInv(b, c, window);
    HostRun(BootHost(b, c, window), ts, window, c.tags);
    AllArrived(RunHost(BootHost(b, c, window), ts, c.tags), window, c.tags);
  }

  lemma SameBytes(b: Bar, u: nat, k: nat, was: nat)
    requires BarOk(b) && WriteInv(b) && AllStraight(b.l.wrote) && b.cs != StoreWr && u < 0x1_0000 && k < 8
    ensures Held(b.l.drove, u, k, was) == Asks(b.l.wrote, u, k, was)
  {
    hide Values, Requested, AccessOf;
    ValuesMore(b.l.drove, AccessOf(b), 8 * u + k);
    StoreDoes(b, 8 * u + k);
  }

  lemma AllArrived(h: Host, window: seq<nat>, tags: nat)
    requires HostOk(h, tags) && |window| == 8 && HostInv(h, window, tags)
    ensures Fine(h.b.l.wrote) && (AllStraight(h.b.l.wrote) && h.b.cs != StoreWr ==> Arrived(h, window, tags))
  {
    hide AckInv, PathInv, Paired, SentInv, LockInv, FetchInv, PollInv, Held, Asks, Bit, Default;
    var b := h.b;
    if AllStraight(b.l.wrote) && b.cs != StoreWr {
      forall u, k, was | 0 <= u < 0x1_0000 && 0 <= k < 8 && was >= 0
        ensures Held(b.l.drove, u, k, was) == Asks(b.l.wrote, u, k, was)
      {
        SameBytes(b, u, k, was);
      }
    }
  }

  /** The stop index reads back: while the completion of a read of its word is being sent, the low ten bits
      are the bytes that the accepted writes asked for last. */
  lemma StopReadsBack(b: Bar, c: Cfg, window: seq<nat>, ts: seq<Tick>)
    requires AckPath.Boot(b) && |window| == 8 && HostDriven(BootHost(b, c, window), ts, c.tags)
    ensures var h := RunHost(BootHost(b, c, window), ts, c.tags); var rs, r := h.b.l.wrote, h.b.req;
      && Fine(rs)
      && (AllStraight(rs) && h.b.cs == SendCpl && Bus(r.addr) == TABLE + 1 && (r.cnt == 2 || r.addr % 2 == 0) ==>
            h.b.cpl.data % SLOTS == Asks(rs, TABLE + 1, 0, 0) + 256 * (Asks(rs, TABLE + 1, 1, 0) % 4))
  {
    hide HostInv, NextHost, TickOk, TableDriverOk, AccessOf, CanStep, Asks, Bus;
    BootInv(b, c, window);
    HostRun(BootHost(b, c, window), ts, window, c.tags);
    StopShown(RunHost(BootHost(b, c, window), ts, c.tags), window, c.tags);
  }

  lemma StopShown(h: Host, window: seq<nat>, tags: nat)
    requires HostOk(h, tags) && |window| == 8 && HostInv(h, window, tags)
    ensures var rs, r := h.b.l.wrote, h.b.req;
      && Fine(rs)
      && (AllStraight(rs) && h.b.cs == SendCpl && Bus(r.addr) == TABLE + 1 && (r.cnt == 2 || r.addr % 2 == 0) ==>
            h.b.cpl.data % SLOTS == Asks(rs, TABLE + 1, 0, 0) + 256 * (Asks(rs, TABLE + 1, 1, 0) % 4))
  {
    AllArrived(h, window, tags);
    hide HeldInv, LockInv, FetchInv, AckInv, PathInv, Paired, WriteInv, Bus, Asks, EngineWord, Half, ShowsStatus;
    if h.b.cs == SendCpl { assert Carries(h.b); }
  }

  // ---------------------------------------------------------------- the writes of the driver

  /** A write of n bytes to word u as one request. */
  function WriteReq(u: nat, v: nat, n: nat): (r: Req)
    ensures ReqOk(r)
  {
    Req(MemWrite, BAR0, 2 * u, if n == 8 then 2 else 1, 0, 0, seq(4, k => k < n), seq(4, k => n == 8), Bytes(v, 8))
  }

  /** The accesses of the script are what such requests cause in their store cycle. */
  lemma ScriptOverBar(b: Bar, u: nat, v: nat, n: nat)
    requires b.cs == StoreWr && u < 0x1_0000 && b.req == WriteReq(u, v, n) && (n == 8 || n == 4 || n == 2)
    ensures n == 8 ==> AccessOf(b) == Store64(u, v)
    ensures n == 4 && v < B32 ==> AccessOf(b) == Store32(u, v)
    ensures n == 2 && v < B32 ==> AccessOf(b) == Store16(u, v)
  {
    hide Bytes, Lanes, LaneData, WriteReq;
    var r := WriteReq(u, v, n);
    ReqLanes(u, v, n);
    assert r.addr == 2 * u ==> Bus(r.addr) == u;
  }

  lemma ReqLanes(u: nat, v: nat, n: nat)
    requires n == 8 || n == 4 || n == 2
    ensures var r := WriteReq(u, v, n); r.addr == 2 * u && Lanes(r) == seq(8, k => k < n)
    ensures n == 8 || v < B32 ==> LaneData(WriteReq(u, v, n)) == Bytes(v, 8)
  {
    var d := Bytes(v, 8);
    if v < B32 { HighZero(v); }
    hide Bytes;
    assert d[..4] + d[4..] == d;
  }

  lemma HighZero(v: nat)
    requires v < B32
    ensures Bytes(v, 8)[4..] == ZERO4
  {
    hide Bytes;
    Unfolds(v, 8);
    Unfolds(v / 256, 7);
    Unfolds(v / 256 / 256, 6);
    Unfolds(v / 256 / 256 / 256, 5);
    Unfolds(0, 4);
    Unfolds(0, 3);
    Unfolds(0, 2);
    Unfolds(0, 1);
    assert v / 256 / 256 / 256 / 256 == 0;
  }

  lemma Unfolds(v: nat, n: nat)
    requires n > 0
    ensures Bytes(v, n) == [v % 256] + Bytes(v / 256, n - 1)
  {
  }
}
