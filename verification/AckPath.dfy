/** The BAR0 completer in front of the engine manager. Acknowledges carry no identity: a read that
    follows a write too closely is released by the acknowledge of the write. The model decides
    exactly when that happens, and what the completion then contains. */
module AckPath {
  import opened Hw
  import opened Manager
  import opened Completer

  datatype Mark = Quiet | Wr | Rd

  /** A completion as it leaves: requester, tag, length, byte count, lower address and data. */
  datatype Answer = Answer(id: nat, tag: nat, cnt: nat, cpl: Cpl)

  /** The stores of the last four cycles; age of the read in course and its distance to the last
      write; its row as the memory held it one cycle after the store cycle; the control registers
      and the two memory stages of its column as they were in the store cycle; reads offered while the
      completer waits and completions sent; writes offered then, and the accesses of all cycles. */
  datatype Led = Led(h1: Mark, h2: Mark, h3: Mark, h4: Mark, age: nat, gap: nat,
                     row: seq<nat>, at: Ctl, was1: nat, was2: nat, asked: seq<Req>, answered: seq<Answer>,
                     wrote: seq<Req>, drove: seq<Access>)

  datatype Bar = Bar(cs: CState, req: Req, cpl: Cpl, q: Acks, r: Reader, l: Led)

  /** One cycle: the request beat, the completion handshake and what the manager holds. */
  datatype Obs = Obs(beat: Beat, ready: bool, m: Ctl, ram: seq<seq<nat>>, other: nat)

  const BAR0 := 0

  function Bus(addr: nat): nat { addr / 2 % 0x1_0000 }
  predicate InTable(addr: nat) { TABLE <= Bus(addr) < TABLE + 8 + 8 * SLOTS }

  /** Words answered by the statistics memories: those of the table, and also the configuration registers but
      the first, which show the row of the last slot. */
  predicate IsStatistic(addr: nat) { TABLE + 4 <= Bus(addr) && Bus(addr) % 8 >= 3 }

  function RowOf(addr: nat): (r: nat)
    ensures r < SLOTS
  {
    Eff(Bus(addr)) / 8 % SLOTS
  }

  predicate Takes(b: Bar, o: Obs) { b.cs == WaitReq && Decode(BAR0, o.beat) != NoReq }

  predicate BarOk(b: Bar) { ReqOk(b.req) && ReaderOk(b.r) }

  predicate CtlOk(m: Ctl) { m.last < SLOTS && m.active < SLOTS && m.time < B64 }

  predicate ObsOk(o: Obs) { Rows(o.ram) && ReqOk(o.beat.req) && InTable(o.beat.req.addr) && CtlOk(o.m) }

  predicate Stores(b: Bar) { b.cs == StoreWr || b.cs == StoreRd }

  function AccessOf(b: Bar): (a: Access)
    requires ReqOk(b.req)
    ensures AccessOk(a)
  {
    Access(Stores(b), Bus(b.req.addr), if b.cs == StoreWr then Lanes(b.req) else OFF4 + OFF4,
           if b.cs == StoreWr then LaneData(b.req) else ZERO4 + ZERO4)
  }

  /** Column of the statistics memory, 0 for other words. */
  function Column(addr: nat): (k: nat)
    ensures k < 5
  {
    if Bus(addr) % 8 >= 3 then Bus(addr) % 8 - 3 else 0
  }

  /** Cycles since the last store of a write, 4 if it is longer ago than three. */
  function Since(l: Led): nat { if l.h1 == Wr then 1 else if l.h2 == Wr then 2 else if l.h3 == Wr then 3 else 4 }

  function NextLed(b: Bar, o: Obs): Led
    requires Rows(o.ram) && BarOk(b)
  {
    var l := b.l;
    var here := o.ram[RowOf(b.req.addr)];
    Led(if b.cs == StoreWr then Wr else if b.cs == StoreRd then Rd else Quiet, l.h1, l.h2, l.h3,
        if b.cs == StoreRd then 1 else l.age + 1,
        if b.cs == StoreRd then Since(l) else l.gap,
        if b.cs == WaitCpl && l.age == 1 then here else l.row,
        if b.cs == StoreRd then o.m else l.at,
        if b.cs == StoreRd then b.r.p1[Column(b.req.addr)] else l.was1,
        if b.cs == StoreRd then b.r.p2[Column(b.req.addr)] else l.was2,
        if b.cs == WaitReq && Proper(BAR0, o.beat, MemRead) then l.asked + [o.beat.req] else l.asked,
        if b.cs == SendCpl && o.ready then l.answered + [Answer(b.req.id, b.req.tag, b.req.cnt, b.cpl)] else l.answered,
        if b.cs == WaitReq && Proper(BAR0, o.beat, MemWrite) then l.wrote + [o.beat.req] else l.wrote,
        l.drove + [AccessOf(b)])
  }

  function NextBar(b: Bar, o: Obs): (n: Bar)
    requires BarOk(b) && ObsOk(o)
    ensures BarOk(n)
  {
    Bar(NextState(b.cs, Decode(BAR0, o.beat), b.q.ack, o.ready),
        if Takes(b, o) then o.beat.req else b.req,
        if b.cs == WaitCpl then NextCpl(b.cpl, b.req, Dout(b.r)) else b.cpl,
        NextAcks(b.q, Stores(b)),
        NextReader(b.r, AccessOf(b), o.m, o.ram, o.other),
        NextLed(b, o))
  }

  // ---------------------------------------------------------------- who is acknowledged

  /** Spacing of stores: never in adjacent cycles, and none within four cycles after a read. */
  predicate Spaced(cs: CState, l: Led) {
    && (l.h1 != Quiet ==> l.h2 == Quiet) && (l.h2 != Quiet ==> l.h3 == Quiet) && (l.h3 != Quiet ==> l.h4 == Quiet)
    && (l.h2 == Rd ==> l.h1 == Quiet) && (l.h3 == Rd ==> l.h1 == l.h2 == Quiet)
      && (l.h4 == Rd ==> l.h1 == l.h2 == l.h3 == Quiet)
    && (match cs
        case AfterReset => l.h1 == l.h2 == l.h3 == l.h4 == Quiet
        case WaitReq => l.h1 != Rd && l.h2 != Rd
        case StoreWr => l.h1 == Quiet && l.h2 != Rd && l.h3 != Rd
        case StoreRd => l.h1 == Quiet && l.h2 != Rd && l.h3 != Rd
        case WaitCpl => true
        case SendCpl => l.h1 != Rd
        case SendUr => l.h1 == Quiet && l.h2 != Rd && l.h3 != Rd)
  }

  predicate Shifted(q: Acks, l: Led) {
    q == Acks(l.h1 != Quiet, l.h2 != Quiet, l.h3 != Quiet, l.h4 != Quiet)
  }

  function At(l: Led, k: nat): Mark { if k == 1 then l.h1 else if k == 2 then l.h2 else if k == 3 then l.h3 else l.h4 }

  /** A read in course is age cycles old; a write within three cycles before it is still visible. */
  predicate Waiting(l: Led) {
    && 1 <= l.age <= 4 && At(l, l.age) == Rd && 2 <= l.gap <= 4
    && (l.gap < 4 ==> l.age + l.gap <= 4 && At(l, l.age + l.gap) == Wr)
    && (l.gap == 4 ==> (l.age < 2 ==> l.h2 == Quiet) && (l.age < 3 ==> l.h3 == Quiet) && (l.age < 4 ==> l.h4 == Quiet))
  }

  predicate AckInv(b: Bar) { Spaced(b.cs, b.l) && Shifted(b.q, b.l) && (b.cs == WaitCpl ==> Waiting(b.l)) }

  lemma AckStep(b: Bar, o: Obs)
    requires BarOk(b) && ObsOk(o) && AckInv(b)
    ensures AckInv(NextBar(b, o))
  {
    hide NextReader, NextCpl, Decode, EngineWord, ReaderOk, Rows;
  }

  // ---------------------------------------------------------------- what is read

  /** How far the row of a statistics read has come, and that an engine word is there at once. */
  predicate PathInv(b: Bar)
    requires BarOk(b)
  {
    var l, r, e := b.l, b.r, Eff(Bus(b.req.addr));
    (Stores(b) ==> InTable(b.req.addr)) && (b.cs == WaitCpl ==>
      && InTable(b.req.addr) && l.age >= 1 && (l.age >= 2 ==> |l.row| == 5)
      && r.isEngine == IsEngineWord(Bus(b.req.addr)) && r.engine == EngineWord(l.at, Bus(b.req.addr)) && CtlOk(l.at)
      && (IsStatistic(b.req.addr) ==>
            && r.slots[e % 8 - 3] == RowOf(b.req.addr)
            && (l.age == 1 ==> r.data == l.was2 && r.p2[e % 8 - 3] == l.was1)
            && (l.age == 2 ==> r.data == l.was1 && r.p1[e % 8 - 3] == l.row[e % 8 - 3])
            && (l.age == 3 ==> r.p2[e % 8 - 3] == l.row[e % 8 - 3])
            && (l.age == 4 ==> r.data == l.row[e % 8 - 3])))
  }

  lemma EffAt(u: nat)
    requires TABLE + 4 <= u < TABLE + 8 + 8 * SLOTS && u % 8 >= 3
    ensures 3 <= Eff(u) % 8 == u % 8 && SlotReg(u, u % 8 - 3) == Eff(u) / 8 % SLOTS == (u / 8 - 65) % SLOTS
  {
    var n, r := u / 8 - 65, u % 8;
    assert u - TABLE - 8 == 8 * n + r && u - TABLE - 8 - (r - 3 + 3) == 8 * n && -1 <= n < SLOTS;
    if n >= 0 {
      assert (8 * n + r) / 8 == n && (8 * n + r) % 8 == r && 8 * n / 8 == n;
    } else {
      assert SlotReg(u, r - 3) == 0x1fff_ffff % SLOTS == 1023;
    }
  }

  lemma EffIs(addr: nat)
    requires IsStatistic(addr) && InTable(addr)
    ensures 3 <= Eff(Bus(addr)) % 8 == Bus(addr) % 8 && RowOf(addr) == (Bus(addr) / 8 - 65) % SLOTS
    ensures Column(addr) == Eff(Bus(addr)) % 8 - 3
    ensures SlotReg(Bus(addr), Eff(Bus(addr)) % 8 - 3) == RowOf(addr)
  {
    hide Bus, Eff, SlotReg;
    EffAt(Bus(addr));
  }

  lemma PathStep(b: Bar, o: Obs)
    requires BarOk(b) && ObsOk(o) && PathInv(b)
    ensures PathInv(NextBar(b, o))
  {
    hide NextCpl, EngineWord, Eff, SlotReg, RowOf, Bus, Column, NextReader, NextLed;
    if b.cs == StoreRd {
      PathStarts(b, o);
    } else if b.cs == WaitCpl && !b.q.ack {
      PathMoves(b, o);
    }
  }

  lemma BusOf(b: Bar)
    requires ReqOk(b.req)
    ensures AccessOf(b).en == Stores(b) && AccessOf(b).addr == Bus(b.req.addr)
  {
    hide Bus, Lanes, LaneData;
  }

  /** The store cycle of a read. */
  lemma PathStarts(b: Bar, o: Obs)
    requires BarOk(b) && ObsOk(o) && PathInv(b) && b.cs == StoreRd
    ensures PathInv(NextBar(b, o))
  {
    hide NextCpl, EngineWord, Eff, SlotReg, RowOf, Bus, Column, AccessOf, Octets, Decode;
    BusOf(b);
    if IsStatistic(b.req.addr) { EffIs(b.req.addr); }
  }

  /** A cycle of waiting: everything moves on by one stage. */
  lemma PathMoves(b: Bar, o: Obs)
    requires BarOk(b) && ObsOk(o) && PathInv(b) && b.cs == WaitCpl && !b.q.ack
    ensures PathInv(NextBar(b, o))
  {
    hide NextCpl, EngineWord, Eff, SlotReg, RowOf, Bus, Column, AccessOf, Octets, Decode;
    BusOf(b);
    if IsStatistic(b.req.addr) { EffIs(b.req.addr); }
  }

  // ---------------------------------------------------------------- one completion per read

  /** Accepted reads are the answered ones, in order, and the one in course. */
  predicate Paired(b: Bar) {
    var l := b.l;
    var open := b.cs == StoreRd || b.cs == WaitCpl || b.cs == SendCpl;
    && |l.asked| == |l.answered| + (if open then 1 else 0)
    && (open ==> b.req == l.asked[|l.answered|])
    && (forall k :: 0 <= k < |l.answered| ==>
          l.answered[k].id == l.asked[k].id && l.answered[k].tag == l.asked[k].tag
            && l.answered[k].cnt == l.asked[k].cnt)
  }

  lemma PairStep(b: Bar, o: Obs)
    requires BarOk(b) && ObsOk(o) && Paired(b)
    ensures Paired(NextBar(b, o))
  {
    hide NextReader, NextCpl, EngineWord, NextAcks, AccessOf, Rows, RowOf, InTable, Dout;
  }

  // ---------------------------------------------------------------- what the completion says

  /** The status word, bit by bit. */
  predicate ShowsStatus(m: Ctl, d: nat) {
    && d < 128 && d % 2 == B2N(m.enable) && d / 2 % 2 == B2N(m.resetR) && d / 4 % 2 == B2N(m.running)
    && d / 8 % 2 == B2N(m.stop) && d / 16 % 2 == 0 && d / 32 % 2 == B2N(m.capW) && d / 64 == B2N(m.capR)
  }

  /** What a read of an engine register tells about the control registers. */
  predicate Tells(r: Req, m: Ctl, d: nat) {
    var u, low := Bus(r.addr), r.cnt == 2 || r.addr % 2 == 0;
    && (u == TABLE && low ==> ShowsStatus(m, d))
    && (u == TABLE + 1 && low ==> d % SLOTS == m.last && d / SLOTS == m.active)
    && (u == TABLE + 2 ==> d == if r.cnt == 2 then m.time else if low then m.time % B32 else m.time / B32)
    && (u == TABLE + 3 || (u == TABLE && !low) || (u == TABLE + 1 && !low) ==> d == 0)
  }

  lemma WordTells(r: Req, m: Ctl)
    requires CtlOk(m) && IsEngineWord(Bus(r.addr)) && 1 <= r.cnt <= 2
    ensures Tells(r, m, Half(r.addr, r.cnt, EngineWord(m, Bus(r.addr))))
  {
    var u := Bus(r.addr);
    hide Bus, ShowsStatus;
    if u == TABLE + 2 {
      assert EngineWord(m, u) == m.time;
    } else {
      StatusWord(m);
      IndexWord(m);
      hide EngineWord;
      Narrow(r.addr, r.cnt, EngineWord(m, u));
    }
  }

  lemma Narrow(addr: nat, cnt: nat, d: nat)
    requires d < B32 && 1 <= cnt <= 2
    ensures Half(addr, cnt, d) == if cnt == 1 && addr % 2 == 1 then 0 else d
  {
  }

  lemma StatusWord(m: Ctl)
    ensures EngineWord(m, TABLE) < 128 && ShowsStatus(m, EngineWord(m, TABLE))
  {
    Status(B2N(m.enable), B2N(m.resetR), B2N(m.running), B2N(m.stop), B2N(m.capW), B2N(m.capR));
  }

  lemma IndexWord(m: Ctl)
    requires CtlOk(m)
    ensures var d := EngineWord(m, TABLE + 1); d < B32 && d % SLOTS == m.last && d / SLOTS == m.active
    ensures EngineWord(m, TABLE + 3) == 0
  {
    DivIs(m.active * SLOTS + m.last, SLOTS, m.active, m.last);
  }

  lemma Status(e: nat, r: nat, u: nat, s: nat, w: nat, c: nat)
    requires e <= 1 && r <= 1 && u <= 1 && s <= 1 && w <= 1 && c <= 1
    ensures var d := e + 2 * r + 4 * u + 8 * s + 32 * w + 64 * c;
      && d < 128 && d % 2 == e && d / 2 % 2 == r && d / 4 % 2 == u && d / 8 % 2 == s && d / 16 % 2 == 0
      && d / 32 % 2 == w && d / 64 == c
  {
    var d := e + 2 * r + 4 * u + 8 * s + 32 * w + 64 * c;
    assert d / 2 == r + 2 * u + 4 * s + 16 * w + 32 * c && d / 4 == u + 2 * s + 8 * w + 16 * c;
    assert d / 8 == s + 4 * w + 8 * c && d / 16 == 2 * w + 4 * c && d / 32 == w + 2 * c;
  }

  /** What the completion of the request carries. */
  predicate Carries(b: Bar) {
    var r, l, d := b.req, b.l, b.cpl.data;
    && (IsEngineWord(Bus(r.addr)) ==> d == Half(r.addr, r.cnt, EngineWord(l.at, Bus(r.addr))) && Tells(r, l.at, d))
    && (IsStatistic(r.addr) ==>
          && (l.gap == 4 ==> |l.row| == 5 && d == Half(r.addr, r.cnt, l.row[Bus(r.addr) % 8 - 3]))
          && (l.gap < 4 ==> d == Half(r.addr, r.cnt, if l.gap == 3 then l.was2 else l.was1)))
  }

  predicate SentInv(b: Bar) {
    && (b.cs == StoreRd || b.cs == WaitCpl || b.cs == SendCpl ==> 1 <= b.req.cnt <= 2)
    && (b.cs == SendCpl ==> Carries(b))
  }

  lemma SentStep(b: Bar, o: Obs)
    requires BarOk(b) && ObsOk(o) && AckInv(b) && PathInv(b) && SentInv(b)
    ensures SentInv(NextBar(b, o))
  {
    hide NextReader, Carries, PathInv, Rows, InTable, Bus, RowOf, Column, ReaderOk, Octets;
    if b.cs == WaitCpl && b.q.ack {
      hide AckInv;
      Released(b);
      Captured(b, o);
    } else if b.cs == SendCpl {
      hide AckInv;
      Held(b, o);
    }
  }

  lemma Released(b: Bar)
    requires AckInv(b) && b.cs == WaitCpl
    ensures 1 <= b.l.age <= 4 && (b.l.age == 4 ==> b.q.ack)
    ensures b.q.ack ==> (b.l.age == 4 <==> b.l.gap == 4) && b.l.h4 == (if b.l.gap == 4 then Rd else Wr)
    ensures b.q.ack && b.l.gap < 4 ==> b.l.age == 4 - b.l.gap && 2 <= b.l.gap
  {
  }

  /** While the completion waits to be sent nothing changes. */
  lemma Held(b: Bar, o: Obs)
    requires BarOk(b) && ObsOk(o) && b.cs == SendCpl && Carries(b)
    ensures Carries(NextBar(b, o))
  {
    hide NextReader, Half, Bus, RowOf, Column, Tells, EngineWord;
  }

  lemma Captured(n: Bar, o: Obs)
    requires BarOk(n) && ObsOk(o) && PathInv(n) && n.cs == WaitCpl && (n.l.gap == 4 ==> n.l.age == 4)
    requires n.l.gap < 4 ==> n.l.age == 4 - n.l.gap && 2 <= n.l.gap
    requires 1 <= n.req.cnt <= 2
    ensures Carries(NextBar(n, o))
  {
    hide NextReader, Half, Bus, SlotReg, RowOf, Eff, Tabled, Tabled2, Tells, EngineWord, Column;
    if IsStatistic(n.req.addr) { EffIs(n.req.addr); }
    if IsEngineWord(Bus(n.req.addr)) { WordTells(n.req, n.l.at); }
  }

  // ---------------------------------------------------------------- runs

  function RunBar(b: Bar, os: seq<Obs>): (r: Bar)
    requires BarOk(b) && AllOk(os)
    ensures BarOk(r)
  {
    if os == [] then b else NextBar(RunBar(b, os[..|os| - 1]), os[|os| - 1])
  }

  predicate AllOk(os: seq<Obs>) { forall k :: 0 <= k < |os| ==> ObsOk(os[k]) }

  /** After reset; the request, completion and data registers may hold anything. */
  predicate Boot(b: Bar) {
    && BarOk(b) && b.cs == AfterReset && b.q == Acks(false, false, false, false)
    && b.l.h1 == b.l.h2 == b.l.h3 == b.l.h4 == Quiet && b.l.asked == [] && b.l.answered == []
    && b.l.wrote == [] && b.l.drove == []
  }

  lemma {:induction false} RunInv(b: Bar, os: seq<Obs>)
    requires Boot(b) && AllOk(os)
    ensures var n := RunBar(b, os); AckInv(n) && PathInv(n) && Paired(n) && SentInv(n)
  {
    hide NextBar, ObsOk;
    if os != [] {
      var p, o := RunBar(b, os[..|os| - 1]), os[|os| - 1];
      RunInv(b, os[..|os| - 1]);
      AckStep(p, o);
      PathStep(p, o);
      PairStep(p, o);
      SentStep(p, o);
    }
  }

  /** In every run a waiting read is released after at most four cycles, and by its own
      acknowledge iff no write was stored in the three cycles before it; otherwise it is the
      acknowledge of that write. */
  lemma OwnAcknowledge(b: Bar, os: seq<Obs>)
    requires Boot(b) && AllOk(os) && RunBar(b, os).cs == WaitCpl
    ensures var n := RunBar(b, os); var l := n.l;
      && 1 <= l.age <= 4 && (l.age == 4 ==> n.q.ack)
      && (n.q.ack ==> (l.age == 4 <==> l.gap == 4) && l.h4 == (if l.gap == 4 then Rd else Wr))
      && (n.q.ack && l.gap < 4 ==> l.age == 4 - l.gap && 2 <= l.gap)
  {
    hide RunBar, AckInv, PathInv, Paired, SentInv;
    RunInv(b, os);
    Released(RunBar(b, os));
  }

  /** Every accepted read gets exactly one completion, in order, with its own requester, tag and
      length. */
  lemma OneCompletionEach(b: Bar, os: seq<Obs>, k: nat)
    requires Boot(b) && AllOk(os) && k < |RunBar(b, os).l.answered|
    ensures var l := RunBar(b, os).l;
      && |l.answered| <= |l.asked| <= |l.answered| + 1
      && l.answered[k].id == l.asked[k].id && l.answered[k].tag == l.asked[k].tag && l.answered[k].cnt == l.asked[k].cnt
  {
    hide RunBar;
    RunInv(b, os);
  }

  /** Cycles until the completer waits for a request again, once its completion is taken. */
  function Rank(b: Bar): int {
    match b.cs
    case WaitReq => 0
    case AfterReset => 1
    case StoreWr => 1
    case SendUr => 1
    case SendCpl => 1
    case WaitCpl => 6 - b.l.age
    case StoreRd => 6
  }

  /** The completer never gets stuck: in every run each cycle brings it closer to the next request, except
      one in which the completion is not taken. */
  lemma ComesBack(b: Bar, os: seq<Obs>, o: Obs)
    requires Boot(b) && AllOk(os) && ObsOk(o)
    ensures var n := RunBar(b, os); var r := Rank(NextBar(n, o));
      && 0 <= Rank(n) <= 6 && (Rank(n) == 0 <==> n.cs == WaitReq)
      && (n.cs != WaitReq && (n.cs == SendCpl ==> o.ready) ==> r < Rank(n))
  {
    hide RunBar, NextReader, NextCpl, AckInv, PathInv, Paired, SentInv, ObsOk, BarOk, RowOf, Column, AccessOf, Decode;
    RunInv(b, os);
    if RunBar(b, os).cs == WaitCpl { Released(RunBar(b, os)); }
  }

  /** A longer request is taken and dropped, a read as well: it is neither stored nor answered, and the
      completer waits for the next one. So a read that is offered while the completer waits is answered iff
      it is one or two dwords long. */
  lemma LongerIsDropped(b: Bar, os: seq<Obs>, o: Obs, p: Obs)
    requires Boot(b) && AllOk(os) && ObsOk(o) && ObsOk(p) && RunBar(b, os).cs == WaitReq
    requires Offered(BAR0, o.beat, MemRead) || Offered(BAR0, o.beat, MemWrite)
    ensures var n := RunBar(b, os); var n1 := NextBar(n, o); var n2 := NextBar(n1, p);
      && n1.req == o.beat.req
      && (1 <= o.beat.req.cnt <= 2 <==> Stores(n1)) && (Proper(BAR0, o.beat, MemRead) <==> n1.l.asked != n.l.asked)
      && (!Stores(n1) ==>
            n2.cs == WaitReq && !Stores(n2) && n2.l.asked == n.l.asked && n2.l.answered == n.l.answered
              && n2.l.wrote == n.l.wrote)
  {
    hide RunBar, NextReader, NextCpl, EngineWord, RowOf, Column, AccessOf, Rows, InTable;
    var asked := RunBar(b, os).l.asked;
    assert |asked + [o.beat.req]| > |asked|;
  }

  /** What a completion carries while it is being sent: an engine register as it was in the store cycle,
      whoever was acknowledged, bit by bit; released by its own acknowledge, a statistics word of its row
      as the memory held it one cycle after the store cycle, whatever is written to the row before or
      after. Released by a write it gets what was under way in the memory output in its store cycle: the
      second stage if the write came three cycles before, the first stage if it came two cycles before. */
  lemma DataDelivered(b: Bar, os: seq<Obs>)
    requires Boot(b) && AllOk(os) && RunBar(b, os).cs == SendCpl
    ensures var n := RunBar(b, os); var r, l, d := n.req, n.l, n.cpl.data;
      && (IsEngineWord(Bus(r.addr)) ==> Tells(r, l.at, d))
      && (IsStatistic(r.addr) && l.gap == 4 ==> |l.row| == 5 && d == Half(r.addr, r.cnt, l.row[Bus(r.addr) % 8 - 3]))
      && (IsStatistic(r.addr) && l.gap < 4 ==> d == Half(r.addr, r.cnt, if l.gap == 3 then l.was2 else l.was1))
  {
    hide RunBar, AckInv, PathInv, Paired, Tells, Half, Bus;
    RunInv(b, os);
  }

  // ---------------------------------------------------------------- a write too close

  const ANY4 := [true, true, true, true]
  const STOP_WRITE := Req(MemWrite, 0, 2 * (TABLE + 1), 1, 1, 0, ANY4, ANY4, ZERO4 + ZERO4)
  const STAT_READ := Req(MemRead, 0, 2 * (TABLE + 8 + 8 * 5 + 3), 2, 1, 9, ANY4, ANY4, ZERO4 + ZERO4)
  const ROW0 := [0, 0, 0, 0, 0]
  const ROW7 := [7, 7, 7, 7, 7]

  function Ram7(): (r: seq<seq<nat>>)
    ensures Rows(r)
  {
    seq(SLOTS, j => if j == 5 then ROW7 else ROW0)
  }

  function See(valid: bool, q: Req): Obs { Obs(Beat(valid, true, false, q), true, CTL_RESET, Ram7(), 0) }

  /** A concrete run: the stop index is written, a statistics word is read in the very next
      request, and the completion carries 0 although the row holds 7 all the time. */
  lemma TooClose() returns (b: Bar, os: seq<Obs>)
    ensures Boot(b) && AllOk(os) && |os| == 7
    ensures var n := RunBar(b, os);
      && n.cs == SendCpl && n.req == STAT_READ && n.cpl.data == 0
      && forall k :: 0 <= k < 7 ==> os[k].ram == Ram7() && Ram7()[RowOf(STAT_READ.addr)] == ROW7
  {
    hide NextBar, RunBar, SlotReg, RowOf, Bus, Ram7, IsEngineWord, ReaderOk;
    Places();
    var idle, w, r := See(false, STAT_READ), See(true, STOP_WRITE), See(true, STAT_READ);
    os := [idle, w, idle, r, idle, idle, idle];
    var b1, b2, b3, b4;
    b, b1, b2, b3, b4 := UntilStored();
    var b5 := Cycle(b4, idle);
    assert b5.cs == WaitCpl && b5.r.p2[0] == 0;
    var b6 := Cycle(b5, idle);
    assert b6.cs == WaitCpl && b6.r.data == 0 && b6.q.ack;
    var b7 := Cycle(b6, idle);
    Unroll(b, os, b1, b2, b3, b4, b5, b6, b7);
  }

  lemma UntilStored() returns (b: Bar, b1: Bar, b2: Bar, b3: Bar, b4: Bar)
    ensures var idle, w, r := See(false, STAT_READ), See(true, STOP_WRITE), See(true, STAT_READ);
      && ObsOk(idle) && ObsOk(w) && ObsOk(r) && Boot(b)
      && b1 == NextBar(b, idle) && b2 == NextBar(b1, w) && b3 == NextBar(b2, idle) && b4 == NextBar(b3, r)
    ensures b4.cs == StoreRd && b4.req == STAT_READ && |b4.r.p1| == 5 && b4.r.p1[0] == 0
      && b4.q == Acks(false, true, false, false)
  {
    hide NextBar, RunBar, SlotReg, RowOf, Bus, Ram7, IsEngineWord, ReaderOk;
    Places();
    var idle, w, r := See(false, STAT_READ), See(true, STOP_WRITE), See(true, STAT_READ);
    b := Bar(AfterReset, STOP_WRITE, Cpl(0, 0, 0), Acks(false, false, false, false),
             Reader(ROW0, ROW0, ROW0, 0, false, 0), Led(Quiet, Quiet, Quiet, Quiet, 0, 4, ROW0, CTL_RESET, 0, 0,
                                                     [], [], [], []));
    Zeroes(b.r);
    b1 := Cycle(b, idle);
    b2 := Cycle(b1, w);
    b3 := Cycle(b2, idle);
    assert b3.cs == WaitReq && b3.r.slots[0] == 1022;
    b4 := Cycle(b3, r);
  }

  lemma Zeroes(r: Reader)
    requires r == Reader(ROW0, ROW0, ROW0, 0, false, 0)
    ensures ReaderOk(r)
  {
  }

  /** The parts of a cycle that the run above goes through. */
  lemma Cycle(b: Bar, o: Obs) returns (n: Bar)
    requires BarOk(b) && ObsOk(o) && o.ram == Ram7()
    ensures BarOk(n) && n == NextBar(b, o) && |n.r.slots| == |n.r.p1| == |n.r.p2| == 5
    ensures n.cs == NextState(b.cs, Decode(BAR0, o.beat), b.q.ack, o.ready)
    ensures n.req == (if Takes(b, o) then o.beat.req else b.req) && n.q == NextAcks(b.q, Stores(b))
    ensures n.r.slots[0] == SlotReg(Bus(b.req.addr), 0)
    ensures n.r.p2[0] == b.r.p1[0] && n.r.p1[0] == (if b.r.slots[0] == 5 then 7 else 0)
    ensures Eff(Bus(b.req.addr)) % 8 == 3 ==> n.r.data == b.r.p2[0]
    ensures Stores(b) ==> n.r.isEngine == IsEngineWord(Bus(b.req.addr))
    ensures !Stores(b) ==> n.r.isEngine == b.r.isEngine
    ensures b.cs == WaitCpl && b.req.cnt == 2 ==> n.cpl.data == Dout(b.r)
  {
    hide SlotReg, RowOf, Bus, EngineWord, Tabled, Tabled2;
    n := NextBar(b, o);
  }

  lemma Places()
    ensures InTable(STOP_WRITE.addr) && InTable(STAT_READ.addr) && ReqOk(STOP_WRITE) && ReqOk(STAT_READ)
    ensures IsEngineWord(Bus(STOP_WRITE.addr)) && !IsEngineWord(Bus(STAT_READ.addr))
    ensures SlotReg(Bus(STOP_WRITE.addr), 0) == 1022 && RowOf(STAT_READ.addr) == 5
    ensures Eff(Bus(STAT_READ.addr)) % 8 == 3 && Ram7()[5] == ROW7
  {
    assert Bus(STOP_WRITE.addr) == TABLE + 1 && Bus(STAT_READ.addr) == TABLE + 51;
  }

  lemma Unroll(b: Bar, os: seq<Obs>, b1: Bar, b2: Bar, b3: Bar, b4: Bar, b5: Bar, b6: Bar, b7: Bar)
    requires BarOk(b) && AllOk(os) && |os| == 7
    requires b1 == NextBar(b, os[0]) && b2 == NextBar(b1, os[1]) && b3 == NextBar(b2, os[2]) && b4 == NextBar(b3, os[3])
    requires b5 == NextBar(b4, os[4]) && b6 == NextBar(b5, os[5]) && b7 == NextBar(b6, os[6])
    ensures RunBar(b, os) == b7
  {
    hide NextBar, ObsOk;
    assert os[..7] == os && os[..0] == [];
    assert os[..1][..0] == os[..0] && os[..2][..1] == os[..1] && os[..3][..2] == os[..2] && os[..4][..3] == os[..3];
    assert os[..5][..4] == os[..4] && os[..6][..5] == os[..5] && os[..7][..6] == os[..6];
    assert RunBar(b, os[..1]) == b1;
    assert RunBar(b, os[..2]) == b2;
    assert RunBar(b, os[..3]) == b3;
    assert RunBar(b, os[..4]) == b4;
    assert RunBar(b, os[..5]) == b5;
    assert RunBar(b, os[..6]) == b6;
  }
}
