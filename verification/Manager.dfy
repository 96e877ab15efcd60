/** The engine manager of dma_engine_manager.v: which descriptor is active, when the requester may
    run, when the engine stops, where statistics are stored, and how the host reads them back. */
module Manager {
  import opened Hw

  const TABLE := 0x200
  const SLOTS := 1024

  /** One cycle of the memory interface: word address, byte enables and data bytes. */
  datatype Access = Access(en: bool, addr: nat, we: seq<bool>, din: seq<nat>)

  predicate AccessOk(a: Access) {
    |a.we| == 8 && |a.din| == 8 && a.addr < 0x1_0000 && forall k :: 0 <= k < 8 ==> a.din[k] < 256
  }

  const NO_ACCESS := Access(false, 0, seq(8, k => false), seq(8, k => 0))

  predicate Bit(x: nat, k: nat) { x / Pow2(k) % 2 == 1 }

  // ---------------------------------------------------------------- control

  datatype Ctl = Ctl(
    enable: bool, resetR: bool, clStats: bool, stop: bool, running: bool, capW: bool, capR: bool, mode: nat,
    last: nat, active: nat, pipeIdx: nat, valid: bool, time: nat)

  const CTL_RESET := Ctl(false, false, false, false, false, false, true, 0, 0, 0, 0, false, 0)

  predicate WritesControl(a: Access)
    requires AccessOk(a)
  {
    a.en && a.addr == TABLE && a.we[0]
  }

  /** The stop index is written byte by byte: the low 8 of its 10 bits, then the high 2. */
  function NextLast(last: nat, a: Access): nat
    requires AccessOk(a)
  {
    if a.en && a.addr == TABLE + 1 then
      (if a.we[0] then a.din[0] else last % 256) + 256 * (if a.we[1] then a.din[1] % 4 else last / 256)
    else last
  }

  function Succ(k: nat): nat { if k == SLOTS - 1 then 0 else k + 1 }

  function NextCtl(m: Ctl, a: Access, end: bool): Ctl
    requires AccessOk(a)
  {
    var w := WritesControl(a);
    var b := if w then a.din[0] else 0;
    Ctl(if w then Bit(b, 0) else m.enable && !m.stop,
        w && Bit(b, 1),
        w && (Bit(b, 1) || Bit(b, 0)),
        !m.clStats && end && m.active == m.last,
        m.enable && !m.stop,
        if w then Bit(b, 2) else m.capW,
        if w then Bit(b, 3) else m.capR,
        if w then b / 16 % 4 else m.mode,
        NextLast(m.last, a),
        if end then Succ(m.active) else m.active,
        m.active,
        if end then m.active != m.last else m.active == m.pipeIdx && m.enable,
        if m.clStats then 0 else if m.enable && !m.stop then W64(m.time + 1) else m.time)
  }

  // ---------------------------------------------------------------- statistics

  /** Write port of the statistics memories; a row holds the five words of one descriptor. */
  datatype Store = Store(ena: bool, dina: seq<nat>, ram: seq<seq<nat>>)

  predicate Rows(ram: seq<seq<nat>>) { |ram| == SLOTS && forall j :: 0 <= j < SLOTS ==> |ram[j]| == 5 }

  predicate StoreOk(t: Store) { Rows(t.ram) && |t.dina| == 5 }

  function NextStore(t: Store, update: bool, stats: seq<nat>, active: nat): (r: Store)
    requires StoreOk(t) && |stats| == 5 && active < SLOTS
    ensures StoreOk(r)
  {
    Store(update, stats, if t.ena then t.ram[active := t.dina] else t.ram)
  }

  // ---------------------------------------------------------------- read path

  /** Address registers, the two stages of the memory output, and the two result registers. */
  datatype Reader = Reader(slots: seq<nat>, p1: seq<nat>, p2: seq<nat>, data: nat, isEngine: bool, engine: nat)

  predicate ReaderOk(r: Reader) {
    |r.slots| == |r.p1| == |r.p2| == 5 && forall k :: 0 <= k < 5 ==> r.slots[k] < SLOTS
  }

  /** Word address relative to the descriptor table, as a 32-bit number. */
  function Eff(addr: nat): nat { (addr - TABLE - 8) % 0x1_0000_0000 }

  function SlotReg(addr: nat, k: nat): (r: nat)
    ensures r < SLOTS
  {
    ((addr - TABLE - 8 - (k + 3)) % 0x1_0000_0000) / 8 % SLOTS
  }

  function B2N(b: bool): nat { if b then 1 else 0 }

  predicate IsEngineWord(addr: nat) { TABLE <= addr <= TABLE + 3 }

  function EngineWord(m: Ctl, addr: nat): nat {
    if addr == TABLE then
      B2N(m.enable) + 2 * B2N(m.resetR) + 4 * B2N(m.running) + 8 * B2N(m.stop) + 32 * B2N(m.capW) + 64 * B2N(m.capR)
    else if addr == TABLE + 1 then m.active * 1024 + m.last
    else if addr == TABLE + 2 then m.time
    else 0
  }

  /** The words 0 to 2 of a descriptor come from other memories. */
  function NextReader(r: Reader, a: Access, m: Ctl, ram: seq<seq<nat>>, other: nat): (n: Reader)
    requires ReaderOk(r) && Rows(ram)
    ensures ReaderOk(n)
  {
    Reader(seq(5, k requires 0 <= k < 5 => SlotReg(a.addr, k)),
           seq(5, k requires 0 <= k < 5 => ram[r.slots[k]][k]),
           r.p1,
           if Eff(a.addr) % 8 >= 3 then r.p2[Eff(a.addr) % 8 - 3] else other,
           if a.en then IsEngineWord(a.addr) else r.isEngine,
           if a.en then EngineWord(m, a.addr) else r.engine)
  }

  function Dout(r: Reader): nat { if r.isEngine then r.engine else r.data }

  // ---------------------------------------------------------------- descriptors and configuration

  /** A 64-bit word as 8 bytes, written byte by byte. */
  function Merge(was: seq<nat>, din: seq<nat>, we: seq<bool>): (r: seq<nat>)
    requires |was| == |din| == |we| == 8
    ensures |r| == 8
  {
    seq(8, k requires 0 <= k < 8 => if we[k] then din[k] else was[k])
  }

  predicate Words(mem: seq<seq<nat>>) { forall j :: 0 <= j < |mem| ==> |mem[j]| == 8 }

  /** Write port of the two descriptor memories. */
  datatype Put = Put(enaA: bool, enaS: bool, we: seq<bool>, slotA: nat, slotS: nat, din: seq<nat>)

  predicate PutOk(p: Put) { |p.we| == |p.din| == 8 && p.slotA < SLOTS && p.slotS < SLOTS }

  predicate InRange(addr: nat) { Eff(addr) <= 8 * SLOTS }

  function SlotOf(addr: nat, word: nat): (r: nat)
    ensures r < SLOTS
  {
    ((addr - TABLE - 8 - word) % 0x1_0000_0000) / 8 % SLOTS
  }

  /** While the statistics are updated a host write to a descriptor is ignored. */
  function NextPut(p: Put, a: Access, update: bool): (r: Put)
    requires AccessOk(a) && PutOk(p)
    ensures PutOk(r)
  {
    var hit := !update && a.en && InRange(a.addr);
    Put(hit && Eff(a.addr) % 8 == 0, hit && Eff(a.addr) % 8 == 1, if hit then a.we else p.we,
        SlotOf(a.addr, 0), SlotOf(a.addr, 1), a.din)
  }

  /** Memories, the two stages of their second port, and the output registers. */
  datatype Table = Table(put: Put, addrs: seq<seq<nat>>, sizes: seq<seq<nat>>,
                         a1: seq<nat>, a2: seq<nat>, outA: seq<nat>, s1: seq<nat>, s2: seq<nat>, outS: seq<nat>)

  predicate TableOk(t: Table) {
    PutOk(t.put) && |t.addrs| == |t.sizes| == SLOTS && Words(t.addrs) && Words(t.sizes)
  }

  function Filed(mem: seq<seq<nat>>, ena: bool, slot: nat, p: Put): (r: seq<seq<nat>>)
    requires Words(mem) && slot < |mem| && PutOk(p)
    ensures |r| == |mem| && Words(r)
  {
    if ena then mem[slot := Merge(mem[slot], p.din, p.we)] else mem
  }

  function NextTable(t: Table, a: Access, update: bool, active: nat): (r: Table)
    requires AccessOk(a) && TableOk(t) && active < SLOTS
    ensures TableOk(r)
  {
    Table(NextPut(t.put, a, update),
          Filed(t.addrs, t.put.enaA, t.put.slotA, t.put), Filed(t.sizes, t.put.enaS, t.put.slotS, t.put),
          t.addrs[active], t.a1, t.a2, t.sizes[active], t.s1, t.s2)
  }

  /** Window size, buffer size, offset, increment and number of TLPs, and the registered window. */
  datatype Config = Config(regs: seq<seq<nat>>, window: seq<nat>)

  predicate ConfigOk(g: Config) { |g.regs| == 5 && Words(g.regs) }

  function NextConfig(g: Config, a: Access): (r: Config)
    requires AccessOk(a) && ConfigOk(g)
    ensures ConfigOk(r)
  {
    Config(if a.en && TABLE + 3 <= a.addr <= TABLE + 7
           then g.regs[a.addr - TABLE - 3 := Merge(g.regs[a.addr - TABLE - 3], a.din, a.we)] else g.regs,
           g.regs[0])
  }

  // ---------------------------------------------------------------- acknowledge

  datatype Acks = Acks(p1: bool, p2: bool, p3: bool, ack: bool)

  function NextAcks(q: Acks, en: bool): Acks { Acks(en, q.p1, q.p2, q.p3) }
}
