/** The engine manager in the form of its source: control and index registers, the acknowledge
    shift register and the statistics memory, written in place at every clock edge. */
module EngineManager {
  import opened Hw
  import opened Manager

  class Unit {
    var ctl: Ctl
    var path: Reader
    var acks: Acks
    var ena: bool
    var dina: seq<nat>
    var put: Put
    var a1: seq<nat>
    var a2: seq<nat>
    var outA: seq<nat>
    var s1: seq<nat>
    var s2: seq<nat>
    var outS: seq<nat>
    var config: Config
    const ram: array<seq<nat>>
    const addrs: array<seq<nat>>
    const sizes: array<seq<nat>>

    ghost function Memory(): Store
      reads this, ram
    {
      Store(ena, dina, ram[..])
    }

    ghost function Descriptors(): Table
      reads this, addrs, sizes
    {
      Table(put, addrs[..], sizes[..], a1, a2, outA, s1, s2, outS)
    }

    ghost predicate Valid()
      reads this, ram, addrs, sizes
    {
      && StoreOk(Memory()) && ReaderOk(path) && ctl.active < SLOTS
      && TableOk(Descriptors()) && ConfigOk(config) && ram != addrs && ram != sizes && addrs != sizes
    }

    constructor ()
      ensures Valid() && fresh(ram) && fresh(addrs) && fresh(sizes)
      ensures ctl == CTL_RESET && !ena && acks == Acks(false, false, false, false)
    {
      var zero, word := [0, 0, 0, 0, 0], [0, 0, 0, 0, 0, 0, 0, 0];
      ctl, acks := CTL_RESET, Acks(false, false, false, false);
      path := Reader(zero, zero, zero, 0, false, 0);
      ena, dina := false, zero;
      put := Put(false, false, seq(8, k => false), 0, 0, word);
      a1, a2, outA, s1, s2, outS := word, word, word, word, word, word;
      config := Config([word, word, word, word, word], word);
      ram := new seq<nat>[SLOTS](_ => zero);
      addrs := new seq<nat>[SLOTS](_ => word);
      sizes := new seq<nat>[SLOTS](_ => word);
    }

    /** Registers the host writes: the control byte and the stop index. */
    method HostBlock(a: Access) returns (enable: bool, reset: bool, clear: bool, capW: bool, capR: bool, mode: nat,
      last: nat)
      requires AccessOk(a)
      ensures var n := NextCtl(ctl, a, false);
        && enable == n.enable && reset == n.resetR && clear == n.clStats
        && capW == n.capW && capR == n.capR && mode == n.mode && last == n.last
    {
      hide Bit;
      enable, reset, clear := ctl.enable && !ctl.stop, false, false;
      capW, capR, mode, last := ctl.capW, ctl.capR, ctl.mode, ctl.last;
      if a.en && a.addr == TABLE && a.we[0] {
        var b := a.din[0];
        mode, capW, capR := b / 16 % 4, Bit(b, 2), Bit(b, 3);
        clear, reset, enable := Bit(b, 1) || Bit(b, 0), Bit(b, 1), Bit(b, 0);
      } else if a.en && a.addr == TABLE + 1 {
        var low := if a.we[0] then a.din[0] else last % 256;
        var high := if a.we[1] then a.din[1] % 4 else last / 256;
        last := low + 256 * high;
      }
    }

    /** Registers the engine moves: stop, running time, active index and VALID_ENGINE. */
    method IndexBlock(end: bool) returns (stop: bool, time: nat, active: nat, valid: bool)
      requires ctl.active < SLOTS
      ensures var n := NextCtl(ctl, NO_ACCESS, end);
        stop == n.stop && time == n.time && active == n.active && valid == n.valid && active < SLOTS
    {
      stop, time, active := false, ctl.time, ctl.active;
      if ctl.clStats {
        time := 0;
      } else {
        stop := end && ctl.active == ctl.last;
        if ctl.enable && !ctl.stop { time := W64(time + 1); }
      }
      if end {
        valid := ctl.active != ctl.last;
        if active == SLOTS - 1 { active := 0; } else { active := active + 1; }
      } else {
        valid := ctl.active == ctl.pipeIdx && ctl.enable;
      }
    }

    method ControlBlock(a: Access, end: bool)
      requires AccessOk(a) && ctl.active < SLOTS
      modifies this`ctl
      ensures ctl == NextCtl(old(ctl), a, end) && ctl.active < SLOTS
    {
      hide Bit, W64, Succ;
      var enable, reset, clear, capW, capR, mode, last := HostBlock(a);
      var stop, time, active, valid := IndexBlock(end);
      ctl := Ctl(enable, reset, clear, stop, ctl.enable && !ctl.stop, capW, capR, mode,
                 last, active, ctl.active, valid, time);
    }

    /** Read side: address registers, memory output, result registers. */
    method ReadBlock(a: Access, other: nat)
      requires Valid()
      modifies this`path
      ensures ReaderOk(path) && path == NextReader(old(path), a, ctl, ram[..], other)
    {
      var r := path;
      var n := r.(p2 := r.p1, data := other);
      var word := Eff(a.addr) % 8;
      if word >= 3 { n := n.(data := r.p2[word - 3]); }
      var row, out := [], [];
      var k := 0;
      while k < 5
        invariant 0 <= k <= 5 && |row| == |out| == k
        invariant forall j :: 0 <= j < k ==> row[j] == SlotReg(a.addr, j) && out[j] == ram[r.slots[j]][j]
      {
        row, out := row + [SlotReg(a.addr, k)], out + [ram[r.slots[k]][k]];
        k := k + 1;
      }
      n := n.(slots := row, p1 := out);
      if a.en { n := n.(isEngine := IsEngineWord(a.addr), engine := EngineWord(ctl, a.addr)); }
      path := n;
    }

    /** Descriptor memories: the pending write is filed, the active row moves towards the outputs. */
    method DescriptorBlock(a: Access, update: bool)
      requires AccessOk(a) && TableOk(Descriptors()) && ctl.active < SLOTS && addrs != sizes
      modifies this`put, this`a1, this`a2, this`outA, this`s1, this`s2, this`outS, addrs, sizes
      ensures TableOk(Descriptors()) && Descriptors() == NextTable(old(Descriptors()), a, update, ctl.active)
    {
      hide Merge, Eff;
      outA, outS := a2, s2;
      a2, s2 := a1, s1;
      a1, s1 := addrs[ctl.active], sizes[ctl.active];
      if put.enaA { addrs[put.slotA] := Merge(addrs[put.slotA], put.din, put.we); }
      if put.enaS { sizes[put.slotS] := Merge(sizes[put.slotS], put.din, put.we); }
      put := NextPut(put, a, update);
    }

    /** Statistics memory: the pending row is stored in the active slot. */
    method StatisticsBlock(update: bool, stats: seq<nat>)
      requires StoreOk(Memory()) && ctl.active < SLOTS && |stats| == 5
      modifies this`ena, this`dina, ram
      ensures StoreOk(Memory()) && Memory() == NextStore(old(Memory()), update, stats, ctl.active)
    {
      if ena { ram[ctl.active] := dina; }
      ena, dina := update, stats;
    }

    /** Configuration registers and the acknowledge shift register. */
    method ConfigBlock(a: Access)
      requires AccessOk(a) && ConfigOk(config)
      modifies this`config, this`acks
      ensures ConfigOk(config) && config == NextConfig(old(config), a) && acks == NextAcks(old(acks), a.en)
    {
      var regs := config.regs;
      var k := a.addr - TABLE - 3;
      if a.en && 0 <= k < 5 { regs := regs[k := Merge(regs[k], a.din, a.we)]; }
      config := Config(regs, config.regs[0]);
      acks := Acks(a.en, acks.p1, acks.p2, acks.p3);
    }

    /** One rising edge. */
    method Tick(a: Access, end: bool, update: bool, stats: seq<nat>, other: nat)
      requires Valid() && AccessOk(a) && |stats| == 5
      modifies this, ram, addrs, sizes
      ensures Valid()
      ensures ctl == NextCtl(old(ctl), a, end)
      ensures Memory() == NextStore(old(Memory()), update, stats, old(ctl.active))
      ensures Descriptors() == NextTable(old(Descriptors()), a, update, old(ctl.active))
      ensures config == NextConfig(old(config), a)
      ensures path == NextReader(old(path), a, old(ctl), old(ram[..]), other)
      ensures acks == NextAcks(old(acks), a.en)
    {
      hide NextCtl, NextReader, NextTable, NextConfig, NextStore, StoreOk, TableOk, ReaderOk, ConfigOk;
      ReadBlock(a, other);
      DescriptorBlock(a, update);
      ghost var t := Descriptors();
      StatisticsBlock(update, stats);
      ghost var m := Memory();
      ConfigBlock(a);
      ControlBlock(a, end);
      assert Descriptors() == t && Memory() == m;
    }
  }
}
