/** writeDMADescriptor of nfpdma.c: the register writes of one call in their order, the ring counter,
    and the table of DMA mappings. */
module Driver {
  import opened Hw
  import opened Manager
  import opened Lockstep

  /** The fields of a software descriptor that a call uses. */
  datatype Order = Order(index: nat, length: nat, bufferSize: nat, tlps: nat, offset: nat, incr: nat,
                         toHost: bool, fromHost: bool, mode: nat, enable: bool)

  predicate OrderOk(d: Order) { d.index < SLOTS && d.mode < 4 }

  /** A write of n bytes at a word address. */
  function Store64(addr: nat, v: nat): (a: Access)
    requires addr < 0x1_0000
    ensures AccessOk(a)
  {
    Access(true, addr, seq(8, k => true), Bytes(v, 8))
  }

  /** Little-endian bytes. */
  function Bytes(v: nat, n: nat): (b: seq<nat>)
    ensures |b| == n && forall k :: 0 <= k < n ==> b[k] < 256
  {
    if n == 0 then [] else [v % 256] + Bytes(v / 256, n - 1)
  }

  function Store32(addr: nat, v: nat): (a: Access)
    requires addr < 0x1_0000
    ensures AccessOk(a)
  {
    Access(true, addr, seq(8, k => k < 4), Bytes(v, 8))
  }

  function Store16(addr: nat, v: nat): (a: Access)
    requires addr < 0x1_0000
    ensures AccessOk(a)
  {
    Access(true, addr, seq(8, k => k < 2), Bytes(v, 8))
  }

  function Direction(d: Order): nat { 4 * B2N(d.toHost) + 8 * B2N(d.fromHost) + 16 * d.mode }

  /** The writes of one call with the counter at n: shared registers, descriptor, direction, stop
      index, and the enable if asked for. */
  function Script(d: Order, phys: nat, n: nat): (s: seq<Access>)
    requires OrderOk(d)
    ensures |s| == (if d.enable then 9 else 8) && forall k :: 0 <= k < |s| ==> AccessOk(s[k])
  {
    [Store64(TABLE + 4, d.bufferSize), Store64(TABLE + 7, d.tlps), Store64(TABLE + 5, d.offset), Store64(TABLE + 6,
      d.incr),
     Store64(TABLE + 8 + 8 * d.index, phys), Store64(TABLE + 9 + 8 * d.index, d.length),
     Store32(TABLE, Direction(d)), Store16(TABLE + 1, n)]
    + (if d.enable then [Store32(TABLE, Direction(d) + 1)] else [])
  }

  /** The ring counter after a call. */
  function Bump(n: nat): nat { (n + 1) % SLOTS }

  /** The driver in front of the hardware is the one the lockstep results ask for: with its counter
      at the number of calls, every write of a call is allowed where it happens, the stop index
      arms the engine and the enable starts it. */
  lemma CallIsDriven(d: Order, phys: nat, z: Sys, k: nat)
    requires OrderOk(d) && k < |Script(d, phys, z.y.calls % SLOTS)|
    requires if k == 8 then z.y.phase == Armed else z.y.phase != Polling
    ensures var a := Script(d, phys, z.y.calls % SLOTS)[k];
      && DriverOk(z, a) && (WritesLast(a) <==> k == 7) && (Enables(a) <==> k == 8)
  {
    var n := z.y.calls % SLOTS;
    var a := Script(d, phys, n)[k];
    if k == 7 {
      StopBytes(n);
    } else if k == 6 || k == 8 {
      ControlBits(d);
    }
  }

  lemma StopBytes(n: nat)
    requires n < SLOTS
    ensures Bytes(n, 8)[0] + 256 * Bytes(n, 8)[1] == n
  {
    assert Bytes(n, 8)[1] == Bytes(n / 256, 7)[0];
  }

  lemma ControlBits(d: Order)
    requires OrderOk(d)
    ensures Bytes(Direction(d), 8)[0] == Direction(d) && Bytes(Direction(d) + 1, 8)[0] == Direction(d) + 1
    ensures !Bit(Direction(d), 0) && !Bit(Direction(d), 1) && Bit(Direction(d) + 1, 0) && !Bit(Direction(d) + 1, 1)
  {
    assert Pow2(1) == 2;
  }

  // ---------------------------------------------------------------- mappings

  /** How often buffer y is entered in the table. */
  function Times(addr: seq<nat>, valid: seq<bool>, y: nat): nat
    requires |addr| == |valid|
  {
    if addr == [] then 0 else B2N(valid[0] && addr[0] == y) + Times(addr[1..], valid[1..], y)
  }

  lemma {:induction false} TimesSet(addr: seq<nat>, valid: seq<bool>, i: nat, x: nat, v: bool, y: nat)
    requires i < |addr| == |valid|
    ensures Times(addr[i := x], valid[i := v], y) + B2N(valid[i] && addr[i] == y) ==
      Times(addr, valid, y) + B2N(v && x == y)
  {
    var a, b := addr[i := x], valid[i := v];
    if i == 0 {
      assert a[1..] == addr[1..] && b[1..] == valid[1..];
    } else {
      TimesSet(addr[1..], valid[1..], i - 1, x, v, y);
      assert a[1..] == addr[1..][i - 1 := x] && b[1..] == valid[1..][i - 1 := v];
    }
  }

  lemma {:induction false} NoneValid(addr: seq<nat>, valid: seq<bool>, y: nat)
    requires |addr| == |valid| && forall k :: 0 <= k < |valid| ==> !valid[k]
    ensures Times(addr, valid, y) == 0
  {
    if addr != [] { NoneValid(addr[1..], valid[1..], y); }
  }

  class Card {
    var ldescriptor: nat
    const phyAddr: array<nat>
    const phyValid: array<bool>
    ghost var mapped: multiset<nat>
    ghost var leaked: multiset<nat>

    /** Every mapping in force is in the table, except those whose entry was overwritten. */
    ghost predicate Valid()
      reads this`mapped, this`leaked, phyAddr, phyValid
    {
      && phyAddr.Length == phyValid.Length == SLOTS
      && forall y: nat :: mapped[y] == Times(phyAddr[..], phyValid[..], y) + leaked[y]
    }

    constructor ()
      ensures Valid() && ldescriptor == 0 && mapped == leaked == multiset{} && fresh(phyAddr) && fresh(phyValid)
      ensures forall k :: 0 <= k < SLOTS ==> !phyValid[k]
    {
      ldescriptor := 0;
      phyAddr := new nat[SLOTS](_ => 0);
      phyValid := new bool[SLOTS](_ => false);
      mapped, leaked := multiset{}, multiset{};
      new;
      forall y: nat ensures Times(phyAddr[..], phyValid[..], y) == 0 { NoneValid(phyAddr[..], phyValid[..], y); }
    }

    /** Map a buffer and enter it in slot i; what was mapped there is forgotten. */
    method Enter(i: nat, phys: nat)
      requires Valid() && i < SLOTS
      modifies this`mapped, this`leaked, phyAddr, phyValid
      ensures Valid() && mapped == old(mapped) + multiset{phys}
      ensures leaked == (if old(phyValid[i]) then old(leaked) + multiset{old(phyAddr[i])} else old(leaked))
      ensures phyAddr[i] == phys && phyValid[..] == old(phyValid[..])[i := true]
    {
      ghost var a, v := phyAddr[..], phyValid[..];
      if phyValid[i] { leaked := leaked + multiset{phyAddr[i]}; }
      mapped := mapped + multiset{phys};
      phyAddr[i] := phys;
      phyValid[i] := true;
      assert phyAddr[..] == a[i := phys] && phyValid[..] == v[i := true];
      forall y: nat ensures mapped[y] == Times(phyAddr[..], phyValid[..], y) + leaked[y] {
        TimesSet(a, v, i, phys, true, y);
      }
    }

    /** Unmap the buffer of slot i, if there is one. */
    method Drop(i: nat)
      requires Valid() && i < SLOTS
      modifies this`mapped, phyValid
      ensures Valid() && !phyValid[i] && forall k :: 0 <= k < SLOTS && k != i ==> phyValid[k] == old(phyValid[k])
    {
      hide Times;
      ghost var a, v := phyAddr[..], phyValid[..];
      if phyValid[i] { mapped := mapped - multiset{phyAddr[i]}; }
      phyValid[i] := false;
      assert phyAddr[..] == a[i := a[i]] && phyValid[..] == v[i := false];
      forall y: nat ensures mapped[y] == Times(phyAddr[..], phyValid[..], y) + leaked[y] {
        TimesSet(a, v, i, a[i], false, y);
      }
    }

    /** Unmap every entry of the table. */
    method ReleaseAll()
      requires Valid()
      modifies this`mapped, phyValid
      ensures Valid() && mapped == leaked && forall k :: 0 <= k < SLOTS ==> !phyValid[k]
    {
      var i := 0;
      while i < SLOTS
        invariant 0 <= i <= SLOTS && Valid() && forall k :: 0 <= k < i ==> !phyValid[k]
      {
        Drop(i);
        i := i + 1;
      }
      forall y: nat ensures Times(phyAddr[..], phyValid[..], y) == 0 { NoneValid(phyAddr[..], phyValid[..], y); }
    }

    /** One call. The counter moves on modulo the ring. The mapping made for the call is entered in
        the table, a mapping already there is forgotten, and an enabled call releases the table. */
    method WriteDescriptor(d: Order, phys: nat) returns (io: seq<Access>)
      requires Valid() && OrderOk(d)
      modifies this, phyAddr, phyValid
      ensures Valid() && io == Script(d, phys, old(ldescriptor) % SLOTS)
        && ldescriptor == Bump(old(ldescriptor) % SLOTS)
      ensures leaked == (if old(phyValid[d.index]) then old(leaked) + multiset{old(phyAddr[d.index])} else old(leaked))
      ensures if d.enable then mapped == leaked && (forall k :: 0 <= k < SLOTS ==> !phyValid[k])
              else mapped == old(mapped) + multiset{phys} && phyAddr[d.index] == phys
                   && phyValid[..] == old(phyValid[..])[d.index := true]
    {
      assert phyAddr.Length == SLOTS && phyValid.Length == SLOTS && d.index < SLOTS;
      hide Script, Times, OrderOk, Valid;
      Enter(d.index, phys);
      ghost var v, a := phyValid[..], phyAddr[d.index];
      io := Count(d, phys);
      assert phyValid[..] == v && phyAddr[d.index] == a;
      if d.enable { ReleaseAll(); }
    }

    /** The register writes, with the counter as stop index, and the counter moved on. */
    method Count(d: Order, phys: nat) returns (io: seq<Access>)
      requires OrderOk(d)
      modifies this`ldescriptor
      ensures io == Script(d, phys, old(ldescriptor) % SLOTS) && ldescriptor == Bump(old(ldescriptor) % SLOTS)
    {
      hide Script;
      ldescriptor := ldescriptor % SLOTS;
      io := Writes(d, phys, ldescriptor);
      ldescriptor := (ldescriptor + 1) % SLOTS;
    }
  }

  /** The register writes of a call, one after the other. */
  method Writes(d: Order, phys: nat, n: nat) returns (io: seq<Access>)
    requires OrderOk(d)
    ensures io == Script(d, phys, n)
  {
    hide Bytes, Direction, Store64, Store32, Store16;
    io := [Store64(TABLE + 4, d.bufferSize), Store64(TABLE + 7, d.tlps)];
    io := io + [Store64(TABLE + 5, d.offset), Store64(TABLE + 6, d.incr)];
    io := io + [Store64(TABLE + 8 + 8 * d.index, phys), Store64(TABLE + 9 + 8 * d.index, d.length)];
    io := io + [Store32(TABLE, Direction(d)), Store16(TABLE + 1, n)];
    if d.enable { io := io + [Store32(TABLE, Direction(d) + 1)]; }
  }

  /** A leak: two calls that do not enable use the same index, and the enabled one after them releases
      only what is still in the table. */
  method LeakHappens() returns (card: Card)
    ensures card.Valid() && card.mapped == multiset{1}
    ensures forall k :: 0 <= k < SLOTS ==> !card.phyValid[k]
  {
    hide Script, Times;
    card := new Card();
    var d := Order(5, 64, 4096, 1, 0, 0, true, false, 0, false);
    var io := card.WriteDescriptor(d, 1);
    assert card.leaked == multiset{} && card.phyValid[5] && card.phyAddr[5] == 1 && !card.phyValid[6];
    io := card.WriteDescriptor(d, 2);
    assert card.leaked == multiset{1} && !card.phyValid[6];
    io := card.WriteDescriptor(d.(index := 6, enable := true), 3);
  }
}
