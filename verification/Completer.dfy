/** The BAR0 completer of pcie_completer_to_bram.sv: request decode, the state machine, byte lanes
    and the completion header. */
module Completer {
  import opened Hw

  datatype CState = AfterReset | WaitReq | StoreWr | StoreRd | WaitCpl | SendCpl | SendUr

  datatype Kind = MemRead | MemWrite | OtherType

  /** A request: dword address, length, byte enables of its first and second dword, 8 data bytes. */
  datatype Req = Req(kind: Kind, bar: nat, addr: nat, cnt: nat, id: nat, tag: nat,
                     first: seq<bool>, second: seq<bool>, data: seq<nat>)

  predicate ReqOk(r: Req) { |r.first| == |r.second| == 4 && |r.data| == 8 && Octets(r.data) }

  predicate Octets(w: seq<nat>) { forall k :: 0 <= k < |w| ==> w[k] < 256 }

  /** One cycle of the request stream. */
  datatype Beat = Beat(valid: bool, sop: bool, discontinue: bool, req: Req)

  datatype Decoded = NoReq | ValidRd | ValidWr | Unsupported

  /** A request of this kind for this BAR, at the start of a packet. */
  predicate Offered(bar: nat, b: Beat, kind: Kind) {
    b.valid && b.sop && !b.discontinue && b.req.bar == bar && b.req.kind == kind
  }

  /** One of one or two dwords. */
  predicate Proper(bar: nat, b: Beat, kind: Kind) { Offered(bar, b, kind) && 1 <= b.req.cnt <= 2 }

  function Decode(bar: nat, b: Beat): (d: Decoded)
    ensures (d == ValidRd <==> Proper(bar, b, MemRead)) && (d == ValidWr <==> Proper(bar, b, MemWrite))
    ensures d == NoReq <==> !Offered(bar, b, MemRead) && !Offered(bar, b, MemWrite)
  {
    if !b.sop || b.discontinue || !b.valid || b.req.bar != bar then NoReq
    else match b.req.kind
      case MemRead => if b.req.cnt == 1 || b.req.cnt == 2 then ValidRd else Unsupported
      case MemWrite => if b.req.cnt == 1 || b.req.cnt == 2 then ValidWr else Unsupported
      case OtherType => NoReq
  }

  function NextState(s: CState, d: Decoded, ack: bool, ready: bool): CState {
    match s
    case AfterReset => WaitReq
    case WaitReq =>
      (match d case NoReq => WaitReq case ValidRd => StoreRd case ValidWr => StoreWr case Unsupported => SendUr)
    case StoreWr => WaitReq
    case StoreRd => WaitCpl
    case WaitCpl => if ack then SendCpl else WaitCpl
    case SendCpl => if ready then WaitReq else SendCpl
    case SendUr => WaitReq
  }

  // ---------------------------------------------------------------- byte lanes

  const OFF4 := [false, false, false, false]
  const ZERO4 := [0, 0, 0, 0]

  function Lanes(r: Req): (we: seq<bool>)
    requires ReqOk(r)
    ensures |we| == 8
  {
    if r.cnt == 1 then (if r.addr % 2 == 1 then OFF4 + r.first else r.first + OFF4) else r.first + r.second
  }

  function LaneData(r: Req): (d: seq<nat>)
    requires ReqOk(r)
    ensures |d| == 8
  {
    if r.cnt == 1 then (if r.addr % 2 == 1 then ZERO4 + r.data[..4] else r.data[..4] + ZERO4) else r.data
  }

  datatype Byte = Kept | Set(value: nat)

  /** The memory behind the interface: 2^24 words of 8 bytes. */
  const APERTURE := 0x800_0000

  /** What the memory interface does to byte address a. */
  function Written(r: Req, a: nat): Byte
    requires ReqOk(r)
  {
    if a / 8 == r.addr / 2 % 0x100_0000 && Lanes(r)[a % 8] then Set(LaneData(r)[a % 8]) else Kept
  }

  /** What the request asks for: byte k of its payload goes to byte address 4 * addr + k, within the
      aperture. */
  function Asked(r: Req, a: nat): Byte
    requires ReqOk(r)
  {
    var k := (a - 4 * r.addr) % APERTURE;
    if 0 <= k < 4 && r.first[k] then Set(r.data[k])
    else if 4 <= k < 8 && r.cnt == 2 && r.second[k - 4] then Set(r.data[k])
    else Kept
  }

  predicate NothingEnabled(r: Req) { !(true in r.first) && !(true in r.second) }

  /** A write lands where it should iff it is one dword long, starts at an even dword or enables
      nothing. */
  lemma WriteLands(r: Req)
    requires ReqOk(r) && 1 <= r.cnt <= 2
    ensures (forall a :: 0 <= a < APERTURE ==> Written(r, a) == Asked(r, a))
       <==> r.cnt == 1 || r.addr % 2 == 0 || NothingEnabled(r)
  {
    if r.cnt == 1 || r.addr % 2 == 0 || NothingEnabled(r) {
      forall a | 0 <= a < APERTURE ensures Written(r, a) == Asked(r, a) { Lands(r, a); }
    } else {
      var a := Stray(r);
      assert Written(r, a) != Asked(r, a);
    }
  }

  lemma Lands(r: Req, a: nat)
    requires ReqOk(r) && 1 <= r.cnt <= 2 && (r.cnt == 1 || r.addr % 2 == 0 || NothingEnabled(r)) && a < APERTURE
    ensures Written(r, a) == Asked(r, a)
  {
    Distance(a, r.addr);
  }

  /** Where byte a lies relative to the request. */
  lemma Distance(a: nat, addr: nat)
    requires a < APERTURE
    ensures var h, odd := addr / 2 % 0x100_0000, addr % 2; var k := (a - 4 * addr) % APERTURE;
      && (a / 8 == h ==> k == (if a % 8 >= 4 * odd then a % 8 - 4 * odd else a % 8 - 4 * odd + APERTURE))
      && (k < 8 && 4 * odd + k < 8 ==> a / 8 == h && a % 8 == 4 * odd + k)
  {
    var h, odd, t := addr / 2 % 0x100_0000, addr % 2, addr / 2 / 0x100_0000;
    assert 4 * addr == 8 * h + 4 * odd + APERTURE * t;
    Wrapped(a - 4 * addr, a - 8 * h - 4 * odd, t);
  }

  lemma Wrapped(x: int, y: int, t: int)
    requires x == y - APERTURE * t
    ensures x % APERTURE == y % APERTURE
  {
  }

  /** A pair at an odd dword: its lowest enabled byte is stored four bytes below its place. */
  lemma Stray(r: Req) returns (a: nat)
    requires ReqOk(r) && r.cnt == 2 && r.addr % 2 == 1 && !NothingEnabled(r)
    ensures a < APERTURE && Written(r, a) != Asked(r, a)
  {
    var h := r.addr / 2 % 0x100_0000;
    if k :| 0 <= k < 4 && r.first[k] {
      a := 8 * h + k;
      Distance(a, r.addr);
      assert a % 8 == k && a / 8 == h;
    } else {
      var k :| 0 <= k < 4 && r.second[k];
      a := 8 * h + 4 + k;
      Distance(a, r.addr);
      assert a % 8 == 4 + k && a / 8 == h;
    }
  }

  // ---------------------------------------------------------------- byte count and lower address

  /** Byte count, lower address and data of the completion. */
  datatype Cpl = Cpl(count: nat, lower: nat, data: nat)

  /** The bytes between the lowest and the highest enabled one. */
  predicate Spans(b: seq<bool>, lo: nat, hi: nat) {
    && lo <= hi < |b| && b[lo] && b[hi]
    && (forall k :: 0 <= k < lo ==> !b[k]) && (forall k :: hi < k < |b| ==> !b[k])
  }

  datatype Entry = Same | Entry(count: nat, low: nat)

  /** The tables of the source, for one and for two dwords; a pattern that is not listed keeps
      the values of the previous completion. */
  function Tabled(b: seq<bool>): Entry
    requires |b| == 4
  {
    if b[3] && b[0] then Entry(4, 0)
    else if !b[3] && b[2] && b[0] then Entry(3, 0)
    else if b[3] && b[1] && !b[0] then Entry(3, 1)
    else if b == [true, true, false, false] then Entry(2, 0)
    else if b == [false, true, true, false] then Entry(2, 1)
    else if b == [false, false, true, true] then Entry(2, 2)
    else if b == [true, false, false, false] then Entry(1, 0)
    else if b == [false, true, false, false] then Entry(1, 1)
    else if b == [false, false, true, false] then Entry(1, 2)
    else if b == [false, false, false, true] then Entry(1, 3)
    else Same
  }

  const TABLE2 := [[5, 6, 7, 8], [4, 5, 6, 7], [3, 4, 5, 6], [2, 3, 4, 5]]

  function Tabled2(f: seq<bool>, s: seq<bool>): Entry
    requires |f| == |s| == 4
  {
    if f == OFF4 || s == OFF4 then Same
    else
      var lo := if f[0] then 0 else if f[1] then 1 else if f[2] then 2 else 3;
      var hi := if s[3] then 3 else if s[2] then 2 else if s[1] then 1 else 0;
      Entry(TABLE2[lo][hi], lo)
  }

  function Half(addr: nat, cnt: nat, dout: nat): nat {
    if cnt == 1 then (if addr % 2 == 1 then dout / 0x1_0000_0000 else dout % 0x1_0000_0000) else dout
  }

  function NextCpl(p: Cpl, r: Req, dout: nat): Cpl
    requires ReqOk(r)
  {
    var e := if r.cnt == 1 then Tabled(r.first) else Tabled2(r.first, r.second);
    var data := Half(r.addr, r.cnt, dout);
    if e.Same? then p.(data := data) else Cpl(e.count, (4 * r.addr + e.low) % 128, data)
  }

  function Pattern(r: Req): seq<bool> { if r.cnt == 1 then r.first else r.first + r.second }

  /** Section 2.3.1.1 of the PCI Express Base Specification 3.0: the byte count spans from the
      first to the last enabled byte and the lower address is that of the first one. The code
      meets it whenever every dword of the request has an enabled byte, and otherwise repeats
      what the previous completion said. */
  lemma HeaderSpans(p: Cpl, r: Req, dout: nat, lo: nat, hi: nat)
    requires ReqOk(r) && 1 <= r.cnt <= 2 && Spans(Pattern(r), lo, hi)
    ensures var n := NextCpl(p, r, dout);
      if lo < 4 && (r.cnt == 2 ==> hi >= 4)
      then n.count == hi - lo + 1 && n.lower == (4 * r.addr + lo) % 128
      else n.count == p.count && n.lower == p.lower
  {
    hide Half;
    var b := Pattern(r);
    if r.cnt == 2 {
      assert b[0] == r.first[0] && b[1] == r.first[1] && b[2] == r.first[2] && b[3] == r.first[3];
      assert b[4] == r.second[0] && b[5] == r.second[1] && b[6] == r.second[2] && b[7] == r.second[3];
      assert r.first == OFF4 <==> lo >= 4;
      assert r.second == OFF4 <==> hi < 4;
    } else {
      assert b == [b[0], b[1], b[2], b[3]];
    }
  }

  lemma HeaderOfNothing(p: Cpl, r: Req, dout: nat)
    requires ReqOk(r) && 1 <= r.cnt <= 2 && !(true in Pattern(r))
    ensures NextCpl(p, r, dout).count == p.count && NextCpl(p, r, dout).lower == p.lower
  {
    if r.cnt == 2 {
      assert forall k :: 0 <= k < 4 ==> Pattern(r)[k] == r.first[k];
      assert r.first == OFF4;
    }
  }

  // ---------------------------------------------------------------- reads

  /** With w the 16 bytes of the memory from the word of the request on, the completion carries the bytes
      from byte address 4 * addr on. */
  predicate Returned(p: Cpl, r: Req, w: seq<nat>)
    requires ReqOk(r) && |w| == 16 && 1 <= r.cnt <= 2
  {
    var at := 4 * (r.addr % 2);
    NextCpl(p, r, Val(w[..8])).data == Val(w[at..at + 4 * r.cnt])
  }

  /** A read returns what is stored at its address, whatever that is, iff it is one dword long or starts at
      an even dword. */
  lemma ReadLands(p: Cpl, r: Req)
    requires ReqOk(r) && 1 <= r.cnt <= 2
    ensures (forall w: seq<nat> :: |w| == 16 && Octets(w) ==> Returned(p, r, w)) <==> r.cnt == 1 || r.addr % 2 == 0
  {
    if r.cnt == 1 || r.addr % 2 == 0 {
      forall w: seq<nat> | |w| == 16 && Octets(w) ensures Returned(p, r, w) { Reads(p, r, w); }
    } else {
      var w := seq(16, k => if k == 0 then 1 else 0);
      ZeroVal(w[4..12]);
      ZeroVal(w[1..8]);
      assert w[..8][1..] == w[1..8];
      assert !Returned(p, r, w);
    }
  }

  lemma Reads(p: Cpl, r: Req, w: seq<nat>)
    requires ReqOk(r) && |w| == 16 && Octets(w) && (r.cnt == 1 || (r.cnt == 2 && r.addr % 2 == 0))
    ensures Returned(p, r, w)
  {
    hide Tabled, Tabled2, Val;
    Dword(w[..4]);
    Dword(w[4..8]);
    ValJoins(w[..4], w[4..8]);
    assert w[..4] + w[4..8] == w[..8];
  }

  lemma Dword(b: seq<nat>)
    requires |b| == 4 && Octets(b)
    ensures Val(b) < 0x1_0000_0000
  {
    var b1, b2, b3 := b[1..], b[2..], b[3..];
    assert b1[1..] == b2 && b2[1..] == b3 && b3[1..] == [];
    assert Val(b3) == b[3] && Val(b2) == b[2] + 256 * Val(b3) && Val(b1) == b[1] + 256 * Val(b2);
  }

  /** Four bytes are worth 32 bits. */
  lemma ValJoins(a: seq<nat>, b: seq<nat>)
    requires |a| == 4
    ensures Val(a + b) == Val(a) + 0x1_0000_0000 * Val(b)
  {
    ValStep(a, b);
    ValStep(a[1..], b);
    ValStep(a[1..][1..], b);
    ValStep(a[1..][1..][1..], b);
    assert a[1..][1..][1..][1..] == [] && [] + b == b;
  }

  lemma ValStep(a: seq<nat>, b: seq<nat>)
    requires a != []
    ensures Val(a + b) == a[0] + 256 * Val(a[1..] + b) && Val(a) == a[0] + 256 * Val(a[1..])
  {
    assert (a + b)[1..] == a[1..] + b;
  }

  lemma {:induction false} ZeroVal(b: seq<nat>)
    requires forall k :: 0 <= k < |b| ==> b[k] == 0
    ensures Val(b) == 0
  {
    if b != [] { ZeroVal(b[1..]); }
  }

  // ---------------------------------------------------------------- clocked form

  /** State, captured request and completion registers, updated at every clock edge. */
  class Unit {
    var state: CState
    var req: Req
    var cpl: Cpl

    constructor (r: Req, c: Cpl)
      ensures state == AfterReset && req == r && cpl == c
    {
      state, req, cpl := AfterReset, r, c;
    }

    method Tick(bar: nat, b: Beat, ack: bool, ready: bool, dout: nat)
      requires ReqOk(req)
      modifies this
      ensures state == NextState(old(state), Decode(bar, b), ack, ready)
      ensures req == if old(state) == WaitReq && Decode(bar, b) != NoReq then b.req else old(req)
      ensures cpl == if old(state) == WaitCpl then NextCpl(old(cpl), old(req), dout) else old(cpl)
    {
      var d := Decode(bar, b);
      match state {
        case AfterReset => state := WaitReq;
        case WaitReq =>
          if d != NoReq { req := b.req; }
          match d {
            case NoReq =>
            case ValidRd => state := StoreRd;
            case ValidWr => state := StoreWr;
            case Unsupported => state := SendUr;
          }
        case StoreWr => state := WaitReq;
        case StoreRd => state := WaitCpl;
        case WaitCpl =>
          cpl := NextCpl(cpl, req, dout);
          if ack { state := SendCpl; }
        case SendCpl => if ready { state := WaitReq; }
        case SendUr => state := WaitReq;
      }
    }
  }
}
