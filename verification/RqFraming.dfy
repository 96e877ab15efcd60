/** A receiver of the request stream that only looks at TKEEP and TLAST, and the proof that it
    recovers from the frames exactly the header and the payload of every TLP. */
module RqFraming {
  import opened Hw
  import opened RqModel
  import opened RqPlan
  import opened RqRefine
  import opened RqSteps
  import opened RqRuns

  datatype Msg = Msg(h: Header, data: seq<nat>)

  /** Messages received so far and the one still open. */
  datatype Rx = Rx(done: seq<Msg>, open: Option<Msg>)

  function QuadDw(q: Quad): (r: seq<nat>)
    ensures |r| == 4
  {
    [q.d0, q.d1, q.d2, q.d3]
  }

  function LaneDw(x: Lane): (r: seq<nat>)
    ensures |r| == 4
  {
    if x.Data? then QuadDw(x.q) else [0, 0, 0, 0]
  }

  /** The dwords whose TKEEP bit is set. */
  function Select(ds: seq<nat>, keep: nat): seq<nat> {
    if ds == [] then [] else (if keep % 2 == 1 then [ds[0]] else []) + Select(ds[1..], keep / 2)
  }

  function RxStep(rx: Rx, b: Beat): Rx {
    var m :=
      match rx.open
      case Some(m) => m.(data := m.data + Select(LaneDw(b.lo) + LaneDw(b.hi), b.keep))
      case None => Msg(if b.lo.Head? then b.lo.h else Header(false, 0, 0, 0), Select(LaneDw(b.hi), b.keep / 16));
    if b.last then Rx(rx.done + [m], None) else Rx(rx.done, Some(m))
  }

  function Receive(bs: seq<Beat>): Rx {
    if bs == [] then Rx([], None) else RxStep(Receive(bs[..|bs| - 1]), bs[|bs| - 1])
  }

  function Dwords(p: seq<Quad>): (r: seq<nat>)
    ensures |r| == 4 * |p|
  {
    if p == [] then [] else Dwords(p[..|p| - 1]) + QuadDw(p[|p| - 1])
  }

  /** What a TLP says: its header and its first `words` payload dwords. */
  function Meaning(t: Tlp): Msg
    requires WellFormed(t)
  {
    if t.WriteTlp? then Msg(Header(true, t.tag, t.words, t.dwAddr), Dwords(t.payload)[..t.words])
    else Msg(Header(false, t.tag, t.words, t.dwAddr), [])
  }

  function Meanings(ts: seq<Tlp>): seq<Msg>
    requires AllWellFormed(ts)
  {
    if ts == [] then [] else Meanings(ts[..|ts| - 1]) + [Meaning(ts[|ts| - 1])]
  }

  lemma ReceiveSnoc(bs: seq<Beat>, b: Beat)
    ensures Receive(bs + [b]) == RxStep(Receive(bs), b)
  {
    assert (bs + [b])[..|bs|] == bs;
  }

  /** A mask of n ones below zeros keeps the first n dwords. */
  predicate Ones(keep: nat, n: nat) { if n == 0 then keep == 0 else keep % 2 == 1 && Ones(keep / 2, n - 1) }

  lemma {:induction false} SelectBits(ds: seq<nat>, n: nat, keep: nat)
    requires n <= |ds| && Ones(keep, n)
    ensures Select(ds, keep) == ds[..n]
  {
    if ds == [] {
    } else if n == 0 {
      SelectBits(ds[1..], 0, 0);
    } else {
      SelectBits(ds[1..], n - 1, keep / 2);
      assert ds[..n] == [ds[0]] + ds[1..][..n - 1];
    }
  }

  lemma SelectLow(ds: seq<nat>, n: nat)
    requires n <= |ds| && n <= 8
    ensures Select(ds, TailKeep(n)) == ds[..n]
  {
    assert Ones(0x01, 1) && Ones(0x03, 2);
    assert Ones(0x07, 3) && Ones(0x0f, 4);
    assert Ones(0x1f, 5) && Ones(0x3f, 6);
    assert Ones(0x7f, 7) && Ones(0xff, 8);
    SelectBits(ds, n, TailKeep(n));
  }

  lemma {:induction false} DwordsApp(p: seq<Quad>, q: seq<Quad>)
    ensures Dwords(p + q) == Dwords(p) + Dwords(q)
  {
    if q == [] {
      assert p + q == p;
    } else {
      DwordsApp(p, q[..|q| - 1]);
      assert (p + q)[..|p + q| - 1] == p + q[..|q| - 1];
    }
  }

  lemma DwordsPair(a: Quad, b: Quad)
    ensures Dwords([a]) == QuadDw(a) && Dwords([a, b]) == QuadDw(a) + QuadDw(b)
  {
    hide QuadDw;
    assert Dwords([a]) == Dwords([]) + QuadDw(a);
    assert [a, b][..1] == [a];
  }

  /** A middle beat hands over two whole entries. */
  lemma ReceiveMiddle(rx: Rx, t: Tlp, k: nat, p: seq<Quad>)
    requires t.WriteTlp? && k >= 1 && 2 * k < |t.payload| && 8 * k + 4 < t.words
    requires rx.open.Some? && p == t.payload[..2 * k - 1] && rx.open.value.data == Dwords(p)
    ensures RxStep(rx, WriteBeat(t, k)) == Rx(rx.done, Some(rx.open.value.(data := Dwords(t.payload[..2 * k + 1]))))
  {
    hide QuadDw, Select, Dwords;
    var b, x, y := WriteBeat(t, k), t.payload[2 * k - 1], t.payload[2 * k];
    assert b.lo == Data(x) && b.hi == Data(y) && b.keep == TailKeep(8) && !b.last;
    var ds := QuadDw(x) + QuadDw(y);
    assert ds[..8] == ds;
    SelectLow(ds, 8);
    DwordsPair(x, y);
    DwordsApp(p, [x, y]);
    assert t.payload[..2 * k + 1] == p + [x, y];
  }

  /** While a write TLP is open the receiver holds its header and the payload seen so far. */
  lemma {:induction false} ReceiveBeats(pre: seq<Beat>, t: Tlp, m: nat)
    requires t.WriteTlp? && Receive(pre).open == None
    requires 1 <= m && 2 * m - 1 <= |t.payload| && 4 * (2 * m - 1) < t.words
    ensures Receive(pre + Beats(t, m))
         == Rx(Receive(pre).done, Some(Msg(Header(true, t.tag, t.words, t.dwAddr), Dwords(t.payload[..2 * m - 1]))))
  {
    hide QuadDw, Select, Dwords, Receive, RxStep;
    var b := WriteBeat(t, m - 1);
    assert pre + Beats(t, m) == (pre + Beats(t, m - 1)) + [b];
    ReceiveSnoc(pre + Beats(t, m - 1), b);
    if m == 1 {
      assert pre + Beats(t, 0) == pre;
      ReceiveHead(Receive(pre), t);
    } else {
      ReceiveBeats(pre, t, m - 1);
      ReceiveMiddle(Receive(pre + Beats(t, m - 1)), t, m - 1, t.payload[..2 * m - 3]);
    }
  }

  lemma ReceiveHead(rx: Rx, t: Tlp)
    requires t.WriteTlp? && rx.open == None && t.payload != [] && t.words > 4
    ensures RxStep(rx, WriteBeat(t, 0))
         == Rx(rx.done, Some(Msg(Header(true, t.tag, t.words, t.dwAddr), Dwords(t.payload[..1]))))
  {
    hide QuadDw, Select, Dwords;
    var ds := QuadDw(t.payload[0]);
    assert ds[..4] == ds;
    SelectLow(ds, 4);
    assert t.payload[..1] == [t.payload[0]];
    DwordsPair(t.payload[0], t.payload[0]);
  }

  /** One frame is received as one message. */
  lemma ReceiveFrame(pre: seq<Beat>, t: Tlp)
    requires WellFormed(t) && Receive(pre).open == None
    ensures Receive(pre + Frame(t)) == Rx(Receive(pre).done + [Meaning(t)], None)
  {
    hide Receive, RxStep, Meaning, Beats;
    if t.ReadTlp? {
      ReceiveSnoc(pre, Frame(t)[0]);
      ReceiveRead(Receive(pre), t);
    } else if t.words <= 4 {
      OneBeat(t);
      ReceiveSnoc(pre, WriteBeat(t, 0));
      ReceiveShort(Receive(pre), t);
    } else {
      ReceiveLast(pre, t, NumBeats(t.words) - 1);
    }
  }

  lemma OneBeat(t: Tlp)
    requires t.WriteTlp? && t.payload != []
    ensures Beats(t, 1) == [WriteBeat(t, 0)]
  {
    assert Beats(t, 1) == Beats(t, 0) + [WriteBeat(t, 0)];
  }

  lemma ReceiveRead(rx: Rx, t: Tlp)
    requires t.ReadTlp? && WellFormed(t) && rx.open == None
    ensures RxStep(rx, Frame(t)[0]) == Rx(rx.done + [Meaning(t)], None)
  {
    hide Select;
    SelectLow([0, 0, 0, 0], 0);
  }

  lemma ReceiveShort(rx: Rx, t: Tlp)
    requires t.WriteTlp? && WellFormed(t) && t.words <= 4 && rx.open == None
    ensures RxStep(rx, WriteBeat(t, 0)) == Rx(rx.done + [Meaning(t)], None)
  {
    hide QuadDw, Select, Dwords;
    SelectLow(QuadDw(t.payload[0]), t.words);
    assert TailKeep(4 + t.words) / 16 == TailKeep(t.words);
    assert t.payload == [t.payload[0]];
    DwordsPair(t.payload[0], t.payload[0]);
  }

  lemma ReceiveLast(pre: seq<Beat>, t: Tlp, m: nat)
    requires t.WriteTlp? && WellFormed(t) && t.words > 4 && m == NumBeats(t.words) - 1 && Receive(pre).open == None
    ensures Receive(pre + Frame(t)) == Rx(Receive(pre).done + [Meaning(t)], None)
  {
    hide QuadDw, Select, Dwords, Receive, RxStep;
    var b := WriteBeat(t, m);
    assert pre + Beats(t, m + 1) == (pre + Beats(t, m)) + [b];
    ReceiveBeats(pre, t, m);
    ReceiveSnoc(pre + Beats(t, m), b);
    ReceiveTail(Receive(pre + Beats(t, m)), t, m, t.payload[..2 * m - 1], t.payload[2 * m - 1..]);
  }

  /** The last beat hands over what is left. */
  lemma ReceiveTail(rx: Rx, t: Tlp, m: nat, p: seq<Quad>, q: seq<Quad>)
    requires t.WriteTlp? && WellFormed(t) && t.words > 4 && m == NumBeats(t.words) - 1
    requires rx.open.Some? && p == t.payload[..2 * m - 1] && q == t.payload[2 * m - 1..]
    requires rx.open.value.data == Dwords(p)
    ensures RxStep(rx, WriteBeat(t, m))
         == Rx(rx.done + [rx.open.value.(data := Dwords(t.payload)[..t.words])], None)
  {
    hide QuadDw, Select, Dwords;
    var b, left := WriteBeat(t, m), t.words - 4 * (2 * m - 1);
    assert b.keep == TailKeep(left) && b.last && 1 <= left <= 4 * |q|;
    SelectLow(LaneDw(b.lo) + LaneDw(b.hi), left);
    assert t.payload == p + q;
    DwordsApp(p, q);
    LastQuads(q, b, left);
    assert Dwords(t.payload)[..t.words] == Dwords(p) + Dwords(q)[..left];
  }

  lemma LastQuads(q: seq<Quad>, b: Beat, left: nat)
    requires 1 <= |q| <= 2 && 1 <= left <= 4 * |q|
    requires b.lo == Data(q[0]) && b.hi == if |q| == 2 then Data(q[1]) else Zero
    ensures (LaneDw(b.lo) + LaneDw(b.hi))[..left] == Dwords(q)[..left]
  {
    hide QuadDw, Dwords;
    DwordsPair(q[0], if |q| == 2 then q[1] else q[0]);
    assert q == if |q| == 2 then [q[0], q[1]] else [q[0]];
  }

  /** Framing is lossless: the stream of a list of TLPs is received as that list. */
  lemma {:induction false} ReceiveAll(ts: seq<Tlp>)
    requires AllWellFormed(ts)
    ensures Receive(FrameAll(ts)) == Rx(Meanings(ts), None)
  {
    if ts != [] {
      ReceiveAll(ts[..|ts| - 1]);
      ReceiveFrame(FrameAll(ts[..|ts| - 1]), ts[|ts| - 1]);
    }
  }

  lemma ReceivedPart(c: Cfg, r: Rq, l: Log)
    requires Legal(c) && Framing(c, r, l) && AllWellFormed(l.tlps)
    ensures Receive(FrameAll(l.tlps) + Half(c, r, l.cur)).done == Meanings(l.tlps)
  {
    hide Receive, RxStep, FrameAll, Beats, Meanings, Split, Pow2, FirstFree, Dwords, WrWords;
    ReceiveAll(l.tlps);
    if l.cur != [] {
      ReceiveBeats(FrameAll(l.tlps), CurTlp(c, r, l.cur), (|l.cur| + 1) / 2);
    } else {
      assert FrameAll(l.tlps) + [] == FrameAll(l.tlps);
    }
  }

  /** TLPs whose last beat has been taken: all of the log, but for one that still waits. */
  function Arrived(o: Out, ts: seq<Tlp>): (n: nat)
    ensures n <= |ts|
  {
    if o.valid && o.beat.last && ts != [] then |ts| - 1 else |ts|
  }

  /** The receiver before the beat that waits in the output register. */
  lemma BeforePending(sent: seq<Beat>, o: Out, ts: seq<Tlp>)
    requires AllWellFormed(ts) && Receive(sent + Pending(o)).done == Meanings(ts)
    ensures Receive(sent).done == Meanings(ts[..Arrived(o, ts)])
  {
    hide Receive, Meaning;
    assert ts[..|ts|] == ts;
    if o.valid {
      ReceiveSnoc(sent, o.beat);
      var was, now := Receive(sent).done, Receive(sent + [o.beat]).done;
      if o.beat.last {
        assert now[..|was|] == was && |now| == |was| + 1;
        assert Meanings(ts)[..|was|] == Meanings(ts[..|ts| - 1]);
      }
    } else {
      assert sent + [] == sent;
    }
  }

  /** In every run, what the receiver has closed with the beats that were taken is exactly the list of
      TLPs of the log, without the one whose last beat still waits. */
  lemma ReceivedInOrder(c: Cfg, s: Rq, ins: seq<In>)
    requires Legal(c) && Ready(c, s)
    ensures var (r, l) := Exec(c, s, EMPTY, ins);
      && AllWellFormed(l.tlps) && Receive(l.sent + Pending(r.out)).done == Meanings(l.tlps)
      && Receive(l.sent).done == Meanings(l.tlps[..Arrived(r.out, l.tlps)])
      && (!r.out.valid ==> Receive(l.sent).done == Meanings(l.tlps))
  {
    hide Next, Record, Matches, Receive, FrameAll, Half, Framing, Cursor, Matched, Meanings;
    RunInv(c, s, ins);
    var (r, l) := Exec(c, s, EMPTY, ins);
    FramingOf(c, r, l);
    ReceivedPart(c, r, l);
    BeforePending(l.sent, r.out, l.tlps);
    assert l.tlps[..|l.tlps|] == l.tlps;
  }
}
