/** Every run of the requester follows its plan. */
module RqRuns {
  import opened Hw
  import opened RqModel
  import opened RqPlan
  import opened RqRefine
  import opened RqSteps
  import opened RqCursor

  lemma FramingOf(c: Cfg, s: Rq, l: Log)
    requires Legal(c) && Inv(c, s, l)
    ensures Framing(c, s, l)
  {
    hide Split, Pow2, Before, FrameAll, Beats;
    if s.st == InitWrite || s.st == Write {
      WrFacts(c, s, l, l.blk, l.wi);
    } else if s.st == InitRead {
      RdFacts(c, s, l, l.blk, l.ri);
    }
  }

  // ---------------------------------------------------------------- what the TLPs look like

  lemma MatchesMono(c: Cfg, w0: seq<nat>, r0: seq<nat>, w1: seq<nat>, r1: seq<nat>, p: Slot, t: Tlp)
    requires Legal(c) && Matches(c, w0, r0, p, t) && w0 <= w1 && r0 <= r1
    ensures Matches(c, w1, r1, p, t)
  {
  }

  lemma WriteMatches(c: Cfg, s: Rq, i: In, l: Log)
    requires Legal(c) && Inv(c, s, l) && WrTlpEnd(s, i)
    ensures Matches(c, l.wrBases, l.rdBases, Slot(true, l.blk, l.wi), CurTlp(c, s, l.cur + Popped(s, i)))
  {
    hide Split, Pow2, FrameAll, Beats, NextOut, Words, Off, PerBlock, Matched, Streamed, One, Two, FirstFree, DimsOk,
         Upto, Popped, Pops;
    WrFacts(c, s, l, l.blk, l.wi);
    NoWrap(c, l.blk, l.wi);
    FramingOf(c, s, l);
    LastBeatCompletes(c, s, i, l.cur, Words(c, l.wi));
  }

  lemma ReadMatches(c: Cfg, s: Rq, i: In, l: Log)
    requires Legal(c) && Inv(c, s, l) && RdIssue(s, i)
    ensures Matches(c, l.wrBases, l.rdBases, Slot(false, l.blk, l.ri), CurRead(c, s))
  {
    hide Split, Pow2, FrameAll, Beats, NextOut;
    RdFacts(c, s, l, l.blk, l.ri);
    IssuedTag(c, s);
  }

  lemma MatchedSnoc(c: Cfg, l: Log, l': Log, p: Slot, t: Tlp)
    requires Legal(c) && Matched(c, l) && Matches(c, l.wrBases, l.rdBases, p, t)
    requires l'.slots == l.slots + [p] && l'.tlps == l.tlps + [t]
    requires l.wrBases <= l'.wrBases && l.rdBases <= l'.rdBases
    ensures Matched(c, l')
  {
    forall k | 0 <= k < |l'.tlps| ensures Matches(c, l'.wrBases, l'.rdBases, l'.slots[k], l'.tlps[k]) {
      MatchesMono(c, l.wrBases, l.rdBases, l'.wrBases, l'.rdBases, l'.slots[k], l'.tlps[k]);
    }
  }

  lemma MatchedStep(c: Cfg, s: Rq, i: In, l: Log)
    requires Legal(c) && Inv(c, s, l)
    ensures Matched(c, Record(c, s, i, l))
  {
    hide Split, Pow2, FrameAll, Beats, NextOut, FirstFree, Streamed, Cursor, Resting, Matches;
    if WrTlpEnd(s, i) {
      WriteMatches(c, s, i, l);
      MatchedSnoc(c, l, Record(c, s, i, l), Slot(true, l.blk, l.wi), CurTlp(c, s, l.cur + Popped(s, i)));
    } else if RdIssue(s, i) {
      ReadMatches(c, s, i, l);
      MatchedSnoc(c, l, Record(c, s, i, l), Slot(false, l.blk, l.ri), CurRead(c, s));
    }
  }

  /** The payload of the logged TLPs is what left the buffer, in the same order. */
  lemma PayloadStep(c: Cfg, s: Rq, i: In, l: Log)
    requires Legal(c) && Shaped(c, s) && l.taken == Payload(l.tlps) + l.cur && (s.st == InitRead ==> l.cur == [])
    ensures var l' := Record(c, s, i, l); l'.taken == Payload(l'.tlps) + l'.cur
  {
    hide Split, Payload, Popped, Sent, WrTlpEnd, RdIssue, Start, CurTlp, CurRead, WrGenAddr, RdGenAddr, PerBlock;
    var l', q := Record(c, s, i, l), Popped(s, i);
    if Start(c, s, i) {
      PayloadNone();
    } else if WrTlpEnd(s, i) {
      WrittenPayload(c, s, l.cur + q);
      PayloadSnoc(l.tlps, CurTlp(c, s, l.cur + q));
      assert l.taken + q == Payload(l.tlps) + (l.cur + q);
    } else if RdIssue(s, i) {
      ReadingIsInitRead(c, s, i);
      PayloadSnoc(l.tlps, CurRead(c, s));
    } else {
      assert l.taken + q == Payload(l.tlps) + (l.cur + q);
    }
  }

  lemma PayloadNone()
    ensures Payload([]) == []
  {
  }

  lemma PayloadSnoc(ts: seq<Tlp>, t: Tlp)
    ensures Payload(ts + [t]) == Payload(ts) + if t.WriteTlp? then t.payload else []
  {
    assert (ts + [t])[..|ts|] == ts;
  }

  lemma WrittenPayload(c: Cfg, s: Rq, q: seq<Quad>)
    ensures CurTlp(c, s, q).WriteTlp? && CurTlp(c, s, q).payload == q
  {
  }

  lemma ReadingIsInitRead(c: Cfg, s: Rq, i: In)
    requires RdIssue(s, i)
    ensures s.st == InitRead && CurRead(c, s).ReadTlp?
  {
  }

  lemma CursorStep(c: Cfg, s: Rq, i: In, l: Log)
    requires Legal(c) && Inv(c, s, l)
    ensures var s', l' := Next(c, s, i), Record(c, s, i, l);
      if s'.st == Idle || s'.st == WaitRead then Resting(c, s', l') else Cursor(c, s', l')
  {
    hide NextRand, NextGen, NextDims, NextBusy, NextSizes, NextBuf, NextOut, Split, Pow2, FirstFree, Before, Cursor,
         Streamed, Matched;
    if Start(c, s, i) {
      StartCursor(c, s, i, l);
    } else if WrTlpEnd(s, i) {
      EndCursor(c, s, i, l);
    } else if RdIssue(s, i) {
      IssueCursor(c, s, i, l);
    } else if s.st == InitRead {
      WaitsCursor(c, s, i, l);
    } else if s.st == InitWrite || s.st == Write {
      GoesOnCursor(c, s, i, l);
    } else {
      assert l.cur + Popped(s, i) == l.cur;
    }
  }

  lemma InvStep(c: Cfg, s: Rq, i: In, l: Log)
    requires Legal(c) && Inv(c, s, l)
    ensures Inv(c, Next(c, s, i), Record(c, s, i, l))
  {
    hide Next, Record, Split, Pow2, FrameAll, Beats, Before;
    SettledStep(c, s, i);
    CursorStep(c, s, i, l);
    MatchedStep(c, s, i, l);
    FramingOf(c, s, l);
    StreamStep(c, s, i, l);
    PayloadStep(c, s, i, l);
  }

  // ---------------------------------------------------------------- runs

  /** Registers and log after a sequence of cycles. */
  function Exec(c: Cfg, s: Rq, l: Log, ins: seq<In>): (r: (Rq, Log))
    requires Legal(c) && Shaped(c, s)
    ensures Shaped(c, r.0)
  {
    if ins == [] then (s, l)
    else
      var (s1, l1) := Exec(c, s, l, ins[..|ins| - 1]);
      (Next(c, s1, ins[|ins| - 1]), Record(c, s1, ins[|ins| - 1], l1))
  }

  /** All beats taken in a run, across operations. */
  function Stream(c: Cfg, s: Rq, l: Log, ins: seq<In>): seq<Beat>
    requires Legal(c) && Shaped(c, s)
  {
    if ins == [] then []
    else
      var pre, i := ins[..|ins| - 1], ins[|ins| - 1];
      var r := Exec(c, s, l, pre).0;
      Stream(c, s, l, pre) + if r.out.valid && i.ready then [r.out.beat] else []
  }

  predicate Stalled(ins: seq<In>) { forall k :: 0 <= k < |ins| ==> !ins[k].ready }

  /** A beat that is offered stays offered unchanged, data, TKEEP, TLAST and byte enables alike, for as
      long as it is not taken, and nothing else is sent meanwhile. */
  lemma {:induction false} BeatHeld(c: Cfg, s: Rq, l: Log, ins: seq<In>)
    requires Legal(c) && Shaped(c, s) && Stalled(ins)
    ensures var (r, m) := Exec(c, s, l, ins); r.out == s.out && m.sent == l.sent && Stream(c, s, l, ins) == []
  {
    hide Next, Record;
    if ins != [] {
      BeatHeld(c, s, l, ins[..|ins| - 1]);
      var (r, m) := Exec(c, s, l, ins[..|ins| - 1]);
      HeldStep(c, r, ins[|ins| - 1], m);
    }
  }

  lemma HeldStep(c: Cfg, s: Rq, i: In, l: Log)
    requires Legal(c) && Shaped(c, s) && !i.ready
    ensures Next(c, s, i).out == s.out && Record(c, s, i, l).sent == l.sent
  {
    hide NextRand, NextGen, NextDims, NextBusy, NextSizes, NextBuf, Split, Pow2, FirstFree, FreeTag, NoTagBusy;
    OutputStable(c, s, i);
  }

  /** When it is taken at last it enters the stream once, as it was offered, even if the next operation
      starts in that cycle. */
  lemma BeatTaken(c: Cfg, s: Rq, l: Log, ins: seq<In>, i: In)
    requires Legal(c) && Shaped(c, s) && Stalled(ins) && s.out.valid && i.ready
    ensures Stream(c, s, l, ins + [i]) == [s.out.beat]
  {
    hide Next, Record;
    BeatHeld(c, s, l, ins);
    assert (ins + [i])[..|ins|] == ins;
  }

  const EMPTY := Log([], [], [], [], [], 0, 0, 0, [], [])

  /** A requester at rest whose registers have caught up with the descriptor. */
  predicate Ready(c: Cfg, s: Rq) { Settled(c, s) && s.st == Idle && s.pipe == Idle && !s.out.valid }

  lemma {:induction false} RunInv(c: Cfg, s: Rq, ins: seq<In>)
    requires Legal(c) && Ready(c, s)
    ensures var (r, l) := Exec(c, s, EMPTY, ins); Inv(c, r, l)
  {
    hide Next, Record;
    if ins == [] {
      assert FrameAll([]) == [];
    } else {
      RunInv(c, s, ins[..|ins| - 1]);
      var (s1, l1) := Exec(c, s, EMPTY, ins[..|ins| - 1]);
      InvStep(c, s1, ins[|ins| - 1], l1);
    }
  }

  lemma CursorInPlan(c: Cfg, s: Rq, l: Log)
    requires Legal(c) && Cursor(c, s, l) && s.st in {InitWrite, Write, InitRead}
    ensures l.slots <= Plan(c)
  {
    hide Split, Pow2;
    BlockInside(c, l.blk);
    UptoPrefix(c, l.blk, l.wi, l.ri);
  }

  lemma BlockInside(c: Cfg, b: nat)
    requires Legal(c) && Before(c, b) < Total(c)
    ensures b < Blocks(c)
  {
    BeforeIs(c, b);
    PerBlockFacts(c);
    CeilDivBounds(Total(c), PerBlock(c));
    MulLess(b, Blocks(c), PerBlock(c));
  }

  /** In every run the TLPs handed out so far are the first ones of the plan, each with the
      length, the address and the tag its place demands, and the stream consists of their
      frames, of the part of the TLP in course, and of nothing else. */
  lemma FollowsPlan(c: Cfg, s: Rq, ins: seq<In>)
    requires Legal(c) && Ready(c, s)
    ensures var (r, l) := Exec(c, s, EMPTY, ins);
      && l.slots <= Plan(c) && |l.tlps| == |l.slots|
      && (forall k :: 0 <= k < |l.tlps| ==> Matches(c, l.wrBases, l.rdBases, l.slots[k], l.tlps[k]))
      && AllWellFormed(l.tlps)
      && l.sent + Pending(r.out) == FrameAll(l.tlps) + Half(c, r, l.cur)
      && l.taken == Payload(l.tlps) + l.cur
  {
    hide Next, Record, Matches, FrameAll, Split;
    RunInv(c, s, ins);
    var (r, l) := Exec(c, s, EMPTY, ins);
    if r.st != Idle && r.st != WaitRead {
      CursorInPlan(c, r, l);
    }
  }

  // ---------------------------------------------------------------- one stream across operations

  /** The TLP handed to the output register in a cycle, if any. */
  function HandedIn(c: Cfg, r: Rq, l: Log, i: In): seq<Tlp>
    requires Shaped(c, r)
  {
    if WrTlpEnd(r, i) then [CurTlp(c, r, l.cur + Popped(r, i))] else if RdIssue(r, i) then [CurRead(c, r)] else []
  }

  /** All TLPs handed out in a run, and those of the operations before the one in course. */
  function Handed(c: Cfg, s: Rq, ins: seq<In>): seq<Tlp>
    requires Legal(c) && Shaped(c, s)
  {
    if ins == [] then []
    else
      var (r, l) := Exec(c, s, EMPTY, ins[..|ins| - 1]);
      Handed(c, s, ins[..|ins| - 1]) + HandedIn(c, r, l, ins[|ins| - 1])
  }

  function Earlier(c: Cfg, s: Rq, ins: seq<In>): seq<Tlp>
    requires Legal(c) && Shaped(c, s)
  {
    if ins == [] then []
    else if Start(c, Exec(c, s, EMPTY, ins[..|ins| - 1]).0, ins[|ins| - 1]) then Handed(c, s, ins[..|ins| - 1])
    else Earlier(c, s, ins[..|ins| - 1])
  }

  lemma {:induction false} FramesJoin(a: seq<Tlp>, b: seq<Tlp>)
    requires AllWellFormed(a) && AllWellFormed(b)
    ensures AllWellFormed(a + b) && FrameAll(a + b) == FrameAll(a) + FrameAll(b)
  {
    hide Frame, WellFormed;
    if b == [] {
      assert a + b == a;
    } else {
      FramesJoin(a, b[..|b| - 1]);
      assert (a + b)[..|a + b| - 1] == a + b[..|b| - 1];
    }
  }

  /** What the log of the operation in course leaves out is what earlier operations sent. */
  predicate Carried(stream: seq<Beat>, handed: seq<Tlp>, earlier: seq<Tlp>, l: Log) {
    AllWellFormed(earlier) && handed == earlier + l.tlps && stream == FrameAll(earlier) + l.sent
  }

  lemma CarriedStart(c: Cfg, s: Rq, i: In, l: Log, stream: seq<Beat>, handed: seq<Tlp>, earlier: seq<Tlp>)
    requires Legal(c) && Inv(c, s, l) && Start(c, s, i) && Carried(stream, handed, earlier, l)
    ensures HandedIn(c, s, l, i) == []
    ensures Carried(stream + Pending(s.out), handed, handed, Record(c, s, i, l))
  {
    hide Split, FrameAll, Matched, DimsOk, FirstFree, Pow2;
    FramesJoin(earlier, l.tlps);
    assert l.sent + Pending(s.out) == FrameAll(l.tlps) by { assert Half(c, s, l.cur) == []; }
    assert stream + Pending(s.out) == FrameAll(earlier) + (l.sent + Pending(s.out));
  }

  lemma CarriedOn(c: Cfg, s: Rq, i: In, l: Log, stream: seq<Beat>, handed: seq<Tlp>, earlier: seq<Tlp>)
    requires Legal(c) && Shaped(c, s) && !Start(c, s, i) && Carried(stream, handed, earlier, l)
    ensures var x := if s.out.valid && i.ready then [s.out.beat] else [];
      Carried(stream + x, handed + HandedIn(c, s, l, i), earlier, Record(c, s, i, l))
  {
    hide Split, FrameAll, FirstFree, Pow2, Popped, CurTlp, CurRead, WrTlpEnd, RdIssue, Start, WellFormed, WrGenAddr,
         RdGenAddr;
    var x := if s.out.valid && i.ready then [s.out.beat] else [];
    assert stream + x == FrameAll(earlier) + (l.sent + x);
    assert handed + HandedIn(c, s, l, i) == earlier + (l.tlps + HandedIn(c, s, l, i));
  }

  lemma {:induction false} RunCarried(c: Cfg, s: Rq, ins: seq<In>)
    requires Legal(c) && Ready(c, s)
    ensures Carried(Stream(c, s, EMPTY, ins), Handed(c, s, ins), Earlier(c, s, ins), Exec(c, s, EMPTY, ins).1)
  {
    hide Next, Record, Start, HandedIn, Carried, Inv;
    if ins == [] {
      NothingCarried();
    } else {
      var pre, i := ins[..|ins| - 1], ins[|ins| - 1];
      RunCarried(c, s, pre);
      RunInv(c, s, pre);
      var (r, l) := Exec(c, s, EMPTY, pre);
      if Start(c, r, i) {
        StartReady(c, r, i);
        CarriedStart(c, r, i, l, Stream(c, s, EMPTY, pre), Handed(c, s, pre), Earlier(c, s, pre));
        assert Handed(c, s, pre) + [] == Handed(c, s, pre);
      } else {
        CarriedOn(c, r, i, l, Stream(c, s, EMPTY, pre), Handed(c, s, pre), Earlier(c, s, pre));
      }
    }
  }

  lemma NothingCarried()
    ensures Carried([], [], [], EMPTY)
  {
    assert FrameAll([]) == [];
  }

  lemma StartReady(c: Cfg, s: Rq, i: In)
    requires Start(c, s, i)
    ensures i.ready
  {
  }

  /** Across any number of operations, every beat is taken exactly once and in order: the stream and
      the beat that waits are the frames of all TLPs handed out and of the part of the current one. */
  lemma WholeStream(c: Cfg, s: Rq, ins: seq<In>)
    requires Legal(c) && Ready(c, s)
    ensures var (r, l) := Exec(c, s, EMPTY, ins);
      && AllWellFormed(Handed(c, s, ins))
      && Stream(c, s, EMPTY, ins) + Pending(r.out) == FrameAll(Handed(c, s, ins)) + Half(c, r, l.cur)
  {
    hide Next, Record, Exec, Stream, Handed, Earlier, FrameAll, Matches, Split, Half, Cursor, Resting;
    RunCarried(c, s, ins);
    RunInv(c, s, ins);
    var (r, l) := Exec(c, s, EMPTY, ins);
    var e := Earlier(c, s, ins);
    FramesJoin(e, l.tlps);
    assert Stream(c, s, EMPTY, ins) + Pending(r.out) == FrameAll(e) + (l.sent + Pending(r.out));
    assert FrameAll(e) + (FrameAll(l.tlps) + Half(c, r, l.cur)) == FrameAll(e + l.tlps) + Half(c, r, l.cur);
  }

  /** The end of an operation is signalled only when the whole plan has been handed out. */
  lemma EndMeansComplete(c: Cfg, s: Rq, ins: seq<In>)
    requires Legal(c) && Ready(c, s)
    ensures var (r, l) := Exec(c, s, EMPTY, ins);
      EndOp(r) ==> l.slots == Plan(c) && AllWellFormed(l.tlps) && l.sent + Pending(r.out) == FrameAll(l.tlps)
  {
    hide Next, Record, Matches, FrameAll, Split;
    RunInv(c, s, ins);
  }
}
