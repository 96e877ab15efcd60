/** Preservation of the requester invariant, one small lemma for each kind of cycle. */
module RqSteps {
  import opened RqModel
  import opened RqPlan
  import opened RqRefine

  // ---------------------------------------------------------------- facts about one state

  lemma DimsStep(c: Cfg, d: Dims)
    requires Legal(c) && d.winR == c.window
    ensures DimsOk(c, NextDims(c, d))
  {
    PerBlockFacts(c);
    SplitterRefined(c, PerBlock(c) - 1);
  }

  lemma SettledStep(c: Cfg, s: Rq, i: In)
    requires Legal(c) && Settled(c, s)
    ensures Settled(c, Next(c, s, i))
  {
    hide NextRand, NextDims, NextBusy, NextSizes, NextBuf, NextOut, NextSt;
    DimsStep(c, s.d);
  }

  lemma WrFacts(c: Cfg, s: Rq, l: Log, b: nat, k: nat)
    requires Legal(c) && c.doesWrite && Settled(c, s) && WrAt(c, s, l, b, k)
    ensures WrBlockEnd(s) <==> k + 1 == PerBlock(c)
    ensures WrWords(c, s) == Words(c, k) && 1 <= Words(c, k) <= 1024
    ensures ReloadWr(c, s) == Words(c, if k + 1 == PerBlock(c) then 0 else k + 1)
  {
    PerBlockFacts(c);
    SplitterRefined(c, k);
    SplitterRefined(c, if k + 1 == PerBlock(c) then 0 else k + 1);
  }

  lemma RdFacts(c: Cfg, s: Rq, l: Log, b: nat, k: nat)
    requires Legal(c) && Settled(c, s) && RdAt(c, s, l, b, k)
    ensures RdBlockEnd(s) <==> k + 1 == PerBlock(c)
    ensures RdWords(c, s) == Words(c, k) && 1 <= Words(c, k) <= 1024
  {
    PerBlockFacts(c);
    SplitterRefined(c, k);
  }

  lemma {:induction false} FirstFreeBelow(b: seq<bool>, k: nat, j: nat)
    requires k <= j < |b| && !b[j]
    ensures k <= FirstFree(b, k) <= j && !b[FirstFree(b, k)]
    ensures forall n :: k <= n < FirstFree(b, k) ==> b[n]
    decreases |b| - k
  {
    if b[k] { FirstFreeBelow(b, k + 1, j); }
  }

  /** The tag of an issued read is the lowest free one and lies inside the window. */
  lemma IssuedTag(c: Cfg, s: Rq)
    requires Legal(c) && Settled(c, s) && FreeTag(s)
    ensures FirstFree(s.busy) < c.window && !s.busy[FirstFree(s.busy)]
    ensures forall n :: 0 <= n < FirstFree(s.busy) ==> s.busy[n]
  {
    var j :| 0 <= j < |s.busy| && j < |s.d.mask| && s.d.mask[j] && !s.busy[j];
    FirstFreeBelow(s.busy, 0, j);
  }

  // ---------------------------------------------------------------- the stream

  lemma FrameAllSnoc(ts: seq<Tlp>, t: Tlp)
    requires AllWellFormed(ts) && WellFormed(t)
    ensures AllWellFormed(ts + [t]) && FrameAll(ts + [t]) == FrameAll(ts) + Frame(t)
    ensures Payload(ts + [t]) == Payload(ts) + if t.WriteTlp? then t.payload else []
  {
    assert (ts + [t])[..|ts|] == ts;
  }

  /** A longer payload does not change the beats already framed. */
  lemma {:induction false} BeatsMono(t: Tlp, u: Tlp, m: nat)
    requires t.WriteTlp? && u.WriteTlp? && t.payload <= u.payload && u == t.(payload := u.payload)
    requires m > 0 ==> 2 * m <= |t.payload| + 1
    ensures Beats(t, m) == Beats(u, m)
  {
    if m > 0 { BeatsMono(t, u, m - 1); }
  }

  /** The first beat of a write carries the header and the first payload entry. */
  lemma HeadBeat(c: Cfg, s: Rq, i: In, w: nat)
    requires |s.buf.slots| == 16 && s.st == InitWrite && i.ready && One(s)
    requires WrWords(c, s) == w == s.wrRem && 1 <= w <= 1024 && s.wrRmd == w % 16
    ensures NextOut(c, s, i) == Out(true, WriteBeat(CurTlp(c, s, [Slot0(s.buf)]), 0))
  {
  }

  /** Every later beat carries the next one or two entries and the right TKEEP and TLAST. */
  lemma BodyBeat(c: Cfg, s: Rq, i: In, cur: seq<Quad>, w: nat)
    requires |s.buf.slots| == 16 && s.st == Write && i.ready && Pops(s, i) > 0
    requires WrWords(c, s) == w && 1 <= w <= 1024 && |cur| % 2 == 1
    requires s.wrRem == w - 4 * |cur| && s.wrRem > 0 && s.wrRmd == s.wrRem % 16
    requires s.out.beat.keep == 0xff && !s.out.beat.last
    requires s.out.beat.firstBe == 0xf && s.out.beat.lastBe == LastBe(w)
    ensures NextOut(c, s, i) == Out(true, WriteBeat(CurTlp(c, s, cur + Popped(s, i)), (|cur| + 1) / 2))
  {
    var k := (|cur| + 1) / 2;
    var t := CurTlp(c, s, cur + Popped(s, i));
    assert t.payload[2 * k - 1] == Slot0(s.buf);
  }

  /** The TLP is complete exactly when the word count says so. */
  lemma LastBeatCompletes(c: Cfg, s: Rq, i: In, cur: seq<Quad>, w: nat)
    requires |s.buf.slots| == 16 && WrTlpEnd(s, i) && WrWords(c, s) == w && 1 <= w <= 1024
    requires s.st == InitWrite ==> cur == [] && s.wrRem == w
    requires s.st == Write ==> |cur| % 2 == 1 && s.wrRem == w - 4 * |cur| && s.wrRem > 0
    ensures WellFormed(CurTlp(c, s, cur + Popped(s, i)))
    ensures NumBeats(w) == (|cur| + 1) / 2 + 1
  {
  }

  // ---------------------------------------------------------------- the stream, cycle by cycle

  /** With TREADY the register empties into the stream before it is written again. */
  lemma JoinNext(c: Cfg, s: Rq, i: In, l: Log, part: seq<Beat>)
    requires |s.buf.slots| == 16 && i.ready && Joined(l.sent, s.out, l.tlps, part)
    ensures Joined(Sent(s, i, l), NextOut(c, s, i), l.tlps, part + Pending(NextOut(c, s, i)))
  {
    var p := Pending(NextOut(c, s, i));
    assert Sent(s, i, l) == l.sent + Pending(s.out);
    assert (FrameAll(l.tlps) + part) + p == FrameAll(l.tlps) + (part + p);
  }

  /** A finished TLP moves from the partial frame to the list. */
  lemma JoinClose(sent: seq<Beat>, o: Out, tlps: seq<Tlp>, t: Tlp)
    requires WellFormed(t) && Joined(sent, o, tlps, Frame(t))
    ensures Joined(sent, o, tlps + [t], [])
  {
    FrameAllSnoc(tlps, t);
  }

  /** What the output side needs to know about the state. */
  predicate Framing(c: Cfg, s: Rq, l: Log)
    requires Legal(c)
  {
    && |s.buf.slots| == 16
    && (s.st == InitWrite || s.st == Write ==> c.doesWrite && WrWords(c, s) <= 1024 && s.wrRmd == s.wrRem % 16)
    && (s.st != Write ==> l.cur == [])
    && (s.st == InitWrite ==> s.wrRem == WrWords(c, s) >= 1)
    && (s.st == Write ==>
          && |l.cur| % 2 == 1 && s.wrRem == WrWords(c, s) - 4 * |l.cur| && s.wrRem > 0
          && s.out.beat.keep == 0xff && !s.out.beat.last
          && s.out.beat.firstBe == 0xf && s.out.beat.lastBe == LastBe(WrWords(c, s)))
    && (s.st == InitRead ==>
          1 <= RdWords(c, s) <= 1024 && ((s.rdRem / 2) % 1024 == 0 <==> RdWords(c, s) <= 1))
  }

  /** A new beat extends the partial frame by one. */
  lemma HalfGrows(c: Cfg, s: Rq, i: In, cur: seq<Quad>, w: nat)
    requires |s.buf.slots| == 16 && s.st == Write && i.ready && Pops(s, i) > 0
    requires WrWords(c, s) == w && 1 <= w <= 1024 && |cur| % 2 == 1
    requires s.wrRem == w - 4 * |cur| && s.wrRem > 0 && s.wrRmd == s.wrRem % 16
    requires s.out.beat.keep == 0xff && !s.out.beat.last
    requires s.out.beat.firstBe == 0xf && s.out.beat.lastBe == LastBe(w)
    ensures Half(c, s, cur) + Pending(NextOut(c, s, i))
         == Beats(CurTlp(c, s, cur + Popped(s, i)), (|cur| + 1) / 2 + 1)
  {
    BodyBeat(c, s, i, cur, w);
    BeatsMono(CurTlp(c, s, cur), CurTlp(c, s, cur + Popped(s, i)), (|cur| + 1) / 2);
  }

  lemma HalfStep(c: Cfg, s: Rq, i: In, l: Log)
    requires Legal(c) && Framing(c, s, l) && i.ready && (s.st == InitWrite || s.st == Write) && !WrTlpEnd(s, i)
    ensures Half(c, s, l.cur) + Pending(NextOut(c, s, i)) == Half(c, s, l.cur + Popped(s, i))
  {
    if Pops(s, i) == 0 {
      assert l.cur + Popped(s, i) == l.cur;
    } else if s.st == InitWrite {
      HeadBeat(c, s, i, WrWords(c, s));
      assert l.cur + Popped(s, i) == [Slot0(s.buf)];
    } else {
      HalfGrows(c, s, i, l.cur, WrWords(c, s));
    }
  }

  lemma WriteGoesOn(c: Cfg, s: Rq, i: In, l: Log)
    requires Legal(c) && Framing(c, s, l) && Joined(l.sent, s.out, l.tlps, Half(c, s, l.cur))
    requires i.ready && (s.st == InitWrite || s.st == Write) && !WrTlpEnd(s, i)
    ensures Joined(Sent(s, i, l), NextOut(c, s, i), l.tlps, Half(c, s, l.cur + Popped(s, i)))
  {
    HalfStep(c, s, i, l);
    JoinNext(c, s, i, l, Half(c, s, l.cur));
  }

  lemma ShortFrame(c: Cfg, s: Rq, i: In, w: nat)
    requires |s.buf.slots| == 16 && s.st == InitWrite && WrTlpEnd(s, i)
    requires WrWords(c, s) == w == s.wrRem && 1 <= w <= 1024 && s.wrRmd == w % 16
    ensures var t := CurTlp(c, s, [Slot0(s.buf)]);
      WellFormed(t) && Pending(NextOut(c, s, i)) == Frame(t)
  {
    var t := CurTlp(c, s, [Slot0(s.buf)]);
    HeadBeat(c, s, i, w);
    assert Beats(t, 1) == Beats(t, 0) + [WriteBeat(t, 0)];
  }

  lemma LongFrame(c: Cfg, s: Rq, i: In, cur: seq<Quad>, w: nat)
    requires |s.buf.slots| == 16 && s.st == Write && WrTlpEnd(s, i)
    requires WrWords(c, s) == w && 1 <= w <= 1024 && |cur| % 2 == 1
    requires s.wrRem == w - 4 * |cur| && s.wrRem > 0 && s.wrRmd == s.wrRem % 16
    requires s.out.beat.keep == 0xff && !s.out.beat.last
    requires s.out.beat.firstBe == 0xf && s.out.beat.lastBe == LastBe(w)
    ensures var t := CurTlp(c, s, cur + Popped(s, i));
      WellFormed(t) && Half(c, s, cur) + Pending(NextOut(c, s, i)) == Frame(t)
  {
    LastBeatCompletes(c, s, i, cur, w);
    HalfGrows(c, s, i, cur, w);
  }

  /** With the last beat the partial frame becomes the whole frame. */
  lemma FrameCloses(c: Cfg, s: Rq, i: In, l: Log)
    requires Legal(c) && Framing(c, s, l) && WrTlpEnd(s, i)
    ensures var t := CurTlp(c, s, l.cur + Popped(s, i));
      WellFormed(t) && Half(c, s, l.cur) + Pending(NextOut(c, s, i)) == Frame(t)
  {
    if s.st == InitWrite {
      ShortFrame(c, s, i, WrWords(c, s));
      assert l.cur + Popped(s, i) == [Slot0(s.buf)];
    } else {
      LongFrame(c, s, i, l.cur, WrWords(c, s));
    }
  }

  lemma WriteCloses(c: Cfg, s: Rq, i: In, l: Log)
    requires Legal(c) && Framing(c, s, l) && Joined(l.sent, s.out, l.tlps, Half(c, s, l.cur)) && WrTlpEnd(s, i)
    ensures WellFormed(CurTlp(c, s, l.cur + Popped(s, i)))
    ensures Joined(Sent(s, i, l), NextOut(c, s, i), l.tlps + [CurTlp(c, s, l.cur + Popped(s, i))], [])
  {
    FrameCloses(c, s, i, l);
    JoinNext(c, s, i, l, Half(c, s, l.cur));
    JoinClose(Sent(s, i, l), NextOut(c, s, i), l.tlps, CurTlp(c, s, l.cur + Popped(s, i)));
  }

  lemma ReadIssues(c: Cfg, s: Rq, i: In, l: Log)
    requires Legal(c) && Framing(c, s, l) && Joined(l.sent, s.out, l.tlps, []) && RdIssue(s, i)
    ensures WellFormed(CurRead(c, s))
    ensures Joined(Sent(s, i, l), NextOut(c, s, i), l.tlps + [CurRead(c, s)], [])
  {
    hide FrameAll, FirstFree, Split, Beats;
    JoinNext(c, s, i, l, []);
    assert Pending(NextOut(c, s, i)) == Frame(CurRead(c, s));
    JoinClose(Sent(s, i, l), NextOut(c, s, i), l.tlps, CurRead(c, s));
  }

  lemma NothingNew(c: Cfg, s: Rq, i: In, l: Log)
    requires |s.buf.slots| == 16 && Joined(l.sent, s.out, l.tlps, [])
    requires i.ready && s.st != InitWrite && s.st != Write && !RdIssue(s, i)
    ensures Joined(Sent(s, i, l), NextOut(c, s, i), l.tlps, [])
  {
    JoinNext(c, s, i, l, []);
  }

  /** Without TREADY the output register holds still, data, keep, last and byte enables alike. */
  lemma OutputStable(c: Cfg, s: Rq, i: In)
    requires |s.buf.slots| == 16 && !i.ready
    ensures NextOut(c, s, i) == s.out && Pops(s, i) == 0
  {
  }

  lemma StreamCase(c: Cfg, s: Rq, i: In, l: Log)
    requires Legal(c) && Settled(c, s) && Framing(c, s, l) && Streamed(c, s, l)
    ensures var l' := Record(c, s, i, l); Joined(l'.sent, NextOut(c, s, i), l'.tlps, Half(c, s, l'.cur))
  {
    hide NextOut;
    if WrTlpEnd(s, i) {
      WriteCloses(c, s, i, l);
    } else if RdIssue(s, i) {
      ReadIssues(c, s, i, l);
    } else if !i.ready {
      OutputStable(c, s, i);
      assert l.cur + Popped(s, i) == l.cur;
    } else if s.st == InitWrite || s.st == Write {
      WriteGoesOn(c, s, i, l);
    } else {
      NothingNew(c, s, i, l);
      assert l.cur + Popped(s, i) == l.cur;
      if Start(c, s, i) { assert Pending(NextOut(c, s, i)) == [] by { Quiet(c, s, i); } }
    }
  }

  lemma Quiet(c: Cfg, s: Rq, i: In)
    requires |s.buf.slots| == 16 && i.ready && (s.st == Idle || s.st == WaitRead)
    ensures !NextOut(c, s, i).valid
  {
  }

  lemma SameTlp(c: Cfg, s: Rq, i: In, l: Log)
    requires Legal(c) && Settled(c, s) && Framing(c, s, l)
    ensures var cur := Record(c, s, i, l).cur; cur != [] ==> CurTlp(c, Next(c, s, i), cur) == CurTlp(c, s, cur)
  {
    hide NextRand, NextGen, NextDims, NextBusy, NextSizes, NextBuf, NextOut, NextSt, NextWrRem, NextWrRmd, NextRdRem;
    SettledStep(c, s, i);
  }

  lemma StreamStep(c: Cfg, s: Rq, i: In, l: Log)
    requires Legal(c) && Settled(c, s) && Framing(c, s, l) && Streamed(c, s, l)
    ensures Streamed(c, Next(c, s, i), Record(c, s, i, l))
  {
    hide NextRand, NextGen, NextDims, NextBusy, NextSizes, NextBuf, NextOut, NextSt, NextWrRem, NextWrRmd, NextRdRem,
         Record, Beats, FrameAll;
    StreamCase(c, s, i, l);
    SameTlp(c, s, i, l);
  }
}
