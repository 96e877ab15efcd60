/** Progress: every cycle in which the stream and the payload (or the tag window) allow work
    brings the operation closer to its end, so that a bounded number of them finishes it. */
module RqProgress {
  import opened Hw
  import opened RqModel
  import opened RqPlan
  import opened RqRefine
  import opened RqSteps
  import opened RqRuns

  predicate Active(s: Rq) { s.st in {InitWrite, Write, InitRead} }

  /** TREADY together with two buffered entries, or with a free tag of the window. */
  predicate Productive(s: Rq, i: In) {
    i.ready && (((s.st == InitWrite || s.st == Write) && Two(s)) || (s.st == InitRead && FreeTag(s)))
  }

  /** TLPs the plan still holds, and dwords left of the write TLP in course. */
  function TlpsLeft(c: Cfg, l: Log): int
    requires Legal(c)
  {
    |Plan(c)| - |l.slots|
  }

  function WordsLeft(s: Rq): nat { if s.st == InitWrite || s.st == Write then s.wrRem else 0 }

  lemma Room(c: Cfg, s: Rq, l: Log)
    requires Legal(c) && Inv(c, s, l)
    ensures TlpsLeft(c, l) >= 0 && WordsLeft(s) <= 1024
    ensures s.st == InitWrite || s.st == Write ==> s.wrRem > 0
  {
    hide Split, Pow2, Before, FrameAll, Beats, Matched, Streamed, Full;
    if Active(s) {
      CursorInPlan(c, s, l);
      FramingOf(c, s, l);
    }
  }

  lemma SlotsGrow(c: Cfg, s: Rq, i: In, l: Log)
    requires Legal(c) && Shaped(c, s) && Active(s)
    ensures |Record(c, s, i, l).slots| == |l.slots| + if WrTlpEnd(s, i) || RdIssue(s, i) then 1 else 0
  {
    hide Split, FirstFree;
  }

  lemma RemShrinks(c: Cfg, s: Rq, i: In, l: Log)
    requires Legal(c) && Settled(c, s) && Cursor(c, s, l) && Active(s) && !WrTlpEnd(s, i) && !RdIssue(s, i)
    ensures var s' := Next(c, s, i); Active(s') && WordsLeft(s') <= WordsLeft(s)
    ensures Productive(s, i) ==> WordsLeft(Next(c, s, i)) < WordsLeft(s)
  {
    hide NextRand, NextGen, NextDims, NextBusy, NextSizes, NextBuf, NextOut, Split, Pow2, FirstFree, Before,
         NextRdMod, NextRdTlp, NextRdAddr, NextRdRem, NextWrMod, NextWrTlp, NextWrAddr, NextWrRmd;
    if s.st == InitWrite || s.st == Write {
      WrFacts(c, s, l, l.blk, l.wi);
    }
  }

  /** The pair (TLPs left, dwords left) never grows lexicographically, and shrinks in every
      productive cycle. */
  lemma MeasureDecreases(c: Cfg, s: Rq, i: In, l: Log)
    requires Legal(c) && Inv(c, s, l) && Active(s)
    ensures var s', l' := Next(c, s, i), Record(c, s, i, l);
      && 0 <= TlpsLeft(c, l') <= TlpsLeft(c, l)
      && (TlpsLeft(c, l') == TlpsLeft(c, l) ==> WordsLeft(s') <= WordsLeft(s))
      && (Productive(s, i) ==>
            TlpsLeft(c, l') < TlpsLeft(c, l) || (TlpsLeft(c, l') == TlpsLeft(c, l) && WordsLeft(s') < WordsLeft(s)))
  {
    hide Next, Record, Plan, Cursor, Matched, Streamed, Resting, WordsLeft, FreeTag;
    InvStep(c, s, i, l);
    Room(c, Next(c, s, i), Record(c, s, i, l));
    SlotsGrow(c, s, i, l);
    if !WrTlpEnd(s, i) && !RdIssue(s, i) {
      InvParts(c, s, l);
      RemShrinks(c, s, i, l);
    }
  }

  lemma InvParts(c: Cfg, s: Rq, l: Log)
    requires Legal(c) && Inv(c, s, l) && Active(s)
    ensures Settled(c, s) && Cursor(c, s, l)
  {
  }

  /** Productive cycles of a run. */
  function Work(c: Cfg, s: Rq, l: Log, ins: seq<In>): nat
    requires Legal(c) && Shaped(c, s)
    decreases |ins|
  {
    if ins == [] then 0
    else (if Productive(s, ins[0]) then 1 else 0) + Work(c, Next(c, s, ins[0]), Record(c, s, ins[0], l), ins[1..])
  }

  /** The operation is in course in every state of the run. */
  predicate InCourse(c: Cfg, s: Rq, l: Log, ins: seq<In>)
    requires Legal(c) && Shaped(c, s)
    decreases |ins|
  {
    Active(s) && (ins != [] ==> InCourse(c, Next(c, s, ins[0]), Record(c, s, ins[0], l), ins[1..]))
  }

  /** Work that a state still allows: at most 1025 cycles for each TLP left. */
  function Potential(c: Cfg, s: Rq, l: Log): int
    requires Legal(c)
  {
    1025 * TlpsLeft(c, l) + WordsLeft(s)
  }

  lemma {:induction false} WorkBounded(c: Cfg, s: Rq, l: Log, ins: seq<In>)
    requires Legal(c) && Shaped(c, s) && Inv(c, s, l) && InCourse(c, s, l, ins)
    ensures Work(c, s, l, ins) <= Potential(c, s, l)
    decreases |ins|
  {
    hide Next, Record, Plan, Inv, WordsLeft, Productive;
    Room(c, s, l);
    if ins != [] {
      var s', l' := Next(c, s, ins[0]), Record(c, s, ins[0], l);
      MeasureDecreases(c, s, ins[0], l);
      InvStep(c, s, ins[0], l);
      Room(c, s', l');
      WorkBounded(c, s', l', ins[1..]);
    }
  }

  /** An operation cannot stay in course for more productive cycles than its plan pays for: it
      reaches Idle or the wait for the last completions. */
  lemma OperationFinishes(c: Cfg, s: Rq, i: In, ins: seq<In>)
    requires Legal(c) && Ready(c, s) && Start(c, s, i)
    ensures var s', l' := Next(c, s, i), Record(c, s, i, EMPTY);
      Work(c, s', l', ins) > 1025 * |Plan(c)| + 1024 ==> !InCourse(c, s', l', ins)
  {
    hide Next, Record, Plan, Inv, WordsLeft, Productive;
    assert Inv(c, s, EMPTY) by { RunInv(c, s, []); }
    InvStep(c, s, i, EMPTY);
    var s', l' := Next(c, s, i), Record(c, s, i, EMPTY);
    Room(c, s', l');
    Fresh(c, s, i);
    if InCourse(c, s', l', ins) {
      WorkBounded(c, s', l', ins);
    }
  }

  lemma Fresh(c: Cfg, s: Rq, i: In)
    requires Legal(c) && Shaped(c, s) && Start(c, s, i)
    ensures Record(c, s, i, EMPTY).slots == []
  {
  }
}
