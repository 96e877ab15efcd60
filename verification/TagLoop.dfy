/** Request and completion side closed in a loop. A ledger records which reads are outstanding;
    every outstanding read is completed exactly once, in the cycle after the beat that brings its
    last dword, and its tag is not handed out again before. */
module TagLoop {
  import opened Hw
  import opened RqModel
  import opened RcModel
  import RqSteps

  /** Dwords received per tag, the completion TLP in course, the read header still in the output
      register, whether the idle bus showed a fresh tag in the cycle before, the outstanding reads by
      tag, and the reads issued and completed. */
  datatype Ledger = Ledger(
    got: seq<nat>, fly: Option<nat>, pend: Option<nat>, shown: bool,
    live: map<nat, nat>, issued: nat, retired: seq<nat>)

  datatype Loop = Loop(busy: seq<bool>, sizes: seq<nat>, rc: Rc, led: Ledger)

  /** What the loop sees in one cycle: TREADY, a request for a tag, its length, the completion beat. */
  datatype LoopIn = LoopIn(ready: bool, issuing: bool, words: nat, b: RcIn)

  predicate Sized(x: Loop, tags: nat) {
    |x.busy| == tags && |x.sizes| == tags && |x.rc.tags| == tags && |x.led.got| == tags
  }

  function Completed(rc: Rc): seq<bool> { seq(|rc.tags|, j requires 0 <= j < |rc.tags| => rc.tags[j].completed) }

  /** The tag handed out in this cycle, if any. */
  predicate Issues(x: Loop, window: nat, i: LoopIn) {
    i.issuing && exists j :: 0 <= j < |x.busy| && j < window && !x.busy[j]
  }

  predicate TakenNow(x: Loop, window: nat, i: LoopIn, j: nat)
    requires j < |x.busy|
  {
    Taken(x.busy, window, i.issuing, j)
  }

  /** The tag whose completion TLP ends in this cycle, and whether that completes the read. */
  function Target(x: Loop, b: RcIn): nat { if x.led.fly.Some? then x.led.fly.value else b.tag }

  function GotNow(x: Loop, b: RcIn, j: nat): nat
    requires j < |x.led.got|
  {
    x.led.got[j] + if x.led.fly == None && b.valid && b.tag == j then b.dwords else 0
  }

  predicate Finishes(x: Loop, b: RcIn, j: nat)
    requires j < |x.led.got| && |x.led.got| == |x.sizes|
  {
    b.valid && b.last && Target(x, b) == j && GotNow(x, b, j) == x.sizes[j]
  }

  function NextLedger(x: Loop, window: nat, i: LoopIn): (l: Ledger)
    requires Sized(x, |x.busy|)
    ensures |l.got| == |x.busy|
  {
    var t := Target(x, i.b);
    var done := t < |x.busy| && Finishes(x, i.b, t) && t in x.led.live;
    var live0 := if done then x.led.live - {t} else x.led.live;
    var issue := Issues(x, window, i);
    var f := FirstFree(x.busy);
    Ledger(
      seq(|x.busy|, j requires 0 <= j < |x.busy| =>
        if x.rc.tags[j].completed then 0 else GotNow(x, i.b, j)),
      if i.b.valid then (if i.b.last then None else Some(t)) else x.led.fly,
      if i.ready then (if issue then Some(f) else None) else x.led.pend,
      Glitch(x, window, i),
      if issue then live0[f := x.led.issued] else live0,
      x.led.issued + if issue then 1 else 0,
      if done then x.led.retired + [x.led.live[t]] else x.led.retired)
  }

  function NextLoop(x: Loop, window: nat, i: LoopIn): (r: Loop)
    requires Sized(x, |x.busy|)
    ensures Sized(r, |x.busy|)
  {
    Loop(NextBusy(x.busy, window, i.issuing, Completed(x.rc)),
         NextSizes(x.sizes, x.busy, window, i.issuing, i.words),
         NextRc(x.rc, i.b, x.busy, x.sizes),
         NextLedger(x, window, i))
  }

  /** What the completer owes (sections 2.2.6.2 and 2.3.1.1 of the PCI Express Base Specification
      3.0): completions only for requests that have been transferred and are still owed dwords,
      a TLP of one beat iff it carries at most 5 dwords, TLPs not interleaved. */
  predicate BeatOk(x: Loop, b: RcIn)
    requires Sized(x, |x.busy|)
  {
    x.led.fly == None && b.valid ==>
      && b.tag < |x.busy| && b.tag in x.led.live && x.led.pend != Some(b.tag)
      && 1 <= b.dwords && x.led.got[b.tag] + b.dwords <= x.sizes[b.tag]
      && (b.last <==> b.dwords <= 5)
  }

  predicate CompleterOk(x: Loop, i: LoopIn)
    requires Sized(x, |x.busy|)
  {
    (i.issuing ==> i.ready && 1 <= i.words <= 1024) && BeatOk(x, i.b)
  }

  /** The idle bus shows the tag bits of a tag that is handed out in this cycle for the first time. */
  predicate Glitch(x: Loop, window: nat, i: LoopIn)
    requires Sized(x, |x.busy|)
  {
    && x.led.fly == None && !i.b.valid && i.b.tag < |x.busy|
    && TakenNow(x, window, i, i.b.tag) && x.sizes[i.b.tag] == 0
  }

  /** A one-beat completion directly after such a cycle. */
  predicate Strikes(x: Loop, b: RcIn) { x.led.shown && b.valid && b.last }

  predicate EnvOk(x: Loop, i: LoopIn)
    requires Sized(x, |x.busy|)
  {
    CompleterOk(x, i) && !Strikes(x, i.b)
  }

  // ---------------------------------------------------------------- one tag

  /** Registers and ledger of one tag of the window agree. */
  predicate CellOk(busy: bool, size: nat, t: RcTag, got: nat, live: bool, pend: bool, fly: bool, tagR: bool,
                   shown: bool)
  {
    && size <= 1024
    && (!busy ==> !t.completed && t.wc == 0 && got == 0 && !live && !pend && !fly && !shown && (size > 0 ==> !t.exc))
    && (busy ==> size >= 1)
    && (busy && t.completed ==> got == size && (t.wc == 0 || t.wc == size) && !live && !pend && !fly && !shown)
    && (busy && !t.completed ==>
          && live && t.wc == got <= size
          && (got == size ==> fly)
          && (pend ==> got == 0 && !fly)
          && (!pend ==> t.diff == size - got)
          && (shown ==> pend)
          && (if fly then (t.exc <==> got == size) && tagR else (t.exc && tagR <==> shown)))
  }

  predicate TagOk(x: Loop, j: nat)
    requires Sized(x, |x.busy|) && j < |x.busy|
  {
    CellOk(x.busy[j], x.sizes[j], x.rc.tags[j], x.led.got[j], j in x.led.live,
           x.led.pend == Some(j), x.led.fly == Some(j), x.rc.tagR == j, x.led.shown && x.rc.tagR == j)
  }

  /** Tags above the window are never requested. */
  predicate DeadOk(x: Loop, j: nat)
    requires Sized(x, |x.busy|) && j < |x.busy|
  {
    x.led.got[j] == 0 && j !in x.led.live && x.led.pend != Some(j) && x.led.fly != Some(j)
  }

  predicate FlyOk(x: Loop, window: nat) {
    && (x.rc.sop <==> x.led.fly == None)
    && (x.led.fly.Some? ==> x.led.fly.value < window)
    && (x.led.pend.Some? ==> x.led.pend.value < window)
    && (x.led.shown ==> x.led.fly == None && x.rc.tagR < window)
    && (forall j :: j in x.led.live ==> j < window)
  }

  /** Reads are numbered; no number is outstanding twice, completed twice, or both. */
  predicate BookOk(live: map<nat, nat>, issued: nat, retired: seq<nat>) {
    && issued == |retired| + |live|
    && (forall a :: a in live ==> live[a] < issued && live[a] !in retired)
    && Unshared(live)
    && (forall k :: 0 <= k < |retired| ==> retired[k] < issued)
    && NoRepeat(retired)
  }

  predicate Unshared(live: map<nat, nat>) { forall a, b :: a in live && b in live && a != b ==> live[a] != live[b] }

  predicate NoRepeat(s: seq<nat>) { forall k, m :: 0 <= k < m < |s| ==> s[k] != s[m] }

  predicate LoopInv(x: Loop, window: nat) {
    && Sized(x, |x.busy|) && 1 <= window <= |x.busy|
    && FlyOk(x, window) && BookOk(x.led.live, x.led.issued, x.led.retired)
    && (forall j :: 0 <= j < window ==> TagOk(x, j))
    && (forall j :: window <= j < |x.busy| ==> DeadOk(x, j))
  }

  /** One tag, one cycle, all cases. */
  lemma CellStep(busy: bool, size: nat, t: RcTag, got: nat, live: bool, pend: bool, fly: bool, tagR: bool, shown: bool,
                 rc: Rc, b: RcIn, j: nat, taken: bool, words: nat, ready: bool)
    requires CellOk(busy, size, t, got, live, pend, fly, tagR, shown)
    requires tagR == (rc.tagR == j) && (fly ==> !rc.sop) && 1 <= words <= 1024 && (taken ==> !busy && ready)
    requires Hit(rc, b, j) ==> live && !pend && 1 <= b.dwords <= size - got && (b.last <==> b.dwords <= 5)
    requires !rc.sop && !fly ==> !tagR
    requires !(shown && b.valid && b.last)
    ensures var got1 := got + if Hit(rc, b, j) then b.dwords else 0;
      var t' := NextTag(t, rc, b, j, busy, size);
      && (t'.completed <==> b.valid && b.last && (fly || Hit(rc, b, j)) && got1 == size)
      && CellOk(taken || (busy && !t.completed), if taken then words else size, t',
                if t.completed then 0 else got1,
                taken || (live && !t'.completed),
                if ready then taken else pend,
                (if b.valid then !b.last && (fly || Hit(rc, b, j)) else fly),
                if rc.sop then b.tag == j else tagR,
                taken && rc.sop && !b.valid && b.tag == j && size == 0)
  {
  }

  // ---------------------------------------------------------------- all tags

  lemma {:induction false} FirstFreeIs(b: seq<bool>, k: nat, j: nat)
    requires k <= j < |b| && !b[j] && forall n :: k <= n < j ==> b[n]
    ensures FirstFree(b, k) == j
    decreases |b| - k
  {
    if k < j { FirstFreeIs(b, k + 1, j); }
  }

  /** The tag in the header is the one marked busy. */
  lemma IssueTakes(x: Loop, window: nat, i: LoopIn, j: nat)
    requires j < |x.busy|
    ensures TakenNow(x, window, i, j) <==> Issues(x, window, i) && FirstFree(x.busy) == j
    ensures Issues(x, window, i) ==>
        FirstFree(x.busy) < |x.busy| && FirstFree(x.busy) < window && !x.busy[FirstFree(x.busy)]
  {
    if TakenNow(x, window, i, j) { FirstFreeIs(x.busy, 0, j); }
    if Issues(x, window, i) {
      var n :| 0 <= n < |x.busy| && n < window && !x.busy[n];
      RqSteps.FirstFreeBelow(x.busy, 0, n);
    }
  }

  lemma FlyTag(x: Loop, window: nat)
    requires LoopInv(x, window) && x.led.fly.Some?
    ensures x.rc.tagR == x.led.fly.value && x.led.fly.value in x.led.live
  {
    assert TagOk(x, x.led.fly.value);
  }

  lemma ShownTag(x: Loop, window: nat)
    requires LoopInv(x, window) && x.led.shown
    ensures x.rc.tagR in x.led.live
  {
    assert TagOk(x, x.rc.tagR);
  }

  /** The registers of one tag after a step. */
  lemma RegsAt(x: Loop, window: nat, i: LoopIn, j: nat)
    requires Sized(x, |x.busy|) && j < |x.busy| && j < window
    ensures var y := NextLoop(x, window, i); var taken := TakenNow(x, window, i, j);
      && y.busy[j] == (taken || (x.busy[j] && !x.rc.tags[j].completed))
      && y.sizes[j] == (if taken then i.words % 2048 else x.sizes[j])
      && y.rc.tags[j] == NextTag(x.rc.tags[j], x.rc, i.b, j, x.busy[j], x.sizes[j])
      && y.rc.tagR == (if x.rc.sop then i.b.tag else x.rc.tagR)
  {
    hide NextTag, NextLedger, Taken;
  }

  /** The ledger of one tag after a step. */
  lemma BookAt(x: Loop, window: nat, i: LoopIn, j: nat)
    requires Sized(x, |x.busy|) && j < |x.busy|
    ensures var l := NextLedger(x, window, i); var taken := TakenNow(x, window, i, j);
      && l.got[j] == (if x.rc.tags[j].completed then 0 else GotNow(x, i.b, j))
      && (j in l.live <==> taken || (j in x.led.live && !Finishes(x, i.b, j)))
      && l.shown == Glitch(x, window, i)
      && (l.pend == Some(j) <==> if i.ready then taken else x.led.pend == Some(j))
      && (l.fly == Some(j) <==> if i.b.valid then !i.b.last && Target(x, i.b) == j else x.led.fly == Some(j))
  {
    hide FirstFree, GotNow, Issues;
    IssueTakes(x, window, i, j);
  }

  /** In one step a tag of the window completes iff its last dword has just arrived. */
  lemma TagStep(x: Loop, window: nat, i: LoopIn, j: nat)
    requires LoopInv(x, window) && EnvOk(x, i) && j < window
    ensures var y := NextLoop(x, window, i);
      TagOk(y, j) && (y.rc.tags[j].completed <==> Finishes(x, i.b, j))
  {
    hide BookOk, NextTag, FirstFree, NextBusy, NextSizes, NextRc, NextLedger, Taken, CellOk;
    assert TagOk(x, j);
    RegsAt(x, window, i, j);
    BookAt(x, window, i, j);
    if x.led.fly.Some? { FlyTag(x, window); }
    var taken := TakenNow(x, window, i, j);
    if taken { FreshTag(x, window, i, j); }
    CellStep(x.busy[j], x.sizes[j], x.rc.tags[j], x.led.got[j], j in x.led.live, x.led.pend == Some(j),
             x.led.fly == Some(j), x.rc.tagR == j, x.led.shown && x.rc.tagR == j,
             x.rc, i.b, j, taken, if taken then i.words else 1, i.ready);
  }

  lemma FreshTag(x: Loop, window: nat, i: LoopIn, j: nat)
    requires j < |x.busy| && TakenNow(x, window, i, j)
    ensures !x.busy[j] && i.issuing
  {
  }

  lemma DeadStep(x: Loop, window: nat, i: LoopIn, j: nat)
    requires LoopInv(x, window) && EnvOk(x, i) && window <= j < |x.busy|
    ensures DeadOk(NextLoop(x, window, i), j)
  {
    hide BookOk, FirstFree;
    assert DeadOk(x, j);
    IssueTakes(x, window, i, j);
    if x.led.fly.Some? { FlyTag(x, window); }
  }

  lemma FlyStep(x: Loop, window: nat, i: LoopIn)
    requires LoopInv(x, window) && EnvOk(x, i)
    ensures FlyOk(NextLoop(x, window, i), window)
  {
    hide BookOk, FirstFree, NextTag;
    IssueTakes(x, window, i, 0);
    if x.led.fly.Some? { FlyTag(x, window); }
  }

  /** Issuing numbers a new read, finishing retires the read that owns the tag. */
  lemma BookStep(x: Loop, window: nat, i: LoopIn)
    requires LoopInv(x, window) && EnvOk(x, i)
    ensures var l := NextLedger(x, window, i); BookOk(l.live, l.issued, l.retired)
  {
    hide FirstFree, NextTag, CellOk, BookOk;
    var l, t, f := x.led, Target(x, i.b), FirstFree(x.busy);
    var done := t < |x.busy| && Finishes(x, i.b, t) && t in l.live;
    var live0, ret0 := if done then l.live - {t} else l.live, if done then l.retired + [l.live[t]] else l.retired;
    if done { Retire(l.live, l.issued, l.retired, t); }
    if Issues(x, window, i) {
      IssueTakes(x, window, i, 0);
      FreeNotLive(x, window, f);
      Enrol(live0, l.issued, ret0, f);
    }
  }

  lemma FreeNotLive(x: Loop, window: nat, f: nat)
    requires LoopInv(x, window) && f < window && !x.busy[f]
    ensures f !in x.led.live
  {
    assert TagOk(x, f);
  }

  lemma Retire(live: map<nat, nat>, issued: nat, retired: seq<nat>, t: nat)
    requires BookOk(live, issued, retired) && t in live
    ensures BookOk(live - {t}, issued, retired + [live[t]])
  {
    hide Unshared, NoRepeat;
    var m, r := live - {t}, retired + [live[t]];
    assert live.Keys == m.Keys + {t};
    assert |live.Keys| == |m.Keys| + 1;
    RetireDistinct(live, retired, t);
  }

  lemma RetireDistinct(live: map<nat, nat>, retired: seq<nat>, t: nat)
    requires Unshared(live) && NoRepeat(retired) && t in live && live[t] !in retired
    ensures Unshared(live - {t}) && NoRepeat(retired + [live[t]])
    ensures forall a :: a in live - {t} ==> live[a] != live[t]
  {
  }

  lemma Enrol(live: map<nat, nat>, issued: nat, retired: seq<nat>, f: nat)
    requires BookOk(live, issued, retired) && f !in live
    ensures BookOk(live[f := issued], issued + 1, retired)
  {
    var m := live[f := issued];
    assert m.Keys == live.Keys + {f};
    assert |m.Keys| == |live.Keys| + 1;
  }

  lemma LoopStep(x: Loop, window: nat, i: LoopIn)
    requires LoopInv(x, window) && EnvOk(x, i)
    ensures LoopInv(NextLoop(x, window, i), window)
  {
    hide NextTag, CellOk, FirstFree, BookOk, NextRc;
    var y := NextLoop(x, window, i);
    FlyStep(x, window, i);
    BookStep(x, window, i);
    forall j | 0 <= j < window ensures TagOk(y, j) { TagStep(x, window, i, j); }
    forall j | window <= j < |y.busy| ensures DeadOk(y, j) { DeadStep(x, window, i, j); }
  }

  // ---------------------------------------------------------------- runs

  function Initial(tags: nat): (x: Loop)
    ensures Sized(x, tags)
  {
    Loop(seq(tags, j => false), seq(tags, j => 0),
         Rc(true, 0, seq(tags, j => RcTag(false, 0, 0, false))),
         Ledger(seq(tags, j => 0), None, None, false, map[], 0, []))
  }

  function RunLoop(x: Loop, window: nat, ins: seq<LoopIn>): (r: Loop)
    requires Sized(x, |x.busy|)
    ensures Sized(r, |x.busy|)
  {
    if ins == [] then x else NextLoop(RunLoop(x, window, ins[..|ins| - 1]), window, ins[|ins| - 1])
  }

  predicate RunEnv(x: Loop, window: nat, ins: seq<LoopIn>)
    requires Sized(x, |x.busy|)
  {
    ins == [] || (RunEnv(x, window, ins[..|ins| - 1])
                  && EnvOk(RunLoop(x, window, ins[..|ins| - 1]), ins[|ins| - 1]))
  }

  lemma {:induction false} RunLoopInv(tags: nat, window: nat, ins: seq<LoopIn>)
    requires 1 <= window <= tags && RunEnv(Initial(tags), window, ins)
    ensures LoopInv(RunLoop(Initial(tags), window, ins), window)
  {
    hide NextLoop, EnvOk;
    if ins == [] {
      assert BookOk(map[], 0, []);
    } else {
      RunLoopInv(tags, window, ins[..|ins| - 1]);
      LoopStep(RunLoop(Initial(tags), window, ins[..|ins| - 1]), window, ins[|ins| - 1]);
    }
  }

  /** In every run: reads issued are reads completed plus reads outstanding, none completes
      twice, outstanding reads own pairwise different tags of the window, each busy, and a
      completion pulse only concerns a busy tag. */
  lemma ReadsConserved(tags: nat, window: nat, ins: seq<LoopIn>)
    requires 1 <= window <= tags && RunEnv(Initial(tags), window, ins)
    ensures var x := RunLoop(Initial(tags), window, ins);
      && x.led.issued == |x.led.retired| + |x.led.live|
      && (forall k, m :: 0 <= k < m < |x.led.retired| ==> x.led.retired[k] != x.led.retired[m])
      && (forall a, b :: a in x.led.live && b in x.led.live && a != b ==> x.led.live[a] != x.led.live[b])
      && (forall a :: a in x.led.live ==> a < window && x.led.live[a] !in x.led.retired)
      && (forall j :: 0 <= j < window ==> (j in x.led.live <==> x.busy[j] && !x.rc.tags[j].completed))
      && (forall j :: 0 <= j < window && x.rc.tags[j].completed ==> x.busy[j])
  {
    hide NextLoop, EnvOk;
    RunLoopInv(tags, window, ins);
    var x := RunLoop(Initial(tags), window, ins);
    forall j | 0 <= j < window ensures j in x.led.live <==> x.busy[j] && !x.rc.tags[j].completed {
      assert TagOk(x, j);
    }
    forall j | 0 <= j < window && x.rc.tags[j].completed ensures x.busy[j] {
      assert TagOk(x, j);
    }
  }

  /** In every run the completion pulse of a tag follows exactly the beat with the last dword. */
  lemma PulseExactlyOnLastDword(tags: nat, window: nat, ins: seq<LoopIn>, i: LoopIn, j: nat)
    requires 1 <= window <= tags && RunEnv(Initial(tags), window, ins + [i]) && j < window
    ensures var x := RunLoop(Initial(tags), window, ins);
      RunLoop(Initial(tags), window, ins + [i]).rc.tags[j].completed <==> Finishes(x, i.b, j)
  {
    hide NextLoop, EnvOk, Finishes;
    assert (ins + [i])[..|ins|] == ins;
    RunLoopInv(tags, window, ins);
    TagStep(RunLoop(Initial(tags), window, ins), window, i, j);
  }

  /** A strike completes the fresh tag although it has got nothing. */
  lemma StrikeCompletesUnserved(x: Loop, window: nat, i: LoopIn)
    requires LoopInv(x, window) && CompleterOk(x, i) && Strikes(x, i.b)
    ensures var y := NextLoop(x, window, i); var g := x.rc.tagR;
      g < window && y.rc.tags[g].completed && !Finishes(x, i.b, g) && y.led.got[g] == 0 < x.sizes[g]
  {
    hide BookOk, NextBusy, NextSizes, FirstFree;
    var g := x.rc.tagR;
    assert TagOk(x, g);
    BookAt(x, window, i, g);
  }

  predicate PulsesRight(x: Loop, window: nat, i: LoopIn)
    requires Sized(x, |x.busy|)
  {
    forall j :: 0 <= j < window && j < |x.busy| ==>
      (NextLoop(x, window, i).rc.tags[j].completed <==> Finishes(x, i.b, j))
  }

  /** The exact condition, whatever the idle bus shows: every pulse of a cycle is right iff the cycle
      does not bring a one-beat completion directly after one in which the idle bus showed a fresh tag. */
  lemma PulsesRightIff(x: Loop, window: nat, i: LoopIn)
    requires LoopInv(x, window) && CompleterOk(x, i)
    ensures PulsesRight(x, window, i) <==> !Strikes(x, i.b)
  {
    hide NextLoop, Finishes;
    if Strikes(x, i.b) {
      StrikeCompletesUnserved(x, window, i);
    } else {
      forall j | 0 <= j < window ensures NextLoop(x, window, i).rc.tags[j].completed <==> Finishes(x, i.b, j) {
        TagStep(x, window, i, j);
      }
    }
  }

  /** The same over two cycles: after a cycle with right pulses, those of the next cycle are right iff
      not both the first shows a fresh tag and the second brings a one-beat completion. */
  lemma TwoCyclesRightIff(x: Loop, window: nat, i1: LoopIn, i2: LoopIn)
    requires LoopInv(x, window) && CompleterOk(x, i1) && PulsesRight(x, window, i1)
    requires CompleterOk(NextLoop(x, window, i1), i2)
    ensures PulsesRight(NextLoop(x, window, i1), window, i2) <==> !(Glitch(x, window, i1) && i2.b.valid && i2.b.last)
  {
    hide CompleterOk, PulsesRight, Glitch, NextRc, NextBusy, NextSizes, TagOk, DeadOk, FlyOk, BookOk;
    PulsesRightIff(x, window, i1);
    LoopStep(x, window, i1);
    PulsesRightIff(NextLoop(x, window, i1), window, i2);
  }

  /** Over runs: as long as all pulses have been right, the next ones are right iff no strike comes. */
  lemma RunPulsesRightIff(tags: nat, window: nat, ins: seq<LoopIn>, i: LoopIn)
    requires 1 <= window <= tags && RunEnv(Initial(tags), window, ins)
    requires CompleterOk(RunLoop(Initial(tags), window, ins), i)
    ensures var x := RunLoop(Initial(tags), window, ins); PulsesRight(x, window, i) <==> !Strikes(x, i.b)
  {
    hide NextLoop, PulsesRight;
    RunLoopInv(tags, window, ins);
    PulsesRightIff(RunLoop(Initial(tags), window, ins), window, i);
  }

  const IDLE_BUS := RcIn(false, false, 7, 0)
  const ASK_TAG0 := LoopIn(true, true, 1, IDLE_BUS)
  const PAUSE := LoopIn(true, false, 1, IDLE_BUS)
  const ASK_TAG1 := LoopIn(true, true, 8, RcIn(false, false, 1, 0))
  const ANSWER_TAG0 := LoopIn(true, false, 1, RcIn(true, true, 0, 1))

  /** A concrete run into that situation: two tags, one read of one dword outstanding, and the
      idle bus showing tag 1 in the cycle in which tag 1 is handed out. */
  lemma GlitchWitness()
    ensures var x0 := Initial(2);
      var x1 := NextLoop(x0, 2, ASK_TAG0);
      var x2 := NextLoop(x1, 2, PAUSE);
      var y := NextLoop(x2, 2, ASK_TAG1);
      var z := NextLoop(y, 2, ANSWER_TAG0);
      && EnvOk(x0, ASK_TAG0) && EnvOk(x1, PAUSE) && CompleterOk(x2, ASK_TAG1) && CompleterOk(y, ANSWER_TAG0)
      && z.rc.tags[1].completed && z.led.got[1] == 0 && y.sizes[1] == 8
  {
    hide BookOk, CellOk, NextLoop, LoopInv, TagOk;
    var x2 := TwoCycles();
    var y := ThirdCycle(x2);
    StrikeCompletesUnserved(y, 2, ANSWER_TAG0);
  }

  lemma ThirdCycle(x2: Loop) returns (y: Loop)
    requires Sized(x2, 2) && LoopInv(x2, 2) && x2.busy == [true, false] && x2.sizes == [1, 0] && x2.led.got == [0, 0]
    requires x2.led.fly == None && 0 in x2.led.live && !x2.led.shown && x2.rc.sop
    ensures y == NextLoop(x2, 2, ASK_TAG1) && LoopInv(y, 2) && Sized(y, 2) && CompleterOk(x2, ASK_TAG1)
    ensures y.sizes[1] == 8 && y.rc.tagR == 1 && CompleterOk(y, ANSWER_TAG0) && Strikes(y, ANSWER_TAG0.b)
  {
    hide BookOk, CellOk, NextTag, LoopInv;
    IssueTakes(x2, 2, ASK_TAG1, 1);
    y := NextLoop(x2, 2, ASK_TAG1);
    assert y.sizes == [1, 8] && y.led.got == [0, 0] && y.led.pend == Some(1) && 0 in y.led.live;
    LoopStep(x2, 2, ASK_TAG1);
  }

  lemma FirstCycle() returns (x1: Loop)
    ensures x1 == NextLoop(Initial(2), 2, ASK_TAG0) && EnvOk(Initial(2), ASK_TAG0) && LoopInv(x1, 2)
    ensures x1.busy == [true, false] && x1.sizes == [1, 0] && x1.led.got == [0, 0] && x1.led.fly == None
    ensures 0 in x1.led.live && !x1.rc.tags[0].completed
  {
    hide BookOk, CellOk, LoopInv;
    var x0 := Initial(2);
    RunLoopInv(2, 2, []);
    IssueTakes(x0, 2, ASK_TAG0, 0);
    x1 := NextLoop(x0, 2, ASK_TAG0);
    LoopStep(x0, 2, ASK_TAG0);
  }

  lemma TwoCycles() returns (x2: Loop)
    ensures var x0 := Initial(2); var x1 := NextLoop(x0, 2, ASK_TAG0);
      x2 == NextLoop(x1, 2, PAUSE) && EnvOk(x0, ASK_TAG0) && EnvOk(x1, PAUSE) && LoopInv(x2, 2)
    ensures x2.busy == [true, false] && x2.sizes == [1, 0] && x2.led.got == [0, 0] && x2.led.fly == None
    ensures Sized(x2, 2) && 0 in x2.led.live && !x2.led.shown && x2.rc.sop
  {
    hide BookOk, CellOk, NextTag, LoopInv;
    var x1 := FirstCycle();
    x2 := NextLoop(x1, 2, PAUSE);
    LoopStep(x1, 2, PAUSE);
  }

  // ---------------------------------------------------------------- a window that grows

  /** A tag that was never handed out and is only kept busy because it lay outside the window. */
  predicate Forced(x: Loop, j: nat)
    requires Sized(x, |x.busy|)
  {
    && j < |x.busy| && x.busy[j] && x.sizes[j] == 0 && j !in x.led.live
    && !x.rc.tags[j].completed && x.rc.tags[j].wc == 0 && x.rc.tags[j].exc
    && (x.rc.sop <==> x.led.fly == None)
  }

  /** A TLP ends while the tag register still points at j. */
  predicate Hits(x: Loop, b: RcIn, j: nat) { b.valid && b.last && x.rc.tagR == j }

  /** Such a tag stays as it is, whatever the window, except in a cycle of that kind: then it
      completes, and the next cycle frees it if the window covers it by then. Only an idle bus makes
      the tag register point at it. */
  lemma ForcedStep(x: Loop, window: nat, i: LoopIn, j: nat)
    requires Sized(x, |x.busy|) && Forced(x, j) && BeatOk(x, i.b)
    ensures var y := NextLoop(x, window, i);
      && (y.rc.tags[j].completed <==> Hits(x, i.b, j))
      && (Forced(y, j) <==> !Hits(x, i.b, j))
      && (y.rc.tagR == j ==> x.rc.tagR == j || (!i.b.valid && i.b.tag == j))
  {
    hide FirstFree;
    IssueTakes(x, window, i, j);
  }

  lemma ForcedFreed(x: Loop, window: nat, i1: LoopIn, i2: LoopIn, j: nat)
    requires Sized(x, |x.busy|) && Forced(x, j) && BeatOk(x, i1.b) && Hits(x, i1.b, j) && 1 <= j
    ensures NextLoop(NextLoop(x, window, i1), window, i2).busy[j] <==> j >= window
  {
    hide FirstFree, NextTag;
    ForcedStep(x, window, i1, j);
    var y := NextLoop(x, window, i1);
    assert y.busy[j];
  }

  /** The cycle in which a TLP ends on tag j, if there is one. */
  predicate NeverHit(x: Loop, window: nat, ins: seq<LoopIn>, j: nat)
    requires Sized(x, |x.busy|)
  {
    ins == [] || (NeverHit(x, window, ins[..|ins| - 1], j)
                  && !Hits(RunLoop(x, window, ins[..|ins| - 1]), ins[|ins| - 1].b, j))
  }

  predicate BeatsOk(x: Loop, window: nat, ins: seq<LoopIn>)
    requires Sized(x, |x.busy|)
  {
    ins == [] || (BeatsOk(x, window, ins[..|ins| - 1])
                  && BeatOk(RunLoop(x, window, ins[..|ins| - 1]), ins[|ins| - 1].b))
  }

  /** After the window has grown, a tag above the old one stays busy, and is never handed out, until a
      TLP ends while the tag register points at it: which needs an idle bus that showed it. */
  lemma {:induction false} GrownWindowTag(x: Loop, window: nat, ins: seq<LoopIn>, j: nat)
    requires Sized(x, |x.busy|) && Forced(x, j) && BeatsOk(x, window, ins) && NeverHit(x, window, ins, j)
    ensures Forced(RunLoop(x, window, ins), j)
  {
    hide NextLoop, Forced, BeatOk;
    if ins != [] {
      var pre := ins[..|ins| - 1];
      GrownWindowTag(x, window, pre, j);
      ForcedStep(RunLoop(x, window, pre), window, ins[|ins| - 1], j);
    }
  }

  /** Two idle cycles with a window of one tag force the second one. */
  lemma ForcedHappens(i1: LoopIn, i2: LoopIn)
    requires !i1.b.valid && !i2.b.valid && !i1.issuing && !i2.issuing
    ensures Forced(NextLoop(NextLoop(Initial(2), 1, i1), 1, i2), 1)
    ensures NextLoop(NextLoop(Initial(2), 1, i1), 1, i2).rc.tagR == i2.b.tag
  {
    var x := NextLoop(Initial(2), 1, i1);
    assert x.busy[1] && x.sizes[1] == 0 && x.rc.tags[1].exc && x.rc.tags[1].wc == 0 && x.rc.sop;
  }
}
