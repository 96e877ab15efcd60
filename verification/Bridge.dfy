/** The BAR2 bridge of pcie_to_axi_reg_requester.sv: two state machines that share a descriptor
    queue. Addresses and descriptors are pushed together, data and descriptors popped together,
    so a completion always matches its data; but a pair popped while a completion is being sent
    is lost, and the model says exactly when that can happen. */
module Bridge {
  datatype Cq = CqReset | CqWait | CqStoreRd | CqStoreWr
  datatype Cc = CcReset | CcWait | CcSend

  /** What a completion must return: requester id and tag. */
  datatype Desc = Desc(id: nat, tag: nat)
  datatype Arrival = Nothing | Read(who: Desc, addr: nat) | Write(at: nat, value: nat)
  datatype Sent = Sent(origin: nat, who: Desc, data: nat)

  /** All descriptors, addresses and data ever queued, addresses taken by the slave, pairs popped,
      origin of the completion held, completions sent, pairs lost, reads accepted. */
  datatype Log = Log(descs: seq<Desc>, addrs: seq<nat>, data: seq<nat>, taken: nat, popped: nat,
                     held: nat, sent: seq<Sent>, lost: nat, accepted: seq<Arrival>)

  datatype State = State(cq: Cq, who: Desc, addr: nat, ar: seq<nat>, d: seq<Desc>, r: seq<nat>,
                         cc: Cc, cplWho: Desc, cplData: nat)

  /** One cycle: the request, the ready signals of the queues, whether the descriptor and data
      queues show their heads, the completion handshake, and what the slave does. */
  datatype In = In(req: Arrival, arReady: bool, dReady: bool, wrReady: bool, dShows: bool, rShows: bool,
                   ready: bool, takes: bool, returns_: bool, value: nat)

  predicate Pushes(s: State, i: In) { s.cq == CqStoreRd && i.arReady && i.dReady }
  predicate Available(i: In) { i.dShows && i.rShows }

  /** Queues show only what they hold; the slave answers in order what it has taken. */
  predicate InOk(s: State, l: Log, i: In) {
    && (i.dShows ==> s.d != []) && (i.rShows ==> s.r != []) && (i.takes ==> s.ar != [])
    && (i.returns_ ==> |l.data| < l.taken)
  }

  function Drop<T>(s: seq<T>, pop: bool): seq<T>
    requires pop ==> s != []
  {
    if pop then s[1..] else s
  }

  function Add<T>(s: seq<T>, push: bool, x: T): seq<T> { if push then s + [x] else s }

  function NextCq(s: State, i: In): Cq {
    match s.cq
    case CqReset => CqWait
    case CqWait => (match i.req case Read(_, _) => CqStoreRd case Write(_, _) => CqStoreWr case Nothing => CqWait)
    case CqStoreWr => if i.wrReady then CqWait else CqStoreWr
    case CqStoreRd => if i.arReady && i.dReady then CqWait else CqStoreRd
  }

  function NextCc(s: State, i: In): Cc {
    match s.cc
    case CcReset => CcWait
    case CcWait => if Available(i) then CcSend else CcWait
    case CcSend => if i.ready then CcWait else CcSend
  }

  predicate Captures(s: State, i: In) { s.cc == CcWait && Available(i) }

  function Next(s: State, l: Log, i: In): State
    requires InOk(s, l, i)
  {
    State(NextCq(s, i),
          if s.cq == CqWait && i.req.Read? then i.req.who else s.who,
          if s.cq == CqWait && i.req.Read? then i.req.addr else s.addr,
          Add(Drop(s.ar, i.takes), Pushes(s, i), s.addr),
          Add(Drop(s.d, Available(i)), Pushes(s, i), s.who),
          Add(Drop(s.r, Available(i)), i.returns_, i.value),
          NextCc(s, i),
          if Captures(s, i) then s.d[0] else s.cplWho,
          if Captures(s, i) then s.r[0] else s.cplData)
  }

  function Record(s: State, l: Log, i: In): Log {
    Log(Add(l.descs, Pushes(s, i), s.who), Add(l.addrs, Pushes(s, i), s.addr), Add(l.data, i.returns_, i.value),
        l.taken + (if i.takes then 1 else 0),
        l.popped + (if Available(i) then 1 else 0),
        if Captures(s, i) then l.popped else l.held,
        Add(l.sent, s.cc == CcSend && i.ready, Sent(l.held, s.cplWho, s.cplData)),
        l.lost + (if Available(i) && s.cc != CcWait then 1 else 0),
        Add(l.accepted, s.cq == CqWait && i.req.Read?, i.req))
  }

  // ---------------------------------------------------------------- pairing

  predicate Queues(s: State, l: Log) {
    && |l.descs| == |l.addrs| && l.popped <= |l.data| <= l.taken <= |l.addrs|
    && s.ar == l.addrs[l.taken..] && s.d == l.descs[l.popped..] && s.r == l.data[l.popped..]
  }

  /** A completion carries the descriptor of the read whose data it returns. */
  predicate Answers(l: Log, c: Sent) {
    c.origin < l.popped <= |l.data| <= |l.descs| && c.who == l.descs[c.origin] && c.data == l.data[c.origin]
  }

  predicate Sending(s: State, l: Log) {
    && (s.cc == CcSend ==>
        Answers(l, Sent(l.held, s.cplWho, s.cplData)) && (l.sent != [] ==> l.sent[|l.sent| - 1].origin < l.held))
    && (forall k :: 0 <= k < |l.sent| ==> Answers(l, l.sent[k]))
    && (forall k :: 0 < k < |l.sent| ==> l.sent[k - 1].origin < l.sent[k].origin)
    && (l.sent != [] ==> l.sent[|l.sent| - 1].origin < l.popped)
  }

  predicate Counted(s: State, l: Log) {
    && l.popped == |l.sent| + (if s.cc == CcSend then 1 else 0) + l.lost
    && (s.cc == CcReset ==> s.d == [] && l.lost == 0)
  }

  /** What was queued for a read is what came with it. */
  predicate Faithful(s: State, l: Log) {
    && |l.descs| == |l.addrs| && |l.accepted| == |l.descs| + (if s.cq == CqStoreRd then 1 else 0)
    && (forall k :: 0 <= k < |l.descs| ==> l.accepted[k] == Read(l.descs[k], l.addrs[k]))
    && (s.cq == CqStoreRd ==> l.accepted[|l.descs|] == Read(s.who, s.addr))
  }

  predicate Inv(s: State, l: Log) { Queues(s, l) && Sending(s, l) && Counted(s, l) && Faithful(s, l) }

  /** A queue is what has been pushed and not yet popped. */
  lemma QueueStep<T>(all: seq<T>, from: nat, q: seq<T>, pop: bool, push: bool, x: T)
    requires from <= |all| && q == all[from..] && (pop ==> q != [])
    ensures Add(Drop(q, pop), push, x) == Add(all, push, x)[from + (if pop then 1 else 0)..]
  {
  }

  lemma QueuesStep(s: State, l: Log, i: In)
    requires Inv(s, l) && InOk(s, l, i)
    ensures Queues(Next(s, l, i), Record(s, l, i))
  {
    hide Drop, Add, Sending, Counted, NextCq, NextCc;
    QueueStep(l.addrs, l.taken, s.ar, i.takes, Pushes(s, i), s.addr);
    QueueStep(l.descs, l.popped, s.d, Available(i), Pushes(s, i), s.who);
    QueueStep(l.data, l.popped, s.r, Available(i), i.returns_, i.value);
    Lengths(s, l, i);
  }

  lemma Lengths(s: State, l: Log, i: In)
    requires Inv(s, l) && InOk(s, l, i)
    ensures var l' := Record(s, l, i); |l'.descs| == |l'.addrs| && l'.popped <= |l'.data| <= l'.taken <= |l'.addrs|
  {
  }

  lemma SendingStep(s: State, l: Log, i: In)
    requires Inv(s, l) && InOk(s, l, i)
    ensures Sending(Next(s, l, i), Record(s, l, i))
  {
    hide Queues, Counted, Faithful, Answers, NextCq, Drop;
    var s', l' := Next(s, l, i), Record(s, l, i);
    if Captures(s, i) { CapturedPair(s, l, i); }
    if s.cc == CcSend { StillAnswers(s, l, i, Sent(l.held, s.cplWho, s.cplData)); }
    forall k | 0 <= k < |l.sent| ensures Answers(l', l.sent[k]) { StillAnswers(s, l, i, l.sent[k]); }
    if l.sent != [] { LastBefore(l, l.sent[|l.sent| - 1]); }
    if s.cc == CcSend { LastBefore(l, Sent(l.held, s.cplWho, s.cplData)); }
  }

  lemma LastBefore(l: Log, c: Sent)
    requires Answers(l, c)
    ensures c.origin < l.popped
  {
  }

  /** What answered a read goes on answering it. */
  lemma StillAnswers(s: State, l: Log, i: In, c: Sent)
    requires Inv(s, l) && InOk(s, l, i) && Answers(l, c)
    ensures Answers(Record(s, l, i), c)
  {
    hide Sending, Counted;
    Lengths(s, l, i);
  }

  lemma CapturedPair(s: State, l: Log, i: In)
    requires Inv(s, l) && InOk(s, l, i) && Captures(s, i)
    ensures Answers(Record(s, l, i), Sent(l.popped, s.d[0], s.r[0]))
  {
    hide Sending, Counted;
    Lengths(s, l, i);
    assert s.d[0] == l.descs[l.popped] && s.r[0] == l.data[l.popped];
  }

  /** The two machines leave reset together. */
  predicate Together(s: State) { s.cc == CcReset <==> s.cq == CqReset }

  lemma CountedStep(s: State, l: Log, i: In)
    requires Inv(s, l) && InOk(s, l, i) && Together(s)
    ensures Counted(Next(s, l, i), Record(s, l, i))
  {
    hide Sending, Answers;
  }

  lemma FaithfulStep(s: State, l: Log, i: In)
    requires InOk(s, l, i) && Faithful(s, l)
    ensures Faithful(Next(s, l, i), Record(s, l, i))
  {
    var m := l.(descs := Add(l.descs, Pushes(s, i), s.who), addrs := Add(l.addrs, Pushes(s, i), s.addr),
                accepted := Add(l.accepted, s.cq == CqWait && i.req.Read?, i.req));
    var s', l' := Next(s, l, i), Record(s, l, i);
    assert l'.descs == m.descs && l'.addrs == m.addrs && l'.accepted == m.accepted;
    assert s'.cq == NextCq(s, i) && (s.cq == CqStoreRd ==> s'.who == s.who && s'.addr == s.addr);
    assert s.cq == CqWait && i.req.Read? ==> s'.who == i.req.who && s'.addr == i.req.addr;
    hide Next, Record, InOk;
    forall k | 0 <= k < |m.descs| ensures m.accepted[k] == Read(m.descs[k], m.addrs[k]) {
      if k < |l.descs| { assert l.accepted[k] == Read(l.descs[k], l.addrs[k]); }
    }
  }

  lemma Step(s: State, l: Log, i: In)
    requires Inv(s, l) && InOk(s, l, i) && Together(s)
    ensures Inv(Next(s, l, i), Record(s, l, i)) && Together(Next(s, l, i))
  {
    hide Sending, Queues, Answers;
    QueuesStep(s, l, i);
    SendingStep(s, l, i);
    CountedStep(s, l, i);
    FaithfulStep(s, l, i);
  }

  // ---------------------------------------------------------------- runs

  function Run(s: State, l: Log, ins: seq<In>): (State, Log) {
    if ins == [] then (s, l)
    else
      var (s1, l1) := Run(s, l, ins[..|ins| - 1]);
      var i := ins[|ins| - 1];
      if InOk(s1, l1, i) then (Next(s1, l1, i), Record(s1, l1, i)) else (s1, l1)
  }

  const FRESH := Log([], [], [], 0, 0, 0, [], 0, [])

  predicate Boot(s: State) { s.cq == CqReset && s.cc == CcReset && s.ar == [] && s.d == [] && s.r == [] }

  lemma {:induction false} RunFrom(s: State, l: Log, ins: seq<In>)
    requires Inv(s, l) && Together(s)
    ensures var (t, m) := Run(s, l, ins); Inv(t, m) && Together(t)
  {
    hide Next, Record, Inv, InOk;
    if ins != [] {
      RunFrom(s, l, ins[..|ins| - 1]);
      var (s1, l1) := Run(s, l, ins[..|ins| - 1]);
      if InOk(s1, l1, ins[|ins| - 1]) { Step(s1, l1, ins[|ins| - 1]); }
    }
  }

  /** A read that waits for its queues, and a completion that waits to be taken. */
  function Storing(s: State): nat { if s.cq == CqStoreRd then 1 else 0 }
  function Held(s: State): nat { if s.cc == CcSend then 1 else 0 }

  /** In every run each completion carries the requester and the tag of the read that produced
      its data, completions keep the order of the reads, the address queue gets the address and the
      descriptor queue the requester of each accepted read in turn, and every accepted read is still
      queued, being sent, answered once, or lost. */
  lemma CompletionsMatch(s: State, ins: seq<In>)
    requires Boot(s)
    ensures var (t, l) := Run(s, FRESH, ins);
      && (forall k :: 0 <= k < |l.sent| ==> Answers(l, l.sent[k]))
      && (forall k :: 0 < k < |l.sent| ==> l.sent[k - 1].origin < l.sent[k].origin)
      && |l.descs| == |l.addrs| <= |l.accepted|
      && (forall k :: 0 <= k < |l.descs| ==> l.accepted[k] == Read(l.descs[k], l.addrs[k]))
      && |l.accepted| == Storing(t) + |t.d| + Held(t) + |l.sent| + l.lost
  {
    hide Run;
    RunFrom(s, FRESH, ins);
    var (t, l) := Run(s, FRESH, ins);
    assert |t.d| == |l.descs| - l.popped;
  }

  /** The requester waits for the completion of a read before it sends the next one. */
  predicate OneAtATime(s: State, l: Log, ins: seq<In>) {
    ins == [] || (&& OneAtATime(s, l, ins[..|ins| - 1])
                  && var (s1, l1) := Run(s, l, ins[..|ins| - 1]);
                     (s1.cq == CqWait && ins[|ins| - 1].req.Read? ==> |l1.accepted| == |l1.sent|))
  }

  lemma SafeStep(s: State, l: Log, i: In)
    requires Inv(s, l) && InOk(s, l, i) && Together(s) && l.lost == 0 && |l.accepted| <= |l.sent| + 1
    requires s.cq == CqWait && i.req.Read? ==> |l.accepted| == |l.sent|
    ensures var l' := Record(s, l, i); l'.lost == 0 && |l'.accepted| <= |l'.sent| + 1
  {
    if s.cc == CcSend { assert |s.d| == 0; }
  }

  /** With at most one read outstanding nothing is ever lost. */
  lemma {:induction false} NoneLost(s: State, ins: seq<In>)
    requires Boot(s) && OneAtATime(s, FRESH, ins)
    ensures var (t, l) := Run(s, FRESH, ins); l.lost == 0 && |l.sent| <= |l.accepted| <= |l.sent| + 1
  {
    hide Next, Record, InOk;
    CompletionsMatch(s, ins);
    if ins != [] {
      NoneLost(s, ins[..|ins| - 1]);
      RunFrom(s, FRESH, ins[..|ins| - 1]);
      var (s1, l1) := Run(s, FRESH, ins[..|ins| - 1]);
      if InOk(s1, l1, ins[|ins| - 1]) { SafeStep(s1, l1, ins[|ins| - 1]); }
    }
  }

  // ---------------------------------------------------------------- loss

  /** Read n has been popped but is neither answered nor about to be. */
  predicate Gone(s: State, l: Log, n: nat) {
    n < l.popped && (forall k :: 0 <= k < |l.sent| ==> l.sent[k].origin != n) && (s.cc == CcSend ==> l.held != n)
  }

  lemma {:induction false} GoneForGood(s: State, l: Log, n: nat, ins: seq<In>)
    requires Gone(s, l, n)
    ensures var (t, m) := Run(s, l, ins); Gone(t, m, n)
  {
    if ins != [] { GoneForGood(s, l, n, ins[..|ins| - 1]); }
  }

  /** Read n has got its completion. */
  predicate Answered(l: Log, n: nat) { exists k :: 0 <= k < |l.sent| && l.sent[k].origin == n }

  ghost predicate CanBeAnswered(s: State, l: Log, n: nat) { exists more: seq<In> :: Answered(Run(s, l, more).1, n) }

  lemma GoneUnanswered(s: State, l: Log, n: nat)
    requires Gone(s, l, n)
    ensures !CanBeAnswered(s, l, n)
  {
    forall more: seq<In> ensures !Answered(Run(s, l, more).1, n) { GoneForGood(s, l, n, more); }
  }

  /** A captured pair is answered as soon as the completion is taken. */
  lemma CapturedAnswered(s: State, l: Log, i: In)
    requires InOk(s, l, i) && Captures(s, i)
    ensures CanBeAnswered(Next(s, l, i), Record(s, l, i), l.popped)
  {
    var t, m, taken := Next(s, l, i), Record(s, l, i), IDLE.(ready := true);
    assert [taken][..0] == [] && Run(t, m, []) == (t, m);
    assert InOk(t, m, taken);
    var m2 := Record(t, m, taken);
    assert m2.sent[|m.sent|].origin == l.popped;
    assert Answered(Run(t, m, [taken]).1, l.popped);
  }

  /** In every run, when the data and the descriptor of read n leave their queues: some continuation
      answers the read iff no completion is being sent in that cycle. A read lost there stays
      unanswered whatever follows. */
  lemma LostExactly(s: State, ins: seq<In>, i: In)
    requires Boot(s) && InOk(Run(s, FRESH, ins).0, Run(s, FRESH, ins).1, i) && Available(i)
    ensures var (t, l) := Run(s, FRESH, ins);
      && (CanBeAnswered(Next(t, l, i), Record(t, l, i), l.popped) <==> t.cc != CcSend)
      && (Record(t, l, i).lost > l.lost <==> t.cc == CcSend)
  {
    hide Run, Next, Record, Inv, CanBeAnswered, InOk;
    assert Inv(s, FRESH) by { FreshInv(s); }
    RunFrom(s, FRESH, ins);
    var (t, l) := Run(s, FRESH, ins);
    PoppedCase(t, l, i);
    var t', l' := Next(t, l, i), Record(t, l, i);
    if t.cc == CcSend {
      GoneUnanswered(t', l', l.popped);
    } else {
      CapturedAnswered(t, l, i);
    }
  }

  lemma FreshInv(s: State)
    requires Boot(s)
    ensures Inv(s, FRESH) && Together(s)
  {
  }

  /** A popped pair is either captured or gone. */
  lemma PoppedCase(t: State, l: Log, i: In)
    requires Inv(t, l) && Together(t) && InOk(t, l, i) && Available(i)
    ensures t.cc == CcSend ==> Gone(Next(t, l, i), Record(t, l, i), l.popped)
    ensures t.cc != CcSend ==> Captures(t, i)
    ensures Record(t, l, i).lost > l.lost <==> t.cc == CcSend
  {
    assert forall k :: 0 <= k < |l.sent| ==> Answers(l, l.sent[k]);
  }

  const IDLE := In(Nothing, true, true, true, false, false, false, false, false, 0)

  lemma Snoc(s: State, l: Log, ins: seq<In>, i: In)
    ensures var (s1, l1) := Run(s, l, ins);
      InOk(s1, l1, i) ==> Run(s, l, ins + [i]) == (Next(s1, l1, i), Record(s1, l1, i))
  {
    assert (ins + [i])[..|ins|] == ins;
  }

  const FIRST := Desc(1, 5)
  const SECOND := Desc(1, 6)

  lemma FirstQueued(s: State) returns (ins: seq<In>, t: State, l: Log)
    requires Boot(s)
    ensures Run(s, FRESH, ins) == (t, l)
    ensures t.cq == CqWait && t.cc == CcWait && t.ar == [0] && t.d == [FIRST] && t.r == []
    ensures l.taken == |l.data| == l.popped == l.lost == |l.sent| == 0 && |l.accepted| == 1
  {
    hide Run;
    Empty(s, FRESH);
    t, l, ins := Advance(s, [], s, FRESH, IDLE);
    t, l, ins := Advance(s, ins, t, l, IDLE.(req := Read(FIRST, 0)));
    t, l, ins := Advance(s, ins, t, l, IDLE);
  }

  lemma SecondQueued(s: State) returns (ins: seq<In>, t: State, l: Log)
    requires Boot(s)
    ensures Run(s, FRESH, ins) == (t, l)
    ensures t.cq == CqWait && t.cc == CcWait && t.ar == [4] && t.d == [FIRST, SECOND] && t.r == [0]
    ensures l.taken == |l.data| == 1 && l.popped == l.lost == |l.sent| == 0 && |l.accepted| == 2
  {
    hide Run;
    ins, t, l := FirstQueued(s);
    t, l, ins := Advance(s, ins, t, l, IDLE.(req := Read(SECOND, 4), takes := true));
    t, l, ins := Advance(s, ins, t, l, IDLE.(returns_ := true));
  }

  /** A concrete loss: two reads are accepted before the first completion is taken. */
  lemma LossHappens(s: State) returns (ins: seq<In>)
    requires Boot(s)
    ensures var (t, l) := Run(s, FRESH, ins); l.lost == 1 && |l.accepted| == 2 && |l.sent| == 0 && t.d == []
  {
    hide Run;
    var t, l;
    ins, t, l := SecondQueued(s);
    t, l, ins := Advance(s, ins, t, l, IDLE.(takes := true, dShows := true, rShows := true));
    assert t.d == [SECOND] && t.r == [] && t.cc == CcSend;
    t, l, ins := Advance(s, ins, t, l, IDLE.(returns_ := true));
    assert t.r == [0] && t.cc == CcSend;
    t, l, ins := Advance(s, ins, t, l, IDLE.(dShows := true, rShows := true));
  }

  lemma Empty(s: State, l: Log)
    ensures Run(s, l, []) == (s, l)
  {
  }

  lemma Advance(s: State, ins: seq<In>, t: State, l: Log, i: In) returns (t': State, l': Log, ins': seq<In>)
    requires Run(s, FRESH, ins) == (t, l) && InOk(t, l, i)
    ensures ins' == ins + [i] && t' == Next(t, l, i) && l' == Record(t, l, i) && Run(s, FRESH, ins') == (t', l')
  {
    Snoc(s, FRESH, ins, i);
    t', l', ins' := Next(t, l, i), Record(t, l, i), ins + [i];
  }

  // ---------------------------------------------------------------- clocked form

  /** Registers and queues updated at every clock edge; the log is kept for the proof. */
  class Unit {
    var cq: Cq
    var who: Desc
    var addr: nat
    var ar: seq<nat>
    var d: seq<Desc>
    var r: seq<nat>
    var cc: Cc
    var cplWho: Desc
    var cplData: nat
    ghost var log: Log

    ghost function Now(): State
      reads this
    {
      State(cq, who, addr, ar, d, r, cc, cplWho, cplData)
    }

    ghost predicate Valid()
      reads this
    {
      Inv(Now(), log) && Together(Now())
    }

    constructor ()
      ensures Valid() && Boot(Now()) && log == FRESH
    {
      cq, cc, ar, d, r := CqReset, CcReset, [], [], [];
      who, addr, cplWho, cplData := Desc(0, 0), 0, Desc(0, 0), 0;
      log := FRESH;
    }

    /** Completion side: capture a pair when idle, hold it until it is taken. */
    method ReplyBlock(i: In)
      requires Available(i) ==> d != [] && r != []
      modifies this`cc, this`cplWho, this`cplData
      ensures cc == NextCc(old(Now()), i)
      ensures cplWho == (if old(cc) == CcWait && Available(i) then d[0] else old(cplWho))
      ensures cplData == (if old(cc) == CcWait && Available(i) then r[0] else old(cplData))
    {
      match cc {
        case CcReset => cc := CcWait;
        case CcWait =>
          if i.dShows && i.rShows { cc, cplWho, cplData := CcSend, d[0], r[0]; }
        case CcSend =>
          if i.ready { cc := CcWait; }
      }
    }

    /** The queues: both heads leave together, address and descriptor enter together. */
    method QueueBlock(i: In)
      requires (Available(i) ==> d != [] && r != []) && (i.takes ==> ar != [])
      modifies this`ar, this`d, this`r
      ensures ar == Add(Drop(old(ar), i.takes), Pushes(Now(), i), addr)
      ensures d == Add(Drop(old(d), Available(i)), Pushes(Now(), i), who)
      ensures r == Add(Drop(old(r), Available(i)), i.returns_, i.value)
    {
      if i.takes { ar := ar[1..]; }
      if i.dShows && i.rShows { d, r := d[1..], r[1..]; }
      if cq == CqStoreRd && i.arReady && i.dReady { ar, d := ar + [addr], d + [who]; }
      if i.returns_ { r := r + [i.value]; }
    }

    /** Request side: capture a request, then wait until its queues have room. */
    method RequestBlock(i: In)
      modifies this`cq, this`who, this`addr
      ensures cq == NextCq(old(Now()), i)
      ensures who == if old(cq) == CqWait && i.req.Read? then i.req.who else old(who)
      ensures addr == if old(cq) == CqWait && i.req.Read? then i.req.addr else old(addr)
    {
      match cq {
        case CqReset => cq := CqWait;
        case CqWait =>
          if i.req.Read? {
            who, addr, cq := i.req.who, i.req.addr, CqStoreRd;
          } else if i.req.Write? {
            cq := CqStoreWr;
          }
        case CqStoreWr => if i.wrReady { cq := CqWait; }
        case CqStoreRd => if i.arReady && i.dReady { cq := CqWait; }
      }
    }

    method Tick(i: In)
      requires Valid() && InOk(Now(), log, i)
      modifies this
      ensures Valid() && Now() == Next(old(Now()), old(log), i) && log == Record(old(Now()), old(log), i)
    {
      hide Inv, Together, Add, Drop, Record;
      ghost var s, l := Now(), log;
      Step(s, l, i);
      ReplyBlock(i);
      QueueBlock(i);
      RequestBlock(i);
      log := Record(s, l, i);
    }
  }
}
