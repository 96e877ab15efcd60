/** The completion side of dma_rc_logic.v: per-tag word counters and the pulse that frees a read
    tag, one function for a clock edge. */
module RcModel {

  /** The registers kept for one tag. */
  datatype RcTag = RcTag(completed: bool, wc: nat, diff: nat, exc: bool)

  datatype Rc = Rc(sop: bool, tagR: nat, tags: seq<RcTag>)

  /** One cycle of the completion stream: handshake, last flag, and the tag and length bits. */
  datatype RcIn = RcIn(valid: bool, last: bool, tag: nat, dwords: nat)

  /** Value kept by an 11-bit register. */
  function W11(x: int): nat { x % 2048 }

  /** First beat of a completion for tag j. */
  predicate Hit(rc: Rc, b: RcIn, j: nat) { rc.sop && b.valid && b.tag == j }

  /** A single beat that brings all that was missing. */
  predicate Fast(b: RcIn, t: RcTag) { b.dwords <= 5 && b.dwords >= t.diff }

  function NextTag(t: RcTag, rc: Rc, b: RcIn, j: nat, busy: bool, size: nat): RcTag {
    var hit := Hit(rc, b, j);
    var short := b.last && Fast(b, t);
    RcTag(
      !t.completed && busy && b.valid && b.last
        && ((t.exc && j == rc.tagR) || (rc.sop && j == b.tag && Fast(b, t))),
      if hit then (if short || t.completed then 0 else W11(t.wc + b.dwords)) else if t.completed then 0 else t.wc,
      if hit then W11(size - t.wc - b.dwords) else W11(size - t.wc),
      if hit && busy then (if short then t.exc else W11(size - t.wc) <= b.dwords)
      else !t.completed && t.wc >= size)
  }

  function NextRc(rc: Rc, b: RcIn, busy: seq<bool>, sizes: seq<nat>): (r: Rc)
    requires |busy| == |sizes| == |rc.tags|
    ensures |r.tags| == |rc.tags|
  {
    Rc(if b.valid then b.last else rc.sop,
       if rc.sop then b.tag else rc.tagR,
       seq(|rc.tags|, j requires 0 <= j < |rc.tags| => NextTag(rc.tags[j], rc, b, j, busy[j], sizes[j])))
  }
}
