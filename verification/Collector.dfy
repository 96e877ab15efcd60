/** The completion side in the form of its source: four register arrays indexed by tag, all
    updated in place at every clock edge. */
module Collector {
  import opened RcModel

  class Engine {
    var sop: bool
    var tagR: nat
    const completed: array<bool>
    const count: array<nat>
    const difference: array<nat>
    const exceeded: array<bool>

    ghost predicate Valid(tags: nat) {
      completed.Length == count.Length == difference.Length == exceeded.Length == tags && completed != exceeded
        && count != difference
    }

    ghost function Cell(j: int): RcTag
      reads completed, count, difference, exceeded
      requires Valid(completed.Length) && 0 <= j < completed.Length
    {
      RcTag(completed[j], count[j], difference[j], exceeded[j])
    }

    ghost function State(): Rc
      reads this, completed, count, difference, exceeded
      requires Valid(completed.Length)
    {
      Rc(sop, tagR, seq(completed.Length, j requires 0 <= j < completed.Length
                                            reads completed, count, difference, exceeded => Cell(j)))
    }

    constructor (tags: nat)
      ensures Valid(tags) && fresh(completed) && fresh(count) && fresh(difference) && fresh(exceeded)
      ensures State() == Rc(true, 0, seq(tags, j => RcTag(false, 0, 0, false)))
    {
      sop, tagR := true, 0;
      completed := new bool[tags](_ => false);
      count := new nat[tags](_ => 0);
      difference := new nat[tags](_ => 0);
      exceeded := new bool[tags](_ => false);
    }

    /** The four registers of one tag. */
    method TagBlock(j: nat, b: RcIn, busy: bool, size: nat)
      requires Valid(completed.Length) && j < completed.Length
      modifies completed, count, difference, exceeded
      ensures Cell(j) == NextTag(old(Cell(j)), Rc(sop, tagR, []), b, j, busy, size)
      ensures forall k :: 0 <= k < completed.Length && k != j ==> Cell(k) == old(Cell(k))
    {
      var done, wc, exc, due := completed[j], count[j], exceeded[j], difference[j];
      var first := sop && b.valid && j == b.tag;
      var short := b.last && b.dwords <= 5 && b.dwords >= due;
      completed[j] := !done && busy && b.valid && b.last
        && ((exc && j == tagR) || (sop && j == b.tag && b.dwords <= 5 && b.dwords >= due));
      if first {
        due := W11(size - wc - b.dwords);
      } else {
        due := W11(size - wc);
      }
      difference[j] := due;
      if first && busy {
        if !short { exc := W11(size - wc) <= b.dwords; }
      } else {
        exc := !done && wc >= size;
      }
      exceeded[j] := exc;
      if first {
        wc := if short || done then 0 else W11(wc + b.dwords);
      } else if done {
        wc := 0;
      }
      count[j] := wc;
    }

    /** One rising edge. */
    method Tick(b: RcIn, busy: seq<bool>, sizes: seq<nat>)
      requires Valid(|busy|) && |busy| == |sizes|
      modifies this, completed, count, difference, exceeded
      ensures Valid(|busy|) && State() == NextRc(old(State()), b, busy, sizes)
    {
      ghost var rc := State();
      var j := 0;
      while j < completed.Length
        invariant 0 <= j <= completed.Length && sop == old(sop) && tagR == old(tagR)
        invariant forall k :: j <= k < completed.Length ==> Cell(k) == rc.tags[k]
        invariant forall k :: 0 <= k < j ==> Cell(k) == NextTag(rc.tags[k], rc, b, k, busy[k], sizes[k])
      {
        TagBlock(j, b, busy[j], sizes[j]);
        j := j + 1;
      }
      if sop { tagR := b.tag; }
      if b.valid { sop := b.last; }
    }
  }
}
