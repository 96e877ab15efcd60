/** The ring of pages behind mmap in nfpioctl.c. A mapping takes consecutive ring slots at the end,
    a close gives back slots at the beginning; one slot always stays free. */
module PageRing {
  const MAX_PAGES := 1024

  /** The slot n places further round the ring. */
  function Ahead(slot: nat, n: nat): (r: nat)
    ensures r < MAX_PAGES
  {
    (slot + n) % MAX_PAGES
  }

  /** A live mapping: the first ring slot and the number of pages. */
  datatype Region = Region(start: nat, pages: nat)

  /** Slot k of the ring belongs to the region. */
  predicate Holds(g: Region, k: nat) { exists n :: 0 <= n < g.pages && k == Ahead(g.start, n) }

  function Pages(gs: seq<Region>): nat { if gs == [] then 0 else Pages(gs[..|gs| - 1]) + gs[|gs| - 1].pages }

  /** Live regions follow each other around the ring. */
  predicate Chained(gs: seq<Region>, first: nat) {
    forall k :: 0 <= k < |gs| ==> gs[k].pages > 0 && gs[k].start == Ahead(first, Pages(gs[..k]))
  }

  lemma AheadTwice(slot: nat, m: nat, n: nat)
    ensures Ahead(Ahead(slot, m), n) == Ahead(slot, m + n)
  {
  }

  /** Fewer steps than a whole turn lead to different slots. */
  lemma AheadInjective(slot: nat, m: nat, n: nat)
    requires m < MAX_PAGES && n < MAX_PAGES && Ahead(slot, m) == Ahead(slot, n)
    ensures m == n
  {
  }

  lemma {:induction false} PagesMono(gs: seq<Region>, i: nat, j: nat)
    requires i <= j <= |gs|
    ensures Pages(gs[..i]) <= Pages(gs[..j]) && (i < j ==> Pages(gs[..i]) + gs[i].pages <= Pages(gs[..j]))
  {
    if i < j {
      PagesMono(gs, i, j - 1);
      assert gs[..j][..j - 1] == gs[..j - 1];
    }
  }

  lemma {:induction false} PagesTail(gs: seq<Region>)
    requires gs != []
    ensures Pages(gs) == gs[0].pages + Pages(gs[1..])
  {
    if |gs| > 1 {
      PagesTail(gs[..|gs| - 1]);
      assert gs[..|gs| - 1][1..] == gs[1..][..|gs| - 2];
    } else {
      assert gs[..0] == [] && gs[1..] == [];
    }
  }

  /** Two live regions never share a slot, because together they hold fewer pages than the ring. */
  lemma Disjoint(gs: seq<Region>, first: nat, i: nat, j: nat, k: nat)
    requires Chained(gs, first) && Pages(gs) < MAX_PAGES && i < j < |gs| && Holds(gs[i], k)
    ensures !Holds(gs[j], k)
  {
    hide Ahead, Pages;
    PagesMono(gs, i, j);
    PagesMono(gs, j, |gs|);
    assert gs[..|gs|] == gs;
    if Holds(gs[j], k) {
      var m :| 0 <= m < gs[i].pages && k == Ahead(gs[i].start, m);
      var n :| 0 <= n < gs[j].pages && k == Ahead(gs[j].start, n);
      AheadTwice(first, Pages(gs[..i]), m);
      AheadTwice(first, Pages(gs[..j]), n);
      AheadInjective(first, Pages(gs[..i]) + m, Pages(gs[..j]) + n);
    }
  }

  /** The probe of step i meets `first` iff all slots but one would be used. */
  lemma Probe(first: nat, used: nat, i: nat)
    requires first < MAX_PAGES && used + i < MAX_PAGES
    ensures Ahead(Ahead(first, used), i + 1) == first <==> used + i + 1 == MAX_PAGES
  {
  }

  lemma Append(gs: seq<Region>, first: nat, g: Region)
    requires Chained(gs, first) && g.pages > 0 && g.start == Ahead(first, Pages(gs))
    ensures Chained(gs + [g], first) && Pages(gs + [g]) == Pages(gs) + g.pages
  {
    hide Ahead;
    var hs := gs + [g];
    assert hs[..|gs|] == gs;
    forall k | 0 <= k < |hs| ensures hs[k].pages > 0 && hs[k].start == Ahead(first, Pages(hs[..k])) {
      if k < |gs| { assert hs[..k] == gs[..k] && hs[k] == gs[k]; }
    }
  }

  lemma Release(gs: seq<Region>, first: nat)
    requires Chained(gs, first) && gs != []
    ensures Chained(gs[1..], Ahead(first, gs[0].pages)) && Pages(gs) == gs[0].pages + Pages(gs[1..])
    ensures Ahead(Ahead(first, gs[0].pages), Pages(gs[1..])) == Ahead(first, Pages(gs))
  {
    hide Ahead, Pages;
    var hs := gs[1..];
    PagesTail(gs);
    AheadTwice(first, gs[0].pages, Pages(hs));
    forall k | 0 <= k < |hs| ensures hs[k].pages > 0
      && hs[k].start == Ahead(Ahead(first, gs[0].pages), Pages(hs[..k])) {
      PagesTail(gs[..k + 1]);
      assert gs[..k + 1][1..] == hs[..k] && gs[..k + 1][0] == gs[0];
      assert hs[k] == gs[k + 1];
      AheadTwice(first, gs[0].pages, Pages(hs[..k]));
    }
  }

  /** The driver's bookkeeping. */
  class Ring {
    var first: nat
    var last: nat
    var active: bool
    ghost var live: seq<Region>

    ghost predicate Valid()
      reads this
    {
      && first < MAX_PAGES && last == Ahead(first, Pages(live)) && Pages(live) < MAX_PAGES
      && Chained(live, first) && (live != [] ==> active)
    }

    constructor ()
      ensures Valid() && live == [] && !active && last == 0
    {
      first, last, active, live := 0, 0, false, [];
    }

    /** Map n pages, if the remapping behind it succeeds: accepted iff one slot stays free. The
        pages handed out start at page `last` of the buffer. */
    method Map(n: nat, remaps: bool) returns (ok: bool, base: nat)
      requires Valid() && n > 0
      modifies this
      ensures Valid() && first == old(first) && base == old(last)
      ensures ok <==> n <= MAX_PAGES - 1 - Pages(old(live)) && remaps
      ensures live == (if ok then old(live) + [Region(base, n)] else old(live))
      ensures last == (if ok then Ahead(old(last), n) else old(last)) && active == (ok || old(active))
    {
      hide Ahead, Chained;
      base := last;
      ghost var used := Pages(live);
      var i := 0;
      while i < n
        invariant 0 <= i <= n && used + i < MAX_PAGES
        modifies {}
      {
        Probe(first, used, i);
        if Ahead(last, i + 1) == first {
          return false, base;
        }
        i := i + 1;
      }
      if !remaps { return false, base; }
      Append(live, first, Region(last, n));
      AheadTwice(first, used, n);
      live := live + [Region(last, n)];
      last := Ahead(last, n);
      active := true;
      ok := true;
    }

    /** Close live mapping q, whichever it is. The code always moves the beginning of the ring by the
        pages of the mapping that is closed, so its bookkeeping stays right iff that is the oldest
        one. When nothing is mapped the flag is cleared; the close of the last mapping leaves it set. */
    method Close(q: nat, n: nat)
      requires Valid() && (live != [] ==> q < |live| && live[q].pages == n)
      modifies this
      ensures last == old(last) && (Valid() <==> old(live) == [] || q == 0)
      ensures old(live) == [] ==> live == [] && !active && first == old(first)
      ensures old(live) != [] ==> live == old(live)[..q] + old(live)[q + 1..] && active && first == Ahead(old(first), n)
      ensures old(live) != [] ==> Pages(live) + n == Pages(old(live))
    {
      hide Ahead, Chained, Pages;
      if live == [] {
        NoPages();
        Still(first);
      } else {
        PagesWithout(live, q);
        Moved(live, first);
        ClosesRight(live, first, q);
      }
      if first == last {
        active := false;
      } else {
        first := Ahead(first, n);
        live := live[..q] + live[q + 1..];
      }
    }
  }

  lemma NoPages()
    ensures Pages([]) == 0
  {
  }

  lemma {:induction false} PagesJoin(a: seq<Region>, b: seq<Region>)
    ensures Pages(a + b) == Pages(a) + Pages(b)
  {
    if b == [] {
      assert a + b == a;
    } else {
      PagesJoin(a, b[..|b| - 1]);
      assert (a + b)[..|a + b| - 1] == a + b[..|b| - 1];
    }
  }

  lemma PagesWithout(gs: seq<Region>, q: nat)
    requires q < |gs|
    ensures Pages(gs[..q] + gs[q + 1..]) + gs[q].pages == Pages(gs)
  {
    hide Pages;
    PagesJoin(gs[..q], gs[q + 1..]);
    PagesJoin(gs[..q], gs[q..]);
    PagesTail(gs[q..]);
    assert gs[q..][1..] == gs[q + 1..] && gs[..q] + gs[q..] == gs;
  }

  /** The remaining regions are chained from the new beginning iff the oldest one was closed. */
  lemma ClosesRight(gs: seq<Region>, first: nat, q: nat)
    requires q < |gs| && Chained(gs, first) && first < MAX_PAGES && Pages(gs) < MAX_PAGES
    ensures var hs, f := gs[..q] + gs[q + 1..], Ahead(first, gs[q].pages);
      && (Chained(hs, f) <==> q == 0)
      && (q == 0 ==> Ahead(f, Pages(hs)) == Ahead(first, Pages(gs)))
  {
    hide Ahead, Pages;
    var hs := gs[..q] + gs[q + 1..];
    if q == 0 {
      assert hs == gs[1..];
      Release(gs, first);
    } else {
      NoPages();
      PagesMono(gs, q, |gs|);
      assert gs[..|gs|] == gs && gs[..0] == [] && hs[..0] == [] && hs[0] == gs[0];
      Still(first);
      if Ahead(first, gs[q].pages) == first { AheadInjective(first, 0, gs[q].pages); }
      AheadTwice(first, gs[q].pages, 0);
    }
  }

  lemma Still(first: nat)
    requires first < MAX_PAGES
    ensures Ahead(first, 0) == first
  {
  }

  lemma Moved(gs: seq<Region>, first: nat)
    requires gs != [] && Chained(gs, first) && first < MAX_PAGES && Pages(gs) < MAX_PAGES
    ensures Ahead(first, Pages(gs)) != first
  {
    PagesTail(gs);
    Still(first);
    if Ahead(first, Pages(gs)) == first { AheadInjective(first, 0, Pages(gs)); }
  }

  /** Page p of the buffer is one of the ring slots of the region. */
  predicate Owned(g: Region, p: nat) { p < MAX_PAGES && Holds(g, p) }

  /** The mapping is one contiguous range; all its pages are slots of its own iff the range ends
      within the buffer. */
  lemma ContiguousIff(g: Region)
    requires g.start < MAX_PAGES && 0 < g.pages < MAX_PAGES
    ensures (forall p :: g.start <= p < g.start + g.pages ==> Owned(g, p)) <==> g.start + g.pages <= MAX_PAGES
  {
    if g.start + g.pages <= MAX_PAGES {
      forall p | g.start <= p < g.start + g.pages ensures Owned(g, p) {
        assert p == Ahead(g.start, p - g.start);
      }
    } else {
      assert !Owned(g, MAX_PAGES);
    }
  }

  /** Two maps and a close lead past the end of the buffer. */
  method Overrun() returns (g: Region)
    ensures g.start + g.pages > MAX_PAGES && 0 < g.pages < MAX_PAGES && g.start < MAX_PAGES
  {
    var r := new Ring();
    var ok, base := r.Map(600, true);
    assert r.live == [Region(base, 600)] && Pages(r.live[..0]) == 0;
    r.Close(0, 600);
    ok, base := r.Map(600, true);
    g := Region(base, 600);
  }
}
