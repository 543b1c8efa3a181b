/**
 The frame table and the page tables as the pager changes them: an entry of the frame table points
 into the page table of the process whose page it holds, and is how the pager gets at it.
 */
module VmTables {
  import opened Paging
  import opened Seqs

  /** A page table entry: pte_entryLo, of which the valid bit and the frame matter. */
  class Entry {
    var lo: Pte

    constructor ()
      ensures lo == Invalid
    {
      lo := Invalid;
    }
  }

  /** asid is -1 for an empty frame. */
  class Swap {
    var asid: int
    var pageNo: nat
    var pteEntry: Entry?

    constructor ()
      ensures asid == -1 && pageNo == 0 && pteEntry == null
    {
      asid, pageNo, pteEntry := -1, 0, null;
    }
  }

  class Vm {
    const pages: nat
    const swapPool: seq<Swap>
    const uProcs: seq<seq<Entry>>
    var frameNo: int
    var tlb: map<Vpn, nat>

    /** The entry for page p of process a. */
    ghost predicate IsEntry(e: Entry?, a: int, p: nat) {
      1 <= a <= |uProcs| && p < |uProcs[a - 1]| && e == uProcs[a - 1][p]
    }

    ghost function Entries(): set<Entry> {
      set a, p | 0 <= a < |uProcs| && 0 <= p < |uProcs[a]| :: uProcs[a][p]
    }

    /** The objects are all different, and each table has its size. */
    ghost predicate Shaped() {
      && pages > 0
      && Distinct(swapPool)
      && (forall a | 0 <= a < |uProcs| :: |uProcs[a]| == pages)
      && (forall a, p, b, q | 0 <= a < |uProcs| && 0 <= p < pages && 0 <= b < |uProcs| && 0 <= q < pages
                              && uProcs[a][p] == uProcs[b][q] :: a == b && p == q)
    }

    ghost function SlotAt(f: nat): Slot
      reads swapPool
    {
      if f >= |swapPool| || swapPool[f].asid < 0 then Empty
      else Held(swapPool[f].asid, swapPool[f].pageNo, Index(swapPool[f].pageNo))
    }

    ghost function Index(page: nat): nat {
      if pages > 0 then Clamp(pages, page) else 0
    }

    /** The entry for page p of a; a page that no table has is not valid. */
    ghost function EntryAt(a: nat, p: nat): Pte
      requires Shaped()
      reads Entries()
    {
      if 1 <= a <= |uProcs| && p < pages then uProcs[a - 1][p].lo else Invalid
    }

    /** Every occupied frame points to the entry of the page that it holds. */
    ghost predicate Pointed()
      reads swapPool
    {
      && Shaped()
      && forall f | 0 <= f < |swapPool| && swapPool[f].asid != -1 ::
           IsEntry(swapPool[f].pteEntry, swapPool[f].asid, Index(swapPool[f].pageNo))
    }

    /** The objects say what t says. */
    ghost predicate Models(t: Tables)
      reads this, swapPool, Entries()
    {
      && Pointed()
      && t.frameNo == frameNo && t.tlb == tlb
      && (forall f: nat :: SlotOf(t.slots, f) == SlotAt(f))
      && (forall a: nat, p: nat :: PteOf(t.pte, a, p) == EntryAt(a, p))
    }

    /** The cache of translations becomes m. */
    method Cache(m: map<Vpn, nat>, ghost t: Tables)
      requires Models(t)
      modifies this`tlb
      ensures Models(t.(tlb := m))
    {
      tlb := m;
    }

    /** getFrame: the frames in turn. */
    method GetFrame(ghost t: Tables) returns (f: nat)
      requires Models(t) && 0 <= frameNo < |swapPool|
      modifies this`frameNo
      ensures f == NextFrame(|swapPool|, t.frameNo) && f < |swapPool| && Models(t.(frameNo := f))
    {
      frameNo := frameNo + 1;
      if frameNo == |swapPool| {
        frameNo := 0;
      }
      f := frameNo;
    }

    /** The pager, interrupts off: the page in frame f becomes invalid, through the frame's pointer. */
    method Oust(f: nat, ghost t: Tables) returns (victim: int, page: nat)
      requires Models(t) && f < |swapPool| && swapPool[f].asid != -1
      modifies this`tlb, Entries()
      ensures Models(Ousted(t, f))
      ensures victim == SlotOf(t.slots, f).asid && page == Clamp(pages, SlotOf(t.slots, f).page)
    {
      var slot := swapPool[f];
      slot.pteEntry.lo := Invalid;
      page := slot.pageNo;
      victim := slot.asid;
      if page >= pages {
        page := pages - 1;
      }
      tlb := map[];
      forall a: nat, p: nat ensures PteOf(Ousted(t, f).pte, a, p) == EntryAt(a, p) {
        assert PteOf(t.pte, a, p) == old(EntryAt(a, p));
        assert IsEntry(slot.pteEntry, a, p) <==> a == slot.asid && p == page;
      }
    }

    /** The pager, interrupts off: frame f holds page of a, which becomes valid. */
    method BringIn(a: nat, page: nat, f: nat, ghost t: Tables)
      requires Models(t) && f < |swapPool| && 1 <= a <= |uProcs|
      modifies this`tlb, swapPool[f], Entries()
      ensures Models(BroughtIn(t, pages, a, page, f))
    {
      var vPageNo := page;
      if page >= pages {
        vPageNo := pages - 1;
      }
      var slot := swapPool[f];
      slot.asid := a;
      slot.pageNo := page;
      slot.pteEntry := uProcs[a - 1][vPageNo];
      slot.pteEntry.lo := Valid(f);
      tlb := map[];
      OtherFrames(f);
      ghost var u := BroughtIn(t, pages, a, page, f);
      forall b: nat, p: nat ensures PteOf(u.pte, b, p) == EntryAt(b, p) {
        assert PteOf(t.pte, b, p) == old(EntryAt(b, p));
        assert IsEntry(slot.pteEntry, b, p) <==> b == a && p == vPageNo;
      }
      forall g: nat ensures SlotOf(u.slots, g) == SlotAt(g) {
        assert SlotOf(t.slots, g) == old(SlotAt(g));
      }
    }

    lemma OtherFrames(f: nat)
      requires Distinct(swapPool) && f < |swapPool|
      ensures forall g | 0 <= g < |swapPool| && g != f :: swapPool[g] != swapPool[f]
    {
    }

    /** The first i frames looked at, and those of a released. */
    static ghost function ReleasedTo(t: Tables, a: nat, i: nat): Tables {
      if i == 0 then t else Released(ReleasedTo(t, a, i - 1), a, i - 1)
    }

    /** terminateUserProc, between its P and its V: every frame of a is released. */
    method Release(a: nat, ghost t: Tables)
      requires Models(t) && a >= 1
      modifies this`tlb, swapPool
      ensures Models(ReleasedTo(t, a, |swapPool|).(tlb := map[]))
    {
      var i := 0;
      while i < |swapPool|
        invariant 0 <= i <= |swapPool| && Models(ReleasedTo(t, a, i))
        modifies swapPool
      {
        ReleaseOne(a, i, ReleasedTo(t, a, i));
        i := i + 1;
      }
      tlb := map[];
    }

    /** One round of its loop. */
    method ReleaseOne(a: nat, i: nat, ghost t: Tables)
      requires Models(t) && a >= 1 && i < |swapPool|
      modifies swapPool[i]
      ensures Models(Released(t, a, i))
    {
      if swapPool[i].asid == a {
        swapPool[i].asid := -1;
        swapPool[i].pageNo := 0;
        swapPool[i].pteEntry := null;
      }
      OtherFrames(i);
      forall g: nat ensures SlotOf(Released(t, a, i).slots, g) == SlotAt(g) {
        assert SlotOf(t.slots, g) == old(SlotAt(g));
      }
    }

    /** What becomes of a process's frames: nothing of a is left, and nobody else loses anything. */
    static lemma {:induction false} ReleasedExactly(t: Tables, a: nat, i: nat, f: nat)
      ensures SlotOf(ReleasedTo(t, a, i).slots, f)
           == if f < i && SlotOf(t.slots, f).Held? && SlotOf(t.slots, f).asid == a then Empty else SlotOf(t.slots, f)
      ensures ReleasedTo(t, a, i).pte == t.pte && ReleasedTo(t, a, i).frameNo == t.frameNo
    {
      if i > 0 {
        ReleasedExactly(t, a, i - 1, f);
        ReleasedExactly(t, a, i - 1, i - 1);
      }
    }

    /** test: all frames empty, all pages invalid, and getFrame to start with frame 0. */
    constructor (swapPool: seq<Swap>, uProcs: seq<seq<Entry>>, pages: nat)
      requires pages > 0 && Distinct(swapPool)
      requires forall a | 0 <= a < |uProcs| :: |uProcs[a]| == pages
      requires forall a, p, b, q | 0 <= a < |uProcs| && 0 <= p < pages && 0 <= b < |uProcs| && 0 <= q < pages
                                   && uProcs[a][p] == uProcs[b][q] :: a == b && p == q
      modifies swapPool, set a, p | 0 <= a < |uProcs| && 0 <= p < |uProcs[a]| :: uProcs[a][p]
      ensures this.swapPool == swapPool && this.uProcs == uProcs && this.pages == pages
      ensures Models(Tables(map[], map[], map[], |swapPool| - 1))
    {
      this.swapPool, this.uProcs, this.pages := swapPool, uProcs, pages;
      frameNo, tlb := |swapPool| - 1, map[];
      new;
      EmptyPool();
      InvalidateAll();
    }

    method EmptyPool()
      requires Distinct(swapPool)
      modifies swapPool
      ensures forall f | 0 <= f < |swapPool| :: swapPool[f].asid == -1
    {
      var i := 0;
      while i < |swapPool|
        invariant i <= |swapPool| && forall f | 0 <= f < i :: swapPool[f].asid == -1
        modifies swapPool
      {
        swapPool[i].asid := -1;
        swapPool[i].pageNo := 0;
        swapPool[i].pteEntry := null;
        i := i + 1;
      }
    }

    method InvalidateAll()
      requires forall a | 0 <= a < |uProcs| :: |uProcs[a]| == pages
      modifies Entries()
      ensures forall a, p | 0 <= a < |uProcs| && 0 <= p < pages :: uProcs[a][p].lo == Invalid
    {
      var i := 0;
      while i < |uProcs|
        invariant i <= |uProcs| && forall a, p | 0 <= a < i && 0 <= p < pages :: uProcs[a][p].lo == Invalid
        modifies Entries()
      {
        var j := 0;
        while j < pages
          invariant j <= pages && forall p | 0 <= p < j :: uProcs[i][p].lo == Invalid
          invariant forall a, p | 0 <= a < i && 0 <= p < pages :: uProcs[a][p].lo == Invalid
          modifies Entries()
        {
          uProcs[i][j].lo := Invalid;
          j := j + 1;
        }
        i := i + 1;
      }
    }
  }
}
