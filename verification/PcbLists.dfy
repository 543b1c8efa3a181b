/** The list of free PCBs, and the sibling lists that make up the process tree. */
module PcbLists {
  import opened Pcbs
  import opened Seqs

  /* ------------------------------------------------ the free list */

  /** h is the first of the free PCBs, which are chained by their next pointers. */
  ghost predicate Chain(h: Pcb?, free: seq<Pcb>)
    reads (set p | p in free)`next
  {
    && Distinct(free)
    && h == (if free == [] then null else free[0])
    && (forall i | 0 <= i < |free| - 1 :: free[i].next == free[i + 1])
    && (free != [] ==> Last(free).next == null)
  }

  lemma ChainHead(h: Pcb?, free: seq<Pcb>)
    requires Chain(h, free)
    ensures h == null <==> free == []
    ensures free != [] ==> h == free[0] && h in free
  {
  }

  predicate IsReset(s: CpuState) {
    && s.asid == 0 && s.cause == 0 && s.status == 0 && s.pc == 0
    && |s.reg| == STATEREGNUM && forall i | 0 <= i < STATEREGNUM :: s.reg[i] == 0
  }

  method ResetState() returns (s: CpuState)
    ensures IsReset(s)
  {
    var reg := [];
    var i := 0;
    while i < STATEREGNUM
      invariant |reg| == i <= STATEREGNUM && forall k | 0 <= k < i :: reg[k] == 0
    {
      reg := reg + [0];
      i := i + 1;
    }
    s := CpuState(0, 0, 0, 0, reg);
  }

  /** A PCB that is in no queue and in no tree, and has nothing left of the process it was. */
  ghost predicate Blank(p: Pcb)
    reads p
  {
    && p.prev == null && p.parent == null && p.child == null && p.sib == null && p.semAdd == NULL_ADDR
    && IsReset(p.state) && p.time == 0 && p.traps == NO_TRAPS
  }

  method FreePcb(h: Pcb?, p: Pcb, ghost free: seq<Pcb>) returns (h': Pcb)
    requires Chain(h, free) && p !in free
    modifies p
    ensures h' == p && Chain(h', [p] + free) && Blank(p)
  {
    p.parent := null;
    p.child := null;
    p.sib := null;
    p.state := ResetState();
    p.semAdd := NULL_ADDR;
    p.time := 0;
    p.traps := NO_TRAPS;
    if h == null {
      p.prev := null;
      p.next := null;
    } else {
      p.prev := null;
      p.next := h;
    }
    h' := p;
  }

  method AllocPcb(h: Pcb?, ghost free: seq<Pcb>) returns (h': Pcb?, p: Pcb?)
    requires Chain(h, free)
    modifies Only(h)
    ensures free == [] ==> p == null && h' == null
    ensures free != [] ==> p == free[0] && Chain(h', free[1..]) && Blank(p) && p.next == null
  {
    p := h;
    if h == null {
      return null, null;
    }
    h' := h.next;
    p.next := null;
    p.prev := null;
    p.parent := null;
    p.child := null;
    p.sib := null;
    p.state := ResetState();
    p.semAdd := NULL_ADDR;
    p.time := 0;
    p.traps := NO_TRAPS;
  }

  /** All PCBs of the table, the last one first. */
  method InitPcbs(pcbs: array<Pcb>) returns (h: Pcb?)
    requires Distinct(pcbs[..])
    modifies set p | p in pcbs[..]
    ensures Chain(h, Reverse(pcbs[..])) && forall p | p in pcbs[..] :: Blank(p)
  {
    h := null;
    var i := 0;
    while i < pcbs.Length
      invariant 0 <= i <= pcbs.Length && pcbs[..] == old(pcbs[..])
      invariant Chain(h, Reverse(pcbs[..i])) && forall p | p in pcbs[..i] :: Blank(p)
    {
      ReverseSnoc(pcbs[..i], pcbs[i]);
      ReverseMembers(pcbs[..i]);
      assert pcbs[..i + 1] == pcbs[..i] + [pcbs[i]];
      h := FreePcb(h, pcbs[i], Reverse(pcbs[..i]));
      i := i + 1;
    }
    assert pcbs[..i] == pcbs[..];
  }

  /* ------------------------------------------------ the process tree */

  /** first is the first of the children cs, which are chained by their sib pointers. */
  ghost predicate Siblings(first: Pcb?, cs: seq<Pcb>)
    reads (set c | c in cs)`sib
  {
    && Distinct(cs)
    && first == (if cs == [] then null else cs[0])
    && (forall i | 0 <= i < |cs| - 1 :: cs[i].sib == cs[i + 1])
    && (cs != [] ==> Last(cs).sib == null)
  }

  /**
   p becomes the first child. Nothing clears p's own sibling pointer when it is the only child, so
   the list is right exactly when there were children before, or that pointer was null already.
   */
  method InsertChild(parent: Pcb?, p: Pcb, ghost cs: seq<Pcb>)
    requires parent != null ==> Siblings(parent.child, cs) && p !in cs && parent != p
    modifies p`parent, p`sib, Only(parent)`child
    ensures parent == null ==> unchanged(p`parent) && unchanged(p`sib)
    ensures parent != null ==>
              p.parent == parent && (Siblings(parent.child, [p] + cs) <==> cs != [] || old(p.sib) == null)
    ensures parent != null ==> parent.child == p && (cs == [] ==> p.sib == old(p.sib))
  {
    if parent != null {
      if parent.child != null {
        p.sib := parent.child;
        parent.child := p;
        p.parent := parent;
      } else {
        parent.child := p;
        p.parent := parent;
        assert cs == [];
        assert ([p] + cs)[0] == p;
      }
    }
  }

  /** The first child leaves p, if there is one. It keeps its sibling pointer. */
  method RemoveChild(p: Pcb, ghost cs: seq<Pcb>) returns (child: Pcb?)
    requires Siblings(p.child, cs)
    modifies p`child, Head(cs)`parent
    ensures cs == [] ==> child == null && Siblings(p.child, cs)
    ensures cs != [] ==> child == cs[0] && child.parent == null && Siblings(p.child, cs[1..])
    ensures cs != [] ==> child.sib == old(cs[0].sib)
  {
    if p.child == null {
      return null;
    }
    child := p.child;
    assert |cs| > 1 ==> cs[0].sib == cs[1];
    if child.sib != null {
      p.child := child.sib;
    } else {
      p.child := null;
    }
    child.parent := null;
  }

  /**
   So a process that has left its parent and joins one without children takes its younger siblings
   along: all of cs hang below parent now, all but the first of them below p as well.
   */
  method MoveFirst(p: Pcb, parent: Pcb, ghost cs: seq<Pcb>) returns (child: Pcb?)
    requires Siblings(p.child, cs) && |cs| >= 2 && parent.child == null && parent != cs[0]
    modifies p`child, parent`child, Head(cs)`parent, Head(cs)`sib
    ensures child == cs[0] && child.parent == parent && parent.child == child
    ensures !Siblings(parent.child, [child]) && Siblings(parent.child, cs) && Siblings(p.child, cs[1..])
  {
    assert cs[0].sib == cs[1];
    child := RemoveChild(p, cs);
    InsertChild(parent, child, []);
    assert [child] + [] == [child];
    assert p != parent;
  }

  /** current is the sibling before p, child number k. */
  method Bypass(current: Pcb, p: Pcb, ghost first: Pcb?, ghost cs: seq<Pcb>, ghost k: nat)
    requires Siblings(first, cs) && 0 < k < |cs| && cs[k - 1] == current && cs[k] == p
    modifies current`sib
    ensures Siblings(first, Minus(cs, {p}))
  {
    MinusAt(cs, k);
    MinusDistinct(cs, {p});
    assert p.sib == if k + 1 < |cs| then cs[k + 1] else null;
    if p.sib != null {
      current.sib := p.sib;
    } else {
      current.sib := null;
    }
  }

  /** p leaves its parent's children, wherever it is among them. */
  method OutChild(p: Pcb, ghost cs: seq<Pcb>) returns (out: Pcb?)
    requires p.parent != null ==> Siblings(p.parent.child, cs) && p in cs && p.parent !in cs
    modifies p`parent, Only(p.parent)`child, (set c | c in cs)`sib
    ensures old(p.parent) == null ==> out == null && p.parent == null && forall c | c in cs :: c.sib == old(c.sib)
    ensures old(p.parent) != null ==> out == p && p.parent == null && Siblings(old(p.parent).child, Minus(cs, {p}))
  {
    if p.parent == null {
      return null;
    }
    var parent := p.parent;
    if parent.child == p {
      assert p.sib == if 1 < |cs| then cs[1] else null;
      MinusAt(cs, 0);
      if p.sib == null {
        parent.child := null;
      } else {
        parent.child := p.sib;
      }
      p.parent := null;
      return p;
    }
    var current := parent.child;
    ghost var k :| 0 <= k < |cs| && cs[k] == p;
    ghost var i := 0;
    while current.sib != p
      invariant 0 <= i < k && current == cs[i]
      decreases k - i
    {
      current := current.sib;
      i := i + 1;
    }
    assert cs[i + 1] == cs[k];
    Bypass(current, p, parent.child, cs, k);
    p.parent := null;
    out := p;
  }
}
