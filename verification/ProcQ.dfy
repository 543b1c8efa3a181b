/**
 Process queues: circular doubly linked lists known by their tail. A queue of processes q is
 represented by the pointers of its members, and every operation on it is one on the sequence q.
 */
module ProcQ {
  import opened Pcbs
  import opened Seqs

  /** Every member points to the next one and back, the last to the first. */
  ghost predicate Linked(q: seq<Pcb>)
    requires q != []
    reads (set p | p in q)`next, (set p | p in q)`prev
  {
    && (forall i | 0 <= i < |q| - 1 :: q[i].next == q[i + 1])
    && (forall i | 0 < i < |q| :: q[i].prev == q[i - 1])
    && Last(q).next == q[0]
    && q[0].prev == Last(q)
  }

  /** tp is the tail pointer of the queue q. */
  ghost predicate Ring(tp: Pcb?, q: seq<Pcb>)
    reads (set p | p in q)`next, (set p | p in q)`prev
  {
    && Distinct(q)
    && if q == [] then tp == null else tp == Last(q) && Linked(q)
  }

  function Without(q: seq<Pcb>, p: Pcb): seq<Pcb> {
    Minus(q, {p})
  }

  /** p goes to the tail. */
  method InsertProcQ(tp: Pcb?, p: Pcb, ghost q: seq<Pcb>) returns (tp': Pcb)
    requires Ring(tp, q) && p !in q
    modifies p`next, p`prev, Elements(q)`next, Elements(q)`prev
    ensures tp' == p && Ring(tp', q + [p])
  {
    if tp == null {
      p.next := p;
      p.prev := p;
    } else {
      p.next := tp.next;
      tp.next := p;
      p.prev := tp;
      p.next.prev := p;
    }
    tp' := p;
  }

  /** The head leaves, if there is one. */
  method RemoveProcQ(tp: Pcb?, ghost q: seq<Pcb>) returns (tp': Pcb?, head: Pcb?)
    requires Ring(tp, q)
    modifies Elements(q)`next, Elements(q)`prev
    ensures q == [] ==> head == null && tp' == null
    ensures q != [] ==> head == q[0] && head.next == null && head.prev == null && Ring(tp', q[1..])
  {
    tp' := tp;
    if tp == null {
      return tp, null;
    }
    if tp.next == tp {
      head := tp;
      tp' := null;
    } else {
      head := tp.next;
      assert |q| >= 2 && head == q[0] && head.next == q[1];
      tp.next := tp.next.next;
      tp.next.prev := tp;
    }
    head.next := null;
    head.prev := null;
  }

  /** The head of the queue, which stays where it is. */
  method HeadProcQ(tp: Pcb?, ghost q: seq<Pcb>) returns (head: Pcb?)
    requires Ring(tp, q)
    ensures head == if q == [] then null else q[0]
  {
    if tp == null {
      head := null;
    } else if tp.next == tp {
      head := tp;
    } else {
      head := tp.next;
    }
  }

  lemma WithoutAt(q: seq<Pcb>, i: nat)
    requires Distinct(q) && i < |q|
    ensures Without(q, q[i]) == q[..i] + q[i + 1..] && Distinct(Without(q, q[i]))
  {
    MinusAt(q, i);
    MinusDistinct(q, {q[i]});
  }

  /** The queue closes over p, its member number i. */
  method Relink(p: Pcb, ghost q: seq<Pcb>, ghost i: nat)
    requires |q| >= 2 && i < |q| && q[i] == p && Distinct(q) && Linked(q)
    modifies Elements(q)`next, Elements(q)`prev
    ensures p.next == null && p.prev == null && Linked(q[..i] + q[i + 1..])
  {
    ghost var after, before := if i + 1 < |q| then q[i + 1] else q[0], if i > 0 then q[i - 1] else q[|q| - 1];
    assert p.next == after && p.prev == before;
    p.next.prev := p.prev;
    p.prev.next := p.next;
    p.next := null;
    p.prev := null;
  }

  /** p, member number i of q, leaves; tp is the tail of what remains. */
  method Unlink(tp: Pcb, p: Pcb, ghost q: seq<Pcb>, ghost i: nat)
    requires |q| >= 2 && i < |q| && q[i] == p && Distinct(q) && Linked(q)
    requires tp == if i == |q| - 1 then q[i - 1] else Last(q)
    modifies Elements(q)`next, Elements(q)`prev
    ensures p.next == null && p.prev == null && Ring(tp, Without(q, p))
  {
    Relink(p, q, i);
    WithoutAt(q, i);
  }

  /**
   p leaves, wherever it is: that is the intent, and what happens if the search starts at the head.
   The code starts it at the tail, where it also ends, and so finds no one but the tail.
   */
  method OutProcQ(tp: Pcb?, p: Pcb?, scan: Scan, ghost q: seq<Pcb>) returns (tp': Pcb?, out: Pcb?)
    requires Ring(tp, q)
    modifies Elements(q)`next, Elements(q)`prev
    ensures p != null && Finds(scan, q, p) ==>
              out == p && p.next == null && p.prev == null && Ring(tp', Without(q, p))
    ensures !(p != null && Finds(scan, q, p)) ==>
              out == null && tp' == tp && Ring(tp, q)
              && forall x | x in q :: x.next == old(x.next) && x.prev == old(x.prev)
  {
    if tp == null || p == null {
      return tp, null;
    }
    if tp == p && tp == tp.next {
      assert |q| == 1;
      p.next := null;
      p.prev := null;
      WithoutAt(q, 0);
      return null, p;
    }
    if tp == p && tp != tp.next {
      assert |q| >= 2 && tp.prev == q[|q| - 2];
      tp' := tp.prev;
      Unlink(tp', p, q, |q| - 1);
      return tp', p;
    }
    var current := if scan.FromHead? then tp.next else tp;
    ghost var i := if scan.FromHead? then 0 else |q| - 1;
    while current != null
      invariant 0 <= i < |q| && current == q[i]
      invariant if scan.FromTail? then i == |q| - 1 else p !in q[..i]
      invariant forall x | x in q :: x.next == old(x.next) && x.prev == old(x.prev)
      decreases |q| - i
    {
      if current == p {
        Unlink(tp, p, q, i);
        return tp, p;
      }
      if current == tp {
        return tp, null;
      }
      current := current.next;
      i := i + 1;
    }
    tp', out := tp, null;
  }
}
