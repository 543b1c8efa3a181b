/**
 The active semaphore list: descriptors sorted by semaphore address between two sentinels, each
 with the queue of processes blocked on its semaphore, and a pool of idle descriptors. The list
 represents a map from addresses to non-empty queues.
 */
module ActiveSemaphoreList {
  import opened Pcbs
  import opened Seqs
  import opened ProcQ
  import opened PcbLists

  class Semd {
    var next: Semd?
    var semAdd: Addr
    var procQ: Pcb?

    constructor ()
      ensures next == null && semAdd == NULL_ADDR && procQ == null
    {
      next, semAdd, procQ := null, NULL_ADDR, null;
    }
  }

  /* ------------------------------------------------ lists of descriptors, and their keys */

  ghost predicate SemdChain(h: Semd?, q: seq<Semd>)
    reads (set d | d in q)`next
  {
    && h == (if q == [] then null else q[0])
    && (forall i | 0 <= i < |q| - 1 :: q[i].next == q[i + 1])
    && (q != [] ==> Last(q).next == null)
  }

  ghost predicate Names(active: seq<Semd>, keys: seq<Addr>, tails: map<Addr, Pcb?>)
    reads Elements(active)`semAdd, Elements(active)`procQ
  {
    && |keys| == |active|
    && (forall i | 0 <= i < |active| :: active[i].semAdd == keys[i])
    && (forall i | 1 <= i < |active| :: active[i].procQ == Tail(tails, keys[i]))
  }

  lemma InsertNames(active: seq<Semd>, keys: seq<Addr>, tails: map<Addr, Pcb?>, s: Semd, i: nat)
    requires Names(active, keys, tails) && i < |active| && s.procQ == Tail(tails, s.semAdd)
    ensures Names(Insert(active, i, s), Insert(keys, i, s.semAdd), tails)
  {
    var n, m := Insert(active, i, s), Insert(keys, i, s.semAdd);
    forall j | 0 <= j < |n|
      ensures n[j].semAdd == m[j] && (j > 0 ==> n[j].procQ == Tail(tails, m[j]))
    {
      if j <= i {
        assert n[j] == active[j] && m[j] == keys[j];
      } else if j > i + 1 {
        assert n[j] == active[j - 1] && m[j] == keys[j - 1];
      }
    }
  }

  lemma RemoveNames(active: seq<Semd>, keys: seq<Addr>, tails: map<Addr, Pcb?>, i: nat)
    requires Names(active, keys, tails) && i + 1 < |active|
    ensures Names(Remove(active, i), Remove(keys, i), tails)
  {
    var n, m := Remove(active, i), Remove(keys, i);
    forall j | 0 <= j < |n| ensures n[j].semAdd == m[j] && (j > 0 ==> n[j].procQ == Tail(tails, m[j])) {
      var k := if j <= i then j else j + 1;
      assert n[j] == active[k] && m[j] == keys[k];
    }
  }

  /** The addresses of the active descriptors, sentinels included. */
  ghost predicate Sorted(keys: seq<Addr>) {
    && |keys| >= 2
    && Last(keys) == NULL_ADDR
    && forall i, j | 1 <= i < j < |keys| :: keys[i] < keys[j]
  }

  ghost function Inner(keys: seq<Addr>): seq<Addr>
    requires |keys| >= 2
  {
    keys[1..|keys| - 1]
  }

  /** Where the descriptor of a is, or would be: right behind number i. */
  ghost predicate Before(keys: seq<Addr>, a: Addr, i: nat) {
    i + 1 < |keys| && keys[i + 1] >= a && forall j | 1 <= j <= i :: keys[j] < a
  }

  lemma BeforeFinds(keys: seq<Addr>, a: Addr, i: nat)
    requires Sorted(keys) && Before(keys, a, i) && a != NULL_ADDR
    ensures a in Inner(keys) <==> keys[i + 1] == a
    ensures keys[i + 1] == a ==> i + 2 < |keys|
  {
    if a in Inner(keys) {
      var k :| 0 <= k < |Inner(keys)| && Inner(keys)[k] == a;
      assert keys[k + 1] == a;
    }
    if keys[i + 1] == a {
      assert Inner(keys)[i] == a;
    }
  }

  lemma SentinelsFree(keys: seq<Addr>)
    requires Sorted(keys)
    ensures NULL_ADDR !in Inner(keys)
  {
  }

  /** There is one such place only. */
  lemma BeforeUnique(keys: seq<Addr>, a: Addr, i: nat, j: nat)
    requires Before(keys, a, i) && Before(keys, a, j)
    ensures i == j
  {
  }

  function Insert<T>(q: seq<T>, i: nat, x: T): (r: seq<T>)
    requires i < |q|
    ensures |r| == |q| + 1
    ensures forall k | 0 <= k < |r| :: r[k] == if k <= i then q[k] else if k == i + 1 then x else q[k - 1]
  {
    q[..i + 1] + [x] + q[i + 1..]
  }

  lemma InsertDistinct<T>(q: seq<T>, i: nat, x: T)
    requires i < |q| && Distinct(q) && x !in q
    ensures Distinct(Insert(q, i, x))
    ensures forall y | y in Insert(q, i, x) :: y in q || y == x
    ensures forall y | y in q :: y in Insert(q, i, x)
  {
    var n := Insert(q, i, x);
    forall k | 0 <= k < |q| ensures q[k] in n {
      assert n[if k <= i then k else k + 1] == q[k];
    }
  }

  /** q without number i + 1. */
  function Remove<T>(q: seq<T>, i: nat): (r: seq<T>)
    requires i + 1 < |q|
    ensures |r| == |q| - 1
    ensures forall k | 0 <= k < |r| :: r[k] == if k <= i then q[k] else q[k + 1]
  {
    q[..i + 1] + q[i + 2..]
  }

  lemma RemoveDistinct<T>(q: seq<T>, i: nat)
    requires i + 1 < |q| && Distinct(q)
    ensures Distinct(Remove(q, i)) && q[i + 1] !in Remove(q, i)
    ensures forall y | y in Remove(q, i) :: y in q
    ensures forall y | y in q && y != q[i + 1] :: y in Remove(q, i)
  {
    var n := Remove(q, i);
    forall k | 0 <= k < |q| && k != i + 1 ensures q[k] in n {
      assert n[if k <= i then k else k - 1] == q[k];
    }
  }

  lemma RestDistinct<T>(q: seq<T>)
    requires q != [] && Distinct(q)
    ensures Distinct(q[1..]) && q[0] !in q[1..]
  {
  }

  lemma InsertSorted(keys: seq<Addr>, a: Addr, i: nat)
    requires Sorted(keys) && Before(keys, a, i) && keys[i + 1] != a
    ensures Sorted(Insert(keys, i, a))
    ensures Inner(Insert(keys, i, a)) == Inner(keys)[..i] + [a] + Inner(keys)[i..]
    ensures Elements(Inner(Insert(keys, i, a))) == Elements(Inner(keys)) + {a}
  {
    var n, m := Insert(keys, i, a), Inner(keys);
    assert forall k, l | 1 <= k < l < |n| :: n[k] < n[l];
    assert |m| == |keys| - 2 && i <= |m|;
    assert Inner(n) == m[..i] + [a] + m[i..] by {
      assert forall k | 0 <= k < |m| :: m[k] == keys[k + 1];
    }
    assert m == m[..i] + m[i..];
    hide Sorted, Insert, Before, Inner;
  }

  lemma RemoveSorted(keys: seq<Addr>, i: nat)
    requires Sorted(keys) && i + 2 < |keys|
    ensures Sorted(Remove(keys, i)) && Elements(Inner(Remove(keys, i))) == Elements(Inner(keys)) - {keys[i + 1]}
  {
    var n := Remove(keys, i);
    forall k | 1 <= k < |n| - 1 ensures n[k] in Inner(keys) && n[k] != keys[i + 1] {
      assert n[k] == Inner(keys)[if k <= i then k - 1 else k];
    }
    forall k | 1 <= k < |keys| - 1 && k != i + 1 ensures keys[k] in Inner(n) {
      assert keys[k] == Inner(n)[if k <= i then k - 1 else k - 2];
    }
  }

  /* ------------------------------------------------ the queues of all semaphores */

  ghost function Members(queues: map<Addr, seq<Pcb>>): set<Pcb> {
    set a, p | a in queues && p in queues[a] :: p
  }

  /** q, not empty, hangs off tp, and its members know that they wait for a. */
  ghost predicate Hangs(tp: Pcb?, q: seq<Pcb>, a: Addr)
    reads Elements(q)`next, Elements(q)`prev, Elements(q)`semAdd
  {
    q != [] && Ring(tp, q) && forall p | p in q :: p.semAdd == a
  }

  ghost predicate Queues(tails: map<Addr, Pcb?>, queues: map<Addr, seq<Pcb>>)
    reads Members(queues)`next, Members(queues)`prev, Members(queues)`semAdd
  {
    && tails.Keys == queues.Keys
    && (forall a | a in queues :: Hangs(tails[a], queues[a], a))
  }

  ghost predicate AllBut(tails: map<Addr, Pcb?>, queues: map<Addr, seq<Pcb>>, a: Addr)
    reads Members(queues)`next, Members(queues)`prev, Members(queues)`semAdd
  {
    && tails.Keys == queues.Keys
    && (forall b | b in queues && b != a :: Hangs(tails[b], queues[b], b))
  }

  ghost function Queue(queues: map<Addr, seq<Pcb>>, a: Addr): seq<Pcb> {
    if a in queues then queues[a] else []
  }

  /** After is before, with p at the tail of the queue of a. */
  ghost predicate Grown(before: map<Addr, seq<Pcb>>, after: map<Addr, seq<Pcb>>, a: Addr, p: Pcb) {
    after == before[a := Queue(before, a) + [p]]
  }

  function SetTail(tails: map<Addr, Pcb?>, a: Addr, tp: Pcb?): map<Addr, Pcb?> {
    if tp == null then tails - {a} else tails[a := tp]
  }

  function SetQueue(queues: map<Addr, seq<Pcb>>, a: Addr, q: seq<Pcb>): map<Addr, seq<Pcb>> {
    if q == [] then queues - {a} else queues[a := q]
  }

  /** The inner addresses are those of the queues. */
  ghost predicate Covers(keys: seq<Addr>, tails: map<Addr, Pcb?>, queues: map<Addr, seq<Pcb>>) {
    && |keys| >= 2
    && |keys| == |queues| + 2
    && queues.Keys == tails.Keys == Elements(Inner(keys))
  }

  /** What becomes of the addresses when what is left of the queue of a is q, with tail tp. */
  lemma CoversSettled(keys: seq<Addr>, tails: map<Addr, Pcb?>, queues: map<Addr, seq<Pcb>>, a: Addr,
                      tp: Pcb?, q: seq<Pcb>, i: nat)
    requires Sorted(keys) && Covers(keys, tails, queues) && i + 2 < |keys| && keys[i + 1] == a
    requires a in queues && (tp == null <==> q == [])
    ensures Covers(if tp == null then Remove(keys, i) else keys, SetTail(tails, a, tp), SetQueue(queues, a, q))
    ensures tp == null ==> a !in SetTail(tails, a, tp)
    ensures NULL_ADDR !in SetQueue(queues, a, q)
  {
    SetQueueKeys(tails, queues, a, tp, q);
    RemoveSorted(keys, i);
    SentinelsFree(keys);
  }

  lemma CoversGrown(keys: seq<Addr>, tails: map<Addr, Pcb?>, queues: map<Addr, seq<Pcb>>, a: Addr,
                    ts: map<Addr, Pcb?>, qs: map<Addr, seq<Pcb>>, p: Pcb, i: nat)
    requires Sorted(keys) && Covers(keys, tails, queues) && Before(keys, a, i) && keys[i + 1] != a
    requires a !in queues && ts.Keys == tails.Keys + {a} && Grown(queues, qs, a, p)
    ensures Covers(Insert(keys, i, a), ts, qs)
  {
    InsertSorted(keys, a, i);
  }

  lemma SetQueueKeys(tails: map<Addr, Pcb?>, queues: map<Addr, seq<Pcb>>, a: Addr, tp: Pcb?, q: seq<Pcb>)
    requires a in queues && tails.Keys == queues.Keys && (tp == null <==> q == [])
    ensures SetQueue(queues, a, q).Keys == SetTail(tails, a, tp).Keys
         == (if q == [] then queues.Keys - {a} else queues.Keys)
    ensures |SetQueue(queues, a, q)| == |queues| - if q == [] then 1 else 0
  {
    var m := SetQueue(queues, a, q);
    assert |m| == |m.Keys| && |queues| == |queues.Keys|;
    if q == [] {
      assert queues.Keys == m.Keys + {a};
    }
  }

  lemma Rejoined(tails: map<Addr, Pcb?>, queues: map<Addr, seq<Pcb>>, a: Addr, tp: Pcb?, q: seq<Pcb>)
    requires AllBut(tails, queues, a)
    requires if q == [] then tp == null else Hangs(tp, q, a)
    ensures Queues(SetTail(tails, a, tp), SetQueue(queues, a, q))
  {
    var t, m := SetTail(tails, a, tp), SetQueue(queues, a, q);
    forall b | b in m ensures Hangs(t[b], m[b], b) {
    }
  }

  ghost function Tail(tails: map<Addr, Pcb?>, a: Addr): Pcb? {
    if a in tails then tails[a] else null
  }

  lemma NotQueued(p: Pcb, tails: map<Addr, Pcb?>, queues: map<Addr, seq<Pcb>>)
    requires Queues(tails, queues) && p.semAdd == NULL_ADDR && NULL_ADDR !in queues
    ensures p !in Members(queues)
  {
    forall b | b in queues ensures p !in queues[b] {
      assert Hangs(tails[b], queues[b], b);
    }
  }

  /** p joins the queue q of a. */
  method Accept(tp: Pcb?, a: Addr, p: Pcb, ghost q: seq<Pcb>) returns (tp': Pcb)
    requires if q == [] then tp == null else Hangs(tp, q, a)
    requires p !in q
    modifies p`next, p`prev, p`semAdd, Elements(q)`next, Elements(q)`prev
    ensures p.semAdd == a && Hangs(tp', q + [p], a)
  {
    hide Linked;
    p.semAdd := a;
    tp' := InsertProcQ(tp, p, q);
  }

  /** p joins the queue of a, which may have been empty. */
  method Enqueue(tp: Pcb?, a: Addr, p: Pcb, ghost tails: map<Addr, Pcb?>, ghost queues: map<Addr, seq<Pcb>>)
    returns (tp': Pcb)
    requires Queues(tails, queues) && tp == Tail(tails, a)
    requires p.semAdd == NULL_ADDR && NULL_ADDR !in queues && a != NULL_ADDR
    modifies p`next, p`prev, p`semAdd
    modifies Elements(Queue(queues, a))`next, Elements(Queue(queues, a))`prev
    ensures p.semAdd == a && Queues(tails[a := tp'], queues[a := Queue(queues, a) + [p]])
  {
    hide Ring, Linked;
    NotQueued(p, tails, queues);
    assert a in queues ==> Hangs(tp, queues[a], a);
    tp' := Accept(tp, a, p, Queue(queues, a));
    forall b | b in queues && b != a ensures Hangs(tails[b], queues[b], b) {
      assert old(Hangs(tails[b], queues[b], b));
    }
    Rejoined(tails, queues, a, tp', Queue(queues, a) + [p]);
  }

  /** The first waiter leaves the queue q of a. */
  method Shed(tp: Pcb, a: Addr, ghost q: seq<Pcb>) returns (tp': Pcb?, p: Pcb)
    requires Hangs(tp, q, a)
    modifies Elements(q)`next, Elements(q)`prev, Head(q)`semAdd
    ensures p == q[0] && p.semAdd == NULL_ADDR
    ensures if q[1..] == [] then tp' == null else Hangs(tp', q[1..], a)
  {
    var head: Pcb?;
    tp', head := RemoveProcQ(tp, q);
    p := head;
    p.semAdd := NULL_ADDR;
    assert p !in q[1..];
  }

  /** p leaves the queue q of a, if outProcQ finds it there. */
  method Pick(tp: Pcb, a: Addr, p: Pcb, scan: Scan, ghost q: seq<Pcb>) returns (tp': Pcb?, out: Pcb?)
    requires Hangs(tp, q, a)
    modifies Elements(q)`next, Elements(q)`prev, p`semAdd
    ensures Finds(scan, q, p) ==> out == p && p.semAdd == NULL_ADDR
    ensures Finds(scan, q, p) ==> if Without(q, p) == [] then tp' == null else Hangs(tp', Without(q, p), a)
    ensures !Finds(scan, q, p) ==> out == null && tp' == tp && Hangs(tp, q, a) && p.semAdd == old(p.semAdd)
  {
    tp', out := OutProcQ(tp, p, scan, q);
    if out != null {
      p.semAdd := NULL_ADDR;
    }
  }

  /** Queues whose members did not change are as they were. */
  ghost predicate Elsewhere(queues: map<Addr, seq<Pcb>>, a: Addr)
    reads Members(queues)`semAdd
  {
    forall b, p | b in queues && b != a && p in queues[b] :: p.semAdd == b && p !in Queue(queues, a)
  }

  lemma QueuesApart(tails: map<Addr, Pcb?>, queues: map<Addr, seq<Pcb>>, a: Addr)
    requires Queues(tails, queues)
    ensures Elsewhere(queues, a)
  {
    forall b, p | b in queues && b != a && p in queues[b] ensures p.semAdd == b && p !in Queue(queues, a) {
      assert Hangs(tails[b], queues[b], b);
      if a in queues { assert Hangs(tails[a], queues[a], a); }
    }
  }

  /** The first waiter of a leaves its queue, which may be empty afterwards. */
  method Dequeue(tp: Pcb, a: Addr, ghost tails: map<Addr, Pcb?>, ghost queues: map<Addr, seq<Pcb>>)
    returns (tp': Pcb?, p: Pcb)
    requires Queues(tails, queues) && a in queues && tp == tails[a]
    modifies Elements(queues[a])`next, Elements(queues[a])`prev, Head(queues[a])`semAdd
    ensures p == queues[a][0] && p.semAdd == NULL_ADDR && (tp' == null <==> queues[a][1..] == [])
    ensures Queues(SetTail(tails, a, tp'), SetQueue(queues, a, queues[a][1..]))
  {
    QueuesApart(tails, queues, a);
    assert Hangs(tp, queues[a], a);
    tp', p := Shed(tp, a, queues[a]);
    forall b | b in queues && b != a ensures Hangs(tails[b], queues[b], b) {
      assert old(Hangs(tails[b], queues[b], b));
    }
    Rejoined(tails, queues, a, tp', queues[a][1..]);
  }

  /** p leaves the queue of a, if outProcQ finds it there. */
  method Extract(tp: Pcb, a: Addr, p: Pcb, scan: Scan,
                 ghost tails: map<Addr, Pcb?>, ghost queues: map<Addr, seq<Pcb>>)
    returns (tp': Pcb?, out: Pcb?)
    requires Queues(tails, queues) && a in queues && tp == tails[a]
    modifies Elements(queues[a])`next, Elements(queues[a])`prev, p`semAdd
    ensures Finds(scan, queues[a], p) ==>
              && out == p && p.semAdd == NULL_ADDR && (tp' == null <==> Without(queues[a], p) == [])
              && Queues(SetTail(tails, a, tp'), SetQueue(queues, a, Without(queues[a], p)))
    ensures !Finds(scan, queues[a], p) ==> out == null && tp' == tp && Queues(tails, queues)
  {
    QueuesApart(tails, queues, a);
    assert Hangs(tp, queues[a], a);
    tp', out := Pick(tp, a, p, scan, queues[a]);
    forall b | b in queues && b != a ensures Hangs(tails[b], queues[b], b) {
      assert old(Hangs(tails[b], queues[b], b));
    }
    if out != null {
      Rejoined(tails, queues, a, tp', Without(queues[a], p));
    }
  }

  /* ------------------------------------------------ the list */

  class Asl {
    var semdActive: Semd?
    var semdFree: Semd?
    ghost var active: seq<Semd>
    ghost var idle: seq<Semd>
    ghost var keys: seq<Addr>
    ghost var tails: map<Addr, Pcb?>
    ghost var queues: map<Addr, seq<Pcb>>
    ghost const capacity: nat
    ghost const table: set<Semd>

    /** Both lists of descriptors, each descriptor on one of them, once. */
    ghost predicate Chained()
      reads this, table`next
    {
      && Distinct(active) && Distinct(idle) && (forall d | d in active :: d !in idle)
      && (forall d | d in active :: d in table) && (forall d | d in idle :: d in table)
      && SemdChain(semdActive, active)
      && SemdChain(semdFree, idle)
      && |active| + |idle| == capacity + 2
    }

    /** The active list is sorted, and its descriptors hold the addresses and tails of the ghost state. */
    ghost predicate Named()
      reads this, table`semAdd, table`procQ
    {
      Sorted(keys) && (forall d | d in active :: d in table) && Names(active, keys, tails)
    }

    /** There is a descriptor for each semaphore with waiters, and for no other. */
    ghost predicate Covered()
      reads this
    {
      Covers(keys, tails, queues)
    }

    ghost predicate Valid()
      reads this, table, Members(queues)`next, Members(queues)`prev, Members(queues)`semAdd
    {
      Chained() && Named() && Covered() && Queues(tails, queues)
    }

    /** The last descriptor before the place of a. */
    method FindASemd(a: Addr) returns (prev: Semd, ghost i: nat)
      requires Valid()
      ensures Valid() && i + 1 < |active| && prev == active[i] && prev.next == active[i + 1] && Before(keys, a, i)
      ensures prev.next != null && prev.next.semAdd >= a && (prev != semdActive ==> prev.semAdd < a)
    {
      prev := semdActive;
      i := 0;
      while prev.next.semAdd < a
        invariant i + 1 < |active| && prev == active[i] && prev.next == active[i + 1]
        invariant forall j | 1 <= j <= i :: keys[j] < a
        decreases |active| - i
      {
        prev := prev.next;
        i := i + 1;
      }
    }

    /** The first idle descriptor leaves the pool, for the semaphore a. */
    method AllocSemd(a: Addr) returns (s: Semd?)
      requires SemdChain(semdFree, idle) && Distinct(idle)
      modifies this`semdFree, this`idle, (if idle == [] then {} else {idle[0]})
      ensures old(idle) == [] ==> s == null && idle == [] && semdFree == old(semdFree)
      ensures old(idle) != [] ==>
                s == old(idle)[0] && s.semAdd == a && s.procQ == null && s.next == null && idle == old(idle)[1..]
      ensures SemdChain(semdFree, idle)
    {
      s := semdFree;
      if semdFree == null {
        return null;
      }
      semdFree := semdFree.next;
      s.next := null;
      s.procQ := null;
      s.semAdd := a;
      idle := idle[1..];
    }

    /** s goes back to the pool. */
    method FreeSemd(s: Semd)
      requires SemdChain(semdFree, idle) && s !in idle
      modifies this`semdFree, this`idle, s
      ensures idle == [s] + old(idle) && SemdChain(semdFree, idle)
    {
      s.semAdd := NULL_ADDR;
      s.procQ := null;
      s.next := semdFree;
      semdFree := s;
      idle := [s] + idle;
    }

    /** s goes in behind prev, number i. */
    method Splice(prev: Semd, s: Semd, ghost i: nat)
      requires SemdChain(semdActive, active) && i + 1 < |active| && prev == active[i] && Distinct(active)
      requires s !in active
      modifies this`active, prev`next, s`next
      ensures active == Insert(old(active), i, s) && SemdChain(semdActive, active)
    {
      s.next := prev.next;
      prev.next := s;
      active := Insert(active, i, s);
    }

    /** An idle descriptor for a goes in behind prev, number i; its queue is still empty. */
    method OpenSlot(prev: Semd, a: Addr, ghost i: nat) returns (s: Semd)
      requires Chained() && i + 1 < |active| && prev == active[i] && idle != []
      modifies this`semdFree, this`idle, this`active, prev`next, idle[0]
      ensures Chained() && s == old(idle)[0] && s !in old(active)
      ensures active == Insert(old(active), i, s) && idle == old(idle)[1..]
      ensures s.semAdd == a && s.procQ == null && prev.semAdd == old(prev.semAdd) && prev.procQ == old(prev.procQ)
    {
      RestDistinct(idle);
      InsertDistinct(active, i, idle[0]);
      s := AllocSemd(a);
      Splice(prev, s, i);
    }

    /** A descriptor for a, without waiters yet, goes in behind prev, number i. */
    method Enlist(prev: Semd, a: Addr, ghost i: nat) returns (s: Semd)
      requires Chained() && Named() && i + 1 < |active| && prev == active[i] && idle != []
      requires Before(keys, a, i) && keys[i + 1] != a && a !in tails
      modifies this`semdFree, this`idle, this`active, this`keys, prev`next, idle[0]
      ensures Chained() && Named() && keys == Insert(old(keys), i, a)
      ensures active == Insert(old(active), i, s) && idle == old(idle)[1..] && s == old(idle)[0]
      ensures i + 1 < |active| - 1 && active[i + 1] == s && keys[i + 1] == a
    {
      hide Sorted, Inner, Before, SemdChain, Distinct;
      InsertSorted(keys, a, i);
      ghost var was, names := active, keys;
      s := OpenSlot(prev, a, i);
      assert Names(was, names, tails);
      InsertNames(was, names, tails, s, i);
      keys := Insert(keys, i, a);
    }

    /** Everything but the agreement between the descriptors and the semaphores with waiters. */
    ghost predicate Sound()
      reads this, table, Members(queues)`next, Members(queues)`prev, Members(queues)`semAdd
    {
      Chained() && Named() && Queues(tails, queues) && NULL_ADDR !in queues
    }

    /** Descriptor s, number i, gets the tail t of its new queue q. */
    method Hang(s: Semd, a: Addr, t: Pcb?, ghost q: seq<Pcb>, ghost i: nat)
      requires Chained() && Named() && 1 <= i < |active| - 1 && active[i] == s && keys[i] == a
      modifies this`tails, this`queues, s`procQ
      ensures Chained() && Named() && s.procQ == t
      ensures tails == SetTail(old(tails), a, t) && queues == SetQueue(old(queues), a, q)
    {
      s.procQ := t;
      tails, queues := SetTail(tails, a, t), SetQueue(queues, a, q);
    }

    /** Hang, seen from the processes: nothing happens to their queues. */
    method HangQuietly(s: Semd, a: Addr, t: Pcb?, ghost q: seq<Pcb>, ghost i: nat)
      requires Chained() && Named() && 1 <= i < |active| - 1 && active[i] == s && keys[i] == a
      requires Queues(SetTail(tails, a, t), SetQueue(queues, a, q))
      modifies this`tails, this`queues, s`procQ
      ensures Chained() && Named() && Queues(tails, queues) && s.procQ == t
      ensures tails == SetTail(old(tails), a, t) && queues == SetQueue(old(queues), a, q)
    {
      ghost var ts, qs := SetTail(tails, a, t), SetQueue(queues, a, q);
      Hang(s, a, t, q, i);
      hide Chained, Named;
      forall b | b in qs ensures Hangs(ts[b], qs[b], b) {
        assert old(Hangs(ts[b], qs[b], b));
      }
    }

    lemma SlotNamed(d: Semd, i: nat)
      requires Sound() && 1 <= i < |active| - 1 && active[i] == d
      ensures i < |keys| && keys[i] != NULL_ADDR && d.semAdd == keys[i] && d.procQ == Tail(tails, keys[i])
    {
    }

    /** p joins the queue of descriptor d, number i. */
    method Join(d: Semd, p: Pcb, ghost i: nat)
      requires Sound() && 1 <= i < |active| - 1 && active[i] == d && p.semAdd == NULL_ADDR
      modifies this`tails, this`queues, d`procQ, p`next, p`prev, p`semAdd
      modifies Elements(Queue(queues, keys[i]))`next, Elements(Queue(queues, keys[i]))`prev
      ensures Sound() && p.semAdd == keys[i] && Grown(old(queues), queues, keys[i], p)
      ensures tails.Keys == old(tails).Keys + {keys[i]}
    {
      hide Chained, Named, Queues;
      SlotNamed(d, i);
      var t := Enqueue(d.procQ, d.semAdd, p, tails, queues);
      HangQuietly(d, d.semAdd, t, Queue(queues, keys[i]) + [p], i);
    }

    /** Enlist, seen from the processes: nothing happens to their queues. */
    method EnlistQuietly(prev: Semd, a: Addr, ghost i: nat) returns (s: Semd)
      requires Sound() && i + 1 < |active| && prev == active[i] && idle != []
      requires Before(keys, a, i) && keys[i + 1] != a && a !in tails
      modifies this`semdFree, this`idle, this`active, this`keys, prev`next, idle[0]
      ensures Sound() && keys == Insert(old(keys), i, a)
      ensures active == Insert(old(active), i, s) && idle == old(idle)[1..] && s == old(idle)[0]
      ensures i + 1 < |active| - 1 && active[i + 1] == s && keys[i + 1] == a
    {
      ghost var ts, qs := tails, queues;
      s := Enlist(prev, a, i);
      hide Named, Chained, Sorted, Before, Insert;
      forall b | b in qs ensures Hangs(ts[b], qs[b], b) {
        assert old(Hangs(ts[b], qs[b], b));
      }
    }

    /** A descriptor for a, with p as its only waiter, goes in behind prev, number i. */
    method Activate(prev: Semd, a: Addr, p: Pcb, ghost i: nat)
      requires Valid() && i + 1 < |active| && prev == active[i] && Before(keys, a, i) && keys[i + 1] != a
      requires idle != [] && p.semAdd == NULL_ADDR && a != NULL_ADDR
      modifies this, prev, idle[0], p`next, p`prev, p`semAdd
      ensures Valid() && p.semAdd == a && a !in old(queues)
      ensures Grown(old(queues), queues, a, p)
    {
      BeforeFinds(keys, a, i);
      SentinelsFree(keys);
      ghost var ks, ts, qs := keys, tails, queues;
      hide Before, Sorted, Covers, Queues;
      var s := EnlistQuietly(prev, a, i);
      hide Chained, Named;
      Join(s, p, i + 1);
      CoversGrown(ks, ts, qs, a, tails, queues, p, i);
    }

    /** What FindASemd's answer says about the semaphore it was asked for. */
    lemma Located(a: Addr, prev: Semd, i: nat)
      requires Valid() && a != NULL_ADDR && Before(keys, a, i) && prev == active[i]
      ensures i + 1 < |active| && prev.next == active[i + 1] && prev.next.semAdd == keys[i + 1]
      ensures prev.next.semAdd == a <==> a in queues
      ensures prev.next.semAdd == a ==> Found(prev, prev.next, a, i)
      ensures prev.next.semAdd != a ==> a !in tails
      ensures NULL_ADDR !in queues && Sound()
      ensures semdFree == null <==> idle == []
      ensures prev in table && prev.next in table && (idle != [] ==> idle[0] in table)
    {
      BeforeFinds(keys, a, i);
      SentinelsFree(keys);
      assert a in queues ==> Hangs(tails[a], queues[a], a);
    }

    /** p joins the queue of a, which already has a descriptor, number i. */
    method JoinActive(d: Semd, a: Addr, p: Pcb, ghost i: nat)
      requires Valid() && Sound() && 1 <= i < |active| - 1 && active[i] == d && p.semAdd == NULL_ADDR
      requires keys[i] == a && a in queues
      modifies this`tails, this`queues, d`procQ, p`next, p`prev, p`semAdd
      modifies Elements(queues[a])`next, Elements(queues[a])`prev
      ensures Valid() && p.semAdd == a
      ensures Grown(old(queues), queues, a, p)
    {
      hide Chained, Named, Queues;
      assert Covered();
      Join(d, p, i);
      assert Covered();
    }

    /** p is blocked on a. True: it could not be, for want of a process or of a descriptor. */
    method InsertBlocked(a: Addr, p: Pcb?) returns (fail: bool)
      requires Valid() && a != NULL_ADDR
      requires p != null && (a in queues || idle != []) ==> p.semAdd == NULL_ADDR
      modifies this, table, Elements(Queue(queues, a))`next, Elements(Queue(queues, a))`prev
      modifies Only(p)`next, Only(p)`prev, Only(p)`semAdd
      ensures Valid()
      ensures fail <==> p == null || (a !in old(queues) && old(idle) == [])
      ensures fail ==> queues == old(queues) && idle == old(idle)
      ensures !fail ==> p != null && p.semAdd == a && Grown(old(queues), queues, a, p)
    {
      hide Queues, Chained, Named, Covered, Before, Sound;
      ghost var i;
      var prev: Semd;
      prev, i := FindASemd(a);
      Located(a, prev, i);
      var current := prev.next;
      if p == null {
        return true;
      }
      if a == current.semAdd {
        JoinActive(current, a, p, i + 1);
        return false;
      }
      if semdFree == null {
        return true;
      }
      Activate(prev, a, p, i);
      return false;
    }

    /** d, number i + 1, leaves the active list for the pool. */
    method Unlist(prev: Semd, d: Semd, ghost i: nat)
      requires Chained() && i + 2 < |active| && active[i] == prev && active[i + 1] == d
      modifies this`active, this`idle, this`semdFree, prev`next, d
      ensures Chained() && active == Remove(old(active), i) && idle == [d] + old(idle)
    {
      RemoveDistinct(active, i);
      DistinctAppend([d], idle);
      prev.next := d.next;
      active := Remove(active, i);
      FreeSemd(d);
    }

    /** Unlist, with the addresses. */
    method Delist(prev: Semd, d: Semd, ghost i: nat)
      requires Chained() && Named() && i + 2 < |active| && active[i] == prev && active[i + 1] == d
      modifies this`active, this`idle, this`semdFree, this`keys, prev`next, d
      ensures Chained() && Named() && keys == Remove(old(keys), i) && |idle| == old(|idle|) + 1
    {
      hide Sorted, Inner, SemdChain;
      RemoveSorted(keys, i);
      RemoveNames(active, keys, tails, i);
      RemoveDistinct(active, i);
      ghost var left, names := Remove(active, i), Remove(keys, i);
      Unlist(prev, d, i);
      assert Names(left, names, tails);
      keys := names;
    }

    /** The descriptor d, which has no waiters left, becomes idle. */
    method Retire(prev: Semd, d: Semd, ghost i: nat)
      requires Sound() && i + 2 < |active| && active[i] == prev && active[i + 1] == d
      modifies this`active, this`idle, this`semdFree, this`keys, prev`next, d
      ensures Sound() && keys == Remove(old(keys), i) && |idle| == old(|idle|) + 1
    {
      ghost var ts, qs := tails, queues;
      Delist(prev, d, i);
      hide Chained, Named;
      forall b | b in qs ensures Hangs(ts[b], qs[b], b) {
        assert old(Hangs(ts[b], qs[b], b));
      }
    }

    /** What is left of the queue of a, with tail t, replaces it; a descriptor without waiters goes. */
    method Settle(prev: Semd, d: Semd, a: Addr, t: Pcb?, ghost q: seq<Pcb>, ghost i: nat)
      requires Chained() && Named() && Covered() && a in queues && i + 2 < |active|
      requires active[i] == prev && active[i + 1] == d && keys[i + 1] == a && (t == null <==> q == [])
      requires Queues(SetTail(tails, a, t), SetQueue(queues, a, q))
      modifies this, prev`next, d
      ensures Valid() && queues == SetQueue(old(queues), a, q)
    {
      hide Queues, Chained, SetQueue, SetTail, Remove, Covers;
      CoversSettled(keys, tails, queues, a, t, q, i);
      HangQuietly(d, a, t, q, i + 1);
      if d.procQ == null {
        Retire(prev, d, i);
      }
    }

    /** d, behind prev, is the descriptor of a; prev is number i. */
    ghost predicate Found(prev: Semd, d: Semd, a: Addr, i: nat)
      requires Valid()
      reads this, table, Members(queues)`next, Members(queues)`prev, Members(queues)`semAdd
    {
      && i + 2 < |active| && active[i] == prev && active[i + 1] == d && keys[i + 1] == a
      && a in queues && a in tails && tails[a] == d.procQ && d.procQ != null && queues[a] != []
    }

    /** Dequeue, seen from the descriptors: nothing happens to them. */
    method DequeueQuietly(tp: Pcb, a: Addr) returns (t: Pcb?, p: Pcb)
      requires Chained() && Named() && Queues(tails, queues) && a in queues && tp == tails[a]
      modifies Elements(queues[a])`next, Elements(queues[a])`prev, Head(queues[a])`semAdd
      ensures Chained() && Named()
      ensures p == queues[a][0] && p.semAdd == NULL_ADDR && (t == null <==> queues[a][1..] == [])
      ensures Queues(SetTail(tails, a, t), SetQueue(queues, a, queues[a][1..]))
    {
      hide Queues, SetTail, SetQueue, Sorted;
      t, p := Dequeue(tp, a, tails, queues);
    }

    /** Extract, seen from the descriptors: nothing happens to them. */
    method ExtractQuietly(tp: Pcb, a: Addr, p: Pcb, scan: Scan) returns (t: Pcb?, out: Pcb?)
      requires Chained() && Named() && Queues(tails, queues) && a in queues && tp == tails[a]
      modifies Elements(queues[a])`next, Elements(queues[a])`prev, p`semAdd
      ensures Chained() && Named()
      ensures Finds(scan, queues[a], p) ==>
                && out == p && p.semAdd == NULL_ADDR && (t == null <==> Without(queues[a], p) == [])
                && Queues(SetTail(tails, a, t), SetQueue(queues, a, Without(queues[a], p)))
      ensures !Finds(scan, queues[a], p) ==> out == null && t == tp && Queues(tails, queues)
    {
      hide Queues, SetTail, SetQueue, Sorted;
      t, out := Extract(tp, a, p, scan, tails, queues);
    }

    /** The first of the waiters of a leaves. */
    method TakeFirst(prev: Semd, d: Semd, a: Addr, ghost i: nat) returns (p: Pcb)
      requires Valid() && Found(prev, d, a, i)
      modifies this, prev`next, d
      modifies Elements(queues[a])`next, Elements(queues[a])`prev, Head(queues[a])`semAdd
      ensures Valid() && p.semAdd == NULL_ADDR && p == old(queues)[a][0]
      ensures queues == SetQueue(old(queues), a, old(queues)[a][1..])
    {
      hide Queues, Hangs, Chained, Named, Covers, SetQueue, SetTail;
      ghost var q := queues[a];
      var t;
      t, p := DequeueQuietly(d.procQ, a);
      Settle(prev, d, a, t, q[1..], i);
    }

    /** p leaves the waiters of a, if outProcQ finds it among them. */
    method TakeOut(prev: Semd, d: Semd, a: Addr, p: Pcb, scan: Scan, ghost i: nat) returns (out: Pcb?)
      requires Valid() && Found(prev, d, a, i)
      modifies this, prev`next, d
      modifies Elements(queues[a])`next, Elements(queues[a])`prev, p`semAdd
      ensures Valid()
      ensures Finds(scan, old(queues)[a], p) ==> out == p && p.semAdd == NULL_ADDR
      ensures Finds(scan, old(queues)[a], p) ==> queues == SetQueue(old(queues), a, Without(old(queues)[a], p))
      ensures !Finds(scan, old(queues)[a], p) ==> out == null && queues == old(queues)
    {
      hide Queues, Hangs, Chained, Named, Covers, SetQueue, SetTail;
      ghost var q := queues[a];
      var t;
      t, out := ExtractQuietly(d.procQ, a, p, scan);
      if out != null {
        Settle(prev, d, a, t, Without(q, p), i);
      }
    }

    /** The first waiter of a leaves, if there is one. */
    method RemoveBlocked(a: Addr) returns (p: Pcb?)
      requires Valid() && a != NULL_ADDR
      modifies this, table
      modifies Elements(Queue(queues, a))`next, Elements(Queue(queues, a))`prev, Head(Queue(queues, a))`semAdd
      ensures Valid()
      ensures a !in old(queues) ==> p == null && queues == old(queues)
      ensures a in old(queues) ==> p != null && p.semAdd == NULL_ADDR && p == old(queues)[a][0]
      ensures a in old(queues) ==> queues == SetQueue(old(queues), a, old(queues)[a][1..])
    {
      hide Queues, Chained, Named, Covered, Before;
      ghost var i;
      var prev: Semd;
      prev, i := FindASemd(a);
      Located(a, prev, i);
      var current := prev.next;
      if current.semAdd == a {
        p := TakeFirst(prev, current, a, i);
        return p;
      }
      return null;
    }

    /**
     p leaves the queue of the semaphore it waits for. Where outProcQ does not find it there, the code
     goes on to store through the NULL that outProcQ returned: a fault.
     */
    method OutBlocked(p: Pcb, scan: Scan) returns (out: Pcb?, fault: bool)
      requires Valid()
      modifies this, table, p`semAdd
      modifies Elements(Queue(queues, p.semAdd))`next, Elements(Queue(queues, p.semAdd))`prev
      ensures Valid()
      ensures fault <==> old(p.semAdd) in old(queues) && !Finds(scan, old(queues)[old(p.semAdd)], p)
      ensures old(p.semAdd) in old(queues) && !fault ==>
                && out == p && p.semAdd == NULL_ADDR
                && queues == SetQueue(old(queues), old(p.semAdd), Without(old(queues)[old(p.semAdd)], p))
      ensures old(p.semAdd) !in old(queues) || fault ==> out == null && queues == old(queues)
    {
      hide Queues, Chained, Named, Before;
      var a := p.semAdd;
      SentinelUnused();
      if a == NULL_ADDR {
        return null, false;
      }
      ghost var i;
      var prev: Semd;
      prev, i := FindASemd(a);
      Located(a, prev, i);
      var current := prev.next;
      if current.semAdd == a {
        out := TakeOut(prev, current, a, p, scan, i);
        return out, out == null;
      }
      return null, false;
    }

    lemma SentinelUnused()
      requires Valid()
      ensures NULL_ADDR !in queues
    {
      SentinelsFree(keys);
    }

    /** The first waiter of a, who stays. */
    method HeadBlocked(a: Addr) returns (head: Pcb?)
      requires Valid()
      ensures head == if a in queues then queues[a][0] else null
    {
      ghost var i;
      var prev: Semd;
      prev, i := FindASemd(a);
      SentinelUnused();
      BehindIs(a, prev, i);
      var current := prev.next;
      if a == current.semAdd {
        head := HeadProcQ(current.procQ, Queue(queues, a));
      } else {
        head := null;
      }
    }

    /** Even for the address of the last sentinel. */
    lemma BehindIs(a: Addr, prev: Semd, i: nat)
      requires Valid() && Before(keys, a, i) && i + 1 < |active| && prev == active[i]
      ensures prev.next == active[i + 1] && (a in queues ==> a == prev.next.semAdd && queues[a] != [])
      ensures a == prev.next.semAdd ==> Ring(prev.next.procQ, Queue(queues, a))
    {
      if a != NULL_ADDR {
        Located(a, prev, i);
        assert a in queues ==> Hangs(tails[a], queues[a], a);
      } else {
        SentinelsFree(keys);
      }
    }

    /* insertProcQ, removeProcQ and outProcQ on a queue that is not one of the list's. */

    ghost predicate Foreign(q: seq<Pcb>)
      reads this
    {
      forall p | p in q :: p !in Members(queues)
    }

    method InsertElsewhere(tp: Pcb?, p: Pcb, ghost q: seq<Pcb>) returns (tp': Pcb)
      requires Valid() && Foreign(q) && p !in Members(queues) && Ring(tp, q) && p !in q
      modifies p`next, p`prev, Elements(q)`next, Elements(q)`prev
      ensures Valid() && tp' == p && Ring(tp', q + [p])
    {
      hide Ring, Chained, Named, Covered;
      ghost var ts, qs := tails, queues;
      tp' := InsertProcQ(tp, p, q);
      forall b | b in qs ensures Hangs(ts[b], qs[b], b) {
        assert old(Hangs(ts[b], qs[b], b));
      }
    }

    method RemoveElsewhere(tp: Pcb?, ghost q: seq<Pcb>) returns (tp': Pcb?, head: Pcb?)
      requires Valid() && Foreign(q) && Ring(tp, q)
      modifies Elements(q)`next, Elements(q)`prev
      ensures Valid()
      ensures q == [] ==> head == null && tp' == null
      ensures q != [] ==> head == q[0] && head.next == null && head.prev == null && Ring(tp', q[1..])
    {
      hide Ring, Chained, Named, Covered;
      ghost var ts, qs := tails, queues;
      tp', head := RemoveProcQ(tp, q);
      forall b | b in qs ensures Hangs(ts[b], qs[b], b) {
        assert old(Hangs(ts[b], qs[b], b));
      }
    }

    method OutElsewhere(tp: Pcb?, p: Pcb, scan: Scan, ghost q: seq<Pcb>) returns (tp': Pcb?, out: Pcb?)
      requires Valid() && Foreign(q) && Ring(tp, q)
      modifies Elements(q)`next, Elements(q)`prev
      ensures Valid()
      ensures Finds(scan, q, p) ==> out == p && p.next == null && p.prev == null && Ring(tp', Without(q, p))
      ensures !Finds(scan, q, p) ==> out == null && tp' == tp && Ring(tp, q)
    {
      hide Ring, Chained, Named, Covered;
      ghost var ts, qs := tails, queues;
      tp', out := OutProcQ(tp, p, scan, q);
      forall b | b in qs ensures Hangs(ts[b], qs[b], b) {
        assert old(Hangs(ts[b], qs[b], b));
      }
    }

    /* freePcb and allocPcb of a process that is not one of the list's. */

    method FreeElsewhere(h: Pcb?, p: Pcb, ghost free: seq<Pcb>) returns (h': Pcb)
      requires Valid() && p !in Members(queues) && Chain(h, free) && p !in free
      modifies p
      ensures Valid() && h' == p && Chain(h', [p] + free) && Blank(p)
    {
      hide Chain, Blank, Chained, Named, Covered;
      ghost var ts, qs := tails, queues;
      h' := FreePcb(h, p, free);
      forall b | b in qs ensures Hangs(ts[b], qs[b], b) {
        assert old(Hangs(ts[b], qs[b], b));
      }
    }

    method AllocElsewhere(h: Pcb?, ghost free: seq<Pcb>) returns (h': Pcb?, p: Pcb?)
      requires Valid() && Foreign(free) && Chain(h, free)
      modifies Head(free)
      ensures Valid()
      ensures free == [] ==> p == null && h' == null
      ensures free != [] ==> p == free[0] && Chain(h', free[1..]) && Blank(p) && p.next == null
    {
      hide Blank, Chain, Chained, Named, Covered;
      ghost var ts, qs := tails, queues;
      ChainHead(h, free);
      h', p := AllocPcb(h, free);
      forall b | b in qs ensures Hangs(ts[b], qs[b], b) {
        assert old(Hangs(ts[b], qs[b], b));
      }
    }

    /** The descriptors of the array become idle, and then two of them the sentinels. */
    constructor (semdArr: array<Semd>)
      requires semdArr.Length >= 2 && Distinct(semdArr[..])
      modifies set d | d in semdArr[..]
      ensures Valid() && queues == map[] && capacity == |idle| == semdArr.Length - 2
      ensures table == Elements(semdArr[..])
    {
      capacity := semdArr.Length - 2;
      table := Elements(semdArr[..]);
      semdActive, semdFree := null, null;
      active, idle, keys, tails, queues := [], [], [], map[], map[];
      new;
      InitFree(semdArr);
      InitSentinels();
    }

    method InitFree(semdArr: array<Semd>)
      requires Distinct(semdArr[..]) && table == Elements(semdArr[..]) && idle == [] && semdFree == null
      modifies this`idle, this`semdFree, table
      ensures SemdChain(semdFree, idle) && Distinct(idle) && |idle| == semdArr.Length
      ensures forall d | d in idle :: d in table
    {
      var i := 0;
      while i < semdArr.Length
        invariant i <= semdArr.Length && idle == Reverse(semdArr[..i]) && SemdChain(semdFree, idle)
      {
        assert semdArr[..i + 1] == semdArr[..i] + [semdArr[i]];
        ReverseSnoc(semdArr[..i], semdArr[i]);
        ReverseMembers(semdArr[..i]);
        FreeSemd(semdArr[i]);
        i := i + 1;
      }
      assert semdArr[..i] == semdArr[..];
      ReverseDistinct(semdArr[..]);
      ReverseMembers(semdArr[..]);
    }

    method InitSentinels()
      requires SemdChain(semdFree, idle) && Distinct(idle) && |idle| == capacity + 2
      requires forall d | d in idle :: d in table
      requires active == [] && queues == map[] && tails == map[] && keys == []
      modifies this, Elements(idle)
      ensures Valid() && queues == map[] && |idle| == capacity
    {
      hide Chained, Named, Covered;
      ghost var all := idle;
      FirstTwo(all);
      var head := AllocSemd(0);
      var last := AllocSemd(NULL_ADDR);
      semdActive := head;
      semdActive.next := last;
      active, keys := [head, last], [0, NULL_ADDR];
      assert idle == all[2..];
      SentinelsChained(head, last);
      SentinelsNamed(head, last);
    }

    lemma SentinelsChained(head: Semd, last: Semd)
      requires active == [head, last] && head != last && semdActive == head && head.next == last && last.next == null
      requires SemdChain(semdFree, idle) && Distinct(idle) && |idle| == capacity && head !in idle && last !in idle
      requires head in table && last in table && forall d | d in idle :: d in table
      ensures Chained()
    {
    }

    lemma SentinelsNamed(head: Semd, last: Semd)
      requires active == [head, last] && head in table && last in table && head.procQ == null && last.procQ == null
      requires head.semAdd == 0 && last.semAdd == NULL_ADDR && keys == [0, NULL_ADDR]
      requires tails == map[] && queues == map[]
      ensures Named() && Covered()
    {
      assert Inner(keys) == [];
    }
  }

  lemma FirstTwo(q: seq<Semd>)
    requires |q| >= 2 && Distinct(q)
    ensures q[1..][1..] == q[2..] && Distinct(q[1..]) && Distinct(q[2..]) && q[0] != q[1]
    ensures forall d | d in [q[0], q[1]] :: d !in q[2..]
    ensures forall d | d in q[2..] :: d in q
  {
    assert q == [q[0], q[1]] + q[2..];
  }
}
