/**
 How pointers represent the state machine's lists and tree, and what the list operations of the
 machine leave in order.
 */
module Links {
  import opened Pcbs
  import opened Seqs
  import opened Family
  import opened Machine
  import opened Killing
  import opened Steps
  import opened Runs
  import opened Culling
  import opened ProcQ
  import opened PcbLists
  import opened ActiveSemaphoreList

  /** What p_semAdd holds for a process in a given place. */
  function SemAddOf(at: Place): Addr {
    if at.Waits? then at.a else NULL_ADDR
  }

  ghost predicate Tagged(place: map<Pcb, Place>)
    reads place.Keys`semAdd
  {
    forall p | p in place :: p.semAdd == SemAddOf(place[p])
  }

  /** The semaphores that have waiters, with their queues. */
  ghost function Busy(blocked: map<Addr, seq<Pcb>>): map<Addr, seq<Pcb>> {
    map a | a in blocked && blocked[a] != [] :: blocked[a]
  }

  /** The active semaphore list holds the queues, and has n descriptors. */
  ghost predicate Waiters(asl: Asl, blocked: map<Addr, seq<Pcb>>, n: nat)
    reads asl, asl.table
    reads Members(asl.queues)`next, Members(asl.queues)`prev, Members(asl.queues)`semAdd
  {
    asl.Valid() && asl.queues == Busy(blocked) && asl.capacity == n
  }

  ghost function Kids(kids: map<Pcb, seq<Pcb>>, p: Pcb?): seq<Pcb> {
    if p != null && p in kids then kids[p] else []
  }

  /** The parent, child and sibling pointers of the live processes make up the tree. */
  ghost predicate Kinship(kids: map<Pcb, seq<Pcb>>, parent: map<Pcb, Pcb?>)
    reads kids.Keys`parent, kids.Keys`child, Offspring(kids)`sib
  {
    && kids.Keys == parent.Keys
    && (forall p | p in kids :: p.parent == parent[p] && Siblings(p.child, kids[p]))
  }

  /** The lists are over the processes of the table. */
  ghost predicate Closed(free: seq<Pcb>, ready: seq<Pcb>, kids: map<Pcb, seq<Pcb>>, table: set<Pcb>) {
    && kids.Keys <= table && Offspring(kids) <= table
    && (forall p | p in free :: p in table) && (forall p | p in ready :: p in table)
  }

  ghost predicate AllKnown(n: State) {
    Closed(n.free, n.ready, n.tree.kids, n.place.Keys)
  }

  /** Moving a process changes where it is, not who there is. */
  lemma Moved(place: map<Pcb, Place>, p: Pcb, at: Place)
    requires p in place
    ensures place[p := at].Keys == place.Keys && |place[p := at]| == |place|
  {
    assert place[p := at].Keys == place.Keys;
    assert |place| == |place.Keys| && |place[p := at]| == |place[p := at].Keys|;
  }

  /* ------------------------------------------------ pointer changes in the tree */

  lemma NoSiblings()
    ensures Siblings(null, [])
  {
  }

  /** insertChild, seen from the whole tree. */
  method GrowTree(r: Pcb, p: Pcb, ghost t: Tree)
    requires Kinship(t.kids, t.parent) && r in t.kids
    requires p !in t.kids && p !in Offspring(t.kids) && p.sib == null && p.child == null
    modifies p`parent, p`sib, r`child
    ensures Kinship(Adopt(t, r, p).kids, Adopt(t, r, p).parent)
  {
    hide Siblings;
    assert forall q | q in t.kids :: forall c | c in t.kids[q] :: c in Offspring(t.kids);
    InsertChild(r, p, t.kids[r]);
    forall q | q in t.kids && q != r ensures Siblings(q.child, t.kids[q]) {
      assert old(Siblings(q.child, t.kids[q]));
    }
    NoSiblings();
  }

  /** removeChild. */
  method ThinTree(p: Pcb, ghost t: Tree) returns (c: Pcb?)
    requires Kinship(t.kids, t.parent) && p in t.kids && p !in t.kids[p] && OneParent(t.kids)
    requires t.kids[p] != [] ==> t.kids[p][0] in t.kids
    modifies p`child, Head(t.kids[p])`parent
    ensures t.kids[p] == [] ==> c == null && Kinship(t.kids, t.parent)
    ensures t.kids[p] != [] ==> c == t.kids[p][0] && Kinship(DropFirst(t, p).kids, DropFirst(t, p).parent)
  {
    hide Siblings;
    c := RemoveChild(p, t.kids[p]);
    forall q | q in t.kids && q != p ensures Siblings(q.child, t.kids[q]) {
      assert old(Siblings(q.child, t.kids[q]));
    }
  }

  /** outChild. */
  method SplitTree(p: Pcb, ghost t: Tree)
    requires Kinship(t.kids, t.parent) && p in t.kids && p in t.parent && OneParent(t.kids)
    requires var r := t.parent[p];
             r != null ==> r in t.kids && r != p && p in t.kids[r] && r !in t.kids[r]
    modifies p`parent, Only(t.parent[p])`child, Elements(Kids(t.kids, t.parent[p]))`sib
    ensures Kinship(Detach(t, p).kids, Detach(t, p).parent)
  {
    hide Siblings;
    ghost var r := t.parent[p];
    assert r != null ==> Siblings(r.child, t.kids[r]);
    var out := OutChild(p, Kids(t.kids, r));
    forall q | q in t.kids && q != r ensures Siblings(q.child, t.kids[q]) {
      assert old(Siblings(q.child, t.kids[q]));
    }
  }

  /* ------------------------------------------------ who is in which list */

  /** Each list has processes of its own. */
  lemma Places(s: State)
    requires Ordered(s)
    ensures forall p | p in s.free :: p in s.place && s.place[p] == Free
    ensures forall p | p in s.ready :: p in s.place && s.place[p] == Ready
    ensures forall p | p in Members(Busy(s.blocked)) :: p in s.place && s.place[p].Waits?
    ensures s.current != null ==> s.current in s.place && s.place[s.current] == Running
  {
  }

  lemma WaitersPlaces(s: State, a: Addr)
    requires Ordered(s) && a in s.blocked
    ensures a != NULL_ADDR && Queue(Busy(s.blocked), a) == s.blocked[a] && Distinct(s.blocked[a])
    ensures a in Busy(s.blocked) <==> s.blocked[a] != []
    ensures forall p | p in s.blocked[a] :: p in s.place && s.place[p] == Waits(a) && p in Members(Busy(s.blocked))
  {
  }

  lemma BusySet(blocked: map<Addr, seq<Pcb>>, a: Addr, q: seq<Pcb>)
    requires a in blocked
    ensures SetQueue(Busy(blocked), a, q) == Busy(blocked[a := q])
    ensures q != [] ==> Busy(blocked)[a := q] == Busy(blocked[a := q])
  {
  }

  lemma OffspringLive(t: Tree)
    requires Forest(t)
    ensures Offspring(t.kids) <= t.kids.Keys
  {
    hide Dated, Upward, Descends, PostOrder;
    forall c | c in Offspring(t.kids) ensures c in t.kids {
      var q :| q in t.kids && c in t.kids[q];
    }
  }

  lemma FreeIsDead(s: State)
    requires Core(s)
    ensures forall q | q in s.free :: q in s.place && q !in s.tree.kids
  {
    hide Separated, Placed, Lawful, Wired, Rooted;
    Places(s);
  }

  /** s after p has left the list that holds it. */
  function Unlisted(s: State, p: Pcb): State
    requires p in s.place && (s.place[p].Waits? ==> s.place[p].a in s.blocked)
  {
    if s.place[p].Running? then s.(current := null, place := s.place[p := Limbo])
    else if s.place[p].Ready? then s.(ready := Minus(s.ready, {p}), place := s.place[p := Limbo])
    else if s.place[p].Waits? then Refund(Machine.OutBlocked(s, s.place[p].a, p), s.place[p].a)
    else s
  }

  lemma UnlistedKill(s: State, p: Pcb)
    requires p in s.place && s.status == Active && KillOne(s, p).status == Active
    requires !s.place[p].Free? && !s.place[p].Limbo? && (s.place[p].Waits? ==> s.place[p].a in s.blocked)
    requires p == s.current <==> s.place[p].Running?
    requires p in s.ready <==> s.place[p].Ready?
    ensures KillOne(s, p) == Release(Unlisted(s, p), p)
    ensures Unlisted(s, p).place == s.place[p := Limbo] && Unlisted(s, p).tree == s.tree
  {
    hide Finds, Minus, Release, Refund, Machine.OutBlocked;
    if s.place[p].Waits? { UnlistedWaiter(s, p, s.place[p].a); }
  }

  lemma UnlistedWaiter(s: State, p: Pcb, a: Addr)
    requires a in s.blocked
    ensures var n := Refund(Machine.OutBlocked(s, a, p), a); n.place == s.place[p := Limbo] && n.tree == s.tree
  {
    hide Minus, Bump;
  }

  /* ------------------------------------------------ interrupts */

  /** s after a device has woken its first waiter; if there is none, it owes one wake-up less. */
  function Answered(s: State, a: Addr): State
    requires a in s.blocked
  {
    var (p, n) := RemoveBlocked(s, a);
    if p == null then n.(owed := Bump(n.owed, a, -1)) else InsertReady(n.(sftBlkCnt := n.sftBlkCnt - 1), p)
  }

  lemma InterruptAnswers(s: State, a: Addr)
    requires a in s.value && a in s.blocked
    ensures var n := s.(value := s.value[a := s.value[a] + 1]);
            var m := if n.value[a] > 0 then n else Answered(n, a);
            && Interrupt(s, a) == Resume(m)
            && m.status == s.status && m.waiting == s.waiting && m.current == s.current
  {
    hide Resume, Scheduler, Bump;
  }

  lemma WaitBlocks(s: State, a: Addr)
    requires a in s.value && a in s.blocked && s.current != null
    ensures var n := s.(value := s.value[a := s.value[a] - 1]);
            WaitDevice(s, a) == if n.value[a] < 0 then
                                  Scheduler(Block(n, a).(sftBlkCnt := Block(n, a).sftBlkCnt + 1))
                                else n
  {
    hide Scheduler, Block;
  }

  /* ------------------------------------------------ waking everyone */

  /** s after the first i waiters of a have been made ready. */
  function Roused(s: State, a: Addr, i: nat): State
    requires a in s.blocked && i <= |s.blocked[a]|
  {
    var q := s.blocked[a];
    s.(blocked := s.blocked[a := q[i..]],
    place := map p | p in s.place :: if p in q[..i] then Ready else s.place[p],
    ready := s.ready + q[..i], sftBlkCnt := s.sftBlkCnt - i)
  }

  lemma RousedStep(s: State, a: Addr, i: nat)
    requires a in s.blocked && i < |s.blocked[a]| && s.blocked[a][i] in s.place
    ensures var (p, n) := RemoveBlocked(Roused(s, a, i), a);
            && p == s.blocked[a][i] && p in n.place && n.place[p] == Limbo
            && InsertReady(n.(sftBlkCnt := n.sftBlkCnt - 1), p) == Roused(s, a, i + 1)
  {
    var q := s.blocked[a];
    assert q[..i + 1] == q[..i] + [q[i]];
    assert q[i..][1..] == q[i + 1..];
  }

  lemma RousedQueues(s: State, a: Addr, i: nat)
    requires a in s.blocked && i <= |s.blocked[a]|
    ensures var n := Roused(s, a, i);
            && n.blocked.Keys == s.blocked.Keys && n.blocked[a] == s.blocked[a][i..]
            && n.value == s.value && n.owed == s.owed
  {
  }

  lemma RousedAll(s: State, a: Addr)
    requires a in s.blocked && a in s.value && a in s.owed
    ensures Roused(s, a, 0) == s
    ensures var n := Roused(s, a, |s.blocked[a]|);
            n.(value := n.value[a := 0], owed := n.owed[a := 0]) == Ticked(s, a)
  {
    var q := s.blocked[a];
    assert q[..|q|] == q && q[|q|..] == [] && q[..0] == [] && q[0..] == q;
    assert s.blocked[a := q] == s.blocked;
  }

  /* ------------------------------------------------ leaving the queues */

  lemma OutReadyOrdered(s: State, p: Pcb)
    requires Ordered(s) && p in s.ready
    ensures Ordered(s.(ready := Minus(s.ready, {p}), place := s.place[p := Limbo]))
  {
    var n := s.(ready := Minus(s.ready, {p}), place := s.place[p := Limbo]);
    MinusDistinct(s.ready, {p});
    forall q | q in n.place ensures Holds(n.free, n.ready, n.current, n.blocked, q, n.place[q]) {
      assert Holds(s.free, s.ready, s.current, s.blocked, q, s.place[q]);
    }
  }

  lemma VacateOrdered(s: State)
    requires Ordered(s) && s.current != null
    ensures Ordered(s.(current := null, place := s.place[s.current := Limbo]))
  {
    var n := s.(current := null, place := s.place[s.current := Limbo]);
    forall q | q in n.place ensures Holds(n.free, n.ready, n.current, n.blocked, q, n.place[q]) {
      assert Holds(s.free, s.ready, s.current, s.blocked, q, s.place[q]);
    }
  }

  lemma OutBlockedOrdered(s: State, a: Addr, p: Pcb)
    requires Ordered(s) && a in s.blocked && p in s.place && s.place[p] == Waits(a)
    ensures Ordered(Machine.OutBlocked(s, a, p))
  {
    var n := Machine.OutBlocked(s, a, p);
    MinusDistinct(s.blocked[a], {p});
    assert Listed(n.place, n.blocked[a], Waits(a));
    forall q | q in n.place ensures Holds(n.free, n.ready, n.current, n.blocked, q, n.place[q]) {
      assert Holds(s.free, s.ready, s.current, s.blocked, q, s.place[q]);
    }
  }

  lemma FreedOrdered(s: State, p: Pcb)
    requires Ordered(s) && p in s.place && s.place[p].Limbo?
    ensures Ordered(s.(free := [p] + s.free, place := s.place[p := Free]))
  {
    var n := s.(free := [p] + s.free, place := s.place[p := Free]);
    assert Listed(n.place, n.free, Free);
    forall q | q in n.place ensures Holds(n.free, n.ready, n.current, n.blocked, q, n.place[q]) {
      assert Holds(s.free, s.ready, s.current, s.blocked, q, s.place[q]);
    }
  }

  /* ------------------------------------------------ start-up */

  /** Nobody lives yet. */
  ghost function Unborn(base: int, scan: Scan, pcbs: seq<Pcb>, value: map<Addr, int>): State {
    State(base, scan, pcbs, [], null, map a | a in value :: [], map q | q in pcbs :: Free,
          Tree(map[], map[], map[], 0), null,
          value, map a | a in value :: 0, 0, 0, false, Active, 0)
  }

  lemma UnbornOrdered(base: int, scan: Scan, pcbs: seq<Pcb>, value: map<Addr, int>)
    requires Distinct(pcbs) && NULL_ADDR !in value
    ensures Ordered(Unborn(base, scan, pcbs, value))
  {
  }

  lemma UnbornCount(pcbs: seq<Pcb>, place: map<Pcb, Place>)
    requires Distinct(pcbs) && place.Keys == Elements(pcbs)
    ensures |place| == |pcbs|
  {
    DistinctCardinality(pcbs);
    assert |place| == |place.Keys|;
  }

  lemma Nobody()
    ensures Kinship(map[], map[]) && Ring(null, [])
  {
  }

  lemma UnbornKnown(base: int, scan: Scan, pcbs: seq<Pcb>, value: map<Addr, int>)
    ensures var n := Unborn(base, scan, pcbs, value);
            AllKnown(n) && Busy(n.blocked) == map[] && n.place.Keys == Elements(pcbs)
  {
  }

  lemma UnbornLists(base: int, scan: Scan, pcbs: seq<Pcb>, value: map<Addr, int>)
    requires Distinct(pcbs) && NULL_ADDR !in value
    ensures var n := Unborn(base, scan, Reverse(pcbs), value);
            Ordered(n) && AllKnown(n) && Busy(n.blocked) == map[] && |n.place| == |pcbs|
            && forall q | q in n.place :: q in pcbs && n.place[q] == Free
  {
    hide Distinct, Apart, InPlace, Reverse, AllKnown, Busy;
    ReverseDistinct(pcbs);
    ReverseMembers(pcbs);
    UnbornKnown(base, scan, Reverse(pcbs), value);
    UnbornOrdered(base, scan, Reverse(pcbs), value);
    UnbornCount(Reverse(pcbs), Unborn(base, scan, Reverse(pcbs), value).place);
  }

  /** Nobody waits. */
  lemma UnbornLinks(asl: Asl, s: State)
    requires asl.Valid() && asl.queues == map[] && asl.capacity == |s.place| && Busy(s.blocked) == map[]
    requires forall p | p in s.place :: s.place[p] == Free && p.semAdd == NULL_ADDR
    ensures Waiters(asl, s.blocked, |s.place|) && Tagged(s.place)
  {
  }

  /** The device semaphores are there, and lie in memory below NULL. */
  ghost predicate Wireable(base: int, value: map<Addr, int>) {
    && 0 <= base && base + 4 * DEVICECNT <= NULL_ADDR
    && forall i | 0 <= i < DEVICECNT :: DeviceAdd(base, i) in value
  }

  /** The first n device semaphores are zero. */
  function Zeroed(base: int, value: map<Addr, int>, n: nat): map<Addr, int> {
    map a | a in value :: if base <= a < base + 4 * n && (a - base) % 4 == 0 then 0 else value[a]
  }

  lemma ZeroedNone(base: int, value: map<Addr, int>)
    ensures Zeroed(base, value, 0) == value
  {
  }

  lemma ZeroedNext(base: int, value: map<Addr, int>, n: nat)
    requires Wireable(base, value) && n < DEVICECNT
    ensures DeviceAdd(base, n) in Zeroed(base, value, n)
    ensures Zeroed(base, value, n)[DeviceAdd(base, n) := 0] == Zeroed(base, value, n + 1)
  {
    var a := DeviceAdd(base, n);
    assert a in value && (a - base) % 4 == 0;
  }

  lemma UnchangedAt(m: map<Addr, int>, a: Addr, x: int)
    requires a in m && m[a] == x
    ensures m[a := x] == m
  {
  }

  lemma RootLists(s: State, p: Pcb)
    requires AllKnown(s) && p in s.place && p.parent == null && p.child == null
    ensures AllKnown(s.(tree := Root(p), root := p))
    ensures Kinship(map[p := []], map[p := null])
  {
  }

  function Root(p: Pcb): Tree {
    Tree(map[p := []], map[p := null], map[p := 0], 1)
  }

  /** From nobody to the one process main makes. */
  lemma BootSteps(base: int, scan: Scan, pcbs: seq<Pcb>, value: map<Addr, int>, v: map<Addr, int>)
    requires pcbs != [] && Distinct(pcbs) && v.Keys == value.Keys
    ensures var (p, n) := Machine.AllocPcb(Unborn(base, scan, pcbs, value).(value := v));
            && p == pcbs[0] && p in n.place && n.place[p].Limbo?
            && InsertReady(n.(tree := Root(p), root := p), p).(procCnt := 1) == Boot(base, scan, pcbs, v)
  {
    var p := pcbs[0];
    var b := Boot(base, scan, pcbs, v);
    assert (map a | a in value :: []) == b.blocked && (map a | a in value :: 0) == b.owed;
    assert (map q | q in pcbs :: Free)[p := Limbo][p := Ready] == b.place;
    assert [] + [p] == [p];
  }

  lemma ZeroedDevices(base: int, value: map<Addr, int>)
    requires Wireable(base, value)
    ensures var v := Zeroed(base, value, DEVICECNT);
            && v.Keys == value.Keys
            && forall i | 0 <= i < DEVICECNT :: DeviceAdd(base, i) in v && v[DeviceAdd(base, i)] == 0
  {
    forall i | 0 <= i < DEVICECNT
      ensures DeviceAdd(base, i) in value && (DeviceAdd(base, i) - base) % 4 == 0
    {
    }
  }

  lemma WireableBelow(base: int, value: map<Addr, int>)
    requires Wireable(base, value)
    ensures 0 <= base && base + 4 * DEVICECNT <= NULL_ADDR
  {
  }

  lemma BootStatus(base: int, scan: Scan, pcbs: seq<Pcb>, value: map<Addr, int>)
    requires pcbs != []
    ensures Boot(base, scan, pcbs, value).current == null && Boot(base, scan, pcbs, value).status == Active
  {
  }
}
