/**
 The nucleus itself: the pointers, counters and semaphore cells that its handlers work on. Every
 handler does to the pointers what its namesake in the state machine does to the lists.
 */
module NucleusCode {
  import opened Pcbs
  import opened Seqs
  import opened Family
  import opened Machine
  import opened Killing
  import opened Steps
  import opened Runs
  import opened Strays
  import opened Culling
  import opened ProcQ
  import opened PcbLists
  import opened ActiveSemaphoreList
  import opened Links
  import opened Interrupts

  /** initPcbs and initASL: everybody is free, and nobody waits. */
  method SetUp(ghost base: int, ghost scan: Scan, pcbs: array<Pcb>, semds: array<Semd>, ghost memory: map<Addr, int>)
    returns (h: Pcb?, asl: Asl)
    requires Distinct(pcbs[..]) && Distinct(semds[..]) && semds.Length == pcbs.Length + 2 && NULL_ADDR !in memory
    modifies set p | p in pcbs[..]
    modifies set d | d in semds[..]
    ensures pcbs[..] == old(pcbs[..]) && asl.queues == map[]
    ensures var n := Unborn(base, scan, Reverse(pcbs[..]), memory);
            && Ordered(n) && AllKnown(n)
            && Chain(h, n.free) && Ring(null, n.ready)
            && Waiters(asl, n.blocked, |n.place|) && Tagged(n.place)
            && Kinship(n.tree.kids, n.tree.parent)
  {
    hide Ordered, AllKnown, Chain, Ring, Kinship, Waiters, Tagged, Asl.Valid, Reverse, Distinct;
    h := InitPcbs(pcbs);
    asl := new Asl(semds);
    UnbornLists(base, scan, pcbs[..], memory);
    UnbornLinks(asl, Unborn(base, scan, Reverse(pcbs[..]), memory));
    Nobody();
  }

  class Nucleus {
    const devBase: int
    const scan: Scan
    const asl: Asl
    var pcbFree: Pcb?
    var readyQue: Pcb?
    var currentProc: Pcb?
    var procCnt: int
    var sftBlkCnt: int
    var waiting: bool
    var status: Status
    var sem: map<Addr, int>
    ghost var s: State

    /**
     The first half of main: the tables are set up, and the variables of the nucleus. memory is what
     the semaphores hold, those of the devices still anything at all.
     */
    constructor (devBase: int, scan: Scan, pcbs: array<Pcb>, semds: array<Semd>, memory: map<Addr, int>)
      requires Distinct(pcbs[..]) && Distinct(semds[..]) && semds.Length == pcbs.Length + 2 && NULL_ADDR !in memory
      modifies set p | p in pcbs[..]
      modifies set d | d in semds[..]
      ensures Represents() && s == Unborn(devBase, scan, Reverse(pcbs[..]), memory)
    {
      hide Ordered, AllKnown, Chain, Ring, Kinship, Waiters, Tagged, Asl.Valid, Reverse, Distinct;
      var h, a := SetUp(devBase, scan, pcbs, semds, memory);
      this.devBase, this.scan, asl := devBase, scan, a;
      pcbFree := h;
      procCnt := 0;
      sftBlkCnt := 0;
      readyQue := null;
      currentProc := null;
      waiting, status, sem := false, Active, memory;
      s := Unborn(devBase, scan, Reverse(pcbs[..]), memory);
    }

    /** The scalars are those of n. */
    ghost predicate Cells(n: State)
      reads this
    {
      && n.devBase == devBase && n.scan == scan && n.current == currentProc
      && n.procCnt == procCnt && n.sftBlkCnt == sftBlkCnt && n.waiting == waiting
      && n.status == status && n.value == sem
    }

    /** The pointers are those of the lists of n. */
    ghost predicate Lists(n: State)
      reads this, asl, asl.table, n.place.Keys, Members(asl.queues)
    {
      && Ordered(n) && AllKnown(n)
      && Chain(pcbFree, n.free)
      && Ring(readyQue, n.ready)
      && Waiters(asl, n.blocked, |n.place|)
      && Tagged(n.place)
      && Kinship(n.tree.kids, n.tree.parent)
    }

    ghost predicate Represents()
      reads this, asl, asl.table, s.place.Keys, Members(asl.queues)
    {
      Cells(s) && Lists(s)
    }

    /** The ghost state catches up with the pointers. */
    ghost method Record(n: State)
      requires Cells(n) && Lists(n) && n.place.Keys == s.place.Keys
      modifies this`s
      ensures Represents() && s == n && Frame() == old(Frame())
    {
      hide Apart, InPlace, Chain, Ring, Waiters, Tagged, Kinship;
      s := n;
    }

    /** The processor is p's now, or nobody's; n is the state with that. */
    method SetCurrent(p: Pcb?, ghost n: State)
      requires Lists(n) && n.place.Keys == s.place.Keys && n.current == p && Cells(n.(current := currentProc))
      modifies this`currentProc, this`s
      ensures Represents() && s == n && Frame() == old(Frame()) && currentProc == p
    {
      hide Apart, InPlace, Chain, Ring, Waiters, Tagged, Kinship, Closed;
      currentProc := p;
      s := n;
    }

    ghost function Frame(): set<object>
      reads this
    {
      {this, asl} + asl.table + s.place.Keys
    }

    /* ------------------------------------------------ pointer changes, seen from all lists */

    /** insertProcQ on the ready queue. */
    method LinkReady(p: Pcb)
      requires Lists(s) && p in s.place && (s.place[p].Limbo? || s.place[p].Running?)
      modifies this`readyQue, p`next, p`prev, Elements(s.ready)`next, Elements(s.ready)`prev
      ensures Chain(pcbFree, s.free) && Ring(readyQue, s.ready + [p]) && Waiters(asl, s.blocked, |s.place|)
      ensures Tagged(s.place) && Kinship(s.tree.kids, s.tree.parent)
    {
      hide Apart, InPlace, Ring, Kinship, Tagged, Chain, Busy, asl.Valid;
      Places(s);
      readyQue := asl.InsertElsewhere(readyQue, p, s.ready);
    }

    /** removeProcQ on the ready queue. */
    method UnlinkHead() returns (p: Pcb?)
      requires Lists(s)
      modifies this`readyQue, Elements(s.ready)`next, Elements(s.ready)`prev
      ensures Chain(pcbFree, s.free) && Waiters(asl, s.blocked, |s.place|)
      ensures Tagged(s.place) && Kinship(s.tree.kids, s.tree.parent)
      ensures s.ready == [] ==> p == null && Ring(readyQue, s.ready)
      ensures s.ready != [] ==> p == s.ready[0] && Ring(readyQue, s.ready[1..])
    {
      hide Apart, InPlace, Kinship, Tagged, Chain, Busy, asl.Valid;
      Places(s);
      readyQue, p := asl.RemoveElsewhere(readyQue, s.ready);
    }

    /** outProcQ on the ready queue. */
    method UnlinkReady(p: Pcb) returns (out: Pcb?)
      requires Lists(s)
      modifies this`readyQue, Elements(s.ready)`next, Elements(s.ready)`prev
      ensures Chain(pcbFree, s.free) && Waiters(asl, s.blocked, |s.place|)
      ensures Tagged(s.place) && Kinship(s.tree.kids, s.tree.parent)
      ensures Finds(scan, s.ready, p) ==> out == p && Ring(readyQue, Minus(s.ready, {p}))
      ensures !Finds(scan, s.ready, p) ==> out == null && Ring(readyQue, s.ready)
    {
      hide Apart, InPlace, Ring, Kinship, Tagged, Chain, Busy, asl.Valid, Minus, Finds;
      Places(s);
      readyQue, out := asl.OutElsewhere(readyQue, p, scan, s.ready);
    }

    /** insertBlocked, with a descriptor at hand. */
    method LinkBlocked(a: Addr, p: Pcb)
      requires Lists(s) && p in s.place && (s.place[p].Limbo? || s.place[p].Running?) && a in s.blocked
      requires |ActiveSemaphores(s.blocked)| < |s.place|
      modifies asl, asl.table, p`next, p`prev, p`semAdd
      modifies Elements(s.blocked[a])`next, Elements(s.blocked[a])`prev
      ensures Chain(pcbFree, s.free) && Ring(readyQue, s.ready) && Kinship(s.tree.kids, s.tree.parent)
      ensures Waiters(asl, s.blocked[a := s.blocked[a] + [p]], |s.place|) && Tagged(s.place[p := Waits(a)])
    {
      hide Apart, InPlace, Ring, Kinship, Chain, Busy, asl.Valid;
      Places(s);
      WaitersPlaces(s, a);
      BusySet(s.blocked, a, s.blocked[a] + [p]);
      IdleLeft();
      var fail := asl.InsertBlocked(a, p);
    }

    lemma IdleLeft()
      requires Waiters(asl, s.blocked, |s.place|) && |ActiveSemaphores(s.blocked)| < |s.place|
      ensures asl.idle != []
    {
      assert Busy(s.blocked).Keys == ActiveSemaphores(s.blocked);
    }

    /** removeBlocked. */
    method UnlinkFirst(a: Addr) returns (p: Pcb?)
      requires Lists(s) && a in s.blocked
      modifies asl, asl.table
      modifies Elements(s.blocked[a])`next, Elements(s.blocked[a])`prev, Head(s.blocked[a])`semAdd
      ensures Chain(pcbFree, s.free) && Ring(readyQue, s.ready) && Kinship(s.tree.kids, s.tree.parent)
      ensures s.blocked[a] == [] ==> p == null && Waiters(asl, s.blocked, |s.place|) && Tagged(s.place)
      ensures s.blocked[a] != [] ==>
                && p == s.blocked[a][0] && Tagged(s.place[p := Limbo])
                && Waiters(asl, s.blocked[a := s.blocked[a][1..]], |s.place|)
    {
      hide Apart, InPlace, Ring, Kinship, Chain, Busy, asl.Valid;
      Places(s);
      WaitersPlaces(s, a);
      if s.blocked[a] != [] {
        BusySet(s.blocked, a, s.blocked[a][1..]);
      }
      p := asl.RemoveBlocked(a);
    }

    /** outBlocked of a process that outProcQ finds. */
    method UnlinkBlocked(p: Pcb, ghost a: Addr) returns (out: Pcb?)
      requires Lists(s) && p in s.place && s.place[p] == Waits(a) && a in s.blocked && Finds(scan, s.blocked[a], p)
      modifies asl, asl.table, p`semAdd, Elements(s.blocked[a])`next, Elements(s.blocked[a])`prev
      ensures Chain(pcbFree, s.free) && Ring(readyQue, s.ready) && Kinship(s.tree.kids, s.tree.parent)
      ensures out == p && Tagged(s.place[p := Limbo])
      ensures Waiters(asl, s.blocked[a := Minus(s.blocked[a], {p})], |s.place|)
    {
      hide Apart, InPlace, Ring, Kinship, Chain, Busy, asl.Valid, Minus;
      Places(s);
      WaitersPlaces(s, a);
      BusySet(s.blocked, a, Minus(s.blocked[a], {p}));
      var fault;
      out, fault := asl.OutBlocked(p, scan);
    }

    /** freePcb of a process that is nobody's child. */
    method LinkFree(p: Pcb)
      requires Lists(s) && p in s.place && s.place[p].Limbo? && p !in Offspring(s.tree.kids)
      modifies this`pcbFree, p
      ensures Chain(pcbFree, [p] + s.free) && Ring(readyQue, s.ready) && Waiters(asl, s.blocked, |s.place|)
      ensures Tagged(s.place[p := Free]) && Kinship(s.tree.kids - {p}, s.tree.parent - {p})
    {
      hide Apart, InPlace, Ring, Siblings, Chain, Busy, asl.Valid;
      Places(s);
      ghost var kids := s.tree.kids;
      pcbFree := asl.FreeElsewhere(pcbFree, p, s.free);
      forall q | q in kids && q != p ensures Siblings(q.child, kids[q]) {
        assert old(Siblings(q.child, kids[q]));
      }
    }

    /** allocPcb. */
    method UnlinkFree() returns (p: Pcb?)
      requires Lists(s) && forall q | q in s.free :: q !in s.tree.kids && q !in Offspring(s.tree.kids)
      modifies this`pcbFree, Head(s.free)
      ensures Ring(readyQue, s.ready) && Waiters(asl, s.blocked, |s.place|) && Kinship(s.tree.kids, s.tree.parent)
      ensures s.free == [] ==> p == null && Chain(pcbFree, s.free) && Tagged(s.place)
      ensures s.free != [] ==> p == s.free[0] && Chain(pcbFree, s.free[1..]) && Blank(p) && Tagged(s.place[p := Limbo])
    {
      hide Apart, InPlace, Ring, Kinship, Offspring, Busy, asl.Valid, IsReset;
      Places(s);
      assert forall q | q in s.tree.kids :: allocated(q);
      assert forall q | q in Offspring(s.tree.kids) :: allocated(q);
      pcbFree, p := asl.AllocElsewhere(pcbFree, s.free);
    }

    /* ------------------------------------------------ one list operation each */

    /** What a move of p needs in order to be recorded. */
    ghost predicate Recordable(n: State, p: Pcb)
      reads this, s.place.Keys`semAdd, n.place.Keys`semAdd
    {
      && Ordered(n) && AllKnown(n)
      && n.place.Keys == s.place.Keys && |n.place| == |s.place|
      && (Tagged(s.place) && p in s.place && p in n.place && SemAddOf(n.place[p]) == SemAddOf(s.place[p]) ==>
            Tagged(n.place))
    }

    lemma PutReadyLists(p: Pcb)
      requires Ordered(s) && AllKnown(s) && p in s.place && s.place[p].Limbo?
      ensures Recordable(InsertReady(s, p), p) && forall q | q in s.ready :: q in s.place
    {
      InsertReadyOrdered(s, p);
      Moved(s.place, p, Ready);
    }

    /** p, which is in no list, goes to the tail of the ready queue. */
    method PutReady(p: Pcb)
      requires Represents() && p in s.place && s.place[p].Limbo?
      modifies Frame()
      ensures Represents() && s == InsertReady(old(s), p) && Frame() == old(Frame())
    {
      hide Ordered, AllKnown, Chain, Ring, Waiters, Kinship, Closed, Tagged;
      PutReadyLists(p);
      LinkReady(p);
      Record(InsertReady(s, p));
    }

    lemma PutBackLists()
      requires Ordered(s) && AllKnown(s) && s.current != null
      ensures Recordable(Preempt(s), s.current) && forall q | q in s.ready :: q in s.place
      ensures s.current in s.place && s.place[s.current].Running?
      ensures Preempt(s) == s.(ready := s.ready + [s.current], place := s.place[s.current := Ready], current := null)
    {
      Places(s);
      PreemptOrdered(s);
      Moved(s.place, s.current, Ready);
    }

    /** The running process goes to the tail of the ready queue. */
    method PutBack()
      requires Represents() && currentProc != null
      modifies Frame()
      ensures Represents() && s == Preempt(old(s)) && Frame() == old(Frame())
      ensures currentProc == null && s.status == old(s).status
    {
      hide Ordered, AllKnown, Chain, Ring, Waiters, Kinship, Closed, Tagged, Preempt;
      PutBackLists();
      LinkReady(currentProc);
      SetCurrent(null, Preempt(s));
    }

    lemma BlockLists(a: Addr)
      requires Ordered(s) && AllKnown(s) && s.current != null && a in s.blocked
      ensures Recordable(Block(s, a), s.current) && |ActiveSemaphores(s.blocked)| < |s.place|
      ensures s.current in s.place && s.place[s.current].Running?
      ensures Block(s, a) == s.(blocked := s.blocked[a := s.blocked[a] + [s.current]],
                             place := s.place[s.current := Waits(a)], current := null)
      ensures forall p | p in s.blocked[a] :: p in s.place
    {
      Places(s);
      WaitersPlaces(s, a);
      DescriptorLeft(s);
      BlockOrdered(s, a);
      Moved(s.place, s.current, Waits(a));
    }

    /** The running process waits for a. */
    method BlockRunning(a: Addr)
      requires Represents() && currentProc != null && a in s.blocked
      modifies Frame()
      ensures Represents() && Frame() == old(Frame()) && s == Block(old(s), a)
      ensures currentProc == null && s.status == old(s).status && s.value == old(s).value
    {
      hide Ordered, AllKnown, Chain, Ring, Waiters, Kinship, Closed, Tagged, ActiveSemaphores, Block;
      BlockLists(a);
      LinkBlocked(a, currentProc);
      SetCurrent(null, Block(s, a));
    }

    lemma WakeLists(a: Addr)
      requires Ordered(s) && AllKnown(s) && a in s.blocked
      ensures s.blocked[a] != [] ==> Recordable(RemoveBlocked(s, a).1, s.blocked[a][0])
      ensures forall p | p in s.blocked[a] :: p in s.place
    {
      WaitersPlaces(s, a);
      RemoveBlockedOrdered(s, a);
      if s.blocked[a] != [] {
        Moved(s.place, s.blocked[a][0], Limbo);
      }
    }

    /** The first waiter of a, if there is one, leaves its queue. */
    method WakeFirst(a: Addr) returns (p: Pcb?)
      requires Represents() && a in s.blocked
      modifies Frame()
      ensures Represents() && Frame() == old(Frame())
      ensures p == RemoveBlocked(old(s), a).0 && s == RemoveBlocked(old(s), a).1
    {
      hide Ordered, AllKnown, Chain, Ring, Waiters, Kinship, Closed, Tagged;
      WakeLists(a);
      p := UnlinkFirst(a);
      Record(RemoveBlocked(s, a).1);
    }

    /** (*sem) += d. */
    method Signal(a: Addr, d: int)
      requires Represents() && a in sem
      modifies this`sem, this`s
      ensures Represents() && Frame() == old(Frame()) && s == old(s).(value := old(sem)[a := old(sem)[a] + d])
    {
      hide Apart, InPlace, Chain, Ring, Waiters, Kinship, Closed, Tagged;
      sem := sem[a := sem[a] + d];
      Record(s.(value := sem));
    }

    /** Processes are created, or killed; processes start to wait for a device, or stop. */
    method Count(procs: int, softs: int)
      requires Represents()
      modifies this`procCnt, this`sftBlkCnt, this`s
      ensures Represents() && Frame() == old(Frame())
      ensures s == old(s).(procCnt := old(s).procCnt + procs, sftBlkCnt := old(s).sftBlkCnt + softs)
    {
      hide Apart, InPlace, Chain, Ring, Waiters, Kinship, Closed, Tagged;
      procCnt, sftBlkCnt := procCnt + procs, sftBlkCnt + softs;
      Record(s.(procCnt := procCnt, sftBlkCnt := sftBlkCnt));
    }

    /** The machine stops, or waits, or neither. */
    method Rest(status: Status, waiting: bool, ghost dispatches: nat)
      requires Represents()
      modifies this`status, this`waiting, this`s
      ensures Represents() && Frame() == old(Frame())
      ensures s == old(s).(status := status, waiting := waiting, dispatches := dispatches)
    {
      hide Apart, InPlace, Chain, Ring, Waiters, Kinship, Closed, Tagged;
      this.status, this.waiting := status, waiting;
      Record(s.(status := status, waiting := waiting, dispatches := dispatches));
    }

    /* ------------------------------------------------ one tree operation each */

    lemma AllocLists()
      requires Ordered(s) && AllKnown(s)
      ensures s.free == [] ==> Machine.AllocPcb(s) == (null, s)
      ensures s.free != [] ==>
                && Machine.AllocPcb(s) == (s.free[0], s.(free := s.free[1..], place := s.place[s.free[0] := Limbo]))
                && Recordable(Machine.AllocPcb(s).1, s.free[0])
                && s.free[0] in s.place && s.place[s.free[0]].Free?
    {
      if s.free != [] {
        Places(s);
        AllocOrdered(s);
        Moved(s.place, s.free[0], Limbo);
      }
    }

    /** The first free process, if there is one, with all its links cleared. */
    method Alloc() returns (p: Pcb?)
      requires Represents() && forall q | q in s.free :: q !in s.tree.kids && q !in Offspring(s.tree.kids)
      modifies Frame()
      ensures Represents() && Frame() == old(Frame())
      ensures p == Machine.AllocPcb(old(s)).0 && s == Machine.AllocPcb(old(s)).1
      ensures p != null ==> p.sib == null && p.child == null && p.parent == null
    {
      hide Ordered, AllKnown, Chain, Ring, Waiters, Kinship, Closed, Tagged, Machine.AllocPcb;
      AllocLists();
      p := UnlinkFree();
      Record(Machine.AllocPcb(s).1);
    }

    lemma AdoptLists(p: Pcb)
      requires AllKnown(s) && s.current != null && s.current in s.tree.kids && p in s.place
      ensures AllKnown(s.(tree := Adopt(s.tree, s.current, p))) && s.current in s.place
    {
    }

    /** insertChild of a process without any links. */
    method LinkChild(p: Pcb)
      requires Lists(s) && currentProc != null && currentProc in s.tree.kids
      requires p !in s.tree.kids && p !in Offspring(s.tree.kids) && p.sib == null && p.child == null
      modifies p`parent, p`sib, currentProc`child
      ensures Chain(pcbFree, s.free) && Ring(readyQue, s.ready) && Waiters(asl, s.blocked, |s.place|) && Tagged(s.place)
      ensures Kinship(Adopt(s.tree, currentProc, p).kids, Adopt(s.tree, currentProc, p).parent)
    {
      hide Ordered, AllKnown, Chain, Ring, Waiters, Kinship, Tagged, Adopt, Offspring;
      assert forall q | q in Members(asl.queues) :: allocated(q);
      assert forall q | q in asl.table :: allocated(q);
      GrowTree(currentProc, p, s.tree);
    }

    /** The new process becomes the first child of the running one. */
    method AdoptChild(p: Pcb)
      requires Represents() && currentProc != null && currentProc in s.tree.kids && p in s.place
      requires p !in s.tree.kids && p !in Offspring(s.tree.kids) && p.sib == null && p.child == null
      modifies Frame()
      ensures Represents() && Frame() == old(Frame()) && s == old(s).(tree := Adopt(old(s).tree, old(s).current, p))
    {
      hide Apart, InPlace, Chain, Ring, Waiters, Kinship, Closed, Tagged, Adopt;
      AdoptLists(p);
      LinkChild(p);
      Record(s.(tree := Adopt(s.tree, s.current, p)));
    }

    /** removeChild. */
    method UnlinkChild(p: Pcb) returns (c: Pcb?)
      requires Lists(s) && p in s.tree.kids && p !in s.tree.kids[p]
      requires s.tree.kids[p] != [] ==> s.tree.kids[p][0] in s.tree.kids
      requires OneParent(s.tree.kids)
      modifies p`child, Head(s.tree.kids[p])`parent
      ensures Chain(pcbFree, s.free) && Ring(readyQue, s.ready) && Waiters(asl, s.blocked, |s.place|) && Tagged(s.place)
      ensures s.tree.kids[p] == [] ==> c == null && Kinship(s.tree.kids, s.tree.parent)
      ensures s.tree.kids[p] != [] ==>
                c == s.tree.kids[p][0] && Kinship(DropFirst(s.tree, p).kids, DropFirst(s.tree, p).parent)
    {
      hide Ordered, AllKnown, Chain, Ring, Waiters, Kinship, Tagged, DropFirst, OneParent;
      assert forall q | q in Members(asl.queues) :: allocated(q);
      assert forall q | q in asl.table :: allocated(q);
      c := ThinTree(p, s.tree);
    }

    /** outChild. */
    method UnlinkSibling(p: Pcb)
      requires Lists(s) && p in s.tree.kids && p in s.tree.parent && OneParent(s.tree.kids)
      requires var r := s.tree.parent[p];
               r != null ==> r in s.tree.kids && r != p && p in s.tree.kids[r] && r !in s.tree.kids[r]
      modifies p`parent, Only(s.tree.parent[p])`child
      modifies Elements(Kids(s.tree.kids, s.tree.parent[p]))`sib
      ensures Chain(pcbFree, s.free) && Ring(readyQue, s.ready) && Waiters(asl, s.blocked, |s.place|) && Tagged(s.place)
      ensures Kinship(Detach(s.tree, p).kids, Detach(s.tree, p).parent)
    {
      hide Ordered, AllKnown, Chain, Ring, Waiters, Kinship, Tagged, Detach, OneParent;
      assert forall q | q in Members(asl.queues) :: allocated(q);
      assert forall q | q in asl.table :: allocated(q);
      SplitTree(p, s.tree);
    }

    lemma LeaveLists(p: Pcb)
      requires AllKnown(s) && p in s.tree.kids && p in s.tree.parent
      requires s.tree.parent[p] != null ==> s.tree.parent[p] in s.tree.kids
      ensures p in s.place && (s.tree.parent[p] != null ==> s.tree.parent[p] in s.place)
      ensures forall c | c in Kids(s.tree.kids, s.tree.parent[p]) :: c in s.place
      ensures AllKnown(s.(tree := Detach(s.tree, p)))
    {
      assert forall c | c in Kids(s.tree.kids, s.tree.parent[p]) :: c in Offspring(s.tree.kids);
      var u := Detach(s.tree, p);
      forall c | c in Offspring(u.kids) ensures c in Offspring(s.tree.kids) {
        var q :| q in u.kids && c in u.kids[q];
        assert c in s.tree.kids[q];
      }
    }

    /** The process p leaves its parent, if it has one. */
    method LeaveParent(p: Pcb)
      requires Represents() && p in s.tree.kids && p in s.tree.parent && OneParent(s.tree.kids)
      requires var r := s.tree.parent[p];
               r != null ==> r in s.tree.kids && r != p && p in s.tree.kids[r] && r !in s.tree.kids[r]
      modifies Frame()
      ensures Represents() && Frame() == old(Frame()) && s == old(s).(tree := Detach(old(s).tree, p))
    {
      hide Apart, InPlace, Chain, Ring, Waiters, Kinship, Closed, Tagged, Detach, OneParent;
      LeaveLists(p);
      UnlinkSibling(p);
      Record(s.(tree := Detach(s.tree, p)));
    }

    /** outProcQ on the ready queue of a process that is there and found, or not there. */
    method OutReady(p: Pcb) returns (out: Pcb?)
      requires Represents() && p in s.place && (p in s.ready ==> Finds(scan, s.ready, p))
      modifies Frame()
      ensures Represents() && Frame() == old(Frame())
      ensures p in old(s).ready ==>
                out == p && s == old(s).(ready := Minus(old(s).ready, {p}), place := old(s).place[p := Limbo])
      ensures p !in old(s).ready ==> out == null && s == old(s)
    {
      hide Apart, InPlace, Chain, Ring, Waiters, Kinship, Closed, Tagged, Minus;
      ReadyKnown();
      if p in s.ready {
        OutReadyLists(p);
      }
      out := UnlinkReady(p);
      ghost var was := s;
      Record(if p in s.ready then s.(ready := Minus(s.ready, {p}), place := s.place[p := Limbo]) else s);
    }

    lemma OutReadyLists(p: Pcb)
      requires Ordered(s) && AllKnown(s) && p in s.ready
      ensures var n := s.(ready := Minus(s.ready, {p}), place := s.place[p := Limbo]);
              Recordable(n, p) && p in s.place && s.place[p].Ready?
    {
      var n := s.(ready := Minus(s.ready, {p}), place := s.place[p := Limbo]);
      Places(s);
      Moved(s.place, p, Limbo);
      MinusDistinct(s.ready, {p});
      OutReadyOrdered(s, p);
    }

    /** outBlocked of a process that outProcQ finds. */
    method OutWaiting(p: Pcb, ghost a: Addr) returns (out: Pcb?)
      requires Represents() && p in s.place && s.place[p] == Waits(a) && a in s.blocked && Finds(scan, s.blocked[a], p)
      modifies Frame()
      ensures Represents() && Frame() == old(Frame()) && out == p && s == Machine.OutBlocked(old(s), a, p)
    {
      hide Apart, InPlace, Chain, Ring, Waiters, Kinship, Closed, Tagged, Minus;
      OutWaitingLists(p, a);
      out := UnlinkBlocked(p, a);
      Record(Machine.OutBlocked(s, a, p));
    }

    lemma OutWaitingLists(p: Pcb, a: Addr)
      requires Ordered(s) && AllKnown(s) && a in s.blocked && p in s.place && s.place[p] == Waits(a)
      ensures Recordable(Machine.OutBlocked(s, a, p), p) && forall q | q in s.blocked[a] :: q in s.place
    {
      WaitersPlaces(s, a);
      Moved(s.place, p, Limbo);
      OutBlockedOrdered(s, a, p);
    }

    /** A dead process joins the free list. */
    method Bury(p: Pcb)
      requires Represents() && p in s.place && s.place[p].Limbo? && p !in Offspring(s.tree.kids)
      modifies Frame()
      ensures Represents() && Frame() == old(Frame())
      ensures s == old(s).(free := [p] + old(s).free, place := old(s).place[p := Free], tree := Drop(old(s).tree, {p}))
    {
      hide Apart, InPlace, Chain, Ring, Waiters, Kinship, Closed, Tagged;
      BuryLists(p);
      LinkFree(p);
      Record(s.(free := [p] + s.free, place := s.place[p := Free], tree := Drop(s.tree, {p})));
    }

    lemma BuryLists(p: Pcb)
      requires Ordered(s) && AllKnown(s) && p in s.place && s.place[p].Limbo?
      ensures var n := s.(free := [p] + s.free, place := s.place[p := Free], tree := Drop(s.tree, {p}));
              Recordable(n, p)
    {
      Moved(s.place, p, Free);
      FreedOrdered(s, p);
    }

    /** The first child of p leaves it. */
    method OrphanFirst(p: Pcb) returns (c: Pcb?)
      requires Represents() && p in s.tree.kids && p !in s.tree.kids[p]
      requires s.tree.kids[p] != [] ==> s.tree.kids[p][0] in s.tree.kids
      requires OneParent(s.tree.kids)
      modifies Frame()
      ensures Represents() && Frame() == old(Frame())
      ensures old(s).tree.kids[p] == [] ==> c == null && s == old(s)
      ensures old(s).tree.kids[p] != [] ==>
                c == old(s).tree.kids[p][0] && s == old(s).(tree := DropFirst(old(s).tree, p))
    {
      hide Apart, InPlace, Chain, Ring, Waiters, Kinship, Closed, Tagged, DropFirst, OneParent;
      ghost var n := if s.tree.kids[p] == [] then s else s.(tree := DropFirst(s.tree, p));
      OrphanLists(p);
      c := UnlinkChild(p);
      Record(n);
    }

    lemma OrphanLists(p: Pcb)
      requires AllKnown(s) && p in s.tree.kids
      ensures p in s.place && forall c | c in s.tree.kids[p] :: c in s.place
      ensures s.tree.kids[p] != [] ==> AllKnown(s.(tree := DropFirst(s.tree, p)))
    {
      assert forall c | c in s.tree.kids[p] :: c in Offspring(s.tree.kids);
    }

    /* ------------------------------------------------ the scheduler */

    lemma DispatchLists()
      requires Ordered(s) && AllKnown(s) && s.current == null && s.ready != []
      ensures Recordable(Dispatch(s), s.ready[0]) && s.ready[0] in s.place && s.place[s.ready[0]].Ready?
      ensures Dispatch(s) == s.(current := s.ready[0], ready := s.ready[1..], place := s.place[s.ready[0] := Running])
    {
      Places(s);
      DispatchOrdered(s);
      Moved(s.place, s.ready[0], Running);
    }

    lemma ReadyKnown()
      requires AllKnown(s)
      ensures forall q | q in s.ready :: q in s.place
    {
    }

    /** The head of the ready queue becomes the running process. */
    method DispatchHead()
      requires Represents() && currentProc == null && s.ready != []
      modifies Frame()
      ensures Represents() && Frame() == old(Frame()) && s == Dispatch(old(s))
    {
      hide Ordered, AllKnown, Chain, Ring, Waiters, Kinship, Closed, Tagged, Dispatch;
      DispatchLists();
      ReadyKnown();
      var p := UnlinkHead();
      SetCurrent(p, Dispatch(s));
    }

    lemma ReadyIsRing()
      requires Lists(s)
      ensures readyQue == null <==> s.ready == []
    {
    }

    /** The next process runs, or the machine halts, panics, or waits. */
    method Scheduler()
      requires Represents() && currentProc == null && status == Active
      modifies Frame()
      ensures Represents() && s == Machine.Scheduler(old(s)) && Frame() == old(Frame())
    {
      hide Lists, Dispatch;
      Rest(status, false, s.dispatches + 1);
      ReadyIsRing();
      if readyQue != null {
        DispatchHead();
      } else {
        if procCnt == 0 {
          Rest(Halted, false, s.dispatches);
        } else if sftBlkCnt == 0 {
          Rest(Panicked, false, s.dispatches);
        } else if sftBlkCnt > 0 {
          Rest(Active, true, s.dispatches);
        }
      }
    }

    /* ------------------------------------------------ system calls */

    /** Between handlers. */
    ghost predicate Between()
      reads this, asl, asl.table, s.place.Keys, Members(asl.queues)
    {
      Represents() && Inv(s) && s.status == Active
    }

    lemma Cell(a: Addr)
      requires Represents() && Core(s) && a in sem
      ensures a in s.value && s.value == sem && a in s.blocked && a in s.owed
    {
    }

    lemma DeviceCell(i: nat)
      requires Represents() && Core(s) && i < DEVICECNT
      ensures 0 <= DeviceAdd(devBase, i) < NULL_ADDR && DeviceAdd(devBase, i) in sem
    {
    }

    /** SYSCALL 3. */
    method V(a: Addr)
      requires Between() && a in sem
      modifies Frame()
      ensures Represents() && s == Verhogen(old(s), a) && Frame() == old(Frame())
      ensures a in old(s).value && (Inv(s) <==> VerhogenKeeps(old(s), a))
    {
      hide Lists, Core, VerhogenKeeps;
      Cell(a);
      VerhogenExact(s, a);
      Signal(a, 1);
      if sem[a] <= 0 {
        var p := WakeFirst(a);
        if p != null {
          PutReady(p);
        }
      }
    }

    /** SYSCALL 4. */
    method P(a: Addr)
      requires Between() && currentProc != null && a in sem
      modifies Frame()
      ensures Represents() && s == Passeren(old(s), a) && Frame() == old(Frame())
      ensures a in old(s).value && (Inv(s) <==> PasserenKeeps(old(s), a))
    {
      hide Lists, Core, Machine.Scheduler, Block, PasserenKeeps;
      Cell(a);
      PasserenExact(s, a);
      Signal(a, -1);
      if sem[a] < 0 {
        BlockRunning(a);
        Scheduler();
      }
    }

    /** SYSCALLs 7 and 8, once the semaphore is known. */
    method Wait(a: Addr)
      requires Between() && currentProc != null && a in sem
      modifies Frame()
      ensures Represents() && s == WaitDevice(old(s), a) && Frame() == old(Frame())
      ensures a in old(s).value && (Inv(s) <==> WaitKeeps(old(s), a))
    {
      hide Lists, Core, Machine.Scheduler, Block, WaitDevice, WaitKeeps;
      Cell(a);
      WaitBlocks(s, a);
      WaitExact(s, a);
      Signal(a, -1);
      if sem[a] < 0 {
        BlockRunning(a);
        Count(0, 1);
        Scheduler();
      }
    }

    /** SYSCALL 1. */
    method CreateProcess() returns (ok: bool)
      requires Between() && currentProc != null
      modifies Frame()
      ensures Represents() && s == Machine.CreateProcess(old(s)) && Inv(s) && Frame() == old(Frame())
      ensures ok <==> old(s).free != []
    {
      hide Lists, Core, Adopt;
      CreateReady();
      CreateProcessInv(s);
      var p := Alloc();
      ok := p != null;
      if ok {
        AdoptChild(p);
        PutReady(p);
        Count(1, 0);
      }
    }

    lemma CreateReady()
      requires Core(s) && s.current != null
      ensures s.current in s.tree.kids && s.current in s.place
      ensures forall q | q in s.free :: q in s.place && q !in s.tree.kids && q !in Offspring(s.tree.kids)
    {
      RunningIsLive(s);
      OffspringLive(s.tree);
      FreeIsDead(s);
      hide Core, Offspring;
    }

    /* ------------------------------------------------ killing */

    /** The running process runs no longer. */
    method Vacate()
      requires Represents() && currentProc != null
      modifies this`currentProc, this`s
      ensures Represents() && Frame() == old(Frame())
      ensures s == old(s).(current := null, place := old(s).place[old(s).current := Limbo])
    {
      hide Apart, InPlace, Chain, Ring, Waiters, Kinship, Closed, Tagged;
      VacateLists();
      SetCurrent(null, s.(current := null, place := s.place[s.current := Limbo]));
    }

    lemma VacateLists()
      requires Ordered(s) && AllKnown(s) && s.current != null
      ensures Recordable(s.(current := null, place := s.place[s.current := Limbo]), s.current)
      ensures s.current in s.place && s.place[s.current].Running?
    {
      Places(s);
      Moved(s.place, s.current, Limbo);
      VacateOrdered(s);
    }

    lemma WhereIs(p: Pcb)
      requires Represents() && p in s.place && s.status == Active && KillOne(s, p).status == Active
      requires !s.place[p].Limbo?
      ensures p == s.current <==> s.place[p].Running?
      ensures p in s.ready <==> s.place[p].Ready?
      ensures s.place[p].Ready? ==> Finds(scan, s.ready, p)
      ensures s.place[p].Waits? ==> s.place[p].a in s.blocked && Finds(scan, s.blocked[s.place[p].a], p)
      ensures p.semAdd == SemAddOf(s.place[p])
    {
      Whereabouts(s, p);
    }

    /** A waiter's unit goes back, unless it is a device's. */
    method GiveBack(semAdd: Addr)
      requires Represents() && semAdd in s.value && semAdd in s.owed
      modifies Frame()
      ensures Represents() && Frame() == old(Frame()) && s == Refund(old(s), semAdd)
    {
      hide Lists;
      var firstDevice, lastDevice := devBase, devBase + 4 * (DEVICECNT - 1);
      if semAdd >= firstDevice && semAdd <= lastDevice {
        Count(0, -1);
        Owe(semAdd, 1);
      } else {
        Signal(semAdd, 1);
      }
    }

    /** p leaves the list that holds it. */
    method TakeOff(p: Pcb, semAdd: Addr)
      requires Represents() && status == Active && p in s.place && Removable(p) && KillOne(s, p).status == Active
      requires s.place[p].Waits? ==> semAdd == s.place[p].a
      modifies Frame()
      ensures Represents() && Frame() == old(Frame()) && s == Unlisted(old(s), p)
    {
      hide Lists, Finds, Refund, Minus, KillOne;
      WhereIs(p);
      if p == currentProc {
        Vacate();
      } else {
        var out := OutReady(p);
        if out == null {
          out := OutWaiting(p, semAdd);
          if out != null {
            GiveBack(semAdd);
          }
        }
      }
    }

    /** p, no longer anybody's child, dies. */
    method Finish(p: Pcb, semAdd: Addr)
      requires Represents() && status == Active && p in s.place && Removable(p) && KillOne(s, p).status == Active
      requires s.place[p].Waits? ==> semAdd == s.place[p].a
      requires p !in Offspring(s.tree.kids)
      modifies Frame()
      ensures Represents() && Frame() == old(Frame()) && s == KillOne(old(s), p)
    {
      hide Lists, Offspring, Drop, Unlisted, KillOne, Release;
      WhereIs(p);
      UnlistedKill(s, p);
      TakeOff(p, semAdd);
      Dispose(p);
    }

    method Dispose(p: Pcb)
      requires Represents() && p in s.place && s.place[p].Limbo? && p !in Offspring(s.tree.kids)
      modifies Frame()
      ensures Represents() && Frame() == old(Frame()) && s == Release(old(s), p)
    {
      hide Lists, Offspring, Drop;
      Count(-1, 0);
      Bury(p);
    }

    ghost predicate Removable(p: Pcb)
      requires p in s.place
      reads this
    {
      && !s.place[p].Free? && !s.place[p].Limbo?
      && (s.place[p].Waits? ==> s.place[p].a in s.blocked && s.place[p].a in s.value && s.place[p].a in s.owed)
    }

    lemma ChildIs(p: Pcb)
      requires Represents() && p in s.tree.kids
      ensures p.child == null <==> s.tree.kids[p] == []
    {
    }

    /** What the kill of p asks of the state; t is the tree as it was when the killing began. */
    ghost predicate Doomable(p: Pcb, t: Tree)
      reads this
    {
      && Forest(t) && p in t.kids && Intact(t, s.tree, p) && Thinned(t, s.tree)
      && Mortal(s, PostOrder(t, p)) && Killed(s, t, p)
      && (if p == s.current then s.tree == t
          else p !in Offspring(s.tree.kids) && forall q | q in PostOrder(t, p) :: q != s.current)
    }

    /** The next child of p leaves it, and can be killed. */
    method NextChild(p: Pcb, ghost was: State, ghost t: Tree, ghost i: nat) returns (c: Pcb?)
      requires Represents() && Forest(t) && p in t.kids && i < |t.kids[p]| && Killed(was, t, p)
      requires Intact(t, was.tree, p) && Thinned(t, was.tree) && Mortal(was, PostOrder(t, p))
      requires forall q | q in PostOrder(t, p) && q != p :: q != was.current
      requires s == AtStage(was, t, p, i)
      modifies Frame()
      ensures Represents() && Frame() == old(Frame()) && s == NextCall(was, t, p, i)
      ensures c == t.kids[p][i] && c != s.current && Doomable(c, t)
    {
      hide Lists, Forest, Intact, Thinned, Mortal, Killed, PostOrder, AtStage, Offspring, OneParent;
      StageBefore(was, t, p, i);
      NextReady(was, t, p, i);
      StageDone(was, t, p, i);
      NextMortal(was, t, p, i);
      LastInOrder(t, t.kids[p][i]);
      c := OrphanFirst(p);
    }

    lemma FirstVictim(p: Pcb, t: Tree)
      requires Represents() && Forest(t) && p in t.kids && Mortal(s, PostOrder(t, p)) && Intact(t, s.tree, p)
      ensures p in s.place && (s.place[p].Waits? ==> p.semAdd == s.place[p].a) && p in s.tree.kids
    {
      LastInOrder(t, p);
    }

    lemma LastRemovable(p: Pcb, was: State, t: Tree)
      requires Forest(t) && p in t.kids && Killed(was, t, p) && Mortal(was, PostOrder(t, p))
      requires s == AtStage(was, t, p, |t.kids[p]|)
      ensures p in s.place && Removable(p) && s.place[p] == was.place[p] && s.status == Active
      ensures p in was.place && (p == s.current <==> p == was.current)
    {
      LastMortal(was, t, p);
    }

    /** All children of p are gone: p itself dies. */
    method RemoveLast(p: Pcb, semAdd: Addr, ghost was: State, ghost t: Tree)
      requires Represents() && Forest(t) && p in t.kids && Killed(was, t, p) && Mortal(was, PostOrder(t, p))
      requires Intact(t, was.tree, p) && Thinned(t, was.tree) && s == AtStage(was, t, p, |t.kids[p]|)
      requires p in was.place && (was.place[p].Waits? ==> semAdd == was.place[p].a) && p in was.tree.kids
      requires if p == was.current then was.tree == t else p !in Offspring(was.tree.kids)
      modifies Frame()
      ensures Represents() && Frame() == old(Frame())
      ensures s == Culled(was, PostOrder(t, p), if p == was.current then Detach(t, p) else was.tree)
    {
      hide Lists, Forest, Intact, Thinned, Mortal, Killed, PostOrder, AtStage, Offspring, OneParent, Culled, Detach,
        KillOne;
      LastRemovable(p, was, t);
      if p == currentProc {
        LastRunning(was, t, p);
        LeaveParent(p);
      } else {
        LastAlone(was, t, p);
      }
      Finish(p, semAdd);
    }

    lemma DoomedParts(p: Pcb, t: Tree)
      requires Doomable(p, t)
      ensures Forest(t) && p in t.kids && Intact(t, s.tree, p) && Thinned(t, s.tree)
      ensures Mortal(s, PostOrder(t, p)) && Killed(s, t, p)
      ensures forall q | q in PostOrder(t, p) && q != p :: q != s.current
      ensures if p == s.current then s.tree == t else p !in Offspring(s.tree.kids)
    {
      hide Represents, Forest, Intact, Thinned, Mortal, Killed, PostOrder, Offspring;
    }

    /**
     SYSCALL 2: p's children go first, one after the other, each with everybody below it. Where the
     kill succeeds at all (see Killed), it frees the subtree of p in its kill order.
     */
    method TerminateProcess(p: Pcb, ghost t: Tree)
      requires Represents() && Doomable(p, t)
      modifies Frame()
      ensures Represents() && Frame() == old(Frame())
      ensures s == Culled(old(s), PostOrder(t, p), if p == old(s).current then Detach(t, p) else old(s).tree)
      decreases t.now - t.birth[p]
    {
      hide Represents, Doomable, Forest, Intact, Thinned, Mortal, Killed, PostOrder, AtStage, NextCall, Offspring,
        Culled, Detach, OneParent, DropFirst, Stage, Cleared, KillAll;
      var semAdd := p.semAdd;
      ghost var i := 0;
      DoomedParts(p, t);
      StageBounds(s, t, p);
      ChildIs(p);
      FirstVictim(p, t);
      while p.child != null
        invariant Represents() && Frame() == old(Frame())
        invariant i <= |t.kids[p]| && s == AtStage(old(s), t, p, i)
        invariant p.child == null <==> i == |t.kids[p]|
        decreases |t.kids[p]| - i
      {
        StageDone(old(s), t, p, i);
        NextReady(old(s), t, p, i);
        var c := NextChild(p, old(s), t, i);
        TerminateProcess(c, t);
        i := i + 1;
        ChildIs(p);
      }
      RemoveLast(p, semAdd, old(s), t);
    }

    /* ------------------------------------------------ interrupts */

    /** Back to the interrupted process, or on to the scheduler when idle. */
    method Resume()
      requires Represents() && status == Active && (waiting ==> currentProc == null)
      modifies Frame()
      ensures Represents() && s == Machine.Resume(old(s)) && Frame() == old(Frame())
    {
      hide Lists, Machine.Scheduler;
      if waiting {
        Scheduler();
      }
    }

    /** The time slice is over: ioTrapHandler, line 1. */
    method QuantumEnd()
      requires Between()
      modifies Frame()
      ensures Represents() && s == Machine.QuantumEnd(old(s)) && Inv(s) && Frame() == old(Frame())
    {
      hide Lists, Core, Machine.Scheduler, Preempt;
      QuantumEndInv(s);
      if currentProc != null {
        PutBack();
      }
      Scheduler();
    }

    /** The first waiter of a device becomes ready; if there is none, the device owes one wake-up less. */
    method Answer(a: Addr)
      requires Represents() && a in s.blocked
      modifies Frame()
      ensures Represents() && Frame() == old(Frame()) && s == Answered(old(s), a)
    {
      hide Lists, InsertReady, Bump;
      var p := WakeFirst(a);
      if p != null {
        Count(0, -1);
        PutReady(p);
      } else {
        Owe(a, -1);
      }
    }

    /** A device is done: ioTrapHandler, lines 3 to 7. */
    method Interrupt(a: Addr)
      requires Between() && a in sem
      modifies Frame()
      ensures Represents() && s == Machine.Interrupt(old(s), a) && Frame() == old(Frame())
      ensures a in old(s).value && (Inv(s) <==> InterruptKeeps(old(s), a))
    {
      hide Lists, Core, Machine.Resume, Machine.Interrupt, Answered, InterruptKeeps;
      Cell(a);
      InterruptAnswers(s, a);
      InterruptExact(s, a);
      Signal(a, 1);
      if sem[a] <= 0 {
        Answer(a);
      }
      Resume();
    }

    /** History only: what a owes changes by d. */
    ghost method Owe(a: Addr, d: int)
      requires Represents()
      modifies this`s
      ensures Represents() && Frame() == old(Frame()) && s == old(s).(owed := Bump(old(s).owed, a, d))
    {
      hide Apart, InPlace, Chain, Ring, Waiters, Kinship, Closed, Tagged;
      Record(s.(owed := Bump(s.owed, a, d)));
    }

    /** headBlocked. */
    method FirstWaiter(a: Addr) returns (p: Pcb?)
      requires Represents() && a in s.blocked
      ensures Represents() && p == if s.blocked[a] == [] then null else s.blocked[a][0]
    {
      hide Lists, asl.Valid;
      WaitersOf(a);
      assert forall q | q in Members(asl.queues) :: allocated(q);
      assert forall q | q in asl.table :: allocated(q);
      p := asl.HeadBlocked(a);
    }

    lemma WaitersOf(a: Addr)
      requires Represents() && a in s.blocked
      ensures asl.Valid() && (a in asl.queues <==> s.blocked[a] != [])
      ensures a in asl.queues ==> asl.queues[a] == s.blocked[a]
    {
    }

    /** Everybody waiting for the clock becomes ready, first come first. */
    method WakeAll(a: Addr)
      requires Represents() && a in s.blocked && a in sem && a in s.value && a in s.owed
      modifies Frame()
      ensures Represents() && s == Ticked(old(s), a) && Frame() == old(Frame())
    {
      hide Lists, InsertReady, Roused, Ticked;
      ghost var was, q, i := s, s.blocked[a], 0;
      RousedAll(s, a);
      WaitersKnown(a);
      var head := FirstWaiter(a);
      while head != null
        invariant Represents() && Frame() == old(Frame()) && a in s.blocked
        invariant i <= |q| && s == Roused(was, a, i) && (head == null <==> i == |q|)
        decreases |q| - i
      {
        WakeNext(a, was, i);
        i := i + 1;
        head := FirstWaiter(a);
      }
      RousedQueues(was, a, i);
      Reset(a);
    }

    /** Waiter number i becomes ready. */
    method WakeNext(a: Addr, ghost was: State, ghost i: nat)
      requires Represents() && a in s.blocked && a in was.blocked && i < |was.blocked[a]|
      requires was.blocked[a][i] in was.place && s == Roused(was, a, i)
      modifies Frame()
      ensures Represents() && Frame() == old(Frame())
      ensures s == Roused(was, a, i + 1) && a in s.blocked && s.blocked[a] == was.blocked[a][i + 1..]
    {
      hide Lists, InsertReady, Roused, Ticked;
      RousedStep(was, a, i);
      RousedQueues(was, a, i + 1);
      var p := WakeFirst(a);
      if p != null {
        Count(0, -1);
        PutReady(p);
      }
    }

    lemma WaitersKnown(a: Addr)
      requires Represents() && a in s.blocked
      ensures forall p | p in s.blocked[a] :: p in s.place
    {
      WaitersPlaces(s, a);
    }

    /** (*sem) = 0. */
    method Reset(a: Addr)
      requires Represents() && a in sem
      modifies this`sem, this`s
      ensures Represents() && Frame() == old(Frame())
      ensures s == old(s).(value := old(s).value[a := 0], owed := old(s).owed[a := 0])
    {
      hide Apart, InPlace, Chain, Ring, Waiters, Kinship, Closed, Tagged;
      sem := sem[a := 0];
      Record(s.(value := sem, owed := s.owed[a := 0]));
    }

    /** The clock ticks: ioTrapHandler, line 2. */
    method Tick()
      requires Between()
      modifies Frame()
      ensures Callable(old(s)) && s == Machine.Tick(old(s), Clock(old(s)))
      ensures Represents() && Inv(s) && Frame() == old(Frame())
    {
      hide Lists, Core, Machine.Resume, Callable;
      CoreCallable(s);
      DeviceCell(CLOCK);
      Cell(DeviceAdd(devBase, CLOCK));
      TickInv(s, DeviceAdd(devBase, CLOCK));
      WakeAll(DeviceAdd(devBase, CLOCK));
      Resume();
    }

    /* ------------------------------------------------ the whole of it */

    lemma Condemned()
      requires Between() && currentProc != null && s.current in s.tree.kids && Survivable(s)
      ensures Doomable(s.current, s.tree) && s.tree.kids.Keys <= s.place.Keys
      ensures var n := Culled(s, PostOrder(s.tree, s.current), Detach(s.tree, s.current));
              n == Kill(s, s.current) && n.current == null && n.status == Active
      ensures Inv(Machine.TerminateProcess(s))
    {
      hide Lists;
      CoreCallable(s);
      KillInv(s);
      CondemnedKill(s);
    }

    /** The running process and everybody below it die, and the scheduler goes on without them. */
    method Die()
      requires Between() && currentProc != null && s.current in s.tree.kids && Survivable(s)
      modifies Frame()
      ensures Represents() && Inv(s) && Frame() == old(Frame())
      ensures old(s).tree.kids.Keys <= old(s).place.Keys && s == Machine.TerminateProcess(old(s))
    {
      hide Lists, Core, Machine.Scheduler, Culled, Kill, Doomable, PostOrder, Detach;
      Condemned();
      TerminateProcess(currentProc, s.tree);
      Scheduler();
    }

    /** There is a semaphore at slot i of the device array, or where that slot would be. */
    predicate HasCell(i: int)
      reads this
    {
      0 <= DeviceAdd(devBase, i) < NULL_ADDR && DeviceAdd(devBase, i) in sem
    }

    /** SYSCALL 8. Waiting for a line below the device lines is fatal. */
    method WaitIo(lineNo: nat, devNo: nat, read: nat)
      requires Between() && Callable(s) && currentProc != null
      requires if lineNo < DISKINT then Survivable(s) else HasCell(DeviceIndex(lineNo, devNo, read))
      modifies Frame()
      ensures Represents() && Frame() == old(Frame())
      ensures s == if lineNo < DISKINT then Machine.TerminateProcess(old(s))
                   else WaitDevice(old(s), DeviceAdd(devBase, DeviceIndex(lineNo, devNo, read)))
      ensures lineNo >= DISKINT ==> DeviceAdd(devBase, DeviceIndex(lineNo, devNo, read)) in old(s).value
      ensures Inv(s) <==>
              lineNo < DISKINT || WaitKeeps(old(s), DeviceAdd(devBase, DeviceIndex(lineNo, devNo, read)))
    {
      hide Lists, Core, Machine.TerminateProcess, WaitDevice;
      if lineNo < DISKINT {
        Die();
        return;
      }
      var index;
      if lineNo != TERMINT {
        index := DEVCNT * (lineNo - DEVINTOFFSET) + devNo;
      } else {
        index := DEVCNT * (lineNo - DEVINTOFFSET) + TERMCNT * devNo + read;
      }
      Wait(DeviceAdd(devBase, index));
    }

    /** Any event, through its handler. */
    method Handle(e: Event)
      requires Between() && Callable(s) && Legal(s, e) && (Kills(e) ==> Survivable(s))
      modifies Frame()
      ensures Represents() && Inv(s) && Frame() == old(Frame()) && s == Do(old(s), e)
    {
      hide Lists, Core, Machine.TerminateProcess, WaitDevice, Machine.CreateProcess, Verhogen, Passeren, Forest;
      hide Machine.Interrupt, Machine.QuantumEnd, Machine.Tick;
      match e {
        case Create => var ok := CreateProcess();
        case Terminate => Die();
        case V(a) => V(a);
        case P(a) => P(a);
        case WaitClock =>
          DeviceCell(CLOCK);
          Wait(DeviceAdd(devBase, CLOCK));
        case WaitIo(l, d, r) =>
          if l >= DISKINT {
            DeviceCell(DeviceIndex(l, d, r));
          }
          WaitIo(l, d, r);
        case Trap(handled) =>
          if !handled {
            Die();
          }
        case Quantum => QuantumEnd();
        case ClockTick => Tick();
        case DeviceDone(i) =>
          DeviceCell(i);
          Interrupt(DeviceAdd(devBase, i));
      }
    }

    /** ioTrapHandler: the handler of the most urgent interrupt that is pending. */
    method IoTrap(cause: Word, bitMap: Word, recvStatus: Word)
      requires Between() && Catchable(s, Decode(cause, bitMap, recvStatus))
      modifies Frame()
      ensures Represents() && Frame() == old(Frame())
      ensures s == Caught(old(s), Decode(cause, bitMap, recvStatus))
      ensures Inv(s) <==> TrapKeeps(old(s), Decode(cause, bitMap, recvStatus))
    {
      hide Lists, Do, Decode, HalfOf, LineBit, DeviceBit, Core, Forest, Survivable;
      var c := Decode(cause, bitMap, recvStatus);
      if c.Spurious? {
        StatusCore(s, Panicked);
        Rest(Panicked, waiting, s.dispatches);
      } else if c.e.DeviceDone? {
        Interrupt(DeviceAdd(devBase, c.e.index));
      } else {
        Handle(c.e);
      }
    }

    /* ------------------------------------------------ start-up */

    /** The device semaphores start at zero. */
    method ZeroDevices()
      requires Represents() && Wireable(devBase, s.value) && s.owed.Keys == s.value.Keys
      requires forall a | a in s.owed :: s.owed[a] == 0
      modifies this`sem, this`s
      ensures Represents() && Frame() == old(Frame())
      ensures s == old(s).(value := Zeroed(devBase, old(s).value, DEVICECNT))
    {
      hide Lists, Zeroed;
      ZeroedNone(devBase, s.value);
      var i := 0;
      while i < DEVICECNT
        invariant i <= DEVICECNT && Represents() && Frame() == old(Frame())
        invariant s == old(s).(value := Zeroed(devBase, old(s).value, i))
      {
        ZeroedNext(devBase, old(s).value, i);
        UnchangedAt(s.owed, DeviceAdd(devBase, i), 0);
        CellsValue();
        Reset(DeviceAdd(devBase, i));
        i := i + 1;
      }
    }

    lemma CellsValue()
      requires Represents()
      ensures sem == s.value
    {
    }

    /** The first process has neither parent nor children. */
    method PlantRoot(p: Pcb)
      requires Represents() && s.tree.kids == map[] && p in s.place && p.parent == null && p.child == null
      modifies this`s
      ensures Represents() && Frame() == old(Frame())
      ensures s == old(s).(tree := Root(p), root := p)
    {
      hide Apart, InPlace, Chain, Ring, Waiters, Kinship, Closed, Tagged;
      RootLists(s, p);
      Record(s.(tree := Root(p), root := p));
    }

    /** The second half of main: the first process is made, and the scheduler called. */
    method Start()
      requires Represents() && s.free != [] && Distinct(s.free) && Wireable(devBase, s.value)
      requires s == Unborn(devBase, scan, s.free, s.value)
      requires NULL_ADDR !in s.value && forall a | a in s.value :: Zeroed(devBase, s.value, DEVICECNT)[a] >= 0
      modifies Frame()
      ensures Represents() && Inv(s) && Frame() == old(Frame())
      ensures s == Machine.Scheduler(Boot(devBase, scan, old(s).free, Zeroed(devBase, old(s).value, DEVICECNT)))
    {
      hide Lists, Machine.Scheduler, Core, Zeroed, Boot, Wireable;
      ghost var value := Zeroed(devBase, s.value, DEVICECNT);
      ZeroedDevices(devBase, s.value);
      WireableBelow(devBase, s.value);
      BootSteps(devBase, scan, s.free, s.value, value);
      BootInv(devBase, scan, s.free, value);
      BootStatus(devBase, scan, s.free, value);
      ZeroDevices();
      var p := Alloc();
      PlantRoot(p);
      PutReady(p);
      Count(1, 0);
      Scheduler();
    }
  }
}
