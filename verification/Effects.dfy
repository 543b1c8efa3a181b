/**
 What every event does to the queues, the values and the processor, read off the state before and the
 state after. Semaphores of devices are given by their place in the array.
 */
module Effects {
  import opened Pcbs
  import opened Seqs
  import opened Family
  import opened Machine
  import opened Killing
  import opened Steps
  import opened Runs
  import opened Guarantees
  import opened Interrupts
  import opened Links

  /** Nobody is created or dies. */
  predicate SamePeople(s: State, n: State) {
    && n.devBase == s.devBase && n.scan == s.scan && n.free == s.free
    && n.tree == s.tree && n.root == s.root && n.procCnt == s.procCnt
  }

  /**
   What the processor does next when nobody has it, ready is the queue, and procCnt processes live, soft
   of them waiting for a device: the head runs; if there is none, the machine stops if nobody lives,
   panics if nobody waits for a device, and waits otherwise.
   */
  predicate GoesOn(n: State, ready: seq<Pcb>, procCnt: int, soft: int) {
    && n.procCnt == procCnt && n.sftBlkCnt == soft
    && if ready != [] then n.current == ready[0] && n.ready == ready[1..] && n.status == Active && !n.waiting
       else
         && n.current == null && n.ready == [] && (n.waiting <==> procCnt != 0 && soft != 0)
         && n.status == if procCnt == 0 then Halted else if soft == 0 then Panicked else Active
  }

  /** The end of an interrupt: whoever was running runs on, and an idle processor goes on to the queue. */
  predicate Returns(s: State, n: State, ready: seq<Pcb>, soft: int) {
    if s.current == null then GoesOn(n, ready, s.procCnt, soft)
    else
      && n.current == s.current && n.ready == ready && n.status == Active && !n.waiting
      && n.procCnt == s.procCnt && n.sftBlkCnt == soft
  }

  lemma SchedulerGoesOn(s: State)
    requires s.current == null && s.status == Active && s.sftBlkCnt >= 0
    ensures var n := Scheduler(s);
            && GoesOn(n, s.ready, s.procCnt, s.sftBlkCnt)
            && SamePeople(s, n) && n.blocked == s.blocked && n.value == s.value
  {
  }

  lemma ResumeReturns(s: State, m: State)
    requires m.current == s.current && m.waiting == s.waiting && m.status == Active && m.sftBlkCnt >= 0
    requires m.procCnt == s.procCnt && (s.waiting <==> s.current == null)
    ensures var n := Resume(m);
            && Returns(s, n, m.ready, m.sftBlkCnt)
            && SamePeople(m, n) && n.blocked == m.blocked && n.value == m.value
  {
    hide Scheduler, GoesOn;
    if m.waiting { SchedulerGoesOn(m); }
  }

  /* ------------------------------------------------ system calls */

  /** SYSCALL 1: the first free process becomes the first child of its maker, and last among the ready. */
  lemma CreateEffect(s: State)
    requires Inv(s) && Callable(s) && Legal(s, Create)
    ensures s.free == [] ==> Do(s, Create) == s
    ensures s.free != [] ==>
              var n, p, c := Do(s, Create), s.current, s.free[0];
              && n.free == s.free[1..] && n.ready == s.ready + [c] && n.current == p && n.blocked == s.blocked
              && n.value == s.value && n.procCnt == s.procCnt + 1 && n.sftBlkCnt == s.sftBlkCnt
              && n.status == Active && !n.waiting && n.root == s.root
              && n.tree.kids == s.tree.kids[p := [c] + s.tree.kids[p]][c := []]
              && n.tree.parent == s.tree.parent[c := p]
  {
    hide Core;
  }

  /** SYSCALL 3: the value rises, and the first waiter, if there is one, is last among the ready. */
  lemma SignalEffect(s: State, a: Addr)
    requires Inv(s) && Callable(s) && Legal(s, V(a))
    ensures var n := Do(s, V(a));
            && SamePeople(s, n) && n.value == s.value[a := s.value[a] + 1] && n.current == s.current
            && n.status == Active && !n.waiting && n.sftBlkCnt == s.sftBlkCnt
            && if s.blocked[a] == [] then n.ready == s.ready && n.blocked == s.blocked
               else n.ready == s.ready + [s.blocked[a][0]] && n.blocked == s.blocked[a := s.blocked[a][1..]]
  {
    hide Core, Forest;
    LawAt(s, a);
  }

  /** The value falls; a caller that finds it positive runs on, any other is last in the queue. */
  predicate Takes(s: State, n: State, a: Addr, soft: int)
    requires a in s.value && a in s.blocked && s.current != null
  {
    && SamePeople(s, n) && n.value == s.value[a := s.value[a] - 1]
    && if s.value[a] > 0 then
         && n.current == s.current && n.ready == s.ready && n.blocked == s.blocked
         && n.status == s.status && n.waiting == s.waiting && n.sftBlkCnt == s.sftBlkCnt
       else n.blocked == s.blocked[a := s.blocked[a] + [s.current]] && GoesOn(n, s.ready, s.procCnt, soft)
  }

  lemma WaitTakes(s: State, a: Addr)
    requires Inv(s) && s.status == Active && s.current != null && a in s.value && a in s.blocked
    ensures !IsDevice(s.devBase, a) ==> Takes(s, Passeren(s, a), a, s.sftBlkCnt)
    ensures IsDevice(s.devBase, a) ==> Takes(s, WaitDevice(s, a), a, s.sftBlkCnt + 1)
  {
    hide Core, Ordered, Populated, Rooted, Lawful, Wired, Forest, Scheduler, Passeren, WaitDevice, GoesOn;
    CoreParts(s);
    SoftCount(s);
    WaitIsBlocked(s, a);
    SchedulerGoesOn(Blocked(s, a));
  }

  lemma SoftCount(s: State)
    requires Core(s)
    ensures s.sftBlkCnt >= 0
  {
    hide Separated, Placed, Populated, Lawful, Wired, Rooted;
  }

  /** SYSCALL 4. */
  lemma TakeEffect(s: State, a: Addr)
    requires Inv(s) && Callable(s) && Legal(s, P(a))
    ensures Takes(s, Do(s, P(a)), a, s.sftBlkCnt)
  {
    hide Core, Takes, Forest;
    WaitTakes(s, a);
  }

  /** The slots of the array, literally: lines 3 to 6 have 8 each, the terminals 3 each from 32 on. */
  function SlotNo(lineNo: int, devNo: int, read: int): int {
    if lineNo == 7 then 32 + 3 * devNo + read else 8 * (lineNo - 3) + devNo
  }

  lemma SlotAddress(s: State, i: nat, a: Addr)
    requires Callable(s) && i < 49 && a == s.devBase + 4 * i
    ensures a in s.value && a in s.blocked && IsDevice(s.devBase, a) && a == DeviceAdd(s.devBase, i)
  {
    assert DeviceAdd(s.devBase, i) in s.value;
  }

  /** SYSCALL 7: the caller is last at slot 48, the clock's, and counts as waiting for a device. */
  lemma ClockWaitEffect(s: State, a: Addr)
    requires Inv(s) && Callable(s) && Legal(s, WaitClock) && a == s.devBase + 4 * 48
    ensures a in s.value && a in s.blocked && s.value[a] <= 0 && Takes(s, Do(s, WaitClock), a, s.sftBlkCnt + 1)
  {
    hide Core, Takes, Forest, WaitDevice, Callable;
    CallableBlocked(s);
    SlotAddress(s, 48, a);
    WaitTakes(s, a);
    ClockBlocks(s, a);
  }

  /** SYSCALL 8: the same at the device's own slot, unless its value was positive. */
  lemma DeviceWaitEffect(s: State, l: nat, d: nat, r: nat, a: Addr)
    requires Inv(s) && Callable(s) && Legal(s, WaitIo(l, d, r)) && l >= 3 && a == s.devBase + 4 * SlotNo(l, d, r)
    ensures a in s.value && a in s.blocked && Takes(s, Do(s, WaitIo(l, d, r)), a, s.sftBlkCnt + 1)
  {
    hide Core, Takes, Forest, WaitDevice, Callable;
    CallableBlocked(s);
    SlotAddress(s, SlotNo(l, d, r), a);
    WaitTakes(s, a);
  }

  /** SYSCALL 2, a wait below line 3, and a trap nobody handles: the kill, and the next process runs. */
  lemma KillEffect(s: State, e: Event)
    requires e == Terminate || e == Trap(false) || (e.WaitIo? && e.lineNo < 3)
    requires Inv(s) && Callable(s) && Legal(s, e) && Survivable(s)
    ensures var n, d := Do(s, e), Subtree(s.tree, s.current);
            && GoesOn(n, Minus(s.ready, d), s.procCnt - |d|, s.sftBlkCnt - |SoftIn(s, d)|)
            && n.tree.kids.Keys == s.tree.kids.Keys - d
            && (forall p | p in s.place :: p in n.free <==> p in s.free || p in d)
            && n.blocked.Keys == s.blocked.Keys == n.value.Keys == s.value.Keys
            && forall a | a in s.blocked :: n.blocked[a] == Minus(s.blocked[a], d) && n.value[a] == Refunded(s, a, d)
    ensures var n, v: Pcb := Do(s, e), s.current;
            && n.free == Reverse(PostOrder(s.tree, s.current)) + s.free && n.root == s.root
            && forall q | q in n.tree.kids ::
                 && q in s.tree.kids && n.tree.kids[q] == Minus(s.tree.kids[q], {v})
                 && q in n.tree.parent && q in s.tree.parent && n.tree.parent[q] == s.tree.parent[q]
  {
    hide Core, Forest, Kill, Subtree, SoftIn, Minus, Refunded, Scheduler, GoesOn, Survivable, PostOrder, Reverse;
    KillExact(s);
    KillTree(s);
    KillStaysActive(s);
    KillLeaves(s);
    SchedulerGoesOn(Kill(s, s.current));
  }

  lemma KillTree(s: State)
    requires Inv(s) && s.status == Active && s.current != null && Callable(s) && Survivable(s)
    ensures var n, v: Pcb := Kill(s, s.current), s.current;
            && n.free == Reverse(PostOrder(s.tree, s.current)) + s.free && n.root == s.root
            && forall q | q in n.tree.kids ::
                 && q in s.tree.kids && n.tree.kids[q] == Minus(s.tree.kids[q], {v})
                 && q in n.tree.parent && q in s.tree.parent && n.tree.parent[q] == s.tree.parent[q]
  {
    hide Core, Forest, Kill, PostOrder, Survivable, Minus, QueuesMinus, PlaceMinus, Raise, Gone, Detach, Elements;
    KillIsSurvivors(s);
    ParentLives(s.tree, s.current);
    var v: Pcb := s.current;
    assert v in Elements(PostOrder(s.tree, v)) by { InOwnOrder(s.tree, v); }
    forall q | q in s.tree.kids && q != v
      ensures q in Detach(s.tree, v).kids && Detach(s.tree, v).kids[q] == Minus(s.tree.kids[q], {v})
      ensures q in s.tree.parent && q in Detach(s.tree, v).parent && Detach(s.tree, v).parent[q] == s.tree.parent[q]
    {
      DetachedAt(s.tree, v, q);
    }
    DetachForest(s.tree, v);
  }

  lemma InOwnOrder(t: Tree, p: Pcb)
    requires Forest(t) && p in t.kids
    ensures p in Elements(PostOrder(t, p))
  {
  }

  /** Only the parent of p has p among its children. */
  lemma DetachedAt(t: Tree, p: Pcb, q: Pcb)
    requires Forest(t) && p in t.kids && q in t.kids && q != p
    ensures q in Detach(t, p).kids && Detach(t, p).kids[q] == Minus(t.kids[q], {p})
    ensures q in t.parent && q in Detach(t, p).parent && Detach(t, p).parent[q] == t.parent[q]
  {
    if t.parent[p] == null || t.parent[p] != q {
      MinusNone(t.kids[q], {p});
    }
  }

  lemma KillLeaves(s: State)
    requires Inv(s) && s.status == Active && s.current != null && Callable(s) && Survivable(s)
    ensures Kill(s, s.current).sftBlkCnt >= 0
  {
    hide Forest, Kill, Survivors;
    KillIsSurvivors(s);
    SurvivorsCore(s);
    SoftCount(Survivors(Doomed(s), PostOrder(s.tree, s.current)));
  }

  /** A trap with a handler of the process's own. */
  lemma HandledEffect(s: State)
    requires Callable(s) && Legal(s, Trap(true))
    ensures Do(s, Trap(true)) == s
  {
  }

  /**
   What may happen next: any interrupt, of the devices with a slot below the clock's; and if somebody
   runs, any call, with P and V on semaphores other than the 49 of the array, and waits at one of these.
   */
  lemma Possible(s: State, a: Addr, l: nat, d: nat, r: nat, i: nat)
    requires Inv(s) && s.status == Active
    ensures Callable(s) && Legal(s, Quantum) && Legal(s, ClockTick) && (Legal(s, DeviceDone(i)) <==> i < 48)
    ensures s.current != null ==>
              && (forall e | e in {Create, Terminate, WaitClock, Trap(true), Trap(false)} :: Legal(s, e))
              && (Legal(s, V(a)) <==> a in s.value && !(s.devBase <= a <= s.devBase + 4 * 48))
              && (Legal(s, P(a)) <==> a in s.value && !(s.devBase <= a <= s.devBase + 4 * 48))
              && (Legal(s, WaitIo(l, d, r)) <==> l < 3 || SlotNo(l, d, r) < 49)
    ensures s.current == null ==> !Legal(s, V(a)) && !Legal(s, P(a)) && !Legal(s, WaitIo(l, d, r)) && !Legal(s, Create)
  {
    hide Core, Callable, Forest;
    CoreCallable(s);
  }

  /* ------------------------------------------------ interrupts */

  /** Line 1: whoever runs is last among the ready, and the head of the queue runs. */
  lemma QuantumEffect(s: State)
    requires Inv(s) && Callable(s) && Legal(s, Quantum)
    ensures var n := Do(s, Quantum);
            && SamePeople(s, n) && n.value == s.value && n.blocked == s.blocked
            && GoesOn(n, s.ready + (if s.current == null then [] else [s.current]), s.procCnt, s.sftBlkCnt)
  {
    hide Core, Forest, Scheduler, GoesOn;
    SoftCount(s);
    SchedulerGoesOn(if s.current == null then s else Preempt(s));
    assert s.ready + [] == s.ready;
  }

  /** Line 2: everybody at slot 48 is ready, behind those who were, and the clock's value is zero. */
  lemma TickEffect(s: State, a: Addr)
    requires Inv(s) && Callable(s) && Legal(s, ClockTick) && a == s.devBase + 4 * 48
    ensures a in s.value && a in s.blocked
    ensures var n, q := Do(s, ClockTick), s.blocked[a];
            && SamePeople(s, n) && n.value == s.value[a := 0] && n.blocked == s.blocked[a := []]
            && Returns(s, n, s.ready + q, s.sftBlkCnt - |q|)
  {
    hide Core, Forest, Resume, Returns, Callable;
    CallableBlocked(s);
    SlotAddress(s, 48, a);
    TickWakesAll(s, a);
    ResumeReturns(s, Ticked(s, a));
  }

  /** A device's interrupt, at slot i: the value rises, and the first waiter is ready, behind those who were. */
  lemma DeviceEffect(s: State, i: nat, a: Addr)
    requires Inv(s) && Callable(s) && Legal(s, DeviceDone(i)) && a == s.devBase + 4 * i
    ensures a in s.value && a in s.blocked
    ensures var n, q := Do(s, DeviceDone(i)), s.blocked[a];
            && SamePeople(s, n) && n.value == s.value[a := s.value[a] + 1]
            && (if q == [] then n.blocked == s.blocked && Returns(s, n, s.ready, s.sftBlkCnt)
                else n.blocked == s.blocked[a := q[1..]] && Returns(s, n, s.ready + [q[0]], s.sftBlkCnt - 1))
  {
    hide Core, Forest, Resume, Returns, Callable, Interrupt;
    CallableBlocked(s);
    SlotAddress(s, i, a);
    LawAt(s, a);
    DeviceWakesFirst(s, a);
    ResumeReturns(s, Interrupted(s, a));
  }

  /** What pends: a terminal's line and none before it, and there device d and none before it. */
  predicate TerminalPends(cause: Word, bitMap: Word, d: nat) {
    && cause & 0x7E00 == 0 && cause & 0x8000 != 0
    && d < 8 && bitMap & DeviceBit(d) != 0 && forall k | 0 <= k < d :: bitMap & DeviceBit(k) == 0
  }

  lemma TerminalDecoded(cause: Word, bitMap: Word, recvStatus: Word, d: nat)
    requires TerminalPends(cause, bitMap, d)
    ensures Decode(cause, bitMap, recvStatus)
         == Someone(DeviceDone(32 + 3 * d + if recvStatus & 0xFF == 1 then 0 else 1))
  {
    LinesBelow(cause);
    var c := Decode(cause, bitMap, recvStatus);
    assert FindLineNo(cause) == 7;
    assert FindDevNo(bitMap) == d;
    if c.Spurious? { NothingBelow(bitMap, d); }
  }

  /** The bits of the lines in the cause register, and of the devices in the bit map of a line. */
  lemma Bits(k: nat)
    requires k < 8
    ensures LineBit(k) == [0x100, 0x200, 0x400, 0x800, 0x1000, 0x2000, 0x4000, 0x8000][k]
    ensures DeviceBit(k) == [1, 2, 4, 8, 0x10, 0x20, 0x40, 0x80][k]
  {
  }

  /** On the lines of disks, tapes, networks and printers the slot is that of the line and the device. */
  lemma LineDecoded(cause: Word, bitMap: Word, recvStatus: Word, l: nat, d: nat)
    requires 3 <= l < 7 && cause & LineBit(l) != 0 && forall k | 1 <= k < l :: cause & LineBit(k) == 0
    requires d < 8 && bitMap & DeviceBit(d) != 0 && forall k | 0 <= k < d :: bitMap & DeviceBit(k) == 0
    ensures Decode(cause, bitMap, recvStatus) == Someone(DeviceDone(8 * (l - 3) + d))
  {
    hide LineBit, DeviceBit;
    var c := Decode(cause, bitMap, recvStatus);
    assert FindLineNo(cause) == l;
    assert FindDevNo(bitMap) == d;
  }

  lemma LinesBelow(cause: Word)
    requires cause & 0x7E00 == 0
    ensures forall k | 1 <= k < 7 :: cause & LineBit(k) == 0
  {
  }

  lemma NothingBelow(bitMap: Word, d: nat)
    requires d < 8 && bitMap & 0xFF == 0
    ensures bitMap & DeviceBit(d) == 0
  {
  }

  /**
   The interrupt of a terminal is that of its writing half if its read status is 1, and else that of its
   reading half: the first waiter at that half's slot is the one made ready.
   */
  lemma TerminalEffect(s: State, cause: Word, bitMap: Word, recvStatus: Word, d: nat, h: nat, a: Addr)
    requires Inv(s) && Callable(s) && s.status == Active && TerminalPends(cause, bitMap, d)
    requires h == (if recvStatus & 0xFF == 1 then 0 else 1) && 3 * d + h < 16 && a == s.devBase + 4 * (32 + 3 * d + h)
    ensures a in s.value && a in s.blocked && Catchable(s, Decode(cause, bitMap, recvStatus))
    ensures var n, q := Caught(s, Decode(cause, bitMap, recvStatus)), s.blocked[a];
            && SamePeople(s, n) && n.value == s.value[a := s.value[a] + 1]
            && (if q == [] then n.blocked == s.blocked && Returns(s, n, s.ready, s.sftBlkCnt)
                else n.blocked == s.blocked[a := q[1..]] && Returns(s, n, s.ready + [q[0]], s.sftBlkCnt - 1))
  {
    hide Core, Forest, Returns, Callable, Decode, TerminalPends, Catchable, Caught, Do;
    TerminalDecoded(cause, bitMap, recvStatus, d);
    CaughtDevice(s, 32 + 3 * d + h);
    DeviceEffect(s, 32 + 3 * d + h, a);
  }

  lemma CaughtDevice(s: State, i: nat)
    requires Callable(s) && s.status == Active && i < 48
    ensures Legal(s, DeviceDone(i)) && Catchable(s, Someone(DeviceDone(i)))
    ensures Caught(s, Someone(DeviceDone(i))) == Do(s, DeviceDone(i))
  {
    hide Forest, Interrupt;
    SlotAddress(s, i, s.devBase + 4 * i);
  }

  /** Whoever waits for one half of a terminal, with nobody else waiting, goes on when that half interrupts. */
  lemma TerminalRoundTrip(s: State, cause: Word, bitMap: Word, recvStatus: Word, d: nat, h: nat, a: Addr)
    requires Inv(s) && Callable(s) && Legal(s, WaitIo(7, d, h)) && TerminalPends(cause, bitMap, d)
    requires h == (if recvStatus & 0xFF == 1 then 0 else 1) && 3 * d + h < 16 && a == s.devBase + 4 * (32 + 3 * d + h)
    requires a in s.value && a in s.blocked && s.value[a] <= 0 && s.blocked[a] == []
    ensures var m := Do(s, WaitIo(7, d, h));
            && Inv(m) && m.status == Active && a in m.blocked && m.blocked[a] == [s.current]
            && Catchable(m, Decode(cause, bitMap, recvStatus))
            && var n := Caught(m, Decode(cause, bitMap, recvStatus));
               a in n.blocked && n.blocked[a] == [] && (n.current == s.current || s.current in n.ready)
  {
    hide Core, Forest, Callable, Decode, TerminalPends, Do;
    SoftCount(s);
    StepInv(s, WaitIo(7, d, h));
    DeviceWaitEffect(s, 7, d, h, a);
    var m := Do(s, WaitIo(7, d, h));
    StillActive(s, m);
    CoreCallable(m);
    TerminalEffect(m, cause, bitMap, recvStatus, d, h, a);
  }

  lemma StillActive(s: State, m: State)
    requires Inv(s) && s.current != null && s.sftBlkCnt >= 0 && GoesOn(m, s.ready, s.procCnt, s.sftBlkCnt + 1)
    ensures m.status == Active
  {
    RunningCounts(s);
  }

  lemma RunningCounts(s: State)
    requires Core(s) && s.current != null
    ensures s.procCnt > 0
  {
    RunningIsLive(s);
    hide Separated, Placed, Populated, Lawful, Wired, Rooted;
  }

  /** The time slice, whatever else pends: whoever runs is last among the ready. */
  lemma SliceEffect(s: State, cause: Word, bitMap: Word, recvStatus: Word)
    requires Inv(s) && Callable(s) && s.status == Active && cause & 0x200 != 0
    ensures Catchable(s, Decode(cause, bitMap, recvStatus))
    ensures var n := Caught(s, Decode(cause, bitMap, recvStatus));
            && SamePeople(s, n) && n.value == s.value && n.blocked == s.blocked
            && GoesOn(n, s.ready + (if s.current == null then [] else [s.current]), s.procCnt, s.sftBlkCnt)
  {
    hide Core, Forest, Callable, GoesOn, QuantumEnd;
    assert Decode(cause, bitMap, recvStatus) == Someone(Quantum);
    QuantumEffect(s);
  }

  /** The clock, unless the time slice is over as well: everybody at slot 48 is ready. */
  lemma ClockEffect(s: State, cause: Word, bitMap: Word, recvStatus: Word, a: Addr)
    requires Inv(s) && Callable(s) && s.status == Active && cause & 0x200 == 0 && cause & 0x400 != 0
    requires a == s.devBase + 4 * 48
    ensures a in s.value && a in s.blocked && Catchable(s, Decode(cause, bitMap, recvStatus))
    ensures var n, q := Caught(s, Decode(cause, bitMap, recvStatus)), s.blocked[a];
            && SamePeople(s, n) && n.value == s.value[a := 0] && n.blocked == s.blocked[a := []]
            && Returns(s, n, s.ready + q, s.sftBlkCnt - |q|)
  {
    hide Core, Forest, Callable, Returns, Tick;
    assert Decode(cause, bitMap, recvStatus) == Someone(ClockTick);
    TickEffect(s, a);
  }

  /** No line pends, or no device on it: nothing changes but that the machine panics. */
  lemma SpuriousEffect(s: State, cause: Word, bitMap: Word, recvStatus: Word)
    requires Callable(s) && s.status == Active && (cause & 0xFE00 == 0 || (cause & 0x600 == 0 && bitMap & 0xFF == 0))
    ensures Catchable(s, Decode(cause, bitMap, recvStatus))
    ensures Caught(s, Decode(cause, bitMap, recvStatus)) == s.(status := Panicked)
  {
    hide Callable, Do;
    SpuriousDecoded(cause, bitMap, recvStatus);
  }

  lemma SpuriousDecoded(cause: Word, bitMap: Word, recvStatus: Word)
    requires cause & 0xFE00 == 0 || (cause & 0x600 == 0 && bitMap & 0xFF == 0)
    ensures Decode(cause, bitMap, recvStatus) == Spurious
  {
    var l, d := FindLineNo(cause), FindDevNo(bitMap);
    if l != -1 && cause & 0xFE00 == 0 { LineAbove(cause, l); }
    if bitMap & 0xFF == 0 && d != -1 { NothingBelow(bitMap, d); }
  }

  lemma LineAbove(cause: Word, l: nat)
    requires 1 <= l < 8 && cause & 0xFE00 == 0
    ensures cause & LineBit(l) == 0
  {
  }

  /* ------------------------------------------------ an idle machine */

  /** While the machine waits, nobody is ready. */
  predicate Idle(s: State) {
    s.status == Active && s.waiting ==> s.ready == []
  }

  lemma KillIdles(s: State, e: Event)
    requires Inv(s) && Callable(s) && Legal(s, e) && Kills(e)
    ensures Idle(Do(s, e))
  {
    hide Core, Forest, TerminateProcess, Survivable, GoesOn;
    StepInv(s, e);
    if Survivable(s) {
      KillEffect(s, e);
      NextIdles(Do(s, e), Minus(s.ready, Subtree(s.tree, s.current)), s.procCnt - |Subtree(s.tree, s.current)|,
                s.sftBlkCnt - |SoftIn(s, Subtree(s.tree, s.current))|);
    }
  }

  lemma NextIdles(n: State, ready: seq<Pcb>, procCnt: int, soft: int)
    requires GoesOn(n, ready, procCnt, soft)
    ensures Idle(n)
  {
  }

  lemma IdleStep(s: State, e: Event)
    requires Inv(s) && Callable(s) && Legal(s, e) && Idle(s)
    ensures Idle(Do(s, e))
  {
    hide Core, Forest, Do, Callable, IsDevice;
    CallableBlocked(s);
    match e {
      case Create => CreateEffect(s);
      case V(a) => SignalEffect(s, a);
      case P(a) => TakeEffect(s, a);
      case WaitClock => ClockWaitEffect(s, s.devBase + 4 * 48);
      case WaitIo(l, d, r) =>
        if l < 3 { KillIdles(s, e); } else { DeviceWaitEffect(s, l, d, r, s.devBase + 4 * SlotNo(l, d, r)); }
      case Quantum => QuantumEffect(s);
      case ClockTick => TickEffect(s, s.devBase + 4 * 48);
      case DeviceDone(i) => DeviceEffect(s, i, s.devBase + 4 * i);
      case Trap(handled) => if handled { HandledEffect(s); } else { KillIdles(s, e); }
      case Terminate => KillIdles(s, e);
    }
  }

  /** Over every run: while the machine waits, nobody is ready. */
  lemma {:induction false} IdleRun(s: State, es: seq<Event>)
    requires Inv(s) && LegalRun(s, es) && Idle(s)
    ensures Idle(Run(s, es))
    decreases |es|
  {
    hide Core, Do, Callable, Legal;
    if es != [] {
      StepInv(s, es[0]);
      IdleStep(s, es[0]);
      if Do(s, es[0]).status != Corrupted {
        IdleRun(Do(s, es[0]), es[1..]);
      } else {
        AfterCorruption(Do(s, es[0]), es[1..]);
      }
    }
  }

  lemma AfterCorruption(s: State, es: seq<Event>)
    requires s.status == Corrupted && LegalRun(s, es)
    ensures es == []
  {
    hide Callable;
  }

  /** So an interrupt that wakes somebody on an idle machine ends with the first one awake running. */
  lemma IdleWakes(s: State, i: nat, a: Addr)
    requires Inv(s) && Callable(s) && Legal(s, DeviceDone(i)) && a == s.devBase + 4 * i && Idle(s)
    requires a in s.blocked && s.blocked[a] != []
    ensures s.waiting ==> Do(s, DeviceDone(i)).current == s.blocked[a][0] && !Do(s, DeviceDone(i)).waiting
    ensures !s.waiting ==> Do(s, DeviceDone(i)).current == s.current
  {
    hide Core, Forest, Do, Callable;
    DeviceEffect(s, i, a);
    assert s.current == null ==> s.ready + [s.blocked[a][0]] == [s.blocked[a][0]];
  }

  /** And so does a tick that wakes somebody. */
  lemma IdleTicks(s: State, a: Addr)
    requires Inv(s) && Callable(s) && Legal(s, ClockTick) && a == s.devBase + 4 * 48 && Idle(s)
    requires a in s.blocked && s.blocked[a] != []
    ensures s.waiting ==> Do(s, ClockTick).current == s.blocked[a][0] && Do(s, ClockTick).ready == s.blocked[a][1..]
    ensures !s.waiting ==> Do(s, ClockTick).current == s.current
  {
    hide Core, Forest, Do, Callable;
    TickEffect(s, a);
    assert s.current == null ==> s.ready + s.blocked[a] == s.blocked[a];
  }

  /* ------------------------------------------------ start-up */

  /** main: the device semaphores are zero, the others as they were; the first process runs alone. */
  lemma StartEffect(base: int, scan: Scan, pcbs: seq<Pcb>, value: map<Addr, int>)
    requires pcbs != [] && Wireable(base, value)
    ensures var v := Zeroed(base, value, DEVICECNT);
            && v.Keys == value.Keys
            && forall a | a in value ::
                 v[a] == if exists i :: 0 <= i < 49 && a == base + 4 * i then 0 else value[a]
    ensures var n := Scheduler(Boot(base, scan, pcbs, Zeroed(base, value, DEVICECNT)));
            && n.devBase == base && n.value == Zeroed(base, value, DEVICECNT)
            && n.current == pcbs[0] && n.root == pcbs[0] && n.ready == [] && n.free == pcbs[1..]
            && n.status == Active && !n.waiting && n.procCnt == 1 && n.sftBlkCnt == 0
            && n.tree.kids == map[pcbs[0] := []] && n.tree.parent == map[pcbs[0] := null]
            && n.blocked.Keys == value.Keys && (forall a | a in value :: n.blocked[a] == []) && Idle(n)
  {
    var v := Zeroed(base, value, DEVICECNT);
    forall a | a in value ensures v[a] == if exists i :: 0 <= i < 49 && a == base + 4 * i then 0 else value[a] {
      if base <= a < base + 4 * 49 && (a - base) % 4 == 0 {
        assert a == base + 4 * ((a - base) / 4);
      }
    }
    StartsAlone(base, scan, pcbs, v);
  }

  lemma StartsAlone(base: int, scan: Scan, pcbs: seq<Pcb>, value: map<Addr, int>)
    requires pcbs != []
    ensures var n := Scheduler(Boot(base, scan, pcbs, value));
            && n.devBase == base && n.value == value
            && n.current == pcbs[0] && n.root == pcbs[0] && n.ready == [] && n.free == pcbs[1..]
            && n.status == Active && !n.waiting && n.procCnt == 1 && n.sftBlkCnt == 0
            && n.tree.kids == map[pcbs[0] := []] && n.tree.parent == map[pcbs[0] := null]
            && n.blocked.Keys == value.Keys && (forall a | a in value :: n.blocked[a] == []) && Idle(n)
  {
  }

  /** In every run from start-up, nobody is ready while the machine waits. */
  lemma NeverIdle(base: int, scan: Scan, pcbs: seq<Pcb>, value: map<Addr, int>, es: seq<Event>)
    requires pcbs != [] && Distinct(pcbs)
    requires 0 <= base && base + 4 * DEVICECNT <= NULL_ADDR && NULL_ADDR !in value
    requires forall i | 0 <= i < DEVICECNT :: DeviceAdd(base, i) in value && value[DeviceAdd(base, i)] == 0
    requires forall a | a in value :: value[a] >= 0
    requires LegalRun(Scheduler(Boot(base, scan, pcbs, value)), es)
    ensures var n := Run(Scheduler(Boot(base, scan, pcbs, value)), es);
            n.status == Active && n.waiting ==> n.current == null && n.ready == []
  {
    hide Core, Boot, Scheduler, LegalRun, Run;
    BootInv(base, scan, pcbs, value);
    StartsAlone(base, scan, pcbs, value);
    var s := Scheduler(Boot(base, scan, pcbs, value));
    IdleRun(s, es);
    RunInv(s, es);
  }
}
