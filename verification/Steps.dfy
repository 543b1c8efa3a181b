/** Every handler keeps the invariant. */
module Steps {
  import opened Pcbs
  import opened Seqs
  import opened Family
  import opened Machine
  import opened Killing

  ghost predicate Ordered(s: State) {
    Separated(s) && Placed(s)
  }

  /** The parts of the invariant, one by one. */
  lemma CoreParts(s: State)
    requires Core(s)
    ensures Ordered(s) && Populated(s.tree, s.place) && Rooted(s.tree, s.root) && Forest(s.tree)
    ensures Lawful(s.devBase, s.blocked, s.value, s.owed) && Wired(s.devBase, s.value)
    ensures s.procCnt == |s.tree.kids| && s.sftBlkCnt == |SoftBlocked(s.devBase, s.place)|
  {
    hide Separated, Placed, Populated, Lawful, Wired, SoftBlocked, Forest;
  }

  /* ------------------------------------------------ moves between lists */

  lemma InsertReadyOrdered(s: State, p: Pcb)
    requires Ordered(s) && p in s.place && s.place[p].Limbo?
    ensures Ordered(InsertReady(s, p))
  {
    var n := InsertReady(s, p);
    assert Listed(n.place, n.ready, Ready);
    forall q | q in n.place ensures Holds(n.free, n.ready, n.current, n.blocked, q, n.place[q]) {
      assert Holds(s.free, s.ready, s.current, s.blocked, q, s.place[q]);
    }
  }

  lemma RemoveBlockedOrdered(s: State, a: Addr)
    requires Ordered(s) && a in s.blocked
    ensures Ordered(RemoveBlocked(s, a).1)
  {
    var q := s.blocked[a];
    if q != [] {
      var n := RemoveBlocked(s, a).1;
      assert q == [q[0]] + q[1..];
      assert Listed(n.place, q[1..], Waits(a));
      forall p | p in n.place ensures Holds(n.free, n.ready, n.current, n.blocked, p, n.place[p]) {
        assert Holds(s.free, s.ready, s.current, s.blocked, p, s.place[p]);
      }
    }
  }

  /** Blocking the running process, as long as a descriptor is there. */
  lemma BlockOrdered(s: State, a: Addr)
    requires Ordered(s) && a in s.blocked && s.current != null
    requires |ActiveSemaphores(s.blocked)| < |s.place|
    ensures Ordered(Block(s, a))
    ensures Block(s, a) == s.(blocked := s.blocked[a := s.blocked[a] + [s.current]],
                           place := s.place[s.current := Waits(a)], current := null)
  {
    var n := Block(s, a);
    assert Listed(n.place, n.blocked[a], Waits(a));
    forall p | p in n.place ensures Holds(n.free, n.ready, n.current, n.blocked, p, n.place[p]) {
      assert Holds(s.free, s.ready, s.current, s.blocked, p, s.place[p]);
    }
  }

  lemma PreemptOrdered(s: State)
    requires Ordered(s) && s.current != null
    ensures Ordered(Preempt(s))
  {
    var n := Preempt(s);
    assert Listed(n.place, n.ready, Ready);
    forall p | p in n.place ensures Holds(n.free, n.ready, n.current, n.blocked, p, n.place[p]) {
      assert Holds(s.free, s.ready, s.current, s.blocked, p, s.place[p]);
    }
  }

  lemma DispatchOrdered(s: State)
    requires Ordered(s) && s.current == null && s.ready != []
    ensures Ordered(Dispatch(s))
  {
    var n := Dispatch(s);
    assert s.ready == [s.ready[0]] + s.ready[1..];
    assert Listed(n.place, n.ready, Ready);
    forall p | p in n.place ensures Holds(n.free, n.ready, n.current, n.blocked, p, n.place[p]) {
      assert Holds(s.free, s.ready, s.current, s.blocked, p, s.place[p]);
    }
  }

  lemma AllocOrdered(s: State)
    requires Ordered(s)
    ensures Ordered(AllocPcb(s).1)
  {
    if s.free != [] {
      var n := AllocPcb(s).1;
      assert s.free == [s.free[0]] + s.free[1..];
      assert Listed(n.place, n.free, Free);
      forall p | p in n.place ensures Holds(n.free, n.ready, n.current, n.blocked, p, n.place[p]) {
        assert Holds(s.free, s.ready, s.current, s.blocked, p, s.place[p]);
      }
    }
  }

  /* ------------------------------------------------ counters and semaphores */

  function Soft(base: int, at: Place): int {
    if IsSoft(base, at) then 1 else 0
  }

  lemma SoftMoved(base: int, place: map<Pcb, Place>, p: Pcb, at: Place)
    requires p in place
    ensures |SoftBlocked(base, place[p := at])|
         == |SoftBlocked(base, place)| - Soft(base, place[p]) + Soft(base, at)
  {
    var others := SoftBlocked(base, place) - {p};
    assert SoftBlocked(base, place) == if IsSoft(base, place[p]) then others + {p} else others;
    assert SoftBlocked(base, place[p := at]) == if IsSoft(base, at) then others + {p} else others;
  }

  /** The law at one semaphore; the others are as they were. */
  lemma LawfulAt(s: State, a: Addr, q: seq<Pcb>, v: int, o: int)
    requires Lawful(s.devBase, s.blocked, s.value, s.owed) && a in s.value
    requires |q| + o == Deficit(v) && o >= 0 && (!IsDevice(s.devBase, a) ==> o == 0)
    ensures Lawful(s.devBase, s.blocked[a := q], s.value[a := v], s.owed[a := o])
  {
  }

  lemma WiredAt(s: State, a: Addr, v: int)
    requires Wired(s.devBase, s.value) && a in s.value
    requires a == DeviceAdd(s.devBase, CLOCK) ==> v <= 0
    ensures Wired(s.devBase, s.value[a := v])
  {
  }

  /** A live process stays live, and a free one free. */
  lemma StillPopulated(tree: Tree, place: map<Pcb, Place>, p: Pcb, at: Place)
    requires Populated(tree, place) && p in tree.kids && !at.Limbo? && !at.Free?
    ensures Populated(tree, place[p := at])
  {
  }

  /** A live process p changes place, and the rest of the state follows suit. */
  lemma MoveCore(s: State, n: State, p: Pcb, at: Place)
    requires Core(s) && p in s.tree.kids && p in s.place && !at.Limbo? && !at.Free?
    requires Separated(n) && Placed(n)
    requires n.place == s.place[p := at] && n.tree == s.tree && n.root == s.root
    requires n.procCnt == s.procCnt && n.devBase == s.devBase
    requires n.sftBlkCnt == s.sftBlkCnt - Soft(s.devBase, s.place[p]) + Soft(s.devBase, at)
    requires Lawful(n.devBase, n.blocked, n.value, n.owed) && Wired(n.devBase, n.value)
    ensures Core(n)
  {
    hide Apart, InPlace, Lawful, Wired, Rooted;
    SoftMoved(s.devBase, s.place, p, at);
    StillPopulated(s.tree, s.place, p, at);
  }

  /** Only values and debts change. */
  lemma ValueCore(s: State, n: State)
    requires Core(s) && n == s.(value := n.value, owed := n.owed)
    requires Lawful(n.devBase, n.blocked, n.value, n.owed) && Wired(n.devBase, n.value)
    ensures Core(n)
  {
    hide Apart, InPlace, Populated, Lawful, Wired, Rooted, SoftBlocked;
  }

  /* ------------------------------------------------ the scheduler */

  lemma FirstReady(s: State)
    requires Core(s) && s.ready != []
    ensures s.ready[0] in s.place && s.place[s.ready[0]] == Ready && s.ready[0] in s.tree.kids
  {
    assert s.ready[0] in s.ready;
  }

  lemma DispatchCore(s: State)
    requires Core(s) && s.current == null && s.ready != []
    ensures Core(Dispatch(s))
  {
    FirstReady(s);
    DispatchOrdered(s);
    MoveCore(s, Dispatch(s), s.ready[0], Running);
  }

  lemma IdleCore(s: State, w: bool)
    requires Core(s)
    ensures Core(s.(waiting := w, dispatches := s.dispatches + 1))
    ensures s.sftBlkCnt >= 0
  {
    hide Apart, InPlace, Populated, Lawful, Wired, Rooted;
  }

  lemma SchedulerInv(s: State)
    requires Core(s) && s.current == null && s.status == Active
    ensures Inv(Scheduler(s))
  {
    hide Core;
    var n := s.(waiting := false, dispatches := s.dispatches + 1);
    IdleCore(s, false);
    IdleCore(s, true);
    StatusCore(n, Halted);
    StatusCore(n, Panicked);
    if n.ready != [] { DispatchCore(n); }
  }

  /** Whether the machine goes on is no concern of its lists. */
  lemma StatusCore(s: State, status: Status)
    requires Core(s)
    ensures Core(s.(status := status))
  {
    hide Apart, InPlace, Populated, Lawful, Wired, Rooted, SoftBlocked;
  }

  /* ------------------------------------------------ waiting */

  /**
   While a process runs, a descriptor is free: each active semaphore has a waiter of its own, and
   the running process waits for none. So insertBlocked cannot fail, and its callers may ignore it.
   */
  lemma DescriptorLeft(s: State)
    requires Separated(s) && s.current != null
    ensures |ActiveSemaphores(s.blocked)| < |s.place|
  {
    var waiting := set p | p in s.place && s.place[p].Waits?;
    var at := map p | p in waiting :: s.place[p].a;
    forall a | a in ActiveSemaphores(s.blocked) ensures exists p | p in waiting :: at[p] == a {
      assert s.blocked[a][0] in s.blocked[a];
      assert at[s.blocked[a][0]] == a;
    }
    CoverCardinality(waiting, ActiveSemaphores(s.blocked), at);
    SubsetCardinality(waiting, s.place.Keys);
    assert s.current in s.place.Keys - waiting;
  }

  /** The law at one semaphore, and the lists' view of its first waiter. */
  lemma LawAt(s: State, a: Addr)
    requires Core(s) && a in s.value
    ensures a in s.blocked && a in s.owed
    ensures |s.blocked[a]| + s.owed[a] == Deficit(s.value[a]) && s.owed[a] >= 0
    ensures !IsDevice(s.devBase, a) ==> s.owed[a] == 0
    ensures s.blocked[a] != [] ==>
              s.blocked[a][0] in s.place && s.place[s.blocked[a][0]] == Waits(a)
              && s.blocked[a][0] in s.tree.kids
  {
    if s.blocked[a] != [] {
      assert s.blocked[a][0] in s.blocked[a];
    }
  }

  lemma RunningIsLive(s: State)
    requires Core(s) && s.current != null
    ensures s.current in s.place && s.place[s.current] == Running && s.current in s.tree.kids
  {
  }

  /** s after its running process has been blocked on a. */
  function Blocked(s: State, a: Addr): State
    requires a in s.value && a in s.blocked && s.current != null
  {
    s.(value := s.value[a := s.value[a] - 1], blocked := s.blocked[a := s.blocked[a] + [s.current]],
    place := s.place[s.current := Waits(a)], current := null,
    sftBlkCnt := s.sftBlkCnt + Soft(s.devBase, Waits(a)))
  }

  lemma BlockIsBlocked(s: State, a: Addr)
    requires Ordered(s) && s.current != null && a in s.value && a in s.blocked
    ensures var n := Block(s.(value := s.value[a := s.value[a] - 1]), a);
            n.(sftBlkCnt := n.sftBlkCnt + Soft(s.devBase, Waits(a))) == Blocked(s, a)
    ensures Ordered(Blocked(s, a))
  {
    DescriptorLeft(s);
    BlockOrdered(s.(value := s.value[a := s.value[a] - 1]), a);
  }

  lemma BlockedLawful(s: State, a: Addr)
    requires Lawful(s.devBase, s.blocked, s.value, s.owed) && Wired(s.devBase, s.value)
    requires s.current != null && a in s.value && a in s.blocked && s.value[a] <= 0
    ensures var n := Blocked(s, a);
            Lawful(n.devBase, n.blocked, n.value, n.owed) && Wired(n.devBase, n.value)
  {
    LawfulAt(s, a, s.blocked[a] + [s.current], s.value[a] - 1, s.owed[a]);
    assert s.owed[a := s.owed[a]] == s.owed;
    WiredAt(s, a, s.value[a] - 1);
  }

  lemma BlockedCore(s: State, a: Addr)
    requires Core(s) && s.current != null && a in s.value && a in s.blocked && s.value[a] <= 0
    ensures Core(Blocked(s, a))
  {
    RunningIsLive(s);
    BlockIsBlocked(s, a);
    BlockedLawful(s, a);
    MoveCore(s, Blocked(s, a), s.current, Waits(a));
  }

  lemma ClockNotPositive(s: State)
    requires Wired(s.devBase, s.value)
    ensures DeviceAdd(s.devBase, CLOCK) in s.value && s.value[DeviceAdd(s.devBase, CLOCK)] <= 0
  {
  }

  /** Lowering a semaphore that stays non-negative. */
  lemma TakeCore(s: State, a: Addr)
    requires Core(s) && a in s.value && s.value[a] > 0
    ensures Core(s.(value := s.value[a := s.value[a] - 1]))
  {
    hide Core, Lawful, Wired, Ordered, Populated, Rooted;
    CoreParts(s);
    LawAt(s, a);
    LawfulAt(s, a, s.blocked[a], s.value[a] - 1, s.owed[a]);
    assert s.owed[a := s.owed[a]] == s.owed && s.blocked[a := s.blocked[a]] == s.blocked;
    ClockNotPositive(s);
    WiredAt(s, a, s.value[a] - 1);
    ValueCore(s, s.(value := s.value[a := s.value[a] - 1]));
  }

  lemma WaitIsBlocked(s: State, a: Addr)
    requires Ordered(s) && s.current != null && a in s.value && a in s.blocked
    ensures var n := if s.value[a] <= 0 then Scheduler(Blocked(s, a))
                     else s.(value := s.value[a := s.value[a] - 1]);
            if IsDevice(s.devBase, a) then WaitDevice(s, a) == n else Passeren(s, a) == n
  {
    hide Block, Scheduler, Separated, Placed;
    BlockIsBlocked(s, a);
  }

  lemma WaitInv(s: State, a: Addr)
    requires Inv(s) && s.status == Active && s.current != null && a in s.value && a in s.blocked
    ensures if IsDevice(s.devBase, a) then Inv(WaitDevice(s, a)) else Inv(Passeren(s, a))
  {
    WaitIsBlocked(s, a);
    if s.value[a] <= 0 {
      BlockedCore(s, a);
      SchedulerInv(Blocked(s, a));
    } else {
      TakeCore(s, a);
    }
  }

  /* ------------------------------------------------ signalling */

  /** s after the first waiter of a has become ready. */
  function Wake(s: State, a: Addr): State
    requires a in s.value && a in s.blocked && s.blocked[a] != []
  {
    var p := s.blocked[a][0];
    s.(value := s.value[a := s.value[a] + 1], blocked := s.blocked[a := s.blocked[a][1..]],
    ready := s.ready + [p], place := s.place[p := Ready],
    sftBlkCnt := s.sftBlkCnt - Soft(s.devBase, Waits(a)))
  }

  lemma WakeOrdered(s: State, a: Addr)
    requires Ordered(s) && a in s.value && a in s.blocked && s.blocked[a] != []
    ensures Ordered(Wake(s, a))
  {
    var p, n := s.blocked[a][0], RemoveBlocked(s, a).1;
    RemoveBlockedOrdered(s, a);
    InsertReadyOrdered(n, p);
    assert n.place[p := Ready] == s.place[p := Ready];
  }

  lemma WakeLawful(s: State, a: Addr)
    requires Lawful(s.devBase, s.blocked, s.value, s.owed) && Wired(s.devBase, s.value)
    requires a in s.value && a in s.blocked && s.blocked[a] != []
    ensures var n := Wake(s, a);
            Lawful(n.devBase, n.blocked, n.value, n.owed) && Wired(n.devBase, n.value)
  {
    LawfulAt(s, a, s.blocked[a][1..], s.value[a] + 1, s.owed[a]);
    assert s.owed[a := s.owed[a]] == s.owed;
    WiredAt(s, a, s.value[a] + 1);
  }

  lemma WakeCore(s: State, a: Addr)
    requires Core(s) && a in s.value && a in s.blocked && s.blocked[a] != []
    ensures Core(Wake(s, a))
  {
    LawAt(s, a);
    WakeOrdered(s, a);
    WakeLawful(s, a);
    MoveCore(s, Wake(s, a), s.blocked[a][0], Ready);
  }

  /** Raising a semaphore that nobody waits for; a device then owes one wake-up less. */
  lemma GiveCore(s: State, a: Addr, o: int)
    requires Core(s) && a in s.value && a in s.blocked && s.blocked[a] == []
    requires a == DeviceAdd(s.devBase, CLOCK) ==> s.value[a] < 0
    requires a in s.owed && o == if s.value[a] < 0 then s.owed[a] - 1 else s.owed[a]
    ensures Core(s.(value := s.value[a := s.value[a] + 1], owed := s.owed[a := o]))
  {
    LawAt(s, a);
    LawfulAt(s, a, [], s.value[a] + 1, o);
    assert s.blocked[a := []] == s.blocked;
    WiredAt(s, a, s.value[a] + 1);
    ValueCore(s, s.(value := s.value[a := s.value[a] + 1], owed := s.owed[a := o]));
  }

  lemma VerhogenIsWake(s: State, a: Addr)
    requires a in s.value && a in s.blocked && !IsDevice(s.devBase, a)
    requires s.blocked[a] != [] <==> s.value[a] + 1 <= 0
    ensures s.blocked[a] != [] ==> Verhogen(s, a) == Wake(s, a)
    ensures s.blocked[a] == [] ==> Verhogen(s, a) == s.(value := s.value[a := s.value[a] + 1])
  {
    if s.blocked[a] != [] {
      var p := s.blocked[a][0];
      assert s.place[p := Limbo][p := Ready] == s.place[p := Ready];
    }
  }

  lemma VerhogenInv(s: State, a: Addr)
    requires Inv(s) && s.status == Active && a in s.value && a in s.blocked && !IsDevice(s.devBase, a)
    ensures Inv(Verhogen(s, a))
  {
    LawAt(s, a);
    VerhogenIsWake(s, a);
    if s.blocked[a] != [] {
      WakeCore(s, a);
    } else {
      RaisedCore(s, a);
    }
  }

  /** Raising a semaphore that is not negative, and not the clock's. */
  lemma RaisedCore(s: State, a: Addr)
    requires Core(s) && a in s.value && s.value[a] >= 0 && a != DeviceAdd(s.devBase, CLOCK)
    ensures Core(s.(value := s.value[a := s.value[a] + 1]))
  {
    hide Core;
    LawAt(s, a);
    GiveCore(s, a, s.owed[a]);
    assert s.owed[a := s.owed[a]] == s.owed;
  }

  lemma ResumeInv(s: State)
    requires Core(s) && s.status == Active && (s.waiting <==> s.current == null)
    ensures Inv(Resume(s))
  {
    hide Core, Scheduler;
    if s.waiting { SchedulerInv(s); }
  }

  /** s after an interrupt, before the scheduler has its say. */
  function Interrupted(s: State, a: Addr): State
    requires a in s.value && a in s.blocked && a in s.owed
  {
    if s.blocked[a] != [] then Wake(s, a)
    else s.(value := s.value[a := s.value[a] + 1],
         owed := s.owed[a := s.owed[a] - if s.value[a] < 0 then 1 else 0])
  }

  lemma InterruptIsInterrupted(s: State, a: Addr)
    requires a in s.value && a in s.blocked && a in s.owed && IsDevice(s.devBase, a)
    requires s.blocked[a] != [] ==> s.value[a] < 0
    ensures Interrupt(s, a) == Resume(Interrupted(s, a))
  {
    hide Resume;
    if s.blocked[a] != [] {
      var p := s.blocked[a][0];
      assert s.place[p := Limbo][p := Ready] == s.place[p := Ready];
    } else {
      assert s.owed[a := s.owed[a]] == s.owed;
    }
  }

  lemma InterruptedCore(s: State, a: Addr)
    requires Core(s) && a in s.value && a in s.blocked && a in s.owed
    requires a == DeviceAdd(s.devBase, CLOCK) ==> s.value[a] < 0
    ensures Core(Interrupted(s, a))
  {
    hide Core;
    if s.blocked[a] != [] {
      WakeCore(s, a);
    } else {
      GiveCore(s, a, s.owed[a] - if s.value[a] < 0 then 1 else 0);
    }
  }

  lemma InterruptInv(s: State, a: Addr)
    requires Inv(s) && s.status == Active && a in s.value && a in s.blocked && IsDevice(s.devBase, a)
    requires a == DeviceAdd(s.devBase, CLOCK) ==> s.value[a] < 0
    ensures Inv(Interrupt(s, a))
  {
    hide Core, Interrupt, Resume;
    LawAt(s, a);
    InterruptIsInterrupted(s, a);
    InterruptedCore(s, a);
    ResumeInv(Interrupted(s, a));
  }

  /* ------------------------------------------------ timers */

  lemma PreemptCore(s: State)
    requires Core(s) && s.current != null
    ensures Core(Preempt(s))
  {
    RunningIsLive(s);
    PreemptOrdered(s);
    MoveCore(s, Preempt(s), s.current, Ready);
  }

  lemma QuantumEndInv(s: State)
    requires Inv(s) && s.status == Active
    ensures Inv(QuantumEnd(s))
  {
    hide Core, Scheduler;
    if s.current != null {
      PreemptCore(s);
      SchedulerInv(Preempt(s));
    } else {
      SchedulerInv(s);
    }
  }

  /* ------------------------------------------------ killing */

  lemma SoftAfterKill(s: State, d: set<Pcb>)
    ensures |SoftBlocked(s.devBase, PlaceMinus(s.place, d))|
         == |SoftBlocked(s.devBase, s.place)| - |SoftIn(s, d)|
  {
    var before, after := SoftBlocked(s.devBase, s.place), SoftBlocked(s.devBase, PlaceMinus(s.place, d));
    assert after == before - SoftIn(s, d);
    assert SoftIn(s, d) <= before;
  }

  lemma LawfulAfterKill(s: State, d: set<Pcb>)
    requires Lawful(s.devBase, s.blocked, s.value, s.owed)
    ensures var g := Gone(s.blocked, d);
            Lawful(s.devBase, QueuesMinus(s.blocked, d), Raise(s.devBase, s.value, g, false),
                   Raise(s.devBase, s.owed, g, true))
  {
    hide Lawful, Gone, QueuesMinus, Raise;
    LawfulKeys(s);
    GoneAt(s.blocked, d);
    LawfulRaised(s.devBase, s.blocked, s.value, s.owed, QueuesMinus(s.blocked, d), Gone(s.blocked, d));
  }

  lemma LawfulKeys(s: State)
    requires Lawful(s.devBase, s.blocked, s.value, s.owed)
    ensures s.owed.Keys == s.value.Keys == s.blocked.Keys
  {
  }

  lemma GoneAt(m: map<Addr, seq<Pcb>>, d: set<Pcb>)
    ensures QueuesMinus(m, d).Keys == m.Keys && Gone(m, d).Keys == m.Keys
    ensures forall a | a in m :: |QueuesMinus(m, d)[a]| <= |m[a]| && Gone(m, d)[a] == |m[a]| - |QueuesMinus(m, d)[a]|
  {
    hide Minus;
  }

  /** Each queue gets shorter by what its semaphore, or the debt of its device, is raised by. */
  lemma LawfulRaised(base: int, blocked: map<Addr, seq<Pcb>>, value: map<Addr, int>, owed: map<Addr, int>,
                     q: map<Addr, seq<Pcb>>, g: map<Addr, int>)
    requires Lawful(base, blocked, value, owed) && q.Keys == blocked.Keys && g.Keys == blocked.Keys
    requires forall a | a in blocked :: |q[a]| <= |blocked[a]| && g[a] == |blocked[a]| - |q[a]|
    ensures Lawful(base, q, Raise(base, value, g, false), Raise(base, owed, g, true))
  {
  }

  lemma WiredAfterKill(s: State, g: map<Addr, int>)
    requires Wired(s.devBase, s.value)
    ensures Wired(s.devBase, Raise(s.devBase, s.value, g, false))
  {
    var clock := DeviceAdd(s.devBase, CLOCK);
    assert IsDevice(s.devBase, clock);
    assert clock in s.value;
  }

  lemma PopulatedAfterKill(t: Tree, place: map<Pcb, Place>, d: set<Pcb>)
    requires Populated(t, place)
    ensures Populated(Drop(t, d), PlaceMinus(place, d))
  {
  }

  lemma LeftAfterKill(t: Tree, d: seq<Pcb>)
    requires Distinct(d) && forall p | p in d :: p in t.kids
    ensures |Drop(t, Elements(d)).kids| == |t.kids| - |d|
  {
    DistinctCardinality(d);
    var left := Drop(t, Elements(d)).kids.Keys;
    assert left == t.kids.Keys - Elements(d);
    assert t.kids.Keys == left + Elements(d);
  }

  lemma RootedAfterKill(t: Tree, root: Pcb?, p: Pcb, d: set<Pcb>)
    requires Rooted(t, root) && p in t.kids
    requires forall q | q in t.kids :: q in d <==> Descends(t, p, q)
    ensures Rooted(Drop(Detach(t, p), d), root)
    ensures p == root <==> Drop(Detach(t, p), d).kids.Keys == {}
  {
    hide Forest, Descends, Drop, Detach;
    ParentLives(t, p);
    PruneForest(t, p, d);
    PrunedParents(t, p, d);
    PrunedRoot(t, root, p, d);
    RootedPart(t, root, Drop(Detach(t, p), d), d);
  }

  lemma RootedPart(t: Tree, root: Pcb?, u: Tree, d: set<Pcb>)
    requires Rooted(t, root) && Forest(u) && u.kids.Keys == t.kids.Keys - d
    requires forall q | q in u.kids :: q in u.parent && q in t.parent && u.parent[q] == t.parent[q]
    requires t.kids.Keys - d == {} || (root in t.kids && root !in d)
    ensures Rooted(u, root)
  {
    hide Forest;
    forall q | q in u.kids ensures q in u.parent && (u.parent[q] == null <==> q == root) {
      assert q in t.kids;
    }
  }

  lemma PrunedRoot(t: Tree, root: Pcb?, p: Pcb, d: set<Pcb>)
    requires Rooted(t, root) && p in t.kids
    requires forall q | q in t.kids :: q in d <==> Descends(t, p, q)
    ensures if p == root then t.kids.Keys - d == {} else root in t.kids && root !in d
  {
    hide Forest;
    if p == root {
      forall q | q in t.kids ensures q in d { AllDescend(t, p, q); }
    } else {
      NotTheRoot(t, root, p);
    }
  }

  lemma PrunedParents(t: Tree, p: Pcb, d: set<Pcb>)
    requires Forest(t) && p in t.kids
    requires forall q | q in t.kids :: q in d <==> Descends(t, p, q)
    ensures var u := Drop(Detach(t, p), d);
            && p in d && u.kids.Keys == t.kids.Keys - d
            && forall q | q in u.kids :: q in u.parent && q in t.parent && u.parent[q] == t.parent[q]
  {
    DetachForest(t, p);
    assert Descends(t, p, p);
    hide Forest;
  }

  /** The root descends from nobody else. */
  lemma NotTheRoot(t: Tree, root: Pcb?, p: Pcb)
    requires Rooted(t, root) && p in t.kids && p != root
    ensures root in t.kids && !Descends(t, p, root)
  {
    assert root in t.kids && t.parent[root] == null;
  }

  /** The state in which the first victim dies. */
  ghost function Doomed(s: State): State
    requires s.current != null && s.current in s.tree.kids && Forest(s.tree)
  {
    s.(tree := Detach(s.tree, s.current))
  }

  lemma DoomedKillable(s: State)
    requires Core(s) && s.status == Active && s.current != null
    ensures s.current in s.tree.kids
    ensures Killable(Doomed(s)) && Victims(Doomed(s), PostOrder(s.tree, s.current))
  {
    RunningIsLive(s);
    PostOrderExact(s.tree, s.current);
  }

  lemma SurvivorsCounted(s: State)
    requires Core(s) && s.current != null && s.current in s.tree.kids
    ensures var n := Survivors(Doomed(s), PostOrder(s.tree, s.current));
            && n.procCnt == |n.tree.kids| && n.sftBlkCnt == |SoftBlocked(n.devBase, n.place)|
            && Populated(n.tree, n.place)
  {
    hide Core, Ordered, Populated, Lawful, Wired, Rooted, PostOrder, Forest;
    CoreParts(s);
    var d, m := PostOrder(s.tree, s.current), Doomed(s);
    PostOrderExact(s.tree, s.current);
    PopulatedDetached(s);
    SoftAfterKill(m, Elements(d));
    PopulatedAfterKill(m.tree, m.place, Elements(d));
    LeftAfterKill(m.tree, d);
  }

  lemma SurvivorsSane(s: State)
    requires Core(s) && s.current != null && s.current in s.tree.kids
    ensures var n := Survivors(Doomed(s), PostOrder(s.tree, s.current));
            && Lawful(n.devBase, n.blocked, n.value, n.owed) && Wired(n.devBase, n.value)
            && Rooted(n.tree, n.root)
  {
    hide Separated, Placed, Populated, Lawful, Wired, PostOrder;
    var ds := Elements(PostOrder(s.tree, s.current));
    PostOrderExact(s.tree, s.current);
    LawfulAfterKill(s, ds);
    WiredAfterKill(s, Gone(s.blocked, ds));
    RootedAfterKill(s.tree, s.root, s.current, ds);
  }

  lemma SurvivorsCore(s: State)
    requires Core(s) && s.status == Active && s.current != null && s.current in s.tree.kids
    ensures var n := Survivors(Doomed(s), PostOrder(s.tree, s.current));
            Core(n) && n.current == null && n.status == Active
  {
    DoomedKillable(s);
    SurvivorsKillable(Doomed(s), PostOrder(s.tree, s.current));
    SurvivorsCounted(s);
    SurvivorsSane(s);
    hide Separated, Placed, Populated, Lawful, Wired, Rooted, SoftBlocked, PostOrder;
  }

  lemma PopulatedDetached(s: State)
    requires Core(s) && s.current != null && s.current in s.tree.kids
    ensures Populated(Doomed(s).tree, s.place) && Doomed(s).tree.kids.Keys == s.tree.kids.Keys
  {
  }

  /* ------------------------------------------------ creating */

  /** s after p, the first free process, has become live but not yet ready. */
  function Born(s: State, p: Pcb): State
    requires s.free != [] && s.current != null && s.current in s.tree.kids
  {
    var n := AllocPcb(s).1;
    n.(tree := Adopt(n.tree, s.current, p), procCnt := n.procCnt + 1)
  }

  lemma FirstFree(s: State)
    requires Core(s) && s.free != []
    ensures s.free[0] in s.place && s.place[s.free[0]] == Free && s.free[0] !in s.tree.kids
  {
    assert s.free[0] in s.free;
  }

  lemma RootedAdopt(t: Tree, root: Pcb?, p: Pcb, c: Pcb)
    requires Rooted(t, root) && p in t.kids && c !in t.kids
    ensures Rooted(Adopt(t, p, c), root)
  {
    AdoptForest(t, p, c);
  }

  lemma CreateOrdered(s: State)
    requires Core(s) && s.free != [] && s.current != null && s.current in s.tree.kids
    ensures Ordered(InsertReady(Born(s, s.free[0]), s.free[0]))
    ensures InsertReady(Born(s, s.free[0]), s.free[0]).place == s.place[s.free[0] := Ready]
  {
    hide Core, Apart, InPlace, Forest, Adopt, Lawful, Wired, Populated, Rooted;
    CoreParts(s);
    AllocOrdered(s);
    FirstFree(s);
    InsertReadyOrdered(Born(s, s.free[0]), s.free[0]);
    assert s.place[s.free[0] := Limbo][s.free[0] := Ready] == s.place[s.free[0] := Ready];
  }

  lemma PopulatedAdopt(t: Tree, place: map<Pcb, Place>, p: Pcb, c: Pcb)
    requires Populated(t, place) && p in t.kids && c in place && c !in t.kids
    ensures Populated(Adopt(t, p, c), place[c := Ready])
    ensures |Adopt(t, p, c).kids| == |t.kids| + 1
  {
    assert Adopt(t, p, c).kids.Keys == t.kids.Keys + {c};
  }

  lemma CreateCounted(s: State)
    requires Core(s) && s.free != [] && s.current != null && s.current in s.tree.kids
    ensures var t, at := Adopt(s.tree, s.current, s.free[0]), s.place[s.free[0] := Ready];
            && Populated(t, at) && Rooted(t, s.root)
            && |t.kids| == |s.tree.kids| + 1
            && |SoftBlocked(s.devBase, at)| == |SoftBlocked(s.devBase, s.place)|
  {
    hide Core, Ordered, Populated, Lawful, Wired, Rooted, SoftBlocked, Adopt;
    var p := s.free[0];
    CoreParts(s);
    FirstFree(s);
    SoftMoved(s.devBase, s.place, p, Ready);
    PopulatedAdopt(s.tree, s.place, s.current, p);
    RootedAdopt(s.tree, s.root, s.current, p);
  }

  lemma CreateCore(s: State)
    requires Core(s) && s.free != [] && s.current != null && s.current in s.tree.kids
    ensures Core(InsertReady(Born(s, s.free[0]), s.free[0]))
  {
    hide Separated, Placed, Populated, Lawful, Wired, Rooted, SoftBlocked, Adopt;
    CreateOrdered(s);
    CreateCounted(s);
  }

  lemma CreateProcessInv(s: State)
    requires Inv(s) && s.status == Active && s.current != null && s.current in s.tree.kids
    ensures Inv(CreateProcess(s))
  {
    if s.free != [] {
      CreateCore(s);
      hide Separated, Placed, Populated, Lawful, Wired, Rooted, SoftBlocked, Adopt;
    }
  }

  /* ------------------------------------------------ the clock */

  lemma TickedOrdered(s: State, a: Addr)
    requires Ordered(s) && a in s.blocked
    ensures Ordered(Ticked(s, a))
  {
    var n := Ticked(s, a);
    assert forall p | p in s.blocked[a] :: s.place[p] == Waits(a);
    DistinctAppend(s.ready, s.blocked[a]);
    forall p | p in n.place ensures Holds(n.free, n.ready, n.current, n.blocked, p, n.place[p]) {
      assert Holds(s.free, s.ready, s.current, s.blocked, p, s.place[p]);
    }
  }

  lemma TickedSoft(s: State, a: Addr)
    requires Separated(s) && a in s.blocked && IsDevice(s.devBase, a)
    ensures |SoftBlocked(s.devBase, Ticked(s, a).place)| == |SoftBlocked(s.devBase, s.place)| - |s.blocked[a]|
  {
    var q, before := s.blocked[a], SoftBlocked(s.devBase, s.place);
    assert forall p | p in q :: s.place[p] == Waits(a);
    assert SoftBlocked(s.devBase, Ticked(s, a).place) == before - Elements(q);
    assert Elements(q) <= before;
    DistinctCardinality(q);
  }

  lemma TickedPopulated(s: State, a: Addr)
    requires Separated(s) && a in s.blocked && Populated(s.tree, s.place)
    ensures Populated(s.tree, Ticked(s, a).place)
  {
    assert forall p | p in s.blocked[a] :: s.place[p] == Waits(a);
  }

  lemma TickedCore(s: State, a: Addr)
    requires Core(s) && a in s.value && a in s.blocked && IsDevice(s.devBase, a)
    ensures Core(Ticked(s, a))
  {
    hide Apart, InPlace, Populated, Lawful, Wired, Rooted, SoftBlocked;
    TickedOrdered(s, a);
    TickedSoft(s, a);
    TickedPopulated(s, a);
    LawfulAt(s, a, [], 0, 0);
    WiredAt(s, a, 0);
  }

  lemma TickInv(s: State, a: Addr)
    requires Inv(s) && s.status == Active && a in s.value && a in s.blocked && IsDevice(s.devBase, a)
    ensures Inv(Tick(s, a))
  {
    hide Core, Resume;
    TickedCore(s, a);
    ResumeInv(Ticked(s, a));
  }
}
