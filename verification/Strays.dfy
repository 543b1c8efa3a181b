/**
 System calls and interrupts on semaphores they are not meant for: P and V on a device's, a wait on one
 that is no device's, and the interrupts of terminals whose slot is the clock's or lies past the array.
 Each keeps the invariant in some cases, and here are exactly those.
 */
module Strays {
  import opened Pcbs
  import opened Seqs
  import opened Family
  import opened Machine
  import opened Killing
  import opened Steps
  import opened Runs
  import opened Guarantees

  predicate IsClock(base: int, a: int) {
    a == DeviceAdd(base, CLOCK)
  }

  /** V counts nobody out of the soft-blocked, and must not make the clock's value positive. */
  predicate VerhogenKeeps(s: State, a: Addr)
    requires a in s.value
  {
    !IsDevice(s.devBase, a) || (s.value[a] >= 0 && !IsClock(s.devBase, a))
  }

  /** P counts nobody in. */
  predicate PasserenKeeps(s: State, a: Addr)
    requires a in s.value
  {
    !IsDevice(s.devBase, a) || s.value[a] > 0
  }

  /** A wait that blocks counts its caller in. */
  predicate WaitKeeps(s: State, a: Addr)
    requires a in s.value
  {
    IsDevice(s.devBase, a) || s.value[a] > 0
  }

  /** An interrupt that wakes somebody counts it out. */
  predicate InterruptKeeps(s: State, a: Addr)
    requires a in s.value
  {
    if IsClock(s.devBase, a) then s.value[a] < 0 else IsDevice(s.devBase, a) || s.value[a] >= 0
  }

  /* ------------------------------------------------ how the invariant is lost */

  /** If c were the right count of the soft-blocked, the scheduler does not make another one right. */
  lemma Miscounted(s: State, c: int)
    requires Core(s.(sftBlkCnt := c)) && s.sftBlkCnt != c
    ensures !Core(s)
    ensures s.current == null ==> !Core(Scheduler(s))
  {
    hide Separated, Placed, Populated, Lawful, Wired, Rooted, SoftBlocked;
    var n := s.(waiting := false, dispatches := s.dispatches + 1);
    if s.current == null && s.status == Active && s.ready != [] {
      IdleCore(s.(sftBlkCnt := c), false);
      DispatchCore(s.(sftBlkCnt := c, waiting := false, dispatches := s.dispatches + 1));
      assert Dispatch(n.(sftBlkCnt := c)) == Dispatch(n).(sftBlkCnt := c);
    }
  }

  lemma MiscountedResume(s: State, c: int)
    requires Core(s.(sftBlkCnt := c)) && s.sftBlkCnt != c && (s.waiting ==> s.current == null)
    ensures !Core(Resume(s))
  {
    hide Core, Scheduler;
    Miscounted(s, c);
  }

  /** A clock semaphore above zero. */
  lemma ClockAhead(s: State, a: Addr)
    requires IsClock(s.devBase, a) && a in s.value && s.value[a] > 0
    ensures !Core(s)
  {
    hide Separated, Placed, Populated, Lawful, Rooted, SoftBlocked;
  }

  lemma Unlawful(s: State, a: Addr)
    requires a in s.value && a in s.blocked && a in s.owed && |s.blocked[a]| + s.owed[a] != Deficit(s.value[a])
    ensures !Core(s)
  {
    hide Separated, Placed, Populated, Wired, Rooted, SoftBlocked;
  }

  /* ------------------------------------------------ V */

  lemma VerhogenWakes(s: State, a: Addr)
    requires a in s.value && a in s.blocked && s.blocked[a] != [] && s.value[a] < 0
    ensures Verhogen(s, a) == Wake(s, a).(sftBlkCnt := s.sftBlkCnt)
  {
    var p := s.blocked[a][0];
    assert s.place[p := Limbo][p := Ready] == s.place[p := Ready];
  }

  lemma VerhogenFindsNone(s: State, a: Addr)
    requires a in s.value && a in s.blocked && (s.value[a] >= 0 || s.blocked[a] == [])
    ensures Verhogen(s, a) == s.(value := s.value[a := s.value[a] + 1])
  {
  }

  lemma VerhogenExact(s: State, a: Addr)
    requires Inv(s) && s.status == Active && a in s.value && a in s.blocked
    ensures Inv(Verhogen(s, a)) <==> VerhogenKeeps(s, a)
  {
    hide Core, Verhogen, Wake;
    LawAt(s, a);
    if !IsDevice(s.devBase, a) {
      VerhogenInv(s, a);
    } else if s.value[a] >= 0 {
      VerhogenFindsNone(s, a);
      if IsClock(s.devBase, a) { ClockAhead(Verhogen(s, a), a); } else { RaisedCore(s, a); }
    } else if s.blocked[a] == [] {
      VerhogenFindsNone(s, a);
      Unlawful(Verhogen(s, a), a);
    } else {
      VerhogenWakes(s, a);
      WakeCore(s, a);
      WakeCounts(s, a);
      Miscounted(Verhogen(s, a), Wake(s, a).sftBlkCnt);
    }
  }

  lemma WakeCounts(s: State, a: Addr)
    requires a in s.value && a in s.blocked && s.blocked[a] != []
    ensures Wake(s, a).sftBlkCnt == s.sftBlkCnt - if IsDevice(s.devBase, a) then 1 else 0
    ensures Wake(s, a).(sftBlkCnt := s.sftBlkCnt).(sftBlkCnt := Wake(s, a).sftBlkCnt) == Wake(s, a)
  {
  }

  /* ------------------------------------------------ P, and waiting for a device */

  /** s after its running process has been blocked on a, with c soft-blocked processes. */
  function BlockedAt(s: State, a: Addr, c: int): State
    requires a in s.value && a in s.blocked && s.current != null
  {
    Blocked(s, a).(sftBlkCnt := c)
  }

  lemma WaitsBlock(s: State, a: Addr)
    requires Ordered(s) && s.current != null && a in s.value && a in s.blocked && s.value[a] <= 0
    ensures Passeren(s, a) == Scheduler(BlockedAt(s, a, s.sftBlkCnt))
    ensures WaitDevice(s, a) == Scheduler(BlockedAt(s, a, s.sftBlkCnt + 1))
  {
    hide Ordered, Block, Scheduler;
    BlockIsBlocked(s, a);
    BlockCounts(s, a);
  }

  lemma BlockCounts(s: State, a: Addr)
    requires a in s.value && a in s.blocked && s.current != null
    ensures Block(s.(value := s.value[a := s.value[a] - 1]), a).sftBlkCnt == s.sftBlkCnt
  {
  }

  lemma WaitsPass(s: State, a: Addr)
    requires s.current != null && a in s.value && a in s.blocked && s.value[a] > 0
    ensures Passeren(s, a) == WaitDevice(s, a) == s.(value := s.value[a := s.value[a] - 1])
  {
    hide Block, Scheduler;
  }

  lemma TakenInv(s: State, a: Addr)
    requires Inv(s) && a in s.value && s.value[a] > 0
    ensures Inv(s.(value := s.value[a := s.value[a] - 1]))
  {
    hide Core;
    TakeCore(s, a);
  }

  /** The scheduler after a block, with the right count and with another. */
  lemma BlockedExact(s: State, a: Addr, c: int)
    requires Inv(s) && s.status == Active && s.current != null && a in s.value && a in s.blocked && s.value[a] <= 0
    ensures Inv(Scheduler(BlockedAt(s, a, c))) <==> c == s.sftBlkCnt + if IsDevice(s.devBase, a) then 1 else 0
  {
    hide Core, Scheduler;
    BlockedCore(s, a);
    var n := Blocked(s, a);
    assert n.(sftBlkCnt := n.sftBlkCnt) == n && BlockedAt(s, a, c).(sftBlkCnt := n.sftBlkCnt) == n;
    if c == n.sftBlkCnt { SchedulerInv(n); } else { Miscounted(BlockedAt(s, a, c), n.sftBlkCnt); }
  }

  lemma PasserenExact(s: State, a: Addr)
    requires Inv(s) && s.status == Active && s.current != null && a in s.value && a in s.blocked
    ensures Inv(Passeren(s, a)) <==> PasserenKeeps(s, a)
  {
    hide Core, Ordered, Populated, Rooted, Lawful, Wired, Forest, Passeren, Scheduler, BlockedAt;
    CoreParts(s);
    if s.value[a] > 0 {
      WaitsPass(s, a);
      TakenInv(s, a);
    } else {
      WaitsBlock(s, a);
      BlockedExact(s, a, s.sftBlkCnt);
    }
  }

  lemma WaitExact(s: State, a: Addr)
    requires Inv(s) && s.status == Active && s.current != null && a in s.value && a in s.blocked
    ensures Inv(WaitDevice(s, a)) <==> WaitKeeps(s, a)
  {
    hide Core, Ordered, Populated, Rooted, Lawful, Wired, Forest, WaitDevice, Scheduler, BlockedAt;
    CoreParts(s);
    if s.value[a] > 0 {
      WaitsPass(s, a);
      TakenInv(s, a);
    } else {
      WaitsBlock(s, a);
      BlockedExact(s, a, s.sftBlkCnt + 1);
    }
  }

  /* ------------------------------------------------ interrupts */

  lemma InterruptWakes(s: State, a: Addr)
    requires a in s.value && a in s.blocked && s.blocked[a] != [] && s.value[a] < 0
    ensures Interrupt(s, a) == Resume(Wake(s, a).(sftBlkCnt := s.sftBlkCnt - 1))
  {
    hide Resume;
    var p := s.blocked[a][0];
    assert s.place[p := Limbo][p := Ready] == s.place[p := Ready];
  }

  lemma InterruptPasses(s: State, a: Addr)
    requires a in s.value && a in s.blocked && s.value[a] >= 0
    ensures Interrupt(s, a) == Resume(s.(value := s.value[a := s.value[a] + 1]))
  {
    hide Resume;
  }

  lemma InterruptExact(s: State, a: Addr)
    requires Inv(s) && s.status == Active && a in s.value && a in s.blocked
    ensures Inv(Interrupt(s, a)) <==> InterruptKeeps(s, a)
  {
    hide Core, Interrupt, Resume, Wake;
    LawAt(s, a);
    ClockIsDevice(s.devBase, a);
    if s.value[a] >= 0 {
      var n := s.(value := s.value[a := s.value[a] + 1]);
      InterruptPasses(s, a);
      if IsClock(s.devBase, a) {
        SchedulerValues(n);
        ClockAhead(Resume(n), a);
      } else {
        RaisedCore(s, a);
        ResumeInv(n);
      }
    } else if IsDevice(s.devBase, a) {
      InterruptInv(s, a);
    } else {
      InterruptWakes(s, a);
      WakeCore(s, a);
      WakeCounts(s, a);
      WakeOnly(s, a);
      MiscountedResume(Wake(s, a).(sftBlkCnt := s.sftBlkCnt - 1), s.sftBlkCnt);
    }
  }

  lemma ClockIsDevice(base: int, a: int)
    ensures IsClock(base, a) ==> IsDevice(base, a)
  {
  }

  lemma WakeOnly(s: State, a: Addr)
    requires a in s.value && a in s.blocked && s.blocked[a] != []
    ensures Wake(s, a).waiting == s.waiting && Wake(s, a).current == s.current && Wake(s, a).status == s.status
  {
  }

  /* ------------------------------------------------ runs that get there */

  /** After start-up, once the first process has made another. */
  ghost function Two(base: int, scan: Scan, pcbs: seq<Pcb>, value: map<Addr, int>): (s: State)
    requires |pcbs| >= 2
    requires forall i | 0 <= i < DEVICECNT :: DeviceAdd(base, i) in value && value[DeviceAdd(base, i)] == 0
    ensures s.status == Active && s.current == pcbs[0] && s.ready == [pcbs[1]]
    ensures s.devBase == base && s.value == value && s.blocked.Keys == value.Keys
  {
    CreateProcess(Scheduler(Boot(base, scan, pcbs, value)))
  }

  lemma TwoInv(base: int, scan: Scan, pcbs: seq<Pcb>, value: map<Addr, int>)
    requires |pcbs| >= 2 && Distinct(pcbs)
    requires 0 <= base && base + 4 * DEVICECNT <= NULL_ADDR && NULL_ADDR !in value
    requires forall i | 0 <= i < DEVICECNT :: DeviceAdd(base, i) in value && value[DeviceAdd(base, i)] == 0
    requires forall b | b in value :: value[b] >= 0
    ensures Inv(Two(base, scan, pcbs, value))
  {
    hide Core, CreateProcess;
    BootInv(base, scan, pcbs, value);
    CreateProcessInv(Scheduler(Boot(base, scan, pcbs, value)));
  }

  /**
   Then one step is enough: a read interrupt of terminal 5, P on any device, V on the clock, or a wait
   on a slot past the array.
   */
  lemma FirstStrays(base: int, scan: Scan, pcbs: seq<Pcb>, value: map<Addr, int>, a: Addr)
    requires |pcbs| >= 2 && Distinct(pcbs)
    requires 0 <= base && base + 4 * DEVICECNT <= NULL_ADDR && NULL_ADDR !in value
    requires forall i | 0 <= i < DEVICECNT :: DeviceAdd(base, i) in value && value[DeviceAdd(base, i)] == 0
    requires forall b | b in value :: value[b] >= 0
    requires a in value && !IsDevice(base, a) && value[a] == 0
    ensures var s, clock, device := Two(base, scan, pcbs, value), DeviceAdd(base, CLOCK), DeviceAdd(base, 0);
            && Inv(s) && clock in s.value && device in s.value
            && !Inv(Interrupt(s, clock)) && !Inv(Verhogen(s, clock))
            && !Inv(Passeren(s, device)) && !Inv(WaitDevice(s, a))
  {
    hide Core, Two, Interrupt, Verhogen, Passeren, WaitDevice;
    TwoInv(base, scan, pcbs, value);
    var s, clock := Two(base, scan, pcbs, value), DeviceAdd(base, CLOCK);
    assert DeviceAdd(base, 0) in value && clock in value;
    InterruptExact(s, clock);
    VerhogenExact(s, clock);
    PasserenExact(s, DeviceAdd(base, 0));
    WaitExact(s, a);
  }

  /** And two for V on a device that somebody waits for, and for an interrupt past the array. */
  lemma SecondStrays(s: State, a: Addr)
    requires Inv(s) && s.status == Active && s.current != null && s.ready != []
    requires a in s.value && a in s.blocked && s.value[a] == 0 && !IsClock(s.devBase, a)
    ensures IsDevice(s.devBase, a) ==>
              var n := WaitDevice(s, a);
              && Inv(n) && n.status == Active && n.current != null
              && a in n.value && a in n.blocked && !Inv(Verhogen(n, a))
    ensures !IsDevice(s.devBase, a) ==>
              var n := Passeren(s, a);
              Inv(n) && n.status == Active && a in n.value && a in n.blocked && !Inv(Interrupt(n, a))
  {
    hide Core, Ordered, Populated, Rooted, Lawful, Wired, Forest, Interrupt, Verhogen, Passeren, WaitDevice, Scheduler;
    CoreParts(s);
    WaitsBlock(s, a);
    WaitExact(s, a);
    PasserenExact(s, a);
    if IsDevice(s.devBase, a) {
      Dispatched(BlockedAt(s, a, s.sftBlkCnt + 1));
      VerhogenExact(WaitDevice(s, a), a);
    } else {
      Dispatched(BlockedAt(s, a, s.sftBlkCnt));
      InterruptExact(Passeren(s, a), a);
    }
  }

  lemma Dispatched(s: State)
    requires s.status == Active && s.ready != []
    ensures var n := Scheduler(s);
            && n.status == Active && n.current == s.ready[0] && n.devBase == s.devBase
            && n.value == s.value && n.blocked == s.blocked
  {
  }
}
