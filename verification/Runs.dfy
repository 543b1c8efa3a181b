/** Runs of the nucleus: any sequence of system calls and interrupts that the machine lets happen. */
module Runs {
  import opened Pcbs
  import opened Seqs
  import opened Family
  import opened Machine
  import opened Killing
  import opened Steps

  /** Trap is any exception passed up to the process's own handler, or fatal to it. */
  datatype Event =
    | Create
    | Terminate
    | V(a: Addr)
    | P(a: Addr)
    | WaitClock
    | WaitIo(lineNo: nat, devNo: nat, read: nat)
    | Trap(handled: bool)
    | Quantum
    | ClockTick
    | DeviceDone(index: nat)

  /** Waiting on a line below the device lines is fatal. */
  predicate Kills(e: Event) {
    e.Terminate? || (e.Trap? && !e.handled) || (e.WaitIo? && e.lineNo < DISKINT)
  }

  predicate IsInterrupt(e: Event) {
    e.Quantum? || e.ClockTick? || e.DeviceDone?
  }

  function Clock(s: State): Addr
    requires 0 <= s.devBase && s.devBase + 4 * DEVICECNT <= NULL_ADDR
  {
    DeviceAdd(s.devBase, CLOCK)
  }

  /**
   A system call needs a process to make it. P and V are for semaphores of the processes' own; a
   device that interrupts has its semaphore in the array, below the clock's.
   */
  predicate Legal(s: State, e: Event) {
    && s.status == Active
    && (IsInterrupt(e) || s.current != null)
    && match e
       case V(a) => a in s.value && !IsDevice(s.devBase, a)
       case P(a) => a in s.value && !IsDevice(s.devBase, a)
       case WaitIo(l, d, r) => l < DISKINT || DeviceIndex(l, d, r) < DEVICECNT
       case DeviceDone(i) => i < CLOCK
       case _ => true
  }

  /** What the handlers rely on to be well defined: real semaphores, a real tree, a mapped array. */
  ghost predicate Callable(s: State) {
    && Forest(s.tree)
    && s.tree.kids.Keys <= s.place.Keys
    && (s.current != null ==> s.current in s.tree.kids)
    && s.value.Keys == s.blocked.Keys
    && 0 <= s.devBase && s.devBase + 4 * DEVICECNT <= NULL_ADDR
    && (forall i | 0 <= i < DEVICECNT :: DeviceAdd(s.devBase, i) in s.value)
  }

  lemma CoreCallable(s: State)
    requires Core(s)
    ensures Callable(s)
  {
    if s.current != null { RunningIsLive(s); }
  }

  ghost function DoWait(s: State, i: nat): State
    requires Callable(s) && s.current != null && i < DEVICECNT
  {
    WaitDevice(s, DeviceAdd(s.devBase, i))
  }

  ghost function Do(s: State, e: Event): (r: State)
    requires Callable(s) && Legal(s, e)
    ensures SameMachine(s, r)
  {
    match e
    case Create => CreateProcess(s)
    case Terminate => TerminateProcess(s)
    case V(a) => Verhogen(s, a)
    case P(a) => Passeren(s, a)
    case WaitClock => DoWait(s, CLOCK)
    case WaitIo(l, d, r) => if l < DISKINT then TerminateProcess(s) else DoWait(s, DeviceIndex(l, d, r))
    case Trap(handled) => if handled then s else TerminateProcess(s)
    case Quantum => QuantumEnd(s)
    case ClockTick => Tick(s, Clock(s))
    case DeviceDone(i) => Interrupt(s, DeviceAdd(s.devBase, i))
  }

  /* ------------------------------------------------ one step */

  lemma KillInv(s: State)
    requires Inv(s) && s.status == Active && s.current != null && Callable(s)
    ensures var d := PostOrder(s.tree, s.current);
            if Survivable(s) then
              TerminateProcess(s) == Scheduler(Survivors(Doomed(s), d)) && Inv(TerminateProcess(s))
            else TerminateProcess(s).status == Corrupted
  {
    hide Core, Survivors, Killable, Victims, TailFirst;
    DoomedKillable(s);
    SurvivorsCore(s);
    KillAllOutcome(Doomed(s), PostOrder(s.tree, s.current));
    var d := PostOrder(s.tree, s.current);
    assert TailOrder(s, d) == TailOrder(Doomed(s), d);
    if Survivable(s) {
      SchedulerInv(Survivors(Doomed(s), d));
    }
  }

  lemma CallInv(s: State, e: Event)
    requires Inv(s) && Callable(s) && Legal(s, e) && !Kills(e) && !IsInterrupt(e)
    ensures Inv(Do(s, e))
  {
    hide Core, CreateProcess, Verhogen, Passeren, WaitDevice, Forest;
    match e
    case Create => CreateProcessInv(s);
    case V(a) => VerhogenInv(s, a);
    case P(a) => WaitInv(s, a);
    case WaitClock => WaitInv(s, Clock(s));
    case WaitIo(l, d, r) => WaitInv(s, DeviceAdd(s.devBase, DeviceIndex(l, d, r)));
    case Trap(_) =>
  }

  lemma IrqInv(s: State, e: Event)
    requires Inv(s) && Callable(s) && Legal(s, e) && IsInterrupt(e)
    ensures Inv(Do(s, e))
  {
    hide Core, QuantumEnd, Tick, Interrupt, Forest;
    match e
    case Quantum => QuantumEndInv(s);
    case ClockTick => TickInv(s, Clock(s));
    case DeviceDone(i) => InterruptInv(s, DeviceAdd(s.devBase, i));
  }

  /**
   Every event keeps the invariant. The one exception is a kill, and only with outProcQ as it is
   written: it corrupts the state exactly when some victim has a survivor, or a victim that is
   killed later, behind it in its queue.
   */
  lemma StepInv(s: State, e: Event)
    requires Inv(s) && Callable(s) && Legal(s, e)
    ensures Do(s, e).status != Corrupted ==> Inv(Do(s, e))
    ensures Do(s, e).status == Corrupted <==> Kills(e) && !Survivable(s)
  {
    hide Core, Survivable, TerminateProcess, Forest;
    if Kills(e) {
      KillInv(s);
    } else if IsInterrupt(e) {
      IrqInv(s, e);
    } else {
      CallInv(s, e);
    }
  }

  /* ------------------------------------------------ whole runs */

  ghost predicate LegalRun(s: State, es: seq<Event>)
    decreases |es|
  {
    es == [] || (Callable(s) && Legal(s, es[0]) && LegalRun(Do(s, es[0]), es[1..]))
  }

  ghost function Run(s: State, es: seq<Event>): State
    requires LegalRun(s, es)
    decreases |es|
  {
    if es == [] then s else Run(Do(s, es[0]), es[1..])
  }

  /** The invariant holds throughout every run, unless a kill as written corrupted it. */
  lemma {:induction false} RunInv(s: State, es: seq<Event>)
    requires Inv(s) && LegalRun(s, es)
    ensures Run(s, es).status != Corrupted ==> Inv(Run(s, es))
    ensures s.scan.FromHead? ==> Inv(Run(s, es))
    decreases |es|
  {
    if es != [] {
      StepInv(s, es[0]);
      if Do(s, es[0]).status != Corrupted {
        RunInv(Do(s, es[0]), es[1..]);
      } else {
        assert es[1..] == [];
      }
    }
  }

  /* ------------------------------------------------ start-up */

  /** The state main leaves for its first call of the scheduler: one ready process, all else free. */
  ghost function Boot(base: int, scan: Scan, pcbs: seq<Pcb>, value: map<Addr, int>): State
    requires pcbs != []
  {
    var p := pcbs[0];
    State(base, scan, pcbs[1..], [p], null, map a | a in value :: [],
          map q | q in pcbs :: if q == p then Ready else Free,
          Tree(map[p := []], map[p := null], map[p := 0], 1), p,
          value, map a | a in value :: 0, 1, 0, false, Active, 0)
  }

  lemma BootOrdered(base: int, scan: Scan, pcbs: seq<Pcb>, value: map<Addr, int>)
    requires pcbs != [] && Distinct(pcbs) && NULL_ADDR !in value
    ensures Separated(Boot(base, scan, pcbs, value)) && Placed(Boot(base, scan, pcbs, value))
  {
    var s := Boot(base, scan, pcbs, value);
    assert pcbs == [pcbs[0]] + pcbs[1..];
    forall a | a in s.blocked ensures a != NULL_ADDR && Listed(s.place, s.blocked[a], Waits(a)) {
    }
    assert Listed(s.place, s.free, Free);
  }

  lemma BootCounted(base: int, scan: Scan, pcbs: seq<Pcb>, value: map<Addr, int>)
    requires pcbs != []
    ensures var s := Boot(base, scan, pcbs, value);
            && Populated(s.tree, s.place) && Rooted(s.tree, s.root)
            && |s.tree.kids| == 1 && |SoftBlocked(base, s.place)| == 0
  {
    var s := Boot(base, scan, pcbs, value);
    assert SoftBlocked(base, s.place) == {};
    assert s.tree.kids.Keys == {pcbs[0]};
  }

  lemma BootLawful(base: int, scan: Scan, pcbs: seq<Pcb>, value: map<Addr, int>)
    requires pcbs != [] && 0 <= base && base + 4 * DEVICECNT <= NULL_ADDR
    requires forall i | 0 <= i < DEVICECNT :: DeviceAdd(base, i) in value && value[DeviceAdd(base, i)] == 0
    requires forall a | a in value :: value[a] >= 0
    ensures var s := Boot(base, scan, pcbs, value);
            Lawful(base, s.blocked, s.value, s.owed) && Wired(base, s.value)
  {
    assert DeviceAdd(base, CLOCK) in value;
  }

  /** The machine starts inside its invariant. */
  lemma BootInv(base: int, scan: Scan, pcbs: seq<Pcb>, value: map<Addr, int>)
    requires pcbs != [] && Distinct(pcbs)
    requires 0 <= base && base + 4 * DEVICECNT <= NULL_ADDR && NULL_ADDR !in value
    requires forall i | 0 <= i < DEVICECNT :: DeviceAdd(base, i) in value && value[DeviceAdd(base, i)] == 0
    requires forall a | a in value :: value[a] >= 0
    ensures Inv(Scheduler(Boot(base, scan, pcbs, value)))
  {
    hide Separated, Placed, Populated, Rooted, Lawful, Wired, SoftBlocked, Scheduler;
    BootOrdered(base, scan, pcbs, value);
    BootCounted(base, scan, pcbs, value);
    BootLawful(base, scan, pcbs, value);
    SchedulerInv(Boot(base, scan, pcbs, value));
  }
}
