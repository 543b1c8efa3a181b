/** What the nucleus promises, over every state and every run that keeps its invariant. */
module Guarantees {
  import opened Pcbs
  import opened Seqs
  import opened Family
  import opened Machine
  import opened Killing
  import opened Steps
  import opened Runs

  /* ------------------------------------------------ where processes are */

  ghost function One(b: bool): nat {
    if b then 1 else 0
  }

  ghost predicate BlockedSomewhere(s: State, p: Pcb) {
    exists a | a in s.blocked :: p in s.blocked[a]
  }

  /** Every process is on exactly one list, and on one semaphore's queue at most. */
  lemma OnePlace(s: State, p: Pcb)
    requires Core(s) && p in s.place
    ensures One(p in s.free) + One(p in s.ready) + One(p == s.current) + One(BlockedSomewhere(s, p)) == 1
    ensures forall a, b | a in s.blocked && b in s.blocked && p in s.blocked[a] && p in s.blocked[b] :: a == b
    ensures p in s.free <==> p !in s.tree.kids
    ensures BlockedSomewhere(s, p) <==> s.place[p].Waits?
  {
    assert Holds(s.free, s.ready, s.current, s.blocked, p, s.place[p]);
    forall a | a in s.blocked && p in s.blocked[a] ensures s.place[p] == Waits(a) {
    }
  }

  /* ------------------------------------------------ the scheduler's decisions */

  ghost predicate WaitsForSignal(s: State, p: Pcb) {
    p in s.place && s.place[p].Waits? && !IsDevice(s.devBase, s.place[p].a)
  }

  lemma NobodyReady(s: State)
    requires Core(s)
    ensures s.ready == [] <==> forall p | p in s.place :: !s.place[p].Ready?
    ensures s.sftBlkCnt == 0 <==> forall p | p in s.place :: !IsSoft(s.devBase, s.place[p])
    ensures s.sftBlkCnt >= 0
  {
    if s.ready != [] { FirstReady(s); }
    if s.sftBlkCnt == 0 {
      assert SoftBlocked(s.devBase, s.place) == {};
      forall p | p in s.place ensures !IsSoft(s.devBase, s.place[p]) {
        assert p !in SoftBlocked(s.devBase, s.place);
      }
    } else {
      var p :| p in SoftBlocked(s.devBase, s.place);
    }
    forall p | p in s.place && s.place[p].Ready? ensures s.ready != [] {
      assert Holds(s.free, s.ready, s.current, s.blocked, p, s.place[p]);
    }
  }

  lemma WaitingOrNot(s: State)
    requires Core(s) && s.current == null
    ensures forall p | p in s.tree.kids ::
              WaitsForSignal(s, p) <==> !s.place[p].Ready? && !IsSoft(s.devBase, s.place[p])
    ensures s.tree.kids.Keys <= s.place.Keys
    ensures s.procCnt == 0 <==> s.tree.kids.Keys == {}
    ensures forall p | p in s.place && (s.place[p].Ready? || IsSoft(s.devBase, s.place[p])) :: p in s.tree.kids
  {
    forall p | p in s.tree.kids
      ensures WaitsForSignal(s, p) <==> !s.place[p].Ready? && !IsSoft(s.devBase, s.place[p])
    {
      assert Holds(s.free, s.ready, s.current, s.blocked, p, s.place[p]);
    }
    if s.procCnt == 0 { assert s.tree.kids.Keys == {}; }
  }

  /** The machine panics exactly when live processes remain and all of them wait for a signal. */
  lemma PanicExact(s: State)
    requires Core(s) && s.current == null && s.status == Active
    ensures Scheduler(s).status == Panicked <==>
            s.tree.kids.Keys != {} && forall p | p in s.tree.kids :: WaitsForSignal(s, p)
  {
    hide Core, WaitsForSignal, IsSoft;
    NobodyReady(s);
    WaitingOrNot(s);
  }

  /** It halts exactly when the first process is gone, and that takes everyone else along. */
  lemma HaltExact(s: State)
    requires Core(s) && s.current == null && s.status == Active && s.root != null
    ensures Scheduler(s).status == Halted <==> s.root !in s.tree.kids
    ensures s.root !in s.tree.kids <==> s.procCnt == 0
  {
    hide Separated, Placed, Lawful, Wired, Forest;
    if s.ready != [] { FirstReady(s); }
    if s.procCnt == 0 { assert s.tree.kids.Keys == {}; }
  }

  /** Nothing runs, nothing is ready, and nobody waits for a device or the clock. */
  ghost predicate Stuck(s: State) {
    Core(s) && s.current == null && s.ready == [] && SoftBlocked(s.devBase, s.place) == {}
  }

  /** A device's slot in the array, below the clock's. */
  type Slot = i: nat | i < CLOCK

  /** What the hardware can do by itself. */
  datatype Hardware = Clocks | Device(slot: Slot)

  ghost predicate Strikable(s: State) {
    Callable(s) && s.owed.Keys == s.value.Keys
  }

  /** s after the interrupt, before the scheduler has its say. */
  ghost function Strike(s: State, x: Hardware): State
    requires Strikable(s)
  {
    match x
    case Clocks => Ticked(s, Clock(s))
    case Device(i) => Interrupted(s, DeviceAdd(s.devBase, i))
  }

  lemma WaiterIsSoft(s: State, a: Addr)
    requires Core(s) && a in s.blocked && IsDevice(s.devBase, a) && s.blocked[a] != []
    ensures SoftBlocked(s.devBase, s.place) != {}
  {
    LawAt(s, a);
    assert s.blocked[a][0] in SoftBlocked(s.devBase, s.place);
  }

  lemma NoDeviceQueue(s: State, a: Addr)
    requires Stuck(s) && a in s.blocked && IsDevice(s.devBase, a)
    ensures s.blocked[a] == []
  {
    if s.blocked[a] != [] { WaiterIsSoft(s, a); }
  }

  lemma StrikeStuck(s: State, x: Hardware)
    requires Stuck(s) && Strikable(s)
    ensures Stuck(Strike(s, x))
  {
    var a := DeviceAdd(s.devBase, if x.Clocks? then CLOCK else x.slot);
    NoDeviceQueue(s, a);
    if x.Clocks? { TickedCore(s, a); TickedSoft(s, a); } else { InterruptedCore(s, a); }
  }

  ghost predicate StuckUnder(s: State, xs: seq<Hardware>)
    decreases |xs|
  {
    Stuck(s) && (xs == [] || (Strikable(s) && StuckUnder(Strike(s, xs[0]), xs[1..])))
  }

  /** A panic is no false alarm: no sequence of interrupts would ever make a process ready again. */
  lemma {:induction false} PanicIsDeadlock(s: State, xs: seq<Hardware>)
    requires Core(s) && s.current == null && s.status == Active && Scheduler(s).status == Panicked
    ensures StuckUnder(s, xs)
  {
    NobodyReady(s);
    assert SoftBlocked(s.devBase, s.place) == {};
    StuckForever(s, xs);
  }

  lemma {:induction false} StuckForever(s: State, xs: seq<Hardware>)
    requires Stuck(s)
    ensures StuckUnder(s, xs)
    decreases |xs|
  {
    CoreCallable(s);
    if xs != [] {
      StrikeStuck(s, xs[0]);
      StuckForever(Strike(s, xs[0]), xs[1..]);
    }
  }

  /* ------------------------------------------------ the kill */

  /** p and its descendants. */
  ghost function Subtree(t: Tree, p: Pcb): set<Pcb>
    requires Forest(t)
  {
    set q | q in t.kids && Descends(t, p, q)
  }

  lemma SubtreeOrder(t: Tree, p: Pcb)
    requires Forest(t) && p in t.kids
    ensures Elements(PostOrder(t, p)) == Subtree(t, p) && |PostOrder(t, p)| == |Subtree(t, p)|
    ensures forall q | q in t.kids :: q in PostOrder(t, p) <==> q in Subtree(t, p)
  {
    PostOrderExact(t, p);
    DistinctCardinality(PostOrder(t, p));
    assert Elements(PostOrder(t, p)) == Subtree(t, p);
  }

  lemma KillIsSurvivors(s: State)
    requires Inv(s) && s.status == Active && s.current != null && s.current in s.tree.kids
    requires s.tree.kids.Keys <= s.place.Keys && Survivable(s)
    ensures Kill(s, s.current) == Survivors(Doomed(s), PostOrder(s.tree, s.current))
  {
    DoomedKillable(s);
    hide Core, Killable, Victims, TailFirst;
    var d := PostOrder(s.tree, s.current);
    assert TailOrder(s, d) == TailOrder(Doomed(s), d);
    KillAllOutcome(Doomed(s), d);
  }

  lemma InReverse(d: seq<Pcb>, free: seq<Pcb>, p: Pcb)
    ensures p in Reverse(d) + free <==> p in free || p in Elements(d)
  {
    if p in d {
      var i :| 0 <= i < |d| && d[i] == p;
      assert Reverse(d)[|d| - 1 - i] == p;
    }
  }

  lemma SurvivorsQueues(s: State, d: seq<Pcb>)
    requires Core(s) && s.current != null && s.current in s.tree.kids && s.current in d
    ensures var n, ds := Survivors(Doomed(s), d), Elements(d);
            && n.current == null && n.ready == Minus(s.ready, ds)
            && n.tree.kids.Keys == s.tree.kids.Keys - ds
            && (forall p | p in s.place :: p in n.free <==> p in s.free || p in ds)
            && n.procCnt == s.procCnt - |d| && n.sftBlkCnt == s.sftBlkCnt - |SoftIn(s, ds)|
  {
    hide Core, Ordered, Populated, Rooted, Lawful, Wired, Minus, Raise, Elements, Reverse, Drop, Detach, QueuesMinus,
      Gone, PlaceMinus, Forest;
    RunningIsLive(s);
    CoreParts(s);
    forall p | p in s.place ensures p in Reverse(d) + s.free <==> p in s.free || p in Elements(d) {
      InReverse(d, s.free, p);
    }
    DroppedKeys(s.tree, s.current, Elements(d));
    assert SoftIn(Doomed(s), Elements(d)) == SoftIn(s, Elements(d));
  }

  lemma DroppedKeys(t: Tree, p: Pcb, d: set<Pcb>)
    requires Forest(t) && p in t.kids
    ensures Drop(Detach(t, p), d).kids.Keys == t.kids.Keys - d
  {
    hide Detach, Forest;
    DetachForest(t, p);
  }

  /** What a semaphore's value becomes when the processes of d are killed. */
  ghost function Refunded(s: State, a: Addr, d: set<Pcb>): int
    requires a in s.value && a in s.blocked
  {
    s.value[a] + if IsDevice(s.devBase, a) then 0 else |Elements(s.blocked[a]) * d|
  }

  lemma SurvivorsSemaphores(s: State, d: seq<Pcb>)
    requires Separated(s) && s.value.Keys == s.blocked.Keys
    requires s.current != null && Forest(s.tree) && s.current in s.tree.kids
    ensures var n, ds := Survivors(Doomed(s), d), Elements(d);
            n.blocked.Keys == s.blocked.Keys == n.value.Keys == s.value.Keys
            && forall a | a in s.blocked :: n.blocked[a] == Minus(s.blocked[a], ds) && n.value[a] == Refunded(s, a, ds)
  {
    KillSemaphores(s, Elements(d));
    RaisedBy(s, Elements(d), Gone(s.blocked, Elements(d)));
    hide Separated, Minus, Elements, Gone, Raise, Refunded, SoftIn, PlaceMinus, Drop, Reverse, Detach, Forest;
  }

  lemma RaisedBy(s: State, d: set<Pcb>, g: map<Addr, int>)
    requires g.Keys == s.value.Keys == s.blocked.Keys
    requires forall a | a in s.blocked :: g[a] == |Elements(s.blocked[a]) * d|
    ensures forall a | a in s.value :: Raise(s.devBase, s.value, g, false)[a] == Refunded(s, a, d)
  {
  }

  lemma KillSemaphores(s: State, d: set<Pcb>)
    requires Separated(s)
    ensures forall a | a in s.blocked :: Gone(s.blocked, d)[a] == |Elements(s.blocked[a]) * d|
  {
    forall a | a in s.blocked ensures |s.blocked[a]| - |Minus(s.blocked[a], d)| == |Elements(s.blocked[a]) * d| {
      MinusLength(s.blocked[a], d);
    }
  }

  /**
   Killing the running process removes it and its descendants and nobody else: every queue keeps its
   survivors in order, a semaphore of the processes' own rises by the number of killed waiters, a
   device's does not, and the counters drop by exactly the victims they counted.
   */
  lemma KillExact(s: State)
    requires Inv(s) && s.status == Active && s.current != null && s.current in s.tree.kids
    requires s.tree.kids.Keys <= s.place.Keys && Survivable(s)
    ensures var n, d := Kill(s, s.current), Subtree(s.tree, s.current);
            && n.current == null && n.ready == Minus(s.ready, d)
            && n.tree.kids.Keys == s.tree.kids.Keys - d
            && (forall p | p in s.place :: p in n.free <==> p in s.free || p in d)
            && n.procCnt == s.procCnt - |d| && n.sftBlkCnt == s.sftBlkCnt - |SoftIn(s, d)|
    ensures var n, d := Kill(s, s.current), Subtree(s.tree, s.current);
            n.blocked.Keys == s.blocked.Keys == n.value.Keys == s.value.Keys
            && forall a | a in s.blocked :: n.blocked[a] == Minus(s.blocked[a], d) && n.value[a] == Refunded(s, a, d)
  {
    var d := PostOrder(s.tree, s.current);
    SubtreeOrder(s.tree, s.current);
    KillIsSurvivors(s);
    assert s.current in d by { assert Last(d) == s.current; }
    SurvivorsQueues(s, d);
    SurvivorsSemaphores(s, d);
    hide Core, Forest, Survivors, Kill, PostOrder, Minus, Elements, Subtree, SoftIn, Refunded;
  }

  /* ------------------------------------------------ runs that corrupt nothing */

  /** A kill that corrupts nothing is one that succeeds. */
  lemma SparedKill(s: State, e: Event)
    requires Inv(s) && Callable(s) && Legal(s, e) && Kills(e) && Do(s, e).status != Corrupted
    ensures Survivable(s)
  {
    hide Core, Survivable, Do, Forest;
    StepInv(s, e);
  }

  /** Nothing happens after a corruption. */
  lemma FirstSpared(s: State, es: seq<Event>)
    requires LegalRun(s, es) && es != [] && Run(s, es).status != Corrupted
    ensures Do(s, es[0]).status != Corrupted
    ensures LegalRun(Do(s, es[0]), es[1..]) && Run(Do(s, es[0]), es[1..]) == Run(s, es)
  {
    hide Do, Callable;
  }

  /* ------------------------------------------------ bounded waiting for the processor */

  ghost predicate Dead(s: State, p: Pcb) {
    p !in s.tree.kids
  }

  /** p has run or died, or has at most k processes ahead of it. */
  ghost predicate Within(s: State, p: Pcb, k: int) {
    Dead(s, p) || s.current == p || exists j | 0 <= j < |s.ready| :: s.ready[j] == p && j <= k
  }

  lemma SchedulerProgress(m: State, p: Pcb, j: nat)
    requires j < |m.ready| && m.ready[j] == p && m.status == Active
    ensures Within(Scheduler(m), p, j - 1) && Scheduler(m).dispatches == m.dispatches + 1
  {
    if j > 0 {
      assert Scheduler(m).ready[j - 1] == p;
    }
  }

  lemma ResumeProgress(m: State, p: Pcb, j: nat)
    requires j < |m.ready| && m.ready[j] == p && m.status == Active
    ensures Within(Resume(m), p, j - (Resume(m).dispatches - m.dispatches))
  {
    if m.waiting { SchedulerProgress(m, p, j); }
  }

  lemma KillStaysActive(s: State)
    requires Inv(s) && s.status == Active && s.current != null && Callable(s) && Survivable(s)
    ensures Kill(s, s.current).status == Active && Kill(s, s.current).dispatches == s.dispatches
  {
    hide Core, Forest, Kill, PostOrder, Minus, Elements, Detach;
    KillIsSurvivors(s);
  }

  lemma PruneProgress(s: State, n: State, d: set<Pcb>, p: Pcb, k: nat)
    requires n.status == Active && n.ready == Minus(s.ready, d) && n.tree.kids.Keys == s.tree.kids.Keys - d
    requires k < |s.ready| && s.ready[k] == p
    ensures Within(Scheduler(n), p, k - 1) && Scheduler(n).dispatches == n.dispatches + 1
  {
    if p !in d {
      var j := MinusIndex(s.ready, d, k);
      SchedulerProgress(n, p, j);
    }
  }

  lemma KillProgress(s: State, p: Pcb, k: nat)
    requires Inv(s) && s.status == Active && s.current != null && Callable(s) && Survivable(s)
    requires k < |s.ready| && s.ready[k] == p
    ensures Within(TerminateProcess(s), p, k - 1)
    ensures TerminateProcess(s).dispatches == s.dispatches + 1
  {
    hide Core, Forest, Kill, Minus, Subtree, Within;
    KillStaysActive(s);
    KillExact(s);
    PruneProgress(s, Kill(s, s.current), Subtree(s.tree, s.current), p, k);
  }

  lemma PasserenProgress(s: State, a: Addr, p: Pcb, k: nat)
    requires a in s.value && a in s.blocked && s.current != null && s.status == Active
    requires k < |s.ready| && s.ready[k] == p
    ensures Within(Passeren(s, a), p, k - (Passeren(s, a).dispatches - s.dispatches))
  {
    hide Scheduler;
    if s.value[a] - 1 < 0 {
      SchedulerProgress(Block(s.(value := s.value[a := s.value[a] - 1]), a), p, k);
    } else {
      AppendProgress(s, Passeren(s, a), p, k, []);
    }
  }

  lemma WaitDeviceProgress(s: State, a: Addr, p: Pcb, k: nat)
    requires a in s.value && a in s.blocked && s.current != null && s.status == Active
    requires k < |s.ready| && s.ready[k] == p
    ensures Within(WaitDevice(s, a), p, k - (WaitDevice(s, a).dispatches - s.dispatches))
  {
    hide Scheduler;
    if s.value[a] - 1 < 0 {
      var m := Block(s.(value := s.value[a := s.value[a] - 1]), a);
      SchedulerProgress(m.(sftBlkCnt := m.sftBlkCnt + 1), p, k);
    } else {
      AppendProgress(s, WaitDevice(s, a), p, k, []);
    }
  }

  /** A longer queue behind p is no nearer the front for it, and no further either. */
  lemma AppendProgress(s: State, n: State, p: Pcb, k: nat, behind: seq<Pcb>)
    requires k < |s.ready| && s.ready[k] == p && n.ready == s.ready + behind
    ensures Within(n, p, k)
  {
    assert n.ready[k] == p;
  }

  lemma VerhogenProgress(s: State, a: Addr, p: Pcb, k: nat)
    requires a in s.value && a in s.blocked && k < |s.ready| && s.ready[k] == p
    ensures Within(Verhogen(s, a), p, k) && Verhogen(s, a).dispatches == s.dispatches
  {
    var n := Verhogen(s, a);
    assert n.ready == s.ready + n.ready[|s.ready|..];
    AppendProgress(s, n, p, k, n.ready[|s.ready|..]);
  }

  lemma InterruptProgress(s: State, a: Addr, p: Pcb, k: nat)
    requires a in s.value && a in s.blocked && a in s.owed && k < |s.ready| && s.ready[k] == p
    requires IsDevice(s.devBase, a) && (s.blocked[a] != [] ==> s.value[a] < 0) && s.status == Active
    ensures Within(Interrupt(s, a), p, k - (Interrupt(s, a).dispatches - s.dispatches))
  {
    hide Within, Resume, Interrupt;
    InterruptIsInterrupted(s, a);
    var m := Interrupted(s, a);
    assert m.ready[k] == p;
    ResumeProgress(m, p, k);
  }

  lemma CallProgress(s: State, e: Event, p: Pcb, k: nat)
    requires Callable(s) && Legal(s, e) && !Kills(e) && !IsInterrupt(e)
    requires k < |s.ready| && s.ready[k] == p
    ensures Within(Do(s, e), p, k - (Do(s, e).dispatches - s.dispatches))
  {
    hide Forest, Passeren, WaitDevice, Verhogen;
    match e
    case Create => AppendProgress(s, CreateProcess(s), p, k, CreateProcess(s).ready[|s.ready|..]);
    case V(a) => VerhogenProgress(s, a, p, k);
    case P(a) => PasserenProgress(s, a, p, k);
    case WaitClock => WaitDeviceProgress(s, Clock(s), p, k);
    case WaitIo(l, d, r) => WaitDeviceProgress(s, DeviceAdd(s.devBase, DeviceIndex(l, d, r)), p, k);
    case Trap(_) => AppendProgress(s, s, p, k, []);
  }

  lemma QuantumProgress(s: State, p: Pcb, k: nat)
    requires s.status == Active && k < |s.ready| && s.ready[k] == p
    ensures Within(QuantumEnd(s), p, k - (QuantumEnd(s).dispatches - s.dispatches))
  {
    SchedulerProgress(if s.current == null then s else Preempt(s), p, k);
  }

  lemma TickProgress(s: State, a: Addr, p: Pcb, k: nat)
    requires s.status == Active && a in s.blocked && k < |s.ready| && s.ready[k] == p
    ensures Within(Tick(s, a), p, k - (Tick(s, a).dispatches - s.dispatches))
  {
    ResumeProgress(Ticked(s, a), p, k);
  }

  lemma DeviceProgress(s: State, i: nat, p: Pcb, k: nat)
    requires Core(s) && Callable(s) && s.status == Active && i < CLOCK && k < |s.ready| && s.ready[k] == p
    ensures var n := Interrupt(s, DeviceAdd(s.devBase, i));
            Within(n, p, k - (n.dispatches - s.dispatches))
  {
    hide Core, Forest, Interrupt, Within;
    LawAt(s, DeviceAdd(s.devBase, i));
    InterruptProgress(s, DeviceAdd(s.devBase, i), p, k);
  }

  lemma IrqProgress(s: State, e: Event, p: Pcb, k: nat)
    requires Core(s) && Callable(s) && Legal(s, e) && IsInterrupt(e)
    requires k < |s.ready| && s.ready[k] == p
    ensures Within(Do(s, e), p, k - (Do(s, e).dispatches - s.dispatches))
  {
    hide Core, Forest, Within, QuantumEnd, Tick, Interrupt;
    match e
    case Quantum => QuantumProgress(s, p, k);
    case ClockTick => TickProgress(s, Clock(s), p, k);
    case DeviceDone(i) => DeviceProgress(s, i, p, k);
  }

  /** p has run or died by some point of the run. */
  ghost predicate Served(s: State, es: seq<Event>, p: Pcb)
    requires LegalRun(s, es)
    decreases |es|
  {
    Dead(s, p) || s.current == p || (es != [] && Served(Do(s, es[0]), es[1..], p))
  }

  lemma StepProgress(s: State, e: Event, p: Pcb, k: nat)
    requires Inv(s) && Callable(s) && Legal(s, e) && Do(s, e).status != Corrupted
    requires k < |s.ready| && s.ready[k] == p
    ensures Within(Do(s, e), p, k - (Do(s, e).dispatches - s.dispatches))
  {
    hide Core, Forest, Within, TerminateProcess;
    if Kills(e) {
      SparedKill(s, e);
      KillProgress(s, p, k);
    } else if IsInterrupt(e) {
      IrqProgress(s, e, p, k);
    } else {
      CallProgress(s, e, p, k);
    }
  }

  /**
   Round robin: a ready process with k others ahead of it has run, or died, by the (k+1)st call of
   the scheduler, whatever system calls and interrupts come in between.
   */
  lemma {:induction false} BoundedWaiting(s: State, es: seq<Event>, p: Pcb, k: nat)
    requires Inv(s) && LegalRun(s, es) && Run(s, es).status != Corrupted
    requires k < |s.ready| && s.ready[k] == p
    requires Run(s, es).dispatches - s.dispatches >= k + 1
    ensures Served(s, es, p)
    decreases |es|
  {
    hide Core, Forest, Do;
    var n := Do(s, es[0]);
    FirstSpared(s, es);
    StepInv(s, es[0]);
    StepProgress(s, es[0], p, k);
    if !Dead(n, p) && n.current != p {
      var j :| 0 <= j < |n.ready| && n.ready[j] == p && j <= k - (n.dispatches - s.dispatches);
      BoundedWaiting(n, es[1..], p, j);
    }
  }

  /* ------------------------------------------------ bounded waiting for a signal */

  ghost predicate Released(s: State, p: Pcb) {
    Dead(s, p) || (p in s.place && (s.place[p].Ready? || s.place[p].Running?))
  }

  /** p waits for a no longer, or has at most k waiters ahead of it. */
  ghost predicate Lingers(s: State, p: Pcb, a: Addr, k: int) {
    Released(s, p) || (a in s.blocked && exists j | 0 <= j < |s.blocked[a]| :: s.blocked[a][j] == p && j <= k)
  }

  /** A step that only lengthens the queue of a. */
  lemma AppendLingers(s: State, n: State, p: Pcb, a: Addr, k: nat, behind: seq<Pcb>)
    requires a in s.blocked && k < |s.blocked[a]| && s.blocked[a][k] == p
    requires a in n.blocked && n.blocked[a] == s.blocked[a] + behind
    ensures Lingers(n, p, a, k)
  {
    assert n.blocked[a][k] == p;
  }

  lemma PruneLingers(s: State, n: State, d: set<Pcb>, p: Pcb, a: Addr, k: nat)
    requires n.tree.kids.Keys == s.tree.kids.Keys - d
    requires a in s.blocked && k < |s.blocked[a]| && s.blocked[a][k] == p
    requires a in n.blocked && n.blocked[a] == Minus(s.blocked[a], d)
    ensures Lingers(n, p, a, k)
  {
    if p !in d {
      var j := MinusIndex(s.blocked[a], d, k);
    }
  }

  lemma SchedulerLingers(s: State, p: Pcb, a: Addr, k: int)
    requires Lingers(s, p, a, k)
    ensures Lingers(Scheduler(s), p, a, k)
  {
  }

  lemma KillLingers(s: State, p: Pcb, a: Addr, k: nat)
    requires Inv(s) && s.status == Active && s.current != null && Callable(s) && Survivable(s)
    requires a in s.blocked && k < |s.blocked[a]| && s.blocked[a][k] == p
    ensures Lingers(TerminateProcess(s), p, a, k)
  {
    hide Core, Forest, Kill, Minus, Subtree, Lingers, Scheduler;
    KillExact(s);
    PruneLingers(s, Kill(s, s.current), Subtree(s.tree, s.current), p, a, k);
    SchedulerLingers(Kill(s, s.current), p, a, k);
  }

  /** A V wakes the first waiter and moves everyone else up. */
  lemma VerhogenLingers(s: State, a: Addr, p: Pcb, k: nat)
    requires Inv(s) && s.status == Active && a in s.value && a in s.blocked && !IsDevice(s.devBase, a)
    requires k < |s.blocked[a]| && s.blocked[a][k] == p
    ensures Lingers(Verhogen(s, a), p, a, k - 1)
  {
    hide Core, Verhogen;
    LawAt(s, a);
    VerhogenIsWake(s, a);
    if k > 0 { assert Wake(s, a).blocked[a][k - 1] == p; }
  }

  lemma WaitQueues(s: State, b: Addr)
    requires b in s.value && b in s.blocked && s.current != null
    ensures var q, n := s.blocked[b := s.blocked[b] + [s.current]], Passeren(s, b);
            n.blocked == s.blocked || n.blocked == q
    ensures var q, n := s.blocked[b := s.blocked[b] + [s.current]], WaitDevice(s, b);
            n.blocked == s.blocked || n.blocked == q
  {
    hide Scheduler;
    var v := s.(value := s.value[b := s.value[b] - 1]);
    var m := Block(v, b);
    SchedulerQueues(m);
    SchedulerQueues(m.(sftBlkCnt := m.sftBlkCnt + 1));
  }

  lemma SchedulerQueues(s: State)
    ensures Scheduler(s).blocked == s.blocked
  {
  }

  lemma VerhogenQueues(s: State, b: Addr)
    requires b in s.value && b in s.blocked
    ensures forall a | a in s.blocked && a != b ::
              a in Verhogen(s, b).blocked && Verhogen(s, b).blocked[a] == s.blocked[a]
  {
  }

  lemma CallLingers(s: State, e: Event, p: Pcb, a: Addr, k: nat)
    requires Callable(s) && Legal(s, e) && !Kills(e) && !IsInterrupt(e) && e != V(a)
    requires a in s.blocked && k < |s.blocked[a]| && s.blocked[a][k] == p
    ensures Lingers(Do(s, e), p, a, k)
  {
    hide Forest, Adopt, Verhogen, Passeren, WaitDevice, Lingers;
    var n := Do(s, e);
    match e {
      case V(b) => VerhogenQueues(s, b);
      case P(b) => WaitQueues(s, b);
      case WaitClock => WaitQueues(s, Clock(s));
      case WaitIo(l, d, r) => WaitQueues(s, DeviceAdd(s.devBase, DeviceIndex(l, d, r)));
      case _ =>
    }
    AppendLingers(s, n, p, a, k, n.blocked[a][|s.blocked[a]|..]);
  }

  lemma InterruptQueues(s: State, b: Addr)
    requires b in s.value && b in s.blocked
    ensures forall a | a in s.blocked && a != b ::
              a in Interrupt(s, b).blocked && Interrupt(s, b).blocked[a] == s.blocked[a]
    ensures forall a | a in s.blocked && a != b :: a in Tick(s, b).blocked && Tick(s, b).blocked[a] == s.blocked[a]
  {
    hide Scheduler, Bump;
    var n := s.(value := s.value[b := s.value[b] + 1]);
    var (p, m) := RemoveBlocked(n, b);
    SchedulerQueues(Ticked(s, b));
    SchedulerQueues(n);
    SchedulerQueues(m.(owed := Bump(m.owed, b, -1)));
    if p != null {
      SchedulerQueues(InsertReady(m.(sftBlkCnt := m.sftBlkCnt - 1), p));
    }
  }

  lemma IrqLingers(s: State, e: Event, p: Pcb, a: Addr, k: nat)
    requires Callable(s) && Legal(s, e) && IsInterrupt(e) && !IsDevice(s.devBase, a)
    requires a in s.blocked && k < |s.blocked[a]| && s.blocked[a][k] == p
    ensures Lingers(Do(s, e), p, a, k)
  {
    hide Forest, Interrupt, Tick, Lingers;
    if e.ClockTick? { InterruptQueues(s, Clock(s)); }
    if e.DeviceDone? { InterruptQueues(s, DeviceAdd(s.devBase, e.index)); }
    AppendLingers(s, Do(s, e), p, a, k, []);
  }

  ghost function Signals(es: seq<Event>, a: Addr): nat
  {
    if es == [] then 0 else One(es[0] == V(a)) + Signals(es[1..], a)
  }

  ghost predicate ReleasedBy(s: State, es: seq<Event>, p: Pcb)
    requires LegalRun(s, es)
    decreases |es|
  {
    Released(s, p) || (es != [] && ReleasedBy(Do(s, es[0]), es[1..], p))
  }

  lemma StepLingers(s: State, e: Event, p: Pcb, a: Addr, k: nat)
    requires Inv(s) && Callable(s) && Legal(s, e) && Do(s, e).status != Corrupted && !IsDevice(s.devBase, a)
    requires a in s.blocked && k < |s.blocked[a]| && s.blocked[a][k] == p
    ensures Lingers(Do(s, e), p, a, k - One(e == V(a)))
  {
    hide Core, Forest, Lingers, TerminateProcess;
    if Kills(e) {
      SparedKill(s, e);
      KillLingers(s, p, a, k);
    } else if IsInterrupt(e) {
      IrqLingers(s, e, p, a, k);
    } else if e == V(a) {
      VerhogenLingers(s, a, p, k);
    } else {
      CallLingers(s, e, p, a, k);
    }
  }

  /**
   A process with k others ahead of it on a semaphore's queue is ready again, or dead, by the
   (k+1)st V on that semaphore.
   */
  lemma {:induction false} SignalledInTurn(s: State, es: seq<Event>, p: Pcb, a: Addr, k: nat)
    requires Inv(s) && LegalRun(s, es) && Run(s, es).status != Corrupted && !IsDevice(s.devBase, a)
    requires a in s.blocked && k < |s.blocked[a]| && s.blocked[a][k] == p
    requires Signals(es, a) >= k + 1
    ensures ReleasedBy(s, es, p)
    decreases |es|
  {
    hide Core, Forest, Do;
    var n := Do(s, es[0]);
    FirstSpared(s, es);
    StepInv(s, es[0]);
    StepLingers(s, es[0], p, a, k);
    if !Released(n, p) {
      var j :| 0 <= j < |n.blocked[a]| && n.blocked[a][j] == p && j <= k - One(es[0] == V(a));
      SignalledInTurn(n, es[1..], p, a, j);
    }
  }

  /* ------------------------------------------------ what the value of a semaphore says */

  /**
   After every run, the value of a semaphore tells how many wait for it. At a device it may also count
   killed waiters, whose interrupts are still to come.
   */
  lemma SemaphoreLaw(s: State, es: seq<Event>, a: Addr)
    requires Inv(s) && LegalRun(s, es) && Run(s, es).status != Corrupted && a in Run(s, es).value
    ensures var n := Run(s, es);
            && a in n.blocked && a in n.owed && n.owed[a] >= 0
            && |n.blocked[a]| + n.owed[a] == Deficit(n.value[a])
            && (!IsDevice(n.devBase, a) ==> |n.blocked[a]| == Deficit(n.value[a]))
  {
    hide Core, LegalRun, Run;
    RunInv(s, es);
    LawAt(Run(s, es), a);
  }

  /** So a V whose result is not positive always finds somebody, and makes the first one ready. */
  lemma SignalFindsWaiter(s: State, a: Addr)
    requires Inv(s) && a in s.value && a in s.blocked && !IsDevice(s.devBase, a)
    ensures s.value[a] + 1 <= 0 <==> s.blocked[a] != []
    ensures s.blocked[a] != [] ==>
              && Verhogen(s, a).ready == s.ready + [s.blocked[a][0]]
              && Verhogen(s, a).blocked == s.blocked[a := s.blocked[a][1..]]
  {
    hide Core;
    LawAt(s, a);
  }

  /**
   The clock's semaphore is never positive, so waiting for the clock always blocks, behind those who
   wait already.
   */
  lemma ClockBlocks(s: State, a: Addr)
    requires Inv(s) && s.status == Active && s.current != null
    requires a == DeviceAdd(s.devBase, CLOCK) && a in s.value && a in s.blocked
    ensures s.value[a] <= 0
    ensures WaitDevice(s, a).blocked == s.blocked[a := s.blocked[a] + [s.current]]
  {
    hide WaitDevice, Scheduler, Forest, Apart, InPlace;
    WaitIsBlocked(s, a);
    SchedulerQueues(Blocked(s, a));
  }

  /**
   A tick leaves nobody waiting for the clock, and everybody who was is behind the ready, in order. That
   the loop of the handler does so, waiter by waiter, is proved of Nucleus.WakeAll.
   */
  lemma TickWakesAll(s: State, a: Addr)
    requires Inv(s) && a == DeviceAdd(s.devBase, CLOCK) && a in s.value && a in s.blocked
    ensures var n := Ticked(s, a);
            && Tick(s, a) == Resume(n) && Core(n)
            && n.ready == s.ready + s.blocked[a] && n.blocked == s.blocked[a := []]
            && n.sftBlkCnt == s.sftBlkCnt - |s.blocked[a]| && n.sftBlkCnt >= 0 && n.value == s.value[a := 0]
  {
    hide Core, Resume, SoftBlocked, Forest;
    TickedCore(s, a);
    NobodyReady(Ticked(s, a));
  }

  /**
   A device's interrupt wakes the first of its waiters, and nobody else; the count of waiters never
   drops below zero.
   */
  lemma DeviceWakesFirst(s: State, a: Addr)
    requires Inv(s) && a in s.value && a in s.blocked && a in s.owed && IsDevice(s.devBase, a)
    requires a != DeviceAdd(s.devBase, CLOCK)
    ensures var n := Interrupted(s, a);
            && Interrupt(s, a) == Resume(n) && Core(n) && n.sftBlkCnt >= 0
            && if s.blocked[a] == [] then n.ready == s.ready && n.blocked == s.blocked
               else n.ready == s.ready + [s.blocked[a][0]] && n.blocked == s.blocked[a := s.blocked[a][1..]]
  {
    hide Core, Resume, SoftBlocked, Forest, Interrupt;
    LawAt(s, a);
    InterruptIsInterrupted(s, a);
    InterruptedCore(s, a);
    NobodyReady(Interrupted(s, a));
  }

  /* ------------------------------------------------ what a run does to the value of a semaphore */

  /** How many waiters of a an event kills. */
  ghost function KilledWaiters(s: State, e: Event, a: Addr): nat
    requires Forest(s.tree)
  {
    if Kills(e) && s.current != null && a in s.blocked then |Elements(s.blocked[a]) * Subtree(s.tree, s.current)| else 0
  }

  /** What an event adds to the value of a semaphore of the processes' own. */
  ghost function Gain(s: State, e: Event, a: Addr): int
    requires Forest(s.tree)
  {
    One(e == V(a)) - One(e == P(a)) + KilledWaiters(s, e, a)
  }

  lemma SchedulerValues(s: State)
    ensures Scheduler(s).value == s.value && Resume(s).value == s.value
  {
    hide Dispatch;
    if s.ready != [] { DispatchValues(s.(waiting := false, dispatches := s.dispatches + 1)); }
  }

  lemma DispatchValues(s: State)
    requires s.ready != []
    ensures Dispatch(s).value == s.value && Dispatch(s).blocked == s.blocked
  {
  }

  lemma WaitValues(s: State, b: Addr)
    requires b in s.value && b in s.blocked && s.current != null
    ensures Passeren(s, b).value == s.value[b := s.value[b] - 1]
    ensures WaitDevice(s, b).value == s.value[b := s.value[b] - 1]
  {
    hide Scheduler;
    var m := Block(s.(value := s.value[b := s.value[b] - 1]), b);
    SchedulerValues(m);
    SchedulerValues(m.(sftBlkCnt := m.sftBlkCnt + 1));
  }

  lemma SignalValues(s: State, b: Addr)
    requires b in s.value && b in s.blocked
    ensures Verhogen(s, b).value == s.value[b := s.value[b] + 1]
    ensures Interrupt(s, b).value == s.value[b := s.value[b] + 1]
    ensures Tick(s, b).value == s.value[b := 0]
  {
    hide Scheduler;
    var n := s.(value := s.value[b := s.value[b] + 1]);
    var (p, m) := RemoveBlocked(n, b);
    SchedulerValues(Ticked(s, b));
    SchedulerValues(n);
    SchedulerValues(m.(owed := Bump(m.owed, b, -1)));
    if p != null {
      SchedulerValues(InsertReady(m.(sftBlkCnt := m.sftBlkCnt - 1), p));
    }
  }

  lemma KillValues(s: State, a: Addr)
    requires Inv(s) && s.status == Active && s.current != null && Callable(s) && Survivable(s)
    requires a in s.value && !IsDevice(s.devBase, a)
    ensures a in TerminateProcess(s).value
    ensures TerminateProcess(s).value[a] == s.value[a] + |Elements(s.blocked[a]) * Subtree(s.tree, s.current)|
  {
    hide Core, Forest, Kill, Subtree, Scheduler;
    KillExact(s);
    SchedulerValues(Kill(s, s.current));
  }

  lemma DeviceSlotOf(s: State, i: nat)
    requires Callable(s) && i < DEVICECNT
    ensures DeviceAdd(s.devBase, i) in s.value && DeviceAdd(s.devBase, i) in s.blocked
    ensures IsDevice(s.devBase, DeviceAdd(s.devBase, i))
  {
  }

  lemma CallValues(s: State, e: Event, a: Addr)
    requires Callable(s) && Legal(s, e) && !Kills(e) && a in s.value && !IsDevice(s.devBase, a)
    ensures a in Do(s, e).value && Do(s, e).value[a] == s.value[a] + One(e == V(a)) - One(e == P(a))
  {
    hide Forest, Passeren, WaitDevice, Verhogen, Interrupt, Tick, Scheduler, Callable, IsDevice;
    CallableBlocked(s);
    match e {
      case V(b) => SignalValues(s, b);
      case P(b) => WaitValues(s, b);
      case WaitClock => DeviceSlotOf(s, CLOCK); WaitValues(s, Clock(s));
      case WaitIo(l, d, r) =>
        DeviceSlotOf(s, DeviceIndex(l, d, r));
        WaitValues(s, DeviceAdd(s.devBase, DeviceIndex(l, d, r)));
      case Quantum => SchedulerValues(if s.current == null then s else Preempt(s));
      case ClockTick => DeviceSlotOf(s, CLOCK); SignalValues(s, Clock(s));
      case DeviceDone(i) => DeviceSlotOf(s, i); SignalValues(s, DeviceAdd(s.devBase, i));
      case _ =>
    }
  }

  lemma CallableBlocked(s: State)
    requires Callable(s)
    ensures s.value.Keys == s.blocked.Keys && Forest(s.tree)
    ensures 0 <= s.devBase && s.devBase + 4 * DEVICECNT <= NULL_ADDR
  {
  }

  lemma StepValues(s: State, e: Event, a: Addr)
    requires Inv(s) && Callable(s) && Legal(s, e) && Do(s, e).status != Corrupted
    requires a in s.value && !IsDevice(s.devBase, a)
    ensures a in Do(s, e).value && Do(s, e).value[a] == s.value[a] + Gain(s, e, a)
  {
    hide Core, Forest, Subtree, TerminateProcess;
    CallableBlocked(s);
    if Kills(e) {
      SparedKill(s, e);
      KillValues(s, a);
    } else {
      CallValues(s, e, a);
    }
  }

  ghost function Gains(s: State, es: seq<Event>, a: Addr): int
    requires LegalRun(s, es)
    decreases |es|
  {
    if es == [] then 0 else Gain(s, es[0], a) + Gains(Do(s, es[0]), es[1..], a)
  }

  /**
   Over every run, the value of a semaphore of the processes' own rises by one for each V, falls by one
   for each P, and rises again by one for each waiter that is killed: nothing else changes it.
   */
  lemma {:induction false} ValueOverRun(s: State, es: seq<Event>, a: Addr)
    requires Inv(s) && LegalRun(s, es) && Run(s, es).status != Corrupted
    requires a in s.value && !IsDevice(s.devBase, a)
    ensures a in Run(s, es).value && Run(s, es).value[a] == s.value[a] + Gains(s, es, a)
    decreases |es|
  {
    hide Core, Do, Gain, IsDevice, Callable, Legal;
    if es != [] {
      FirstSpared(s, es);
      StepInv(s, es[0]);
      StepValues(s, es[0], a);
      ValueOverRun(Do(s, es[0]), es[1..], a);
    }
  }

  /* ------------------------------------------------ a new process */

  lemma {:induction false} AdoptedDescends(t: Tree, p: Pcb, c: Pcb, q: Pcb, x: Pcb)
    requires Forest(t) && p in t.kids && c !in t.kids && Forest(Adopt(t, p, c)) && q in t.kids && x in t.kids
    ensures Descends(Adopt(t, p, c), q, x) <==> Descends(t, q, x)
    decreases t.birth[x]
  {
    if t.parent[x] != null {
      AdoptedDescends(t, p, c, q, t.parent[x]);
    }
  }

  lemma AdoptJoins(t: Tree, p: Pcb, c: Pcb, q: Pcb, x: Pcb)
    requires Forest(t) && p in t.kids && c !in t.kids && q in t.kids && x in t.kids
    ensures var u := Adopt(t, p, c);
            && Forest(u) && u.kids.Keys == t.kids.Keys + {c}
            && (Descends(u, q, c) <==> Descends(t, q, p))
            && (Descends(u, q, x) <==> Descends(t, q, x))
  {
    hide Forest, Adopt, PostOrder;
    AdoptForest(t, p, c);
    AdoptedDescends(t, p, c, q, x);
    AdoptedDescends(t, p, c, q, p);
    AdoptedKeys(t, p, c);
  }

  lemma AdoptedKeys(t: Tree, p: Pcb, c: Pcb)
    requires Forest(t) && p in t.kids && c !in t.kids
    ensures var u := Adopt(t, p, c); u.kids.Keys == t.kids.Keys + {c} && c in u.parent && u.parent[c] == p
  {
  }

  lemma CreatedIs(s: State)
    requires s.current != null && s.current in s.tree.kids && s.free != []
    ensures var n, c := CreateProcess(s), s.free[0];
            n.tree == Adopt(s.tree, s.current, c) && n.ready == s.ready + [c] && n.current == s.current
  {
    hide Adopt;
  }

  /**
   The new process belongs to the family of the one that made it: it will die with exactly those whose
   kill would take its maker along, and nobody else's descent changes. It is last among the ready.
   */
  lemma CreateJoins(s: State, q: Pcb, x: Pcb)
    requires Inv(s) && s.current != null && s.current in s.tree.kids && s.free != []
    requires q in s.tree.kids && x in s.tree.kids
    ensures var n, c := CreateProcess(s), s.free[0];
            && Forest(n.tree) && n.tree.kids.Keys == s.tree.kids.Keys + {c} && c !in s.tree.kids
            && (Descends(n.tree, q, c) <==> Descends(s.tree, q, s.current))
            && (Descends(n.tree, q, x) <==> Descends(s.tree, q, x))
            && n.ready == s.ready + [c] && n.current == s.current
  {
    hide Core, Ordered, Populated, Rooted, Lawful, Wired, CreateProcess, Adopt, Descends, Forest;
    FirstFree(s);
    CoreParts(s);
    AdoptJoins(s.tree, s.current, s.free[0], q, x);
    CreatedIs(s);
  }
}
