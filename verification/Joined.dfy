/**
 The two halves meet: seen from outside, a semaphore of the nucleus that is no device's is one of those
 that the pager machine works with.
 */
module Joined {
  import opened Pcbs
  import opened Seqs
  import opened Family
  import opened Machine
  import opened Killing
  import opened Steps
  import opened Runs
  import opened Guarantees
  import Paging

  /** The asid of a process; 0 if it has none. */
  function AsidOf(id: map<Pcb, nat>, p: Pcb?): nat {
    if p != null && p in id then id[p] else 0
  }

  function AsidsOf(id: map<Pcb, nat>, q: seq<Pcb>): (r: seq<nat>)
    ensures |r| == |q| && forall i | 0 <= i < |q| :: r[i] == AsidOf(id, q[i])
  {
    if q == [] then [] else [AsidOf(id, q[0])] + AsidsOf(id, q[1..])
  }

  /** The semaphore at a, as the pager sees it. */
  function AsSem(s: State, a: Addr, id: map<Pcb, nat>, holder: nat): Paging.Sem
    requires a in s.value && a in s.blocked
  {
    Paging.Sem(s.value[a], AsidsOf(id, s.blocked[a]), holder)
  }

  /** P: the caller goes on if it passes, and joins the queue otherwise. */
  lemma PasserenIsSemP(s: State, a: Addr, id: map<Pcb, nat>, h: nat)
    requires Inv(s) && s.status == Active && s.current != null && a in s.value && a in s.blocked
    requires !IsDevice(s.devBase, a)
    ensures var n, m := Passeren(s, a), AsSem(s, a, id, h);
            && a in n.value && a in n.blocked
            && AsSem(n, a, id, Paging.SemP(m, AsidOf(id, s.current)).holder) == Paging.SemP(m, AsidOf(id, s.current))
            && (if Paging.Passes(m) then n.current == s.current && n.ready == s.ready
                else n.blocked[a] == s.blocked[a] + [s.current])
  {
    hide Core, Ordered, Populated, Rooted, Lawful, Wired, Forest, Scheduler, Passeren;
    CoreParts(s);
    WaitIsBlocked(s, a);
    SchedulerValues(Blocked(s, a));
    SchedulerQueues(Blocked(s, a));
    assert AsidsOf(id, s.blocked[a] + [s.current]) == AsidsOf(id, s.blocked[a]) + [AsidOf(id, s.current)];
  }

  /** V: the first in the queue, if there is one, is through, and last among the ready. */
  lemma VerhogenIsSemV(s: State, a: Addr, id: map<Pcb, nat>, h: nat)
    requires Inv(s) && a in s.value && a in s.blocked && !IsDevice(s.devBase, a)
    ensures var n, m := Verhogen(s, a), AsSem(s, a, id, h);
            && a in n.value && a in n.blocked
            && AsSem(n, a, id, Paging.SemV(m).holder) == Paging.SemV(m)
            && n.ready == s.ready + (if s.blocked[a] == [] then [] else [s.blocked[a][0]])
  {
    hide Core;
    LawAt(s, a);
    if s.blocked[a] != [] {
      assert AsidsOf(id, s.blocked[a][1..]) == AsidsOf(id, s.blocked[a])[1..];
    }
  }

  /* ------------------------------------------------ nothing else touches it */

  lemma CallQueues(s: State, e: Event, a: Addr)
    requires Callable(s) && Legal(s, e) && !Kills(e) && e != V(a) && e != P(a)
    requires a in s.blocked && !IsDevice(s.devBase, a)
    ensures a in Do(s, e).blocked && Do(s, e).blocked[a] == s.blocked[a]
  {
    hide Forest, Passeren, WaitDevice, Verhogen, Interrupt, Tick, Scheduler, IsDevice;
    match e {
      case V(b) => VerhogenQueues(s, b);
      case P(b) => WaitQueues(s, b);
      case WaitClock => DeviceSlotOf(s, CLOCK); WaitQueues(s, Clock(s));
      case WaitIo(l, d, r) =>
        DeviceSlotOf(s, DeviceIndex(l, d, r));
        WaitQueues(s, DeviceAdd(s.devBase, DeviceIndex(l, d, r)));
      case Quantum => SchedulerQueues(if s.current == null then s else Preempt(s));
      case ClockTick => DeviceSlotOf(s, CLOCK); InterruptQueues(s, Clock(s));
      case DeviceDone(i) => DeviceSlotOf(s, i); InterruptQueues(s, DeviceAdd(s.devBase, i));
      case _ =>
    }
  }

  lemma MinusApart(q: seq<Pcb>, d: set<Pcb>)
    requires Elements(q) * d == {}
    ensures Minus(q, d) == q
  {
    forall p | p in q ensures p !in d {
      assert p in Elements(q) && p !in Elements(q) * d;
    }
    MinusNone(q, d);
  }

  lemma KillQueues(s: State, a: Addr)
    requires Inv(s) && s.status == Active && s.current != null && Callable(s) && Survivable(s)
    requires a in s.blocked && Elements(s.blocked[a]) * Subtree(s.tree, s.current) == {}
    ensures a in TerminateProcess(s).blocked && TerminateProcess(s).blocked[a] == s.blocked[a]
  {
    hide Core, Forest, Kill, Subtree, Scheduler, Minus, Elements;
    KillExact(s);
    SchedulerQueues(Kill(s, s.current));
    MinusApart(s.blocked[a], Subtree(s.tree, s.current));
  }

  lemma OthersKeep(s: State, e: Event, a: Addr)
    requires Inv(s) && Callable(s) && Legal(s, e) && Do(s, e).status != Corrupted && e != P(a) && e != V(a)
    requires a in s.value && a in s.blocked && !IsDevice(s.devBase, a) && KilledWaiters(s, e, a) == 0
    ensures var n := Do(s, e);
            a in n.value && a in n.blocked && n.value[a] == s.value[a] && n.blocked[a] == s.blocked[a]
  {
    hide Core, Callable, Subtree, TerminateProcess, Scheduler, Survivable, IsDevice;
    StepValues(s, e, a);
    if Kills(e) {
      SparedKill(s, e);
      KillQueues(s, a);
    } else {
      CallQueues(s, e, a);
    }
  }

  /** What an event does to the semaphore, as the pager sees it. */
  ghost function SemStep(s: State, e: Event, a: Addr, id: map<Pcb, nat>, m: Paging.Sem): Paging.Sem {
    if e == P(a) then Paging.SemP(m, AsidOf(id, s.current))
    else if e == V(a) then Paging.SemV(m)
    else m
  }

  lemma StepJoined(s: State, e: Event, a: Addr, id: map<Pcb, nat>, m: Paging.Sem)
    requires Inv(s) && Callable(s) && Legal(s, e) && Do(s, e).status != Corrupted
    requires a in s.value && a in s.blocked && !IsDevice(s.devBase, a) && KilledWaiters(s, e, a) == 0
    requires m == AsSem(s, a, id, m.holder)
    ensures var n, m' := Do(s, e), SemStep(s, e, a, id, m);
            a in n.value && a in n.blocked && m' == AsSem(n, a, id, m'.holder)
  {
    hide Core, Forest, Subtree, TerminateProcess, Passeren, Verhogen, Scheduler, Survivable, AsidsOf, KilledWaiters;
    if e == P(a) {
      PasserenIsSemP(s, a, id, m.holder);
    } else if e == V(a) {
      VerhogenIsSemV(s, a, id, m.holder);
    } else {
      OthersKeep(s, e, a);
    }
  }

  /** No event of the run kills a process that waits for a. */
  ghost predicate SparesWaiters(s: State, es: seq<Event>, a: Addr)
    requires LegalRun(s, es)
    decreases |es|
  {
    es == [] || (KilledWaiters(s, es[0], a) == 0 && SparesWaiters(Do(s, es[0]), es[1..], a))
  }

  /** The pager's P's and V's, one after the other, as the run makes them. */
  ghost function SemRun(s: State, es: seq<Event>, a: Addr, id: map<Pcb, nat>, m: Paging.Sem): Paging.Sem
    requires LegalRun(s, es)
    decreases |es|
  {
    if es == [] then m else SemRun(Do(s, es[0]), es[1..], a, id, SemStep(s, es[0], a, id, m))
  }

  lemma {:induction false} SparedAgree(s: State, es: seq<Event>, a: Addr, id: map<Pcb, nat>, m: Paging.Sem)
    requires Inv(s) && LegalRun(s, es) && Run(s, es).status != Corrupted && SparesWaiters(s, es, a)
    requires a in s.value && a in s.blocked && !IsDevice(s.devBase, a) && m == AsSem(s, a, id, m.holder)
    ensures var n, m' := Run(s, es), SemRun(s, es, a, id, m);
            a in n.value && a in n.blocked && m' == AsSem(n, a, id, m'.holder)
    decreases |es|
  {
    hide Core, Do, IsDevice, Callable, Legal, KilledWaiters, SemStep, AsSem;
    if es != [] {
      FirstSpared(s, es);
      StepInv(s, es[0]);
      StepJoined(s, es[0], a, id, m);
      SparedAgree(Do(s, es[0]), es[1..], a, id, SemStep(s, es[0], a, id, m));
    }
  }

  /** How many waiters of a the run kills. */
  ghost function KilledOver(s: State, es: seq<Event>, a: Addr): nat
    requires LegalRun(s, es)
    decreases |es|
  {
    if es == [] then 0 else KilledWaiters(s, es[0], a) + KilledOver(Do(s, es[0]), es[1..], a)
  }

  lemma {:induction false} SparesNone(s: State, es: seq<Event>, a: Addr)
    requires LegalRun(s, es)
    ensures SparesWaiters(s, es, a) <==> KilledOver(s, es, a) == 0
    decreases |es|
  {
    hide Do, Callable, Legal, KilledWaiters;
    if es != [] {
      SparesNone(Do(s, es[0]), es[1..], a);
    }
  }

  lemma StepValue(s: State, e: Event, a: Addr, id: map<Pcb, nat>, m: Paging.Sem)
    requires Forest(s.tree)
    ensures SemStep(s, e, a, id, m).value == m.value + Gain(s, e, a) - KilledWaiters(s, e, a)
  {
    hide KilledWaiters, Forest;
  }

  /** The pager's semaphore does not get back the units of killed waiters. */
  lemma {:induction false} SemValue(s: State, es: seq<Event>, a: Addr, id: map<Pcb, nat>, m: Paging.Sem)
    requires LegalRun(s, es)
    ensures SemRun(s, es, a, id, m).value == m.value + Gains(s, es, a) - KilledOver(s, es, a)
    decreases |es|
  {
    hide Do, Legal, KilledWaiters, SemStep, Gain, Forest;
    if es != [] {
      StepValue(s, es[0], a, id, m);
      SemValue(Do(s, es[0]), es[1..], a, id, SemStep(s, es[0], a, id, m));
    }
  }

  /**
   Over a run of the nucleus, whatever system calls and interrupts come in between, a semaphore of the
   processes' own goes where the pager's P and V alone take it, exactly if no waiter of it is killed.
   */
  lemma SemaphoresAgree(s: State, es: seq<Event>, a: Addr, id: map<Pcb, nat>, m: Paging.Sem)
    requires Inv(s) && LegalRun(s, es) && Run(s, es).status != Corrupted
    requires a in s.value && a in s.blocked && !IsDevice(s.devBase, a) && m == AsSem(s, a, id, m.holder)
    ensures var n, m' := Run(s, es), SemRun(s, es, a, id, m);
            && a in n.value && a in n.blocked
            && (m' == AsSem(n, a, id, m'.holder) <==> SparesWaiters(s, es, a))
  {
    hide Core, LegalRun, Run, IsDevice, SemRun, SparesWaiters, AsidsOf;
    RunInv(s, es);
    ValueOverRun(s, es, a);
    LawAt(Run(s, es), a);
    if SparesWaiters(s, es, a) {
      SparedAgree(s, es, a, id, m);
    } else {
      SparesNone(s, es, a);
      SemValue(s, es, a, id, m);
    }
  }
}
