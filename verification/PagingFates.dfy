/**
 What becomes of a fault. A process that may have the page is running again only with that page, and one
 that may not, or that ends, only goes on towards its end; steps of the system and of the disk alone are
 enough for both.
 */
module PagingFates {
  import opened Paging
  import opened PagingInv
  import opened PagingSteps
  import opened PagingRuns
  import opened PagingTurns
  import opened PagingPaths
  import opened PagingEffects

  /* ------------------------------------------------ runs, one after the other */

  /** Only the system and the disk take steps. */
  predicate OfSystem(es: seq<Step>) {
    forall e | e in es :: e.DiskDone? || e.Run?
  }

  lemma {:induction false} OneAfterTheOther(s: State, es: seq<Step>, more: seq<Step>)
    requires LegalRun(s, es) && LegalRun(Ran(s, es), more)
    ensures LegalRun(s, es + more) && Ran(s, es + more) == Ran(Ran(s, es), more)
    decreases |es|
  {
    hide Legal, Do;
    if es == [] {
      assert es + more == more;
    } else {
      assert (es + more)[1..] == es[1..] + more;
      OneAfterTheOther(Do(s, es[0]), es[1..], more);
    }
  }

  lemma OneStep(s: State, e: Step)
    requires Legal(s, e)
    ensures LegalRun(s, [e]) && Ran(s, [e]) == Do(s, e)
  {
    hide Legal, Do;
    assert [e][1..] == [];
  }

  /* ------------------------------------------------ a fault brings in its page */

  /** A process at this place has faulted on page, which is not there yet. */
  predicate Wants(p: Pc, page: nat) {
    match p
    case Trapped(q, good) => good && q == page
    case Paging(q, good) => good && q == page
    case Picked(q, _) => q == page
    case Io(Evicting(q, _, _, _), _) => q == page
    case Io(Fetching(q, _), _) => q == page
    case Loaded(q, _) => q == page
    case _ => false
  }

  /** The entry of page in the table of a is valid. */
  predicate Present(s: State, a: nat, page: nat) {
    EntryOf(s.c.pages, page) >= 0 && PteOf(s.t.pte, a, EntryOf(s.c.pages, page)).Valid?
  }

  /** a has faulted on page and has not gone on yet. */
  predicate OnItsWayTo(s: State, a: nat, page: nat) {
    a in s.pc && (Wants(s.pc[a], page) || (s.pc[a] == Installed && Present(s, a, page)))
  }

  lemma WantsFollows(c: Config, a: nat, p: Pc, p': Pc, page: nat)
    requires Wants(p, page) && Follows(c, a, p, p')
    ensures Wants(p', page) || (p.Loaded? && p.page == page && p' == Installed)
  {
  }

  /** Nobody but a process itself takes it out of these places. */
  lemma ByItself(s: State, e: Step, a: nat)
    requires Inv(s) && Legal(s, e) && a in s.pc && At(Do(s, e).pc, a) != s.pc[a]
    requires s.pc[a].Loaded? || s.pc[a].Installed?
    ensures e == Run(a)
  {
    hide Inv, Do;
    ZeroIsNobody(s);
    if Actor(e) != a {
      OthersMove(s, e, a);
    }
  }

  /** While a process has brought in its page, and not left the pager, nobody changes a page table. */
  lemma EntriesStay(s: State, e: Step, a: nat)
    requires Inv(s) && Legal(s, e) && a in s.pc && s.pc[a] == Installed
    ensures Do(s, e).t.pte == s.t.pte && Do(s, e).c == s.c
  {
    hide ControlOk, DataOk, DoRun, SemP, Finished, FlatOf;
    FlatStep(s, e, 0, 0, 0);
    if e.Run? {
      MutualExclusion(s, a, e.asid);
      TablesElsewhere(s, e);
    }
  }

  lemma PresentStays(s: State, e: Step, a: nat, page: nat)
    requires Inv(s) && Legal(s, e) && a in s.pc && s.pc[a] == Installed && Present(s, a, page)
    ensures Present(Do(s, e), a, page)
  {
    hide Inv, Do, Legal;
    EntriesStay(s, e, a);
  }

  lemma PresentNow(s: State, a: nat, page: nat, f: nat)
    requires Inv(s) && a in s.pc && s.pc[a] == Loaded(page, f)
    ensures Legal(s, Run(a)) && Present(Do(s, Run(a)), a, page)
  {
    hide Inv, Do;
    PagesPositive(s);
    InstallEffect(s, a, page, f);
  }

  /** Whoever takes the step, the process stays on its way, or runs again and has its page. */
  lemma WayStep(s: State, e: Step, a: nat, page: nat)
    requires Inv(s) && Legal(s, e) && OnItsWayTo(s, a, page)
    ensures var n := Do(s, e);
            OnItsWayTo(n, a, page) || (a in n.pc && n.pc[a] == User && Present(n, a, page))
  {
    hide Inv, Do, Legal, Present, Wants;
    var n := Do(s, e);
    PlaceStep(s, e, a);
    if n.pc[a] != s.pc[a] {
      if Wants(s.pc[a], page) {
        WantsFollows(s.c, a, s.pc[a], n.pc[a], page);
        if s.pc[a].Loaded? && s.pc[a].page == page {
          ByItself(s, e, a);
          PresentNow(s, a, page, s.pc[a].f);
        }
      } else {
        PresentStays(s, e, a, page);
      }
    } else if s.pc[a] == Installed && Present(s, a, page) {
      PresentStays(s, e, a, page);
    }
  }

  /** a does not run in any state of the run but, perhaps, the last. */
  ghost predicate Away(s: State, es: seq<Step>, a: nat)
    requires LegalRun(s, es)
    decreases |es|
  {
    es == [] || (At(s.pc, a) != User && Away(Do(s, es[0]), es[1..], a))
  }

  lemma {:induction false} WayRun(s: State, es: seq<Step>, a: nat, page: nat)
    requires Inv(s) && LegalRun(s, es) && Away(s, es, a)
    requires OnItsWayTo(s, a, page) || (a in s.pc && s.pc[a] == User && Present(s, a, page))
    ensures var n := Ran(s, es);
            OnItsWayTo(n, a, page) || (a in n.pc && n.pc[a] == User && Present(n, a, page))
    decreases |es|
  {
    hide Inv, Do, Legal, Present, OnItsWayTo;
    if es != [] {
      StepInv(s, es[0]);
      WayStep(s, es[0], a, page);
      WayRun(Do(s, es[0]), es[1..], a, page);
    }
  }

  lemma FaultTraps(s: State, a: nat, page: nat)
    requires Inv(s) && Legal(s, Fault(a, page, true))
    ensures OnItsWayTo(Do(s, Fault(a, page, true)), a, page)
  {
    hide Inv, Do, Follows;
    PlaceStep(s, Fault(a, page, true), a);
    FaultLeaves(s, a, page, true);
  }

  lemma FaultLeaves(s: State, a: nat, page: nat, good: bool)
    requires Legal(s, Fault(a, page, good))
    ensures var p := At(Do(s, Fault(a, page, good)).pc, a); p == Trapped(page, good) || p == Pc.Paging(page, good)
  {
  }

  /**
   A process that faults on a page that it may have is running again, the first time in whatever run,
   only with that page valid: the entry of its own if the table has one, and the last one otherwise.
   */
  lemma BackWithPage(s: State, es: seq<Step>, a: nat, page: nat)
    requires Inv(s) && Legal(s, Fault(a, page, true))
    requires var n := Do(s, Fault(a, page, true)); LegalRun(n, es) && Away(n, es, a) && At(Ran(n, es).pc, a) == User
    ensures var n := Ran(Do(s, Fault(a, page, true)), es);
            if page < n.c.pages then PteOf(n.t.pte, a, page).Valid?
            else n.c.pages > 0 && PteOf(n.t.pte, a, n.c.pages - 1).Valid?
  {
    hide Inv, Do, Legal, Ran, LegalRun, Away;
    var e := Fault(a, page, true);
    FaultTraps(s, a, page);
    StepInv(s, e);
    WayRun(Do(s, e), es, a, page);
  }

  /* ------------------------------------------------ it can always be served */

  /** The holder of swapPoolSem, not queued for the disk and not at its V, gets on by its due step. */
  lemma OwnOn(s: State, a: nat)
    requires Inv(s) && a != 0 && s.pool.holder == a && !GivesFrom(At(s.pc, a), PoolSem) && !IsQueued(s)
    ensures Legal(s, Due(s)) && !Gives(s, Due(s), PoolSem)
    ensures Left(s.c.frames, PoolSem, At(Do(s, Due(s)).pc, a)) < Left(s.c.frames, PoolSem, At(s.pc, a))
  {
    hide Inv, Do, Left, IsQueued, GivesFrom;
    assert !WantsDisk(At(s.pc, s.pool.holder)) by { QueuedIs(s); }
    DueMoves(s, PoolSem);
    DueNotV(s, a);
    HolderMoves(s, Due(s), PoolSem);
  }

  lemma DueNotV(s: State, a: nat)
    requires s.pool.holder == a && !GivesFrom(At(s.pc, a), PoolSem) && !IsQueued(s)
    ensures !Gives(s, Due(s), PoolSem)
  {
    hide IsQueued, GivesFrom;
  }

  /** If it is queued for the disk, the holder of the disk gets on. */
  lemma DiskOn(s: State, a: nat, j: nat) returns (j': nat)
    requires Inv(s) && a != 0 && s.pool.holder == a && IsQueued(s) && QueuedAt(s, j)
    ensures Legal(s, Due(s)) && !Gives(s, Due(s), PoolSem)
    ensures var n := Do(s, Due(s));
            && n.pool.holder == a && QueuedAt(n, j')
            && (|| Left(s.c.frames, PoolSem, At(n.pc, a)) < Left(s.c.frames, PoolSem, At(s.pc, a))
                || (At(n.pc, a) == At(s.pc, a) && TurnsLeft(n, DiskSem, j') < TurnsLeft(s, DiskSem, j)))
  {
    hide Inv, Do, Legal, Gives, TurnsLeft, MovesHolder, DueFor, Has, Left;
    var e := Due(s);
    WaiterHolder(s, DiskSem);
    HolderHas(s, DiskSem);
    HasNotWants(s);
    DueMoves(s, DiskSem);
    StepInv(s, e);
    DiskHolderKeeps(s);
    HolderMoves(s, e, PoolSem);
    QueueStep(s, e, DiskSem);
    QueueStep(s, e, PoolSem);
    if Gives(s, e, DiskSem) && j == 0 {
      j' := SomePlace(Do(s, e));
      EnteredMoved(s, e);
      HolderMoved(s, e);
    } else {
      TurnStep(s, e, DiskSem, j);
      j' := if Gives(s, e, DiskSem) then j - 1 else j;
    }
  }

  lemma HolderMoved(s: State, e: Step)
    requires Legal(s, e) && MovesHolder(s, e, PoolSem) && !Gives(s, e, PoolSem)
    ensures At(Do(s, e).pc, s.pool.holder) != At(s.pc, s.pool.holder)
  {
    hide Do, Legal, Gives;
  }

  /** Whoever is inside comes to its V, by steps of the system and of the disk. */
  lemma {:induction false} ToTheDoor(s: State, a: nat, j: nat) returns (es: seq<Step>)
    requires Inv(s) && a != 0 && s.pool.holder == a && QueuedAt(s, j)
    ensures LegalRun(s, es) && OfSystem(es)
    ensures Ran(s, es).pool.holder == a && GivesFrom(At(Ran(s, es).pc, a), PoolSem)
    decreases Left(s.c.frames, PoolSem, At(s.pc, a)), if IsQueued(s) then TurnsLeft(s, DiskSem, j) else 0
  {
    hide Inv, Do, Legal, Gives, TurnsLeft, IsQueued, QueuedAt, GivesFrom, Left;
    if GivesFrom(At(s.pc, a), PoolSem) {
      return [];
    }
    var e, j' := Due(s), 0;
    if IsQueued(s) {
      j' := DiskOn(s, a, j);
    } else {
      OwnOn(s, a);
      StepInv(s, e);
      j' := SomePlace(Do(s, e));
    }
    StepInv(s, e);
    QueueStep(s, e, PoolSem);
    FlatStep(s, e, 0, 0, 0);
    SameQueued(s, Do(s, e), a);
    DueOfSystem(s);
    AtLeastOne(s, DiskSem, j);
    var rest := ToTheDoor(Do(s, e), a, j');
    es := [e] + rest;
    assert es[1..] == rest;
  }

  lemma SameQueued(s: State, n: State, a: nat)
    requires s.pool.holder == a && n.pool.holder == a
    ensures At(n.pc, a) == At(s.pc, a) ==> IsQueued(n) == IsQueued(s)
  {
  }

  lemma DueOfSystem(s: State)
    ensures Due(s).DiskDone? || Due(s).Run?
  {
  }

  /** Steps of the system and of the disk leave a running process alone. */
  lemma RunningStays(s: State, e: Step, a: nat)
    requires Inv(s) && Legal(s, e) && (e.DiskDone? || e.Run?) && a in s.pc && s.pc[a] == User
    ensures a in Do(s, e).pc && Do(s, e).pc[a] == User
  {
    hide Inv, Do, Legal, Follows;
    PlaceStep(s, e, a);
  }

  lemma {:induction false} SystemRun(s: State, es: seq<Step>, a: nat, page: nat)
    requires Inv(s) && LegalRun(s, es) && OfSystem(es)
    requires OnItsWayTo(s, a, page) || (a in s.pc && s.pc[a] == User)
    ensures var n := Ran(s, es); OnItsWayTo(n, a, page) || (a in n.pc && n.pc[a] == User)
    decreases |es|
  {
    hide Inv, Do, Legal, Present, OnItsWayTo;
    if es != [] {
      StepInv(s, es[0]);
      if OnItsWayTo(s, a, page) {
        WayStep(s, es[0], a, page);
      } else {
        RunningStays(s, es[0], a);
      }
      SystemRun(Do(s, es[0]), es[1..], a, page);
    }
  }

  /** Inside by steps of the system and of the disk. */
  lemma Enter(s: State, a: nat) returns (es: seq<Step>)
    requires Inv(s) && a in s.pc && (WantsPool(s.pc[a]) || HasPool(s.pc[a]))
    ensures LegalRun(s, es) && OfSystem(es) && Ran(s, es).pool.holder == a && Inv(Ran(s, es))
    ensures HasPool(At(Ran(s, es).pc, a)) && a in Ran(s, es).pc && a != 0
  {
    hide Inv, Do, Legal;
    PagesPositive(s);
    if HasPool(s.pc[a]) {
      es := [];
      HolderOf(s, a);
    } else {
      var k := PlaceInQueue(s, a);
      var j := SomePlace(s);
      es := Servable(s, a, k, j);
      RunInv(s, es);
    }
    HolderHas(Ran(s, es), PoolSem);
  }

  lemma PlaceInQueue(s: State, a: nat) returns (k: nat)
    requires Inv(s) && a in s.pc && WantsPool(s.pc[a])
    ensures k < |s.pool.queue| && s.pool.queue[k] == a
  {
    hide DataOk;
    assert a in s.pool.queue;
    k :| k < |s.pool.queue| && s.pool.queue[k] == a;
  }

  lemma AtTheDoor(s: State, a: nat, page: nat)
    requires Inv(s) && OnItsWayTo(s, a, page) && GivesFrom(At(s.pc, a), PoolSem)
    ensures s.pc[a] == Installed && Present(s, a, page)
    ensures Legal(s, Run(a)) && At(Do(s, Run(a)).pc, a) == User && Present(Do(s, Run(a)), a, page)
  {
    hide Inv, Do, Present;
    PagesPositive(s);
    PresentStays(s, Run(a), a, page);
    BusyMoves(s, a);
    PlaceStep(s, Run(a), a);
    RunIs(s, a);
  }

  lemma RunIs(s: State, a: nat)
    requires Legal(s, Run(a))
    ensures Do(s, Run(a)) == DoRun(s, a)
  {
    hide DoRun;
  }

  /**
   Wherever in the pager a process is that has faulted on a page it may have, steps of the system and of
   the disk alone bring it back, with the page.
   */
  lemma BroughtBack(s: State, a: nat, page: nat) returns (es: seq<Step>)
    requires Inv(s) && OnItsWayTo(s, a, page)
    ensures LegalRun(s, es) && OfSystem(es)
    ensures At(Ran(s, es).pc, a) == User && Present(Ran(s, es), a, page)
  {
    hide Inv, Do, Legal, Present, Ran, LegalRun;
    var xs := Enter(s, a);
    var m := Ran(s, xs);
    SystemRun(s, xs, a, page);
    var j := SomePlace(m);
    var ys := ToTheDoor(m, a, j);
    var n := Ran(m, ys);
    RunInv(m, ys);
    SystemRun(m, ys, a, page);
    AtTheDoor(n, a, page);
    OneStep(n, Run(a));
    OneAfterTheOther(m, ys, [Run(a)]);
    OneAfterTheOther(s, xs, ys + [Run(a)]);
    es := xs + (ys + [Run(a)]);
    forall e | e in es ensures e.DiskDone? || e.Run? {
      assert e in xs || e in ys || e == Run(a);
    }
  }

  /* ------------------------------------------------ a fatal fault ends the process */

  /** A process at this place has made a fault that it must not, or has called for its end. */
  predicate Ending(p: Pc) {
    match p
    case Trapped(_, good) => !good
    case Paging(_, good) => !good
    case _ => p.Failed? || p.Leaving? || p.Clearing? || p.Cleared? || p.Signing? || p.Dead?
  }

  /** How many places lie between this one and the end. */
  function ToGo(frames: nat, p: Pc): nat {
    match p
    case Dead => 0
    case Signing => 1
    case Cleared => 2
    case Clearing(i) => 3 + if i < frames then frames - i else 0
    case Leaving => frames + 4
    case Failed => frames + 5
    case Paging(_, _) => frames + 6
    case _ => frames + 7
  }

  lemma EndingFollows(c: Config, a: nat, p: Pc, p': Pc)
    requires Ending(p) && Follows(c, a, p, p')
    ensures Ending(p') && ToGo(c.frames, p') < ToGo(c.frames, p)
  {
  }

  lemma EndingStep(s: State, e: Step, a: nat)
    requires Inv(s) && Legal(s, e) && a in s.pc && Ending(s.pc[a])
    ensures var n := Do(s, e);
            && a in n.pc && n.c == s.c
            && (n.pc[a] == s.pc[a] || (Ending(n.pc[a]) && ToGo(s.c.frames, n.pc[a]) < ToGo(s.c.frames, s.pc[a])))
  {
    hide Inv, Do, Legal, Follows, Ending, ToGo, FlatWord, LastStore;
    PlaceStep(s, e, a);
    FlatStep(s, e, 0, 0, 0);
    if Do(s, e).pc[a] != s.pc[a] {
      EndingFollows(s.c, a, s.pc[a], Do(s, e).pc[a]);
    }
  }

  /**
   Once a process has made a fatal fault, or called for its end, it never runs again in any run: it is
   always at a place that is on the way to its end, and never further from it than before.
   */
  lemma {:induction false} NeverBack(s: State, es: seq<Step>, a: nat)
    requires Inv(s) && LegalRun(s, es) && a in s.pc && Ending(s.pc[a])
    ensures var n := Ran(s, es);
            && a in n.pc && Ending(n.pc[a]) && n.pc[a] != User
            && n.c == s.c && ToGo(s.c.frames, n.pc[a]) <= ToGo(s.c.frames, s.pc[a])
    decreases |es|
  {
    hide Inv, Do, Legal, ToGo;
    if es != [] {
      StepInv(s, es[0]);
      EndingStep(s, es[0], a);
      NeverBack(Do(s, es[0]), es[1..], a);
    }
  }

  /** A fatal fault, and the call for the process's own end. */
  lemma EndBegins(s: State, a: nat, page: nat)
    requires s.c.pages > 0 && a in s.pc && s.pc[a] == User
    ensures Legal(s, Fault(a, page, false)) && Ending(At(Do(s, Fault(a, page, false)).pc, a))
    ensures Legal(s, Quit(a)) && Ending(At(Do(s, Quit(a)).pc, a))
  {
    hide SemP;
  }

  /** The process goes on by its own step, if it does not wait for the pager. */
  lemma EndsFurther(s: State, a: nat)
    requires Inv(s) && a in s.pc && Ending(s.pc[a]) && !WantsPool(s.pc[a]) && s.pc[a] != Dead
    ensures Legal(s, Run(a)) && Do(s, Run(a)).c == s.c && a in Do(s, Run(a)).pc
    ensures Ending(Do(s, Run(a)).pc[a])
    ensures ToGo(s.c.frames, Do(s, Run(a)).pc[a]) < ToGo(s.c.frames, s.pc[a])
  {
    hide Inv, Do, ToGo, DoRun;
    PagesPositive(s);
    BusyMoves(s, a);
    RunIs(s, a);
    EndingStep(s, Run(a), a);
  }

  lemma InsideIsFurther(frames: nat, p: Pc, p': Pc)
    requires Ending(p) && WantsPool(p) && Ending(p') && HasPool(p') && ToGo(frames, p') <= ToGo(frames, p)
    ensures ToGo(frames, p') < ToGo(frames, p)
  {
  }

  /**
   Steps of the system and of the disk alone bring a process that has made a fatal fault, or called for
   its end, to its end, and then no frame is its own any more.
   */
  lemma {:induction false} BroughtToEnd(s: State, a: nat) returns (es: seq<Step>)
    requires Inv(s) && a in s.pc && Ending(s.pc[a])
    ensures LegalRun(s, es) && OfSystem(es)
    ensures var n := Ran(s, es);
            a in n.pc && n.pc[a] == Dead && forall f | f in n.t.slots && n.t.slots[f].Held? :: n.t.slots[f].asid != a
    decreases ToGo(s.c.frames, s.pc[a])
  {
    hide Inv, Do, Legal, ToGo, Ending;
    if s.pc[a] == Dead {
      es := [];
      forall f | f in s.t.slots && s.t.slots[f].Held? ensures s.t.slots[f].asid != a {
        SignedOwnsNothing(s, a, f);
      }
    } else {
      var xs;
      if WantsPool(s.pc[a]) {
        xs := Enter(s, a);
        NeverBack(s, xs, a);
        InsideIsFurther(s.c.frames, s.pc[a], Ran(s, xs).pc[a]);
      } else {
        EndsFurther(s, a);
        OneStep(s, Run(a));
        xs := [Run(a)];
        StepInv(s, Run(a));
      }
      var rest := BroughtToEnd(Ran(s, xs), a);
      OneAfterTheOther(s, xs, rest);
      es := xs + rest;
    }
  }
}
