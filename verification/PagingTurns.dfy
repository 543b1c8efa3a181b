/** Nobody waits forever for the pager or for the disk: turns come in order, and each is bounded. */
module PagingTurns {
  import opened Paging
  import opened PagingInv
  import opened PagingSteps
  import opened PagingRuns
  import opened Seqs

  /** The two semaphores that processes queue for: swapPoolSem, and that of the disk. */
  datatype Which = PoolSem | DiskSem

  function SemOf(s: State, w: Which): Sem {
    if w.PoolSem? then s.pool else s.disk
  }

  predicate GivesFrom(p: Pc, w: Which) {
    if w.PoolSem? then p.Installed? || p.Cleared? || (p.Paging? && !p.good) else p.Io? && p.stage.Moved?
  }

  /** The step is a V on the semaphore. */
  predicate Gives(s: State, e: Step, w: Which) {
    e.Run? && GivesFrom(At(s.pc, e.asid), w)
  }

  /* ------------------------------------------------ who is next */

  /** What a step may do to a semaphore: let the first waiter in after a V, else only add waiters. */
  predicate Passed(m: Sem, n: Sem, gives: bool) {
    if gives then m.queue != [] ==> n.holder == m.queue[0] && n.queue == m.queue[1..]
    else m.queue <= n.queue && (m.holder != 0 ==> n.holder == m.holder)
  }

  lemma TakenPasses(m: Sem, a: nat)
    requires Mutex(m)
    ensures Passed(m, SemP(m, a), false) && Passed(m, m, false)
  {
  }

  lemma GivenPasses(m: Sem)
    requires Mutex(m)
    ensures Passed(m, SemV(m), true)
  {
  }

  lemma Mutexes(s: State)
    requires Inv(s)
    ensures Mutex(s.pool) && Mutex(s.disk)
  {
  }

  lemma QueueRun(s: State, a: nat, w: Which)
    requires Inv(s) && a in s.pc
    ensures Passed(SemOf(s, w), SemOf(DoRun(s, a), w), GivesFrom(s.pc[a], w))
  {
    hide Inv, Passed, Mutex, SemP, SemV, Woken, OpOf, NextFrame, Ousted, BroughtIn, Released;
    Mutexes(s);
    PagesPositive(s);
    TakenPasses(SemOf(s, w), a);
    GivenPasses(SemOf(s, w));
  }

  lemma QueueStep(s: State, e: Step, w: Which)
    requires Inv(s) && Legal(s, e)
    ensures Passed(SemOf(s, w), SemOf(Do(s, e), w), Gives(s, e, w))
  {
    hide Inv, Passed, Mutex, SemP, DoRun, Finished, GivesFrom;
    Mutexes(s);
    match e {
      case Run(a) => QueueRun(s, a, w);
      case Fault(a, _, _) => TakenPasses(SemOf(s, w), a);
      case Quit(a) => TakenPasses(SemOf(s, w), a);
      case _ => TakenPasses(SemOf(s, w), 0);
    }
  }

  /** The V's on the semaphore in a run. */
  ghost function Given(s: State, es: seq<Step>, w: Which): nat
    requires LegalRun(s, es)
    decreases |es|
  {
    if es == [] then 0 else (if Gives(s, es[0], w) then 1 else 0) + Given(Do(s, es[0]), es[1..], w)
  }

  /** a is between its P and its V at some point of the run. */
  ghost predicate Inside(s: State, es: seq<Step>, w: Which, a: nat)
    requires LegalRun(s, es)
    decreases |es|
  {
    SemOf(s, w).holder == a || (es != [] && Inside(Do(s, es[0]), es[1..], w, a))
  }

  /**
   A process with k others ahead of it in the queue of the pager, or of the disk, is inside by the
   (k+1)st V, whatever else happens in between.
   */
  lemma {:induction false} InTurn(s: State, es: seq<Step>, w: Which, a: nat, k: nat)
    requires Inv(s) && LegalRun(s, es) && k < |SemOf(s, w).queue| && SemOf(s, w).queue[k] == a
    requires Given(s, es, w) >= k + 1
    ensures Inside(s, es, w, a)
    decreases |es|
  {
    hide Inv, Do, Legal, Gives;
    var n, gives := Do(s, es[0]), Gives(s, es[0], w);
    QueueStep(s, es[0], w);
    StepInv(s, es[0]);
    if !gives || k > 0 {
      InTurn(n, es[1..], w, a, if gives then k - 1 else k);
    }
  }

  /* ------------------------------------------------ how long a turn takes */

  function StageLeft(stage: Stage): nat {
    match stage
    case Calling => 6
    case Queued => 5
    case Granted => 4
    case Seeking => 3
    case Sought => 2
    case Moving => 1
    case Moved => 0
  }

  /** How many moves are left for the holder at most, before its V. */
  function Left(frames: nat, w: Which, p: Pc): nat {
    match p
    case Io(why, stage) =>
      StageLeft(stage) + if w.DiskSem? then 0 else if why.Evicting? then 9 else 2
    case Paging(_, good) => if good then 17 else 0
    case Picked(_, _) => 16
    case Loaded(_, _) => 1
    case Clearing(i) => if i < frames then frames - i + 1 else 1
    case _ => 0
  }

  /** How many moves a whole turn takes at most, before its V. */
  function Longest(frames: nat, w: Which): nat {
    if w.DiskSem? then 4 else if frames + 1 > 17 then frames + 1 else 17
  }

  predicate Has(p: Pc, w: Which) {
    if w.PoolSem? then HasPool(p) else HasDisk(p)
  }

  lemma HolderHas(s: State, w: Which)
    requires Inv(s) && SemOf(s, w).holder != 0
    ensures SemOf(s, w).holder in s.pc && Has(s.pc[SemOf(s, w).holder], w)
    ensures forall a | a in s.pc && Has(s.pc[a], w) :: a == SemOf(s, w).holder
  {
  }

  lemma WaiterHolder(s: State, w: Which)
    requires Inv(s)
    ensures SemOf(s, w).queue != [] ==> SemOf(s, w).holder != 0
  {
  }

  /** Another's step brings the holder no further away from its V. */
  lemma PushedOn(frames: nat, w: Which, p: Pc, p': Pc)
    requires Has(p, w) && (p' == p || p' == Entered(p) || p' == Continued(p))
    ensures p' == p || Left(frames, w, p') < Left(frames, w, p)
  {
  }

  /** The holder's own step that is not its V. */
  lemma OwnMove(s: State, w: Which, a: nat)
    requires Inv(s) && a in s.pc && Has(s.pc[a], w) && !GivesFrom(s.pc[a], w)
    ensures var p, p' := s.pc[a], At(DoRun(s, a).pc, a);
            p' == p || Left(s.c.frames, w, p') < Left(s.c.frames, w, p)
  {
    hide Inv, SemP, SemV, Woken, OpOf, NextFrame, Ousted, BroughtIn, Released;
    PagesPositive(s);
    match s.pc[a] {
      case Io(why, Moved) =>
        NotWokenDisk(s, a);
        NextPlace(s.pc, s.disk, a, Returned(why));
      case _ =>
    }
  }

  /** While it has the semaphore, every move of the holder brings it closer to its V. */
  lemma HolderMoves(s: State, e: Step, w: Which)
    requires Inv(s) && Legal(s, e) && SemOf(s, w).holder != 0 && !Gives(s, e, w)
    ensures var h := SemOf(s, w).holder;
            var p, p' := At(s.pc, h), At(Do(s, e).pc, h);
            p' == p || Left(s.c.frames, w, p') < Left(s.c.frames, w, p)
  {
    hide Inv, Left, DoRun, GivesFrom, SemP, Passes, Finished;
    HolderHas(s, w);
    var h := SemOf(s, w).holder;
    if Actor(e) != h {
      OthersMove(s, e, h);
      hide Do, Has, Entered, Continued;
      PushedOn(s.c.frames, w, s.pc[h], At(Do(s, e).pc, h));
    } else if e.Run? {
      OwnMove(s, w, h);
    }
  }

  /** Whoever has just been let in has a whole turn before it, and no more. */
  lemma FreshTurn(frames: nat, w: Which, p: Pc, p': Pc)
    requires frames > 0 && !Has(p, w) && Has(p', w) && (p' == p || p' == Entered(p) || p' == Continued(p))
    ensures Left(frames, w, p') <= Longest(frames, w)
  {
  }

  lemma NextTurn(s: State, e: Step, w: Which)
    requires Inv(s) && Legal(s, e) && Gives(s, e, w) && SemOf(s, w).queue != []
    ensures SemOf(Do(s, e), w).holder == SemOf(s, w).queue[0]
    ensures Left(s.c.frames, w, At(Do(s, e).pc, SemOf(Do(s, e), w).holder)) <= Longest(s.c.frames, w)
  {
    hide Inv, Do, Left, Longest, Has, Entered, Continued;
    var n, a := Do(s, e), SemOf(s, w).queue[0];
    QueueStep(s, e, w);
    StepInv(s, e);
    FirstWaits(s, w);
    GiverHas(s, e, w);
    HolderHas(n, w);
    OthersMove(s, e, a);
    FreshTurn(s.c.frames, w, s.pc[a], At(n.pc, a));
  }

  lemma FirstWaits(s: State, w: Which)
    requires Inv(s) && SemOf(s, w).queue != []
    ensures s.c.frames > 0 && SemOf(s, w).holder != 0 && SemOf(s, w).queue[0] != 0
    ensures SemOf(s, w).queue[0] in s.pc && !Has(s.pc[SemOf(s, w).queue[0]], w)
  {
    assert SemOf(s, w).queue[0] in SemOf(s, w).queue;
  }

  lemma GiverHas(s: State, e: Step, w: Which)
    requires Inv(s) && Legal(s, e) && Gives(s, e, w)
    ensures Actor(e) in s.pc && Has(s.pc[Actor(e)], w)
  {
    hide Inv;
  }

  /** The step moves the holder: it is its V, or brings it closer to it. */
  predicate MovesHolder(s: State, e: Step, w: Which)
    requires Legal(s, e)
  {
    Gives(s, e, w) || (SemOf(s, w).holder != 0 && At(Do(s, e).pc, SemOf(s, w).holder) != At(s.pc, SemOf(s, w).holder))
  }

  /** How often the holder of the moment moves in a run. */
  ghost function Moves(s: State, es: seq<Step>, w: Which): nat
    requires LegalRun(s, es)
    decreases |es|
  {
    if es == [] then 0 else (if MovesHolder(s, es[0], w) then 1 else 0) + Moves(Do(s, es[0]), es[1..], w)
  }

  /** What is left for the holder, and whole turns for those ahead of number k in the queue. */
  function TurnsLeft(s: State, w: Which, k: nat): nat {
    Left(s.c.frames, w, At(s.pc, SemOf(s, w).holder)) + 1 + k * (Longest(s.c.frames, w) + 1)
  }

  /** A move of the holder uses up one of the moves that are left. */
  lemma TurnStep(s: State, e: Step, w: Which, k: nat)
    requires Inv(s) && Legal(s, e) && k < |SemOf(s, w).queue| && (Gives(s, e, w) ==> k > 0)
    ensures var n := Do(s, e);
            && n.c == s.c
            && TurnsLeft(s, w, k) >= TurnsLeft(n, w, if Gives(s, e, w) then k - 1 else k)
                                     + if MovesHolder(s, e, w) then 1 else 0
  {
    hide Inv, Do, Left, Longest, Gives, Legal;
    FlatStep(s, e, 0, 0, 0);
    WaiterHolder(s, w);
    QueueStep(s, e, w);
    if Gives(s, e, w) {
      NextTurn(s, e, w);
      assert k * (Longest(s.c.frames, w) + 1)
          == (k - 1) * (Longest(s.c.frames, w) + 1) + Longest(s.c.frames, w) + 1;
    } else {
      HolderMoves(s, e, w);
    }
  }

  /**
   A process with k others ahead of it is inside after a bounded number of moves of the processes that
   have the semaphore before it. A turn in the pager takes 17 moves and a V, or frames + 1 and a V at a
   process's end; a turn at the disk takes four and a V. Steps of others do not count.
   */
  lemma {:induction false} ServedByMoves(s: State, es: seq<Step>, w: Which, a: nat, k: nat)
    requires Inv(s) && LegalRun(s, es) && k < |SemOf(s, w).queue| && SemOf(s, w).queue[k] == a
    requires Moves(s, es, w) >= TurnsLeft(s, w, k)
    ensures Inside(s, es, w, a)
    decreases |es|
  {
    hide Inv, Do, Legal, Gives, TurnsLeft, MovesHolder;
    AtLeastOne(s, w, k);
    var n, gives := Do(s, es[0]), Gives(s, es[0], w);
    QueueStep(s, es[0], w);
    StepInv(s, es[0]);
    if !gives || k > 0 {
      TurnStep(s, es[0], w, k);
      ServedByMoves(n, es[1..], w, a, if gives then k - 1 else k);
    }
  }

  lemma AtLeastOne(s: State, w: Which, k: nat)
    ensures TurnsLeft(s, w, k) >= 1
  {
  }

  /* ------------------------------------------------ the system can always serve */

  predicate IsQueued(s: State) {
    WantsDisk(At(s.pc, s.pool.holder))
  }

  /** The holder of a semaphore that is not queued for the disk has a step to take, or the disk for it. */
  function DueFor(s: State, w: Which): Step {
    var p := At(s.pc, SemOf(s, w).holder);
    if p.Io? && (p.stage.Seeking? || p.stage.Moving?) then DiskDone else Run(SemOf(s, w).holder)
  }

  lemma DueMoves(s: State, w: Which)
    requires Inv(s) && SemOf(s, w).holder != 0 && !WantsDisk(At(s.pc, SemOf(s, w).holder))
    ensures Legal(s, DueFor(s, w)) && MovesHolder(s, DueFor(s, w), w)
  {
    hide Inv, DoRun, DoDisk;
    HolderHas(s, w);
    PagesPositive(s);
    var a := SemOf(s, w).holder;
    if DueFor(s, w).DiskDone? {
      DiskEnds(s, a);
    } else {
      BusyMoves(s, a);
    }
  }

  lemma DiskEnds(s: State, a: nat)
    requires Inv(s) && a in s.pc && s.pc[a].Io? && (s.pc[a].stage.Seeking? || s.pc[a].stage.Moving?)
    ensures Legal(s, DiskDone) && a in Do(s, DiskDone).pc && Do(s, DiskDone).pc[a] != s.pc[a]
  {
    hide ControlOk, DataOk, Finished, Serving, OpOf;
    DiskBusy(s, a);
    Served(s);
    HolderIsOne(s, a);
  }

  lemma HolderIsOne(s: State, a: nat)
    requires Inv(s) && a in s.pc && HasDisk(s.pc[a])
    ensures s.disk.holder == a
  {
  }

  /** The step that brings the holder of swapPoolSem on, if need be by way of the holder of the disk. */
  function Due(s: State): Step {
    DueFor(s, if IsQueued(s) then DiskSem else PoolSem)
  }

  /** j is the place of the holder of swapPoolSem in the queue for the disk, if it waits there. */
  predicate QueuedAt(s: State, j: nat) {
    IsQueued(s) ==> j < |s.disk.queue| && s.disk.queue[j] == s.pool.holder
  }

  /** Number k is closer to its turn in n than in s, or the holder is closer to the disk. */
  predicate Closer(s: State, k: nat, j: nat, n: State, k': nat, j': nat) {
    || TurnsLeft(n, PoolSem, k') < TurnsLeft(s, PoolSem, k)
    || (TurnsLeft(n, PoolSem, k') == TurnsLeft(s, PoolSem, k) && IsQueued(s)
        && (IsQueued(n) ==> TurnsLeft(n, DiskSem, j') < TurnsLeft(s, DiskSem, j)))
  }

  lemma SomePlace(s: State) returns (j: nat)
    requires Inv(s)
    ensures QueuedAt(s, j)
  {
    j := 0;
    if IsQueued(s) {
      assert s.pool.holder in s.disk.queue;
      j :| j < |s.disk.queue| && s.disk.queue[j] == s.pool.holder;
    }
  }

  lemma DueOwn(s: State, k: nat, j: nat) returns (j': nat)
    requires Inv(s) && k < |s.pool.queue| && !IsQueued(s)
    ensures Legal(s, Due(s))
    ensures var e, n := Due(s), Do(s, Due(s));
            && (!Gives(s, e, PoolSem) ==> QueuedAt(n, j') && Closer(s, k, j, n, k, j'))
            && (Gives(s, e, PoolSem) && k > 0 ==> QueuedAt(n, j') && Closer(s, k, j, n, k - 1, j'))
  {
    hide Inv, Do, Legal, Gives, TurnsLeft, MovesHolder, DueFor, IsQueued, QueuedAt;
    WaiterHolder(s, PoolSem);
    assert !WantsDisk(At(s.pc, s.pool.holder)) by { QueuedIs(s); }
    DueMoves(s, PoolSem);
    StepInv(s, Due(s));
    j' := SomePlace(Do(s, Due(s)));
    if !Gives(s, Due(s), PoolSem) || k > 0 {
      TurnStep(s, Due(s), PoolSem, k);
    }
  }

  lemma QueuedIs(s: State)
    ensures IsQueued(s) == WantsDisk(At(s.pc, s.pool.holder))
  {
  }

  /** The holder of the disk moves on while that of swapPoolSem waits for it. */
  lemma DueDisk(s: State, k: nat, j: nat) returns (j': nat)
    requires Inv(s) && k < |s.pool.queue| && IsQueued(s) && QueuedAt(s, j)
    ensures Legal(s, Due(s))
    ensures var e, n := Due(s), Do(s, Due(s));
            !Gives(s, e, PoolSem) && QueuedAt(n, j') && Closer(s, k, j, n, k, j')
  {
    hide Inv, Do, Legal, Gives, TurnsLeft, MovesHolder, DueFor, Has;
    var e := Due(s);
    WaiterHolder(s, DiskSem);
    HolderHas(s, DiskSem);
    HasNotWants(s);
    DueMoves(s, DiskSem);
    StepInv(s, e);
    DiskHolderKeeps(s);
    TurnStep(s, e, PoolSem, k);
    QueueStep(s, e, DiskSem);
    QueueStep(s, e, PoolSem);
    WaiterHolder(s, PoolSem);
    if Gives(s, e, DiskSem) && j == 0 {
      j' := SomePlace(Do(s, e));
      EnteredMoved(s, e);
    } else {
      TurnStep(s, e, DiskSem, j);
      j' := if Gives(s, e, DiskSem) then j - 1 else j;
    }
  }

  lemma HasNotWants(s: State)
    requires Has(At(s.pc, s.disk.holder), DiskSem)
    ensures !WantsDisk(At(s.pc, s.disk.holder))
  {
  }

  /** The holder of the disk does not leave the pager by this step. */
  lemma DiskHolderKeeps(s: State)
    requires IsQueued(s) && Has(At(s.pc, s.disk.holder), DiskSem)
    ensures !Gives(s, Due(s), PoolSem)
  {
  }

  /** Being let in is a move. */
  lemma EnteredMoved(s: State, e: Step)
    requires Inv(s) && Legal(s, e) && Inv(Do(s, e)) && IsQueued(s) && s.pool.holder != 0
    requires Do(s, e).disk.holder == s.pool.holder
    ensures MovesHolder(s, e, PoolSem)
  {
    hide Inv, Do, Legal, Gives;
    var n, h := Do(s, e), s.pool.holder;
    HolderHas(n, DiskSem);
    assert HasDisk(n.pc[h]) && WantsDisk(At(s.pc, h));
  }

  /**
   Whatever the user processes have been doing, steps of the system and of the disk alone can bring a
   process that waits for the pager inside.
   */
  lemma {:induction false} Servable(s: State, a: nat, k: nat, j: nat) returns (es: seq<Step>)
    requires Inv(s) && k < |s.pool.queue| && s.pool.queue[k] == a && QueuedAt(s, j)
    ensures LegalRun(s, es) && Ran(s, es).pool.holder == a
    ensures forall e | e in es :: e.DiskDone? || e.Run?
    decreases TurnsLeft(s, PoolSem, k), if IsQueued(s) then TurnsLeft(s, DiskSem, j) else 0
  {
    hide Inv, Do, Legal, Gives, TurnsLeft, IsQueued, QueuedAt;
    var e, j' := Due(s), 0;
    if IsQueued(s) {
      j' := DueDisk(s, k, j);
    } else {
      j' := DueOwn(s, k, j);
    }
    var n := Do(s, e);
    QueueStep(s, e, PoolSem);
    StepInv(s, e);
    AtLeastOne(s, DiskSem, j);
    if Gives(s, e, PoolSem) && k == 0 {
      es := [e];
    } else {
      var rest := Servable(n, a, if Gives(s, e, PoolSem) then k - 1 else k, j');
      es := [e] + rest;
      assert es[1..] == rest;
    }
  }
}
