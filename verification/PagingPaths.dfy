/** The way of a process through the pager: which place follows which, whatever the others do. */
module PagingPaths {
  import opened Paging
  import opened PagingInv
  import opened PagingSteps
  import opened PagingRuns
  import opened PagingTurns
  import opened Seqs

  /** The table entry of a page: its own if the table has one, and otherwise the last. */
  function EntryOf(pages: nat, page: nat): int {
    if page < pages then page else pages - 1
  }

  /** The places that may follow p on the way of process a. */
  predicate Follows(c: Config, a: nat, p: Pc, p': Pc) {
    match p
    case Load(i) => p' == if i < |TapeOf(c, a)| then Tape(i) else User
    case Tape(i) => p' == Io(Loading(i), Calling)
    case Io(why, stage) => FollowsIo(why, stage, p')
    case User => p'.Trapped? || p'.Paging? || p' == Pc.Leaving || p' == Clearing(0)
    case Trapped(page, good) => p' == Pc.Paging(page, good)
    case Paging(page, good) => if good then p'.Picked? && p'.page == page else p' == Failed
    case Picked(page, f) =>
      || p' == Io(Fetching(page, f), Calling)
      || (p'.Io? && p'.stage == Calling && p'.why.Evicting? && p'.why.page == page && p'.why.f == f)
    case Loaded(_, _) => p' == Installed
    case Installed => p' == User
    case Failed => p' == Pc.Leaving || p' == Clearing(0)
    case Leaving => p' == Clearing(0)
    case Clearing(i) => p' == if i < c.frames then Clearing(i + 1) else Cleared
    case Cleared => p' == Signing
    case Signing => p' == Dead
    case Dead => false
  }

  predicate FollowsIo(why: Why, stage: Stage, p': Pc) {
    match stage
    case Calling => p' == Io(why, Queued) || p' == Io(why, Granted)
    case Queued => p' == Io(why, Granted)
    case Granted => p' == Io(why, Seeking)
    case Seeking => p' == Io(why, Sought)
    case Sought => p' == Io(why, Moving)
    case Moving => p' == Io(why, Moved)
    case Moved =>
      match why
      case Loading(i) => p' == Load(i + 1)
      case Evicting(page, f, _, _) => p' == Io(Fetching(page, f), Calling)
      case Fetching(page, f) => p' == Loaded(page, f)
  }

  lemma PushFollows(c: Config, a: nat, p: Pc)
    ensures Entered(p) == p || Follows(c, a, p, Entered(p))
    ensures Continued(p) == p || Follows(c, a, p, Continued(p))
  {
  }

  lemma ReturnFollows(why: Why)
    ensures FollowsIo(why, Moved, Returned(why))
  {
  }

  lemma RunFollows(s: State, a: nat)
    requires Inv(s) && a in s.pc
    ensures var p, p' := s.pc[a], At(DoRun(s, a).pc, a); p' == p || Follows(s.c, a, p, p')
  {
    hide Inv, Ousted, BroughtIn, Released, SemP, SemV, Passes, OpOf, Woken, NextFrame, Returned;
    PagesPositive(s);
    match s.pc[a] {
      case Io(why, Moved) => NotWokenDisk(s, a); NextPlace(s.pc, s.disk, a, Returned(why)); ReturnFollows(why);
      case Paging(_, false) => NotWokenPool(s, a); NextPlace(s.pc, s.pool, a, Failed);
      case Installed => NotWokenPool(s, a); NextPlace(s.pc, s.pool, a, User);
      case Cleared => NotWokenPool(s, a); NextPlace(s.pc, s.pool, a, Signing);
      case _ =>
    }
  }

  lemma ActFollows(s: State, e: Step, a: nat)
    requires Inv(s) && Legal(s, e) && a in s.pc && Actor(e) == a && a != 0
    ensures var p, p' := s.pc[a], At(Do(s, e).pc, a); p' == p || Follows(s.c, a, p, p')
    ensures s.pc[a].User? && At(Do(s, e).pc, a) != User ==>
              || (e == Quit(a) && At(Do(s, e).pc, a) in {Pc.Leaving, Clearing(0)})
              || (e.Fault? && At(Do(s, e).pc, a) in {Trapped(e.page, e.good), Pc.Paging(e.page, e.good)})
  {
    hide Inv, DoRun, SemP, Passes, Finished;
    if e.Run? {
      RunFollows(s, a);
      if s.pc[a].User? { UserRuns(s, a); }
    }
  }

  lemma UserRuns(s: State, a: nat)
    requires s.c.pages > 0 && a in s.pc && s.pc[a].User?
    ensures DoRun(s, a) == s
  {
  }

  /**
   Whatever step is taken, and by whom, a process stays where it is or goes to a place that follows. One
   that runs on its own leaves off only by a fault of its own, with that page, or by its own end.
   */
  lemma PlaceStep(s: State, e: Step, a: nat)
    requires Inv(s) && Legal(s, e) && a in s.pc
    ensures a in Do(s, e).pc
    ensures var p, p' := s.pc[a], Do(s, e).pc[a]; p' == p || Follows(s.c, a, p, p')
    ensures s.pc[a].User? && Do(s, e).pc[a] != User ==>
              || (e == Quit(a) && Do(s, e).pc[a] in {Pc.Leaving, Clearing(0)})
              || (e.Fault? && e.asid == a && Do(s, e).pc[a] in {Trapped(e.page, e.good), Pc.Paging(e.page, e.good)})
  {
    hide Inv, Do, Follows, Legal;
    KeysStep(s, e);
    ZeroIsNobody(s);
    if Actor(e) == a {
      ActFollows(s, e, a);
    } else {
      OthersMove(s, e, a);
      PushFollows(s.c, a, s.pc[a]);
    }
  }
}
