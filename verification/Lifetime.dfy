/** One process in one frame, from its tape, which is empty, through its first fault to its end. */
module Lifetime {
  import opened Paging
  import opened PagingInv
  import opened PagingRuns

  const ALONE: Config := Config(1, 1, 2, map[], map[])

  const FREE: Sem := Sem(1, [], 0)
  const TAKEN: Sem := Sem(0, [], 1)

  /** es leads from the start to s. */
  ghost predicate ReachedBy(es: seq<Step>, s: State) {
    LegalRun(Start(ALONE), es) && Ran(Start(ALONE), es) == s
  }

  lemma {:induction false} Longer(s: State, es: seq<Step>, e: Step)
    requires LegalRun(s, es) && Legal(Ran(s, es), e)
    ensures LegalRun(s, es + [e]) && Ran(s, es + [e]) == Do(Ran(s, es), e)
    decreases |es|
  {
    hide Legal, Do;
    if es == [] {
      assert [e][1..] == [];
    } else {
      assert (es + [e])[1..] == es[1..] + [e];
      Longer(Do(s, es[0]), es[1..], e);
    }
  }

  lemma Then(es: seq<Step>, s: State, e: Step) returns (es': seq<Step>, n: State)
    requires ReachedBy(es, s) && Legal(s, e)
    ensures es' == es + [e] && n == Do(s, e) && ReachedBy(es', n)
  {
    hide Legal, Do, LegalRun, Ran;
    Longer(Start(ALONE), es, e);
    es', n := es + [e], Do(s, e);
  }

  /** The process is at p, and the two semaphores, the device and the tables are as given. */
  ghost predicate Stands(s: State, p: Pc, pool: Sem, disk: Sem, t: Tables) {
    && s.c == ALONE && 1 in s.pc && s.pc[1] == p && s.pool == pool && s.disk == disk && s.t == t
    && s.dev.command == Idle && s.dev.arm == 0
  }

  lemma Begins()
    ensures ReachedBy([], Start(ALONE)) && Stands(Start(ALONE), Load(0), FREE, FREE, Tables(map[], map[], map[], 0))
  {
    assert Unloaded(1)[1] == Load(0);
  }

  /** The empty tape is loaded, the process faults, and the pager picks the only frame, which is empty. */
  lemma Faults() returns (es: seq<Step>, s: State)
    ensures ReachedBy(es, s)
    ensures Stands(s, Io(Fetching(0, 0), Calling), TAKEN, FREE, Tables(map[], map[], map[], 0))
  {
    hide ReachedBy, Start, Ousted, BroughtIn, Released, OpOf, SemV, Woken;
    Begins();
    es, s := Then([], Start(ALONE), Run(1));
    es, s := Then(es, s, Fault(1, 0, true));
    es, s := Then(es, s, Run(1));
    es, s := Then(es, s, Run(1));
  }

  /** The page is read. */
  lemma Reads() returns (es: seq<Step>, s: State)
    ensures ReachedBy(es, s) && Stands(s, Loaded(0, 0), TAKEN, FREE, Tables(map[], map[], map[], 0))
  {
    hide ReachedBy;
    es, s := Faults();
    es, s := Then(es, s, Run(1));
    es, s := Then(es, s, Run(1));
    es, s := Then(es, s, DiskDone);
    es, s := Then(es, s, Run(1));
    es, s := Then(es, s, DiskDone);
    es, s := Then(es, s, Run(1));
  }

  /** The process runs, with its page 0 in frame 0, and finds there what it stores. */
  ghost predicate InFrame(s: State) {
    && s.c == ALONE && 1 in s.pc && s.pc[1] == User && s.pool == FREE && s.disk == FREE
    && PteOf(s.t.pte, 1, 0) == Valid(0) && SlotOf(s.t.slots, 0) == Held(1, 0, 0)
  }

  lemma Installs() returns (es: seq<Step>, s: State)
    ensures ReachedBy(es, s) && InFrame(s)
  {
    hide ReachedBy;
    es, s := Reads();
    es, s := Then(es, s, Run(1));
    es, s := Then(es, s, Run(1));
  }

  lemma StoreLoads(s: State, value: int)
    requires InFrame(s)
    ensures var r := s.(t := s.t.(tlb := s.t.tlb[Vpn(1, 0) := 0]));
            && Legal(s, Refill(1, 0)) && Do(s, Refill(1, 0)) == r && Legal(r, Store(1, 0, 0, value))
            && var n := Do(r, Store(1, 0, 0, value));
               InFrame(n) && Vpn(1, 0) in n.t.tlb && Loads(n, 1, 0, 0) == value
  {
  }

  /** It translates, stores, and finds what it has stored. */
  lemma Stores(value: int) returns (es: seq<Step>, s: State)
    ensures LegalRun(Start(ALONE), es) && Ran(Start(ALONE), es) == s
    ensures InFrame(s) && Vpn(1, 0) in s.t.tlb && Loads(s, 1, 0, 0) == value
  {
    es, s := Installs();
    StoreLoads(s, value);
    hide Do, Legal, LegalRun, Ran;
    es, s := Then(es, s, Refill(1, 0));
    es, s := Then(es, s, Store(1, 0, 0, value));
  }

  lemma Releases(s: State) returns (n: State)
    requires InFrame(s)
    ensures Legal(s, Quit(1))
    ensures var r := Do(s, Quit(1));
            && Legal(r, Run(1)) && Legal(Do(r, Run(1)), Run(1)) && n == Do(Do(r, Run(1)), Run(1))
    ensures n.c == ALONE && 1 in n.pc && n.pc[1] == Cleared && n.pool == TAKEN
    ensures PteOf(n.t.pte, 1, 0) == Valid(0) && SlotOf(n.t.slots, 0).Empty?
  {
    hide Ousted, BroughtIn, OpOf, SemV, Woken, NextFrame;
    n := Do(Do(Do(s, Quit(1)), Run(1)), Run(1));
  }

  lemma SignsOff(s: State)
    requires s.c == ALONE && 1 in s.pc && s.pc[1] == Cleared && s.pool == TAKEN
    ensures Legal(s, Run(1)) && Legal(Do(s, Run(1)), Run(1))
    ensures var n := Do(Do(s, Run(1)), Run(1)); 1 in n.pc && n.pc[1] == Dead && n.t == s.t
  {
  }

  /** At its end the frame is empty, and its entry is still valid. */
  lemma ValidAfterEnd() returns (es: seq<Step>, s: State)
    ensures LegalRun(Start(ALONE), es) && Ran(Start(ALONE), es) == s
    ensures 1 in s.pc && s.pc[1] == Dead && PteOf(s.t.pte, 1, 0) == Valid(0) && SlotOf(s.t.slots, 0).Empty?
  {
    es, s := Installs();
    var n := Releases(s);
    SignsOff(n);
    hide Do, Legal, LegalRun, Ran;
    es, s := Then(es, s, Quit(1));
    es, s := Then(es, s, Run(1));
    es, s := Then(es, s, Run(1));
    es, s := Then(es, s, Run(1));
    es, s := Then(es, s, Run(1));
  }
}
