/**
 What each step of the pager machine does to tables, memory and disk, read off the state before and the
 state after.
 */
module PagingEffects {
  import opened Paging
  import opened PagingInv
  import opened PagingSteps
  import opened PagingRuns
  import opened PagingPaths

  /** Nothing but the tables and the place of a differs. */
  predicate OnlyTables(s: State, n: State, a: nat, p: Pc) {
    && n.c == s.c && n.pc == s.pc[a := p] && n.pool == s.pool && n.disk == s.disk && n.dev == s.dev
    && n.mem == s.mem && n.master == s.master && n.root == s.root && n.flat == s.flat
  }

  /* ------------------------------------------------ a fault, step by step */

  /** getFrame: the next frame, after the last one the first again. */
  lemma PickEffect(s: State, a: nat, page: nat)
    requires Inv(s) && a in s.pc && s.pc[a] == Pc.Paging(page, true)
    ensures s.t.frameNo + 1 <= s.c.frames
    ensures var n, f := Do(s, Run(a)), if s.t.frameNo + 1 == s.c.frames then 0 else s.t.frameNo + 1;
            && f >= 0 && OnlyTables(s, n, a, Picked(page, f)) && n.t == s.t.(frameNo := f) && n.picks == s.picks + 1
  {
    hide ControlOk, DataOk, NextFrame;
    FrameInRange(s);
    FrameLiteral(s);
  }

  lemma FrameLiteral(s: State)
    requires Inv(s)
    ensures s.t.frameNo + 1 <= s.c.frames
    ensures NextFrame(s.c.frames, s.t.frameNo) == if s.t.frameNo + 1 == s.c.frames then 0 else s.t.frameNo + 1
  {
  }

  lemma ClampIsEntry(pages: nat, page: nat)
    requires pages > 0
    ensures Clamp(pages, page) == EntryOf(pages, page)
  {
  }

  /** An empty frame is filled at once. */
  lemma EmptyEffect(s: State, a: nat, page: nat, f: nat)
    requires Inv(s) && a in s.pc && s.pc[a] == Picked(page, f) && (f in s.t.slots ==> s.t.slots[f].Empty?)
    ensures Do(s, Run(a)) == s.(pc := s.pc[a := Io(Fetching(page, f), Calling)])
  {
    hide ControlOk, DataOk, Ousted;
  }

  /**
   The page in the frame has to go first: its owner's entry for it, and no other, becomes invalid, no
   translation stays cached, and it is that page of that owner that is to be written.
   */
  lemma EvictEffect(s: State, a: nat, page: nat, f: nat)
    requires Inv(s) && a in s.pc && s.pc[a] == Picked(page, f) && f in s.t.slots && s.t.slots[f].Held?
    ensures var n, v, q := Do(s, Run(a)), s.t.slots[f].asid, EntryOf(s.c.pages, s.t.slots[f].page);
            && q >= 0 && PteOf(s.t.pte, v, q) == Valid(f)
            && OnlyTables(s, n, a, Io(Evicting(page, f, v, q), Calling)) && n.picks == s.picks
            && n.t == s.t.(pte := s.t.pte[Vpn(v, q) := Invalid], tlb := map[])
  {
    hide ControlOk, DataOk, Clamp;
    PagesPositive(s);
    ClampIsEntry(s.c.pages, s.t.slots[f].page);
    SlotPoints(s, a, f);
  }

  lemma SlotPoints(s: State, a: nat, f: nat)
    requires Inv(s) && a in s.pc && s.pc[a].Picked? && s.pc[a].f == f && f in s.t.slots && s.t.slots[f].Held?
    ensures s.c.pages > 0 && s.t.slots[f].entry == Clamp(s.c.pages, s.t.slots[f].page)
    ensures PteOf(s.t.pte, s.t.slots[f].asid, s.t.slots[f].entry) == Valid(f)
  {
    HolderOf(s, a);
    hide ControlOk, PtesOk, TlbOk, PagerOk, ContentsOk, FetchedOk, LoadingOk, JoinOk;
  }

  /** The page that has been fetched becomes valid, in the entry that is its own, and in no other. */
  lemma InstallEffect(s: State, a: nat, page: nat, f: nat)
    requires Inv(s) && a in s.pc && s.pc[a] == Loaded(page, f)
    ensures var n, p := Do(s, Run(a)), EntryOf(s.c.pages, page);
            && p >= 0 && OnlyTables(s, n, a, Installed) && n.picks == s.picks
            && n.t == s.t.(slots := s.t.slots[f := Held(a, page, p)], pte := s.t.pte[Vpn(a, p) := Valid(f)],
                           tlb := map[])
  {
    hide ControlOk, DataOk, Clamp;
    PagesPositive(s);
    ClampIsEntry(s.c.pages, page);
  }

  /** The loop of terminateUserProc: frame i is empty if it was a's. At the end no translation is cached. */
  lemma ClearEffect(s: State, a: nat, i: nat)
    requires Inv(s) && a in s.pc && s.pc[a] == Clearing(i)
    ensures var n := Do(s, Run(a));
            && n.picks == s.picks
            && if i >= s.c.frames then OnlyTables(s, n, a, Cleared) && n.t == s.t.(tlb := map[])
               else
                 && OnlyTables(s, n, a, Clearing(i + 1))
                 && n.t == if i in s.t.slots && s.t.slots[i].Held? && s.t.slots[i].asid == a
                           then s.t.(slots := s.t.slots[i := Empty]) else s.t
  {
    hide ControlOk, DataOk;
  }

  /* ------------------------------------------------ diskIO */

  /** Nothing but the device's command and the place of a differs. */
  predicate OnlyCommand(s: State, n: State, a: nat, p: Pc, command: Command) {
    n == s.(pc := s.pc[a := p], dev := s.dev.(command := command, waiter := a))
  }

  /** The seek: block i of a tape to cylinder i, a page to and from the cylinder of its table entry. */
  lemma SeekEffect(s: State, a: nat, why: Why)
    requires Inv(s) && a in s.pc && s.pc[a] == Io(why, Granted)
    ensures var cyl := match why
                       case Loading(i) => i
                       case Evicting(_, _, _, out) => out
                       case Fetching(page, _) => EntryOf(s.c.pages, page);
            cyl >= 0 && OnlyCommand(s, Do(s, Run(a)), a, Io(why, Seeking), Seek(cyl))
  {
    hide ControlOk, DataOk, Clamp;
    PagesPositive(s);
    if why.Fetching? { ClampIsEntry(s.c.pages, why.page); }
  }

  /** The transfer: in the sector of the page's owner, from or to its frame, or from a's tape buffer. */
  lemma MoveEffect(s: State, a: nat, why: Why)
    requires Inv(s) && a in s.pc && s.pc[a] == Io(why, Sought)
    ensures var command := match why
                           case Loading(_) => Move(a - 1, TapeBuf(a), true)
                           case Evicting(_, f, victim, _) => Move(victim - 1, Frame(f), true)
                           case Fetching(_, f) => Move(a - 1, Frame(f), false);
            OnlyCommand(s, Do(s, Run(a)), a, Io(why, Moving), command)
  {
    hide ControlOk, DataOk, Clamp;
    PagesPositive(s);
  }

  /** What the interrupt that ends a's transfer has moved: the tape block, the evicted page, the wanted page. */
  lemma MovedEffect(s: State, a: nat, why: Why)
    requires Inv(s) && Legal(s, DiskDone) && a in s.pc && s.pc[a] == Io(why, Moving)
    ensures var n := Do(s, DiskDone);
            && n.pc == s.pc[a := Io(why, Moved)] && n.t == s.t && n.pool == s.pool && n.disk == s.disk
            && match why
               case Loading(i) =>
                 n.dev.blocks == s.dev.blocks[Block(i, a - 1) := PageOf(s.mem, TapeBuf(a))] && n.mem == s.mem
               case Evicting(_, f, victim, out) =>
                 n.dev.blocks == s.dev.blocks[Block(out, victim - 1) := PageOf(s.mem, Frame(f))] && n.mem == s.mem
               case Fetching(page, f) =>
                 && n.dev.blocks == s.dev.blocks && EntryOf(s.c.pages, page) >= 0
                 && n.mem == s.mem[Frame(f) := BlockOf(s.dev.blocks, EntryOf(s.c.pages, page), a - 1)]
  {
    hide ControlOk, DataOk, Clamp;
    PagesPositive(s);
    DiskServes(s, a);
    if why.Fetching? { ClampIsEntry(s.c.pages, why.page); }
  }

  lemma DiskServes(s: State, a: nat)
    requires Inv(s) && a in s.pc && HasDisk(s.pc[a]) && s.dev.command != Idle
    ensures s.dev.waiter == a && s.c.pages > 0 && Serving(s.dev, a, OpOf(s.c.pages, a, s.pc[a].why), s.pc[a].stage)
  {
    hide DataOk, OpOf, Serving;
    Served(s);
  }

  /* ------------------------------------------------ the processes themselves */

  /** A block of the tape arrives in the process's buffer. */
  lemma TapeEffect(s: State, a: nat)
    requires Legal(s, TapeDone(a))
    ensures var i := s.pc[a].i;
            Do(s, TapeDone(a)) == s.(mem := s.mem[TapeBuf(a) := TapeOf(s.c, a)[i]],
                                     pc := s.pc[a := Io(Loading(i), Calling)])
  {
  }

  /** The processor takes a translation from the page table, and may lose it again. */
  lemma TranslationEffect(s: State, a: nat, p: nat, v: Vpn)
    requires s.c.pages > 0
    ensures Legal(s, Refill(a, p)) ==>
              && Vpn(a, p) in s.t.pte && s.t.pte[Vpn(a, p)].Valid?
              && Do(s, Refill(a, p)) == s.(t := s.t.(tlb := s.t.tlb[Vpn(a, p) := s.t.pte[Vpn(a, p)].frame]))
    ensures Legal(s, Forget(v)) && Do(s, Forget(v)) == s.(t := s.t.(tlb := s.t.tlb - {v}))
  {
  }

  /**
   What a running process may do: translate every page that is valid for it, store through a translation
   that is cached, and fault on a page that it may have exactly while the page is not valid.
   */
  lemma RunningMay(s: State, a: nat, p: nat, page: nat, offset: nat, value: int)
    requires s.c.pages > 0 && a in s.pc && s.pc[a] == User
    ensures PteOf(s.t.pte, a, p).Valid? ==>
              && Legal(s, Refill(a, p)) && Vpn(a, p) in Do(s, Refill(a, p)).t.tlb
              && Do(s, Refill(a, p)).t.tlb[Vpn(a, p)] == PteOf(s.t.pte, a, p).frame
    ensures Vpn(a, p) in s.t.tlb ==> Legal(s, Store(a, p, offset, value))
    ensures EntryOf(s.c.pages, page) >= 0
    ensures Legal(s, Fault(a, page, true)) <==>
            (page + 1 < s.c.pages || page == 0x3FFFF) && PteOf(s.t.pte, a, EntryOf(s.c.pages, page)).Invalid?
  {
    hide Clamp;
    ClampIsEntry(s.c.pages, page);
  }

  /** A store changes the one word in the frame of the page, and nothing else. */
  lemma StoreEffect(s: State, a: nat, p: nat, offset: nat, value: int)
    requires Legal(s, Store(a, p, offset, value))
    ensures var n, b := Do(s, Store(a, p, offset, value)), Frame(s.t.tlb[Vpn(a, p)]);
            && n.pc == s.pc && n.t == s.t && n.dev == s.dev && n.pool == s.pool && n.disk == s.disk
            && n.master == s.master && n.root == s.root && n.mem.Keys == s.mem.Keys + {b}
            && Word(PageOf(n.mem, b), offset) == value
            && (forall o: nat | o != offset :: Word(PageOf(n.mem, b), o) == Word(PageOf(s.mem, b), o))
            && (forall b' | b' != b :: PageOf(n.mem, b') == PageOf(s.mem, b'))
  {
  }

  /** The end of a process is counted, and lets the first process go on if it waits for it. */
  lemma SignEffect(s: State, a: nat)
    requires Inv(s) && a in s.pc && s.pc[a] == Signing
    ensures Do(s, Run(a)) == s.(master := s.master + 1, pc := s.pc[a := Dead],
                                root := if s.root.Blocked? then Joining(s.root.k + 1) else s.root)
  {
    hide ControlOk, TablesOk, ContentsOk, FetchedOk, LoadingOk;
  }

  /** The first process: one P for each of the others, and then its end. */
  lemma JoinEffect(s: State)
    requires Inv(s)
    ensures Legal(s, RootStep)
    ensures Do(s, RootStep) ==
            match s.root
            case Joining(k) =>
              if k == s.c.users then s.(root := Gone)
              else s.(master := s.master - 1, root := if s.master > 0 then Joining(k + 1) else Blocked(k))
            case _ => s
  {
    hide ControlOk, TablesOk, ContentsOk, FetchedOk, LoadingOk;
  }

  /** The start: everybody before its tape, all frames empty, no page valid, and frame 0 next. */
  lemma Beginning(c: Config)
    requires c.pages > 0 && c.frames > 0
    ensures var s := Start(c);
            && (forall a :: a in s.pc <==> 1 <= a <= c.users) && (forall a | a in s.pc :: s.pc[a] == Load(0))
            && s.t == Tables(map[], map[], map[], c.frames - 1) && s.pool == s.disk == Sem(1, [], 0)
            && s.dev == Device(0, Idle, 0, c.disk) && s.mem == map[] && s.master == 0 && s.root == Joining(0)
            && s.flat == map[] && s.c == c
    ensures c.users > 0 ==> 1 in Start(c).pc && Legal(Start(c), Run(1))
  {
    if c.users > 0 { assert 1 in Unloaded(c.users); }
  }

  /* ------------------------------------------------ the tables and the rest */

  /** The tables change at no other step than these. */
  lemma TablesElsewhere(s: State, e: Step)
    requires Inv(s) && Legal(s, e) && !e.Refill? && !e.Forget?
    requires e.Run? ==>
               var p := s.pc[e.asid];
               !(p.Paging? && p.good) && !p.Picked? && !p.Loaded? && !p.Clearing?
    ensures Do(s, e).t == s.t
  {
    hide Inv, SemP, SemV, Woken, OpOf, Finished;
    PagesPositive(s);
  }

  /* ------------------------------------------------ translations of a process that ends */

  /** The process has been through terminateUserProc's loop. */
  predicate Over(p: Pc) {
    p.Cleared? || p.Signing? || p.Dead?
  }

  /** No translation of a process that is over is cached. */
  ghost predicate Forgotten(s: State) {
    forall v | v in s.t.tlb && v.asid in s.pc :: !Over(s.pc[v.asid])
  }

  lemma OverFollows(c: Config, a: nat, p: Pc, p': Pc)
    requires Follows(c, a, p, p') && Over(p') && !Over(p)
    ensures p.Clearing? && p.i >= c.frames && p' == Cleared
  {
  }

  lemma RunShrinks(s: State, a: nat, v: Vpn)
    requires s.c.pages > 0 && v in DoRun(s, a).t.tlb
    ensures v in s.t.tlb
  {
    hide SemP, SemV, Woken, OpOf, NextFrame, Passes, Entered;
  }

  /** Only a running process adds a translation, and it is one of its own. */
  lemma CacheShrinks(s: State, e: Step, v: Vpn)
    requires Legal(s, e) && v in Do(s, e).t.tlb
    ensures v !in s.t.tlb ==>
              e == Refill(v.asid, v.page) && v.asid in s.pc && Do(s, e).pc == s.pc && s.pc[v.asid] == User
  {
    hide SemP, Passes, Entered, DoRun, Finished;
    if e.Run? { RunShrinks(s, e.asid, v); }
  }

  lemma ClearedByItself(s: State, e: Step, a: nat)
    requires Inv(s) && Legal(s, e) && a in s.pc && s.pc[a].Clearing? && At(Do(s, e).pc, a) != s.pc[a]
    ensures e == Run(a)
  {
    hide Inv, Do;
    ZeroIsNobody(s);
    if Actor(e) != a {
      OthersMove(s, e, a);
    }
  }

  lemma ForgottenStep(s: State, e: Step)
    requires Inv(s) && Legal(s, e) && Forgotten(s)
    ensures Forgotten(Do(s, e))
  {
    hide Inv, Do, Legal, Follows, Over;
    forall v | v in Do(s, e).t.tlb && v.asid in Do(s, e).pc ensures !Over(Do(s, e).pc[v.asid]) {
      CachedStep(s, e, v);
    }
  }

  lemma CachedStep(s: State, e: Step, v: Vpn)
    requires Inv(s) && Legal(s, e) && Forgotten(s) && v in Do(s, e).t.tlb && v.asid in Do(s, e).pc
    ensures !Over(Do(s, e).pc[v.asid])
  {
    hide ControlOk, DataOk, Do, Follows, Legal;
    KeysStep(s, e);
    PlaceStep(s, e, v.asid);
    CacheShrinks(s, e, v);
    if Over(Do(s, e).pc[v.asid]) {
      OverFollows(s.c, v.asid, s.pc[v.asid], Do(s, e).pc[v.asid]);
      ClearedByItself(s, e, v.asid);
      ClearEffect(s, v.asid, s.pc[v.asid].i);
    }
  }

  /** So in every run: what ends in terminateUserProc leaves nothing behind in the processor's cache. */
  lemma {:induction false} ForgottenRun(s: State, es: seq<Step>)
    requires Inv(s) && Forgotten(s) && LegalRun(s, es)
    ensures Forgotten(Ran(s, es))
    decreases |es|
  {
    hide Inv, Do, Legal, Forgotten;
    if es != [] {
      StepInv(s, es[0]);
      ForgottenStep(s, es[0]);
      ForgottenRun(Do(s, es[0]), es[1..]);
    }
  }

  lemma NothingCached(c: Config, es: seq<Step>)
    requires c.pages > 0 && c.frames > 0 && LegalRun(Start(c), es)
    ensures Forgotten(Ran(Start(c), es))
  {
    hide Inv, Ran, LegalRun;
    StartInv(c);
    ForgottenRun(Start(c), es);
  }
}
