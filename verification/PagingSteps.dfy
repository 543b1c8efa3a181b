/** Every step of the pager machine keeps its invariant. */
module PagingSteps {
  import opened Paging
  import opened PagingInv
  import opened Seqs

  /* ------------------------------------------------ the semaphores */

  ghost predicate SameClasses(pc: map<nat, Pc>, pc': map<nat, Pc>) {
    && pc'.Keys == pc.Keys
    && (forall a | a in pc :: HasPool(pc'[a]) == HasPool(pc[a]) && WantsPool(pc'[a]) == WantsPool(pc[a]))
  }

  ghost predicate SameDiskClasses(pc: map<nat, Pc>, pc': map<nat, Pc>) {
    && pc'.Keys == pc.Keys
    && (forall a | a in pc :: HasDisk(pc'[a]) == HasDisk(pc[a]) && WantsDisk(pc'[a]) == WantsDisk(pc[a]))
  }

  lemma PoolSame(pc: map<nat, Pc>, pc': map<nat, Pc>, m: Sem)
    requires PoolOk(pc, m) && SameClasses(pc, pc')
    ensures PoolOk(pc', m)
  {
  }

  lemma DiskSame(pc: map<nat, Pc>, pc': map<nat, Pc>, m: Sem)
    requires DiskOk(pc, m) && SameDiskClasses(pc, pc')
    ensures DiskOk(pc', m)
  {
  }

  lemma MutexP(m: Sem, a: nat)
    requires Mutex(m) && a != 0 && a != m.holder && a !in m.queue
    ensures Mutex(SemP(m, a))
    ensures Passes(m) <==> m.holder == 0
    ensures SemP(m, a).holder == (if Passes(m) then a else m.holder)
    ensures forall b :: b in SemP(m, a).queue <==> b in m.queue || (!Passes(m) && b == a)
  {
    DistinctAppend(m.queue, [a]);
  }

  lemma MutexV(m: Sem)
    requires Mutex(m) && m.holder != 0
    ensures Mutex(SemV(m))
    ensures SemV(m).holder == 0 <==> m.queue == []
    ensures SemV(m).holder != 0 ==> SemV(m).holder in m.queue
    ensures forall b :: b in SemV(m).queue <==> b in m.queue && b != SemV(m).holder
  {
    if m.queue != [] {
      assert m.queue == [m.queue[0]] + m.queue[1..];
    }
  }

  lemma PoolTaken(pc: map<nat, Pc>, m: Sem, a: nat, want: Pc)
    requires PoolOk(pc, m) && a in pc && 0 !in pc && !HasPool(pc[a]) && !WantsPool(pc[a])
    requires WantsPool(want)
    ensures PoolOk(pc[a := if Passes(m) then Entered(want) else want], SemP(m, a))
    ensures Passes(m) <==> m.holder == 0
    ensures SemP(m, a).holder == if Passes(m) then a else m.holder
  {
    hide Mutex, SemP;
    MutexP(m, a);
  }

  lemma PoolGiven(pc: map<nat, Pc>, m: Sem, a: nat, next: Pc)
    requires PoolOk(pc, m) && a in pc && HasPool(pc[a]) && 0 !in pc && !HasPool(next) && !WantsPool(next)
    ensures PoolOk(Woken(pc[a := next], m), SemV(m))
    ensures SemV(m).holder != 0 ==> SemV(m).holder in pc && SemV(m).holder != a && WantsPool(pc[SemV(m).holder])
  {
    hide Mutex, SemV;
    MutexV(m);
  }

  lemma DiskTaken(pc: map<nat, Pc>, m: Sem, a: nat, why: Why)
    requires DiskOk(pc, m) && a in pc && 0 !in pc && !HasDisk(pc[a]) && !WantsDisk(pc[a])
    ensures DiskOk(pc[a := if Passes(m) then Io(why, Granted) else Io(why, Queued)], SemP(m, a))
    ensures Passes(m) <==> m.holder == 0
    ensures SemP(m, a).holder == if Passes(m) then a else m.holder
  {
    hide Mutex, SemP;
    MutexP(m, a);
  }

  lemma DiskGiven(pc: map<nat, Pc>, m: Sem, a: nat, next: Pc)
    requires DiskOk(pc, m) && a in pc && HasDisk(pc[a]) && 0 !in pc && !HasDisk(next) && !WantsDisk(next)
    ensures DiskOk(Woken(pc[a := next], m), SemV(m))
    ensures SemV(m).holder != 0 ==> SemV(m).holder in pc && SemV(m).holder != a && WantsDisk(pc[SemV(m).holder])
  {
    hide Mutex, SemV;
    MutexV(m);
  }

  /* ------------------------------------------------ control: who is inside, what the disk does */

  lemma DeviceSame(pages: nat, pc: map<nat, Pc>, pc': map<nat, Pc>, holder: nat, d: Device)
    requires pages > 0 && DeviceOk(pages, pc, holder, d)
    requires holder != 0 ==> At(pc', holder) == At(pc, holder)
    ensures DeviceOk(pages, pc', holder, d)
  {
  }

  /** A step of a alone, which neither enters nor leaves anything. */
  lemma ControlMove(s: State, n: State, a: nat, x: Pc)
    requires s.c.pages > 0 && ControlOk(s) && a in s.pc
    requires n.c == s.c && n.pc == s.pc[a := x] && n.pool == s.pool && n.disk == s.disk
    requires n.dev.arm == s.dev.arm && n.dev.command == s.dev.command && n.dev.waiter == s.dev.waiter
    requires HasPool(x) == HasPool(s.pc[a]) && WantsPool(x) == WantsPool(s.pc[a])
    requires !HasDisk(x) && !HasDisk(s.pc[a]) && !WantsDisk(x) && !WantsDisk(s.pc[a])
    ensures ControlOk(n)
  {
    PoolSame(s.pc, n.pc, s.pool);
    DiskSame(s.pc, n.pc, s.disk);
  }

  lemma ControlTakePool(s: State, a: nat, want: Pc)
    requires s.c.pages > 0 && ControlOk(s) && a in s.pc && WantsPool(want)
    requires s.pc[a].User? || s.pc[a].Failed?
    ensures ControlOk(TakePool(s, a, want))
  {
    var n := TakePool(s, a, want);
    PoolTaken(s.pc, s.pool, a, want);
    DiskSame(s.pc, n.pc, s.disk);
    DeviceSame(s.c.pages, s.pc, n.pc, s.disk.holder, s.dev);
    hide PoolOk, DiskOk, DeviceOk;
  }

  lemma ControlGivePool(s: State, a: nat, next: Pc)
    requires s.c.pages > 0 && ControlOk(s) && a in s.pc && (s.pc[a].Paging? || s.pc[a].Installed? || s.pc[a].Cleared?)
    requires next.Failed? || next.User? || next.Signing?
    ensures ControlOk(GivePool(s, a, next))
  {
    hide PoolOk, DiskOk, DeviceOk, Woken, SemV;
    var n := GivePool(s, a, next);
    PoolGiven(s.pc, s.pool, a, next);
    GivenApart(s.pc, s.pool, s.disk, a, next);
    DiskSame(s.pc, n.pc, s.disk);
    DeviceSame(s.c.pages, s.pc, n.pc, s.disk.holder, s.dev);
  }

  /** A V on swapPoolSem is nothing to the disk. */
  lemma GivenApart(pc: map<nat, Pc>, m: Sem, d: Sem, a: nat, next: Pc)
    requires a in pc && DiskOk(pc, d) && !pc[a].Io? && !next.Io?
    requires SemV(m).holder != 0 ==> SemV(m).holder in pc && SemV(m).holder != a && WantsPool(pc[SemV(m).holder])
    ensures SameDiskClasses(pc, Woken(pc[a := next], m))
    ensures d.holder != 0 ==> At(Woken(pc[a := next], m), d.holder) == At(pc, d.holder)
  {
    hide SemV, Mutex;
  }

  lemma ControlTakeDisk(s: State, a: nat, why: Why)
    requires s.c.pages > 0 && ControlOk(s) && a in s.pc && s.pc[a] == Io(why, Calling)
    ensures ControlOk(TakeDisk(s, a, why))
  {
    var n := TakeDisk(s, a, why);
    DiskTaken(s.pc, s.disk, a, why);
    PoolSame(s.pc, n.pc, s.pool);
  }

  lemma ControlGiveDisk(s: State, a: nat, why: Why, next: Pc)
    requires s.c.pages > 0 && ControlOk(s) && a in s.pc && s.pc[a] == Io(why, Moved)
    requires HasPool(next) == HasPool(s.pc[a]) && !WantsPool(next) && !HasDisk(next) && !WantsDisk(next)
    ensures ControlOk(GiveDisk(s, a, next))
  {
    var n := GiveDisk(s, a, next);
    DiskGiven(s.pc, s.disk, a, next);
    PoolSame(s.pc, n.pc, s.pool);
  }

  /** A command to the disk, or the interrupt that ends it. */
  lemma ControlIssue(s: State, n: State, a: nat, why: Why, before: Stage, after: Stage)
    requires s.c.pages > 0 && ControlOk(s) && a in s.pc && s.pc[a] == Io(why, before)
    requires !before.Calling? && !before.Queued? && !after.Calling? && !after.Queued?
    requires n.c == s.c && n.pool == s.pool && n.disk == s.disk && n.pc == s.pc[a := Io(why, after)]
    requires Serving(n.dev, a, OpOf(s.c.pages, a, why), after)
    ensures ControlOk(n)
  {
    PoolSame(s.pc, n.pc, s.pool);
    DiskSame(s.pc, n.pc, s.disk);
  }

  /* ------------------------------------------------ moves that change nobody's pages */

  predicate Living(p: Pc) {
    Resident(p) || IsLoading(p)
  }

  /** In p' a process has no more claims on the tables than in p. */
  predicate KeepsTables(p: Pc, p': Pc) {
    && (ChosenFrame(p') == -1 || ChosenFrame(p') == ChosenFrame(p))
    && (MissingPage(p') == -1 || MissingPage(p') == MissingPage(p))
    && (Living(p') ==> Living(p))
    && (Resident(p) ==> Resident(p') || (p'.Clearing? && p'.i == 0))
    && (p.Clearing? ==> p'.Clearing? && p'.i <= p.i)
    && (p'.Clearing? ==> Resident(p) || (p.Clearing? && p.i == p'.i))
    && (p'.Io? && p'.why.Evicting? ==> p.Io? && p.why == p'.why)
  }

  predicate KeepsContents(p: Pc, p': Pc) {
    && (Resident(p') ==> Resident(p)) && (Incoming(p') == Nobody || Incoming(p') == Incoming(p))
    && (p.Dead? <==> p'.Dead?)
  }

  predicate KeepsLoading(p: Pc, p': Pc) {
    IsLoading(p') ==>
      && IsLoading(p) && Done(p') == Done(p) && (p'.Tape? ==> p.Tape?)
      && (p'.Io? ==> p.Io? && p.why.Loading? && p.why.i == p'.why.i)
  }

  predicate KeepsPages(p: Pc, p': Pc) {
    KeepsContents(p, p') && KeepsLoading(p, p')
  }

  predicate Keeps(p: Pc, p': Pc) {
    KeepsTables(p, p') && KeepsPages(p, p')
  }

  ghost predicate KeepsAll(pc: map<nat, Pc>, pc': map<nat, Pc>) {
    pc'.Keys == pc.Keys && forall a | a in pc :: Keeps(pc[a], pc'[a])
  }

  ghost predicate KeepsAllContents(pc: map<nat, Pc>, pc': map<nat, Pc>) {
    pc'.Keys == pc.Keys && forall a | a in pc :: KeepsContents(pc[a], pc'[a])
  }

  ghost predicate KeepsAllPages(pc: map<nat, Pc>, pc': map<nat, Pc>) {
    pc'.Keys == pc.Keys && forall a | a in pc :: KeepsPages(pc[a], pc'[a])
  }

  lemma EnteredKeeps(p: Pc)
    ensures Keeps(p, p) && Keeps(p, Entered(p))
    ensures RefillFrame(Entered(p)) == RefillFrame(p) && Outgoing(Entered(p)) == Outgoing(p)
  {
  }

  lemma MoveKeeps(pc: map<nat, Pc>, a: nat, x: Pc)
    requires a in pc && Keeps(pc[a], x)
    ensures KeepsAll(pc, pc[a := x])
  {
    forall b | b in pc ensures Keeps(pc[b], pc[b]) {
      EnteredKeeps(pc[b]);
    }
  }

  lemma MoveKeepsContents(pc: map<nat, Pc>, a: nat, x: Pc)
    requires a in pc && KeepsContents(pc[a], x)
    ensures KeepsAllContents(pc, pc[a := x])
  {
    forall b | b in pc ensures KeepsContents(pc[b], pc[b]) {
      EnteredKeeps(pc[b]);
    }
  }

  lemma PagesAreContents(pc: map<nat, Pc>, pc': map<nat, Pc>)
    requires KeepsAllPages(pc, pc')
    ensures KeepsAllContents(pc, pc')
  {
    hide KeepsContents, KeepsLoading;
  }

  lemma MoveKeepsPages(pc: map<nat, Pc>, a: nat, x: Pc)
    requires a in pc && KeepsPages(pc[a], x)
    ensures KeepsAllPages(pc, pc[a := x])
  {
    forall b | b in pc ensures KeepsPages(pc[b], pc[b]) {
      EnteredKeeps(pc[b]);
    }
  }

  lemma WokenKeeps(pc: map<nat, Pc>, a: nat, x: Pc, m: Sem)
    requires a in pc && Keeps(pc[a], x)
    requires SemV(m).holder != 0 ==> SemV(m).holder in pc && SemV(m).holder != a
    ensures KeepsAll(pc, Woken(pc[a := x], m))
  {
    hide Keeps, SemV;
    forall b | b in pc ensures Keeps(pc[b], pc[b]) && Keeps(pc[b], Entered(pc[b])) {
      EnteredKeeps(pc[b]);
    }
  }

  lemma TablesKept(c: Config, pc: map<nat, Pc>, pc': map<nat, Pc>, refill: int, t: Tables)
    requires c.pages > 0 && TablesOk(c, pc, refill, t) && KeepsAll(pc, pc')
    ensures TablesOk(c, pc', refill, t)
  {
  }

  lemma ContentsKept(c: Config, pc: map<nat, Pc>, pc': map<nat, Pc>, out: Leaver, pte: map<Vpn, Pte>,
                     blocks: map<Block, Page>, mem: map<Buf, Page>, flat: map<Vpn, Page>)
    requires ContentsOk(c, pc, out, pte, blocks, mem, flat) && KeepsAllContents(pc, pc')
    ensures ContentsOk(c, pc', out, pte, blocks, mem, flat)
  {
  }

  lemma FetchedKept(c: Config, pc: map<nat, Pc>, pc': map<nat, Pc>, mem: map<Buf, Page>, flat: map<Vpn, Page>)
    requires c.pages > 0 && FetchedOk(c, pc, mem, flat) && KeepsAllContents(pc, pc')
    ensures FetchedOk(c, pc', mem, flat)
  {
  }

  lemma LoadingKept(c: Config, pc: map<nat, Pc>, pc': map<nat, Pc>, blocks: map<Block, Page>, mem: map<Buf, Page>,
                    flat: map<Vpn, Page>)
    requires LoadingOk(c, pc, blocks, mem, flat) && KeepsAllPages(pc, pc')
    ensures LoadingOk(c, pc', blocks, mem, flat)
  {
    hide Copied, Unwritten;
  }

  lemma JoinKept(c: Config, pc: map<nat, Pc>, pc': map<nat, Pc>, master: int, root: Root)
    requires JoinOk(c, pc, master, root) && KeepsAllContents(pc, pc')
    ensures JoinOk(c, pc', master, root)
  {
    assert Signed(pc') == Signed(pc);
    assert |pc'| == |pc'.Keys| && |pc| == |pc.Keys|;
  }

  /** n is s but for the places of the processes and for the tables; no page moves. */
  ghost predicate SamePages(s: State, n: State) {
    && n.c == s.c && n.t.pte == s.t.pte && n.dev.blocks == s.dev.blocks && n.mem == s.mem && n.flat == s.flat
    && n.master == s.master && n.root == s.root
  }

  lemma PagesKept(s: State, n: State)
    requires s.c.pages > 0 && DataOk(s) && KeepsAllPages(s.pc, n.pc) && SamePages(s, n)
    requires OnItsWay(n) == OnItsWay(s) && TablesOk(n.c, n.pc, BeingFilled(n), n.t)
    ensures DataOk(n)
  {
    hide TablesOk, ContentsOk, FetchedOk, LoadingOk, JoinOk, KeepsAllPages, KeepsAllContents, BeingFilled, OnItsWay;
    PagesAreContents(s.pc, n.pc);
    ContentsKept(s.c, s.pc, n.pc, OnItsWay(s), s.t.pte, s.dev.blocks, s.mem, s.flat);
    FetchedKept(s.c, s.pc, n.pc, s.mem, s.flat);
    LoadingKept(s.c, s.pc, n.pc, s.dev.blocks, s.mem, s.flat);
    JoinKept(s.c, s.pc, n.pc, s.master, s.root);
  }

  lemma DataKept(s: State, n: State)
    requires s.c.pages > 0 && DataOk(s) && KeepsAll(s.pc, n.pc) && SamePages(s, n) && n.t == s.t
    requires BeingFilled(n) == BeingFilled(s) && OnItsWay(n) == OnItsWay(s)
    ensures DataOk(n)
  {
    hide TablesOk, ContentsOk, FetchedOk, LoadingOk, JoinOk, BeingFilled, OnItsWay, KeepsTables, KeepsPages;
    TablesKept(s.c, s.pc, n.pc, BeingFilled(s), s.t);
    PagesKept(s, n);
  }

  /* ------------------------------------------------ moves that change the tables */

  /** Only the holder of swapPoolSem has chosen a frame. */
  ghost predicate OnlyChooser(pc: map<nat, Pc>, a: nat) {
    forall b | b in pc && b != a :: ChosenFrame(pc[b]) == -1
  }

  lemma HolderChooses(pc: map<nat, Pc>, m: Sem, a: nat)
    requires PoolOk(pc, m) && (a == m.holder || m.holder == 0 || (a in pc && HasPool(pc[a])))
    requires 0 !in pc
    ensures OnlyChooser(pc, a)
  {
    forall b | b in pc && b != a ensures ChosenFrame(pc[b]) == -1 {
      assert !HasPool(pc[b]);
    }
  }

  /** One process moves to x, with the tables as they are. */
  lemma TablesMove(c: Config, pc: map<nat, Pc>, a: nat, x: Pc, refill: int, t: Tables)
    requires c.pages > 0 && TablesOk(c, pc, refill, t) && a in pc && (Living(x) ==> Living(pc[a])) && !x.Clearing?
    requires ChosenFrame(x) == -1 || ChosenFrame(x) == t.frameNo
    requires MissingPage(x) >= 0 ==> PteOf(t.pte, a, Clamp(c.pages, MissingPage(x))) == Invalid
    requires forall f | f in t.slots && t.slots[f].Held? && t.slots[f].asid == a :: MayOwn(x, f)
    requires x.Io? && x.why.Evicting? ==> Owns(SlotOf(t.slots, x.why.f), x.why.victim, x.why.out)
    ensures TablesOk(c, pc[a := x], refill, t)
  {
  }

  lemma TablesPick(c: Config, pc: map<nat, Pc>, a: nat, page: nat, refill: int, t: Tables)
    requires c.pages > 0 && TablesOk(c, pc, refill, t) && a in pc && pc[a] == Paging.Paging(page, true)
    requires OnlyChooser(pc, a)
    ensures var f := NextFrame(c.frames, t.frameNo);
            0 <= f < c.frames && TablesOk(c, pc[a := Picked(page, f)], refill, t.(frameNo := f))
  {
  }

  /** The chosen frame is empty: it can be filled at once. */
  lemma TablesEmpty(c: Config, pc: map<nat, Pc>, a: nat, page: nat, f: nat, t: Tables)
    requires c.pages > 0 && TablesOk(c, pc, -1, t) && a in pc && pc[a] == Picked(page, f)
    requires SlotOf(t.slots, f).Empty?
    ensures TablesOk(c, pc[a := Io(Fetching(page, f), Calling)], f, t)
  {
  }

  lemma TablesOusted(c: Config, pc: map<nat, Pc>, a: nat, page: nat, f: nat, t: Tables, v: nat, pg: nat, q: nat)
    requires c.pages > 0 && TablesOk(c, pc, -1, t) && a in pc && pc[a] == Picked(page, f)
    requires SlotOf(t.slots, f) == Held(v, pg, q)
    ensures TablesOk(c, pc[a := Io(Evicting(page, f, v, Clamp(c.pages, pg)), Calling)], f, Ousted(t, f))
    ensures q == Clamp(c.pages, pg) && v in pc && PteOf(t.pte, v, q) == Valid(f)
    ensures PteOf(Ousted(t, f).pte, v, q) == Invalid
    ensures forall b: nat, p: nat | !(b == v && p == q) :: PteOf(Ousted(t, f).pte, b, p) == PteOf(t.pte, b, p)
  {
    assert f in t.slots && t.slots[f] == Held(v, pg, q);
    var u := Ousted(t, f);
    forall g | g in u.slots && u.slots[g].Held? && g != f
      ensures PteOf(u.pte, u.slots[g].asid, u.slots[g].entry) == Valid(g)
    {
      assert PteOf(t.pte, t.slots[g].asid, t.slots[g].entry) == Valid(g);
    }
    forall b: nat, p: nat | b in pc && PteOf(u.pte, b, p).Valid? && Claims(pc[b], PteOf(u.pte, b, p).frame)
      ensures Owns(SlotOf(u.slots, PteOf(u.pte, b, p).frame), b, p)
    {
      assert Owns(SlotOf(t.slots, PteOf(t.pte, b, p).frame), b, p);
    }
  }

  lemma TablesInstalled(c: Config, pc: map<nat, Pc>, a: nat, page: nat, f: nat, t: Tables)
    requires c.pages > 0 && TablesOk(c, pc, f, t) && a in pc && pc[a] == Loaded(page, f) && OnlyChooser(pc, a)
    ensures TablesOk(c, pc[a := Installed], -1, BroughtIn(t, c.pages, a, page, f))
  {
    var u := BroughtIn(t, c.pages, a, page, f);
    assert PteOf(t.pte, a, Clamp(c.pages, page)) == Invalid;
    forall b: nat, p: nat | b in pc && PteOf(u.pte, b, p).Valid? && Claims(pc[b], PteOf(u.pte, b, p).frame)
      ensures Owns(SlotOf(u.slots, PteOf(u.pte, b, p).frame), b, p)
    {
      if b != a || p != Clamp(c.pages, page) {
        assert Owns(SlotOf(t.slots, PteOf(t.pte, b, p).frame), b, p);
      }
    }
  }

  lemma TablesReleased(c: Config, pc: map<nat, Pc>, a: nat, i: nat, t: Tables)
    requires c.pages > 0 && TablesOk(c, pc, -1, t) && a in pc && pc[a] == Clearing(i) && OnlyChooser(pc, a)
    ensures TablesOk(c, pc[a := Clearing(i + 1)], -1, Released(t, a, i))
  {
  }

  /** When the loop is over, no frame is the process's any more. */
  lemma TablesCleared(c: Config, pc: map<nat, Pc>, a: nat, i: nat, t: Tables)
    requires c.pages > 0 && TablesOk(c, pc, -1, t) && a in pc && pc[a] == Clearing(i) && i >= c.frames
    ensures TablesOk(c, pc[a := Cleared], -1, t.(tlb := map[]))
  {
  }

  lemma TablesTlb(c: Config, pc: map<nat, Pc>, refill: int, t: Tables, tlb: map<Vpn, nat>)
    requires c.pages > 0 && TablesOk(c, pc, refill, t)
    requires forall v | v in tlb :: PteOf(t.pte, v.asid, v.page) == Valid(tlb[v])
    ensures TablesOk(c, pc, refill, t.(tlb := tlb))
  {
  }

  /** A loading process has no frame and no valid page, and none is being written out. */
  lemma LoadingHasNone(c: Config, pc: map<nat, Pc>, h: nat, t: Tables, a: nat, p: nat)
    requires c.pages > 0 && TablesOk(c, pc, RefillFrame(At(pc, h)), t) && a in pc && IsLoading(pc[a])
    ensures PteOf(t.pte, a, p) == Invalid
    ensures Outgoing(At(pc, h)).Out? ==> Outgoing(At(pc, h)).asid != a
  {
    assert forall f: nat :: !Owns(SlotOf(t.slots, f), a, p);
  }

  /** Two living processes' valid pages are in different frames, and not in the one being refilled. */
  lemma OwnFrame(c: Config, pc: map<nat, Pc>, refill: int, t: Tables, a: nat, p: nat, f: nat)
    requires c.pages > 0 && TablesOk(c, pc, refill, t) && a in pc && Living(pc[a]) && PteOf(t.pte, a, p) == Valid(f)
    ensures f != refill
    ensures forall b: nat, q: nat | b in pc && Living(pc[b]) && PteOf(t.pte, b, q) == Valid(f) :: b == a && q == p
  {
    assert Owns(SlotOf(t.slots, PteOf(t.pte, a, p).frame), a, p);
    forall b: nat, q: nat | b in pc && Living(pc[b]) && PteOf(t.pte, b, q) == Valid(f) ensures b == a && q == p {
      assert Owns(SlotOf(t.slots, PteOf(t.pte, b, q).frame), b, q);
    }
  }

  /* ------------------------------------------------ moves that change contents */

  /** The program is on the disk: its pages are what the tape and the disk held. */
  lemma PagesLoaded(c: Config, pc: map<nat, Pc>, h: nat, t: Tables, a: nat, blocks: map<Block, Page>,
                    mem: map<Buf, Page>, flat: map<Vpn, Page>)
    requires c.pages > 0 && TablesOk(c, pc, RefillFrame(At(pc, h)), t) && a in pc
    requires pc[a] == Load(|TapeOf(c, a)|) && LoadOk(c, a, pc[a], blocks, mem, flat)
    requires ContentsOk(c, pc, Outgoing(At(pc, h)), t.pte, blocks, mem, flat)
    ensures ContentsOk(c, pc[a := User], Outgoing(At(pc, h)), t.pte, blocks, mem, flat)
  {
    forall p: nat ensures Content(Outgoing(At(pc, h)), t.pte, blocks, mem, a, p) == FlatOf(c, flat, a, p) {
      LoadingHasNone(c, pc, h, t, a, p);
      assert Vpn(a, p) !in flat;
      assert StoreOf(blocks, a, p) == Image(c, a, p);
    }
  }

  /** The page on its way out is still in its frame, although its entry is invalid now. */
  lemma PagesOusted(c: Config, pc: map<nat, Pc>, pte: map<Vpn, Pte>, pte': map<Vpn, Pte>, f: nat, v: nat, q: nat,
                    blocks: map<Block, Page>, mem: map<Buf, Page>, flat: map<Vpn, Page>)
    requires ContentsOk(c, pc, Nothing, pte, blocks, mem, flat) && PteOf(pte, v, q) == Valid(f)
    requires PteOf(pte', v, q) == Invalid
    requires forall b: nat, p: nat | !(b == v && p == q) :: PteOf(pte', b, p) == PteOf(pte, b, p)
    ensures ContentsOk(c, pc, Out(f, v, q), pte', blocks, mem, flat)
  {
    forall a: nat, p: nat | a in pc && Resident(pc[a])
      ensures Content(Out(f, v, q), pte', blocks, mem, a, p) == FlatOf(c, flat, a, p)
    {
      assert Content(Nothing, pte, blocks, mem, a, p) == FlatOf(c, flat, a, p);
    }
  }

  /** Once written, it is on the disk, and in no frame. */
  lemma PagesWritten(c: Config, pc: map<nat, Pc>, pte: map<Vpn, Pte>, f: nat, v: nat, q: nat,
                     blocks: map<Block, Page>, mem: map<Buf, Page>, flat: map<Vpn, Page>)
    requires ContentsOk(c, pc, Out(f, v, q), pte, blocks, mem, flat) && PteOf(pte, v, q) == Invalid
    ensures ContentsOk(c, pc, Nothing, pte, blocks[Block(q, v - 1) := PageOf(mem, Frame(f))], mem, flat)
  {
    var after := blocks[Block(q, v - 1) := PageOf(mem, Frame(f))];
    forall a: nat, p: nat | a in pc && Resident(pc[a])
      ensures Content(Nothing, pte, after, mem, a, p) == FlatOf(c, flat, a, p)
    {
      assert Content(Out(f, v, q), pte, blocks, mem, a, p) == FlatOf(c, flat, a, p);
    }
  }

  /** A page that is read into a frame which is nobody's disturbs nobody. */
  lemma PagesRead(c: Config, pc: map<nat, Pc>, f: nat, t: Tables, blocks: map<Block, Page>,
                  mem: map<Buf, Page>, flat: map<Vpn, Page>, page: Page)
    requires c.pages > 0 && ContentsOk(c, pc, Nothing, t.pte, blocks, mem, flat) && TablesOk(c, pc, f, t)
    ensures ContentsOk(c, pc, Nothing, t.pte, blocks, mem[Frame(f) := page], flat)
  {
    var after := mem[Frame(f) := page];
    forall a: nat, p: nat | a in pc && Resident(pc[a])
      ensures Content(Nothing, t.pte, blocks, after, a, p) == FlatOf(c, flat, a, p)
    {
      assert Content(Nothing, t.pte, blocks, mem, a, p) == FlatOf(c, flat, a, p);
      if PteOf(t.pte, a, p).Valid? {
        OwnFrame(c, pc, f, t, a, p, PteOf(t.pte, a, p).frame);
      }
    }
  }

  lemma PagesInstalled(c: Config, pc: map<nat, Pc>, a: nat, p: nat, f: nat, pte: map<Vpn, Pte>,
                       blocks: map<Block, Page>, mem: map<Buf, Page>, flat: map<Vpn, Page>)
    requires ContentsOk(c, pc, Nothing, pte, blocks, mem, flat)
    requires PageOf(mem, Frame(f)) == FlatOf(c, flat, a, p)
    ensures ContentsOk(c, pc, Nothing, pte[Vpn(a, p) := Valid(f)], blocks, mem, flat)
  {
    var after := pte[Vpn(a, p) := Valid(f)];
    forall b: nat, q: nat | b in pc && Resident(pc[b])
      ensures Content(Nothing, after, blocks, mem, b, q) == FlatOf(c, flat, b, q)
    {
      assert Content(Nothing, pte, blocks, mem, b, q) == FlatOf(c, flat, b, q);
    }
  }

  /** A store goes to the page's own frame, and to no other page's. */
  lemma PagesStored(c: Config, pc: map<nat, Pc>, h: nat, t: Tables, a: nat, p: nat, offset: nat, value: int,
                    blocks: map<Block, Page>, mem: map<Buf, Page>, flat: map<Vpn, Page>)
    requires c.pages > 0 && a in pc && pc[a].User? && Vpn(a, p) in t.tlb
    requires TablesOk(c, pc, RefillFrame(At(pc, h)), t)
    requires ContentsOk(c, pc, Outgoing(At(pc, h)), t.pte, blocks, mem, flat)
    ensures var b := Frame(t.tlb[Vpn(a, p)]);
            ContentsOk(c, pc, Outgoing(At(pc, h)), t.pte, blocks, mem[b := PageOf(mem, b)[offset := value]],
                       flat[Vpn(a, p) := FlatOf(c, flat, a, p)[offset := value]])
  {
    var f, out := t.tlb[Vpn(a, p)], Outgoing(At(pc, h));
    var mem', flat' := mem[Frame(f) := PageOf(mem, Frame(f))[offset := value]],
      flat[Vpn(a, p) := FlatOf(c, flat, a, p)[offset := value]];
    assert PteOf(t.pte, a, p) == Valid(f);
    OwnFrame(c, pc, RefillFrame(At(pc, h)), t, a, p, f);
    assert Content(out, t.pte, blocks, mem, a, p) == FlatOf(c, flat, a, p);
    forall b: nat, q: nat | b in pc && Resident(pc[b])
      ensures Content(out, t.pte, blocks, mem', b, q) == FlatOf(c, flat', b, q)
    {
      assert Content(out, t.pte, blocks, mem, b, q) == FlatOf(c, flat, b, q);
      hide TablesOk, ContentsOk;
    }
  }

  /* ------------------------------------------------ data: moves of one process that change no page */

  lemma DataMove(s: State, n: State, a: nat, x: Pc)
    requires s.c.pages > 0 && DataOk(s) && a in s.pc && n.pc == s.pc[a := x] && SamePages(s, n) && n.t == s.t
    requires n.pool == s.pool && Keeps(s.pc[a], x)
    requires RefillFrame(x) == RefillFrame(s.pc[a]) && Outgoing(x) == Outgoing(s.pc[a])
    ensures DataOk(n)
  {
    hide TablesOk, ContentsOk, FetchedOk, LoadingOk, JoinOk, Keeps;
    MoveKeeps(s.pc, a, x);
    DataKept(s, n);
  }

  /** In neither place is a frame being refilled. */
  predicate Idles(p: Pc) {
    RefillFrame(p) == -1 && Outgoing(p) == Nothing
  }

  lemma DataTakePool(s: State, a: nat, want: Pc)
    requires s.c.pages > 0 && ControlOk(s) && DataOk(s) && a in s.pc && WantsPool(want) && !HasPool(s.pc[a])
    requires !WantsPool(s.pc[a]) && Keeps(s.pc[a], want)
    ensures DataOk(TakePool(s, a, want))
  {
    hide TablesOk, ContentsOk, FetchedOk, LoadingOk, JoinOk, KeepsAll, PoolOk, DiskOk, DeviceOk, SemP, Passes;
    var n := TakePool(s, a, want);
    PoolTaken(s.pc, s.pool, a, want);
    EnteredKeeps(want);
    MoveKeeps(s.pc, a, n.pc[a]);
    DataKept(s, n);
  }

  lemma DataGivePool(s: State, a: nat, next: Pc)
    requires s.c.pages > 0 && ControlOk(s) && DataOk(s) && a in s.pc && a == s.pool.holder
    requires HasPool(s.pc[a]) && !HasPool(next) && !WantsPool(next)
    requires Keeps(s.pc[a], next) && Idles(s.pc[a]) && Idles(next)
    ensures DataOk(GivePool(s, a, next))
  {
    hide TablesOk, ContentsOk, FetchedOk, LoadingOk, JoinOk, Keeps, KeepsAll, PoolOk, DiskOk, DeviceOk, Woken, SemV;
    var n := GivePool(s, a, next);
    PoolGiven(s.pc, s.pool, a, next);
    WokenKeeps(s.pc, a, next, s.pool);
    WokenIdles(s.pc, s.pool, a, next);
    DataKept(s, n);
  }

  /** Whoever comes in has not yet begun. */
  lemma WokenIdles(pc: map<nat, Pc>, m: Sem, a: nat, next: Pc)
    requires 0 !in pc && a in pc
    requires SemV(m).holder != 0 ==> SemV(m).holder in pc && SemV(m).holder != a && WantsPool(pc[SemV(m).holder])
    ensures Idles(At(Woken(pc[a := next], m), SemV(m).holder))
  {
    hide SemV;
  }

  lemma DataTakeDisk(s: State, a: nat, why: Why)
    requires s.c.pages > 0 && ControlOk(s) && DataOk(s) && a in s.pc && s.pc[a] == Io(why, Calling)
    ensures DataOk(TakeDisk(s, a, why))
  {
    hide TablesOk, ContentsOk, FetchedOk, LoadingOk, JoinOk, ControlOk;
    DataMove(s, TakeDisk(s, a, why), a, if Passes(s.disk) then Io(why, Granted) else Io(why, Queued));
  }

  lemma WokenSame(pc: map<nat, Pc>, m: Sem, a: nat, next: Pc, h: nat)
    requires a in pc && RefillFrame(next) == RefillFrame(pc[a]) && Outgoing(next) == Outgoing(pc[a])
    requires SemV(m).holder != 0 ==> SemV(m).holder in pc && SemV(m).holder != a
    ensures var n := At(Woken(pc[a := next], m), h);
            RefillFrame(n) == RefillFrame(At(pc, h)) && Outgoing(n) == Outgoing(At(pc, h))
  {
    hide SemV, RefillFrame, Outgoing, Entered;
    EnteredKeeps(At(pc, h));
  }

  lemma ReturnedKeeps(why: Why)
    ensures Keeps(Io(why, Moved), Returned(why)) && !HasDisk(Returned(why)) && !WantsDisk(Returned(why))
    ensures RefillFrame(Returned(why)) == RefillFrame(Io(why, Moved))
    ensures Outgoing(Returned(why)) == Outgoing(Io(why, Moved))
  {
  }

  lemma DataGiveDisk(s: State, a: nat, why: Why)
    requires s.c.pages > 0 && ControlOk(s) && DataOk(s) && a in s.pc && s.pc[a] == Io(why, Moved)
    ensures DataOk(GiveDisk(s, a, Returned(why)))
  {
    hide TablesOk, ContentsOk, FetchedOk, LoadingOk, JoinOk, Keeps, KeepsAll, PoolOk, DiskOk, DeviceOk, Woken,
      Returned, RefillFrame, Outgoing, SemV;
    ReturnedKeeps(why);
    DiskGiven(s.pc, s.disk, a, Returned(why));
    WokenKeeps(s.pc, a, Returned(why), s.disk);
    WokenSame(s.pc, s.disk, a, Returned(why), s.pool.holder);
    DataKept(s, GiveDisk(s, a, Returned(why)));
  }

  /* ------------------------------------------------ data: faults, and the choice of a frame */

  lemma HolderIs(s: State, a: nat)
    requires 0 !in s.pc && PoolOk(s.pc, s.pool) && a in s.pc && HasPool(s.pc[a])
    ensures s.pool.holder == a && OnlyChooser(s.pc, a)
    ensures BeingFilled(s) == RefillFrame(s.pc[a]) && OnItsWay(s) == Outgoing(s.pc[a])
  {
    HolderChooses(s.pc, s.pool, a);
  }

  lemma FaultTables(s: State, a: nat, x: Pc, page: nat)
    requires s.c.pages > 0 && DataOk(s) && a in s.pc && s.pc[a].User?
    requires PteOf(s.t.pte, a, Clamp(s.c.pages, page)).Invalid?
    requires x == Trapped(page, true) || x == Pc.Paging(page, true)
    ensures TablesOk(s.c, s.pc[a := x], BeingFilled(s), s.t)
  {
    TablesMove(s.c, s.pc, a, x, BeingFilled(s), s.t);
  }

  lemma DataFault(s: State, a: nat, page: nat)
    requires s.c.pages > 0 && ControlOk(s) && DataOk(s) && a in s.pc && s.pc[a].User?
    requires PteOf(s.t.pte, a, Clamp(s.c.pages, page)).Invalid?
    ensures DataOk(TakePool(s, a, Trapped(page, true)))
  {
    hide TablesOk, ContentsOk, FetchedOk, LoadingOk, JoinOk, KeepsAllPages, PoolOk, DiskOk, DeviceOk, SemP, Passes;
    var n := TakePool(s, a, Trapped(page, true));
    PoolTaken(s.pc, s.pool, a, Trapped(page, true));
    MoveKeepsPages(s.pc, a, n.pc[a]);
    FaultTables(s, a, n.pc[a], page);
    PagesKept(s, n);
  }

  lemma DataPick(s: State, a: nat, page: nat)
    requires s.c.pages > 0 && ControlOk(s) && DataOk(s) && a in s.pc && s.pc[a] == Pc.Paging(page, true)
    ensures DataOk(DoPick(s, a, page))
  {
    hide TablesOk, ContentsOk, FetchedOk, LoadingOk, JoinOk, KeepsAllPages, PoolOk, DiskOk, DeviceOk;
    var n := DoPick(s, a, page);
    HolderIs(s, a);
    TablesPick(s.c, s.pc, a, page, BeingFilled(s), s.t);
    MoveKeepsPages(s.pc, a, n.pc[a]);
    PagesKept(s, n);
  }

  lemma DataEmpty(s: State, a: nat, page: nat, f: nat)
    requires s.c.pages > 0 && ControlOk(s) && DataOk(s) && a in s.pc && s.pc[a] == Picked(page, f)
    requires SlotOf(s.t.slots, f).Empty?
    ensures DataOk(DoEvict(s, a, page, f))
  {
    hide TablesOk, ContentsOk, FetchedOk, LoadingOk, JoinOk, KeepsAllPages, PoolOk, DiskOk, DeviceOk;
    var n := DoEvict(s, a, page, f);
    HolderIs(s, a);
    TablesEmpty(s.c, s.pc, a, page, f, s.t);
    MoveKeepsPages(s.pc, a, n.pc[a]);
    PagesKept(s, n);
  }

  lemma DataEvict(s: State, a: nat, page: nat, f: nat)
    requires s.c.pages > 0 && ControlOk(s) && DataOk(s) && a in s.pc && s.pc[a] == Picked(page, f)
    requires SlotOf(s.t.slots, f).Held?
    ensures DataOk(DoEvict(s, a, page, f))
  {
    hide TablesOk, ContentsOk, FetchedOk, LoadingOk, JoinOk, KeepsAllPages, KeepsAllContents, PoolOk, DiskOk, DeviceOk,
      Ousted;
    var n, slot := DoEvict(s, a, page, f), SlotOf(s.t.slots, f);
    HolderIs(s, a);
    TablesOusted(s.c, s.pc, a, page, f, s.t, slot.asid, slot.page, slot.entry);
    PagesOusted(s.c, s.pc, s.t.pte, n.t.pte, f, slot.asid, slot.entry, s.dev.blocks, s.mem, s.flat);
    MoveKeepsPages(s.pc, a, n.pc[a]);
    PagesAreContents(s.pc, n.pc);
    ContentsKept(s.c, s.pc, n.pc, Out(f, slot.asid, slot.entry), n.t.pte, s.dev.blocks, s.mem, s.flat);
    FetchedKept(s.c, s.pc, n.pc, s.mem, s.flat);
    LoadingKept(s.c, s.pc, n.pc, s.dev.blocks, s.mem, s.flat);
    JoinKept(s.c, s.pc, n.pc, s.master, s.root);
  }

  lemma DataInstall(s: State, n: State, a: nat, page: nat, f: nat)
    requires s.c.pages > 0 && ControlOk(s) && DataOk(s) && a in s.pc && s.pc[a] == Loaded(page, f)
    requires n == s.(t := BroughtIn(s.t, s.c.pages, a, page, f), pc := s.pc[a := Installed])
    ensures DataOk(n)
  {
    HolderIs(s, a);
    TablesInstalled(s.c, s.pc, a, page, f, s.t);
    assert PageOf(s.mem, Frame(f)) == FlatOf(s.c, s.flat, a, Clamp(s.c.pages, page));
    hide TablesOk, ContentsOk, FetchedOk, LoadingOk, JoinOk, KeepsAllPages, PoolOk, DiskOk, DeviceOk;
    PagesInstalled(s.c, s.pc, a, Clamp(s.c.pages, page), f, s.t.pte, s.dev.blocks, s.mem, s.flat);
    MoveKeepsPages(s.pc, a, Installed);
    PagesAreContents(s.pc, n.pc);
    ContentsKept(s.c, s.pc, n.pc, Nothing, n.t.pte, s.dev.blocks, s.mem, s.flat);
    FetchedKept(s.c, s.pc, n.pc, s.mem, s.flat);
    LoadingKept(s.c, s.pc, n.pc, s.dev.blocks, s.mem, s.flat);
    JoinKept(s.c, s.pc, n.pc, s.master, s.root);
  }

  lemma DataRelease(s: State, n: State, a: nat, i: nat)
    requires s.c.pages > 0 && ControlOk(s) && DataOk(s) && a in s.pc && s.pc[a] == Clearing(i)
    requires n == if i < s.c.frames then s.(t := Released(s.t, a, i), pc := s.pc[a := Clearing(i + 1)])
                  else s.(t := s.t.(tlb := map[]), pc := s.pc[a := Cleared])
    ensures DataOk(n)
  {
    hide TablesOk, ContentsOk, FetchedOk, LoadingOk, JoinOk, KeepsAllPages, PoolOk, DiskOk, DeviceOk;
    HolderIs(s, a);
    if i < s.c.frames {
      TablesReleased(s.c, s.pc, a, i, s.t);
    } else {
      TablesCleared(s.c, s.pc, a, i, s.t);
    }
    MoveKeepsPages(s.pc, a, n.pc[a]);
    PagesKept(s, n);
  }

  /* ------------------------------------------------ data: loading */

  lemma DataLoaded(s: State, n: State, a: nat)
    requires s.c.pages > 0 && ControlOk(s) && DataOk(s) && a in s.pc && s.pc[a] == Load(|TapeOf(s.c, a)|)
    requires n == s.(pc := s.pc[a := User])
    ensures DataOk(n)
  {
    hide TablesOk, ContentsOk, FetchedOk, LoadOk, JoinOk, ControlOk;
    PagesLoaded(s.c, s.pc, s.pool.holder, s.t, a, s.dev.blocks, s.mem, s.flat);
    LoadedTables(s, a);
    LoadedOthers(s.c, s.pc, a, s.mem, s.flat, s.master, s.root);
  }

  lemma LoadedOthers(c: Config, pc: map<nat, Pc>, a: nat, mem: map<Buf, Page>, flat: map<Vpn, Page>, master: int,
                     root: Root)
    requires c.pages > 0 && a in pc && IsLoading(pc[a]) && FetchedOk(c, pc, mem, flat) && JoinOk(c, pc, master, root)
    ensures FetchedOk(c, pc[a := User], mem, flat) && JoinOk(c, pc[a := User], master, root)
  {
    assert Signed(pc[a := User]) == Signed(pc);
    assert |pc[a := User]| == |pc[a := User].Keys| && |pc| == |pc.Keys| && pc[a := User].Keys == pc.Keys;
  }

  lemma LoadedTables(s: State, a: nat)
    requires s.c.pages > 0 && ControlOk(s) && DataOk(s) && a in s.pc && s.pc[a] == Load(|TapeOf(s.c, a)|)
    ensures TablesOk(s.c, s.pc[a := User], BeingFilled(s), s.t) && a != s.pool.holder
  {
    TablesMove(s.c, s.pc, a, User, BeingFilled(s), s.t);
  }

  /** A tape buffer holds no process's page. */
  lemma TapeBufApart(c: Config, pc: map<nat, Pc>, out: Leaver, pte: map<Vpn, Pte>, blocks: map<Block, Page>,
                     mem: map<Buf, Page>, flat: map<Vpn, Page>, a: nat, page: Page)
    requires c.pages > 0 && ContentsOk(c, pc, out, pte, blocks, mem, flat) && FetchedOk(c, pc, mem, flat)
    ensures ContentsOk(c, pc, out, pte, blocks, mem[TapeBuf(a) := page], flat)
    ensures FetchedOk(c, pc, mem[TapeBuf(a) := page], flat)
  {
    var after := mem[TapeBuf(a) := page];
    assert forall f: nat :: PageOf(after, Frame(f)) == PageOf(mem, Frame(f));
  }

  lemma LoadingTape(c: Config, pc: map<nat, Pc>, blocks: map<Block, Page>, mem: map<Buf, Page>,
                    flat: map<Vpn, Page>, a: nat, i: nat)
    requires LoadingOk(c, pc, blocks, mem, flat) && a in pc && pc[a] == Tape(i) && i < |TapeOf(c, a)|
    ensures LoadingOk(c, pc[a := Io(Loading(i), Calling)], blocks, mem[TapeBuf(a) := TapeOf(c, a)[i]], flat)
  {
    hide Copied, Unwritten;
    assert LoadOk(c, a, pc[a], blocks, mem, flat);
  }

  lemma TapeTables(s: State, a: nat, i: nat)
    requires s.c.pages > 0 && ControlOk(s) && DataOk(s) && a in s.pc && s.pc[a] == Tape(i)
    ensures TablesOk(s.c, s.pc[a := Io(Loading(i), Calling)], BeingFilled(s), s.t) && a != s.pool.holder
  {
    TablesMove(s.c, s.pc, a, Io(Loading(i), Calling), BeingFilled(s), s.t);
  }

  lemma DataTape(s: State, a: nat, i: nat)
    requires s.c.pages > 0 && ControlOk(s) && DataOk(s) && a in s.pc && s.pc[a] == Tape(i) && i < |TapeOf(s.c, a)|
    ensures DataOk(Do(s, TapeDone(a)))
  {
    hide TablesOk, ContentsOk, FetchedOk, LoadingOk, JoinOk, KeepsAllContents, ControlOk;
    var n, page, x := Do(s, TapeDone(a)), TapeOf(s.c, a)[i], Io(Loading(i), Calling);
    TapeTables(s, a, i);
    MoveKeepsContents(s.pc, a, x);
    TapeBufApart(s.c, s.pc, OnItsWay(s), s.t.pte, s.dev.blocks, s.mem, s.flat, a, page);
    ContentsKept(s.c, s.pc, n.pc, OnItsWay(s), s.t.pte, s.dev.blocks, n.mem, s.flat);
    FetchedKept(s.c, s.pc, n.pc, n.mem, s.flat);
    LoadingTape(s.c, s.pc, s.dev.blocks, s.mem, s.flat, a, i);
    JoinKept(s.c, s.pc, n.pc, s.master, s.root);
  }

  /* ------------------------------------------------ data: transfers */

  /** The block of a loading process is no other process's. */
  lemma LoadingBlock(c: Config, pc: map<nat, Pc>, blocks: map<Block, Page>, mem: map<Buf, Page>,
                     flat: map<Vpn, Page>, a: nat, i: nat)
    requires LoadingOk(c, pc, blocks, mem, flat) && a in pc && pc[a] == Io(Loading(i), Moving)
    ensures LoadingOk(c, pc[a := Io(Loading(i), Moved)], blocks[Block(i, a - 1) := PageOf(mem, TapeBuf(a))], mem, flat)
  {
    hide Unwritten;
    var after := blocks[Block(i, a - 1) := PageOf(mem, TapeBuf(a))];
    assert LoadOk(c, a, pc[a], blocks, mem, flat);
    assert forall p: nat | p != i :: StoreOf(after, a, p) == StoreOf(blocks, a, p);
    BlocksApart(blocks, i, a, PageOf(mem, TapeBuf(a)));
    assert Copied(c, a, i + 1, after);
  }

  lemma BlocksApart(blocks: map<Block, Page>, i: nat, a: nat, page: Page)
    ensures forall b: nat, p: nat | b != a || p != i ::
              StoreOf(blocks[Block(i, a - 1) := page], b, p) == StoreOf(blocks, b, p)
    ensures StoreOf(blocks[Block(i, a - 1) := page], a, i) == page
  {
  }

  lemma LoadingElsewhere(c: Config, pc: map<nat, Pc>, blocks: map<Block, Page>, mem: map<Buf, Page>,
                         flat: map<Vpn, Page>, v: nat, q: nat, page: Page)
    requires LoadingOk(c, pc, blocks, mem, flat) && (v in pc ==> !IsLoading(pc[v]))
    ensures LoadingOk(c, pc, blocks[Block(q, v - 1) := page], mem, flat)
  {
    hide Unwritten, StoreOf;
    var after := blocks[Block(q, v - 1) := page];
    BlocksApart(blocks, q, v, page);
    forall b | b in pc && IsLoading(pc[b]) ensures Copied(c, b, Done(pc[b]), after) {
      assert LoadOk(c, b, pc[b], blocks, mem, flat);
    }
  }

  lemma ContentsElsewhere(c: Config, pc: map<nat, Pc>, out: Leaver, pte: map<Vpn, Pte>, blocks: map<Block, Page>,
                          mem: map<Buf, Page>, flat: map<Vpn, Page>, v: nat, q: nat, page: Page)
    requires ContentsOk(c, pc, out, pte, blocks, mem, flat) && (v in pc ==> !Resident(pc[v]))
    ensures ContentsOk(c, pc, out, pte, blocks[Block(q, v - 1) := page], mem, flat)
  {
    hide StoreOf;
    var after := blocks[Block(q, v - 1) := page];
    BlocksApart(blocks, q, v, page);
    forall a: nat, p: nat | a in pc && Resident(pc[a])
      ensures Content(out, pte, after, mem, a, p) == FlatOf(c, flat, a, p)
    {
      assert Content(out, pte, blocks, mem, a, p) == FlatOf(c, flat, a, p);
    }
  }

  lemma FetchedElsewhere(c: Config, pc: map<nat, Pc>, mem: map<Buf, Page>, flat: map<Vpn, Page>, a: nat, page: nat,
                         f: nat, data: Page)
    requires c.pages > 0 && FetchedOk(c, pc, mem, flat) && a in pc && OnlyChooser(pc, a)
    requires data == FlatOf(c, flat, a, Clamp(c.pages, page))
    ensures FetchedOk(c, pc[a := Io(Fetching(page, f), Moved)], mem[Frame(f) := data], flat)
  {
    forall b | b in pc && b != a ensures Incoming(pc[b]) == Nobody {
    }
  }

  lemma LoadingFrames(c: Config, pc: map<nat, Pc>, blocks: map<Block, Page>, mem: map<Buf, Page>,
                      flat: map<Vpn, Page>, f: nat, data: Page)
    requires LoadingOk(c, pc, blocks, mem, flat)
    ensures LoadingOk(c, pc, blocks, mem[Frame(f) := data], flat)
  {
    hide Copied, Unwritten;
    assert forall a: nat :: PageOf(mem[Frame(f) := data], TapeBuf(a)) == PageOf(mem, TapeBuf(a));
  }

  /* ------------------------------------------------ data: what the disk does */

  lemma DataSeek(s: State, a: nat, why: Why)
    requires s.c.pages > 0 && DataOk(s) && a in s.pc && s.pc[a] == Io(why, Seeking)
    requires s.dev.waiter == a && s.dev.command.Seek?
    ensures DataOk(DoDisk(s))
  {
    hide TablesOk, ContentsOk, FetchedOk, LoadingOk, JoinOk;
    DataMove(s, DoDisk(s), a, Io(why, Sought));
  }

  lemma MovedTables(s: State, a: nat, why: Why)
    requires s.c.pages > 0 && DataOk(s) && a in s.pc && s.pc[a] == Io(why, Moving)
    ensures TablesOk(s.c, s.pc[a := Io(why, Moved)], BeingFilled(s), s.t)
    ensures JoinOk(s.c, s.pc[a := Io(why, Moved)], s.master, s.root)
  {
    TablesMove(s.c, s.pc, a, Io(why, Moved), BeingFilled(s), s.t);
    hide TablesOk, ContentsOk, FetchedOk, LoadingOk, JoinOk;
    JoinMoved(s.c, s.pc, a, Io(why, Moved), s.master, s.root);
  }

  lemma JoinMoved(c: Config, pc: map<nat, Pc>, a: nat, x: Pc, master: int, root: Root)
    requires JoinOk(c, pc, master, root) && a in pc && !pc[a].Dead? && !x.Dead?
    ensures JoinOk(c, pc[a := x], master, root)
  {
    assert Signed(pc[a := x]) == Signed(pc);
    assert |pc[a := x]| == |pc[a := x].Keys| && |pc| == |pc.Keys| && pc[a := x].Keys == pc.Keys;
  }

  /** A block of the tape reaches the disk. */
  lemma DataMovedTape(s: State, n: State, a: nat, i: nat)
    requires s.c.pages > 0 && ControlOk(s) && DataOk(s) && a in s.pc && s.pc[a] == Io(Loading(i), Moving)
    requires n.c == s.c && n.pc == s.pc[a := Io(Loading(i), Moved)] && n.pool == s.pool && n.t == s.t
    requires n.mem == s.mem && n.flat == s.flat && n.master == s.master && n.root == s.root
    requires n.dev.blocks == s.dev.blocks[Block(i, a - 1) := PageOf(s.mem, TapeBuf(a))]
    ensures DataOk(n)
  {
    hide TablesOk, ContentsOk, FetchedOk, LoadingOk, JoinOk, KeepsAllContents, DiskOk, DeviceOk;
    MovedTables(s, a, Loading(i));
    MoveKeepsContents(s.pc, a, Io(Loading(i), Moved));
    ContentsElsewhere(s.c, s.pc, OnItsWay(s), s.t.pte, s.dev.blocks, s.mem, s.flat, a, i, PageOf(s.mem, TapeBuf(a)));
    ContentsKept(s.c, s.pc, n.pc, OnItsWay(s), s.t.pte, n.dev.blocks, s.mem, s.flat);
    FetchedKept(s.c, s.pc, n.pc, s.mem, s.flat);
    LoadingBlock(s.c, s.pc, s.dev.blocks, s.mem, s.flat, a, i);
  }

  lemma VictimIsResident(s: State, a: nat, page: nat, f: nat, v: nat, q: nat, stage: Stage)
    requires s.c.pages > 0 && ControlOk(s) && DataOk(s) && a in s.pc && s.pc[a] == Io(Evicting(page, f, v, q), stage)
    ensures s.pool.holder == a && OnlyChooser(s.pc, a) && PteOf(s.t.pte, v, q) == Invalid
    ensures v in s.pc && !IsLoading(s.pc[v])
  {
    HolderIs(s, a);
    assert Owns(SlotOf(s.t.slots, f), v, q);
  }

  /** A page that leaves memory reaches the disk. */
  lemma DataMovedOut(s: State, n: State, a: nat, page: nat, f: nat, v: nat, q: nat)
    requires s.c.pages > 0 && ControlOk(s) && DataOk(s) && a in s.pc && s.pc[a] == Io(Evicting(page, f, v, q), Moving)
    requires n.c == s.c && n.pc == s.pc[a := Io(Evicting(page, f, v, q), Moved)] && n.pool == s.pool && n.t == s.t
    requires n.mem == s.mem && n.flat == s.flat && n.master == s.master && n.root == s.root
    requires n.dev.blocks == s.dev.blocks[Block(q, v - 1) := PageOf(s.mem, Frame(f))]
    ensures DataOk(n)
  {
    hide TablesOk, ContentsOk, FetchedOk, LoadingOk, JoinOk, KeepsAllContents, KeepsAllPages, PoolOk, DiskOk, DeviceOk;
    VictimIsResident(s, a, page, f, v, q, Moving);
    var x := Io(Evicting(page, f, v, q), Moved);
    MovedTables(s, a, Evicting(page, f, v, q));
    MoveKeepsContents(s.pc, a, x);
    MoveKeepsPages(s.pc, a, x);
    PagesWritten(s.c, s.pc, s.t.pte, f, v, q, s.dev.blocks, s.mem, s.flat);
    ContentsKept(s.c, s.pc, n.pc, Nothing, s.t.pte, n.dev.blocks, s.mem, s.flat);
    FetchedKept(s.c, s.pc, n.pc, s.mem, s.flat);
    LoadingElsewhere(s.c, s.pc, s.dev.blocks, s.mem, s.flat, v, q, PageOf(s.mem, Frame(f)));
    LoadingKept(s.c, s.pc, n.pc, n.dev.blocks, s.mem, s.flat);
  }

  lemma ReadIsFlat(s: State, a: nat, page: nat, f: nat)
    requires s.c.pages > 0 && ControlOk(s) && DataOk(s) && a in s.pc && s.pc[a] == Io(Fetching(page, f), Moving)
    ensures s.pool.holder == a && OnlyChooser(s.pc, a)
    ensures StoreOf(s.dev.blocks, a, Clamp(s.c.pages, page)) == FlatOf(s.c, s.flat, a, Clamp(s.c.pages, page))
  {
    HolderIs(s, a);
    var p := Clamp(s.c.pages, page);
    assert Content(OnItsWay(s), s.t.pte, s.dev.blocks, s.mem, a, p) == FlatOf(s.c, s.flat, a, p);
  }

  /** A page that is wanted reaches its frame. */
  lemma DataMovedIn(s: State, n: State, a: nat, page: nat, f: nat)
    requires s.c.pages > 0 && ControlOk(s) && DataOk(s) && a in s.pc && s.pc[a] == Io(Fetching(page, f), Moving)
    requires n.c == s.c && n.pc == s.pc[a := Io(Fetching(page, f), Moved)] && n.pool == s.pool && n.t == s.t
    requires n.dev.blocks == s.dev.blocks && n.flat == s.flat && n.master == s.master && n.root == s.root
    requires n.mem == s.mem[Frame(f) := StoreOf(s.dev.blocks, a, Clamp(s.c.pages, page))]
    ensures DataOk(n)
  {
    hide TablesOk, ContentsOk, FetchedOk, LoadingOk, JoinOk, PoolOk, DiskOk, DeviceOk, StoreOf, FlatOf;
    ReadIsFlat(s, a, page, f);
    var x, data := Io(Fetching(page, f), Moved), StoreOf(s.dev.blocks, a, Clamp(s.c.pages, page));
    MovedTables(s, a, Fetching(page, f));
    PagesRead(s.c, s.pc, f, s.t, s.dev.blocks, s.mem, s.flat, data);
    MovedInContents(s.c, s.pc, a, x, s.t.pte, s.dev.blocks, n.mem, s.flat);
    FetchedElsewhere(s.c, s.pc, s.mem, s.flat, a, page, f, data);
    LoadingFrames(s.c, s.pc, s.dev.blocks, s.mem, s.flat, f, data);
    LoadingMoved(s.c, s.pc, a, x, s.dev.blocks, n.mem, s.flat);
  }

  lemma LoadingMoved(c: Config, pc: map<nat, Pc>, a: nat, x: Pc, blocks: map<Block, Page>, mem: map<Buf, Page>,
                     flat: map<Vpn, Page>)
    requires LoadingOk(c, pc, blocks, mem, flat) && !IsLoading(x)
    ensures LoadingOk(c, pc[a := x], blocks, mem, flat)
  {
    hide LoadOk;
  }

  lemma MovedInContents(c: Config, pc: map<nat, Pc>, a: nat, x: Pc, pte: map<Vpn, Pte>, blocks: map<Block, Page>,
                        mem: map<Buf, Page>, flat: map<Vpn, Page>)
    requires ContentsOk(c, pc, Nothing, pte, blocks, mem, flat) && a in pc && Resident(pc[a])
    ensures ContentsOk(c, pc[a := x], Nothing, pte, blocks, mem, flat)
  {
  }

  /** Whatever it is, the transfer is that of the disk's holder, on the cylinder it asked for. */
  lemma DataMoved(s: State, a: nat, why: Why)
    requires s.c.pages > 0 && ControlOk(s) && DataOk(s) && a in s.pc && s.pc[a] == Io(why, Moving)
    requires s.dev.waiter == a && s.dev.arm == OpOf(s.c.pages, a, why).cyl
    requires var op := OpOf(s.c.pages, a, why); s.dev.command == Move(op.sector, op.buf, op.write)
    ensures DataOk(DoDisk(s))
  {
    hide ControlOk, DataOk;
    match why
    case Loading(i) => DataMovedTape(s, DoDisk(s), a, i);
    case Evicting(page, f, v, q) => DataMovedOut(s, DoDisk(s), a, page, f, v, q);
    case Fetching(page, f) => DataMovedIn(s, DoDisk(s), a, page, f);
  }

  /** The device serves its holder. */
  lemma Served(s: State)
    requires s.c.pages > 0 && ControlOk(s) && s.dev.command != Idle
    ensures var a := s.disk.holder;
            && a in s.pc && s.pc[a].Io? && s.dev.waiter == a
            && Serving(s.dev, a, OpOf(s.c.pages, a, s.pc[a].why), s.pc[a].stage)
            && (s.dev.command.Seek? <==> s.pc[a].stage.Seeking?) && (s.dev.command.Move? <==> s.pc[a].stage.Moving?)
  {
  }

  lemma SeekEnds(s: State, a: nat, why: Why)
    requires s.c.pages > 0 && ControlOk(s) && a in s.pc && s.pc[a] == Io(why, Seeking)
    requires s.dev.waiter == a && s.dev.command == Seek(OpOf(s.c.pages, a, why).cyl)
    ensures ControlOk(DoDisk(s))
  {
    hide ControlOk, OpOf;
    ControlIssue(s, DoDisk(s), a, why, Seeking, Sought);
  }

  lemma MoveEnds(s: State, a: nat, why: Why)
    requires s.c.pages > 0 && ControlOk(s) && a in s.pc && s.pc[a] == Io(why, Moving)
    requires s.dev.waiter == a && s.dev.arm == OpOf(s.c.pages, a, why).cyl && s.dev.command.Move?
    ensures ControlOk(DoDisk(s))
  {
    hide ControlOk, OpOf;
    ControlIssue(s, DoDisk(s), a, why, Moving, Moved);
  }

  lemma DiskStep(s: State)
    requires s.c.pages > 0 && ControlOk(s) && DataOk(s) && s.dev.command != Idle
    ensures ControlOk(DoDisk(s)) && DataOk(DoDisk(s))
  {
    hide ControlOk, DataOk, DoDisk, OpOf;
    Served(s);
    var a := s.disk.holder;
    if s.dev.command.Seek? {
      DataSeek(s, a, s.pc[a].why);
      SeekEnds(s, a, s.pc[a].why);
    } else {
      DataMoved(s, a, s.pc[a].why);
      MoveEnds(s, a, s.pc[a].why);
    }
  }

  /* ------------------------------------------------ data: the processor */

  lemma StoreFetched(c: Config, pc: map<nat, Pc>, h: nat, t: Tables, a: nat, p: nat, mem: map<Buf, Page>,
                     flat: map<Vpn, Page>, data: Page, data': Page)
    requires c.pages > 0 && TablesOk(c, pc, RefillFrame(At(pc, h)), t) && FetchedOk(c, pc, mem, flat)
    requires a in pc && pc[a].User? && Vpn(a, p) in t.tlb && OnlyChooser(pc, h)
    ensures FetchedOk(c, pc, mem[Frame(t.tlb[Vpn(a, p)]) := data], flat[Vpn(a, p) := data'])
  {
    var f := t.tlb[Vpn(a, p)];
    OwnFrame(c, pc, RefillFrame(At(pc, h)), t, a, p, f);
    forall b | b in pc && Incoming(pc[b]).In? ensures b == h && b != a && Incoming(pc[b]).f == RefillFrame(pc[b]) {
    }
  }

  lemma StoreLoading(c: Config, pc: map<nat, Pc>, a: nat, p: nat, f: nat, blocks: map<Block, Page>, mem: map<Buf, Page>,
                     flat: map<Vpn, Page>, data: Page, data': Page)
    requires LoadingOk(c, pc, blocks, mem, flat) && a in pc && !IsLoading(pc[a])
    ensures LoadingOk(c, pc, blocks, mem[Frame(f) := data], flat[Vpn(a, p) := data'])
  {
    hide Copied;
    LoadingFrames(c, pc, blocks, mem, flat, f, data);
  }

  lemma StoreStep(s: State, a: nat, p: nat, offset: nat, value: int)
    requires Inv(s) && Legal(s, Store(a, p, offset, value))
    ensures Inv(DoStore(s, a, p, offset, value))
  {
    hide TablesOk, ContentsOk, FetchedOk, LoadingOk, JoinOk, PoolOk, DiskOk, DeviceOk;
    var f := s.t.tlb[Vpn(a, p)];
    HolderChooses(s.pc, s.pool, s.pool.holder);
    PagesStored(s.c, s.pc, s.pool.holder, s.t, a, p, offset, value, s.dev.blocks, s.mem, s.flat);
    var data, data' := PageOf(s.mem, Frame(f))[offset := value], FlatOf(s.c, s.flat, a, p)[offset := value];
    StoreFetched(s.c, s.pc, s.pool.holder, s.t, a, p, s.mem, s.flat, data, data');
    StoreLoading(s.c, s.pc, a, p, f, s.dev.blocks, s.mem, s.flat, data, data');
  }

  lemma TlbStep(s: State, tlb: map<Vpn, nat>)
    requires Inv(s) && forall v | v in tlb :: PteOf(s.t.pte, v.asid, v.page) == Valid(tlb[v])
    ensures Inv(s.(t := s.t.(tlb := tlb)))
  {
    hide TablesOk, ContentsOk, FetchedOk, LoadingOk, JoinOk, PoolOk, DiskOk, DeviceOk;
    TablesTlb(s.c, s.pc, BeingFilled(s), s.t, tlb);
  }

  /* ------------------------------------------------ the join */

  lemma SignedOne(pc: map<nat, Pc>, a: nat)
    requires a in pc && !pc[a].Dead?
    ensures |Signed(pc[a := Dead])| == |Signed(pc)| + 1 && |Signed(pc[a := Dead])| <= |pc|
    ensures |pc[a := Dead]| == |pc|
  {
    assert Signed(pc[a := Dead]) == Signed(pc) + {a};
    assert pc[a := Dead].Keys == pc.Keys;
    assert |pc[a := Dead]| == |pc[a := Dead].Keys| && |pc| == |pc.Keys|;
    SubsetCardinality(Signed(pc[a := Dead]), pc.Keys);
  }

  lemma JoinSigned(c: Config, pc: map<nat, Pc>, a: nat, master: int, root: Root)
    requires JoinOk(c, pc, master, root) && a in pc && !pc[a].Dead?
    ensures JoinOk(c, pc[a := Dead], master + 1,
                   if master + 1 <= 0 && root.Blocked? then Joining(root.k + 1) else root)
  {
    SignedOne(pc, a);
    assert a !in Signed(pc);
  }

  lemma AllSigned(pc: map<nat, Pc>, n: nat)
    requires |pc| == n && |Signed(pc)| >= n
    ensures Signed(pc) == pc.Keys
  {
    assert |pc| == |pc.Keys|;
    if Signed(pc) != pc.Keys {
      var a :| a in pc.Keys && a !in Signed(pc);
      SubsetCardinality(Signed(pc), pc.Keys - {a});
    }
  }

  lemma RootStepInv(s: State)
    requires Inv(s)
    ensures Inv(DoRoot(s))
  {
    hide TablesOk, ContentsOk, FetchedOk, LoadingOk, PoolOk, DiskOk, DeviceOk;
    if s.root.Joining? && s.root.k == s.c.users {
      AllSigned(s.pc, s.c.users);
    }
    if s.root.Joining? {
      SubsetCardinality(Signed(s.pc), s.pc.Keys);
    }
  }

  /* ------------------------------------------------ every step */

  lemma LoadStep(s: State, a: nat)
    requires Inv(s) && a in s.pc && s.pc[a].Load?
    ensures Inv(DoRun(s, a))
  {
    hide ControlOk, TablesOk, ContentsOk, FetchedOk, JoinOk, Copied, Unwritten;
    var i, n := s.pc[a].i, DoRun(s, a);
    assert LoadOk(s.c, a, s.pc[a], s.dev.blocks, s.mem, s.flat);
    ControlMove(s, n, a, n.pc[a]);
    if i < |TapeOf(s.c, a)| {
      TapeStarted(s, a, i);
    } else {
      DataLoaded(s, n, a);
    }
  }

  lemma TapeStarted(s: State, a: nat, i: nat)
    requires s.c.pages > 0 && DataOk(s) && a in s.pc && s.pc[a] == Load(i) && i < |TapeOf(s.c, a)|
    ensures DataOk(s.(pc := s.pc[a := Tape(i)]))
  {
    hide TablesOk, ContentsOk, FetchedOk, LoadingOk, JoinOk, KeepsAllContents;
    var n := s.(pc := s.pc[a := Tape(i)]);
    MoveKeepsContents(s.pc, a, Tape(i));
    StartedTables(s.c, s.pc, a, i, BeingFilled(s), s.t);
    StartedLoading(s.c, s.pc, a, i, s.dev.blocks, s.mem, s.flat);
    ContentsKept(s.c, s.pc, n.pc, OnItsWay(s), s.t.pte, s.dev.blocks, s.mem, s.flat);
    FetchedKept(s.c, s.pc, n.pc, s.mem, s.flat);
    JoinKept(s.c, s.pc, n.pc, s.master, s.root);
  }

  lemma StartedTables(c: Config, pc: map<nat, Pc>, a: nat, i: nat, refill: int, t: Tables)
    requires c.pages > 0 && TablesOk(c, pc, refill, t) && a in pc && pc[a] == Load(i)
    ensures TablesOk(c, pc[a := Tape(i)], refill, t)
  {
    TablesMove(c, pc, a, Tape(i), refill, t);
  }

  lemma StartedLoading(c: Config, pc: map<nat, Pc>, a: nat, i: nat, blocks: map<Block, Page>, mem: map<Buf, Page>,
                       flat: map<Vpn, Page>)
    requires LoadingOk(c, pc, blocks, mem, flat) && a in pc && pc[a] == Load(i) && i < |TapeOf(c, a)|
    ensures LoadingOk(c, pc[a := Tape(i)], blocks, mem, flat)
  {
    hide Copied, Unwritten;
    assert LoadOk(c, a, pc[a], blocks, mem, flat);
  }

  lemma IoStep(s: State, a: nat, why: Why, stage: Stage)
    requires Inv(s) && a in s.pc && s.pc[a] == Io(why, stage)
    ensures Inv(DoIo(s, a, why, stage))
  {
    hide ControlOk, DataOk, OpOf;
    match stage {
      case Calling =>
        ControlTakeDisk(s, a, why);
        DataTakeDisk(s, a, why);
      case Granted =>
        Issued(s, a, why, Granted);
        DataMove(s, DoIo(s, a, why, Granted), a, Io(why, Seeking));
      case Sought =>
        Issued(s, a, why, Sought);
        DataMove(s, DoIo(s, a, why, Sought), a, Io(why, Moving));
      case Moved =>
        ReturnedKeeps(why);
        ControlGiveDisk(s, a, why, Returned(why));
        DataGiveDisk(s, a, why);
      case _ =>
    }
  }

  lemma Issued(s: State, a: nat, why: Why, stage: Stage)
    requires s.c.pages > 0 && ControlOk(s) && a in s.pc && s.pc[a] == Io(why, stage)
    requires stage.Granted? || stage.Sought?
    ensures ControlOk(DoIo(s, a, why, stage))
  {
    assert s.disk.holder == a;
    assert Serving(s.dev, a, OpOf(s.c.pages, a, why), stage);
    hide ControlOk;
    ControlIssue(s, DoIo(s, a, why, stage), a, why, stage, if stage.Granted? then Seeking else Moving);
  }

  lemma InsideIsHolder(s: State, a: nat)
    requires Inv(s) && a in s.pc && HasPool(s.pc[a])
    ensures s.pool.holder == a
  {
  }

  /** V(swapPoolSem): the pager, or the process that ends, is done with the tables. */
  lemma OutStep(s: State, a: nat, next: Pc)
    requires Inv(s) && a in s.pc
    requires || (s.pc[a].Installed? && next == User) || (s.pc[a].Paging? && next == Failed)
             || (s.pc[a].Cleared? && next == Signing)
    ensures Inv(GivePool(s, a, next))
  {
    hide ControlOk, DataOk;
    InsideIsHolder(s, a);
    ControlGivePool(s, a, next);
    DataGivePool(s, a, next);
  }

  /** A step with the tables in hand. */
  lemma InsideStep(s: State, n: State, a: nat, x: Pc)
    requires Inv(s) && a in s.pc && HasPool(s.pc[a]) && HasPool(x) && Consistent(n)
    requires n.c == s.c && n.pc == s.pc[a := x] && n.pool == s.pool && n.disk == s.disk && n.dev == s.dev
    requires !HasDisk(x) && !HasDisk(s.pc[a]) && !WantsDisk(x) && !WantsDisk(s.pc[a])
    ensures Inv(n)
  {
    hide ControlOk, DataOk;
    ControlMove(s, n, a, x);
  }

  ghost predicate Consistent(s: State) {
    s.c.pages > 0 && DataOk(s)
  }

  lemma PickStep(s: State, a: nat, page: nat)
    requires Inv(s) && a in s.pc && s.pc[a] == Pc.Paging(page, true)
    ensures Inv(DoPick(s, a, page))
  {
    hide ControlOk, DataOk, NextFrame;
    PickInRange(s, a, page);
    DataPick(s, a, page);
    InsideStep(s, DoPick(s, a, page), a, Picked(page, NextFrame(s.c.frames, s.t.frameNo)));
  }

  lemma EvictStep(s: State, a: nat, page: nat, f: nat)
    requires Inv(s) && a in s.pc && s.pc[a] == Picked(page, f)
    ensures Inv(DoEvict(s, a, page, f))
  {
    hide ControlOk, DataOk, Ousted;
    var n := DoEvict(s, a, page, f);
    if SlotOf(s.t.slots, f).Empty? {
      DataEmpty(s, a, page, f);
    } else {
      DataEvict(s, a, page, f);
    }
    InsideStep(s, n, a, n.pc[a]);
  }

  lemma InstallStep(s: State, a: nat, page: nat, f: nat)
    requires Inv(s) && a in s.pc && s.pc[a] == Loaded(page, f)
    ensures Inv(DoRun(s, a))
  {
    hide ControlOk, DataOk, BroughtIn;
    DataInstall(s, DoRun(s, a), a, page, f);
    InsideStep(s, DoRun(s, a), a, Installed);
  }

  lemma ClearStep(s: State, a: nat, i: nat)
    requires Inv(s) && a in s.pc && s.pc[a] == Clearing(i)
    ensures Inv(DoRun(s, a))
  {
    hide ControlOk, DataOk, Released;
    var n := DoRun(s, a);
    DataRelease(s, n, a, i);
    InsideStep(s, n, a, n.pc[a]);
  }

  lemma LeaveStep(s: State, a: nat)
    requires Inv(s) && a in s.pc && (s.pc[a].Failed? || s.pc[a].User?)
    ensures Inv(TakePool(s, a, Pc.Leaving))
  {
    hide ControlOk, DataOk;
    ControlTakePool(s, a, Pc.Leaving);
    DataTakePool(s, a, Pc.Leaving);
  }

  lemma PickInRange(s: State, a: nat, page: nat)
    requires Inv(s)
    ensures 0 <= NextFrame(s.c.frames, s.t.frameNo) < s.c.frames
  {
  }

  lemma SignStep(s: State, a: nat)
    requires Inv(s) && a in s.pc && s.pc[a].Signing?
    ensures Inv(SignOff(s, a))
  {
    hide TablesOk, ContentsOk, FetchedOk, LoadingOk, JoinOk, ControlOk;
    var n := SignOff(s, a);
    ControlMove(s, n, a, Dead);
    SignTables(s, a);
    JoinSigned(s.c, s.pc, a, s.master, s.root);
    SignOthers(s, a);
  }

  lemma SignTables(s: State, a: nat)
    requires Inv(s) && a in s.pc && s.pc[a].Signing?
    ensures TablesOk(s.c, s.pc[a := Dead], BeingFilled(s), s.t) && a != s.pool.holder
  {
    TablesMove(s.c, s.pc, a, Dead, BeingFilled(s), s.t);
  }

  lemma SignOthers(s: State, a: nat)
    requires Inv(s) && a in s.pc && s.pc[a].Signing?
    ensures ContentsOk(s.c, s.pc[a := Dead], OnItsWay(s), s.t.pte, s.dev.blocks, s.mem, s.flat)
    ensures FetchedOk(s.c, s.pc[a := Dead], s.mem, s.flat)
    ensures LoadingOk(s.c, s.pc[a := Dead], s.dev.blocks, s.mem, s.flat)
  {
    hide TablesOk, JoinOk, ControlOk, LoadOk;
  }

  lemma RunStep(s: State, a: nat)
    requires Inv(s) && a in s.pc
    ensures Inv(DoRun(s, a))
  {
    hide ControlOk, DataOk, TakePool, GivePool, DoPick, DoEvict, DoIo, SignOff, Released, BroughtIn;
    match s.pc[a] {
      case Load(_) => LoadStep(s, a);
      case Io(why, stage) => IoStep(s, a, why, stage);
      case Paging(page, good) => if good { PickStep(s, a, page); } else { OutStep(s, a, Failed); }
      case Picked(page, f) => EvictStep(s, a, page, f);
      case Loaded(page, f) => InstallStep(s, a, page, f);
      case Installed => OutStep(s, a, User);
      case Failed => LeaveStep(s, a);
      case Clearing(i) => ClearStep(s, a, i);
      case Cleared => OutStep(s, a, Signing);
      case Signing => SignStep(s, a);
      case _ =>
    }
  }

  lemma TapeStep(s: State, a: nat)
    requires Inv(s) && Legal(s, TapeDone(a))
    ensures Inv(Do(s, TapeDone(a)))
  {
    hide ControlOk, DataOk;
    DataTape(s, a, s.pc[a].i);
    ControlMove(s, Do(s, TapeDone(a)), a, Io(Loading(s.pc[a].i), Calling));
  }

  lemma UserStep(s: State, e: Step)
    requires Inv(s) && Legal(s, e) && !e.Run? && !e.DiskDone? && !e.RootStep?
    ensures Inv(Do(s, e))
  {
    hide ControlOk, DataOk, TakePool, DoStore;
    match e {
      case Refill(a, p) => TlbFilled(s, a, p);
      case Forget(v) => TlbForgot(s, v);
      case Store(a, p, offset, value) => StoreStep(s, a, p, offset, value);
      case Fault(a, page, good) => FaultStep(s, a, page, good);
      case Quit(a) =>
        LeaveStep(s, a);
      case TapeDone(a) => TapeStep(s, a);
    }
  }

  lemma TlbFilled(s: State, a: nat, p: nat)
    requires Inv(s) && Legal(s, Refill(a, p))
    ensures Inv(Do(s, Refill(a, p)))
  {
    TlbStep(s, s.t.tlb[Vpn(a, p) := PteOf(s.t.pte, a, p).frame]);
    hide ControlOk, DataOk;
  }

  lemma TlbForgot(s: State, v: Vpn)
    requires Inv(s) && Legal(s, Forget(v))
    ensures Inv(Do(s, Forget(v)))
  {
    TlbStep(s, s.t.tlb - {v});
    hide ControlOk, DataOk;
  }

  lemma FaultStep(s: State, a: nat, page: nat, good: bool)
    requires Inv(s) && Legal(s, Fault(a, page, good))
    ensures Inv(Do(s, Fault(a, page, good)))
  {
    hide ControlOk, DataOk;
    ControlTakePool(s, a, Trapped(page, good));
    if good {
      DataFault(s, a, page);
    } else {
      DataTakePool(s, a, Trapped(page, false));
    }
  }

  /** Every step, in every interleaving, keeps the invariant. */
  lemma StepInv(s: State, e: Step)
    requires Inv(s) && Legal(s, e)
    ensures Inv(Do(s, e))
  {
    hide ControlOk, DataOk;
    match e {
      case Run(a) => RunStep(s, a);
      case DiskDone => DiskStep(s);
      case RootStep => RootStepInv(s);
      case _ => UserStep(s, e);
    }
  }
}
