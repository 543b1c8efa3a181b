/** What the pager promises, over every run: memory, tables, disk, replacement, and the join. */
module PagingRuns {
  import opened Paging
  import opened PagingInv
  import opened PagingSteps
  import opened Seqs

  /* ------------------------------------------------ runs */

  ghost predicate LegalRun(s: State, es: seq<Step>)
    decreases |es|
  {
    es == [] || (Legal(s, es[0]) && LegalRun(Do(s, es[0]), es[1..]))
  }

  ghost function Ran(s: State, es: seq<Step>): State
    requires LegalRun(s, es)
    decreases |es|
  {
    if es == [] then s else Ran(Do(s, es[0]), es[1..])
  }

  /** Processes 1 to n, before their tapes. */
  function Unloaded(n: nat): (m: map<nat, Pc>)
    ensures forall a | a in m :: 1 <= a <= n && m[a] == Load(0)
    ensures forall a | 1 <= a <= n :: a in m
    ensures |m| == n
  {
    if n == 0 then map[] else Unloaded(n - 1)[n := Load(0)]
  }

  /** What test sets up: empty frames, invalid pages, free semaphores, every process before its tape. */
  ghost function Start(c: Config): State {
    State(c, Unloaded(c.users), Sem(1, [], 0), Sem(1, [], 0),
          Tables(map[], map[], map[], c.frames - 1), Device(0, Idle, 0, c.disk), map[], 0, Joining(0), map[], 0)
  }

  lemma StartInv(c: Config)
    requires c.pages > 0 && c.frames > 0
    ensures Inv(Start(c))
  {
    var s := Start(c);
    assert Signed(s.pc) == {};
    assert BeingFilled(s) == -1 && OnItsWay(s) == Nothing;
  }

  lemma {:induction false} RunInv(s: State, es: seq<Step>)
    requires Inv(s) && LegalRun(s, es)
    ensures Inv(Ran(s, es))
    decreases |es|
  {
    hide Inv, Do, Legal;
    if es != [] {
      StepInv(s, es[0]);
      RunInv(Do(s, es[0]), es[1..]);
    }
  }

  /* ------------------------------------------------ memory */

  /** What the process itself would expect of a word: the last value it has stored there, or v. */
  ghost function LastStore(es: seq<Step>, a: nat, p: nat, offset: nat, v: int): int {
    if es == [] then v
    else LastStore(es[1..], a, p, offset,
                   match es[0]
                   case Store(b, q, o, w) => if b == a && q == p && o == offset then w else v
                   case _ => v)
  }

  function FlatWord(s: State, a: nat, p: nat, offset: nat): int {
    Word(FlatOf(s.c, s.flat, a, p), offset)
  }

  lemma FlatStep(s: State, e: Step, a: nat, p: nat, offset: nat)
    requires Legal(s, e)
    ensures FlatWord(Do(s, e), a, p, offset) == LastStore([e], a, p, offset, FlatWord(s, a, p, offset))
    ensures Do(s, e).c == s.c
  {
    hide DoRun, Finished, SemP, FlatOf;
    assert [e][1..] == [];
    match e {
      case Run(b) => RunFlat(s, b);
      case Store(b, q, o, v) => StoreFlat(s, b, q, o, v, a, p, offset);
      case _ =>
    }
  }

  lemma RunFlat(s: State, b: nat)
    requires s.c.pages > 0
    ensures DoRun(s, b).flat == s.flat && DoRun(s, b).c == s.c
  {
    hide Ousted, BroughtIn, Released, OpOf, SemP, SemV, Woken, NextFrame;
  }

  lemma StoreFlat(s: State, b: nat, q: nat, o: nat, v: int, a: nat, p: nat, offset: nat)
    requires Vpn(b, q) in s.t.tlb
    ensures var n := DoStore(s, b, q, o, v);
            && n.c == s.c
            && FlatWord(n, a, p, offset)
               == if b == a && q == p && o == offset then v else FlatWord(s, a, p, offset)
  {
  }

  lemma {:induction false} FlatRun(s: State, es: seq<Step>, a: nat, p: nat, offset: nat)
    requires LegalRun(s, es)
    ensures FlatWord(Ran(s, es), a, p, offset) == LastStore(es, a, p, offset, FlatWord(s, a, p, offset))
    decreases |es|
  {
    if es != [] {
      FlatStep(s, es[0], a, p, offset);
      assert [es[0]][1..] == [];
      hide Legal, Do, FlatWord;
      FlatRun(Do(s, es[0]), es[1..], a, p, offset);
    }
  }

  /** A running process finds in memory what the flat memory holds. */
  lemma LoadsFlat(s: State, a: nat, p: nat, offset: nat)
    requires Inv(s) && a in s.pc && s.pc[a].User? && Vpn(a, p) in s.t.tlb
    ensures Loads(s, a, p, offset) == FlatWord(s, a, p, offset)
  {
    assert PteOf(s.t.pte, a, p) == Valid(s.t.tlb[Vpn(a, p)]);
    assert Content(OnItsWay(s), s.t.pte, s.dev.blocks, s.mem, a, p) == FlatOf(s.c, s.flat, a, p);
  }

  /**
   Paging preserves memory. In every run, with any interleaving of faults, evictions, transfers, ends of
   other processes and losses of translations, a load returns what the process last stored there, or
   else what its tape held.
   */
  lemma MemoryPreserved(c: Config, es: seq<Step>, a: nat, p: nat, offset: nat)
    requires c.pages > 0 && c.frames > 0 && LegalRun(Start(c), es)
    requires var n := Ran(Start(c), es); a in n.pc && n.pc[a].User? && Vpn(a, p) in n.t.tlb
    ensures Loads(Ran(Start(c), es), a, p, offset) == LastStore(es, a, p, offset, Word(Image(c, a, p), offset))
  {
    hide Inv, Ran, LegalRun, LastStore, Loads;
    StartInv(c);
    RunInv(Start(c), es);
    FlatRun(Start(c), es, a, p, offset);
    LoadsFlat(Ran(Start(c), es), a, p, offset);
  }

  /* ------------------------------------------------ tables */

  /** Nobody is in the middle of refilling a frame. */
  predicate Settled(s: State) {
    BeingFilled(s) == -1
  }

  /**
   While no frame is being refilled, occupied frames and valid pages of living processes are the same
   thing seen from two sides. Every cached translation is that of a valid page, at every moment.
   */
  lemma TablesAgree(s: State)
    requires Inv(s)
    ensures Settled(s) ==> forall f | f in s.t.slots && s.t.slots[f].Held? ::
              PteOf(s.t.pte, s.t.slots[f].asid, s.t.slots[f].entry) == Valid(f)
    ensures forall a: nat, p: nat | a in s.pc && Resident(s.pc[a]) && PteOf(s.t.pte, a, p).Valid? ::
              Owns(SlotOf(s.t.slots, PteOf(s.t.pte, a, p).frame), a, p)
    ensures forall f, g | f in s.t.slots && g in s.t.slots && s.t.slots[f].Held? && s.t.slots[g].Held?
                          && Settled(s) && f != g ::
              !(s.t.slots[f].asid == s.t.slots[g].asid && s.t.slots[f].entry == s.t.slots[g].entry)
    ensures forall v | v in s.t.tlb :: PteOf(s.t.pte, v.asid, v.page) == Valid(s.t.tlb[v])
  {
  }

  /**
   Nothing clears the valid bits of a process that ends. So a valid entry is that of the frame it names
   exactly as long as its process is in the pager or running, or has not come to that frame yet in the
   loop that releases its frames.
   */
  lemma EntryOwned(s: State, a: nat, p: nat)
    requires Inv(s) && a in s.pc && PteOf(s.t.pte, a, p).Valid?
    ensures var f := PteOf(s.t.pte, a, p).frame; Owns(SlotOf(s.t.slots, f), a, p) <==> MayOwn(s.pc[a], f)
  {
  }

  /** At most one process is between its P and its V of either semaphore, and no P is lost. */
  lemma MutualExclusion(s: State, a: nat, b: nat)
    requires Inv(s) && a in s.pc && b in s.pc
    ensures HasPool(s.pc[a]) && HasPool(s.pc[b]) ==> a == b
    ensures HasDisk(s.pc[a]) && HasDisk(s.pc[b]) ==> a == b
    ensures WantsPool(s.pc[a]) ==> exists h | h in s.pc :: HasPool(s.pc[h])
    ensures WantsDisk(s.pc[a]) ==> exists h | h in s.pc :: HasDisk(s.pc[h])
  {
  }

  /* ------------------------------------------------ the disk */

  /** What one whole call of diskIO does. */
  function Transfer(op: Op, blocks: map<Block, Page>, mem: map<Buf, Page>): (map<Block, Page>, map<Buf, Page>) {
    if op.write then (blocks[Block(op.cyl, op.sector) := PageOf(mem, op.buf)], mem)
    else (blocks, mem[op.buf := BlockOf(blocks, op.cyl, op.sector)])
  }

  /** The call whose transfer the disk is about to end. */
  ghost predicate Transferring(s: State, a: nat, op: Op) {
    s.c.pages > 0 && a in s.pc && s.pc[a].Io? && s.pc[a].stage.Moving? && op == OpOf(s.c.pages, a, s.pc[a].why)
  }

  /**
   Concurrent calls of diskIO are as good as one after the other. The disk's blocks change only at the
   end of some call's transfer, and then as that call asked: no other call has moved the arm, or taken
   the buffer or the sector, since its seek.
   */
  lemma DiskLinear(s: State, e: Step)
    requires Inv(s) && Legal(s, e)
    ensures Do(s, e).dev.blocks != s.dev.blocks ==> e.DiskDone?
    ensures e.DiskDone? && s.dev.command.Seek? ==> Do(s, e).dev.blocks == s.dev.blocks && Do(s, e).mem == s.mem
    ensures e.DiskDone? && s.dev.command.Move? ==>
              exists a, op | Transferring(s, a, op) ::
                (Do(s, e).dev.blocks, Do(s, e).mem) == Transfer(op, s.dev.blocks, s.mem)
                && Do(s, e).pc[a] == Io(s.pc[a].why, Moved)
  {
    if e.DiskDone? {
      Served(s);
      var a := s.disk.holder;
      if s.dev.command.Move? {
        assert Transferring(s, a, OpOf(s.c.pages, a, s.pc[a].why));
      }
    } else {
      BlocksStay(s, e);
    }
  }

  lemma BlocksStay(s: State, e: Step)
    requires Legal(s, e) && !e.DiskDone?
    ensures Do(s, e).dev.blocks == s.dev.blocks
  {
    match e {
      case Run(b) => assert DoRun(s, b).dev.blocks == s.dev.blocks;
      case _ =>
    }
  }

  /** A call whose transfer has ended: whose it was, what it asked for, and what it moved if it wrote. */
  datatype Call = Call(a: nat, op: Op, data: Page)

  /** The call that the disk serves. */
  function CallOf(s: State): Call
    requires s.c.pages > 0 && At(s.pc, s.disk.holder).Io?
  {
    var op := OpOf(s.c.pages, s.disk.holder, At(s.pc, s.disk.holder).why);
    Call(s.disk.holder, op, PageOf(s.mem, op.buf))
  }

  /** The call whose transfer ends with this step, if there is one. */
  ghost function EndOf(s: State, e: Step): seq<Call> {
    if s.c.pages > 0 && e.DiskDone? && s.dev.command.Move? && At(s.pc, s.disk.holder).Io? then [CallOf(s)] else []
  }

  /** The calls of diskIO in a run, in the order in which their transfers end. */
  ghost function CallsOf(s: State, es: seq<Step>): seq<Call>
    requires LegalRun(s, es)
    decreases |es|
  {
    if es == [] then [] else EndOf(s, es[0]) + CallsOf(Do(s, es[0]), es[1..])
  }

  /** The disk after calls that are made one after the other. */
  function Serially(blocks: map<Block, Page>, calls: seq<Call>): map<Block, Page>
    decreases |calls|
  {
    if calls == [] then blocks
    else Serially(Transfer(calls[0].op, blocks, map[calls[0].op.buf := calls[0].data]).0, calls[1..])
  }

  lemma EndedCall(s: State, e: Step)
    requires Inv(s) && Legal(s, e)
    ensures Do(s, e).dev.blocks == Serially(s.dev.blocks, EndOf(s, e))
    ensures EndOf(s, e) != [] ==> Transferring(s, EndOf(s, e)[0].a, EndOf(s, e)[0].op)
    ensures e.DiskDone? && s.dev.command.Move? ==> EndOf(s, e) == [CallOf(s)]
  {
    hide ControlOk, DataOk, DoDisk, DoRun, CallOf, Serving, OpOf;
    if e.DiskDone? {
      Served(s);
      MoveEnded(s);
    } else {
      BlocksStay(s, e);
    }
  }

  lemma MoveEnded(s: State)
    requires s.c.pages > 0 && s.dev.command != Idle && At(s.pc, s.disk.holder).Io?
    requires var p := At(s.pc, s.disk.holder);
             && (s.dev.command.Move? <==> p.stage.Moving?)
             && Serving(s.dev, s.disk.holder, OpOf(s.c.pages, s.disk.holder, p.why), p.stage)
    ensures s.dev.command.Seek? ==> DoDisk(s).dev.blocks == s.dev.blocks
    ensures s.dev.command.Move? ==>
              && DoDisk(s).dev.blocks == Serially(s.dev.blocks, [CallOf(s)])
              && CallOf(s).a == s.disk.holder
              && CallOf(s).op == OpOf(s.c.pages, s.disk.holder, At(s.pc, s.disk.holder).why)
  {
    hide OpOf;
    assert [CallOf(s)][1..] == [];
  }

  /**
   In every run the disk is what the calls of diskIO, one after the other in the order in which their
   transfers end, make of it; and a call that reads gets what the calls before it have left there.
   */
  lemma {:induction false} DiskSerial(s: State, es: seq<Step>)
    requires Inv(s) && LegalRun(s, es)
    ensures var n, blocks := Ran(s, es), Serially(s.dev.blocks, CallsOf(s, es));
            && n.dev.blocks == blocks
            && (n.dev.command.Move? ==>
                  exists a, op | Transferring(n, a, op) ::
                    !op.write ==> PageOf(Do(n, DiskDone).mem, op.buf) == BlockOf(blocks, op.cyl, op.sector))
    decreases |es|
  {
    hide Inv, Do, EndOf, Transferring;
    if es == [] {
      TransferReads(s);
    } else {
      var n := Do(s, es[0]);
      StepInv(s, es[0]);
      EndedCall(s, es[0]);
      DiskSerial(n, es[1..]);
      EndAppend(s.dev.blocks, EndOf(s, es[0]), CallsOf(n, es[1..]));
    }
  }

  lemma TransferReads(s: State)
    requires Inv(s)
    ensures s.dev.command.Move? ==>
              exists a, op | Transferring(s, a, op) ::
                !op.write ==> PageOf(Do(s, DiskDone).mem, op.buf) == BlockOf(s.dev.blocks, op.cyl, op.sector)
  {
    if s.dev.command.Move? {
      DiskLinear(s, DiskDone);
      hide Inv, Do;
    }
  }

  lemma {:induction false} EndAppend(blocks: map<Block, Page>, done: seq<Call>, calls: seq<Call>)
    ensures Serially(blocks, done + calls) == Serially(Serially(blocks, done), calls)
    decreases |done|
  {
    if done == [] {
      assert done + calls == calls;
    } else {
      assert (done + calls)[1..] == done[1..] + calls;
      EndAppend(Transfer(done[0].op, blocks, map[done[0].op.buf := done[0].data]).0, done[1..], calls);
    }
  }

  /** A loaded program lies on the disk block by block: block i on cylinder i, in the process's own sector. */
  lemma TapeOnDisk(c: Config, es: seq<Step>, a: nat, i: nat)
    requires c.pages > 0 && c.frames > 0 && LegalRun(Start(c), es)
    requires var n := Ran(Start(c), es); a in n.pc && IsLoading(n.pc[a]) && i < Done(n.pc[a])
    ensures i < |TapeOf(c, a)| && BlockOf(Ran(Start(c), es).dev.blocks, i, a - 1) == TapeOf(c, a)[i]
  {
    hide Ran, LegalRun;
    StartInv(c);
    RunInv(Start(c), es);
    SameConfig(Start(c), es);
    var n := Ran(Start(c), es);
    assert LoadOk(n.c, a, n.pc[a], n.dev.blocks, n.mem, n.flat);
    assert StoreOf(n.dev.blocks, a, i) == TapeOf(c, a)[i];
  }

  lemma {:induction false} SameConfig(s: State, es: seq<Step>)
    requires LegalRun(s, es)
    ensures Ran(s, es).c == s.c
    decreases |es|
  {
    if es != [] {
      FlatStep(s, es[0], 0, 0, 0);
      SameConfig(Do(s, es[0]), es[1..]);
    }
  }

  /* ------------------------------------------------ what others do to a process */

  /** The process that takes the step, if it is one's. */
  function Actor(e: Step): nat {
    match e
    case Refill(a, _) => a
    case Store(a, _, _, _) => a
    case Fault(a, _, _) => a
    case Quit(a) => a
    case Run(a) => a
    case TapeDone(a) => a
    case _ => 0
  }

  lemma WokenPlace(pc: map<nat, Pc>, m: Sem, a: nat)
    ensures At(Woken(pc, m), a) == At(pc, a) || (a in Woken(pc, m) && At(Woken(pc, m), a) == Entered(At(pc, a)))
  {
  }

  /** Another's step leaves a process where it is, or lets it go on from where it waits. */
  lemma OthersMove(s: State, e: Step, a: nat)
    requires Legal(s, e) && a in s.pc && Actor(e) != a
    ensures var p, p' := s.pc[a], At(Do(s, e).pc, a); p' == p || p' == Entered(p) || p' == Continued(p)
  {
    hide Entered, Continued, Finished, Ousted, BroughtIn, Released, OpOf, SemP, Woken, Passes, NextFrame;
    match e {
      case Run(b) => OthersRun(s, b, a);
      case _ =>
    }
  }

  lemma OthersRun(s: State, b: nat, a: nat)
    requires s.c.pages > 0 && a in s.pc && b in s.pc && b != a
    ensures var p, p' := s.pc[a], At(DoRun(s, b).pc, a); p' == p || p' == Entered(p)
  {
    hide Entered, Ousted, BroughtIn, Released, OpOf, SemP, SemV, Woken, Passes, NextFrame;
    var n := DoRun(s, b);
    match s.pc[b] {
      case Io(why, Moved) => WokenPlace(s.pc[b := Returned(why)], s.disk, a);
      case Paging(_, false) => WokenPlace(s.pc[b := Failed], s.pool, a);
      case Installed => WokenPlace(s.pc[b := User], s.pool, a);
      case Cleared => WokenPlace(s.pc[b := Signing], s.pool, a);
      case _ =>
    }
  }

  /** A process runs only when its whole tape is on the disk. */
  lemma RunsWhenLoaded(s: State, e: Step, a: nat)
    requires Inv(s) && Legal(s, e) && a in s.pc && IsLoading(s.pc[a]) && !IsLoading(At(Do(s, e).pc, a))
    ensures e == Run(a) && s.pc[a] == Load(|TapeOf(s.c, a)|)
    ensures forall i | 0 <= i < |TapeOf(s.c, a)| :: BlockOf(s.dev.blocks, i, a - 1) == TapeOf(s.c, a)[i]
  {
    assert LoadOk(s.c, a, s.pc[a], s.dev.blocks, s.mem, s.flat);
    if Actor(e) != a {
      OthersMove(s, e, a);
    } else {
      LoadingActs(s, e, a);
    }
    forall i | 0 <= i < |TapeOf(s.c, a)| ensures BlockOf(s.dev.blocks, i, a - 1) == TapeOf(s.c, a)[i] {
      assert StoreOf(s.dev.blocks, a, i) == TapeOf(s.c, a)[i];
    }
  }

  lemma LoadingActs(s: State, e: Step, a: nat)
    requires Legal(s, e) && a in s.pc && IsLoading(s.pc[a]) && Actor(e) == a && a != 0
    ensures IsLoading(At(Do(s, e).pc, a)) || (e == Run(a) && s.pc[a].Load? && s.pc[a].i >= |TapeOf(s.c, a)|)
  {
    match s.pc[a] {
      case Io(why, Moved) => WokenPlace(s.pc[a := Returned(why)], s.disk, a);
      case _ =>
    }
  }

  /* ------------------------------------------------ replacement */

  /** The page is in frame f, whose turn to be replaced has not come. */
  ghost predicate Rests(s: State, a: nat, page: nat, p: nat, f: nat) {
    && a in s.pc && Resident(s.pc[a]) && SlotOf(s.t.slots, f) == Held(a, page, p)
    && PteOf(s.t.pte, a, p) == Valid(f) && ChosenFrame(At(s.pc, s.pool.holder)) != f
  }

  /** The process has begun to release its frames. */
  predicate Ended(p: Pc) {
    p.Clearing? || p.Cleared? || p.Signing? || p.Dead?
  }

  lemma FrameInRange(s: State)
    requires Inv(s)
    ensures 0 <= NextFrame(s.c.frames, s.t.frameNo) < s.c.frames
  {
  }

  lemma FrameRun(s: State, a: nat)
    requires s.c.pages > 0 && a in s.pc && NextFrame(s.c.frames, s.t.frameNo) >= 0
    ensures var n := DoRun(s, a);
            && n.c == s.c
            && if n.picks == s.picks then n.t.frameNo == s.t.frameNo
               else n.picks == s.picks + 1 && n.t.frameNo == NextFrame(s.c.frames, s.t.frameNo)
                    && s.pc[a].Paging? && ChosenFrame(n.pc[a]) == n.t.frameNo
  {
    hide NextFrame, Ousted, BroughtIn, Released;
    match s.pc[a] {
      case Picked(_, f) => OustedFrame(s.t, f);
      case Loaded(page, f) => BroughtFrame(s.t, s.c.pages, a, page, f);
      case Clearing(i) => ReleasedFrame(s.t, a, i);
      case _ =>
    }
  }

  lemma OustedFrame(t: Tables, f: nat)
    ensures Ousted(t, f).frameNo == t.frameNo
  {
  }

  lemma BroughtFrame(t: Tables, pages: nat, a: nat, page: nat, f: nat)
    requires pages > 0
    ensures BroughtIn(t, pages, a, page, f).frameNo == t.frameNo
  {
  }

  lemma ReleasedFrame(t: Tables, a: nat, i: nat)
    ensures Released(t, a, i).frameNo == t.frameNo
  {
  }

  /** getFrame goes round. */
  lemma FrameStep(s: State, e: Step)
    requires Legal(s, e) && Inv(s)
    ensures var n := Do(s, e);
            && n.c == s.c
            && if n.picks == s.picks then n.t.frameNo == s.t.frameNo
               else n.picks == s.picks + 1 && n.t.frameNo == NextFrame(s.c.frames, s.t.frameNo)
  {
    hide Inv, NextFrame, DoRun, Finished, SemP;
    FrameInRange(s);
    match e {
      case Run(a) => FrameRun(s, a);
      case _ =>
    }
  }

  lemma HolderOf(s: State, a: nat)
    requires Inv(s) && a in s.pc && HasPool(s.pc[a])
    ensures s.pool.holder == a && OnlyChooser(s.pc, a)
  {
    HolderChooses(s.pc, s.pool, a);
  }

  /** Which tables a step can change: those of the holder of swapPoolSem, at the frame it has chosen. */
  lemma TablesStep(s: State, e: Step, a: nat, page: nat, p: nat, f: nat)
    requires Inv(s) && Legal(s, e) && Rests(s, a, page, p, f)
    ensures var n := Do(s, e);
            SlotOf(n.t.slots, f) == Held(a, page, p) && PteOf(n.t.pte, a, p) == Valid(f)
  {
    if e.Run? {
      TablesRun(s, e.asid, a, page, p, f);
    } else {
      hide Inv, Finished, SemP;
    }
  }

  lemma TablesRun(s: State, b: nat, a: nat, page: nat, p: nat, f: nat)
    requires Inv(s) && b in s.pc && Rests(s, a, page, p, f)
    ensures var n := DoRun(s, b);
            SlotOf(n.t.slots, f) == Held(a, page, p) && PteOf(n.t.pte, a, p) == Valid(f)
  {
    hide ControlOk, DataOk, Ousted, BroughtIn, GivePool, TakePool, GiveDisk, TakeDisk;
    match s.pc[b] {
      case Picked(pg, g) => EvictElsewhere(s, b, pg, g, a, page, p, f);
      case Loaded(pg, g) => InstallElsewhere(s, b, pg, g, a, page, p, f);
      case Clearing(i) => ReleaseElsewhere(s.t, b, i, a, page, p, f);
      case Io(why, stage) => assert DoIo(s, b, why, stage).t == s.t by { IoTables(s, b, why, stage); }
      case Paging(_, good) => if !good { GiveTables(s, b, Failed); }
      case Installed => GiveTables(s, b, User);
      case Failed => TakeTables(s, b);
      case Cleared => GiveTables(s, b, Signing);
      case _ =>
    }
  }

  lemma GiveTables(s: State, b: nat, next: Pc)
    ensures GivePool(s, b, next).t == s.t
  {
  }

  lemma TakeTables(s: State, b: nat)
    ensures TakePool(s, b, Pc.Leaving).t == s.t
  {
  }

  lemma IoTables(s: State, b: nat, why: Why, stage: Stage)
    requires s.c.pages > 0
    ensures DoIo(s, b, why, stage).t == s.t
  {
  }

  lemma ReleaseElsewhere(t: Tables, b: nat, i: nat, a: nat, page: nat, p: nat, f: nat)
    requires SlotOf(t.slots, f) == Held(a, page, p) && a != b
    ensures SlotOf(Released(t, b, i).slots, f) == Held(a, page, p) && Released(t, b, i).pte == t.pte
  {
  }

  lemma EvictElsewhere(s: State, b: nat, pg: nat, g: nat, a: nat, page: nat, p: nat, f: nat)
    requires Inv(s) && b in s.pc && s.pc[b] == Picked(pg, g) && Rests(s, a, page, p, f)
    ensures var n := DoEvict(s, b, pg, g);
            SlotOf(n.t.slots, f) == Held(a, page, p) && PteOf(n.t.pte, a, p) == Valid(f)
  {
    HolderOf(s, b);
    if SlotOf(s.t.slots, g).Held? {
      assert PteOf(s.t.pte, s.t.slots[g].asid, s.t.slots[g].entry) == Valid(g);
    }
    hide ControlOk, DataOk;
  }

  lemma InstallElsewhere(s: State, b: nat, pg: nat, g: nat, a: nat, page: nat, p: nat, f: nat)
    requires Inv(s) && b in s.pc && s.pc[b] == Loaded(pg, g) && Rests(s, a, page, p, f)
    ensures var t := BroughtIn(s.t, s.c.pages, b, pg, g);
            SlotOf(t.slots, f) == Held(a, page, p) && PteOf(t.pte, a, p) == Valid(f)
  {
    HolderOf(s, b);
    assert PteOf(s.t.pte, b, Clamp(s.c.pages, MissingPage(s.pc[b]))) == Invalid;
    hide ControlOk, DataOk;
  }

  function Chosen(s: State): int {
    ChosenFrame(At(s.pc, s.pool.holder))
  }

  lemma ChosenStays(p: Pc)
    ensures ChosenFrame(Entered(p)) == ChosenFrame(p) && ChosenFrame(Continued(p)) == ChosenFrame(p)
  {
  }

  lemma ChosenTake(s: State, a: nat, want: Pc)
    requires Inv(s) && a in s.pc && WantsPool(want) && (s.pc[a].User? || s.pc[a].Failed?)
    ensures Chosen(TakePool(s, a, want)) == -1 || Chosen(TakePool(s, a, want)) == Chosen(s)
  {
    hide DataOk, DiskOk, DeviceOk, SemP;
    PoolTaken(s.pc, s.pool, a, want);
  }

  lemma ChosenGive(s: State, a: nat, next: Pc)
    requires Inv(s) && a in s.pc && HasPool(s.pc[a]) && !HasPool(next) && !WantsPool(next) && ChosenFrame(next) == -1
    ensures Chosen(GivePool(s, a, next)) == -1
  {
    PoolGiven(s.pc, s.pool, a, next);
    ChosenWoken(s.pc, s.pool, a, next);
    hide Inv, SemV;
  }

  lemma ChosenWoken(pc: map<nat, Pc>, m: Sem, a: nat, next: Pc)
    requires 0 !in pc && a in pc
    requires SemV(m).holder != 0 ==> SemV(m).holder in pc && SemV(m).holder != a && WantsPool(pc[SemV(m).holder])
    ensures ChosenFrame(At(Woken(pc[a := next], m), SemV(m).holder)) == -1
  {
    hide SemV;
  }

  /** A frame is chosen by a call of getFrame, and by nothing else. */
  lemma ChosenRun(s: State, a: nat)
    requires Inv(s) && a in s.pc
    ensures var n := DoRun(s, a); Chosen(n) == -1 || Chosen(n) == Chosen(s) || n.picks != s.picks
  {
    hide ControlOk, DataOk, Chosen, GivePool, TakePool, DoIo, DoEvict, SignOff, NextFrame, BroughtIn, Released;
    match s.pc[a] {
      case Paging(_, false) => ChosenGive(s, a, Failed);
      case Installed => ChosenGive(s, a, User);
      case Cleared => ChosenGive(s, a, Signing);
      case Failed => ChosenTake(s, a, Pc.Leaving);
      case _ => ChosenSameHolder(s, a);
    }
  }

  lemma HolderInside(s: State)
    requires Inv(s)
    ensures s.c.pages > 0 && (s.pool.holder in s.pc ==> HasPool(s.pc[s.pool.holder]))
  {
  }

  lemma ChosenSameHolder(s: State, a: nat)
    requires Inv(s) && a in s.pc && !s.pc[a].Installed? && !s.pc[a].Cleared? && !s.pc[a].Failed?
    requires s.pc[a].Paging? ==> s.pc[a].good
    ensures var n := DoRun(s, a); Chosen(n) == -1 || Chosen(n) == Chosen(s) || n.picks != s.picks
  {
    hide Inv, Entered, ChosenFrame, Ousted, BroughtIn, Released, NextFrame, OpOf, Woken, SemV, SemP, HasPool;
    HolderInside(s);
    var h, n := s.pool.holder, DoRun(s, a);
    assert n.pool == s.pool;
    if h !in s.pc {
      KeysRun(s, a);
      NobodyChooses();
    } else if h != a {
      OthersRun(s, a, h);
      ChosenStays(s.pc[h]);
    } else {
      ChosenOwn(s, a);
    }
  }

  lemma NobodyChooses()
    ensures ChosenFrame(Dead) == -1
  {
  }

  lemma ChosenOwn(s: State, a: nat)
    requires s.c.pages > 0 && a in s.pc && HasPool(s.pc[a]) && !s.pc[a].Installed? && !s.pc[a].Cleared?
    requires s.pc[a].Paging? ==> s.pc[a].good
    ensures var n := DoRun(s, a);
            n.pool == s.pool && (ChosenFrame(At(n.pc, a)) in {-1, ChosenFrame(s.pc[a])} || n.picks != s.picks)
  {
    hide Ousted, BroughtIn, Released, NextFrame, SemP;
    match s.pc[a] {
      case Io(why, Moved) =>
        WokenPlace(s.pc[a := Returned(why)], s.disk, a);
        ChosenStays(Returned(why));
      case _ =>
    }
  }

  lemma ChosenStep(s: State, e: Step)
    requires Inv(s) && Legal(s, e)
    ensures var n := Do(s, e); Chosen(n) == -1 || Chosen(n) == Chosen(s) || n.picks != s.picks
  {
    hide Inv, DoRun, DoDisk, TakePool, DoStore;
    match e {
      case Run(a) => ChosenRun(s, a);
      case Fault(a, page, good) => ChosenTake(s, a, Trapped(page, good));
      case Quit(a) => ChosenTake(s, a, Pc.Leaving);
      case Store(a, p, offset, value) => StoreStays(s, a, p, offset, value);
      case DiskDone => ChosenDisk(s);
      case _ =>
    }
  }

  lemma StoreStays(s: State, a: nat, p: nat, offset: nat, value: int)
    requires Vpn(a, p) in s.t.tlb
    ensures var n := DoStore(s, a, p, offset, value); n.pc == s.pc && n.pool == s.pool
  {
  }

  lemma ChosenDisk(s: State)
    requires Inv(s)
    ensures Chosen(DoDisk(s)) == -1 || Chosen(DoDisk(s)) == Chosen(s)
  {
    hide Inv, Finished, ChosenFrame, Continued;
    ChosenStays(At(s.pc, s.pool.holder));
  }

  /** A resident process stays resident, or ends. */
  lemma ResidentStep(s: State, e: Step, a: nat)
    requires Legal(s, e) && Inv(s) && a in s.pc && Resident(s.pc[a])
    ensures a in Do(s, e).pc && (Resident(Do(s, e).pc[a]) || Ended(Do(s, e).pc[a]))
  {
    hide ControlOk, DataOk, Do, Legal;
    KeysStep(s, e);
    if Actor(e) != a {
      OthersMove(s, e, a);
    } else {
      ZeroIsNobody(s);
      ResidentActs(s, e, a);
    }
  }

  lemma ResidentActs(s: State, e: Step, a: nat)
    requires Legal(s, e) && a in s.pc && Resident(s.pc[a]) && Actor(e) == a && a != 0
    ensures var p := At(Do(s, e).pc, a); Resident(p) || Ended(p)
  {
    hide Ousted, BroughtIn, Released, NextFrame, SemP, SemV;
    match s.pc[a] {
      case Io(why, Moved) => WokenPlace(s.pc[a := Returned(why)], s.disk, a);
      case Paging(_, false) => WokenPlace(s.pc[a := Failed], s.pool, a);
      case Installed => WokenPlace(s.pc[a := User], s.pool, a);
      case _ =>
    }
  }

  lemma KeysStep(s: State, e: Step)
    requires Inv(s) && Legal(s, e)
    ensures Do(s, e).pc.Keys == s.pc.Keys
  {
    hide ControlOk, DataOk, DoRun, SemP, Finished;
    match e {
      case Run(a) => KeysRun(s, a);
      case DiskDone => Served(s);
      case _ =>
    }
  }

  lemma WokenKeys(pc: map<nat, Pc>, m: Sem, a: nat, next: Pc)
    requires a in pc && (SemV(m).holder != 0 ==> SemV(m).holder in pc)
    ensures Woken(pc[a := next], m).Keys == pc.Keys
  {
    hide SemV;
  }

  lemma PoolKeys(s: State, a: nat, next: Pc)
    requires Inv(s) && a in s.pc && HasPool(s.pc[a]) && !HasPool(next) && !WantsPool(next)
    ensures GivePool(s, a, next).pc.Keys == s.pc.Keys
  {
    PoolGiven(s.pc, s.pool, a, next);
    WokenKeys(s.pc, s.pool, a, next);
  }

  lemma DiskKeys(s: State, a: nat, why: Why)
    requires Inv(s) && a in s.pc && s.pc[a] == Io(why, Moved)
    ensures GiveDisk(s, a, Returned(why)).pc.Keys == s.pc.Keys
  {
    DiskGiven(s.pc, s.disk, a, Returned(why));
    WokenKeys(s.pc, s.disk, a, Returned(why));
  }

  lemma KeysRun(s: State, a: nat)
    requires Inv(s) && a in s.pc
    ensures DoRun(s, a).pc.Keys == s.pc.Keys
  {
    hide ControlOk, DataOk, Woken, SemV, SemP, Ousted, BroughtIn, Released, NextFrame, OpOf;
    match s.pc[a] {
      case Io(why, Moved) => DiskKeys(s, a, why);
      case Paging(_, false) => PoolKeys(s, a, Failed);
      case Installed => PoolKeys(s, a, User);
      case Cleared => PoolKeys(s, a, Signing);
      case _ =>
    }
  }

  lemma EndedStep(s: State, e: Step, a: nat)
    requires Legal(s, e) && Inv(s) && a in s.pc && Ended(s.pc[a])
    ensures a in Do(s, e).pc && Ended(Do(s, e).pc[a])
  {
    hide ControlOk, DataOk, Do, Legal;
    KeysStep(s, e);
    if Actor(e) != a {
      OthersMove(s, e, a);
    } else {
      ZeroIsNobody(s);
      EndedActs(s, e, a);
    }
  }

  lemma ZeroIsNobody(s: State)
    requires Inv(s)
    ensures 0 !in s.pc
  {
  }

  lemma EndedActs(s: State, e: Step, a: nat)
    requires Legal(s, e) && a in s.pc && Ended(s.pc[a]) && Actor(e) == a && a != 0
    ensures Ended(At(Do(s, e).pc, a))
  {
    hide Released, SemV;
    if s.pc[a].Cleared? { WokenPlace(s.pc[a := Signing], s.pool, a); }
  }

  lemma {:induction false} EndedRun(s: State, es: seq<Step>, a: nat)
    requires Inv(s) && LegalRun(s, es) && a in s.pc && Ended(s.pc[a])
    ensures a in Ran(s, es).pc && Ended(Ran(s, es).pc[a])
    decreases |es|
  {
    hide Inv, Do, Legal, Ended;
    if es != [] {
      StepInv(s, es[0]);
      EndedStep(s, es[0], a);
      EndedRun(Do(s, es[0]), es[1..], a);
    }
  }

  /** Unless it is the frame's turn, or its owner ends, the page rests. */
  lemma RestStep(s: State, e: Step, a: nat, page: nat, p: nat, f: nat)
    requires Inv(s) && Legal(s, e) && Rests(s, a, page, p, f)
    ensures var n := Do(s, e);
            || Rests(n, a, page, p, f) || (a in n.pc && Ended(n.pc[a]))
            || (n.picks == s.picks + 1 && n.t.frameNo == f)
  {
    hide Do, Legal, Resident, Ended, ControlOk, TablesOk, ContentsOk, FetchedOk, LoadingOk, JoinOk;
    var n := Do(s, e);
    StepInv(s, e);
    TablesStep(s, e, a, page, p, f);
    ResidentStep(s, e, a);
    FrameStep(s, e);
    ChosenStep(s, e);
    ChosenIsNext(n);
  }

  lemma ChosenIsNext(s: State)
    requires Inv(s)
    ensures Chosen(s) == -1 || Chosen(s) == s.t.frameNo
  {
  }

  /** The frame that getFrame returns k calls after it has returned f; it takes frames calls to return to f. */
  function After(frames: nat, f: nat, k: nat): int {
    if f + k >= frames then f + k - frames else f + k
  }

  lemma {:induction false} FramesGoRound(s: State, es: seq<Step>, f: nat, k: nat)
    requires Inv(s) && LegalRun(s, es) && f < s.c.frames && s.t.frameNo == After(s.c.frames, f, k)
    requires k + (Ran(s, es).picks - s.picks) <= s.c.frames
    ensures Ran(s, es).picks >= s.picks
    ensures Ran(s, es).t.frameNo == After(s.c.frames, f, k + (Ran(s, es).picks - s.picks))
    decreases |es|
  {
    hide Inv, Do, Legal;
    if es != [] {
      FrameStep(s, es[0]);
      StepInv(s, es[0]);
      PicksGrow(Do(s, es[0]), es[1..]);
      FramesGoRound(Do(s, es[0]), es[1..], f, k + (Do(s, es[0]).picks - s.picks));
    }
  }

  lemma {:induction false} PicksGrow(s: State, es: seq<Step>)
    requires Inv(s) && LegalRun(s, es)
    ensures Ran(s, es).picks >= s.picks
    decreases |es|
  {
    hide Inv, Do, Legal;
    if es != [] {
      FrameStep(s, es[0]);
      StepInv(s, es[0]);
      PicksGrow(Do(s, es[0]), es[1..]);
    }
  }

  /**
   First in, first out. A page whose frame was chosen k calls of getFrame ago is still there, and valid,
   in every run with fewer than frames - k further calls: the next frames - 1 faults spare a page that
   has just come in. Only the end of its owner takes it away earlier.
   */
  lemma {:induction false} PageSurvives(s: State, es: seq<Step>, a: nat, page: nat, p: nat, f: nat, k: nat)
    requires Inv(s) && LegalRun(s, es) && Rests(s, a, page, p, f) && f < s.c.frames
    requires s.t.frameNo == After(s.c.frames, f, k) && k + (Ran(s, es).picks - s.picks) < s.c.frames
    ensures var n := Ran(s, es); Rests(n, a, page, p, f) || (a in n.pc && Ended(n.pc[a]))
    decreases |es|
  {
    hide Inv, Do, Legal, Rests, Ended;
    if es != [] {
      var n := Do(s, es[0]);
      FrameStep(s, es[0]);
      StepInv(s, es[0]);
      PicksGrow(n, es[1..]);
      RestStep(s, es[0], a, page, p, f);
      if Rests(n, a, page, p, f) {
        PageSurvives(n, es[1..], a, page, p, f, k + (n.picks - s.picks));
      } else {
        EndedRun(n, es[1..], a);
      }
    }
  }

  /** A page that has just come in rests, and its frame is the one chosen last. */
  lemma InstalledRests(s: State, a: nat, page: nat, f: nat)
    requires Inv(s) && a in s.pc && s.pc[a] == Loaded(page, f)
    ensures var n := Do(s, Run(a));
            Rests(n, a, page, Clamp(s.c.pages, page), f) && n.t.frameNo == After(s.c.frames, f, 0) && f < s.c.frames
  {
    hide ControlOk, DataOk;
    HolderOf(s, a);
    ChosenInRange(s, a);
  }

  lemma ChosenInRange(s: State, a: nat)
    requires Inv(s) && a in s.pc && ChosenFrame(s.pc[a]) >= 0
    ensures ChosenFrame(s.pc[a]) == s.t.frameNo && s.t.frameNo < s.c.frames
  {
  }

  /* ------------------------------------------------ the join */

  /** The first process ends only when all others have, and then they own no frame any more. */
  lemma JoinSafe(c: Config, es: seq<Step>)
    requires c.pages > 0 && c.frames > 0 && LegalRun(Start(c), es) && Ran(Start(c), es).root.Gone?
    ensures var n := Ran(Start(c), es);
            && (forall a | a in n.pc :: n.pc[a].Dead?)
            && (forall f | f in n.t.slots :: n.t.slots[f].Empty?)
  {
    hide Ran, LegalRun;
    StartInv(c);
    RunInv(Start(c), es);
    AllDead(Ran(Start(c), es));
  }

  lemma AllDead(s: State)
    requires Inv(s) && s.root.Gone?
    ensures forall a | a in s.pc :: s.pc[a].Dead?
    ensures forall f | f in s.t.slots :: s.t.slots[f].Empty?
  {
    forall a | a in s.pc ensures s.pc[a].Dead? {
      assert a in Signed(s.pc);
    }
  }

  /** A process that is about to sign off, or has done so, owns no frame. */
  lemma SignedOwnsNothing(s: State, a: nat, f: nat)
    requires Inv(s) && a in s.pc && (s.pc[a].Cleared? || s.pc[a].Signing? || s.pc[a].Dead?)
    ensures SlotOf(s.t.slots, f).Held? ==> SlotOf(s.t.slots, f).asid != a
  {
  }

  /* ------------------------------------------------ no deadlock */

  /** The system itself, a device or the first process can take a step that gets somewhere. */
  ghost predicate Advances(s: State, e: Step) {
    (e.Run? || e.TapeDone? || e.DiskDone? || e.RootStep?) && Legal(s, e) && Do(s, e) != s
  }

  /** In these places a process waits for somebody, or is on its own. */
  predicate Waiting(p: Pc) {
    p.Tape? || p.User? || p.Trapped? || p.Leaving? || p.Dead?
    || (p.Io? && (p.stage.Queued? || p.stage.Seeking? || p.stage.Moving?))
  }

  lemma PagesPositive(s: State)
    requires Inv(s)
    ensures s.c.pages > 0 && 0 !in s.pc
  {
  }

  lemma NextPlace(pc: map<nat, Pc>, m: Sem, a: nat, next: Pc)
    requires a in pc && SemV(m).holder != a
    ensures At(Woken(pc[a := next], m), a) == next
  {
    hide SemV;
  }

  lemma NotWokenPool(s: State, a: nat)
    requires Inv(s) && a in s.pc && HasPool(s.pc[a])
    ensures SemV(s.pool).holder != a
  {
    PoolGiven(s.pc, s.pool, a, User);
    PagesPositive(s);
  }

  lemma NotWokenDisk(s: State, a: nat)
    requires Inv(s) && a in s.pc && HasDisk(s.pc[a])
    ensures SemV(s.disk).holder != a
  {
    DiskGiven(s.pc, s.disk, a, User);
    PagesPositive(s);
  }

  lemma BusyMoves(s: State, a: nat)
    requires Inv(s) && a in s.pc && !Waiting(s.pc[a])
    ensures s.c.pages > 0 && At(DoRun(s, a).pc, a) != s.pc[a]
  {
    hide Inv, Ousted, BroughtIn, Released, SemP, SemV, OpOf, Woken;
    PagesPositive(s);
    FrameInRange(s);
    match s.pc[a] {
      case Io(why, Moved) => NotWokenDisk(s, a); NextPlace(s.pc, s.disk, a, Returned(why));
      case Paging(_, false) => NotWokenPool(s, a); NextPlace(s.pc, s.pool, a, Failed);
      case Installed => NotWokenPool(s, a); NextPlace(s.pc, s.pool, a, User);
      case Cleared => NotWokenPool(s, a); NextPlace(s.pc, s.pool, a, Signing);
      case _ =>
    }
  }

  lemma BusyAdvances(s: State, a: nat)
    requires Inv(s) && a in s.pc && !Waiting(s.pc[a])
    ensures Advances(s, Run(a))
  {
    hide Inv, DoRun;
    BusyMoves(s, a);
  }

  lemma TapeAdvances(s: State, a: nat)
    requires Inv(s) && a in s.pc && s.pc[a].Tape?
    ensures Advances(s, TapeDone(a))
  {
    hide TablesOk, ContentsOk, FetchedOk, JoinOk, ControlOk, Copied, Unwritten;
    assert LoadOk(s.c, a, s.pc[a], s.dev.blocks, s.mem, s.flat);
    assert Do(s, TapeDone(a)).pc[a] != s.pc[a];
  }

  /** Whoever has the disk gets on with it. */
  lemma DiskAdvances(s: State, a: nat)
    requires Inv(s) && a in s.pc && HasDisk(s.pc[a])
    ensures exists e :: Advances(s, e)
  {
    if s.pc[a].stage.Seeking? || s.pc[a].stage.Moving? {
      DiskBusy(s, a);
      assert Advances(s, DiskDone);
    } else {
      BusyAdvances(s, a);
    }
  }

  lemma DiskBusy(s: State, a: nat)
    requires Inv(s) && a in s.pc && HasDisk(s.pc[a]) && (s.pc[a].stage.Seeking? || s.pc[a].stage.Moving?)
    ensures Legal(s, DiskDone) && Do(s, DiskDone) != s
  {
    hide TablesOk, ContentsOk, FetchedOk, LoadingOk, JoinOk;
    assert s.disk.holder == a && s.dev.waiter == a;
    assert Do(s, DiskDone).pc[a] == Continued(s.pc[a]);
  }

  lemma IoWaits(s: State, a: nat)
    requires Inv(s) && a in s.pc && s.pc[a].Io?
    ensures exists e :: Advances(s, e)
  {
    hide Inv, Advances;
    if HasDisk(s.pc[a]) {
      DiskAdvances(s, a);
    } else if WantsDisk(s.pc[a]) {
      MutualExclusion(s, a, a);
      var h :| h in s.pc && HasDisk(s.pc[h]);
      DiskAdvances(s, h);
    } else {
      BusyAdvances(s, a);
    }
  }

  lemma PlaceAdvances(s: State, a: nat)
    requires Inv(s) && a in s.pc && !s.pc[a].User? && !s.pc[a].Dead?
    ensures exists e :: Advances(s, e)
  {
    hide Inv, Advances;
    if s.pc[a].Io? {
      IoWaits(s, a);
    } else if s.pc[a].Tape? {
      TapeAdvances(s, a);
    } else if WantsPool(s.pc[a]) {
      MutualExclusion(s, a, a);
      var h :| h in s.pc && HasPool(s.pc[h]);
      if s.pc[h].Io? { IoWaits(s, h); } else { BusyAdvances(s, h); }
    } else {
      BusyAdvances(s, a);
    }
  }

  lemma RootAdvances(s: State)
    requires Inv(s) && !s.root.Gone? && forall a | a in s.pc :: s.pc[a].Dead?
    ensures Advances(s, RootStep)
  {
    hide ControlOk, TablesOk, ContentsOk, FetchedOk, LoadingOk;
    assert Signed(s.pc) == s.pc.Keys && |s.pc| == |s.pc.Keys|;
  }

  /**
   The pager never deadlocks: as long as the first process has not ended, some process runs on its own,
   or some step of the system or of a device is due that changes something.
   */
  lemma NoDeadlock(s: State)
    requires Inv(s) && !s.root.Gone?
    ensures (exists a | a in s.pc :: s.pc[a].User?) || (exists e :: Advances(s, e))
  {
    hide Inv, Advances;
    if a :| a in s.pc && !s.pc[a].User? && !s.pc[a].Dead? {
      PlaceAdvances(s, a);
    } else if forall a | a in s.pc :: s.pc[a].Dead? {
      RootAdvances(s);
    }
  }
}
