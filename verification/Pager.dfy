/**
 The pager and its user processes on the objects that they share: the frame table and page tables with
 their pointers, two semaphores, the disk and memory. Every step does to the objects what it does to the
 state machine.
 */
module PagerCode {
  import opened Paging
  import opened PagingInv
  import opened PagingSteps
  import opened PagingRuns
  import opened VmTables
  import opened Seqs

  /** A semaphore of the nucleus, seen from the processes: its value, and the asids of those who wait. */
  class Semaphore {
    var value: int
    var queue: seq<nat>
    ghost var holder: nat

    constructor ()
      ensures Seen() == Sem(1, [], 0)
    {
      value, queue, holder := 1, [], 0;
    }

    ghost function Seen(): Sem
      reads this
    {
      Sem(value, queue, holder)
    }

    /** PASSEREN; false if a has to wait. */
    method P(a: nat) returns (through: bool)
      modifies this
      ensures Seen() == SemP(old(Seen()), a) && through == Passes(old(Seen()))
    {
      value := value - 1;
      through := value >= 0;
      if through {
        holder := a;
      } else {
        queue := queue + [a];
      }
    }

    /** VERHOGEN; the result is who need not wait any longer, if there is anybody. */
    method V() returns (next: nat)
      modifies this
      ensures Seen() == SemV(old(Seen())) && next == Seen().holder
    {
      value := value + 1;
      next := 0;
      if value <= 0 && queue != [] {
        next := queue[0];
        queue := queue[1..];
      }
      holder := next;
    }
  }

  class Pager {
    const c: Config
    const vm: Vm
    const pool: Semaphore
    const disk: Semaphore
    var pc: map<nat, Pc>
    var dev: Device
    var mem: map<Buf, Page>
    var master: int
    var root: Root
    ghost var s: State

    /** test: the tables, two semaphores that are free, and every process before its tape. */
    constructor (c: Config, swapPool: seq<Swap>, uProcs: seq<seq<Entry>>)
      requires c.pages > 0 && c.frames == |swapPool| > 0 && c.users == |uProcs| && Distinct(swapPool)
      requires forall a | 0 <= a < |uProcs| :: |uProcs[a]| == c.pages
      requires forall a, p, b, q | 0 <= a < |uProcs| && 0 <= p < c.pages && 0 <= b < |uProcs| && 0 <= q < c.pages
                                   && uProcs[a][p] == uProcs[b][q] :: a == b && p == q
      modifies swapPool, set a, p | 0 <= a < |uProcs| && 0 <= p < |uProcs[a]| :: uProcs[a][p]
      ensures Represents() && s == Start(c) && Inv(s)
    {
      hide Vm.Models, Inv;
      StartInv(c);
      var tables := new Vm(swapPool, uProcs, c.pages);
      assert forall e | e in tables.Entries() :: allocated(e);
      var m := new Semaphore();
      var d := new Semaphore();
      this.c, vm, pool, disk := c, tables, m, d;
      pc, dev, mem, master, root := Unloaded(c.users), Device(0, Idle, 0, c.disk), map[], 0, Joining(0);
      s := Start(c);
    }

    /** The scalars, the semaphores and the places of the processes are those of n. */
    ghost predicate Cells(n: State)
      reads this, pool, disk
    {
      && n.c == c && n.pc == pc && n.pool == pool.Seen() && n.disk == disk.Seen()
      && n.dev == dev && n.mem == mem && n.master == master && n.root == root
    }

    /** There are as many frames, entries and tables as there should be, and everybody has a table. */
    ghost predicate Sized()
      reads this
    {
      && pool != disk
      && c.frames == |vm.swapPool| && c.pages == vm.pages && vm.pages > 0
      && forall a | a in pc :: 1 <= a <= |vm.uProcs|
    }

    ghost predicate Represents()
      reads this, pool, disk, vm, vm.swapPool, vm.Entries()
    {
      Cells(s) && Sized() && vm.Models(s.t)
    }

    ghost function Frame(): set<object> {
      {this, pool, disk, vm} + (set x | x in vm.swapPool) + vm.Entries()
    }

    ghost method Record(n: State)
      requires Cells(n) && Sized() && vm.Models(n.t)
      modifies this`s
      ensures Represents() && s == n
    {
      s := n;
    }

    /* ------------------------------------------------ the semaphores */

    /** P on swapPoolSem, on the way to the place that follows want. */
    method TakePool(a: nat, want: Pc)
      requires Represents() && Inv(s) && a in pc
      modifies this`pc, this`s, pool
      ensures Represents() && s == Paging.TakePool(old(s), a, want)
    {
      hide vm.Models, SemP, Inv;
      assert forall e | e in vm.Entries() :: allocated(e);
      var through := pool.P(a);
      pc := pc[a := if through then Entered(want) else want];
      Record(Paging.TakePool(s, a, want));
    }

    /** V on swapPoolSem, on the way to next. */
    method GivePool(a: nat, next: Pc)
      requires Represents() && Inv(s) && a in pc && HasPool(pc[a]) && !HasPool(next) && !WantsPool(next)
      modifies this`pc, this`s, pool
      ensures Represents() && s == Paging.GivePool(old(s), a, next)
    {
      hide vm.Models, SemV, Inv, ControlOk, DataOk, HasPool, WantsPool;
      PoolKeys(s, a, next);
      assert forall e | e in vm.Entries() :: allocated(e);
      pc := pc[a := next];
      var woken := pool.V();
      if woken != 0 {
        pc := pc[woken := Entered(At(pc, woken))];
      }
      Record(Paging.GivePool(s, a, next));
    }

    method TakeDisk(a: nat, why: Why)
      requires Represents() && Inv(s) && a in pc
      modifies this`pc, this`s, disk
      ensures Represents() && s == Paging.TakeDisk(old(s), a, why)
    {
      hide vm.Models, SemP, Inv;
      assert forall e | e in vm.Entries() :: allocated(e);
      var through := disk.P(a);
      pc := pc[a := if through then Io(why, Granted) else Io(why, Queued)];
      Record(Paging.TakeDisk(s, a, why));
    }

    method GiveDisk(a: nat, why: Why)
      requires Represents() && Inv(s) && a in pc && pc[a] == Io(why, Moved)
      modifies this`pc, this`s, disk
      ensures Represents() && s == Paging.GiveDisk(old(s), a, Returned(why))
    {
      hide vm.Models, SemV, Inv, Returned;
      DiskKeys(s, a, why);
      assert forall e | e in vm.Entries() :: allocated(e);
      pc := pc[a := Returned(why)];
      var woken := disk.V();
      if woken != 0 {
        pc := pc[woken := Entered(At(pc, woken))];
      }
      Record(Paging.GiveDisk(s, a, Returned(why)));
    }

    /* ------------------------------------------------ the pager */

    /** getFrame. */
    method Pick(a: nat, page: nat)
      requires Represents() && Inv(s) && a in pc && pc[a] == Pc.Paging(page, true)
      modifies this`pc, this`s, vm`frameNo
      ensures Represents() && s == DoPick(old(s), a, page)
    {
      hide vm.Models, Inv, NextFrame;
      FrameInRange(s);
      FrameNumber();
      var f := vm.GetFrame(s.t);
      assert forall e | e in vm.Entries() :: allocated(e);
      pc := pc[a := Picked(page, f)];
      Record(DoPick(s, a, page));
    }

    lemma FrameNumber()
      requires Represents() && Inv(s)
      ensures 0 <= vm.frameNo < |vm.swapPool| && vm.frameNo == s.t.frameNo
    {
      hide ControlOk, ContentsOk, FetchedOk, LoadingOk, JoinOk;
    }

    /** The frame is empty, or its page becomes invalid and has to be written first. */
    method Evict(a: nat, page: nat, f: nat)
      requires Represents() && Inv(s) && a in pc && pc[a] == Picked(page, f)
      modifies this`pc, this`s, vm`tlb, vm.Entries()
      ensures Represents() && s == DoEvict(old(s), a, page, f)
    {
      hide vm.Models, Inv, Ousted;
      SlotSeen(a, f);
      if vm.swapPool[f].asid == -1 {
        pc := pc[a := Io(Fetching(page, f), Calling)];
      } else {
        var victim, out := vm.Oust(f, s.t);
        pc := pc[a := Io(Evicting(page, f, victim, out), Calling)];
      }
      Record(DoEvict(s, a, page, f));
    }

    lemma SlotSeen(a: nat, f: nat)
      requires Represents() && Inv(s) && a in pc && ChosenFrame(pc[a]) == f
      ensures f < |vm.swapPool| && (vm.swapPool[f].asid == -1 <==> SlotOf(s.t.slots, f).Empty?)
    {
      ChosenInRange(s, a);
      hide Inv;
    }

    /** The page that has been read becomes valid. */
    method Install(a: nat, page: nat, f: nat)
      requires Represents() && Inv(s) && a in pc && pc[a] == Loaded(page, f)
      modifies this`pc, this`s, vm`tlb, vm.swapPool, vm.Entries()
      ensures Represents() && s == DoRun(old(s), a)
    {
      hide vm.Models, Inv, BroughtIn;
      SlotSeen(a, f);
      vm.BringIn(a, page, f, s.t);
      pc := pc[a := Installed];
      Record(DoRun(s, a));
    }

    /** One round of the loop in terminateUserProc, or its end. */
    method Clear(a: nat, i: nat)
      requires Represents() && Inv(s) && a in pc && pc[a] == Clearing(i)
      modifies this`pc, this`s, vm`tlb, vm.swapPool
      ensures Represents() && s == DoRun(old(s), a)
    {
      hide vm.Models, Inv, Released;
      assert forall e | e in vm.Entries() :: allocated(e);
      if i < |vm.swapPool| {
        vm.ReleaseOne(a, i, s.t);
        pc := pc[a := Clearing(i + 1)];
      } else {
        vm.Cache(map[], s.t);
        pc := pc[a := Cleared];
      }
      Record(DoRun(s, a));
    }

    /* ------------------------------------------------ the disk and the tapes */

    /** diskIO, as far as it goes without waiting. */
    method CallDisk(a: nat, why: Why, stage: Stage)
      requires Represents() && Inv(s) && a in pc && pc[a] == Io(why, stage)
      modifies this`pc, this`dev, this`s, disk
      ensures Represents() && s == DoIo(old(s), a, why, stage)
    {
      hide vm.Models, Inv, OpOf, Paging.TakeDisk, Paging.GiveDisk;
      PagesPositive(s);
      assert forall e | e in vm.Entries() :: allocated(e);
      var op := OpOf(c.pages, a, why);
      match stage {
        case Calling => TakeDisk(a, why);
        case Granted =>
          dev, pc := dev.(command := Seek(op.cyl), waiter := a), pc[a := Io(why, Seeking)];
          Record(DoIo(s, a, why, stage));
        case Sought =>
          dev, pc := dev.(command := Move(op.sector, op.buf, op.write), waiter := a), pc[a := Io(why, Moving)];
          Record(DoIo(s, a, why, stage));
        case Moved => GiveDisk(a, why);
        case _ =>
      }
    }

    /** The disk's interrupt: its caller goes on. */
    method DiskInterrupt()
      requires Represents() && Inv(s) && dev.command != Idle
      modifies this`pc, this`dev, this`mem, this`s
      ensures Represents() && s == DoDisk(old(s))
    {
      hide vm.Models, ControlOk, DataOk, Serving, OpOf, Finished, Continued;
      Served(s);
      assert forall e | e in vm.Entries() :: allocated(e);
      pc := pc[dev.waiter := Continued(At(pc, dev.waiter))];
      var (d, m) := Finished(dev, mem);
      dev, mem := d, m;
      Record(DoDisk(s));
    }

    /** The next block of the tape is in memory. */
    method TapeInterrupt(a: nat)
      requires Represents() && Inv(s) && Legal(s, TapeDone(a))
      modifies this`pc, this`mem, this`s
      ensures Represents() && s == Do(old(s), TapeDone(a))
    {
      hide vm.Models, ControlOk, DataOk;
      assert forall e | e in vm.Entries() :: allocated(e);
      mem, pc := mem[TapeBuf(a) := TapeOf(c, a)[pc[a].i]], pc[a := Io(Loading(pc[a].i), Calling)];
      Record(Do(s, TapeDone(a)));
    }

    /* ------------------------------------------------ the processes */

    /** tapeToDisk asks for the next block, if there is one. */
    method LoadOn(a: nat, i: nat)
      requires Represents() && Inv(s) && a in pc && pc[a] == Load(i)
      modifies this`pc, this`s
      ensures Represents() && s == DoRun(old(s), a)
    {
      hide vm.Models, ControlOk, DataOk;
      assert forall e | e in vm.Entries() :: allocated(e);
      pc := pc[a := if i < |TapeOf(c, a)| then Tape(i) else User];
      Record(DoRun(s, a));
    }

    /** V on masterSem. */
    method Sign(a: nat)
      requires Represents() && Inv(s) && a in pc && pc[a].Signing?
      modifies this`pc, this`master, this`root, this`s
      ensures Represents() && s == SignOff(old(s), a)
    {
      hide vm.Models, ControlOk, DataOk;
      assert forall e | e in vm.Entries() :: allocated(e);
      master := master + 1;
      pc := pc[a := Dead];
      if master <= 0 && root.Blocked? {
        root := Joining(root.k + 1);
      }
      Record(SignOff(s, a));
    }

    /** The first process, in the loop of P's on masterSem. */
    method Join()
      requires Represents() && Inv(s)
      modifies this`master, this`root, this`s
      ensures Represents() && s == DoRoot(old(s))
    {
      hide vm.Models, ControlOk, DataOk;
      assert forall e | e in vm.Entries() :: allocated(e);
      match root {
        case Joining(k) =>
          if k == c.users {
            root := Gone;
          } else {
            master := master - 1;
            root := if master < 0 then Blocked(k) else Joining(k + 1);
          }
        case _ =>
      }
      Record(DoRoot(s));
    }

    /** The processor looks a translation up in the page table. */
    method Translate(a: nat, p: nat)
      requires Represents() && Inv(s) && Legal(s, Refill(a, p))
      modifies this`s, vm`tlb
      ensures Represents() && s == Do(old(s), Refill(a, p))
    {
      hide ControlOk, DataOk;
      EntrySeen(a, p);
      var f := vm.uProcs[a - 1][p].lo.frame;
      hide vm.Models;
      vm.Cache(vm.tlb[Vpn(a, p) := f], s.t);
      Record(Do(s, Refill(a, p)));
    }

    lemma EntrySeen(a: nat, p: nat)
      requires Represents() && PteOf(s.t.pte, a, p).Valid?
      ensures 1 <= a <= |vm.uProcs| && p < |vm.uProcs[a - 1]| && vm.uProcs[a - 1][p].lo == PteOf(s.t.pte, a, p)
      ensures vm.tlb == s.t.tlb
    {
    }

    /** It may lose one at any time. */
    method Lose(v: Vpn)
      requires Represents() && Inv(s) && Legal(s, Forget(v))
      modifies this`s, vm`tlb
      ensures Represents() && s == Do(old(s), Forget(v))
    {
      hide ControlOk, DataOk;
      vm.Cache(vm.tlb - {v}, s.t);
      Record(Do(s, Forget(v)));
    }

    /** A store, through a translation. */
    method Write(a: nat, p: nat, offset: nat, value: int)
      requires Represents() && Inv(s) && Legal(s, Store(a, p, offset, value))
      modifies this`mem, this`s
      ensures Represents() && s == DoStore(old(s), a, p, offset, value)
    {
      hide ControlOk, DataOk, FlatOf;
      assert forall e | e in vm.Entries() :: allocated(e);
      var b := Buf.Frame(vm.tlb[Vpn(a, p)]);
      mem := mem[b := PageOf(mem, b)[offset := value]];
      Record(DoStore(s, a, p, offset, value));
    }

    /* ------------------------------------------------ the whole of it */

    /** What a process does next by itself. */
    method RunOn(a: nat)
      requires Represents() && Inv(s) && a in pc
      modifies Frame()
      ensures Represents() && s == DoRun(old(s), a)
    {
      hide vm.Models, ControlOk, DataOk, Paging.TakePool, Paging.GivePool, DoPick, DoEvict, DoIo, SignOff;
      hide BroughtIn, Released;
      match pc[a] {
        case Load(i) => LoadOn(a, i);
        case Io(why, stage) => CallDisk(a, why, stage);
        case Paging(page, good) => if good { Pick(a, page); } else { GivePool(a, Failed); }
        case Picked(page, f) => Evict(a, page, f);
        case Loaded(page, f) => Install(a, page, f);
        case Installed => GivePool(a, User);
        case Failed => TakePool(a, Pc.Leaving);
        case Clearing(i) => Clear(a, i);
        case Cleared => GivePool(a, Signing);
        case Signing => Sign(a);
        case _ =>
      }
    }

    /** Every step, on the objects. */
    method Handle(e: Step)
      requires Represents() && Inv(s) && Legal(s, e)
      modifies Frame()
      ensures Represents() && s == Do(old(s), e) && Inv(s)
    {
      hide vm.Models, ControlOk, DataOk, DoRun, DoDisk, DoStore, DoRoot, Paging.TakePool;
      StepInv(s, e);
      match e {
        case Refill(a, p) => Translate(a, p);
        case Forget(v) => Lose(v);
        case Store(a, p, offset, value) => Write(a, p, offset, value);
        case Fault(a, page, good) => TakePool(a, Trapped(page, good));
        case Quit(a) => TakePool(a, Pc.Leaving);
        case Run(a) => RunOn(a);
        case TapeDone(a) => TapeInterrupt(a);
        case DiskDone => DiskInterrupt();
        case RootStep => Join();
      }
    }
  }
}
