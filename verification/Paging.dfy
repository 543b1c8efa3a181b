/**
 The pager and its backing store as a state machine: user processes fault, the pager moves pages
 between frames and disk blocks, and everything else goes on in between. A region in which
 interrupts are off is one step; so is each P, each V and each command to a device.
 */
module Paging {

  /** What a page holds, word by word. */
  type Page = map<nat, int>

  /** The page number of the stack, whose table entry is the last one. */
  const STACK_PAGE: nat := 0x3FFFF

  /**
   users processes with asids from 1, frames frames in the swap pool, pages entries in each page
   table. tapes holds each process's program, and disk what the disk held before.
   */
  datatype Config = Config(users: nat, frames: nat, pages: nat, tapes: map<nat, seq<Page>>, disk: map<Block, Page>)

  datatype Vpn = Vpn(asid: nat, page: nat)
  datatype Block = Block(cyl: nat, sector: int)
  datatype Pte = Invalid | Valid(frame: nat)

  /** An entry of the swap pool. entry is where sp_pteEntry points in the page table of asid. */
  datatype Slot = Empty | Held(asid: nat, page: nat, entry: nat)

  /** Memory that a device reads or writes. */
  datatype Buf = Frame(f: nat) | TapeBuf(asid: nat)

  /** holder is history: who is between its P and its V; 0 is nobody. */
  datatype Sem = Sem(value: int, queue: seq<nat>, holder: nat)

  datatype Command = Idle | Seek(cyl: nat) | Move(sector: int, buf: Buf, write: bool)

  /** waiter has called WAITIO for the disk. */
  datatype Device = Device(arm: nat, command: Command, waiter: nat, blocks: map<Block, Page>)

  /** Why diskIO is called. */
  datatype Why = Loading(i: nat) | Evicting(page: nat, f: nat, victim: nat, out: nat) | Fetching(page: nat, f: nat)

  /** How far diskIO is; Queued waits for the disk's semaphore, Seeking and Moving for its interrupt. */
  datatype Stage = Calling | Queued | Granted | Seeking | Sought | Moving | Moved

  /** Where a user process is. page is the page number of the fault, before it is cut to the table's size. */
  datatype Pc =
    | Load(i: nat)
    | Tape(i: nat)
    | Io(why: Why, stage: Stage)
    | User
    | Trapped(page: nat, good: bool)
    | Paging(page: nat, good: bool)
    | Picked(page: nat, f: nat)
    | Loaded(page: nat, f: nat)
    | Installed
    | Failed
    | Leaving
    | Clearing(i: nat)
    | Cleared
    | Signing
    | Dead

  /** The page tables, the frame table, the translations cached by the processor. */
  datatype Tables = Tables(slots: map<nat, Slot>, pte: map<Vpn, Pte>, tlb: map<Vpn, nat>, frameNo: int)

  /** The first process: k of its P's on masterSem are done. */
  datatype Root = Joining(k: nat) | Blocked(k: nat) | Gone

  /** flat and picks are history: what the processes have stored, and the number of getFrame calls. */
  datatype State = State(
    c: Config, pc: map<nat, Pc>, pool: Sem, disk: Sem, t: Tables, dev: Device, mem: map<Buf, Page>,
    master: int, root: Root, flat: map<Vpn, Page>, picks: nat)

  datatype Step =
    | Refill(asid: nat, page: nat)
    | Forget(v: Vpn)
    | Store(asid: nat, page: nat, offset: nat, value: int)
    | Fault(asid: nat, page: nat, good: bool)
    | Quit(asid: nat)
    | Run(asid: nat)
    | TapeDone(asid: nat)
    | DiskDone
    | RootStep

  /* ------------------------------------------------ reading the state */

  function At(pc: map<nat, Pc>, a: nat): Pc {
    if a in pc then pc[a] else Dead
  }

  function PteOf(pte: map<Vpn, Pte>, a: nat, p: nat): Pte {
    if Vpn(a, p) in pte then pte[Vpn(a, p)] else Invalid
  }

  function SlotOf(slots: map<nat, Slot>, f: nat): Slot {
    if f in slots then slots[f] else Empty
  }

  function PageOf(mem: map<Buf, Page>, b: Buf): Page {
    if b in mem then mem[b] else map[]
  }

  function BlockOf(blocks: map<Block, Page>, cyl: nat, sector: int): Page {
    if Block(cyl, sector) in blocks then blocks[Block(cyl, sector)] else map[]
  }

  /** The block that page p of process a has on the disk: cylinder p, sector a - 1. */
  function StoreOf(blocks: map<Block, Page>, a: nat, p: nat): Page {
    BlockOf(blocks, p, a - 1)
  }

  function Word(page: Page, offset: nat): int {
    if offset in page then page[offset] else 0
  }

  function TapeOf(c: Config, a: nat): seq<Page> {
    if a in c.tapes then c.tapes[a] else []
  }

  /** The table entry for a page number: pages past the table share its last entry. */
  function Clamp(pages: nat, page: nat): (p: nat)
    requires pages > 0
    ensures p < pages
  {
    if page >= pages then pages - 1 else page
  }

  /** The pages that a process has: those the table is large enough for, but for the last, and the stack. */
  predicate Mapped(pages: nat, page: nat) {
    page + 1 < pages || page == STACK_PAGE
  }

  /** What a process's page holds at first: its block of the tape, or what the disk held before. */
  function Image(c: Config, a: nat, p: nat): Page {
    if p < |TapeOf(c, a)| then TapeOf(c, a)[p] else StoreOf(c.disk, a, p)
  }

  function FlatOf(c: Config, flat: map<Vpn, Page>, a: nat, p: nat): Page {
    if Vpn(a, p) in flat then flat[Vpn(a, p)] else Image(c, a, p)
  }

  /* ------------------------------------------------ semaphores */

  /** P for a: with a negative value, a joins the queue. */
  function SemP(m: Sem, a: nat): Sem {
    if m.value - 1 < 0 then Sem(m.value - 1, m.queue + [a], m.holder) else Sem(m.value - 1, m.queue, a)
  }

  predicate Passes(m: Sem) {
    m.value - 1 >= 0
  }

  /** V: the first in the queue is through. */
  function SemV(m: Sem): Sem {
    if m.value + 1 <= 0 && m.queue != [] then Sem(m.value + 1, m.queue[1..], m.queue[0])
    else Sem(m.value + 1, m.queue, 0)
  }

  /** Where one who waited for a semaphore goes on. */
  function Entered(p: Pc): Pc {
    match p
    case Trapped(page, good) => Paging(page, good)
    case Leaving => Clearing(0)
    case Io(why, Queued) => Io(why, Granted)
    case _ => p
  }

  function Woken(pc: map<nat, Pc>, m: Sem): map<nat, Pc> {
    if SemV(m).holder == 0 then pc else pc[SemV(m).holder := Entered(At(pc, SemV(m).holder))]
  }

  /** P(swapPoolSem), on the way to the state that follows want. */
  function TakePool(s: State, a: nat, want: Pc): State {
    s.(pool := SemP(s.pool, a), pc := s.pc[a := if Passes(s.pool) then Entered(want) else want])
  }

  /** V(swapPoolSem), on the way to next. */
  function GivePool(s: State, a: nat, next: Pc): State {
    s.(pool := SemV(s.pool), pc := Woken(s.pc[a := next], s.pool))
  }

  function TakeDisk(s: State, a: nat, why: Why): State {
    s.(disk := SemP(s.disk, a), pc := s.pc[a := if Passes(s.disk) then Io(why, Granted) else Io(why, Queued)])
  }

  function GiveDisk(s: State, a: nat, next: Pc): State {
    s.(disk := SemV(s.disk), pc := Woken(s.pc[a := next], s.disk))
  }

  /* ------------------------------------------------ the disk */

  /** One call of diskIO: cylinder, sector, buffer, direction. */
  datatype Op = Op(cyl: nat, sector: int, buf: Buf, write: bool)

  function OpOf(pages: nat, a: nat, why: Why): Op
    requires pages > 0
  {
    match why
    case Loading(i) => Op(i, a - 1, TapeBuf(a), true)
    case Evicting(_, f, victim, out) => Op(out, victim - 1, Frame(f), true)
    case Fetching(page, f) => Op(Clamp(pages, page), a - 1, Frame(f), false)
  }

  /** The interrupt: the command has been carried out, on the cylinder where the arm is. */
  function Finished(d: Device, mem: map<Buf, Page>): (Device, map<Buf, Page>) {
    match d.command
    case Idle => (d, mem)
    case Seek(cyl) => (d.(arm := cyl, command := Idle), mem)
    case Move(sector, buf, write) =>
      if write then (d.(command := Idle, blocks := d.blocks[Block(d.arm, sector) := PageOf(mem, buf)]), mem)
      else (d.(command := Idle), mem[buf := BlockOf(d.blocks, d.arm, sector)])
  }

  function Continued(p: Pc): Pc {
    match p
    case Io(why, Seeking) => Io(why, Sought)
    case Io(why, Moving) => Io(why, Moved)
    case _ => p
  }

  function DoDisk(s: State): State {
    var (d, m) := Finished(s.dev, s.mem);
    s.(dev := d, mem := m, pc := s.pc[s.dev.waiter := Continued(At(s.pc, s.dev.waiter))])
  }

  /* ------------------------------------------------ the tables */

  /** getFrame. */
  function NextFrame(frames: nat, frameNo: int): int {
    if frameNo + 1 == frames then 0 else frameNo + 1
  }

  /** The page in a frame is no longer valid, and the processor forgets all translations. */
  function Ousted(t: Tables, f: nat): Tables {
    var slot := SlotOf(t.slots, f);
    if slot.Empty? then t else t.(pte := t.pte[Vpn(slot.asid, slot.entry) := Invalid], tlb := map[])
  }

  /** The frame holds the page, which is valid, and the processor forgets all translations. */
  function BroughtIn(t: Tables, pages: nat, a: nat, page: nat, f: nat): Tables
    requires pages > 0
  {
    t.(slots := t.slots[f := Held(a, page, Clamp(pages, page))],
    pte := t.pte[Vpn(a, Clamp(pages, page)) := Valid(f)], tlb := map[])
  }

  /** One round of terminateUserProc's loop. */
  function Released(t: Tables, a: nat, i: nat): Tables {
    var slot := SlotOf(t.slots, i);
    if slot.Held? && slot.asid == a then t.(slots := t.slots[i := Empty]) else t
  }

  /* ------------------------------------------------ steps */

  /** Where diskIO returns to. */
  function Returned(why: Why): Pc {
    match why
    case Loading(i) => Load(i + 1)
    case Evicting(page, f, _, _) => Io(Fetching(page, f), Calling)
    case Fetching(page, f) => Loaded(page, f)
  }

  function DoIo(s: State, a: nat, why: Why, stage: Stage): State
    requires s.c.pages > 0
  {
    var op := OpOf(s.c.pages, a, why);
    match stage
    case Calling => TakeDisk(s, a, why)
    case Granted =>
      s.(dev := s.dev.(command := Seek(op.cyl), waiter := a), pc := s.pc[a := Io(why, Seeking)])
    case Sought =>
      s.(dev := s.dev.(command := Move(op.sector, op.buf, op.write), waiter := a), pc := s.pc[a := Io(why, Moving)])
    case Moved => GiveDisk(s, a, Returned(why))
    case _ => s
  }

  function DoPick(s: State, a: nat, page: nat): State {
    var f := NextFrame(s.c.frames, s.t.frameNo);
    if f < 0 then s
    else s.(t := s.t.(frameNo := f), picks := s.picks + 1, pc := s.pc[a := Picked(page, f)])
  }

  function DoEvict(s: State, a: nat, page: nat, f: nat): State
    requires s.c.pages > 0
  {
    var slot := SlotOf(s.t.slots, f);
    if slot.Empty? then s.(pc := s.pc[a := Io(Fetching(page, f), Calling)])
    else s.(t := Ousted(s.t, f),
         pc := s.pc[a := Io(Evicting(page, f, slot.asid, Clamp(s.c.pages, slot.page)), Calling)])
  }

  /** V(masterSem). */
  function SignOff(s: State, a: nat): State {
    s.(master := s.master + 1, pc := s.pc[a := Dead],
    root := if s.master + 1 <= 0 && s.root.Blocked? then Joining(s.root.k + 1) else s.root)
  }

  function DoRun(s: State, a: nat): State
    requires s.c.pages > 0
  {
    match At(s.pc, a)
    case Load(i) => s.(pc := s.pc[a := if i < |TapeOf(s.c, a)| then Tape(i) else User])
    case Io(why, stage) => DoIo(s, a, why, stage)
    case Paging(page, good) => if good then DoPick(s, a, page) else GivePool(s, a, Failed)
    case Picked(page, f) => DoEvict(s, a, page, f)
    case Loaded(page, f) => s.(t := BroughtIn(s.t, s.c.pages, a, page, f), pc := s.pc[a := Installed])
    case Installed => GivePool(s, a, User)
    case Failed => TakePool(s, a, Leaving)
    case Clearing(i) =>
      if i < s.c.frames then s.(t := Released(s.t, a, i), pc := s.pc[a := Clearing(i + 1)])
      else s.(t := s.t.(tlb := map[]), pc := s.pc[a := Cleared])
    case Cleared => GivePool(s, a, Signing)
    case Signing => SignOff(s, a)
    case _ => s
  }

  function DoRoot(s: State): State {
    match s.root
    case Joining(k) =>
      if k == s.c.users then s.(root := Gone)
      else s.(master := s.master - 1, root := if s.master - 1 < 0 then Blocked(k) else Joining(k + 1))
    case _ => s
  }

  /** What the hardware and the processes may do next. */
  predicate Legal(s: State, e: Step) {
    && s.c.pages > 0
    && match e
       case Refill(a, p) => a in s.pc && s.pc[a].User? && PteOf(s.t.pte, a, p).Valid?
       case Forget(v) => true
       case Store(a, p, _, _) => a in s.pc && s.pc[a].User? && Vpn(a, p) in s.t.tlb
       case Fault(a, page, good) =>
         && a in s.pc && s.pc[a].User?
         && (good ==> Mapped(s.c.pages, page) && PteOf(s.t.pte, a, Clamp(s.c.pages, page)).Invalid?)
       case Quit(a) => a in s.pc && s.pc[a].User?
       case Run(a) => a in s.pc
       case TapeDone(a) => a in s.pc && s.pc[a].Tape? && s.pc[a].i < |TapeOf(s.c, a)|
       case DiskDone => !s.dev.command.Idle?
       case RootStep => true
  }

  function DoStore(s: State, a: nat, p: nat, offset: nat, value: int): State
    requires Vpn(a, p) in s.t.tlb
  {
    var b := Frame(s.t.tlb[Vpn(a, p)]);
    s.(mem := s.mem[b := PageOf(s.mem, b)[offset := value]],
    flat := s.flat[Vpn(a, p) := FlatOf(s.c, s.flat, a, p)[offset := value]])
  }

  function Do(s: State, e: Step): State
    requires Legal(s, e)
  {
    match e
    case Refill(a, p) => s.(t := s.t.(tlb := s.t.tlb[Vpn(a, p) := PteOf(s.t.pte, a, p).frame]))
    case Forget(v) => s.(t := s.t.(tlb := s.t.tlb - {v}))
    case Store(a, p, offset, value) => DoStore(s, a, p, offset, value)
    case Fault(a, page, good) => TakePool(s, a, Trapped(page, good))
    case Quit(a) => TakePool(s, a, Leaving)
    case Run(a) => DoRun(s, a)
    case TapeDone(a) =>
      s.(mem := s.mem[TapeBuf(a) := TapeOf(s.c, a)[s.pc[a].i]], pc := s.pc[a := Io(Loading(s.pc[a].i), Calling)])
    case DiskDone => DoDisk(s)
    case RootStep => DoRoot(s)
  }

  /** What a load finds. */
  function Loads(s: State, a: nat, p: nat, offset: nat): int
    requires Vpn(a, p) in s.t.tlb
  {
    Word(PageOf(s.mem, Frame(s.t.tlb[Vpn(a, p)])), offset)
  }
}
