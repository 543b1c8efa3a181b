/** What every step of the pager machine keeps. */
module PagingInv {
  import opened Paging
  import opened Seqs

  /* ------------------------------------------------ who is inside */

  predicate HasPool(p: Pc) {
    p.Paging? || p.Picked? || (p.Io? && !p.why.Loading?) || p.Loaded? || p.Installed? || p.Clearing? || p.Cleared?
  }

  predicate WantsPool(p: Pc) {
    p.Trapped? || p.Leaving?
  }

  predicate HasDisk(p: Pc) {
    p.Io? && !p.stage.Calling? && !p.stage.Queued?
  }

  predicate WantsDisk(p: Pc) {
    p.Io? && p.stage.Queued?
  }

  /** A mutex: one holder at most, and a queue only behind a holder. */
  ghost predicate Mutex(m: Sem) {
    && Distinct(m.queue) && m.holder !in m.queue && 0 !in m.queue
    && m.value == (if m.holder == 0 then 1 else 0) - |m.queue|
    && (m.holder == 0 ==> m.queue == [])
  }

  ghost predicate PoolOk(pc: map<nat, Pc>, m: Sem) {
    && Mutex(m)
    && (m.holder == 0 || m.holder in pc) && (forall a | a in m.queue :: a in pc)
    && (forall a | a in pc :: (HasPool(pc[a]) <==> a == m.holder) && (WantsPool(pc[a]) <==> a in m.queue))
  }

  ghost predicate DiskOk(pc: map<nat, Pc>, m: Sem) {
    && Mutex(m)
    && (m.holder == 0 || m.holder in pc) && (forall a | a in m.queue :: a in pc)
    && (forall a | a in pc :: (HasDisk(pc[a]) <==> a == m.holder) && (WantsDisk(pc[a]) <==> a in m.queue))
  }

  /* ------------------------------------------------ the disk does what its holder asked for */

  /** The device, when h is at this stage of a call for op. */
  predicate Serving(d: Device, h: nat, op: Op, stage: Stage) {
    && (stage.Seeking? ==> d.command == Seek(op.cyl) && d.waiter == h)
    && (stage.Moving? ==> d.command == Move(op.sector, op.buf, op.write) && d.waiter == h)
    && (!stage.Seeking? && !stage.Moving? ==> d.command == Idle)
    && (stage.Sought? || stage.Moving? || stage.Moved? ==> d.arm == op.cyl)
  }

  ghost predicate DeviceOk(pages: nat, pc: map<nat, Pc>, holder: nat, d: Device)
    requires pages > 0
  {
    if holder == 0 then d.command == Idle
    else At(pc, holder).Io? && Serving(d, holder, OpOf(pages, holder, At(pc, holder).why), At(pc, holder).stage)
  }

  /* ------------------------------------------------ frames and page tables */

  predicate IsLoading(p: Pc) {
    p.Load? || p.Tape? || (p.Io? && p.why.Loading?)
  }

  /** Running, or in the pager: its pages are what it has stored. */
  predicate Resident(p: Pc) {
    !IsLoading(p) && !p.Clearing? && !p.Cleared? && !p.Signing? && !p.Dead?
  }

  /** A process in this place may still own frame f. */
  predicate MayOwn(p: Pc, f: nat) {
    Resident(p) || (p.Clearing? && f >= p.i)
  }

  predicate Claims(p: Pc, f: nat) {
    MayOwn(p, f) || IsLoading(p)
  }

  /** The frame that the pager is refilling, whose entry is out of date; -1 if there is none. */
  function RefillFrame(p: Pc): int {
    match p
    case Io(Evicting(_, f, _, _), _) => f
    case Io(Fetching(_, f), _) => f
    case Loaded(_, f) => f
    case _ => -1
  }

  /** The frame the pager has chosen. */
  function ChosenFrame(p: Pc): int {
    match p
    case Picked(_, f) => f
    case _ => RefillFrame(p)
  }

  /** The page that is to be brought in, or -1. */
  function MissingPage(p: Pc): int {
    match p
    case Trapped(page, good) => if good then page else -1
    case Paging(page, good) => if good then page else -1
    case Picked(page, _) => page
    case Io(Evicting(page, _, _, _), _) => page
    case Io(Fetching(page, _), _) => page
    case Loaded(page, _) => page
    case _ => -1
  }

  /** A page on its way out: page of asid, in frame f, has not yet been written. */
  datatype Leaver = Nothing | Out(f: nat, asid: nat, page: nat)

  function Outgoing(p: Pc): Leaver {
    match p
    case Io(Evicting(_, f, victim, out), stage) => if stage.Moved? then Nothing else Out(f, victim, out)
    case _ => Nothing
  }

  /** A page that has been read, and is not yet mapped. */
  datatype Comer = Nobody | In(page: nat, f: nat)

  function Incoming(p: Pc): Comer {
    match p
    case Io(Fetching(page, f), Moved) => In(page, f)
    case Loaded(page, f) => In(page, f)
    case _ => Nobody
  }

  /** Each entry of the frame table points to the page table entry that maps its frame. */
  ghost predicate SlotsOk(c: Config, pc: map<nat, Pc>, refill: int, t: Tables)
    requires c.pages > 0
  {
    forall f | f in t.slots && t.slots[f].Held? ::
      && f < c.frames && t.slots[f].asid in pc && t.slots[f].entry == Clamp(c.pages, t.slots[f].page)
      && MayOwn(pc[t.slots[f].asid], f)
      && PteOf(t.pte, t.slots[f].asid, t.slots[f].entry) == if f == refill then Invalid else Valid(f)
  }

  predicate Owns(slot: Slot, a: nat, p: nat) {
    slot.Held? && slot.asid == a && slot.entry == p
  }

  /** A valid page table entry is that of a frame table entry, unless its process has released the frame. */
  ghost predicate PtesOk(pc: map<nat, Pc>, t: Tables) {
    forall a: nat, p: nat | a in pc && PteOf(t.pte, a, p).Valid? && Claims(pc[a], PteOf(t.pte, a, p).frame) ::
      Owns(SlotOf(t.slots, PteOf(t.pte, a, p).frame), a, p)
  }

  ghost predicate TlbOk(t: Tables) {
    forall v | v in t.tlb :: PteOf(t.pte, v.asid, v.page) == Valid(t.tlb[v])
  }

  /** What the pager knows of the page it brings in and of the frame it brings it to. */
  ghost predicate PagerOk(c: Config, pc: map<nat, Pc>, t: Tables)
    requires c.pages > 0
  {
    && (forall a | a in pc && MissingPage(pc[a]) >= 0 ::
          PteOf(t.pte, a, Clamp(c.pages, MissingPage(pc[a]))) == Invalid)
    && (forall a | a in pc && ChosenFrame(pc[a]) >= 0 :: ChosenFrame(pc[a]) == t.frameNo)
    && (forall a | a in pc && pc[a].Io? && pc[a].why.Evicting? ::
          Owns(SlotOf(t.slots, pc[a].why.f), pc[a].why.victim, pc[a].why.out))
  }

  ghost predicate TablesOk(c: Config, pc: map<nat, Pc>, refill: int, t: Tables)
    requires c.pages > 0
  {
    && SlotsOk(c, pc, refill, t) && PtesOk(pc, t) && TlbOk(t) && PagerOk(c, pc, t)
    && 0 <= t.frameNo < c.frames
  }

  /* ------------------------------------------------ where a page is */

  function Content(out: Leaver, pte: map<Vpn, Pte>, blocks: map<Block, Page>, mem: map<Buf, Page>,
                   a: nat, p: nat): Page {
    match PteOf(pte, a, p)
    case Valid(f) => PageOf(mem, Frame(f))
    case Invalid =>
      if out.Out? && out.asid == a && out.page == p then PageOf(mem, Frame(out.f)) else StoreOf(blocks, a, p)
  }

  /** A living process's page is in its frame while valid or still being written out, on the disk otherwise. */
  ghost predicate ContentsOk(c: Config, pc: map<nat, Pc>, out: Leaver, pte: map<Vpn, Pte>,
                             blocks: map<Block, Page>, mem: map<Buf, Page>, flat: map<Vpn, Page>) {
    forall a: nat, p: nat | a in pc && Resident(pc[a]) ::
      Content(out, pte, blocks, mem, a, p) == FlatOf(c, flat, a, p)
  }

  /** A page that has been read is in its frame. */
  ghost predicate FetchedOk(c: Config, pc: map<nat, Pc>, mem: map<Buf, Page>, flat: map<Vpn, Page>)
    requires c.pages > 0
  {
    forall a | a in pc && Incoming(pc[a]).In? ::
      PageOf(mem, Frame(Incoming(pc[a]).f)) == FlatOf(c, flat, a, Clamp(c.pages, Incoming(pc[a]).page))
  }

  /* ------------------------------------------------ loading */

  /** How many blocks are on the disk. */
  function Done(p: Pc): nat {
    match p
    case Load(i) => i
    case Tape(i) => i
    case Io(Loading(i), Moved) => i + 1
    case Io(Loading(i), _) => i
    case _ => 0
  }

  /** The first blocks of a's tape are on the disk, each on its cylinder; the rest is as it was. */
  ghost predicate Copied(c: Config, a: nat, n: nat, blocks: map<Block, Page>)
    requires n <= |TapeOf(c, a)|
  {
    forall p: nat :: StoreOf(blocks, a, p) == if p < n then TapeOf(c, a)[p] else StoreOf(c.disk, a, p)
  }

  ghost predicate Unwritten(a: nat, flat: map<Vpn, Page>) {
    forall v | v in flat :: v.asid != a
  }

  ghost predicate LoadOk(c: Config, a: nat, p: Pc, blocks: map<Block, Page>, mem: map<Buf, Page>,
                         flat: map<Vpn, Page>) {
    && Done(p) <= |TapeOf(c, a)| && Copied(c, a, Done(p), blocks) && Unwritten(a, flat)
    && (p.Tape? ==> p.i < |TapeOf(c, a)|)
    && (p.Io? && p.why.Loading? ==> p.why.i < |TapeOf(c, a)| && PageOf(mem, TapeBuf(a)) == TapeOf(c, a)[p.why.i])
  }

  ghost predicate LoadingOk(c: Config, pc: map<nat, Pc>, blocks: map<Block, Page>, mem: map<Buf, Page>,
                            flat: map<Vpn, Page>) {
    forall a | a in pc && IsLoading(pc[a]) :: LoadOk(c, a, pc[a], blocks, mem, flat)
  }

  /* ------------------------------------------------ the join */

  ghost function Signed(pc: map<nat, Pc>): set<nat> {
    set a | a in pc && pc[a].Dead?
  }

  /** The value of masterSem is the number of signers less that of the root's P's. */
  ghost predicate JoinOk(c: Config, pc: map<nat, Pc>, master: int, root: Root) {
    && |pc| == c.users
    && match root
       case Joining(k) => k <= c.users && master == |Signed(pc)| - k && master >= 0
       case Blocked(k) => k < c.users && master == |Signed(pc)| - k - 1 && master == -1
       case Gone => Signed(pc) == pc.Keys
  }

  ghost predicate ControlOk(s: State)
    requires s.c.pages > 0
  {
    && 0 !in s.pc && PoolOk(s.pc, s.pool) && DiskOk(s.pc, s.disk)
    && DeviceOk(s.c.pages, s.pc, s.disk.holder, s.dev)
  }

  function BeingFilled(s: State): int {
    RefillFrame(At(s.pc, s.pool.holder))
  }

  function OnItsWay(s: State): Leaver {
    Outgoing(At(s.pc, s.pool.holder))
  }

  ghost predicate DataOk(s: State)
    requires s.c.pages > 0
  {
    && TablesOk(s.c, s.pc, BeingFilled(s), s.t)
    && ContentsOk(s.c, s.pc, OnItsWay(s), s.t.pte, s.dev.blocks, s.mem, s.flat)
    && FetchedOk(s.c, s.pc, s.mem, s.flat)
    && LoadingOk(s.c, s.pc, s.dev.blocks, s.mem, s.flat)
    && JoinOk(s.c, s.pc, s.master, s.root)
  }

  ghost predicate Inv(s: State) {
    s.c.pages > 0 && s.c.frames > 0 && ControlOk(s) && DataOk(s)
  }
}
