/**
 The nucleus as a state machine. A state holds the queues, the blocked processes of every
 semaphore, the process tree and the counters; a handler is a function from state to state.
 LDST, HALT, PANIC and WAIT end the step.
 */
module Machine {
  import opened Pcbs
  import opened Seqs
  import opened Family

  const DEVICECNT := 49
  const DEVCNT := 8
  const TERMCNT := 3
  const DEVINTOFFSET := 3
  const DISKINT := 3
  const TERMINT := 7
  const CLOCK := DEVICECNT - 1

  /** Corrupted: a process was freed while still queued, or a store went through NULL. */
  datatype Status = Active | Halted | Panicked | Corrupted

  /** The one list that holds a process. Waits is p_semAdd; Limbo is between two lists. */
  datatype Place = Free | Ready | Running | Waits(a: Addr) | Limbo

  /**
   `devBase` and `scan` never change. `blocked` has every semaphore, most with an empty queue.
   `owed` and `dispatches` are history: the killed waiters of a semaphore whose wake-up is still
   to come, and the number of scheduler calls.
   */
  datatype State = State(
    devBase: int, scan: Scan,
    free: seq<Pcb>, ready: seq<Pcb>, current: Pcb?,
    blocked: map<Addr, seq<Pcb>>, place: map<Pcb, Place>,
    tree: Tree, root: Pcb?,
    value: map<Addr, int>, owed: map<Addr, int>,
    procCnt: int, sftBlkCnt: int, waiting: bool, status: Status, dispatches: nat)

  predicate SameMachine(s: State, r: State) {
    r.devBase == s.devBase && r.scan == s.scan
  }

  predicate IsDevice(base: int, a: int) {
    base <= a <= base + 4 * (DEVICECNT - 1)
  }

  function DeviceAdd(base: int, index: int): int {
    base + 4 * index
  }

  /** The slot in the device semaphore array that a wait or an interrupt refers to. */
  function DeviceIndex(lineNo: nat, devNo: nat, read: nat): int {
    if lineNo != TERMINT then DEVCNT * (lineNo - DEVINTOFFSET) + devNo
    else DEVCNT * (lineNo - DEVINTOFFSET) + TERMCNT * devNo + read
  }

  /** The semaphores that have a descriptor. */
  function ActiveSemaphores(blocked: map<Addr, seq<Pcb>>): set<Addr> {
    set a | a in blocked && blocked[a] != []
  }

  function Bump(m: map<Addr, int>, a: Addr, d: int): map<Addr, int> {
    if a in m then m[a := m[a] + d] else m
  }

  /* ---------------------------------------------------------------- queue operations */

  /** True result: no descriptor was left, and nothing happened. */
  function InsertBlocked(s: State, a: Addr, p: Pcb): (bool, State)
    requires a in s.blocked
  {
    if s.blocked[a] == [] && |ActiveSemaphores(s.blocked)| == |s.place| then (true, s)
    else (false, s.(blocked := s.blocked[a := s.blocked[a] + [p]], place := s.place[p := Waits(a)]))
  }

  function RemoveBlocked(s: State, a: Addr): (Pcb?, State)
    requires a in s.blocked
  {
    var q := s.blocked[a];
    if q == [] then (null, s)
    else (q[0], s.(blocked := s.blocked[a := q[1..]], place := s.place[q[0] := Limbo]))
  }

  function AllocPcb(s: State): (Pcb?, State) {
    if s.free == [] then (null, s)
    else (s.free[0], s.(free := s.free[1..], place := s.place[s.free[0] := Limbo]))
  }

  function InsertReady(s: State, p: Pcb): State {
    s.(ready := s.ready + [p], place := s.place[p := Ready])
  }

  function OutBlocked(s: State, a: Addr, p: Pcb): State
    requires a in s.blocked
  {
    s.(blocked := s.blocked[a := Minus(s.blocked[a], {p})], place := s.place[p := Limbo])
  }

  /* ---------------------------------------------------------------- killing */

  /** A killed waiter gives its unit back, except on a device, whose interrupt will do so later. */
  function Refund(s: State, a: Addr): State {
    if IsDevice(s.devBase, a) then s.(sftBlkCnt := s.sftBlkCnt - 1, owed := Bump(s.owed, a, 1))
    else s.(value := Bump(s.value, a, 1))
  }

  function Release(s: State, p: Pcb): State {
    s.(procCnt := s.procCnt - 1, free := [p] + s.free, place := s.place[p := Free],
    tree := Drop(s.tree, {p}))
  }

  function KillRunning(s: State, p: Pcb): (r: State)
    ensures SameMachine(s, r)
  {
    Release(s.(current := null, place := s.place[p := Limbo]), p)
  }

  function KillReady(s: State, p: Pcb): (r: State)
    ensures SameMachine(s, r)
  {
    if Finds(s.scan, s.ready, p) then
      Release(s.(ready := Minus(s.ready, {p}), place := s.place[p := Limbo]), p)
    else s.(status := Corrupted)
  }

  function KillBlocked(s: State, p: Pcb, a: Addr): (r: State)
    requires a in s.blocked
    ensures SameMachine(s, r)
  {
    if Finds(s.scan, s.blocked[a], p) then Release(Refund(OutBlocked(s, a, p), a), p)
    else s.(status := Corrupted)
  }

  /** The body of terminateprocess for one process whose children are gone. */
  function KillOne(s: State, p: Pcb): (r: State)
    requires p in s.place
    ensures r.place.Keys == s.place.Keys
    ensures SameMachine(s, r)
  {
    if s.status != Active then s
    else if p == s.current then KillRunning(s, p)
    else if p in s.ready then KillReady(s, p)
    else if s.place[p].Waits? && s.place[p].a in s.blocked then KillBlocked(s, p, s.place[p].a)
    else Release(s, p)
  }

  function KillAll(s: State, ps: seq<Pcb>): (r: State)
    requires forall p | p in ps :: p in s.place
    ensures SameMachine(s, r)
    decreases |ps|
  {
    if ps == [] then s else KillAll(KillOne(s, ps[0]), ps[1..])
  }

  /** Kill p and everything below it. */
  ghost function Kill(s: State, p: Pcb): (r: State)
    requires Forest(s.tree) && p in s.tree.kids && s.tree.kids.Keys <= s.place.Keys
    ensures SameMachine(s, r)
  {
    KillAll(if p == s.current then s.(tree := Detach(s.tree, p)) else s, PostOrder(s.tree, p))
  }

  /* ---------------------------------------------------------------- dispatching */

  function Dispatch(s: State): State
    requires s.ready != []
  {
    s.(current := s.ready[0], ready := s.ready[1..], place := s.place[s.ready[0] := Running])
  }

  function Preempt(s: State): State
    requires s.current != null
  {
    InsertReady(s, s.current).(current := null)
  }

  function Scheduler(s: State): (r: State)
    ensures SameMachine(s, r)
  {
    var n := s.(waiting := false, dispatches := s.dispatches + 1);
    if s.status != Active then s
    else if n.ready != [] then Dispatch(n)
    else if n.procCnt == 0 then n.(status := Halted)
    else if n.sftBlkCnt == 0 then n.(status := Panicked)
    else if n.sftBlkCnt > 0 then n.(waiting := true)
    else n
  }

  /** End of an interrupt: back to the interrupted process, or on to the scheduler when idle. */
  function Resume(s: State): (r: State)
    ensures SameMachine(s, r)
  {
    if s.waiting then Scheduler(s) else s
  }

  /** Block the running process on a. The result of insertBlocked is ignored. */
  function Block(s: State, a: Addr): (r: State)
    requires s.current != null && a in s.blocked
    ensures SameMachine(s, r)
  {
    InsertBlocked(s, a, s.current).1.(current := null)
  }

  /* ---------------------------------------------------------------- handlers */

  function CreateProcess(s: State): (r: State)
    requires s.current != null && s.current in s.tree.kids
    ensures SameMachine(s, r)
  {
    var (p, n) := AllocPcb(s);
    if p == null then s
    else InsertReady(n.(tree := Adopt(n.tree, s.current, p), procCnt := n.procCnt + 1), p)
  }

  ghost function TerminateProcess(s: State): (r: State)
    requires Forest(s.tree) && s.current != null && s.current in s.tree.kids
    requires s.tree.kids.Keys <= s.place.Keys
    ensures SameMachine(s, r)
  {
    Scheduler(Kill(s, s.current))
  }

  function Verhogen(s: State, a: Addr): (r: State)
    requires a in s.value && a in s.blocked
    ensures SameMachine(s, r)
  {
    var n := s.(value := s.value[a := s.value[a] + 1]);
    if n.value[a] > 0 then n
    else
      var (p, m) := RemoveBlocked(n, a);
      if p == null then m else InsertReady(m, p)
  }

  function Passeren(s: State, a: Addr): (r: State)
    requires a in s.value && a in s.blocked && s.current != null
    ensures SameMachine(s, r)
  {
    var n := s.(value := s.value[a := s.value[a] - 1]);
    if n.value[a] < 0 then Scheduler(Block(n, a)) else n
  }

  /** P on a device or clock semaphore: the blocked process counts as soft-blocked. */
  function WaitDevice(s: State, a: Addr): (r: State)
    requires a in s.value && a in s.blocked && s.current != null
    ensures SameMachine(s, r)
  {
    var n := s.(value := s.value[a := s.value[a] - 1]);
    if n.value[a] < 0 then
      var m := Block(n, a);
      Scheduler(m.(sftBlkCnt := m.sftBlkCnt + 1))
    else n
  }

  function QuantumEnd(s: State): (r: State)
    ensures SameMachine(s, r)
  {
    Scheduler(if s.current == null then s else Preempt(s))
  }

  /** Everyone waiting for a becomes ready, and nobody is owed a wake-up any more. */
  function Ticked(s: State, a: Addr): State
    requires a in s.blocked
  {
    var q := s.blocked[a];
    s.(blocked := s.blocked[a := []],
    place := map p | p in s.place :: if p in q then Ready else s.place[p],
    ready := s.ready + q, sftBlkCnt := s.sftBlkCnt - |q|,
    value := s.value[a := 0], owed := s.owed[a := 0])
  }

  function Tick(s: State, a: Addr): (r: State)
    requires a in s.blocked
    ensures SameMachine(s, r)
  {
    Resume(Ticked(s, a))
  }

  /** Device interrupt: a V on the device's semaphore. */
  function Interrupt(s: State, a: Addr): (r: State)
    requires a in s.value && a in s.blocked
    ensures SameMachine(s, r)
  {
    var n := s.(value := s.value[a := s.value[a] + 1]);
    if n.value[a] > 0 then Resume(n)
    else
      var (p, m) := RemoveBlocked(n, a);
      Resume(if p == null then m.(owed := Bump(m.owed, a, -1))
             else InsertReady(m.(sftBlkCnt := m.sftBlkCnt - 1), p))
  }

  /* ---------------------------------------------------------------- the invariant */

  ghost predicate Listed(place: map<Pcb, Place>, q: seq<Pcb>, at: Place) {
    Distinct(q) && forall p | p in q :: p in place && place[p] == at
  }

  /** No process is in two lists. */
  ghost predicate Apart(free: seq<Pcb>, ready: seq<Pcb>, current: Pcb?, blocked: map<Addr, seq<Pcb>>,
                        place: map<Pcb, Place>) {
    && Listed(place, free, Free)
    && Listed(place, ready, Ready)
    && (current != null ==> current in place && place[current] == Running)
    && (forall a | a in blocked :: a != NULL_ADDR && Listed(place, blocked[a], Waits(a)))
  }

  ghost predicate Separated(s: State) {
    Apart(s.free, s.ready, s.current, s.blocked, s.place)
  }

  ghost predicate Holds(free: seq<Pcb>, ready: seq<Pcb>, current: Pcb?, blocked: map<Addr, seq<Pcb>>,
                        p: Pcb, at: Place) {
    match at
    case Free => p in free
    case Ready => p in ready
    case Running => p == current
    case Waits(a) => a in blocked && p in blocked[a]
    case Limbo => true
  }

  /** Every process is where its place says. */
  ghost predicate InPlace(free: seq<Pcb>, ready: seq<Pcb>, current: Pcb?, blocked: map<Addr, seq<Pcb>>,
                          place: map<Pcb, Place>) {
    forall p | p in place :: Holds(free, ready, current, blocked, p, place[p])
  }

  ghost predicate Placed(s: State) {
    InPlace(s.free, s.ready, s.current, s.blocked, s.place)
  }

  /** Every process is free, ready, running or blocked; the live ones are those not free. */
  ghost predicate Populated(tree: Tree, place: map<Pcb, Place>) {
    && tree.kids.Keys <= place.Keys
    && (forall p | p in place :: !place[p].Limbo? && (place[p].Free? <==> p !in tree.kids))
  }

  predicate IsSoft(base: int, at: Place) {
    at.Waits? && IsDevice(base, at.a)
  }

  /** The processes blocked on a device or on the clock. */
  ghost function SoftBlocked(base: int, place: map<Pcb, Place>): set<Pcb> {
    set p | p in place && IsSoft(base, place[p])
  }

  function Deficit(v: int): int {
    if v < 0 then -v else 0
  }

  /** Queued plus owed is what a negative value says. Only devices owe anything. */
  ghost predicate Lawful(base: int, blocked: map<Addr, seq<Pcb>>, value: map<Addr, int>,
                         owed: map<Addr, int>) {
    && owed.Keys == value.Keys == blocked.Keys
    && (forall a | a in value ::
          && |blocked[a]| + owed[a] == Deficit(value[a])
          && owed[a] >= 0
          && (!IsDevice(base, a) ==> owed[a] == 0))
  }

  /** The device array lies in memory below NULL, and the clock semaphore is never positive. */
  ghost predicate Wired(base: int, value: map<Addr, int>) {
    && 0 <= base && base + 4 * DEVICECNT <= NULL_ADDR
    && (forall i | 0 <= i < DEVICECNT :: DeviceAdd(base, i) in value)
    && value[DeviceAdd(base, CLOCK)] <= 0
  }

  /** One tree, whose root is the first process. */
  ghost predicate Rooted(tree: Tree, root: Pcb?) {
    && Forest(tree)
    && (forall p | p in tree.kids :: tree.parent[p] == null <==> p == root)
    && (tree.kids.Keys != {} ==> root != null && root in tree.kids)
  }

  ghost predicate Core(s: State) {
    && Separated(s) && Placed(s)
    && Populated(s.tree, s.place)
    && s.procCnt == |s.tree.kids|
    && s.sftBlkCnt == |SoftBlocked(s.devBase, s.place)|
    && Lawful(s.devBase, s.blocked, s.value, s.owed)
    && Wired(s.devBase, s.value)
    && Rooted(s.tree, s.root)
  }

  /** What holds between handlers. */
  ghost predicate Inv(s: State) {
    && Core(s)
    && s.status != Corrupted
    && (s.status == Active ==> (s.waiting <==> s.current == null))
  }
}
