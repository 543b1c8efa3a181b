/** Which line and which device an interrupt is handled for, and which semaphore that is. */
module Interrupts {
  import opened Pcbs
  import opened Machine
  import opened Runs
  import opened Strays

  type Word = bv32

  /** The lines and devices that find their way into an index, and into a semaphore. */
  predicate IsSlot(lineNo: nat, devNo: nat, read: nat) {
    DISKINT <= lineNo <= TERMINT && devNo < DEVCNT && read <= 1 && (lineNo < TERMINT ==> read == 0)
  }

  /**
   The slots of two devices are never the same. But terminals are three apart with two sub-devices
   each: the last terminals do not fit, and one of their slots is the clock's.
   */
  lemma DeviceSlots(l: nat, d: nat, r: nat, l': nat, d': nat, r': nat)
    requires IsSlot(l, d, r) && IsSlot(l', d', r')
    ensures DeviceIndex(l, d, r) == DeviceIndex(l', d', r') <==> l == l' && d == d' && r == r'
    ensures 0 <= DeviceIndex(l, d, r) == if l == 7 then 32 + 3 * d + r else 8 * (l - 3) + d
    ensures DeviceIndex(l, d, r) < CLOCK <==> l < TERMINT || d < 5 || (d == 5 && r == 0)
    ensures DeviceIndex(l, d, r) == CLOCK <==> l == TERMINT && d == 5 && r == 1
    ensures DeviceIndex(l, d, r) < DEVICECNT <==> l < TERMINT || d <= 5
  {
    if l == TERMINT && l' == TERMINT && d != d' {
      assert TERMCNT * d + r != TERMCNT * d' + r';
    }
  }

  /** Terminal 5 reads on the clock's semaphore; terminal 6 lies outside the array. */
  lemma TerminalsTooFarApart()
    ensures DeviceIndex(TERMINT, 5, 1) == CLOCK
    ensures DeviceIndex(TERMINT, 6, 0) >= DEVICECNT
  {
  }

  function LineBit(k: nat): Word
    requires k < 8
  {
    match k
    case 0 => 0x100 case 1 => 0x200 case 2 => 0x400 case 3 => 0x800
    case 4 => 0x1000 case 5 => 0x2000 case 6 => 0x4000 case _ => 0x8000
  }

  function DeviceBit(k: nat): Word
    requires k < 8
  {
    match k
    case 0 => 1 case 1 => 2 case 2 => 4 case 3 => 8
    case 4 => 0x10 case 5 => 0x20 case 6 => 0x40 case _ => 0x80
  }

  /** The pending line of the highest priority; line 0 is not looked at. */
  function FindLineNo(cause: Word): (n: int)
    ensures n == -1 || 1 <= n <= TERMINT
    ensures n != -1 ==> cause & LineBit(n) != 0
    ensures forall k | 1 <= k < 8 && (n == -1 || k < n) :: cause & LineBit(k) == 0
  {
    if cause & 0x200 == 0x200 then 1
    else if cause & 0x400 == 0x400 then 2
    else if cause & 0x800 == 0x800 then 3
    else if cause & 0x1000 == 0x1000 then 4
    else if cause & 0x2000 == 0x2000 then 5
    else if cause & 0x4000 == 0x4000 then 6
    else if cause & 0x8000 == 0x8000 then 7
    else -1
  }

  /** The pending device of the highest priority. */
  function FindDevNo(bitMap: Word): (n: int)
    ensures n == -1 || 0 <= n < DEVCNT
    ensures n != -1 ==> bitMap & DeviceBit(n) != 0
    ensures forall k | 0 <= k < 8 && (n == -1 || k < n) :: bitMap & DeviceBit(k) == 0
  {
    if bitMap & 1 == 1 then 0
    else if bitMap & 2 == 2 then 1
    else if bitMap & 4 == 4 then 2
    else if bitMap & 8 == 8 then 3
    else if bitMap & 0x10 == 0x10 then 4
    else if bitMap & 0x20 == 0x20 then 5
    else if bitMap & 0x40 == 0x40 then 6
    else if bitMap & 0x80 == 0x80 then 7
    else -1
  }

  /** Spurious: no line, or no device on the line, is pending. The machine panics. */
  datatype Cause = Spurious | Someone(e: Event)

  const STATUSMASK: Word := 0xFF
  const READY: Word := 1

  /** Which half of a terminal has interrupted: the writing one, 0, if the reading one is ready. */
  function HalfOf(recvStatus: Word): (read: nat)
    ensures read == if recvStatus & 0xFF == 1 then 0 else 1
  {
    if recvStatus & STATUSMASK == READY then 0 else 1
  }

  /** The device of a device line that is looked after, if one is pending. */
  function OnLine(line: nat, bitMap: Word, recvStatus: Word): (c: Cause)
    requires DISKINT <= line <= TERMINT
    ensures c.Spurious? <==> FindDevNo(bitMap) == -1
    ensures c.Someone? ==>
              var d := FindDevNo(bitMap);
              && d >= 0 && c.e.DeviceDone?
              && c.e.index == if line != 7 then 8 * (line - 3) + d
                              else 32 + 3 * d + if recvStatus & 0xFF == 1 then 0 else 1
  {
    var dev := FindDevNo(bitMap);
    if dev == -1 then Spurious else Someone(DeviceDone(DeviceIndex(line, dev, HalfOf(recvStatus))))
  }

  /** What ioTrapHandler takes the interrupt for. recvStatus is the read status of the terminal, if it is one. */
  function Decode(cause: Word, bitMap: Word, recvStatus: Word): (c: Cause)
    ensures c.Someone? ==> IsInterrupt(c.e)
    ensures c == Someone(Quantum) <==> cause & LineBit(1) != 0
    ensures c == Someone(ClockTick) <==> cause & LineBit(1) == 0 && cause & LineBit(2) != 0
    ensures c.Someone? && c.e.DeviceDone? ==>
              3 <= FindLineNo(cause) && c == OnLine(FindLineNo(cause), bitMap, recvStatus)
    ensures c == Spurious ==> (forall k | 1 <= k < 8 :: cause & LineBit(k) == 0) || bitMap & 0xFF == 0
  {
    var line := FindLineNo(cause);
    if line == -1 then Spurious
    else if line == 1 then Someone(Quantum)
    else if line == 2 then Someone(ClockTick)
    else OnLine(line, bitMap, recvStatus)
  }

  /** A device that interrupts has a semaphore, in the array or where it would be. */
  ghost predicate Catchable(s: State, c: Cause) {
    && Callable(s) && s.status == Active
    && (c.Someone? ==> IsInterrupt(c.e))
    && (c.Someone? && c.e.DeviceDone? ==>
          && 0 <= DeviceAdd(s.devBase, c.e.index) < NULL_ADDR && DeviceAdd(s.devBase, c.e.index) in s.value)
  }

  /** All but terminal 5's read side and terminals 6 and 7 have slots below the clock's, where this always holds. */
  ghost predicate TrapKeeps(s: State, c: Cause)
    requires Catchable(s, c)
  {
    c.Someone? && c.e.DeviceDone? ==> InterruptKeeps(s, DeviceAdd(s.devBase, c.e.index))
  }

  /** s after ioTrapHandler. */
  ghost function Caught(s: State, c: Cause): State
    requires Catchable(s, c)
  {
    if c.Spurious? then s.(status := Panicked)
    else if c.e.DeviceDone? then Interrupt(s, DeviceAdd(s.devBase, c.e.index))
    else Do(s, c.e)
  }
}
