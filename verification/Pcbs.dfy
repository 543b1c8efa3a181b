/** Process control blocks, and the addresses that semaphores have. */
module Pcbs {
  import opened Seqs

  /** A 32-bit address. NULL and MAXINT are one and the same bit pattern. */
  type Addr = a: int | 0 <= a <= 0xFFFF_FFFF

  const NULL_ADDR: Addr := 0xFFFF_FFFF

  const STATEREGNUM := 31

  /** A processor state. */
  datatype CpuState = CpuState(asid: int, cause: int, status: int, pc: int, reg: seq<int>)

  /** Where a process's traps are passed up to: addresses of processor states. */
  datatype Traps = Traps(oldSys: Addr, oldPgm: Addr, oldTlb: Addr, newSys: Addr, newPgm: Addr, newTlb: Addr)

  const NO_TRAPS: Traps := Traps(NULL_ADDR, NULL_ADDR, NULL_ADDR, NULL_ADDR, NULL_ADDR, NULL_ADDR)

  class Pcb {
    var next: Pcb?
    var prev: Pcb?
    var parent: Pcb?
    var child: Pcb?
    var sib: Pcb?
    var semAdd: Addr
    var state: CpuState
    var time: int
    var traps: Traps

    constructor ()
      ensures next == prev == parent == child == sib == null && semAdd == NULL_ADDR
    {
      next, prev, parent, child, sib := null, null, null, null, null;
      semAdd := NULL_ADDR;
      state, time, traps := CpuState(0, 0, 0, 0, []), 0, NO_TRAPS;
    }
  }

  ghost function Only(p: Pcb?): set<Pcb> {
    if p == null then {} else {p}
  }

  /** Where outProcQ's search loop starts: the code has the tail, its comment needs the head. */
  datatype Scan = FromTail | FromHead

  /** Whether outProcQ finds p in q. */
  predicate Finds(scan: Scan, q: seq<Pcb>, p: Pcb) {
    p in q && (scan.FromHead? || Last(q) == p)
  }
}
