/** diskIO and tapeToDisk as they run when nobody else wants the disk. */
module BackingStore {
  import opened Paging
  import opened PagingRuns

  const EOT := 0
  const EOF := 1

  /** The status that the devices of a run report: whether block i is read, the arm moved, block i moved. */
  datatype Reports = Reports(read: nat -> bool, sought: nat -> bool, moved: nat -> bool)

  predicate IsEnd(mark: int) {
    mark == EOT || mark == EOF
  }

  /** How many blocks come before the first marker that ends the tape. */
  function TapeLength(marks: seq<int>): (n: nat)
    requires exists i :: 0 <= i < |marks| && IsEnd(marks[i])
    ensures n < |marks| && IsEnd(marks[n]) && forall i | 0 <= i < n :: !IsEnd(marks[i])
  {
    if IsEnd(marks[0]) then 0 else
      assert exists i :: 0 <= i < |marks[1..]| && IsEnd(marks[1..][i]) by {
        var i :| 0 <= i < |marks| && IsEnd(marks[i]);
        assert marks[1..][i - 1] == marks[i];
      }
      1 + TapeLength(marks[1..])
  }

  /** Block i of n is the first for which a device is not ready. */
  ghost predicate Stops(i: nat, n: nat, reports: Reports) {
    && i < n && !(reports.read(i) && reports.sought(i) && reports.moved(i))
    && forall j | 0 <= j < i :: reports.read(j) && reports.sought(j) && reports.moved(j)
  }

  class Backing {
    var dev: Device
    var mem: map<Buf, Page>
    var disk0sem: int

    /** WAITIO: the device, which is not part of the code, carries out its command. */
    method WaitIo()
      modifies this`dev, this`mem
      ensures dev == Finished(old(dev), old(mem)).0 && mem == Finished(old(dev), old(mem)).1
    {
      var (d, m) := Finished(dev, mem);
      dev, mem := d, m;
    }

    /**
     One block, read or written, wherever the arm was before. If the disk is not ready after its seek, or
     after the transfer, the caller is ended without a V, and the semaphore stays taken.
     */
    method DiskIo(op: Op, sought: bool, moved: bool) returns (done: bool)
      requires disk0sem == 1
      modifies this
      ensures done <==> sought && moved
      ensures done ==> (dev.blocks, mem) == Transfer(op, old(dev.blocks), old(mem))
      ensures done ==> dev.arm == op.cyl && dev.command == Idle && disk0sem == 1
      ensures !done ==> disk0sem == 0
      ensures !sought ==> (dev.blocks, mem) == (old(dev.blocks), old(mem))
    {
      disk0sem := disk0sem - 1;
      dev := dev.(command := Seek(op.cyl));
      WaitIo();
      if !sought {
        return false;
      }
      dev := dev.(command := Move(op.sector, op.buf, op.write));
      WaitIo();
      if !moved {
        return false;
      }
      disk0sem := disk0sem + 1;
      done := true;
    }

    /**
     The tape of process a, block i to cylinder i of sector a - 1, up to the marker that ends it, unless a
     device reports that it is not ready; no other block changes. If it is the disk that is not ready, the
     disk's semaphore stays taken; if it is the tape, it does not.
     */
    method TapeToDisk(a: nat, tape: seq<Page>, marks: seq<int>, reports: Reports) returns (done: bool)
      requires disk0sem == 1
      requires exists i :: 0 <= i < |marks| && IsEnd(marks[i])
      requires TapeLength(marks) <= |tape|
      modifies this
      ensures done <==>
              forall i | 0 <= i < TapeLength(marks) :: reports.read(i) && reports.sought(i) && reports.moved(i)
      ensures done ==> disk0sem == 1
      ensures done ==> mem == if TapeLength(marks) == 0 then old(mem)
                              else old(mem)[TapeBuf(a) := tape[TapeLength(marks) - 1]]
      ensures !done ==>
                exists i :: Stops(i, TapeLength(marks), reports) && disk0sem == if reports.read(i) then 0 else 1
      ensures done ==>
                forall p: nat, sector :: BlockOf(dev.blocks, p, sector) ==
                  if sector == a - 1 && p < TapeLength(marks) then tape[p] else old(BlockOf(dev.blocks, p, sector))
    {
      var i := 0;
      while !IsEnd(marks[i])
        invariant i <= TapeLength(marks) && disk0sem == 1
        invariant forall p: nat, sector :: BlockOf(dev.blocks, p, sector)
                    == if sector == a - 1 && p < i then tape[p] else old(BlockOf(dev.blocks, p, sector))
        invariant mem == if i == 0 then old(mem) else old(mem)[TapeBuf(a) := tape[i - 1]]
        invariant forall j | 0 <= j < i :: reports.read(j) && reports.sought(j) && reports.moved(j)
        decreases TapeLength(marks) - i
      {
        ghost var before := dev.blocks;
        if !reports.read(i) {
          assert Stops(i, TapeLength(marks), reports);
          return false;
        }
        mem := mem[TapeBuf(a) := tape[i]];
        done := DiskIo(Op(i, a - 1, TapeBuf(a), true), reports.sought(i), reports.moved(i));
        if !done {
          assert Stops(i, TapeLength(marks), reports);
          return;
        }
        assert dev.blocks == before[Block(i, a - 1) := tape[i]];
        assert forall p: nat, sector | !(p == i && sector == a - 1) ::
            BlockOf(dev.blocks, p, sector) == BlockOf(before, p, sector);
        i := i + 1;
      }
      done := true;
    }
  }
}
