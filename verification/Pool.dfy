/**
 FixedDeviceMemoryPool as an object: the free list, one acquire call with every way it can
 end, the block token's deleter, shutdown, and where the blocks lie in the allocation.
 Interleavings of these are ManagedSystem's subject.
 */
module Pool {
  import opened BufferModel
  import opened BufferObjects

  const SIZE_MAX: nat := 0xFFFF_FFFF_FFFF_FFFF

  datatype MakeOutcome = Made | BadArgument | CapacityOverflow | AllocationFailed

  datatype AcquireOutcome = Acquired(block: nat) | TimedOut | BadStream | ShuttingDown | AcquireFailed

  class FixedDeviceMemoryPool {
    const device: int
    const blockSize: nat
    const blockCount: nat
    const ops: Backend
    var backed: bool
    var freeBlocks: seq<nat>
    var stopping: bool

    ghost predicate Valid()
      reads this, ops
    {
      && ops.Valid() && 0 < blockSize && 0 < blockCount && blockSize * blockCount <= SIZE_MAX
      && (forall k :: 0 <= k < |freeBlocks| ==> freeBlocks[k] < blockCount)
      && (forall j, k :: 0 <= j < k < |freeBlocks| ==> freeBlocks[j] != freeBlocks[k])
      && (!backed ==> stopping && |freeBlocks| == blockCount)
    }

    constructor (device: int, blockSize: nat, blockCount: nat, ops: Backend)
      requires ops.Valid() && 0 < blockSize && 0 < blockCount && blockSize * blockCount <= SIZE_MAX
      ensures Valid() && this.ops == ops && backed && !stopping
      ensures this.blockSize == blockSize && this.blockCount == blockCount && this.device == device
      ensures freeBlocks == seq(blockCount, i => i)
    {
      this.device, this.blockSize, this.blockCount, this.ops := device, blockSize, blockCount, ops;
      backed, stopping := true, false;
      freeBlocks := [];
      new;
      for i := 0 to blockCount
        invariant freeBlocks == seq(i, k => k)
        invariant ops.Valid() && backed && !stopping
        invariant this.ops == ops && this.blockSize == blockSize && this.blockCount == blockCount
                    && this.device == device
      {
        freeBlocks := freeBlocks + [i];
      }
    }

    /** PoolFactory::make. */
    static method Make(device: int, blockSize: nat, blockCount: nat, ops: Backend)
      returns (r: MakeOutcome, pool: FixedDeviceMemoryPool?)
      requires ops.Valid() && blockSize <= SIZE_MAX && blockCount <= SIZE_MAX
      ensures pool != null <==> r == Made
      ensures r == BadArgument <==> blockSize == 0 || blockCount == 0
      ensures r == CapacityOverflow <==> blockSize != 0 && blockCount != 0 && blockSize * blockCount > SIZE_MAX
      ensures pool != null ==>
                && fresh(pool) && pool.Valid() && pool.ops == ops && pool.backed && !pool.stopping
                && pool.freeBlocks == seq(blockCount, i => i)
    {
      pool := null;
      if blockSize == 0 || blockCount == 0 { return BadArgument, null; }
      QuotientTest(blockSize, blockCount, SIZE_MAX);
      if blockSize > SIZE_MAX / blockCount { return CapacityOverflow, null; }
      var haveMemory: bool := *;
      if !haveMemory { return AllocationFailed, null; }
      pool := new FixedDeviceMemoryPool(device, blockSize, blockCount, ops);
      r := Made;
    }

    /** acquire_for: `block` is the buffer and its writer.  Whatever throws after an index is
        popped, the index is back at the end of the free list, unless selecting the device
        fails in the buffer's destructor; then it is in orphan storage. */
    method AcquireFor(stream: DeviceStream, p: Process)
      returns (r: AcquireOutcome, buffer: BufferState?, writer: WriteHandle?)
      requires Valid()
      modifies this`freeBlocks, ops, p
      ensures Valid()
      ensures (buffer != null <==> r.Acquired?) && (writer != null <==> r.Acquired?)
      ensures r == BadStream <==> stream.Empty? || stream.device != device
      ensures r != BadStream ==>
                && (r == ShuttingDown <==> stopping)
                && (r == TimedOut <==> !stopping && old(freeBlocks) == [])
      ensures r == BadStream || r == ShuttingDown || r == TimedOut ==> freeBlocks == old(freeBlocks)
      ensures r.Acquired? ==>
                && old(freeBlocks) == freeBlocks + [r.block] && r.block < blockCount && r.block !in freeBlocks
                && fresh(buffer) && fresh(writer) && ops.failures == old(ops.failures)
                && buffer.Valid() && buffer.ops == ops && buffer.phase == Writing && buffer.size == blockSize
                && buffer.Owners() == Held(Some(r.block), [], stream.owner)
                && writer.state == buffer && writer.responsible
      ensures r == AcquireFailed ==>
                || freeBlocks == old(freeBlocks)
                || (ops.failures != old(ops.failures)
                    && exists i :: old(freeBlocks) == freeBlocks + [i] && i in p.orphaned)
      ensures p.pending == old(p.pending)
    {
      buffer, writer := null, null;
      if stream.Empty? || stream.device != device { return BadStream, null, null; }
      if stopping { return ShuttingDown, null, null; }
      if freeBlocks == [] { return TimedOut, null, null; }
      var index := freeBlocks[|freeBlocks| - 1];
      freeBlocks := freeBlocks[..|freeBlocks| - 1];
      // Allocating the block token, the buffer state or the buffer wrapper can throw; the
      // token, or the pointer it was to own, is given to the deleter.
      var wrapped: bool := *;
      if !wrapped {
        GiveBack(index);
        return AcquireFailed, null, null;
      }
      var released;
      released, buffer, writer := WrapBlock(index, stream, p);
      if buffer != null { return Acquired(index), buffer, writer; }
      if released { GiveBack(index); }
      r := AcquireFailed;
    }

    /** The buffer of block `index` and its writer; if opening the writer or allocating the
        result throws, the buffer is destroyed and the token `released` or orphaned. */
    method WrapBlock(index: nat, stream: DeviceStream, p: Process)
      returns (released: bool, buffer: BufferState?, writer: WriteHandle?)
      requires ops.Valid() && stream.Stream?
      modifies ops, p
      ensures ops.Valid() && p.pending == old(p.pending) && (buffer != null <==> writer != null)
      ensures buffer != null ==>
                && fresh(buffer) && fresh(writer) && ops.failures == old(ops.failures)
                && buffer.Valid() && buffer.ops == ops && buffer.phase == Writing && buffer.size == blockSize
                && buffer.Owners() == Held(Some(index), [], stream.owner)
                && writer.state == buffer && writer.responsible
      ensures buffer == null && !released ==> index in p.orphaned && ops.failures != old(ops.failures)
    {
      var state := new BufferState(device, blockSize, Some(index), ops, false);
      var outcome, h := GetWriteHandle(state, stream);
      var haveMemory: bool := *;
      if outcome == Done && haveMemory {
        return false, state, h;
      }
      if outcome == Done {
        var cancelled := h.Cancel(p);
        assert cancelled == Done;
      }
      assert state.Abs().Events() == [];
      released := DropBuffer(state, index, p);
      buffer, writer := null, null;
    }

    /** The destructor of a buffer without events whose only owner is its block token. */
    method DropBuffer(state: BufferState, index: nat, p: Process) returns (released: bool)
      requires state.Valid() && state.ops == ops && state.phase != Writing && !state.releaseMustOrphan
      requires state.Abs().Events() == [] && state.Owners() == Held(Some(index), [], None)
      modifies state, ops, p
      ensures ops.Valid() && p.pending == old(p.pending)
      ensures !released ==> index in p.orphaned
      ensures !released ==> ops.failures != old(ops.failures)
    {
      released := Destroy(state, p);
      if !released {
        assert index in multiset(old(p.orphaned)) + multiset([index]);
        assert index in multiset(p.orphaned);
      }
    }

    /** The block token's deleter. */
    method GiveBack(index: nat)
      requires index < blockCount && index !in freeBlocks
                 && (forall k :: 0 <= k < |freeBlocks| ==> freeBlocks[k] < blockCount)
      requires forall j, k :: 0 <= j < k < |freeBlocks| ==> freeBlocks[j] != freeBlocks[k]
      modifies this`freeBlocks
      ensures freeBlocks == old(freeBlocks) + [index]
      ensures forall k :: 0 <= k < |freeBlocks| ==> freeBlocks[k] < blockCount
      ensures forall j, k :: 0 <= j < k < |freeBlocks| ==> freeBlocks[j] != freeBlocks[k]
    {
      freeBlocks := freeBlocks + [index];
    }

    /** Stop handing out blocks; drop the allocation if every block is back. */
    method Shutdown() returns (drained: bool)
      requires Valid()
      modifies this`stopping, this`backed
      ensures Valid() && stopping
      ensures drained <==> |freeBlocks| == blockCount
      ensures backed == (old(backed) && !drained)
    {
      stopping := true;
      drained := |freeBlocks| == blockCount;
      if drained { backed := false; }
    }
  }

  /** The overflow test by division is exact. */
  lemma QuotientTest(a: nat, b: nat, limit: nat)
    requires b > 0
    ensures a > limit / b <==> a * b > limit
  {
    var q := limit / b;
    assert limit == q * b + limit % b;
    if a > q {
      assert a * b >= (q + 1) * b;
    } else {
      assert a * b <= q * b;
    }
  }

  lemma MulMonotone(a: nat, b: nat, c: nat)
    requires a <= b
    ensures a * c <= b * c
  {
    assert b * c == a * c + (b - a) * c;
  }

  /** Block `i` begins at base + i * size: blocks lie inside the allocation and share no byte. */
  lemma BlocksAreDisjoint(base: nat, size: nat, count: nat, i: nat, j: nat, x: nat)
    requires i < count && j < count && i != j
    requires base + i * size <= x < base + (i + 1) * size
    ensures base <= x < base + count * size
    ensures !(base + j * size <= x < base + (j + 1) * size)
  {
    MulMonotone(i + 1, count, size);
    if i < j {
      MulMonotone(i + 1, j, size);
    } else {
      MulMonotone(j + 1, i, size);
    }
  }
}
