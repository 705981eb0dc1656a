/**
 StdToManagedHipTensorBundleNode: a bundle's tensors are copied to device blocks one by one,
 with two flag vectors that tell the exception handler what to do with each block; and the
 bounded cache of pools by block size.
 */
module Staging {

  import opened BufferModel
  import opened Pool
  import opened TensorLayout

  datatype TensorMsg = TensorMsg(name: string, dtype: DType, shape: seq<int>, dataSize: nat)

  /** A pool block with its asynchronous writer; `responsible` is the writer's flag. */
  datatype Block = Block(bytes: nat, buffer: Buffer, responsible: bool)
  {
    function CancelWriter(): Block {
      if responsible && buffer.phase == Writing then this.(buffer := buffer.Cancel(), responsible := false) else this
    }

    /** fail, also what the writer's destructor does. */
    function FailWriter(): Block {
      if responsible then this.(buffer := buffer.FailWriter(), responsible := false) else this
    }

    /** Nothing may touch the memory any more and no event is owed: dropping the buffer gives
        the block back. */
    predicate Returnable() {
      !responsible && !buffer.mustOrphan && buffer.phase != Writing && buffer.Events() == []
    }

    predicate Withheld() {
      buffer.mustOrphan
    }

    /** Published with an event for its copy. */
    predicate ReadyBehindCopy() {
      !responsible && buffer.phase == Ready && buffer.readiness == EventBackedReady && buffer.producerEvent.Some?
          && !buffer.mustOrphan
    }
  }

  function Leased(bytes: nat, stream: nat): Block {
    Block(bytes, FRESH.OpenWriter(stream), true)
  }

  /** How the callback body ended. */
  datatype End = Published | StdError | UnknownError

  // ---------- The pool cache

  ghost function SumOf(s: set<nat>): nat {
    if s == {} then 0
    else
      var x :| x in s;
      x + SumOf(s - {x})
  }

  lemma {:induction false} SumOfAdd(s: set<nat>, x: nat)
    requires x !in s
    ensures SumOf(s + {x}) == SumOf(s) + x
    decreases |s|
  {
    var t := s + {x};
    var first :| first in t && SumOf(t) == first + SumOf(t - {first});
    if first == x {
      assert t - {x} == s;
    } else {
      assert t - {first} == (s - {first}) + {x};
      SumOfAdd(s - {first}, x);
      SumOfAdd(s - {first}, first);
      assert s - {first} + {first} == s;
    }
  }

  /** What one more pool adds to the cache. */
  lemma CacheGrows(pools: set<nat>, bytes: nat, capacity: nat)
    requires bytes !in pools
    ensures SumOf(pools + {bytes}) * capacity == SumOf(pools) * capacity + bytes * capacity
    ensures |pools + {bytes}| == |pools| + 1
  {
    SumOfAdd(pools, bytes);
    Distribute(SumOf(pools), bytes, capacity);
  }

  lemma Distribute(a: nat, b: nat, c: nat)
    ensures (a + b) * c == a * c + b * c
  {}

  /** ValidateStagingPoolAddition. */
  method ValidateAddition(bytes: nat, capacity: nat, cacheBytes: nat, entries: nat, maxTensor: nat, maxBytes: nat,
      maxEntries: nat)
    returns (r: Option<nat>)
    requires 0 < capacity <= SIZE_MAX && cacheBytes <= SIZE_MAX && maxBytes <= SIZE_MAX
    ensures r.Some? <==> 0 < bytes <= maxTensor && entries < maxEntries && cacheBytes + bytes * capacity <= maxBytes
    ensures r.Some? ==> r.value == cacheBytes + bytes * capacity
  {
    if bytes == 0 || bytes > maxTensor { return None; }
    if entries >= maxEntries { return None; }
    QuotientTest(bytes, capacity, SIZE_MAX);
    if bytes > SIZE_MAX / capacity { return None; }
    var poolBytes := bytes * capacity;
    if poolBytes > SIZE_MAX - cacheBytes { return None; }
    var next := cacheBytes + poolBytes;
    if next > maxBytes { return None; }
    r := Some(next);
  }

  class StdToManagedHipTensorBundleNode {
    const stream: nat
    const poolCapacity: nat
    const maxTensorBytes: nat
    const cacheMaxBytes: nat
    const cacheMaxEntries: nat
    /** The block sizes for which a pool exists. */
    var pools: set<nat>
    var poolCacheBytes: nat
    var poolExhaustionDrops: nat

    /** The cache holds what its pools hold, within the configured limits. */
    ghost predicate Valid()
      reads this
    {
      && 0 < poolCapacity <= SIZE_MAX && cacheMaxBytes <= SIZE_MAX
      && poolCacheBytes == SumOf(pools) * poolCapacity <= cacheMaxBytes
      && |pools| <= cacheMaxEntries
      && forall b :: b in pools ==> 0 < b <= maxTensorBytes
    }

    constructor (stream: nat, poolCapacity: nat, maxTensorBytes: nat, cacheMaxBytes: nat, cacheMaxEntries: nat)
      requires 0 < poolCapacity <= SIZE_MAX && cacheMaxBytes <= SIZE_MAX
      ensures Valid() && pools == {} && poolExhaustionDrops == 0
    {
      this.stream, this.poolCapacity, this.maxTensorBytes := stream, poolCapacity, maxTensorBytes;
      this.cacheMaxBytes, this.cacheMaxEntries := cacheMaxBytes, cacheMaxEntries;
      pools, poolCacheBytes, poolExhaustionDrops := {}, 0, 0;
    }

    /** None: an exception.  A pool is only added when it fits, and stays for good. */
    method GetPool(bytes: nat) returns (ok: bool)
      requires Valid()
      modifies `pools, `poolCacheBytes
      ensures Valid()
      ensures pools == if ok then old(pools) + {bytes} else old(pools)
      ensures bytes in old(pools) ==> ok
    {
      if bytes in pools {
        assert pools + {bytes} == pools;
        return true;
      }
      var next := ValidateAddition(bytes, poolCapacity, poolCacheBytes, |pools|, maxTensorBytes, cacheMaxBytes,
          cacheMaxEntries);
      if next.None? {
        return false;
      }
      var made: bool := *;
      if !made {
        return false;
      }
      CacheGrows(pools, bytes, poolCapacity);
      pools := pools + {bytes};
      poolCacheBytes := next.value;
      ok := true;
    }

    /** One tensor's block.  `lost` is a block whose source owner could not be retained: its
        writer's destructor fails it before the vectors know it. */
    method ReserveOne(t: TensorMsg) returns (end: Option<End>, block: Block, lost: bool)
      requires Valid()
      modifies `pools, `poolCacheBytes, `poolExhaustionDrops
      ensures Valid() && old(pools) <= pools
      ensures end.None? ==> block == Leased(block.bytes, stream) && !lost
      ensures end.Some? ==> end.value != Published
      ensures end.None? ==> Fits(t, block.bytes) && block.bytes in pools
    {
      block, lost := Leased(0, stream), false;
      var size := TensorByteSize(t.shape, t.dtype);
      if size.Err? || t.dataSize < size.value {
        return Some(StdError), block, false;
      }
      var ok := GetPool(size.value);
      if !ok {
        return Some(StdError), block, false;
      }
      var exhausted: bool, acquired: bool, unknown: bool, retained: bool := *, *, *, *;
      if exhausted {
        poolExhaustionDrops := poolExhaustionDrops + 1;
        return Some(StdError), block, false;
      }
      if !acquired {
        return Some(if unknown then UnknownError else StdError), block, false;
      }
      block := Leased(size.value, stream);
      if !retained {
        block := block.FailWriter();
        return Some(if unknown then UnknownError else StdError), block, true;
      }
      end := None;
    }

    /** The first loop: a block for every tensor before anything is submitted. */
    method ReserveAll(msg: seq<TensorMsg>)
      returns (end: Option<End>, blocks: seq<Block>, copySubmitted: seq<bool>, writerActive: seq<bool>, lost: bool)
      requires Valid()
      modifies `pools, `poolCacheBytes, `poolExhaustionDrops
      ensures Valid() && old(pools) <= pools
      ensures |copySubmitted| == |writerActive| == |blocks| <= |msg| && (end.None? ==> |blocks| == |msg| && !lost)
      ensures end.Some? ==> end.value != Published
      ensures forall k :: 0 <= k < |blocks| ==> Tracked(blocks[k], copySubmitted[k], writerActive[k], false)
      ensures forall k :: 0 <= k < |blocks| ==> Fits(msg[k], blocks[k].bytes)
    {
      blocks, copySubmitted, writerActive, lost := [], [], [], false;
      for n := 0 to |msg|
        invariant Valid() && old(pools) <= pools && !lost
        invariant |copySubmitted| == |writerActive| == |blocks| == n
        invariant forall k :: 0 <= k < n ==> Tracked(blocks[k], copySubmitted[k], writerActive[k], false)
        invariant forall k :: 0 <= k < n ==> Fits(msg[k], blocks[k].bytes)
      {
        var block;
        end, block, lost := ReserveOne(msg[n]);
        if end.Some? {
          return;
        }
        blocks := blocks + [block];
        copySubmitted := copySubmitted + [false];
        writerActive := writerActive + [true];
      }
      end := None;
    }

    /** What the flags of a tracked block promise: `copied` says that the copy into it may
        have been submitted. */
    predicate Tracked(b: Block, copySubmitted: bool, writerActive: bool, copied: bool)
      reads this
    {
      && copySubmitted == copied
      && (!writerActive ==> copied && b.ReadyBehindCopy())
      && (writerActive && !copied ==> b == Leased(b.bytes, stream))
      && (writerActive && copied ==>
            (b.responsible && b.buffer == FRESH.OpenWriter(stream))
                || (!b.responsible && b.Withheld() && b.buffer.phase == Failed))
    }

    /** The second loop: submit, finalize, wrap.  `copied` counts the copies that may have
        been submitted; all but the last of them are finalized. */
    method CopyAll(msg: seq<TensorMsg>, reserved: seq<Block>, submittedFlags: seq<bool>, activeFlags: seq<bool>)
      returns (end: Option<End>, blocks: seq<Block>, copySubmitted: seq<bool>, writerActive: seq<bool>, copied: nat)
      requires |submittedFlags| == |activeFlags| == |reserved| == |msg|
      requires forall k :: 0 <= k < |reserved| ==> Tracked(reserved[k], submittedFlags[k], activeFlags[k], false)
      requires forall k :: 0 <= k < |reserved| ==> Fits(msg[k], reserved[k].bytes)
      ensures |copySubmitted| == |writerActive| == |blocks| == |msg| && copied <= |blocks|
      ensures forall k :: 0 <= k < |blocks| ==> Tracked(blocks[k], copySubmitted[k], writerActive[k], k < copied)
      ensures forall k :: 0 <= k < copied - 1 ==> !writerActive[k]
      ensures end.None? ==> copied == |blocks| && forall k :: 0 <= k < |blocks| ==> !writerActive[k]
      ensures end.Some? ==> end.value != Published
    {
      blocks, copySubmitted, writerActive, copied := reserved, submittedFlags, activeFlags, 0;
      for index := 0 to |msg|
        invariant |copySubmitted| == |writerActive| == |blocks| == |msg| && copied == index
        invariant forall k :: 0 <= k < |blocks| ==> Tracked(blocks[k], copySubmitted[k], writerActive[k], k < copied)
        invariant forall k :: 0 <= k < copied ==> !writerActive[k]
        invariant forall k :: 0 <= k < |blocks| ==> Fits(msg[k], blocks[k].bytes)
      {
        assert Tracked(blocks[index], copySubmitted[index], writerActive[index], false);
        copySubmitted := copySubmitted[index := true];
        copied := index + 1;
        var accepted: bool, recorded: bool, unknown: bool, event: nat := *, *, *, *;
        if !accepted {
          return Some(StdError), blocks, copySubmitted, writerActive, copied;
        }
        if !recorded {
          blocks := blocks[index :=
              blocks[index].(buffer := blocks[index].buffer.LoseCompletion(), responsible := false)];
          return Some(if unknown then UnknownError else StdError), blocks, copySubmitted, writerActive, copied;
        }
        blocks := blocks[index := blocks[index].(buffer := blocks[index].buffer.Finalize(event), responsible := false)];
        writerActive := writerActive[index := false];
        var tensor := MakeTensor(msg[index].name, msg[index].dtype, msg[index].shape, Device(blocks[index].bytes), []);
        assert tensor.Ok?;
        var stored: bool := *;
        if !stored {
          return Some(if unknown then UnknownError else StdError), blocks, copySubmitted, writerActive, copied;
        }
      }
      end := None;
    }

    /** The handler for standard exceptions. */
    method Handle(before: seq<Block>, copySubmitted: seq<bool>, writerActive: seq<bool>, ghost copied: nat)
      returns (blocks: seq<Block>)
      requires |copySubmitted| == |writerActive| == |before|
      requires forall k :: 0 <= k < |before| ==> Tracked(before[k], copySubmitted[k], writerActive[k], k < copied)
      ensures |blocks| == |before|
      ensures forall k :: 0 <= k < |blocks| ==>
                            if k >= copied then blocks[k].Returnable() && blocks[k].bytes == before[k].bytes
                            else if writerActive[k] then !blocks[k].responsible && blocks[k].Withheld()
                                && blocks[k].buffer.phase == Failed
                            else blocks[k] == before[k]
    {
      blocks := before;
      for index := 0 to |blocks|
        invariant |blocks| == |before|
        invariant forall k :: index <= k < |blocks| ==> blocks[k] == before[k]
        invariant forall k :: 0 <= k < index ==>
                                if k >= copied then blocks[k].Returnable() && blocks[k].bytes == before[k].bytes
                                else if writerActive[k] then !blocks[k].responsible && blocks[k].Withheld()
                                    && blocks[k].buffer.phase == Failed
                                else blocks[k] == before[k]
      {
        assert Tracked(before[index], copySubmitted[index], writerActive[index], index < copied);
        if !writerActive[index] {
          continue;
        }
        if copySubmitted[index] {
          blocks := blocks[index := blocks[index].FailWriter()];
        } else {
          blocks := blocks[index := blocks[index].CancelWriter()];
        }
      }
    }

    /** The callback.  `blocks` is what the vectors hold when they go out of scope, after the
        writers' destructors; `copied` counts the copies that may have been submitted, in
        order; `lost` is a block that failed before it was tracked. */
    method OnTensorBundle(msg: seq<TensorMsg>) returns (end: End, blocks: seq<Block>, copied: nat, lost: bool)
      requires Valid()
      modifies `pools, `poolCacheBytes, `poolExhaustionDrops
      ensures Valid() && old(pools) <= pools
      ensures Staged(end, blocks, copied, |msg|) && (lost ==> copied == 0 && end != Published)
    {
      var stop, submitted, active;
      copied := 0;
      stop, blocks, submitted, active, lost := ReserveAll(msg);
      if stop.None? {
        stop, blocks, submitted, active, copied := CopyAll(msg, blocks, submitted, active);
      }
      var published: bool, unknown: bool := *, *;
      if stop.None? && published {
        end := Published;
      } else {
        end := if stop.Some? then stop.value else if unknown then UnknownError else StdError;
        if end == StdError {
          blocks := Handle(blocks, submitted, active, copied);
        }
      }
      blocks := LeaveScope(blocks);
    }
  }

  /** A shape whose bytes the message carries. */
  predicate Fits(t: TensorMsg, bytes: nat) {
    && Positive(t.shape) && t.shape != [] && !t.dtype.Unsupported?
    && bytes == Product(t.shape) * BytesPerElement(t.dtype).value && bytes <= t.dataSize && bytes <= SIZE_MAX
  }

  /** The writers' destructors. */
  method LeaveScope(before: seq<Block>) returns (blocks: seq<Block>)
    ensures |blocks| == |before| && forall k :: 0 <= k < |blocks| ==> blocks[k] == before[k].FailWriter()
  {
    blocks := [];
    for k := 0 to |before|
      invariant |blocks| == k && forall j :: 0 <= j < k ==> blocks[j] == before[j].FailWriter()
    {
      blocks := blocks + [before[k].FailWriter()];
    }
  }

  /** Every way the callback can end.  A block that a copy may still be writing to is ready
      behind that copy or withheld; at most the last of them is withheld.  After a standard
      exception every other block is returnable; after an unknown one it is withheld. */
  ghost predicate Staged(end: End, blocks: seq<Block>, copied: nat, tensors: nat) {
    && copied <= |blocks| <= tensors
    && (end == Published ==> copied == |blocks| == tensors && forall k :: 0 <= k < |blocks| ==>
        blocks[k].ReadyBehindCopy())
    && (forall k :: 0 <= k < copied ==> blocks[k].ReadyBehindCopy() || (k == copied - 1 && blocks[k].Withheld()))
    && (end == StdError ==> forall k :: copied <= k < |blocks| ==> blocks[k].Returnable())
    && (end == UnknownError ==> forall k :: copied <= k < |blocks| ==> blocks[k].Withheld())
  }

  function CountWithheld(blocks: seq<Block>): nat {
    if blocks == [] then 0
    else CountWithheld(blocks[..|blocks| - 1]) + if blocks[|blocks| - 1].Withheld() then 1 else 0
  }

  lemma {:induction false} NoneWithheld(blocks: seq<Block>)
    requires forall k :: 0 <= k < |blocks| ==> !blocks[k].Withheld()
    ensures CountWithheld(blocks) == 0
  {
    if blocks == [] {
    } else {
      NoneWithheld(blocks[..|blocks| - 1]);
    }
  }

  lemma {:induction false} OneWithheld(blocks: seq<Block>, w: nat)
    requires forall k :: 0 <= k < |blocks| && k != w ==> !blocks[k].Withheld()
    ensures CountWithheld(blocks) <= 1
  {
    if blocks == [] {
    } else if w == |blocks| - 1 {
      NoneWithheld(blocks[..|blocks| - 1]);
    } else {
      OneWithheld(blocks[..|blocks| - 1], w);
    }
  }

  /** However long the bundle, a standard exception withholds at most one tracked block, and
      none when no copy was submitted. */
  lemma StdErrorWithholdsAtMostOne(blocks: seq<Block>, copied: nat, tensors: nat)
    requires Staged(StdError, blocks, copied, tensors)
    ensures CountWithheld(blocks) <= (if copied == 0 then 0 else 1)
  {
    if copied == 0 {
      NoneWithheld(blocks);
    } else {
      OneWithheld(blocks, copied - 1);
    }
  }

  /** No block that a copy may be writing to is ever returnable. */
  lemma CopiedIsNeverReturnable(end: End, blocks: seq<Block>, copied: nat, tensors: nat, k: nat)
    requires Staged(end, blocks, copied, tensors) && k < copied
    ensures !blocks[k].Returnable()
  {
    assert blocks[k].ReadyBehindCopy() || blocks[k].Withheld();
  }
}
