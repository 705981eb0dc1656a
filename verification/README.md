# Verification of the managed GPU buffer stack

A Dafny model of the parts of this repository where a mistake would hand out GPU memory that
is still in use, lose a block, or report wrong numbers, and proofs about it. `dafny verify
dfyconfig.toml` checks everything.

The model has four parts.

**Managed buffers and pools.** `BufferModel` is the state of one buffer and what each critical
section of the handle classes does to it. Two models share these functions. `BufferObjects` and
`Pool` are the objects of `buffer.cpp` and `fixed_device_memory_pool.cpp` in sequential form,
with fields updated in place and every backend call free to fail. `ManagedSystem` is the same
system under all interleavings: a pool, its buffers, writer, reader and lease handles, streams
that are first-in first-out queues of operations, events that name a position in a stream, and
release workers; a step is one critical section, one backend call of a worker, or one operation
of the GPU. `ManagedSystemInvariant`, `ManagedSystemFrames`, `ManagedSystemEffects` and
`ManagedSystemSteps` show that every step keeps one invariant; `ManagedSystemSafety` draws the
consequences for all runs, and `ManagedSystemRecycling` shows when blocks do come back.
The rules of gpu_ros_managed/README.md, "Safety contract", appear as guards of the callers'
steps: work is submitted through an active handle, a reservation is cancelled only if nothing
was submitted through it, and a synchronized writer is finalized when its work is done. The rule
that a lease ends after the reads made through it is not taken for granted, because
`copy_to_host_blocking` breaks it when it throws: a step ends a lease at any time, and the
results say what remains. `ReleaseTracker` models the pending-release counters with threads as
stacks of calls, because an owner's deleter may destroy further buffers; `ReleaseTrackerSteps`
shows that every step keeps its invariant and `ReleaseTrackerSafety` what follows for all runs.

**Clients of the protocol.** `StrictInference` is the transaction over n output pools of the
strict ONNX Runtime path, `Staging` the copy of a message's tensors to the device and its pool
cache, `Rundown` the callback rundown of the inference node at shutdown.

**Detection comparison.** `Geometry`, `Matching` and `DetectionMatching` are the overlap
measure and greedy matching of both comparison scripts over real numbers; `FramePairing` and
`BagReport` the report over two bags; `Comparator` the online comparator.

**Layouts, codecs and audit.** `TensorLayout` is the size and stride arithmetic in 64-bit
terms, `TensorList` the conversion to the NVIDIA tensor list and back, `ContractParser` the text
form of I/O contracts with its exact language, and `CopyAudit` the copy audit's summary and
verdict.

Three promises turned out to need care. A failed buffer is not always orphaned: a reader whose
wait fails leaves the orphan flag clear (`FailedButRecycled`), and recycling is still safe;
every other failure sets the flag (`OnlyRefusalsLeaveTheFlagClear`). A blocking copy to the host
that throws ends its lease without marking the buffer: an operation that is unfinished on a free
block is always one that such a lease left behind (`FreeBlocksAreQuiet`), and this can happen
whenever the flag is clear, no other handle is left and the buffer's events complete without the
read (`EarlyLeaseFreesBusyBlock`). And a failure of the strict inference path after submission
withholds either every reserved block or none, because finalizing the writers cannot stop half
way.

## Model

| member | source | states |
|---|---|---|
| ManagedSystemSafety.FreeBlocksAreQuiet | gpu_ros_managed/gpu_ros_managed_core/src/buffer.cpp:118-263 | In every run, whatever backend calls fail and however threads, workers and the GPU interleave, an unfinished operation on a free block was submitted through a blocking lease that ended before it, on a buffer whose orphan flag is clear and none of whose events covers it; so a run in which no lease ends early has no unfinished operation on a free block. |
| ManagedSystemSafety.EarlierLeasesAreOver | gpu_ros_managed/gpu_ros_managed_core/src/fixed_device_memory_pool.cpp:57-71 | When two buffers of a run share a block, the earlier one has been returned and none of its reads or writes is unfinished, but for reads through a lease that ended early; so nothing of the later buffer runs before them. |
| ManagedSystemSafety.ReadsSeeFinishedWrites | gpu_ros_managed/gpu_ros_managed_core/src/buffer.cpp:472-493 | An operation of a reader, or of a lease that is active or ended early, never executes while a write of the same buffer is unfinished. |
| ManagedSystemSafety.UsedEventsAreAlive | gpu_ros_managed/gpu_ros_managed_core/src/buffer.cpp:106-115 | No step waits on, synchronizes or destroys an event that was destroyed before. |
| ManagedSystemSafety.DestroyedOnceAndForAll | gpu_ros_managed/gpu_ros_managed_core/src/buffer.cpp:186-212 | A destroyed event stays destroyed in every continuation; with UsedEventsAreAlive each event is destroyed at most once. |
| ManagedSystemSafety.ReturnedBuffersOweNoEvent | gpu_ros_managed/gpu_ros_managed_core/src/buffer.cpp:187-216 | An event that outlives its buffer implies that the buffer's allocation was not returned. |
| ManagedSystemSafety.SingleWriter | gpu_ros_managed/gpu_ros_managed_core/src/buffer.cpp:601-622 | A buffer is in the writing phase exactly when one active writer handle of either kind exists for it; no buffer being destroyed has one. |
| ManagedSystemSafety.ReadinessMatchesEvent | gpu_ros_managed/gpu_ros_managed_core/src/buffer.cpp:349-356 | Every buffer stores a producer event exactly when its stored readiness is event-backed; readers and leases exist only on buffers that were published. |
| ManagedSystemSafety.NeverFreshAgain | gpu_ros_managed/gpu_ros_managed_core/src/buffer.cpp:606-608 | A buffer that was ready or failed is never fresh or writing again, in any continuation. |
| ManagedSystemSafety.IndicesArePartitioned | gpu_ros_managed/gpu_ros_managed_core/src/fixed_device_memory_pool.cpp:57-82 | Every index is free, in transit inside an acquire call, or held by a live, pending or orphaned buffer, never two of these, and without duplicates in any of them. |
| ManagedSystemSafety.IndicesAreConserved | gpu_ros_managed/gpu_ros_managed_core/src/fixed_device_memory_pool.cpp:68-69 | The numbers of free, in-transit and held indices add up to the capacity in every reachable state. |
| ManagedSystemSafety.DroppedMeansIdle | gpu_ros_managed/gpu_ros_managed_core/src/fixed_device_memory_pool.cpp:160-172 | When shutdown has dropped the allocation, no block is outstanding, and no stream has unfinished work but for reads through a lease that ended early. |
| ManagedSystemSafety.HeldIndexKeepsBacking | gpu_ros_managed/gpu_ros_managed_core/src/fixed_device_memory_pool.cpp:61-62 | While an index is popped, in a call or a buffer, the allocation is alive, so the unlocked read of its base address is safe. |
| ManagedSystemSafety.StoppedPoolHandsOutNothing | gpu_ros_managed/gpu_ros_managed_core/src/fixed_device_memory_pool.cpp:54-56 | After shutdown has begun the free list only grows: no block is handed out any more. |
| ManagedSystemSafety.OrphanFlagIsFinal | gpu_ros_managed/gpu_ros_managed_core/src/buffer.cpp:128-161 | A buffer whose orphan flag is set is never returned to the pool. |
| ManagedSystemSafety.OnlyRefusalsLeaveTheFlagClear | gpu_ros_managed/gpu_ros_managed_core/src/buffer.cpp:472-493 | In every run a failed buffer has its orphan flag set, unless a reader's wait for the producer failed on it before: no other failure leaves the flag clear. |
| ManagedSystemRecycling.ReleaseCanReturn | gpu_ros_managed/gpu_ros_managed_core/src/buffer.cpp:172-226 | From any dying buffer whose orphan flag is clear and whose events have completed there is a run of the release, without failures, that returns its block. |
| ManagedSystemRecycling.FailedButRecycled | gpu_ros_managed/gpu_ros_managed_core/src/buffer.cpp:484-491 | A failed wait in the reader's constructor fails the buffer but leaves the orphan flag clear; with any number of references left and any events, once those have completed its block can be recycled. So a failed buffer need not be orphaned. |
| ManagedSystemRecycling.FailedButRecycledHappens | gpu_ros_managed/gpu_ros_managed_core/src/buffer.cpp:484-491 | The premises of FailedButRecycled occur in a concrete run. |
| ManagedSystemRecycling.EarlyLeaseFreesBusyBlock | gpu_ros_managed/gpu_ros_managed_core/src/buffer.cpp:655-667 | A copy to the host that throws ends its lease without an event and without marking the buffer. From every state in which the lease is the last handle, its read is in flight, the orphan flag is clear and the buffer's events, none or any number, have completed, there is a run after which the block is free and the read still unfinished. |
| ManagedSystemRecycling.BusyLeaseHappens | gpu_ros_managed/gpu_ros_managed_core/src/buffer.cpp:547-572 | Such a state is reached, for a buffer without events. |
| ManagedSystemRecycling.BusyLeaseOfProductHappens | gpu_ros_managed/gpu_ros_managed_core/src/buffer.cpp:547-572 | And for a buffer with a producer event. |
| ManagedSystemSteps.StepKeeps | gpu_ros_managed/gpu_ros_managed_core/src/buffer.cpp:299-654 | Every step of every actor preserves the whole invariant behind the safety results. |
| ManagedSystemSteps.RunKeeps | gpu_ros_managed/gpu_ros_managed_core/src/buffer.cpp:299-654 | So does every run. |
| ReleaseTrackerSteps.StepKeeps | gpu_ros_managed/gpu_ros_managed_core/src/buffer.cpp:163-262 | Every step of destroying threads, workers and nested deleters preserves the tracker's invariant. |
| ReleaseTrackerSafety.CountIsReleasesInFlight | gpu_ros_managed/gpu_ros_managed_core/src/buffer.cpp:163-165 | In every reachable state a backend's pending count is the number of its event-backed releases that were counted and have not finished. |
| ReleaseTrackerSafety.ZeroMeansSettled | gpu_ros_managed/gpu_ros_managed_core/src/buffer.cpp:273-278 | A waiter that sees zero may rely on it: every counted release of that backend has let go of all its owners, and neither the destructor nor the worker keeps a copy. |
| ReleaseTrackerSafety.DecrementsArePositive | gpu_ros_managed/gpu_ros_managed_core/src/buffer.cpp:220-224 | The unsigned counters never wrap, neither in the worker nor when the thread cannot be created. |
| ReleaseTrackerSafety.DeletersRunUnlocked | gpu_ros_managed/gpu_ros_managed_core/src/buffer.cpp:256-262 | No owner deleter runs in a thread that holds the tracker's mutex: the destructor's copies are never the last references. |
| ReleaseTrackerSafety.WorkerDropsLast | gpu_ros_managed/gpu_ros_managed_core/src/buffer.cpp:172-177 | Past its gate the worker holds the only references, so the deleters run there. |
| ReleaseTrackerSafety.HolderCanUnlock | gpu_ros_managed/gpu_ros_managed_core/src/buffer.cpp:164-262 | Whoever holds the tracker's mutex can release it in at most three steps of its own. |
| ReleaseTrackerSafety.InnerIsCountedFirst | gpu_ros_managed/gpu_ros_managed_core/src/buffer.cpp:203-224 | A release whose deleter triggers another is uncounted only after the inner one is counted, or finished if it has no events. |
| ReleaseTrackerSafety.QuietMeansSettled | gpu_ros_managed/gpu_ros_managed_core/src/buffer.cpp:273-285 | With both counts zero, everything that event-backed releases set off, however deeply nested, has let go of its owners. |
| BufferObjects.BufferState.Make | gpu_ros_managed/gpu_ros_managed_core/src/buffer.cpp:680-702 | Fresh or ready buffers are made only with an owner for a nonempty allocation; ready ones are synchronously ready. |
| BufferObjects.BufferState.RecordNewEvent | gpu_ros_managed/gpu_ros_managed_core/src/buffer.cpp:349-352 | An event is created and recorded, or a backend call failed and what was created is reported. |
| BufferObjects.BufferState.DestroyEventOnDevice | gpu_ros_managed/gpu_ros_managed_core/src/buffer.cpp:101-115 | Destroys the event, or sets the orphan flag when the device cannot be selected. |
| BufferObjects.WriteHandle.constructor | gpu_ros_managed/gpu_ros_managed_core/src/buffer.cpp:299-299 | A new writer handle is responsible for its buffer. |
| BufferObjects.WriteHandle.Move | gpu_ros_managed/gpu_ros_managed_core/src/buffer.cpp:300-304 | The moved-from handle keeps neither state nor responsibility. |
| BufferObjects.WriteHandle.RetainOwner | gpu_ros_managed/gpu_ros_managed_core/src/buffer.cpp:320-333 | The source owner is appended while writing and refused in every other situation, with the source's error. |
| BufferObjects.WriteHandle.Finalize | gpu_ros_managed/gpu_ros_managed_core/src/buffer.cpp:334-364 | Publishes with a new live event exactly when no backend call fails; otherwise the buffer is failed and must be orphaned; inactive handles and repeated calls change nothing. |
| BufferObjects.WriteHandle.Fail | gpu_ros_managed/gpu_ros_managed_core/src/buffer.cpp:365-379 | An active handle fails its buffer and sets the orphan flag; an inactive one does nothing. Its destructor does the same. |
| BufferObjects.WriteHandle.Cancel | gpu_ros_managed/gpu_ros_managed_core/src/buffer.cpp:381-399 | A reserved buffer becomes fresh again and lets go of the stream and source owners; outside the writing phase the call is an error and changes nothing. |
| BufferObjects.WriteHandle.FinalizeSynchronously | gpu_ros_managed/gpu_ros_managed_core/src/buffer.cpp:424-436 | A buffer being written becomes synchronously ready; otherwise the call is an error and changes nothing. |
| BufferObjects.ReadinessOf | gpu_ros_managed/gpu_ros_managed_core/src/buffer.cpp:590-595 | A buffer reports not ready exactly when it is in another phase than ready, and event-backed exactly when it is ready and stores an event. |
| BufferObjects.ReadHandle.Open | gpu_ros_managed/gpu_ros_managed_core/src/buffer.cpp:472-493 | A reader is obtained only from a ready buffer on a matching stream; a failed wait fails the buffer without the orphan flag. |
| BufferObjects.ReadHandle.Finish | gpu_ros_managed/gpu_ros_managed_core/src/buffer.cpp:520-545 | The reader's event joins the buffer's list exactly when no backend call fails; otherwise the buffer is failed and must be orphaned. |
| BufferObjects.DropReadHandle | gpu_ros_managed/gpu_ros_managed_core/src/buffer.cpp:500-511 | The destructor of an active read handle finishes it and marks the buffer failed when that throws. |
| BufferObjects.OpenLease | gpu_ros_managed/gpu_ros_managed_core/src/buffer.cpp:547-572 | A lease is obtained only from a ready buffer whose producer event was synchronized; a failed synchronization orphans the buffer. |
| BufferObjects.GetWriteHandle | gpu_ros_managed/gpu_ros_managed_core/src/buffer.cpp:601-613 | A writer is given exactly once, for a fresh buffer and a stream of the same device and backend. |
| BufferObjects.GetSynchronizedWriteHandle | gpu_ros_managed/gpu_ros_managed_core/src/buffer.cpp:614-622 | The same for the synchronized writer, without a stream. |
| BufferObjects.CopyFromHostBlocking | gpu_ros_managed/gpu_ros_managed_core/src/buffer.cpp:631-654 | Each argument and phase error as in the source; success makes the buffer synchronously ready, a failed copy orphans it. |
| BufferObjects.DrainEvents | gpu_ros_managed/gpu_ros_managed_core/src/buffer.cpp:178-212 | The worker synchronizes and destroys every event once whatever fails, and reports safe exactly when nothing failed and the flag was clear. |
| BufferObjects.ScrapEvents | gpu_ros_managed/gpu_ros_managed_core/src/buffer.cpp:227-239 | Without a worker every event is still destroyed once unless its device cannot be selected. |
| BufferObjects.ReleaseNow | gpu_ros_managed/gpu_ros_managed_core/src/buffer.cpp:143-161 | An event-free buffer's owners share one fate, decided by the flag and one device selection. |
| BufferObjects.ReleaseOnWorker | gpu_ros_managed/gpu_ros_managed_core/src/buffer.cpp:163-262 | The allocation, the stream owner and all source owners are released together or orphaned together; released exactly when nothing failed and the flag was clear; the pending count is restored. |
| BufferObjects.Destroy | gpu_ros_managed/gpu_ros_managed_core/src/buffer.cpp:118-263 | The whole destructor: shared fate with that exact condition, and no event survives a release. |
| Pool.FixedDeviceMemoryPool.constructor | gpu_ros_managed/gpu_ros_managed_core/src/fixed_device_memory_pool.cpp:186-197 | A new pool has every index free once and is not stopping. |
| Pool.FixedDeviceMemoryPool.Make | gpu_ros_managed/gpu_ros_managed_core/src/fixed_device_memory_pool.cpp:174-198 | Zero sizes and an overflowing capacity are refused, the latter exactly when the product exceeds the machine maximum. |
| Pool.FixedDeviceMemoryPool.AcquireFor | gpu_ros_managed/gpu_ros_managed_core/src/fixed_device_memory_pool.cpp:37-83 | The five ways one acquire call ends: with the last free index in a buffer being written, with an error that leaves the free list as it was, or with the index in orphan storage because a device could not be selected. |
| Pool.FixedDeviceMemoryPool.WrapBlock | gpu_ros_managed/gpu_ros_managed_core/src/fixed_device_memory_pool.cpp:70-82 | If opening the writer or allocating the result throws, the buffer is destroyed and its token released or orphaned. |
| Pool.FixedDeviceMemoryPool.DropBuffer | gpu_ros_managed/gpu_ros_managed_core/src/buffer.cpp:143-161 | The destructor of such a buffer gives the index back or orphans it. |
| Pool.FixedDeviceMemoryPool.GiveBack | gpu_ros_managed/gpu_ros_managed_core/src/fixed_device_memory_pool.cpp:62-68 | The block token's deleter appends the index and keeps the list free of duplicates. |
| Pool.FixedDeviceMemoryPool.Shutdown | gpu_ros_managed/gpu_ros_managed_core/src/fixed_device_memory_pool.cpp:160-172 | No block is handed out any more, and the allocation is dropped exactly when every index is free. |
| Pool.QuotientTest | gpu_ros_managed/gpu_ros_managed_core/src/fixed_device_memory_pool.cpp:180-182 | The overflow test by division is exact. |
| Pool.BlocksAreDisjoint | gpu_ros_managed/gpu_ros_managed_core/src/fixed_device_memory_pool.cpp:62-62 | Block byte ranges lie inside the allocation and are pairwise disjoint. |
| StrictInference.OnnxInferenceCore.Acquire | gpu_ros_object_detection/gpu_ros_onnx_inference/src/onnx_inference_core.cpp:611-627 | While other threads drop earlier outputs: one free block, or a stop at which the pool is untouched or the block was given back, lost exactly when a device selection failed. |
| StrictInference.OnnxInferenceCore.Reserve | gpu_ros_object_detection/gpu_ros_onnx_inference/src/onnx_inference_core.cpp:610-644 | One block from each pool in order, or a stop with what was reserved so far; a drop is counted exactly when a pool is exhausted. |
| StrictInference.OnnxInferenceCore.Unwind | gpu_ros_object_detection/gpu_ros_onnx_inference/src/onnx_inference_core.cpp:593-609 | When the reservations go out of scope a block is withheld exactly when its writer failed; otherwise it is free again, or lost when a device selection failed, each loss for one failure. |
| StrictInference.OnnxInferenceCore.SubmitReserved | gpu_ros_object_detection/gpu_ros_onnx_inference/src/onnx_inference_core.cpp:650-744 | From binding to the outputs: either every output is synchronously ready, or the core is unhealthy and every block is given back, or every block is withheld. |
| StrictInference.OnnxInferenceCore.RunStrictManagedInference | gpu_ros_object_detection/gpu_ros_onnx_inference/src/onnx_inference_core.cpp:516-746 | The transaction over n pools, interleaved with consumers of earlier outputs: the fate of each pool's block for each kind of failure, the health latch, and one lost block for each failed device selection. |
| StrictInference.OnnxInferenceCore.Shutdown | gpu_ros_object_detection/gpu_ros_onnx_inference/src/onnx_inference_core.cpp:359-376 | Every pool is told to stop, and the result is whether all of them are drained. |
| StrictInference.CancelReservations | gpu_ros_object_detection/gpu_ros_onnx_inference/src/onnx_inference_core.cpp:599-609 | Every reservation is cancelled, or failed if cancelling throws. |
| StrictInference.FailAll | gpu_ros_object_detection/gpu_ros_onnx_inference/src/onnx_inference_core.cpp:736-739 | Every writer that is still responsible fails its buffer. |
| StrictInference.RollBack | gpu_ros_object_detection/gpu_ros_onnx_inference/src/onnx_inference_core.cpp:734-744 | Submitted work is failed, unsubmitted work cancelled. |
| StrictInference.FinalizeAll | gpu_ros_object_detection/gpu_ros_onnx_inference/src/onnx_inference_core.cpp:708-710 | No writer of a reservation can throw here, so finalizing is all or nothing. |
| StrictInference.AllComeBack | gpu_ros_object_detection/gpu_ros_onnx_inference/src/onnx_inference_core.cpp:734-744 | A call that ends before submission, or after every writer was finalized, gives back every block it took unless a device selection fails in it, and no pool has fewer free blocks for it. |
| StrictInference.LossesAreSelectionFailures | gpu_ros_managed/gpu_ros_managed_core/src/buffer.cpp:143-161 | Over a whole run the number of lost blocks is the number of device selections that failed in calls. |
| StrictInference.AtMostOneWithheldPerPool | gpu_ros_object_detection/gpu_ros_onnx_inference/src/onnx_inference_core.cpp:523-526 | Over a whole run with any number of failures this function withholds at most one block of each pool, and none while the core is healthy. |
| StrictInference.UnhealthyForGood | gpu_ros_object_detection/gpu_ros_onnx_inference/src/onnx_inference_core.cpp:735-735 | The latch never opens again, and an unhealthy core withholds nothing more. |
| StrictInference.BlocksAreConserved | gpu_ros_object_detection/gpu_ros_onnx_inference/src/onnx_inference_core.cpp:611-648 | In every state of a run free, lent, withheld, lost and abandoned blocks add up to each pool's capacity, and no block is left reserved between calls. |
| StrictInference.WithheldNeverDrains | gpu_ros_object_detection/gpu_ros_onnx_inference/src/onnx_inference_core.cpp:371-373 | A pool with a withheld block never drains, so its allocation is kept for good. |
| Staging.ValidateAddition | gpu_ros_object_detection/gpu_ros_onnx_inference/include/gpu_ros_onnx_inference/staging_pool_limits.hpp:26-52 | A pool is admitted exactly when its tensor size, the entry count and the exact total size are within the limits; none of the machine-width checks refuses more than that. |
| Staging.StdToManagedHipTensorBundleNode.GetPool | gpu_ros_object_detection/gpu_ros_onnx_inference/src/managed_hip_tensor_bundle_nodes.cpp:127-143 | The cache only grows by a pool that fits, and its byte count stays the sum of its pools and within the limit. |
| Staging.StdToManagedHipTensorBundleNode.ReserveOne | gpu_ros_object_detection/gpu_ros_onnx_inference/src/managed_hip_tensor_bundle_nodes.cpp:171-188 | A block for one tensor, or an exception; a block whose owner could not be retained is failed by its writer. |
| Staging.StdToManagedHipTensorBundleNode.ReserveAll | gpu_ros_object_detection/gpu_ros_onnx_inference/src/managed_hip_tensor_bundle_nodes.cpp:171-189 | Both flag vectors cover every tracked block, and nothing was submitted. |
| Staging.StdToManagedHipTensorBundleNode.CopyAll | gpu_ros_object_detection/gpu_ros_onnx_inference/src/managed_hip_tensor_bundle_nodes.cpp:191-209 | The flags always tell the truth about each block, and all copies but the last submitted one are finalized. |
| Staging.StdToManagedHipTensorBundleNode.Handle | gpu_ros_object_detection/gpu_ros_onnx_inference/src/managed_hip_tensor_bundle_nodes.cpp:211-221 | Finalized blocks are left alone, possibly submitted ones failed, unsubmitted ones cancelled and returnable. |
| Staging.StdToManagedHipTensorBundleNode.OnTensorBundle | gpu_ros_object_detection/gpu_ros_onnx_inference/src/managed_hip_tensor_bundle_nodes.cpp:145-232 | Every way the callback ends, for bundles of any length: which blocks are ready behind their copy, withheld, or returnable. |
| Staging.LeaveScope | gpu_ros_object_detection/gpu_ros_onnx_inference/src/managed_hip_tensor_bundle_nodes.cpp:225-228 | The writers' destructors fail whatever is still active. |
| Staging.StdErrorWithholdsAtMostOne | gpu_ros_object_detection/gpu_ros_onnx_inference/src/managed_hip_tensor_bundle_nodes.cpp:211-221 | After a standard exception at most one tracked block is withheld, and none if nothing was submitted. |
| Staging.CopiedIsNeverReturnable | gpu_ros_object_detection/gpu_ros_onnx_inference/src/managed_hip_tensor_bundle_nodes.cpp:212-220 | A block that a copy may be writing to is never handed back as unused. |
| Rundown.StepKeeps | gpu_ros_object_detection/gpu_ros_onnx_inference/src/onnx_inference_node.cpp:127-215 | Every step of callbacks and destructor preserves the rundown invariant. |
| Rundown.ActiveIsUsers | gpu_ros_object_detection/gpu_ros_onnx_inference/src/onnx_inference_node.cpp:130-148 | The active count is the number of callbacks between entry and exit. |
| Rundown.UsersHaveNodeAndIo | gpu_ros_object_detection/gpu_ros_onnx_inference/src/onnx_inference_node.cpp:138-139 | A callback that got past its check has a live node and IO for as long as it uses them. |
| Rundown.DrainedForGood | gpu_ros_object_detection/gpu_ros_onnx_inference/src/onnx_inference_node.cpp:203-207 | After the destructor's wait no callback is inside, none gets in, and none publishes. |
| Rundown.ActiveNeverRises | gpu_ros_object_detection/gpu_ros_onnx_inference/src/onnx_inference_node.cpp:194-198 | Once shutdown has begun the active count never rises. |
| Rundown.ProgressLowersRank | gpu_ros_object_detection/gpu_ros_onnx_inference/src/onnx_inference_node.cpp:127-150 | Every step that is not a new message or a spurious wake-up lowers a natural-number rank. |
| Rundown.RunsAreBounded | gpu_ros_object_detection/gpu_ros_onnx_inference/src/onnx_inference_node.cpp:189-215 | So such steps are bounded in number, whatever the schedule. |
| Rundown.NeverStuck | gpu_ros_object_detection/gpu_ros_onnx_inference/src/onnx_inference_node.cpp:203-206 | While anything is unfinished some step is possible; no wake-up is lost and nobody waits in a circle. With RunsAreBounded: shutdown terminates. |
| Geometry.IouRange | gpu_ros_object_detection/gpu_ros_detection_validation/scripts/compare_detection2d_bags.py:207-228 | For upright boxes the measure exists, lies in [0, 1] and is symmetric; the negative-union error cannot occur. |
| Geometry.ScriptsAgree | gpu_ros_object_detection/gpu_ros_rtdetr/scripts/compare_detections.py:43-51 | The clamping measure of the online script equals the checking one of the bag script on upright boxes. |
| Geometry.FullOverlapIsEquality | gpu_ros_object_detection/gpu_ros_detection_validation/scripts/compare_detection2d_bags.py:217-228 | The measure is 1 exactly for two equal boxes of positive area. |
| Geometry.PositiveIsOverlap | gpu_ros_object_detection/gpu_ros_detection_validation/scripts/compare_detection2d_bags.py:217-228 | The measure is positive exactly when the interiors meet. |
| Geometry.SizedIsUpright | gpu_ros_object_detection/gpu_ros_detection_validation/scripts/compare_detection2d_bags.py:194-201 | A detection's box is upright exactly when its sizes are nonnegative. |
| Matching.ChoiceIsUnique | gpu_ros_object_detection/gpu_ros_detection_validation/scripts/compare_detection2d_bags.py:341-372 | The set of candidate pairs and the trial order determine the greedy result: it is the only one-to-one choice in which every positive pair left out loses to a chosen one. |
| Matching.ChoiceExists | gpu_ros_object_detection/gpu_ros_detection_validation/scripts/compare_detection2d_bags.py:341-372 | Every set of index pairs has a greedy result. |
| Matching.ChoiceIsMaximal | gpu_ros_object_detection/gpu_ros_detection_validation/scripts/compare_detection2d_bags.py:365-371 | Every positive pair left out shares an endpoint with a chosen pair of at least its weight. |
| Matching.GreedyIsHalfOfBest | gpu_ros_object_detection/gpu_ros_detection_validation/scripts/compare_detection2d_bags.py:341-387 | The greedy result weighs at least half of any one-to-one choice from the same pairs. |
| Matching.HalfIsTight | gpu_ros_object_detection/gpu_ros_detection_validation/scripts/compare_detection2d_bags.py:341-387 | The bound cannot be improved: weights for which a better choice comes arbitrarily near to twice the greedy one. |
| Matching.SortPairs | gpu_ros_object_detection/gpu_ros_detection_validation/scripts/compare_detection2d_bags.py:355-356 | The pairs in strict trial order, none lost. |
| Matching.Select | gpu_ros_object_detection/gpu_ros_detection_validation/scripts/compare_detection2d_bags.py:358-372 | The selection loop computes the greedy choice, and its two sets are the indices used. |
| DetectionMatching.BuildPairs | gpu_ros_object_detection/gpu_ros_detection_validation/scripts/compare_detection2d_bags.py:341-354 | Exactly the class-compatible index pairs with their overlaps, each once. |
| DetectionMatching.MatchDetections | gpu_ros_object_detection/gpu_ros_detection_validation/scripts/compare_detection2d_bags.py:326-395 | Refuses exactly lists with a negative size; otherwise the greedy choice with its overlaps, score differences, left-over counts and class counts. |
| DetectionMatching.Observe | gpu_ros_object_detection/gpu_ros_detection_validation/scripts/compare_detection2d_bags.py:372-384 | The statistics of the chosen pairs, in the order they were chosen. |
| DetectionMatching.MatchFrame | gpu_ros_object_detection/gpu_ros_rtdetr/scripts/compare_detections.py:58-107 | The same for the online script, with large indices first on ties and three class outcomes. |
| DetectionMatching.OutcomesCoverChoice | gpu_ros_object_detection/gpu_ros_rtdetr/scripts/compare_detections.py:87-96 | Matches, mismatches and unavailable pairs add up to the chosen pairs; score differences come from the first two kinds only. |
| DetectionMatching.ClassAwareNeverMismatches | gpu_ros_object_detection/gpu_ros_detection_validation/scripts/compare_detection2d_bags.py:346-347 | With class-aware matching no chosen pair has two different classes. |
| DetectionMatching.BagResultIsUnique | gpu_ros_object_detection/gpu_ros_detection_validation/scripts/compare_detection2d_bags.py:326-395 | The result is determined by the inputs. |
| DetectionMatching.FrameResultIsUnique | gpu_ros_object_detection/gpu_ros_rtdetr/scripts/compare_detections.py:58-107 | So is the online script's. |
| DetectionMatching.FrameResultExists | gpu_ros_object_detection/gpu_ros_rtdetr/scripts/compare_detections.py:58-107 | And it exists for any two lists. |
| DetectionMatching.ReportedOverlaps | gpu_ros_object_detection/gpu_ros_detection_validation/scripts/compare_detection2d_bags.py:365-372 | Reported overlaps are the boxes' overlaps, lie in (0, 1] and never increase along the list. |
| DetectionMatching.LeftOverIsBeaten | gpu_ros_object_detection/gpu_ros_detection_validation/scripts/compare_detection2d_bags.py:365-371 | A detection is left over only if what it overlaps is taken by something it overlaps at least as much. |
| FramePairing.FillQueues | gpu_ros_object_detection/gpu_ros_detection_validation/scripts/compare_detection2d_bags.py:309-311 | Each stamp's queue holds that stamp's candidate frames in order, and nothing is lost. |
| FramePairing.PairByStamp | gpu_ros_object_detection/gpu_ros_detection_validation/scripts/compare_detection2d_bags.py:309-323 | The loop makes the stamp pairs and counts exactly the frames of both sides that got none. |
| FramePairing.PairFrames | gpu_ros_object_detection/gpu_ros_detection_validation/scripts/compare_detection2d_bags.py:296-323 | Both policies, and the error for any other. |
| FramePairing.StampPairsZip | gpu_ros_object_detection/gpu_ros_detection_validation/scripts/compare_detection2d_bags.py:313-320 | For every stamp the pairs are the zip of that stamp's frames in the two bags: k-th with k-th. |
| FramePairing.PairsPerStamp | gpu_ros_object_detection/gpu_ros_detection_validation/scripts/compare_detection2d_bags.py:313-320 | A stamp gets exactly as many pairs as the bag with fewer of its frames has. |
| FramePairing.PairingTakes | gpu_ros_object_detection/gpu_ros_detection_validation/scripts/compare_detection2d_bags.py:296-323 | Paired frames come from their bags and none is used twice, on either side. |
| BagReport.CompareFrame | gpu_ros_object_detection/gpu_ros_detection_validation/scripts/compare_detection2d_bags.py:398-434 | One pair's comparison, refused exactly when a detection has a negative size. |
| BagReport.Report | gpu_ros_object_detection/gpu_ros_detection_validation/scripts/compare_detection2d_bags.py:809-827 | The report on two lists of frames: when it exists, and that it is made from the pairing and one comparison per pair. |
| BagReport.TakenPlusUnpaired | gpu_ros_object_detection/gpu_ros_detection_validation/scripts/compare_detection2d_bags.py:231-250 | Detections of paired frames and the unpaired count add up to all detections of a bag. |
| BagReport.ReportConserves | gpu_ros_object_detection/gpu_ros_detection_validation/scripts/compare_detection2d_bags.py:567-573 | For any two bags the detections of each side are matched plus unmatched in the summary, and its frames paired plus unpaired. |
| BagReport.ClassCountsFit | gpu_ros_object_detection/gpu_ros_detection_validation/scripts/compare_detection2d_bags.py:574-575 | Class matches never exceed class samples, nor these the matched pairs; with class-aware matching all samples agree. |
| BagReport.ReportIsDetermined | gpu_ros_object_detection/gpu_ros_detection_validation/scripts/compare_detection2d_bags.py:545-632 | Two reports of the same bags are equal. |
| BagReport.KeptIsWhatPasses | gpu_ros_object_detection/gpu_ros_detection_validation/scripts/compare_detection2d_bags.py:155-183 | The score filter keeps each occurrence of a detection that passes and nothing else. |
| BagReport.EverythingIsKept | gpu_ros_object_detection/gpu_ros_detection_validation/scripts/compare_detection2d_bags.py:80-85 | Without a threshold the filter changes nothing. |
| BagReport.FilterDetections | gpu_ros_object_detection/gpu_ros_detection_validation/scripts/compare_detection2d_bags.py:155-183 | A detection with a negative size is refused before the filter looks at it: the error does not depend on the threshold. |
| BagReport.ReadFrames | gpu_ros_object_detection/gpu_ros_detection_validation/scripts/compare_detection2d_bags.py:280-293 | The frames of a bag, numbered from zero; refused exactly when some detection of some frame has a negative size. |
| BagReport.CompareBags | gpu_ros_object_detection/gpu_ros_detection_validation/scripts/compare_detection2d_bags.py:790-827 | The whole comparison: it stops exactly when a detection of either bag, paired and kept or not, has a negative size or the policy is unknown; otherwise its result is the report on the two bags. |
| BagReport.BagsAreConserved | gpu_ros_object_detection/gpu_ros_detection_validation/scripts/compare_detection2d_bags.py:790-827 | From the bags to the counts: on each side every detection that passes the filter is matched or unmatched, every message is a paired or an unpaired frame, and bags and options determine the report. |
| Comparator.DetectionComparator.constructor | gpu_ros_object_detection/gpu_ros_rtdetr/scripts/compare_detections.py:151-175 | A new comparator has received nothing. |
| Comparator.DetectionComparator.Receive | gpu_ros_object_detection/gpu_ros_rtdetr/scripts/compare_detections.py:184-244 | The effect of one message on every field; a malformed one changes nothing but the error. |
| Comparator.DetectionComparator.PairWith | gpu_ros_object_detection/gpu_ros_rtdetr/scripts/compare_detections.py:201-234 | The counterpart leaves its buffer and both sides' counters advance, whichever side arrived last. |
| Comparator.DetectionComparator.Store | gpu_ros_object_detection/gpu_ros_rtdetr/scripts/compare_detections.py:235-244 | The message waits; a waiting message of the same stamp is counted as unpaired and replaced. |
| Comparator.DetectionComparator.Summarize | gpu_ros_object_detection/gpu_ros_rtdetr/scripts/compare_detections.py:246-290 | Per side, received frames are paired plus unmatched and received detections matched plus unmatched; the three class counts add up to matched. |
| Comparator.RunOk | gpu_ros_object_detection/gpu_ros_rtdetr/scripts/compare_detections.py:184-244 | For every interleaving the two buffers share no stamp, and on each side received is paired plus replaced plus pending, for frames and detections. |
| Comparator.ReceivedIsAccepted | gpu_ros_object_detection/gpu_ros_rtdetr/scripts/compare_detections.py:185-198 | The received counters are what arrived well formed on each side. |
| Comparator.WaitingIsLocal | gpu_ros_object_detection/gpu_ros_rtdetr/scripts/compare_detections.py:200-204 | What waits under a stamp is decided by the messages with that stamp. |
| Comparator.TotalsAreSumOverStamps | gpu_ros_object_detection/gpu_ros_rtdetr/scripts/compare_detections.py:184-244 | All counters and samples are the sum over the stamps of running the comparator on each stamp's messages alone. |
| TensorLayout.BytesPerElement | gpu_ros_managed/gpu_ros_managed_tensor_bundle/src/tensor_bundle.cpp:16-35 | Sizes 1, 2, 4 or 8, and an error exactly for unknown types. |
| TensorLayout.TensorByteSize | gpu_ros_managed/gpu_ros_managed_tensor_bundle/src/tensor_bundle.cpp:37-58 | For valid positive shapes overflow is reported exactly when the mathematical size exceeds the machine maximum; for others, which error comes first. |
| TensorLayout.ContiguousStrides | gpu_ros_managed/gpu_ros_managed_tensor_bundle/src/tensor_bundle.cpp:60-73 | Succeeds exactly when the byte size fits; the strides are the products of the later dimensions; the stride overflow branch is unreachable. |
| TensorLayout.OffsetsAreABijection | gpu_ros_managed/gpu_ros_managed_tensor_bundle/src/tensor_bundle.cpp:60-73 | The strides map in-range indices one to one onto the aligned offsets below the byte size. |
| TensorLayout.OffsetsAreRowMajor | gpu_ros_managed/gpu_ros_managed_tensor_bundle/src/tensor_bundle.cpp:60-73 | A lexicographically smaller index lies at a smaller offset. |
| TensorLayout.MakeTensor | gpu_ros_managed/gpu_ros_managed_tensor_bundle/src/tensor_bundle.cpp:75-99 | A tensor is made exactly for a valid layout, contiguous or omitted strides and storage that is large enough, and it is then consistent. |
| TensorLayout.TensorFromPool | gpu_ros_managed/gpu_ros_managed_tensor_bundle/src/tensor_bundle.cpp:145-161 | A tensor over a leased block, or the block given back unused when the layout is refused. |
| TensorList.CodesRoundTrip | gpu_ros_managed/gpu_ros_nvidia_tensor_bundle_compat/src/tensor_bundle_conversion.cpp:28-87 | The two type tables are inverse to each other and cover the element sizes. |
| TensorList.ReadShape | gpu_ros_managed/gpu_ros_nvidia_tensor_bundle_compat/src/tensor_bundle_conversion.cpp:157-172 | The shape exactly when the rank matches and no dimension is zero. |
| TensorList.ConvertNvidia | gpu_ros_managed/gpu_ros_nvidia_tensor_bundle_compat/src/tensor_bundle_conversion.cpp:174-206 | A tensor converts exactly when rank, type, payload size and strides are right. |
| TensorList.ConvertBundle | gpu_ros_managed/gpu_ros_nvidia_tensor_bundle_compat/src/tensor_bundle_conversion.cpp:214-241 | A tensor converts exactly when its payload size is right and rank and dimensions fit the list's fields. |
| TensorList.ToTensorBundle | gpu_ros_managed/gpu_ros_nvidia_tensor_bundle_compat/src/tensor_bundle_conversion.cpp:192-207 | A list converts exactly when every tensor does. |
| TensorList.ToNvidiaTensorList | gpu_ros_managed/gpu_ros_nvidia_tensor_bundle_compat/src/tensor_bundle_conversion.cpp:209-243 | A bundle converts exactly when every tensor does. |
| TensorList.BundleRoundTrip | gpu_ros_managed/gpu_ros_nvidia_tensor_bundle_compat/src/tensor_bundle_conversion.cpp:192-243 | Every bundle that converts comes back unchanged. |
| TensorList.ListRoundTrip | gpu_ros_managed/gpu_ros_nvidia_tensor_bundle_compat/src/tensor_bundle_conversion.cpp:192-243 | Every list that converts comes back with omitted strides filled in and nothing else changed, exactly when no rank exceeds 255. |
| TensorList.ConversionLosesOnlyStrides | gpu_ros_managed/gpu_ros_nvidia_tensor_bundle_compat/src/tensor_bundle_conversion.cpp:192-207 | Lists that become the same bundle differ at most in omitted strides. |
| ContractParser.TrimSplits | gpu_ros_object_detection/gpu_ros_onnx_inference/src/managed_io_contract.cpp:29-40 | Trimming takes white space off both ends and nothing else. |
| ContractParser.TrimPadded | gpu_ros_object_detection/gpu_ros_onnx_inference/src/managed_io_contract.cpp:29-40 | Padding a trimmed text with white space and trimming gives the text back. |
| ContractParser.DimensionTexts | gpu_ros_object_detection/gpu_ros_onnx_inference/src/managed_io_contract.cpp:72-83 | A token is a dimension exactly when it is an optional plus sign and digits of a value from 1 to 2^63 - 1. |
| ContractParser.ParseShape | gpu_ros_object_detection/gpu_ros_onnx_inference/src/managed_io_contract.cpp:54-91 | The cursor loop reads the comma-separated tokens between the brackets. |
| ContractParser.ParseDtype | gpu_ros_object_detection/gpu_ros_onnx_inference/src/managed_io_contract.cpp:42-52 | Exactly the two supported texts. |
| ContractParser.ParseEntry | gpu_ros_object_detection/gpu_ros_onnx_inference/src/managed_io_contract.cpp:178-199 | The result is a contract exactly when the text is a rendering of it, whatever the white space, and its name can be written; every other text is refused. |
| ContractParser.CheckUniqueNames | gpu_ros_object_detection/gpu_ros_onnx_inference/src/managed_io_contract.cpp:93-103 | Accepts exactly lists with distinct names. |
| ContractParser.ParseContracts | gpu_ros_object_detection/gpu_ros_onnx_inference/src/managed_io_contract.cpp:170-203 | Returns a list exactly when the entries mean its elements, it is not empty and its names are distinct. |
| ContractParser.EntryLanguage | gpu_ros_object_detection/gpu_ros_onnx_inference/src/managed_io_contract.cpp:178-199 | A text means a contract exactly when it is a rendering of it: a trimmed name without an equals sign, a type, bracketed dimensions, and white space around any token. |
| ContractParser.ListRoundTrip | gpu_ros_object_detection/gpu_ros_onnx_inference/src/managed_io_contract.cpp:170-203 | A list with distinct names is read back from any way to write it. |
| ContractParser.CanonicalRoundTrip | gpu_ros_object_detection/gpu_ros_onnx_inference/src/managed_io_contract.cpp:170-203 | Every valid contract is read back from its canonical text. |
| ContractParser.AcceptedIsValid | gpu_ros_object_detection/gpu_ros_onnx_inference/src/managed_io_contract.cpp:170-203 | Whatever is accepted has positive ranks, positive dimensions, and distinct nonempty trimmed names. |
| ContractParser.ManagedTensorByteSize | gpu_ros_object_detection/gpu_ros_onnx_inference/src/managed_io_contract.cpp:218-238 | Overflow exactly when the mathematical size exceeds the machine maximum. |
| CopyAudit.SummarizeEvents | gpu_ros_object_detection/gpu_ros_onnx_inference/scripts/copy_audit_common.py:474-507 | The loop computes the summary function of the trace. |
| CopyAudit.SummaryOfConcatenation | gpu_ros_object_detection/gpu_ros_onnx_inference/scripts/copy_audit_common.py:474-507 | The summary of two traces run together is the sum of their counters and totals. |
| CopyAudit.SummaryOfPermutation | gpu_ros_object_detection/gpu_ros_onnx_inference/scripts/copy_audit_common.py:474-507 | The summary depends on the multiset of events only. |
| CopyAudit.CountExtraCopies | gpu_ros_object_detection/gpu_ros_onnx_inference/scripts/copy_audit_common.py:682-696 | Failures are appended exactly when a payload-sized signature occurs in the managed trace only, outside the adapter directions. |
| CopyAudit.CountExceededRates | gpu_ros_object_detection/gpu_ros_onnx_inference/scripts/copy_audit_common.py:698-734 | Failures are appended exactly when some payload copy's rate exceeds the reference by more than the limit. |
| CopyAudit.CountRiskyKernels | gpu_ros_object_detection/gpu_ros_onnx_inference/scripts/copy_audit_common.py:754-779 | Risks are listed exactly when a managed-only kernel looks like a payload copy or is named as a risk. |
| CopyAudit.BuildPairReport | gpu_ros_object_detection/gpu_ros_onnx_inference/scripts/copy_audit_common.py:596-838 | The errors for bad options, and the verdict as a function of the two summaries and the options. |
| CopyAudit.VerdictIgnoresOrder | gpu_ros_object_detection/gpu_ros_onnx_inference/scripts/copy_audit_common.py:829-838 | The verdict depends only on the two multisets of events. |
| CopyAudit.FailIsMonotone | gpu_ros_object_detection/gpu_ros_onnx_inference/scripts/copy_audit_common.py:682-734 | With frame counts, payload sizes and evidence fixed, FAIL survives adding managed events and removing reference events. |
| CopyAudit.SelfComparisonDoesNotFail | gpu_ros_object_detection/gpu_ros_onnx_inference/scripts/copy_audit_common.py:682-734 | A trace compared with itself over the same frames fails only on confirmed evidence. |

## Left out

- The CUDA and HIP backends, ONNX Runtime sessions and bindings, and NITROS types: backend and runtime calls are steps or values that may succeed or fail freely.
- `BufferPhase::kReleased`: no statement of the source assigns it.
- Buffers over external allocations in the interleaving model: `ManagedSystem` has one pool and the buffers over its blocks; `BufferObjects` covers the others.
- BufferObjects.WriteHandle.Cancel: one class stands for both writer handle classes of the source, which differ only in how they are finalized.
- Pool.FixedDeviceMemoryPool.AcquireFor: the backend-kind mismatch of a pool or a stream is not modelled, every object here belongs to one backend kind; timeouts are the case of an empty free list, and the stream-less acquire call differs only in the kind of writer.
- BufferObjects.ReleaseOnWorker: the worker runs to its end inside the call; its interleavings are in `ManagedSystem` and `ReleaseTracker`.
- Host memory exhaustion inside destructors and while the orphan storage grows: assumed not to happen. A thread that cannot be created is modelled.
- Memory of the GPU as bytes: operations are identified by handle and position, not by what they write.
- StrictInference.OnnxInferenceCore.RunStrictManagedInference: which free block a pool gives is not fixed, `Pool` has the order; reservations are values of `BufferModel` rather than heap objects; validation of inputs and of what the runtime returns is a yes-or-no choice; one call runs at a time.
- Staging.StdToManagedHipTensorBundleNode.GetPool: the cached pools are represented by their block sizes.
- Staging.StdToManagedHipTensorBundleNode.OnTensorBundle: blocks are values of `BufferModel`; the source owner retained by each writer is not tracked.
- Rundown.NeverStuck: assumes that inference and publishing return; the five-second pool shutdown is one step.
- The callback rundown of the NITROS transport, which notifies a member condition variable after unlocking, so that this model's argument does not carry over to it.
- Geometry.IouRange: real arithmetic; rounding, infinities and overflow checks of floating point are not modelled.
- Means, medians and percentiles of the comparison scripts, except the per-frame means kept by the online comparator; the top-K filter and the ranking of worst frames.
- Matching.SortPairs: an insertion sort stands for the library's sort; the keys are distinct, so the sorted list is unique.
- DetectionMatching.Observe: the statistics are gathered in a loop over the chosen pairs instead of inside the selection loop.
- Comparator.DetectionComparator.Summarize: the per-frame score and overlap statistics printed from the samples are not modelled.
- Bag reading, topic resolution, argument parsing, JSON output, ROS publishers, subscriptions and launch files.
- ContractParser.ParseEntry: `std::stoll` is specified, not implemented bit by bit; checking a parsed contract against a model's metadata is not modelled.
- TensorLayout.TensorByteSize: `size_t` has 64 bits.
- TensorList.ToNvidiaTensorList: message headers are opaque values.
- CopyAudit.BuildPairReport: normalization of raw trace records, the parsing of evidence and binding reports (their findings are counts here), per-frame rates for display, and the record texts of failures.
- The image resize, non-maximum suppression and detection decoders.
