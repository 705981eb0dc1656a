/**
 The managed pool, its buffers, their handles, the GPU streams and the release
 workers as one transition system.  Host threads, release workers and the GPU take
 steps in any order; every backend call may fail; a step is one critical section of
 the source.  The caller's side of the safety contract appears as guards only, but for the
 lease rule, which the source itself does not always follow: EndLeaseEarly has no such guard.
 */
module ManagedSystem {
  import opened BufferModel

  /** Stream operations, executed in order: a kernel or copy submitted through a handle,
      or a wait for the first `position` operations of another stream. */
  datatype Op = Touch(handle: nat) | WaitFor(stream: nat, position: nat)

  /** The first `done` operations have completed. */
  datatype Stream = Stream(ops: seq<Op>, done: nat)

  /** `maker` is the handle that created the event; `at` is the recorded point: stream and
      number of operations before it. */
  datatype EventInfo = EventInfo(buf: nat, maker: nat, at: Option<(nat, nat)>, alive: bool)

  datatype HandleKind = AsyncWriter | SyncWriter | Reader | Lease | HostCopy

  /** Recorded is a reader between record_event and taking the buffer's mutex; Syncing a
      blocking lease between its readiness check and the end of its constructor. */
  datatype HandleState = Active | Recorded(event: nat) | Syncing | Finished | Gone

  /** `cover` is the event the handle published (for a lease, the event it synchronizes);
      `waitAt` is the position in its stream of the wait its constructor enqueued; `early`
      marks a lease that did not wait for the reads made through it (bookkeeping only). */
  datatype Handle = Handle(kind: HandleKind, buf: nat, stream: nat, state: HandleState,
                           cover: Option<nat>, waitAt: Option<nat>, early: bool)

  /** A buffer's life after its last reference: in the destructor, on a worker that has
      not selected the device, on a worker at event `index`, and the two ends. */
  datatype Life =
    | Alive
    | Dying
    | Spawned
    | Worker(index: nat, selected: bool, synced: bool, safe: bool)
    | Returned
    | Orphaned

  /** `writer` is the responsible writer handle, bookkeeping the source keeps in the
      handle objects. */
  datatype SysBuffer = SysBuffer(core: Buffer, block: nat, refs: nat, writer: Option<nat>, life: Life)

  /** Who holds a block index; bookkeeping only, no step reads it. */
  datatype Place = Free | InTransit(call: nat) | HeldBy(buf: nat)

  datatype State = State(
    capacity: nat,
    free: seq<nat>,
    stopping: bool,
    backed: bool,
    transit: map<nat, nat>,
    place: seq<Place>,
    buffers: seq<SysBuffer>,
    handles: seq<Handle>,
    events: seq<EventInfo>,
    streams: seq<Stream>)

  /** The pool and DeviceBuffer references. */
  datatype PoolStep =
    | Pop(call: nat)
    | AbortPop(call: nat)
    | Wrap(call: nat)
    | CopyRef(b: nat)
    | DropRef(b: nat)
    | BeginShutdown
    | Drain

  /** Writer handles and blocking host-to-device copies. */
  datatype WriterStep =
    | OpenWriter(b: nat, s: nat)
    | OpenSyncWriter(b: nat)
    | Finalize(h: nat)
    | FinalizeThrows(h: nat, leaked: bool)
    | FinalizeSync(h: nat)
    | FailWriter(h: nat)
    | Cancel(h: nat)
    | HostToDevice(b: nat)
    | HostToDeviceThrows(b: nat, s: nat)

  /** Read handles and blocking leases. */
  datatype ReaderStep =
    | OpenReader(b: nat, s: nat)
    | OpenReaderThrows(b: nat, s: nat, enqueued: bool)
    | RecordReader(h: nat)
    | PushReader(h: nat)
    | PushReaderThrows(h: nat, leaked: bool)
    | RecordReaderThrows(h: nat, leaked: bool)
    | CheckLease(b: nat, s: nat)
    | SyncLease(h: nat)
    | SyncLeaseThrows(h: nat)
    | DropLease(h: nat)
    | EndLeaseEarly(h: nat)

  /** A buffer's destructor and its release worker. */
  datatype ReleaseStep =
    | Destroy(b: nat)
    | ReleaseNow(b: nat)
    | OrphanNow(b: nat)
    | Spawn(b: nat)
    | SpawnThrows(b: nat, kept: set<nat>)
    | Select(b: nat, ok: bool)
    | SyncEvent(b: nat, ok: bool)
    | DestroyEvent(b: nat, ok: bool)
    | WorkerReturns(b: nat)
    | WorkerOrphans(b: nat)

  /** Submission, the end of a handle object, and GPU progress. */
  datatype WorkStep =
    | Submit(h: nat, s: nat)
    | DropHandle(h: nat)
    | Progress(s: nat)

  datatype Step =
    | OnPool(pool: PoolStep)
    | OnWriter(writer: WriterStep)
    | OnReader(reader: ReaderStep)
    | OnRelease(release: ReleaseStep)
    | OnWork(work: WorkStep)

  // ---------- Vocabulary

  predicate IsWriter(k: HandleKind) { k == AsyncWriter || k == SyncWriter }

  /** The handle still answers for what was submitted through it. */
  predicate Holding(h: Handle) { h.state == Active || h.state.Recorded? || h.state == Syncing }

  predicate PendingAt(st: State, s: nat, p: nat) {
    s < |st.streams| && st.streams[s].done <= p < |st.streams[s].ops| && st.streams[s].ops[p].Touch?
  }

  predicate Covers(e: EventInfo, s: nat, p: nat) {
    e.at.Some? && e.at.value.0 == s && p < e.at.value.1
  }

  predicate Complete(st: State, e: EventInfo) {
    e.at.Some? && e.at.value.0 < |st.streams| && e.at.value.1 <= st.streams[e.at.value.0].done
  }

  /** No unfinished operation of handle `h` on any stream. */
  ghost predicate HandleQuiet(st: State, h: nat) {
    forall s: nat, p: nat :: PendingAt(st, s, p) ==> st.streams[s].ops[p] != Touch(h)
  }

  /** Nothing was ever submitted through handle `h`. */
  ghost predicate HandleUnused(st: State, h: nat) {
    forall s: nat, p: nat :: s < |st.streams| && p < |st.streams[s].ops| ==> st.streams[s].ops[p] != Touch(h)
  }

  function BufOf(st: State, h: nat): nat {
    if h < |st.handles| then st.handles[h].buf else |st.buffers|
  }

  /** No unfinished operation on buffer `b` on any stream. */
  ghost predicate BufferQuiet(st: State, b: nat) {
    forall s: nat, p: nat :: PendingAt(st, s, p) ==> BufOf(st, st.streams[s].ops[p].handle) != b
  }

  /** The operation was submitted through a lease that ended early. */
  predicate EarlyAt(st: State, s: nat, p: nat)
    requires PendingAt(st, s, p)
  {
    var h := st.streams[s].ops[p].handle;
    h < |st.handles| && st.handles[h].early
  }

  function BlockOf(st: State, b: nat): nat {
    if b < |st.buffers| then st.buffers[b].block else st.capacity
  }

  /** No unfinished operation touches block `i` on any stream. */
  ghost predicate BlockQuiet(st: State, i: nat) {
    forall s: nat, p: nat :: PendingAt(st, s, p) ==> BlockOf(st, BufOf(st, st.streams[s].ops[p].handle)) != i
  }

  predicate Unreferenced(st: State, b: nat) {
    forall h :: 0 <= h < |st.handles| && st.handles[h].buf == b ==> st.handles[h].state == Gone
  }

  // ---------- Updates

  function SetBuf(st: State, b: nat, x: SysBuffer): State
    requires b < |st.buffers|
  {
    st.(buffers := st.buffers[b := x])
  }

  function SetCore(st: State, b: nat, c: Buffer): State
    requires b < |st.buffers|
  {
    SetBuf(st, b, st.buffers[b].(core := c))
  }

  function SetLife(st: State, b: nat, l: Life): State
    requires b < |st.buffers|
  {
    SetBuf(st, b, st.buffers[b].(life := l))
  }

  function SetHandle(st: State, h: nat, x: Handle): State
    requires h < |st.handles|
  {
    st.(handles := st.handles[h := x])
  }

  function SetHandleState(st: State, h: nat, x: HandleState): State
    requires h < |st.handles|
  {
    SetHandle(st, h, st.handles[h].(state := x))
  }

  function AddHandle(st: State, h: Handle): State {
    st.(handles := st.handles + [h])
  }

  function AddEvent(st: State, e: EventInfo): State {
    st.(events := st.events + [e])
  }

  function Enqueue(st: State, s: nat, op: Op): State
    requires s < |st.streams|
  {
    st.(streams := st.streams[s := st.streams[s].(ops := st.streams[s].ops + [op])])
  }

  /** The current end of stream `s`, as an event recorded now sees it. */
  function Tail(st: State, s: nat): (nat, nat)
    requires s < |st.streams|
  {
    (s, |st.streams[s].ops|)
  }

  /** Run the block token's deleter: the index goes back to the free list. */
  function GiveBack(st: State, i: nat): State
    requires i < |st.place|
  {
    st.(free := st.free + [i], place := st.place[i := Free])
  }

  function KillEvent(st: State, e: nat): State
    requires e < |st.events|
  {
    st.(events := st.events[e := st.events[e].(alive := false)])
  }

  /** Destroy every event in `es` except those in `kept`, whose device selection failed. */
  function KillEvents(st: State, es: seq<nat>, kept: set<nat>): State {
    st.(events := seq(|st.events|, e requires 0 <= e < |st.events| =>
          if e in es && e !in kept then st.events[e].(alive := false) else st.events[e]))
  }

  // ---------- Steps

  predicate LiveBuffer(st: State, b: nat) {
    b < |st.buffers| && st.buffers[b].life == Alive && st.buffers[b].refs > 0
  }

  predicate ActiveHandle(st: State, h: nat) {
    h < |st.handles| && st.handles[h].state == Active && st.handles[h].buf < |st.buffers|
  }

  predicate ActiveWriter(st: State, h: nat) {
    ActiveHandle(st, h) && IsWriter(st.handles[h].kind)
  }

  function PhaseOf(st: State, b: nat): Phase
    requires b < |st.buffers|
  {
    st.buffers[b].core.phase
  }

  ghost predicate PoolEnabled(st: State, step: PoolStep) {
    match step
    case Pop(call) => call !in st.transit && !st.stopping && st.free != [] && st.free[|st.free| - 1] < |st.place|
    case AbortPop(call) => call in st.transit && st.transit[call] < |st.place|
    case Wrap(call) => call in st.transit && st.transit[call] < |st.place|
    case CopyRef(b) => LiveBuffer(st, b)
    case DropRef(b) => LiveBuffer(st, b)
    case BeginShutdown => true
    case Drain => st.stopping && |st.free| == st.capacity
  }

  ghost predicate WriterEnabled(st: State, step: WriterStep) {
    match step
    case OpenWriter(b, s) => LiveBuffer(st, b) && s < |st.streams| && PhaseOf(st, b) == Fresh
    case OpenSyncWriter(b) => LiveBuffer(st, b) && |st.streams| > 0 && PhaseOf(st, b) == Fresh
    case Finalize(h) => ActiveWriter(st, h) && st.handles[h].kind == AsyncWriter
                        && st.handles[h].stream < |st.streams| && PhaseOf(st, st.handles[h].buf) == Writing
    case FinalizeThrows(h, _) => ActiveWriter(st, h) && st.handles[h].kind == AsyncWriter
    // The external operation has completed.
    case FinalizeSync(h) => ActiveWriter(st, h) && st.handles[h].kind == SyncWriter && HandleQuiet(st, h)
    case FailWriter(h) => ActiveWriter(st, h)
    // Nothing was submitted.
    case Cancel(h) => ActiveWriter(st, h) && HandleUnused(st, h)
    case HostToDevice(b) => LiveBuffer(st, b) && PhaseOf(st, b) == Fresh
    case HostToDeviceThrows(b, s) => LiveBuffer(st, b) && s < |st.streams| && PhaseOf(st, b) == Fresh
  }

  ghost predicate ReaderEnabled(st: State, step: ReaderStep) {
    match step
    case OpenReader(b, s) => LiveBuffer(st, b) && s < |st.streams| && PhaseOf(st, b) == Ready
    case OpenReaderThrows(b, s, _) =>
      LiveBuffer(st, b) && s < |st.streams| && PhaseOf(st, b) == Ready && st.buffers[b].core.producerEvent.Some?
    case RecordReader(h) => ActiveHandle(st, h) && st.handles[h].kind == Reader && st.handles[h].stream < |st.streams|
    case PushReader(h) => h < |st.handles| && st.handles[h].state.Recorded? && st.handles[h].buf < |st.buffers|
    case PushReaderThrows(h, _) =>
      && h < |st.handles| && st.handles[h].state.Recorded? && st.handles[h].buf < |st.buffers|
      && st.handles[h].state.event < |st.events|
    case RecordReaderThrows(h, _) => ActiveHandle(st, h) && st.handles[h].kind == Reader
    case CheckLease(b, s) => LiveBuffer(st, b) && s < |st.streams| && PhaseOf(st, b) == Ready
    case SyncLease(h) =>
      && h < |st.handles| && st.handles[h].state == Syncing
      && (st.handles[h].cover.Some? ==>
            st.handles[h].cover.value < |st.events| && Complete(st, st.events[st.handles[h].cover.value]))
    case SyncLeaseThrows(h) => h < |st.handles| && st.handles[h].state == Syncing && st.handles[h].buf < |st.buffers|
    // Reads through a lease carry no event; the holder finishes them first.
    case DropLease(h) => ActiveHandle(st, h) && st.handles[h].kind == Lease && HandleQuiet(st, h)
    // copy_to_host_blocking throws, or a caller breaks the lease rule.
    case EndLeaseEarly(h) => ActiveHandle(st, h) && st.handles[h].kind == Lease
  }

  ghost predicate ReleaseEnabled(st: State, step: ReleaseStep) {
    match step
    case Destroy(b) => b < |st.buffers| && st.buffers[b].life == Alive && st.buffers[b].refs == 0 && Unreferenced(st, b)
    case ReleaseNow(b) =>
      && b < |st.buffers| && st.buffers[b].life == Dying && st.buffers[b].core.Events() == []
      && !st.buffers[b].core.mustOrphan && st.buffers[b].block < |st.place|
    // The orphan flag is set, or selecting the device fails.
    case OrphanNow(b) => b < |st.buffers| && st.buffers[b].life == Dying && st.buffers[b].core.Events() == []
    case Spawn(b) => b < |st.buffers| && st.buffers[b].life == Dying && st.buffers[b].core.Events() != []
    case SpawnThrows(b, _) => b < |st.buffers| && st.buffers[b].life == Dying && st.buffers[b].core.Events() != []
    case Select(b, _) => b < |st.buffers| && st.buffers[b].life == Spawned
    case SyncEvent(b, ok) =>
      && b < |st.buffers| && st.buffers[b].life.Worker?
      && var w := st.buffers[b].life; var es := st.buffers[b].core.Events();
         w.index < |es| && w.selected && !w.synced && es[w.index] < |st.events|
         && (ok ==> Complete(st, st.events[es[w.index]]))
    case DestroyEvent(b, _) =>
      && b < |st.buffers| && st.buffers[b].life.Worker?
      && var w := st.buffers[b].life; var es := st.buffers[b].core.Events();
         w.index < |es| && (w.synced || !w.selected) && es[w.index] < |st.events|
    case WorkerReturns(b) =>
      && b < |st.buffers| && st.buffers[b].life.Worker? && st.buffers[b].life.safe && st.buffers[b].block < |st.place|
      && st.buffers[b].life.index == |st.buffers[b].core.Events()|
    case WorkerOrphans(b) =>
      && b < |st.buffers| && st.buffers[b].life.Worker? && !st.buffers[b].life.safe
      && st.buffers[b].life.index == |st.buffers[b].core.Events()|
  }

  ghost predicate WorkEnabled(st: State, step: WorkStep) {
    match step
    // Work is submitted only through an active handle, and on the handle's own stream
    // when it has one.
    case Submit(h, s) =>
      && ActiveHandle(st, h) && s < |st.streams| && st.handles[h].kind != HostCopy
      && (st.handles[h].kind == AsyncWriter || st.handles[h].kind == Reader ==> s == st.handles[h].stream)
    case DropHandle(h) => h < |st.handles| && st.handles[h].state == Finished
    case Progress(s) =>
      && s < |st.streams| && st.streams[s].done < |st.streams[s].ops|
      && (st.streams[s].ops[st.streams[s].done].WaitFor? ==>
            var w := st.streams[s].ops[st.streams[s].done];
            w.stream < |st.streams| && w.position <= st.streams[w.stream].done)
  }

  ghost predicate Enabled(st: State, step: Step) {
    match step
    case OnPool(x) => PoolEnabled(st, x)
    case OnWriter(x) => WriterEnabled(st, x)
    case OnReader(x) => ReaderEnabled(st, x)
    case OnRelease(x) => ReleaseEnabled(st, x)
    case OnWork(x) => WorkEnabled(st, x)
  }

  /** All owners of buffer `b` are released; the block token's deleter runs. */
  function ReturnBlock(st: State, b: nat): State
    requires b < |st.buffers| && st.buffers[b].block < |st.place|
  {
    GiveBack(SetLife(st, b, Returned), st.buffers[b].block)
  }

  /** An event that was created but not recorded is destroyed at once and leaves nothing
      behind, or its device selection fails and it is leaked. */
  function Scrap(st: State, b: nat, h: nat, leaked: bool): State {
    if leaked then AddEvent(st, EventInfo(b, h, None, true)) else st
  }

  /** get_read_handle on a buffer with a producer event enqueues a wait on the reader's stream. */
  function EnqueueWait(st: State, b: nat, s: nat): State
    requires b < |st.buffers| && s < |st.streams|
  {
    var e := st.buffers[b].core.producerEvent;
    if e.Some? && e.value < |st.events| && st.events[e.value].at.Some? then
      Enqueue(st, s, WaitFor(st.events[e.value].at.value.0, st.events[e.value].at.value.1))
    else st
  }

  ghost function DoPop(st: State, call: nat): State
    requires PoolEnabled(st, Pop(call))
  {
    var i := st.free[|st.free| - 1];
    st.(free := st.free[..|st.free| - 1], transit := st.transit[call := i], place := st.place[i := InTransit(call)])
  }

  ghost function DoAbortPop(st: State, call: nat): State
    requires PoolEnabled(st, AbortPop(call))
  {
    GiveBack(st.(transit := st.transit - {call}), st.transit[call])
  }

  ghost function DoWrap(st: State, call: nat): State
    requires PoolEnabled(st, Wrap(call))
  {
    var i := st.transit[call];
    st.(transit := st.transit - {call}, place := st.place[i := HeldBy(|st.buffers|)],
        buffers := st.buffers + [SysBuffer(FRESH, i, 1, None, Alive)])
  }

  ghost function DoOpenWriter(st: State, b: nat, s: nat): State
    requires WriterEnabled(st, OpenWriter(b, s))
  {
    AddHandle(
      SetBuf(st, b, st.buffers[b].(core := st.buffers[b].core.OpenWriter(s), writer := Some(|st.handles|))),
      Handle(AsyncWriter, b, s, Active, None, None, false))
  }

  ghost function DoOpenSyncWriter(st: State, b: nat): State
    requires WriterEnabled(st, OpenSyncWriter(b))
  {
    AddHandle(
      SetBuf(st, b, st.buffers[b].(core := st.buffers[b].core.OpenSynchronizedWriter(), writer := Some(|st.handles|))),
      Handle(SyncWriter, b, 0, Active, None, None, false))
  }

  ghost function DoFinalize(st: State, h: nat): State
    requires WriterEnabled(st, Finalize(h))
  {
    var H := st.handles[h];
    var e := |st.events|;
    AddEvent(
      SetHandle(
        SetBuf(st, H.buf, st.buffers[H.buf].(core := st.buffers[H.buf].core.Finalize(e), writer := None)),
        h, H.(state := Finished, cover := Some(e))),
      EventInfo(H.buf, h, Some(Tail(st, H.stream)), true))
  }

  /** A writer handle ends without an event; `core` is what its buffer becomes. */
  function EndWriter(st: State, h: nat, core: Buffer): State
    requires ActiveWriter(st, h)
  {
    var b := st.handles[h].buf;
    SetHandleState(SetBuf(st, b, st.buffers[b].(core := core, writer := None)), h, Finished)
  }

  function CoreOf(st: State, h: nat): Buffer
    requires h < |st.handles| && st.handles[h].buf < |st.buffers|
  {
    st.buffers[st.handles[h].buf].core
  }

  ghost function DoHostToDeviceThrows(st: State, b: nat, s: nat): State
    requires WriterEnabled(st, HostToDeviceThrows(b, s))
  {
    // The failed copy may be in flight on some stream.
    Enqueue(
      AddHandle(SetCore(st, b, st.buffers[b].core.LoseCompletion()), Handle(HostCopy, b, s, Gone, None, None, false)),
      s, Touch(|st.handles|))
  }

  ghost function DoOpenReader(st: State, b: nat, s: nat): State
    requires ReaderEnabled(st, OpenReader(b, s))
  {
    AddHandle(EnqueueWait(st, b, s),
              Handle(Reader, b, s, Active, None,
                     if st.buffers[b].core.producerEvent.Some? then Some(|st.streams[s].ops|) else None,
                     false))
  }

  ghost function DoOpenReaderThrows(st: State, b: nat, s: nat, enqueued: bool): State
    requires ReaderEnabled(st, OpenReaderThrows(b, s, enqueued))
  {
    SetCore(if enqueued then EnqueueWait(st, b, s) else st, b, st.buffers[b].core.RefuseReader())
  }

  ghost function DoRecordReader(st: State, h: nat): State
    requires ReaderEnabled(st, RecordReader(h))
  {
    var H := st.handles[h];
    var e := |st.events|;
    AddEvent(SetHandle(st, h, H.(state := Recorded(e), cover := Some(e))),
             EventInfo(H.buf, h, Some(Tail(st, H.stream)), true))
  }

  ghost function DoPushReader(st: State, h: nat): State
    requires ReaderEnabled(st, PushReader(h))
  {
    var H := st.handles[h];
    SetHandleState(SetCore(st, H.buf, st.buffers[H.buf].core.AddReaderEvent(H.state.event)), h, Finished)
  }

  /** A reader or lease loses track of its reads; the handle ends in state `x`. */
  function LoseReads(st: State, h: nat, x: HandleState): State
    requires h < |st.handles| && st.handles[h].buf < |st.buffers|
  {
    SetHandleState(SetCore(st, st.handles[h].buf, CoreOf(st, h).LoseCompletion()), h, x)
  }

  ghost function DoPushReaderThrows(st: State, h: nat, leaked: bool): State
    requires ReaderEnabled(st, PushReaderThrows(h, leaked))
  {
    var t := LoseReads(st, h, Finished);
    if leaked then t else KillEvent(t, st.handles[h].state.event)
  }

  ghost function DoCheckLease(st: State, b: nat, s: nat): State
    requires ReaderEnabled(st, CheckLease(b, s))
  {
    AddHandle(st, Handle(Lease, b, s, Syncing, st.buffers[b].core.producerEvent, None, false))
  }

  /** The lease is gone, its reads may still be in flight, and the buffer is not marked. */
  function DoEndLeaseEarly(st: State, h: nat): State
    requires h < |st.handles|
  {
    SetHandle(st, h, st.handles[h].(state := Gone, early := true))
  }

  ghost function DoDestroy(st: State, b: nat): State
    requires ReleaseEnabled(st, Destroy(b))
  {
    SetBuf(st, b, st.buffers[b].(core := st.buffers[b].core.Release(), life := Dying))
  }

  ghost function DoSpawnThrows(st: State, b: nat, kept: set<nat>): State
    requires ReleaseEnabled(st, SpawnThrows(b, kept))
  {
    KillEvents(SetLife(st, b, Orphaned), st.buffers[b].core.Events(), kept)
  }

  ghost function DoSyncEvent(st: State, b: nat, ok: bool): State
    requires ReleaseEnabled(st, SyncEvent(b, ok))
  {
    var w := st.buffers[b].life;
    SetLife(st, b, w.(synced := true, safe := w.safe && ok))
  }

  ghost function DoDestroyEvent(st: State, b: nat, ok: bool): State
    requires ReleaseEnabled(st, DestroyEvent(b, ok))
  {
    var w := st.buffers[b].life;
    var e := st.buffers[b].core.Events()[w.index];
    var t := SetLife(st, b, w.(index := w.index + 1, synced := false, safe := w.safe && ok));
    if ok then KillEvent(t, e) else t
  }

  ghost function DoProgress(st: State, s: nat): State
    requires WorkEnabled(st, Progress(s))
  {
    st.(streams := st.streams[s := st.streams[s].(done := st.streams[s].done + 1)])
  }

  ghost function PoolApply(st: State, step: PoolStep): State
    requires PoolEnabled(st, step)
  {
    match step
    case Pop(call) => DoPop(st, call)
    case AbortPop(call) => DoAbortPop(st, call)
    case Wrap(call) => DoWrap(st, call)
    case CopyRef(b) => SetBuf(st, b, st.buffers[b].(refs := st.buffers[b].refs + 1))
    case DropRef(b) => SetBuf(st, b, st.buffers[b].(refs := st.buffers[b].refs - 1))
    case BeginShutdown => st.(stopping := true)
    case Drain => st.(backed := false)
  }

  ghost function WriterApply(st: State, step: WriterStep): State
    requires WriterEnabled(st, step)
  {
    match step
    case OpenWriter(b, s) => DoOpenWriter(st, b, s)
    case OpenSyncWriter(b) => DoOpenSyncWriter(st, b)
    case Finalize(h) => DoFinalize(st, h)
    case FinalizeThrows(h, leaked) =>
      Scrap(EndWriter(st, h, CoreOf(st, h).LoseCompletion()), st.handles[h].buf, h, leaked)
    case FinalizeSync(h) => EndWriter(st, h, CoreOf(st, h).FinalizeSynchronously())
    case FailWriter(h) => EndWriter(st, h, CoreOf(st, h).FailWriter())
    case Cancel(h) => EndWriter(st, h, CoreOf(st, h).Cancel())
    case HostToDevice(b) => SetCore(st, b, st.buffers[b].core.FinalizeSynchronously())
    case HostToDeviceThrows(b, s) => DoHostToDeviceThrows(st, b, s)
  }

  ghost function ReaderApply(st: State, step: ReaderStep): State
    requires ReaderEnabled(st, step)
  {
    match step
    case OpenReader(b, s) => DoOpenReader(st, b, s)
    case OpenReaderThrows(b, s, enqueued) => DoOpenReaderThrows(st, b, s, enqueued)
    case RecordReader(h) => DoRecordReader(st, h)
    case PushReader(h) => DoPushReader(st, h)
    case PushReaderThrows(h, leaked) => DoPushReaderThrows(st, h, leaked)
    case RecordReaderThrows(h, leaked) => Scrap(LoseReads(st, h, Finished), st.handles[h].buf, h, leaked)
    case CheckLease(b, s) => DoCheckLease(st, b, s)
    case SyncLease(h) => SetHandleState(st, h, Active)
    case SyncLeaseThrows(h) => LoseReads(st, h, Gone)
    case DropLease(h) => SetHandleState(st, h, Gone)
    case EndLeaseEarly(h) => DoEndLeaseEarly(st, h)
  }

  ghost function ReleaseApply(st: State, step: ReleaseStep): State
    requires ReleaseEnabled(st, step)
  {
    match step
    case Destroy(b) => DoDestroy(st, b)
    case ReleaseNow(b) => ReturnBlock(st, b)
    case OrphanNow(b) => SetLife(st, b, Orphaned)
    case Spawn(b) => SetLife(st, b, Spawned)
    case SpawnThrows(b, kept) => DoSpawnThrows(st, b, kept)
    case Select(b, ok) => SetLife(st, b, Worker(0, ok, false, ok && !st.buffers[b].core.mustOrphan))
    case SyncEvent(b, ok) => DoSyncEvent(st, b, ok)
    case DestroyEvent(b, ok) => DoDestroyEvent(st, b, ok)
    case WorkerReturns(b) => ReturnBlock(st, b)
    case WorkerOrphans(b) => SetLife(st, b, Orphaned)
  }

  ghost function WorkApply(st: State, step: WorkStep): State
    requires WorkEnabled(st, step)
  {
    match step
    case Submit(h, s) => Enqueue(st, s, Touch(h))
    case DropHandle(h) => SetHandleState(st, h, Gone)
    case Progress(s) => DoProgress(st, s)
  }

  ghost function Apply(st: State, step: Step): State
    requires Enabled(st, step)
  {
    match step
    case OnPool(x) => PoolApply(st, x)
    case OnWriter(x) => WriterApply(st, x)
    case OnReader(x) => ReaderApply(st, x)
    case OnRelease(x) => ReleaseApply(st, x)
    case OnWork(x) => WorkApply(st, x)
  }

  /** PoolFactory::make: every index free; the streams exist and are empty. */
  ghost predicate Init(st: State) {
    && st.capacity > 0
    && st.free == seq(st.capacity, i => i)
    && !st.stopping && st.backed
    && st.transit == map[]
    && st.place == seq(st.capacity, i => Free)
    && st.buffers == [] && st.handles == [] && st.events == []
    && forall s :: 0 <= s < |st.streams| ==> st.streams[s] == Stream([], 0)
  }

  /** The steps can be taken one after the other from `st`. */
  ghost predicate CanRun(st: State, steps: seq<Step>)
    decreases |steps|
  {
    steps == [] || (Enabled(st, steps[0]) && CanRun(Apply(st, steps[0]), steps[1..]))
  }

  ghost function Run(st: State, steps: seq<Step>): State
    requires CanRun(st, steps)
    decreases |steps|
  {
    if steps == [] then st else Run(Apply(st, steps[0]), steps[1..])
  }
}
