/**
 Every step of ManagedSystem keeps the invariant, so every run does.  A step is one of the
 effects of ManagedSystemEffects, or two of them one after the other: an operation that fails
 also leaks or destroys the event it had created, and a worker that cannot be started destroys
 the events of its buffer.  What a step leaves alone, the pool for most of them, is carried
 over by ManagedSystemFrames.
 */
module ManagedSystemSteps {
  import opened BufferModel
  import opened ManagedSystem
  import opened ManagedSystemInvariant
  import opened ManagedSystemFrames
  import opened ManagedSystemEffects

  // ---------- Effects that create, leak or destroy events beside another change

  /** A leaked event belongs to a buffer that is never recycled. */
  lemma ScrapKeeps(st: State, b: nat, h: nat, leaked: bool, t: State)
    requires Rest(st) && b < |st.buffers| && h < |st.handles| && st.buffers[b].core.mustOrphan
    requires t == Scrap(st, b, h, leaked)
    ensures Rest(t)
  {
    EventsFrame(st, t);
    EventsFrameWork(st, t);
    EventsFrameReads(st, t);
    EventElements(st, t);
  }

  lemma PushReaderThrowsKeeps(st: State, h: nat, leaked: bool, t: State)
    requires Rest(st) && ReaderEnabled(st, PushReaderThrows(h, leaked)) && t == DoPushReaderThrows(st, h, leaked)
    ensures Rest(t)
  {
    HandleFacts(st, h);
    var u := LoseReads(st, h, Finished);
    LoseReadsKeeps(st, h, Finished, u);
    if !leaked {
      var e0 := st.handles[h].state.event;
      assert RecordedOk(st, h);
      EventsFrame(u, t);
      EventsFrameWork(u, t);
      EventsFrameReads(u, t);
      EventElements(u, t);
      forall b: nat, k: nat | b < |t.buffers| && k < |t.buffers[b].core.Events()|
        ensures ListedOk(t, b, k)
      {
        assert t.buffers[b].core.Events() == st.buffers[b].core.Events();
        assert ListedOk(u, b, k) && ListedOk(st, b, k);
      }
      forall g: nat | g < |t.handles|
        ensures RecordedOk(t, g)
      {
        assert RecordedOk(u, g);
      }
    }
  }

  lemma SpawnThrowsKeeps(st: State, b: nat, kept: set<nat>, t: State)
    requires Rest(st) && ReleaseEnabled(st, SpawnThrows(b, kept)) && t == DoSpawnThrows(st, b, kept)
    ensures Rest(t)
  {
    var u := SetLife(st, b, Orphaned);
    LifeMoveKeeps(st, b, Orphaned, u);
    var es := st.buffers[b].core.Events();
    assert u.buffers[b].core.Events() == es;
    EventsFrame(u, t);
    EventsFrameWork(u, t);
    EventsFrameReads(u, t);
    forall e: nat | e < |t.events|
      ensures EventOk(t, e)
    {
      assert EventOk(u, e);
    }
    forall e: nat | e in es
      ensures e < |u.events| && u.events[e].buf == b && u.events[e].maker < |u.handles|
                && !u.handles[u.events[e].maker].state.Recorded?
    {
      var k :| 0 <= k < |es| && es[k] == e;
      assert ListedOk(u, b, k) && EventOk(u, e);
    }
    forall c: nat, k: nat | c < |t.buffers| && k < |t.buffers[c].core.Events()|
      ensures ListedOk(t, c, k)
    {
      assert ListedOk(u, c, k);
    }
    forall g: nat | g < |t.handles|
      ensures RecordedOk(t, g)
    {
      assert RecordedOk(u, g);
    }
  }

  // ---------- Every step

  lemma PoolKeeps(st: State, x: PoolStep, t: State)
    requires Inv(st) && PoolEnabled(st, x) && t == PoolApply(st, x)
    ensures Inv(t)
  {
    PoolStepKeepsObjects(st, x, t);
    PoolStepGrows(st, x, t);
    GrowKeepsEvents(st, t);
    GrowKeepsStreams(st, t);
    GrowKeepsWork(st, t);
    GrowKeepsReads(st, t);
    match x
    case Pop(call) => PopKeepsPool(st, call);
    case AbortPop(call) => GiveBackKeepsPool(st, t, st.transit[call]);
    case Wrap(call) => WrapKeepsPool(st, call);
    case CopyRef(_) => PoolFrame(st, t);
    case DropRef(_) => PoolFrame(st, t);
    case BeginShutdown =>
      assert forall i: nat :: i < |t.place| ==> (PlaceOk(t, i) <==> PlaceOk(st, i));
    case Drain => DrainKeepsPool(st, t);
  }

  lemma WriterKeeps(st: State, x: WriterStep, t: State)
    requires Inv(st) && WriterEnabled(st, x) && t == WriterApply(st, x)
    ensures Inv(t)
  {
    WriterLeavesPool(st, x);
    PoolFrame(st, t);
    WriterKeepsRest(st, x, t);
  }

  lemma AddWriterKeeps(st: State, b: nat, kind: HandleKind, s: nat, core: Buffer, t: State)
    requires Rest(st) && WriterOpening(st, b, kind, s, core) && t == AddWriter(st, b, kind, s, core)
    ensures Rest(t)
  {
    AddWriterKeepsObjects(st, b, kind, s, core, t);
    AddWriterKeepsEvents(st, b, kind, s, core, t);
    AddWriterKeepsWork(st, b, kind, s, core, t);
    AddWriterKeepsReads(st, b, kind, s, core, t);
  }

  lemma FinalizeKeeps(st: State, h: nat, t: State)
    requires Rest(st) && WriterEnabled(st, Finalize(h)) && t == DoFinalize(st, h)
    ensures Rest(t)
  {
    FinalizeKeepsObjects(st, h, t);
    FinalizeKeepsEvents(st, h, t);
    FinalizeKeepsWork(st, h, t);
    FinalizeKeepsReads(st, h, t);
  }

  lemma FinalizeThrowsKeeps(st: State, h: nat, leaked: bool, t: State)
    requires Rest(st) && WriterEnabled(st, FinalizeThrows(h, leaked))
    requires t == Scrap(EndWriter(st, h, CoreOf(st, h).LoseCompletion()), st.handles[h].buf, h, leaked)
    ensures Rest(t)
  {
    var u := EndWriter(st, h, CoreOf(st, h).LoseCompletion());
    EndWriterKeeps(st, h, CoreOf(st, h).LoseCompletion(), u);
    ScrapKeeps(u, st.handles[h].buf, h, leaked, t);
  }

  lemma HostToDeviceKeeps(st: State, b: nat, t: State)
    requires Rest(st) && WriterEnabled(st, HostToDevice(b))
    requires t == SetCore(st, b, st.buffers[b].core.FinalizeSynchronously())
    ensures Rest(t)
  {
    HostToDeviceKeepsTables(st, b, t);
    HostToDeviceKeepsWork(st, b, t);
    HostToDeviceKeepsReads(st, b, t);
  }

  lemma HostToDeviceThrowsKeeps(st: State, b: nat, s: nat, t: State)
    requires Rest(st) && WriterEnabled(st, HostToDeviceThrows(b, s)) && t == DoHostToDeviceThrows(st, b, s)
    ensures Rest(t)
  {
    HostToDeviceThrowsKeepsObjects(st, b, s, t);
    HostToDeviceThrowsKeepsEvents(st, b, s, t);
    HostToDeviceThrowsKeepsStreams(st, b, s, t);
    HostToDeviceThrowsKeepsWork(st, b, s, t);
    HostToDeviceThrowsKeepsReads(st, b, s, t);
  }

  lemma WriterKeepsRest(st: State, x: WriterStep, t: State)
    requires Rest(st) && WriterEnabled(st, x) && t == WriterApply(st, x)
    ensures Rest(t)
  {
    match x
    case OpenWriter(b, s) => AddWriterKeeps(st, b, AsyncWriter, s, st.buffers[b].core.OpenWriter(s), t);
    case OpenSyncWriter(b) => AddWriterKeeps(st, b, SyncWriter, 0, st.buffers[b].core.OpenSynchronizedWriter(), t);
    case Finalize(h) => FinalizeKeeps(st, h, t);
    case FinalizeThrows(h, leaked) => FinalizeThrowsKeeps(st, h, leaked, t);
    case FinalizeSync(h) => EndWriterKeeps(st, h, CoreOf(st, h).FinalizeSynchronously(), t);
    case FailWriter(h) => EndWriterKeeps(st, h, CoreOf(st, h).FailWriter(), t);
    case Cancel(h) => EndWriterKeeps(st, h, CoreOf(st, h).Cancel(), t);
    case HostToDevice(b) => HostToDeviceKeeps(st, b, t);
    case HostToDeviceThrows(b, s) => HostToDeviceThrowsKeeps(st, b, s, t);
  }

  lemma ReaderKeeps(st: State, x: ReaderStep, t: State)
    requires Inv(st) && ReaderEnabled(st, x) && t == ReaderApply(st, x)
    ensures Inv(t)
  {
    ReaderLeavesPool(st, x);
    PoolFrame(st, t);
    ReaderKeepsRest(st, x, t);
  }

  lemma OpenReaderKeeps(st: State, b: nat, s: nat, t: State)
    requires Rest(st) && ReaderEnabled(st, OpenReader(b, s)) && t == DoOpenReader(st, b, s)
    ensures Rest(t)
  {
    OpenReaderKeepsObjects(st, b, s, t);
    OpenReaderKeepsEvents(st, b, s, t);
    OpenReaderKeepsWork(st, b, s, t);
    OpenReaderKeepsReads(st, b, s, t);
  }

  lemma EnqueueWaitKeeps(st: State, b: nat, s: nat, t: State)
    requires Rest(st) && b < |st.buffers| && s < |st.streams| && t == EnqueueWait(st, b, s)
    ensures Rest(t)
  {
    EnqueueWaitKeepsTables(st, b, s, t);
    EnqueueWaitKeepsWork(st, b, s, t);
    EnqueueWaitKeepsReads(st, b, s, t);
  }

  lemma OpenReaderThrowsKeeps(st: State, b: nat, s: nat, enqueued: bool, t: State)
    requires Rest(st) && ReaderEnabled(st, OpenReaderThrows(b, s, enqueued))
               && t == DoOpenReaderThrows(st, b, s, enqueued)
    ensures Rest(t)
  {
    var u := if enqueued then EnqueueWait(st, b, s) else st;
    if enqueued { EnqueueWaitKeeps(st, b, s, u); }
    RefuseReaderKeepsTables(u, b, t);
    RefuseReaderKeepsWork(u, b, t);
    RefuseReaderKeepsReads(u, b, t);
  }

  lemma RecordReaderKeeps(st: State, h: nat, t: State)
    requires Rest(st) && ReaderEnabled(st, RecordReader(h)) && t == DoRecordReader(st, h)
    ensures Rest(t)
  {
    RecordReaderKeepsTables(st, h, t);
    RecordReaderKeepsWork(st, h, t);
    RecordReaderKeepsReads(st, h, t);
  }

  lemma PushReaderKeeps(st: State, h: nat, t: State)
    requires Rest(st) && ReaderEnabled(st, PushReader(h)) && t == DoPushReader(st, h)
    ensures Rest(t)
  {
    PushReaderKeepsObjects(st, h, t);
    PushReaderKeepsEvents(st, h, t);
    PushReaderKeepsWork(st, h, t);
    PushReaderKeepsReads(st, h, t);
  }

  lemma RecordReaderThrowsKeeps(st: State, h: nat, leaked: bool, t: State)
    requires Rest(st) && ReaderEnabled(st, RecordReaderThrows(h, leaked))
    requires t == Scrap(LoseReads(st, h, Finished), st.handles[h].buf, h, leaked)
    ensures Rest(t)
  {
    var u := LoseReads(st, h, Finished);
    LoseReadsKeeps(st, h, Finished, u);
    ScrapKeeps(u, st.handles[h].buf, h, leaked, t);
  }

  lemma CheckLeaseKeeps(st: State, b: nat, s: nat, t: State)
    requires Rest(st) && ReaderEnabled(st, CheckLease(b, s)) && t == DoCheckLease(st, b, s)
    ensures Rest(t)
  {
    CheckLeaseKeepsTables(st, b, s, t);
    CheckLeaseKeepsWork(st, b, s, t);
    CheckLeaseKeepsReads(st, b, s, t);
  }

  lemma EndEarlyKeeps(st: State, h: nat, t: State)
    requires Rest(st) && ReaderEnabled(st, EndLeaseEarly(h)) && t == DoEndLeaseEarly(st, h)
    ensures Rest(t)
  {
    EndEarlyKeepsTables(st, h, t);
    EndEarlyKeepsWork(st, h, t);
    EndEarlyKeepsReads(st, h, t);
  }

  lemma ReaderKeepsRest(st: State, x: ReaderStep, t: State)
    requires Rest(st) && ReaderEnabled(st, x) && t == ReaderApply(st, x)
    ensures Rest(t)
  {
    match x
    case OpenReader(b, s) => OpenReaderKeeps(st, b, s, t);
    case OpenReaderThrows(b, s, enqueued) => OpenReaderThrowsKeeps(st, b, s, enqueued, t);
    case RecordReader(h) => RecordReaderKeeps(st, h, t);
    case PushReader(h) => PushReaderKeeps(st, h, t);
    case PushReaderThrows(h, leaked) => PushReaderThrowsKeeps(st, h, leaked, t);
    case RecordReaderThrows(h, leaked) => RecordReaderThrowsKeeps(st, h, leaked, t);
    case CheckLease(b, s) => CheckLeaseKeeps(st, b, s, t);
    case SyncLease(h) => HandleMoveKeeps(st, h, Active, t);
    case SyncLeaseThrows(h) => HandleFacts(st, h); LoseReadsKeeps(st, h, Gone, t);
    case DropLease(h) => HandleMoveKeeps(st, h, Gone, t);
    case EndLeaseEarly(h) => EndEarlyKeeps(st, h, t);
  }

  lemma ReleaseKeeps(st: State, x: ReleaseStep, t: State)
    requires Inv(st) && ReleaseEnabled(st, x) && t == ReleaseApply(st, x)
    ensures Inv(t)
  {
    ReleaseKeepsRest(st, x, t);
    if x.ReleaseNow? || x.WorkerReturns? {
      GiveBackKeepsPool(st, t, st.buffers[x.b].block);
    } else {
      ReleaseLeavesPool(st, x);
      PoolFrame(st, t);
    }
  }

  lemma DestroyKeeps(st: State, b: nat, t: State)
    requires Rest(st) && ReleaseEnabled(st, Destroy(b)) && t == DoDestroy(st, b)
    ensures Rest(t)
  {
    DestroyKeepsObjects(st, b, t);
    DestroyKeepsEvents(st, b, t);
    DestroyKeepsWork(st, b, t);
    DestroyKeepsReads(st, b, t);
  }

  lemma SyncEventKeeps(st: State, b: nat, ok: bool, t: State)
    requires Rest(st) && ReleaseEnabled(st, SyncEvent(b, ok)) && t == DoSyncEvent(st, b, ok)
    ensures Rest(t)
  {
    assert BufferOk(st, b);
    var w := st.buffers[b].life;
    LifeMoveKeeps(st, b, w.(synced := true, safe := w.safe && ok), t);
  }

  lemma DestroyEventKeeps(st: State, b: nat, ok: bool, t: State)
    requires Rest(st) && ReleaseEnabled(st, DestroyEvent(b, ok)) && t == DoDestroyEvent(st, b, ok)
    ensures Rest(t)
  {
    DestroyEventKeepsObjects(st, b, ok, t);
    DestroyEventKeepsEvents(st, b, ok, t);
    DestroyEventKeepsWork(st, b, ok, t);
    DestroyEventKeepsReads(st, b, ok, t);
  }

  lemma ReleaseKeepsRest(st: State, x: ReleaseStep, t: State)
    requires Rest(st) && ReleaseEnabled(st, x) && t == ReleaseApply(st, x)
    ensures Rest(t)
  {
    match x
    case Destroy(b) => DestroyKeeps(st, b, t);
    case ReleaseNow(b) => ReturnKeeps(st, b, t);
    case OrphanNow(b) => LifeMoveKeeps(st, b, Orphaned, t);
    case Spawn(b) => LifeMoveKeeps(st, b, Spawned, t);
    case SpawnThrows(b, kept) => SpawnThrowsKeeps(st, b, kept, t);
    case Select(b, ok) => LifeMoveKeeps(st, b, Worker(0, ok, false, ok && !st.buffers[b].core.mustOrphan), t);
    case SyncEvent(b, ok) => SyncEventKeeps(st, b, ok, t);
    case DestroyEvent(b, ok) => DestroyEventKeeps(st, b, ok, t);
    case WorkerReturns(b) => assert BufferOk(st, b); ReturnKeeps(st, b, t);
    case WorkerOrphans(b) => LifeMoveKeeps(st, b, Orphaned, t);
  }

  lemma SubmitKeeps(st: State, h: nat, s: nat, t: State)
    requires Rest(st) && WorkEnabled(st, Submit(h, s)) && t == Enqueue(st, s, Touch(h))
    ensures Rest(t)
  {
    SubmitKeepsTables(st, h, s, t);
    SubmitKeepsWork(st, h, s, t);
    SubmitKeepsReads(st, h, s, t);
  }

  lemma ProgressKeeps(st: State, s: nat, t: State)
    requires Rest(st) && WorkEnabled(st, Progress(s)) && t == DoProgress(st, s)
    ensures Rest(t)
  {
    ProgressKeepsTables(st, s, t);
    ProgressKeepsWork(st, s, t);
    ProgressKeepsReads(st, s, t);
  }

  lemma WorkStepKeeps(st: State, x: WorkStep, t: State)
    requires Inv(st) && WorkEnabled(st, x) && t == WorkApply(st, x)
    ensures Inv(t)
  {
    WorkLeavesPool(st, x);
    PoolFrame(st, t);
    match x
    case Submit(h, s) => SubmitKeeps(st, h, s, t);
    case DropHandle(h) => HandleMoveKeeps(st, h, Gone, t);
    case Progress(s) => ProgressKeeps(st, s, t);
  }

  lemma StepKeeps(st: State, x: Step)
    requires Inv(st) && Enabled(st, x)
    ensures Inv(Apply(st, x))
  {
    var t := Apply(st, x);
    match x
    case OnPool(y) => PoolKeeps(st, y, t);
    case OnWriter(y) => WriterKeeps(st, y, t);
    case OnReader(y) => ReaderKeeps(st, y, t);
    case OnRelease(y) => ReleaseKeeps(st, y, t);
    case OnWork(y) => WorkStepKeeps(st, y, t);
  }

  /** The invariant holds after every run from a freshly made pool. */
  lemma {:induction false} RunKeeps(st: State, steps: seq<Step>)
    requires Inv(st) && CanRun(st, steps)
    ensures Inv(Run(st, steps))
    decreases |steps|
  {
    if steps != [] {
      StepKeeps(st, steps[0]);
      RunKeeps(Apply(st, steps[0]), steps[1..]);
    }
  }
}
