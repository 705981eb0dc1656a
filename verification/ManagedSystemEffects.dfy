/**
 One section for each thing a step can do to the state: end a writer, publish with an event,
 enqueue a wait, list a reader's event, move a buffer's life on, destroy an event, return a
 block, submit, progress.  For such an effect X the lemmas XKeepsObjects, XKeepsEvents,
 XKeepsStreams, XKeepsWork and XKeepsReads show that X keeps that part of the invariant;
 XKeepsTables stands for objects and events together.  Where the proof is larger, XCovered
 and XPending show it for one unfinished operation, XHandle and XReader for one handle,
 XBuffer, XList and XWorker for one buffer, XEvent and XListed for one event.  The new state
 is a parameter `t`, so that the facts about the old state are instantiated by the terms that
 speak of the new one.
 */
module ManagedSystemEffects {
  import opened BufferModel
  import opened ManagedSystem
  import opened ManagedSystemInvariant
  import opened ManagedSystemFrames

  // ---------- The effects steps are made of

  /** How a writer handle ends without publishing an event. */
  ghost predicate WriterEnding(st: State, h: nat, core: Buffer) {
    && ActiveWriter(st, h)
    && (|| core == CoreOf(st, h).LoseCompletion()
        || core == CoreOf(st, h).FailWriter()
        || (core == CoreOf(st, h).Cancel() && HandleUnused(st, h))
        || (core == CoreOf(st, h).FinalizeSynchronously() && HandleQuiet(st, h)))
  }

  /** A writer handle of kind `kind` is opened on stream `s`; the buffer becomes `core`. */
  function AddWriter(st: State, b: nat, kind: HandleKind, s: nat, core: Buffer): State
    requires b < |st.buffers|
  {
    AddHandle(SetBuf(st, b, st.buffers[b].(core := core, writer := Some(|st.handles|))),
              Handle(kind, b, s, Active, None, None, false))
  }

  ghost predicate WriterOpening(st: State, b: nat, kind: HandleKind, s: nat, core: Buffer) {
    && LiveBuffer(st, b) && s < |st.streams| && IsWriter(kind) && st.buffers[b].core.phase == Fresh
    && core == st.buffers[b].core.(phase := Writing, writerStream := core.writerStream)
  }

  /** A reader or lease handle moves to state `x` with nothing else changed. */
  ghost predicate HandleMoving(st: State, h: nat, x: HandleState) {
    && h < |st.handles|
    && var H := st.handles[h];
    || (H.state == Finished && x == Gone)
    || (H.kind == Lease && H.state == Active && x == Gone && HandleQuiet(st, h))
    || (H.state == Syncing && x == Active
        && (H.cover.Some? ==> H.cover.value < |st.events| && Complete(st, st.events[H.cover.value])))
  }

  ghost predicate ReadsLost(st: State, h: nat, x: HandleState) {
    && h < |st.handles| && st.handles[h].buf < |st.buffers|
    && Holding(st.handles[h]) && !IsWriter(st.handles[h].kind)
    && (x == Gone || (x == Finished && st.handles[h].kind == Reader))
  }

  /** A dying buffer's life moves on without ending in the pool. */
  ghost predicate LifeMoving(st: State, b: nat, l: Life) {
    && b < |st.buffers|
    && var B := st.buffers[b];
    && (B.life == Dying || B.life == Spawned || B.life.Worker?)
    && (l == Orphaned
        || (l == Spawned && B.life == Dying)
        || (l.Worker? && !B.life.Worker? && l.index == 0 && !l.synced && (l.safe ==> l.selected && !B.core.mustOrphan))
        || (l.Worker? && B.life.Worker? && l.index == B.life.index && l.index < |B.core.Events()| && l.selected
            && B.life.selected
            && (l.safe ==> B.life.safe && (l.synced ==> 
                  B.core.Events()[l.index] < |st.events| && Complete(st, st.events[B.core.Events()[l.index]])))))
  }

  ghost predicate Returning(st: State, b: nat) {
    && b < |st.buffers| && st.buffers[b].block < |st.place|
    && var B := st.buffers[b];
    && !B.core.mustOrphan
    && ((B.life == Dying && B.core.Events() == [])
        || (B.life.Worker? && B.life.safe && B.life.index == |B.core.Events()|))
  }

  /** A buffer whose release saw no failure has no unfinished operation left, except through
      a lease that ended early. */
  lemma BufferDrained(st: State, b: nat)
    requires ObjectsOk(st) && EventsOk(st) && WorkOk(st) && WorkersOk(st) && Returning(st, b)
    ensures forall s: nat, p: nat :: PendingAt(st, s, p) && BufOf(st, st.streams[s].ops[p].handle) == b ==>
              EarlyAt(st, s, p)
  {
    assert BufferOk(st, b) && WorkerOk(st, b);
    forall s: nat, p: nat | PendingAt(st, s, p) && BufOf(st, st.streams[s].ops[p].handle) == b
      ensures EarlyAt(st, s, p)
    {
      assert Covered(st, s, p);
      HandleFacts(st, st.streams[s].ops[p].handle);
    }
  }

  /** A buffer's life moves on, its list of events does not. */
  predicate SameList(B: SysBuffer, C: SysBuffer) {
    && C.core.Events() == B.core.Events() && C.core.mustOrphan == B.core.mustOrphan
    && FirstOwed(B) <= FirstOwed(C)
    && (C.life == Orphaned
        || (FirstOwed(C) == FirstOwed(B) && B.life != Orphaned
            && (B.life.Worker? && !B.life.safe ==> C.life.Worker? && !C.life.safe)))
  }

  lemma SameListOwes(B: SysBuffer, C: SysBuffer, e: nat)
    requires SameList(B, C) && C.life != Orphaned && Owes(B, e)
    ensures Owes(C, e)
  {
    var k :| FirstOwed(B) <= k < |B.core.Events()| && B.core.Events()[k] == e;
    assert C.core.Events()[k] == e;
  }

  lemma EventKept(st: State, t: State, e: nat)
    requires t.events == st.events && t.handles == st.handles && t.streams == st.streams
    requires |t.buffers| == |st.buffers| && e < |st.events| && EventOk(st, e)
    requires SameList(st.buffers[st.events[e].buf], t.buffers[st.events[e].buf])
    ensures EventOk(t, e)
  {
    var B, C := st.buffers[st.events[e].buf], t.buffers[st.events[e].buf];
    if C.life != Orphaned && Owes(B, e) { SameListOwes(B, C, e); }
  }

  lemma ListedKept(st: State, t: State, b: nat, k: nat)
    requires t.events == st.events && t.handles == st.handles
    requires b < |st.buffers| && b < |t.buffers| && SameList(st.buffers[b], t.buffers[b])
    requires k < |st.buffers[b].core.Events()| && ListedOk(st, b, k)
    ensures ListedOk(t, b, k)
  {}

  lemma EventsKept(st: State, t: State)
    requires EventsOk(st) && t.events == st.events && t.handles == st.handles && t.streams == st.streams
    requires |t.buffers| == |st.buffers|
    requires forall b :: 0 <= b < |st.buffers| ==> SameList(st.buffers[b], t.buffers[b])
    ensures EventsOk(t)
  {
    forall e: nat | e < |t.events|
      ensures EventOk(t, e)
    {
      assert EventOk(st, e);
      EventKept(st, t, e);
    }
    forall b: nat, k: nat | b < |t.buffers| && k < |t.buffers[b].core.Events()|
      ensures ListedOk(t, b, k)
    {
      assert ListedOk(st, b, k);
      ListedKept(st, t, b, k);
    }
    forall b: nat | b < |t.buffers|
      ensures Distinct(t.buffers[b].core.Events())
    {
      assert Distinct(st.buffers[b].core.Events()) && SameList(st.buffers[b], t.buffers[b]);
    }
    forall h: nat | h < |t.handles|
      ensures RecordedOk(t, h)
    {
      assert RecordedOk(st, h);
    }
  }

  lemma FinalizeEvent(st: State, h: nat, t: State, e: nat)
    requires ObjectsOk(st) && EventsOk(st) && WriterEnabled(st, Finalize(h)) && t == DoFinalize(st, h)
    requires e < |t.events|
    ensures EventOk(t, e)
  {
    WriterFacts(st, h);
    var b := st.handles[h].buf;
    if e < |st.events| {
      assert EventOk(st, e) && BufferOk(st, st.events[e].buf);
    } else {
      assert t.buffers[b].core.Events() == [e];
      assert t.buffers[b].core.Events()[0] == e;
    }
  }

  lemma EndWriterBuffer(st: State, h: nat, core: Buffer, t: State, c: nat)
    requires WriterEnding(st, h, core) && t == EndWriter(st, h, core)
    requires HandleKnown(st, h) && c < |st.buffers| && BufferOk(st, c)
    requires st.buffers[st.handles[h].buf].writer == Some(h)
    ensures c < |t.buffers| && BufferOk(t, c)
  {}

  lemma EndWriterHandle(st: State, h: nat, core: Buffer, t: State, k: nat)
    requires WriterEnding(st, h, core) && t == EndWriter(st, h, core)
    requires HandleKnown(st, h) && st.buffers[st.handles[h].buf].writer == Some(h)
    requires k < |st.handles| && HandleKnown(st, k)
    ensures k < |t.handles| && HandleOk(t, k)
  {}

  lemma EndWriterKeepsObjects(st: State, h: nat, core: Buffer, t: State)
    requires ObjectsOk(st)
    requires WriterEnding(st, h, core) && t == EndWriter(st, h, core)
    ensures ObjectsOk(t)
  {
    WriterFacts(st, h);
    forall c: nat | c < |t.buffers|
      ensures BufferOk(t, c)
    {
      assert BufferOk(st, c);
      EndWriterBuffer(st, h, core, t, c);
    }
    forall k: nat | k < |t.handles|
      ensures HandleOk(t, k)
    {
      HandleFacts(st, k);
      EndWriterHandle(st, h, core, t, k);
    }
  }

  lemma EndWriterKeepsEvents(st: State, h: nat, core: Buffer, t: State)
    requires ObjectsOk(st) && EventsOk(st)
    requires WriterEnding(st, h, core) && t == EndWriter(st, h, core)
    ensures EventsOk(t)
  {
    WriterFacts(st, h);
    assert core.Events() == [];
    forall e: nat | e < |t.events|
      ensures EventOk(t, e)
    {
      assert EventOk(st, e) && BufferOk(st, st.events[e].buf);
    }
    forall c: nat | c < |t.buffers|
      ensures Distinct(t.buffers[c].core.Events())
      ensures forall k: nat :: k < |t.buffers[c].core.Events()| ==> ListedOk(t, c, k)
    {
      forall k: nat | k < |t.buffers[c].core.Events()|
        ensures ListedOk(t, c, k)
      {
        assert ListedOk(st, c, k);
      }
    }
    forall g: nat | g < |t.handles|
      ensures RecordedOk(t, g)
    {
      assert RecordedOk(st, g) && HandleOk(st, g);
    }
  }

  lemma EndWriterKeepsWork(st: State, h: nat, core: Buffer, t: State)
    requires ObjectsOk(st) && StreamsOk(st) && EventsOk(st) && WorkOk(st) && WorkersOk(st)
    requires WriterEnding(st, h, core) && t == EndWriter(st, h, core)
    ensures StreamsOk(t) && WorkOk(t) && WorkersOk(t)
  {
    WriterFacts(st, h);
    StreamElements(st, t);
    WorkElements(st, t);
    WorkerElements(st, t);
  }

  lemma EndWriterPending(st: State, h: nat, core: Buffer, t: State, q: nat, p: nat)
    requires WriterEnding(st, h, core) && t == EndWriter(st, h, core)
    requires HandleKnown(st, h) && st.buffers[st.handles[h].buf].writer == Some(h) && PendingAt(t, q, p)
    requires PendingAt(st, q, p) ==> PendingKnown(st, q, p) && WriteOk(st, q, p) && ReadOk(st, q, p)
    ensures WriteOk(t, q, p) && ReadOk(t, q, p)
  {}

  lemma EndWriterReader(st: State, h: nat, core: Buffer, t: State, k: nat)
    requires WriterEnding(st, h, core) && t == EndWriter(st, h, core)
    requires HandleKnown(st, h) && st.buffers[st.handles[h].buf].writer == Some(h) && k < |t.handles|
    requires k < |st.handles| ==> HandleKnown(st, k) && ReaderOk(st, k) && LeaseOk(st, k)
    ensures ReaderOk(t, k) && LeaseOk(t, k)
  {}

  lemma EndWriterKeepsReads(st: State, h: nat, core: Buffer, t: State)
    requires ObjectsOk(st) && StreamsOk(st) && EventsOk(st) && WorkOk(st) && ReadsOk(st)
    requires WriterEnding(st, h, core) && t == EndWriter(st, h, core)
    ensures ReadsOk(t)
  {
    WriterFacts(st, h);
    forall q: nat, p: nat | PendingAt(t, q, p)
      ensures WriteOk(t, q, p) && ReadOk(t, q, p)
    {
      if PendingAt(st, q, p) { PendingFacts(st, q, p); }
      EndWriterPending(st, h, core, t, q, p);
    }
    forall k: nat | k < |t.handles|
      ensures ReaderOk(t, k) && LeaseOk(t, k)
    {
      if k < |st.handles| { HandleFacts(st, k); }
      EndWriterReader(st, h, core, t, k);
    }
  }

  lemma EndWriterKeeps(st: State, h: nat, core: Buffer, t: State)
    requires Rest(st)
    requires WriterEnding(st, h, core) && t == EndWriter(st, h, core)
    ensures Rest(t)
  {
    EndWriterKeepsObjects(st, h, core, t);
    EndWriterKeepsEvents(st, h, core, t);
    EndWriterKeepsWork(st, h, core, t);
    EndWriterKeepsReads(st, h, core, t);
  }

  lemma AddWriterKeepsObjects(st: State, b: nat, kind: HandleKind, s: nat, core: Buffer, t: State)
    requires ObjectsOk(st)
    requires WriterOpening(st, b, kind, s, core) && t == AddWriter(st, b, kind, s, core)
    ensures ObjectsOk(t)
  {
    assert BufferOk(st, b);
    ObjectElements(st, t);
  }

  lemma AddWriterKeepsEvents(st: State, b: nat, kind: HandleKind, s: nat, core: Buffer, t: State)
    requires ObjectsOk(st) && EventsOk(st)
    requires WriterOpening(st, b, kind, s, core) && t == AddWriter(st, b, kind, s, core)
    ensures EventsOk(t)
  {
    assert BufferOk(st, b);
    EventElements(st, t);
  }

  lemma AddWriterKeepsWork(st: State, b: nat, kind: HandleKind, s: nat, core: Buffer, t: State)
    requires ObjectsOk(st) && StreamsOk(st) && EventsOk(st) && WorkOk(st) && WorkersOk(st)
    requires WriterOpening(st, b, kind, s, core) && t == AddWriter(st, b, kind, s, core)
    ensures StreamsOk(t) && WorkOk(t) && WorkersOk(t)
  {
    assert BufferOk(st, b);
    StreamElements(st, t);
    WorkElements(st, t);
    WorkerElements(st, t);
  }

  lemma AddWriterKeepsReads(st: State, b: nat, kind: HandleKind, s: nat, core: Buffer, t: State)
    requires ObjectsOk(st) && StreamsOk(st) && EventsOk(st) && WorkOk(st) && ReadsOk(st)
    requires WriterOpening(st, b, kind, s, core) && t == AddWriter(st, b, kind, s, core)
    ensures ReadsOk(t)
  {
    assert BufferOk(st, b);
    ReadElements(st, t);
  }

  lemma FinalizeKeepsObjects(st: State, h: nat, t: State)
    requires ObjectsOk(st)
    requires WriterEnabled(st, Finalize(h)) && t == DoFinalize(st, h)
    ensures ObjectsOk(t)
  {
    WriterFacts(st, h);
    ObjectElements(st, t);
  }

  lemma FinalizeKeepsEvents(st: State, h: nat, t: State)
    requires ObjectsOk(st) && EventsOk(st)
    requires WriterEnabled(st, Finalize(h)) && t == DoFinalize(st, h)
    ensures EventsOk(t)
  {
    WriterFacts(st, h);
    ObjectElements(st, t);
    var b := st.handles[h].buf;
    assert t.buffers[b].core.Events() == [|st.events|] && t.events[|st.events|].maker == h;
    forall e: nat | e < |t.events|
      ensures EventOk(t, e)
    {
      FinalizeEvent(st, h, t, e);
    }
    forall c: nat | c < |t.buffers|
      ensures Distinct(t.buffers[c].core.Events())
      ensures forall k: nat :: k < |t.buffers[c].core.Events()| ==> ListedOk(t, c, k)
    {
      if c != b {
        forall k: nat | k < |t.buffers[c].core.Events()|
          ensures ListedOk(t, c, k)
        {
          assert ListedOk(st, c, k);
        }
      }
    }
    forall g: nat | g < |t.handles|
      ensures RecordedOk(t, g)
    {
      assert RecordedOk(st, g) && HandleOk(st, g);
    }
  }

  lemma FinalizeKeepsStreams(st: State, h: nat, t: State)
    requires ObjectsOk(st) && StreamsOk(st) && EventsOk(st)
    requires WriterEnabled(st, Finalize(h)) && t == DoFinalize(st, h)
    ensures StreamsOk(t)
  {
    StreamElements(st, t);
  }

  lemma FinalizeCovered(st: State, h: nat, t: State, q: nat, p: nat)
    requires WriterEnabled(st, Finalize(h)) && t == DoFinalize(st, h)
    requires HandleKnown(st, h) && CoreOf(st, h).Events() == [] && PendingAt(t, q, p)
    requires PendingAt(st, q, p) ==> PendingKnown(st, q, p)
    ensures Covered(t, q, p)
  {}

  lemma FinalizeWorker(st: State, h: nat, t: State, c: nat)
    requires WriterEnabled(st, Finalize(h)) && t == DoFinalize(st, h)
    requires HandleKnown(st, h) && CoreOf(st, h).Events() == [] && c < |st.buffers| && BufferOk(st, c)
               && WorkerOk(st, c)
    ensures c < |t.buffers| && WorkerOk(t, c)
  {}

  lemma FinalizeKeepsWork(st: State, h: nat, t: State)
    requires ObjectsOk(st) && StreamsOk(st) && EventsOk(st) && WorkOk(st) && WorkersOk(st)
    requires WriterEnabled(st, Finalize(h)) && t == DoFinalize(st, h)
    ensures StreamsOk(t) && WorkOk(t) && WorkersOk(t)
  {
    WriterFacts(st, h);
    FinalizeKeepsStreams(st, h, t);
    forall q: nat, p: nat | PendingAt(t, q, p)
      ensures Covered(t, q, p)
    {
      if PendingAt(st, q, p) { PendingFacts(st, q, p); }
      FinalizeCovered(st, h, t, q, p);
    }
    forall c: nat | c < |t.buffers|
      ensures WorkerOk(t, c)
    {
      FinalizeWorker(st, h, t, c);
    }
  }

  lemma FinalizePending(st: State, h: nat, t: State, q: nat, p: nat)
    requires WriterEnabled(st, Finalize(h)) && t == DoFinalize(st, h)
    requires HandleKnown(st, h) && PendingAt(t, q, p)
    requires PendingAt(st, q, p) ==> PendingKnown(st, q, p) && WriteOk(st, q, p) && ReadOk(st, q, p)
    ensures WriteOk(t, q, p) && ReadOk(t, q, p)
  {}

  lemma FinalizeReader(st: State, h: nat, t: State, k: nat)
    requires WriterEnabled(st, Finalize(h)) && t == DoFinalize(st, h)
    requires HandleKnown(st, h) && k < |t.handles|
    requires k < |st.handles| ==> HandleKnown(st, k) && ReaderOk(st, k) && LeaseOk(st, k)
    ensures ReaderOk(t, k) && LeaseOk(t, k)
  {}

  lemma FinalizeKeepsReads(st: State, h: nat, t: State)
    requires ObjectsOk(st) && StreamsOk(st) && EventsOk(st) && WorkOk(st) && ReadsOk(st)
    requires WriterEnabled(st, Finalize(h)) && t == DoFinalize(st, h)
    ensures ReadsOk(t)
  {
    WriterFacts(st, h);
    forall q: nat, p: nat | PendingAt(t, q, p)
      ensures WriteOk(t, q, p) && ReadOk(t, q, p)
    {
      if PendingAt(st, q, p) { PendingFacts(st, q, p); }
      FinalizePending(st, h, t, q, p);
    }
    forall k: nat | k < |t.handles|
      ensures ReaderOk(t, k) && LeaseOk(t, k)
    {
      if k < |st.handles| { HandleFacts(st, k); }
      FinalizeReader(st, h, t, k);
    }
  }

  lemma HostToDeviceKeepsTables(st: State, b: nat, t: State)
    requires ObjectsOk(st) && EventsOk(st)
    requires WriterEnabled(st, HostToDevice(b)) && t == SetCore(st, b, st.buffers[b].core.FinalizeSynchronously())
    ensures ObjectsOk(t) && EventsOk(t)
  {
    assert BufferOk(st, b);
    ObjectElements(st, t);
    EventElements(st, t);
  }

  lemma HostToDeviceKeepsWork(st: State, b: nat, t: State)
    requires ObjectsOk(st) && StreamsOk(st) && EventsOk(st) && WorkOk(st) && WorkersOk(st)
    requires WriterEnabled(st, HostToDevice(b)) && t == SetCore(st, b, st.buffers[b].core.FinalizeSynchronously())
    ensures StreamsOk(t) && WorkOk(t) && WorkersOk(t)
  {
    assert BufferOk(st, b);
    StreamElements(st, t);
    WorkElements(st, t);
    WorkerElements(st, t);
  }

  lemma HostToDeviceKeepsReads(st: State, b: nat, t: State)
    requires ObjectsOk(st) && StreamsOk(st) && EventsOk(st) && WorkOk(st) && ReadsOk(st)
    requires WriterEnabled(st, HostToDevice(b)) && t == SetCore(st, b, st.buffers[b].core.FinalizeSynchronously())
    ensures ReadsOk(t)
  {
    assert BufferOk(st, b);
    ReadElements(st, t);
  }

  lemma HostToDeviceThrowsHandle(st: State, b: nat, s: nat, t: State, k: nat)
    requires WriterEnabled(st, HostToDeviceThrows(b, s)) && t == DoHostToDeviceThrows(st, b, s)
    requires BufferOk(st, b) && k < |t.handles| && (k < |st.handles| ==> HandleKnown(st, k))
    ensures HandleOk(t, k)
  {}

  lemma HostToDeviceThrowsBuffer(st: State, b: nat, s: nat, t: State, c: nat)
    requires WriterEnabled(st, HostToDeviceThrows(b, s)) && t == DoHostToDeviceThrows(st, b, s)
    requires BufferOk(st, b) && c < |st.buffers| && BufferOk(st, c)
    ensures c < |t.buffers| && BufferOk(t, c)
  {}

  lemma HostToDeviceThrowsKeepsObjects(st: State, b: nat, s: nat, t: State)
    requires ObjectsOk(st)
    requires WriterEnabled(st, HostToDeviceThrows(b, s)) && t == DoHostToDeviceThrows(st, b, s)
    ensures ObjectsOk(t)
  {
    assert BufferOk(st, b);
    forall c: nat | c < |t.buffers|
      ensures BufferOk(t, c)
    {
      assert BufferOk(st, c);
      HostToDeviceThrowsBuffer(st, b, s, t, c);
    }
    forall k: nat | k < |t.handles|
      ensures HandleOk(t, k)
    {
      if k < |st.handles| { HandleFacts(st, k); }
      HostToDeviceThrowsHandle(st, b, s, t, k);
    }
  }

  lemma HostToDeviceThrowsKeepsEvents(st: State, b: nat, s: nat, t: State)
    requires ObjectsOk(st) && EventsOk(st)
    requires WriterEnabled(st, HostToDeviceThrows(b, s)) && t == DoHostToDeviceThrows(st, b, s)
    ensures EventsOk(t)
  {
    assert BufferOk(st, b);
    EventElements(st, t);
  }

  lemma HostToDeviceThrowsKeepsStreams(st: State, b: nat, s: nat, t: State)
    requires ObjectsOk(st) && StreamsOk(st)
    requires WriterEnabled(st, HostToDeviceThrows(b, s)) && t == DoHostToDeviceThrows(st, b, s)
    ensures StreamsOk(t)
  {
    assert BufferOk(st, b);
    StreamElements(st, t);
  }

  lemma HostToDeviceThrowsCovered(st: State, b: nat, s: nat, t: State, q: nat, p: nat)
    requires WriterEnabled(st, HostToDeviceThrows(b, s)) && t == DoHostToDeviceThrows(st, b, s)
    requires BufferOk(st, b) && PendingAt(t, q, p)
    requires PendingAt(st, q, p) ==> PendingKnown(st, q, p)
    ensures Covered(t, q, p)
  {}

  lemma HostToDeviceThrowsKeepsWork(st: State, b: nat, s: nat, t: State)
    requires ObjectsOk(st) && StreamsOk(st) && EventsOk(st) && WorkOk(st) && WorkersOk(st)
    requires WriterEnabled(st, HostToDeviceThrows(b, s)) && t == DoHostToDeviceThrows(st, b, s)
    ensures WorkOk(t) && WorkersOk(t)
  {
    assert BufferOk(st, b);
    forall q: nat, p: nat | PendingAt(t, q, p)
      ensures Covered(t, q, p)
    {
      if PendingAt(st, q, p) { PendingFacts(st, q, p); }
      HostToDeviceThrowsCovered(st, b, s, t, q, p);
    }
    forall c: nat | c < |t.buffers|
      ensures WorkerOk(t, c)
    {
      assert WorkerOk(st, c);
    }
  }

  lemma HostToDeviceThrowsPending(st: State, b: nat, s: nat, t: State, q: nat, p: nat)
    requires WriterEnabled(st, HostToDeviceThrows(b, s)) && t == DoHostToDeviceThrows(st, b, s)
    requires BufferOk(st, b) && PendingAt(t, q, p)
    requires PendingAt(st, q, p) ==> WriteOk(st, q, p) && ReadOk(st, q, p)
    ensures WriteOk(t, q, p) && ReadOk(t, q, p)
  {}

  lemma HostToDeviceThrowsReader(st: State, b: nat, s: nat, t: State, h: nat)
    requires WriterEnabled(st, HostToDeviceThrows(b, s)) && t == DoHostToDeviceThrows(st, b, s)
    requires h < |t.handles|
    requires h < |st.handles| ==> ReaderOk(st, h) && LeaseOk(st, h)
    ensures ReaderOk(t, h) && LeaseOk(t, h)
  {}

  lemma HostToDeviceThrowsKeepsReads(st: State, b: nat, s: nat, t: State)
    requires ObjectsOk(st) && StreamsOk(st) && EventsOk(st) && WorkOk(st) && ReadsOk(st)
    requires WriterEnabled(st, HostToDeviceThrows(b, s)) && t == DoHostToDeviceThrows(st, b, s)
    ensures ReadsOk(t)
  {
    assert BufferOk(st, b);
    forall q: nat, p: nat | PendingAt(t, q, p)
      ensures WriteOk(t, q, p) && ReadOk(t, q, p)
    {
      HostToDeviceThrowsPending(st, b, s, t, q, p);
    }
    forall h: nat | h < |t.handles|
      ensures ReaderOk(t, h) && LeaseOk(t, h)
    {
      HostToDeviceThrowsReader(st, b, s, t, h);
    }
  }

  lemma LoseReadsKeepsObjects(st: State, h: nat, x: HandleState, t: State)
    requires ObjectsOk(st)
    requires ReadsLost(st, h, x) && t == LoseReads(st, h, x)
    ensures ObjectsOk(t)
  {
    HandleFacts(st, h);
    forall c: nat | c < |t.buffers|
      ensures BufferOk(t, c)
    {
      assert BufferOk(st, c);
    }
    forall g: nat | g < |t.handles|
      ensures HandleOk(t, g)
    {
      assert HandleOk(st, g) && BufferOk(st, st.handles[g].buf);
    }
  }

  lemma LoseReadsKeepsEvents(st: State, h: nat, x: HandleState, t: State)
    requires ObjectsOk(st) && EventsOk(st)
    requires ReadsLost(st, h, x) && t == LoseReads(st, h, x)
    ensures EventsOk(t)
  {
    HandleFacts(st, h);
    assert RecordedOk(st, h) && CoreOf(t, h).Events() == CoreOf(st, h).Events();
    forall e: nat | e < |t.events|
      ensures EventOk(t, e)
    {
      assert EventOk(st, e) && BufferOk(st, st.events[e].buf);
    }
    forall c: nat | c < |t.buffers|
      ensures Distinct(t.buffers[c].core.Events())
      ensures forall k: nat :: k < |t.buffers[c].core.Events()| ==> ListedOk(t, c, k)
    {
      forall k: nat | k < |t.buffers[c].core.Events()|
        ensures ListedOk(t, c, k)
      {
        assert ListedOk(st, c, k);
      }
    }
    forall g: nat | g < |t.handles|
      ensures RecordedOk(t, g)
    {
      assert RecordedOk(st, g) && HandleOk(st, g);
    }
  }

  lemma LoseReadsKeepsWork(st: State, h: nat, x: HandleState, t: State)
    requires ObjectsOk(st) && StreamsOk(st) && EventsOk(st) && WorkOk(st) && WorkersOk(st)
    requires ReadsLost(st, h, x) && t == LoseReads(st, h, x)
    ensures StreamsOk(t) && WorkOk(t) && WorkersOk(t)
  {
    HandleFacts(st, h);
    StreamElements(st, t);
    WorkElements(st, t);
    WorkerElements(st, t);
  }

  lemma LoseReadsPending(st: State, h: nat, x: HandleState, t: State, q: nat, p: nat)
    requires ReadsLost(st, h, x) && t == LoseReads(st, h, x)
    requires HandleKnown(st, h) && PendingAt(t, q, p)
    requires PendingAt(st, q, p) ==> PendingKnown(st, q, p) && WriteOk(st, q, p) && ReadOk(st, q, p)
    ensures WriteOk(t, q, p) && ReadOk(t, q, p)
  {}

  lemma LoseReadsReader(st: State, h: nat, x: HandleState, t: State, k: nat)
    requires ReadsLost(st, h, x) && t == LoseReads(st, h, x)
    requires HandleKnown(st, h) && k < |t.handles|
    requires k < |st.handles| ==> HandleKnown(st, k) && ReaderOk(st, k) && LeaseOk(st, k)
    ensures ReaderOk(t, k) && LeaseOk(t, k)
  {}

  lemma LoseReadsKeepsReads(st: State, h: nat, x: HandleState, t: State)
    requires ObjectsOk(st) && StreamsOk(st) && EventsOk(st) && WorkOk(st) && ReadsOk(st)
    requires ReadsLost(st, h, x) && t == LoseReads(st, h, x)
    ensures ReadsOk(t)
  {
    HandleFacts(st, h);
    forall q: nat, p: nat | PendingAt(t, q, p)
      ensures WriteOk(t, q, p) && ReadOk(t, q, p)
    {
      if PendingAt(st, q, p) { PendingFacts(st, q, p); }
      LoseReadsPending(st, h, x, t, q, p);
    }
    forall k: nat | k < |t.handles|
      ensures ReaderOk(t, k) && LeaseOk(t, k)
    {
      if k < |st.handles| { HandleFacts(st, k); }
      LoseReadsReader(st, h, x, t, k);
    }
  }

  lemma LoseReadsKeeps(st: State, h: nat, x: HandleState, t: State)
    requires Rest(st)
    requires ReadsLost(st, h, x) && t == LoseReads(st, h, x)
    ensures Rest(t)
  {
    LoseReadsKeepsObjects(st, h, x, t);
    LoseReadsKeepsEvents(st, h, x, t);
    LoseReadsKeepsWork(st, h, x, t);
    LoseReadsKeepsReads(st, h, x, t);
  }

  lemma EnqueueWaitKeepsTables(st: State, b: nat, s: nat, t: State)
    requires ObjectsOk(st) && EventsOk(st)
    requires b < |st.buffers| && s < |st.streams| && t == EnqueueWait(st, b, s)
    ensures ObjectsOk(t) && EventsOk(t)
  {
    assert BufferOk(st, b);
    ObjectElements(st, t);
    EventElements(st, t);
  }

  lemma EnqueueWaitKeepsStreams(st: State, b: nat, s: nat, t: State)
    requires ObjectsOk(st) && StreamsOk(st) && EventsOk(st)
    requires b < |st.buffers| && s < |st.streams| && t == EnqueueWait(st, b, s)
    ensures StreamsOk(t)
  {
    assert BufferOk(st, b);
    if t != st {
      assert ListedOk(st, b, 0) && EventOk(st, st.buffers[b].core.Events()[0]);
    }
    StreamElements(st, t);
  }

  lemma EnqueueWaitCovered(st: State, b: nat, s: nat, t: State, q: nat, p: nat)
    requires b < |st.buffers| && s < |st.streams| && t == EnqueueWait(st, b, s)
    requires PendingAt(t, q, p)
    requires PendingAt(st, q, p) ==> PendingKnown(st, q, p)
    ensures Covered(t, q, p)
  {}

  lemma EnqueueWaitWorker(st: State, b: nat, s: nat, t: State, c: nat)
    requires b < |st.buffers| && s < |st.streams| && t == EnqueueWait(st, b, s)
    requires c < |st.buffers| && BufferOk(st, c) && WorkerOk(st, c)
    ensures c < |t.buffers| && WorkerOk(t, c)
  {}

  lemma EnqueueWaitKeepsWork(st: State, b: nat, s: nat, t: State)
    requires ObjectsOk(st) && StreamsOk(st) && EventsOk(st) && WorkOk(st) && WorkersOk(st)
    requires b < |st.buffers| && s < |st.streams| && t == EnqueueWait(st, b, s)
    ensures StreamsOk(t) && WorkOk(t) && WorkersOk(t)
  {
    
    EnqueueWaitKeepsStreams(st, b, s, t);
    forall q: nat, p: nat | PendingAt(t, q, p)
      ensures Covered(t, q, p)
    {
      if PendingAt(st, q, p) { PendingFacts(st, q, p); }
      EnqueueWaitCovered(st, b, s, t, q, p);
    }
    forall c: nat | c < |t.buffers|
      ensures WorkerOk(t, c)
    {
      EnqueueWaitWorker(st, b, s, t, c);
    }
  }

  lemma EnqueueWaitPending(st: State, b: nat, s: nat, t: State, q: nat, p: nat)
    requires b < |st.buffers| && s < |st.streams| && t == EnqueueWait(st, b, s)
    requires PendingAt(t, q, p)
    requires PendingAt(st, q, p) ==> PendingKnown(st, q, p) && WriteOk(st, q, p) && ReadOk(st, q, p)
    ensures WriteOk(t, q, p) && ReadOk(t, q, p)
  {}

  lemma EnqueueWaitReader(st: State, b: nat, s: nat, t: State, k: nat)
    requires b < |st.buffers| && s < |st.streams| && t == EnqueueWait(st, b, s)
    requires k < |t.handles|
    requires k < |st.handles| ==> HandleKnown(st, k) && ReaderOk(st, k) && LeaseOk(st, k)
    ensures ReaderOk(t, k) && LeaseOk(t, k)
  {}

  lemma EnqueueWaitKeepsReads(st: State, b: nat, s: nat, t: State)
    requires ObjectsOk(st) && StreamsOk(st) && EventsOk(st) && WorkOk(st) && ReadsOk(st)
    requires b < |st.buffers| && s < |st.streams| && t == EnqueueWait(st, b, s)
    ensures ReadsOk(t)
  {
    assert BufferOk(st, b);
    forall q: nat, p: nat | PendingAt(t, q, p)
      ensures WriteOk(t, q, p) && ReadOk(t, q, p)
    {
      if PendingAt(st, q, p) { PendingFacts(st, q, p); }
      EnqueueWaitPending(st, b, s, t, q, p);
    }
    forall k: nat | k < |t.handles|
      ensures ReaderOk(t, k) && LeaseOk(t, k)
    {
      if k < |st.handles| { HandleFacts(st, k); }
      EnqueueWaitReader(st, b, s, t, k);
    }
  }

  lemma OpenReaderHandle(st: State, b: nat, s: nat, t: State, k: nat)
    requires ReaderEnabled(st, OpenReader(b, s)) && t == DoOpenReader(st, b, s)
    requires BufferOk(st, b) && k < |t.handles| && (k < |st.handles| ==> HandleKnown(st, k))
    ensures HandleOk(t, k)
  {}

  lemma OpenReaderKeepsObjects(st: State, b: nat, s: nat, t: State)
    requires ObjectsOk(st)
    requires ReaderEnabled(st, OpenReader(b, s)) && t == DoOpenReader(st, b, s)
    ensures ObjectsOk(t)
  {
    assert BufferOk(st, b);
    forall c: nat | c < |t.buffers|
      ensures BufferOk(t, c)
    {
      assert BufferOk(st, c);
    }
    forall k: nat | k < |t.handles|
      ensures HandleOk(t, k)
    {
      if k < |st.handles| { HandleFacts(st, k); }
      OpenReaderHandle(st, b, s, t, k);
    }
  }

  lemma OpenReaderKeepsEvents(st: State, b: nat, s: nat, t: State)
    requires ObjectsOk(st) && EventsOk(st)
    requires ReaderEnabled(st, OpenReader(b, s)) && t == DoOpenReader(st, b, s)
    ensures EventsOk(t)
  {
    assert BufferOk(st, b);
    EventElements(st, t);
  }

  lemma OpenReaderKeepsWork(st: State, b: nat, s: nat, t: State)
    requires ObjectsOk(st) && StreamsOk(st) && EventsOk(st) && WorkOk(st) && WorkersOk(st)
    requires ReaderEnabled(st, OpenReader(b, s)) && t == DoOpenReader(st, b, s)
    ensures StreamsOk(t) && WorkOk(t) && WorkersOk(t)
  {
    EnqueueWaitKeepsWork(st, b, s, EnqueueWait(st, b, s));
    StreamElements(EnqueueWait(st, b, s), t);
    assert BufferOk(st, b);
    WorkElements(st, t);
    WorkerElements(st, t);
  }

  lemma OpenReaderPending(st: State, b: nat, s: nat, t: State, q: nat, p: nat)
    requires ReaderEnabled(st, OpenReader(b, s)) && t == DoOpenReader(st, b, s)
    requires BufferOk(st, b) && (st.buffers[b].core.producerEvent.Some? ==> ListedOk(st, b, 0)) && PendingAt(t, q, p)
    requires PendingAt(st, q, p) ==> PendingKnown(st, q, p) && WriteOk(st, q, p) && ReadOk(st, q, p)
    ensures WriteOk(t, q, p) && ReadOk(t, q, p)
  {}

  lemma OpenReaderReader(st: State, b: nat, s: nat, t: State, k: nat)
    requires ReaderEnabled(st, OpenReader(b, s)) && t == DoOpenReader(st, b, s)
    requires BufferOk(st, b) && (st.buffers[b].core.producerEvent.Some? ==> ListedOk(st, b, 0)) && k < |t.handles|
    requires k < |st.handles| ==> HandleKnown(st, k) && ReaderOk(st, k) && LeaseOk(st, k)
    ensures ReaderOk(t, k) && LeaseOk(t, k)
  {}

  lemma OpenReaderKeepsReads(st: State, b: nat, s: nat, t: State)
    requires ObjectsOk(st) && StreamsOk(st) && EventsOk(st) && WorkOk(st) && ReadsOk(st)
    requires ReaderEnabled(st, OpenReader(b, s)) && t == DoOpenReader(st, b, s)
    ensures ReadsOk(t)
  {
    assert BufferOk(st, b);
    if st.buffers[b].core.producerEvent.Some? {
      assert ListedOk(st, b, 0);
    }
    forall q: nat, p: nat | PendingAt(t, q, p)
      ensures WriteOk(t, q, p) && ReadOk(t, q, p)
    {
      if PendingAt(st, q, p) { PendingFacts(st, q, p); }
      OpenReaderPending(st, b, s, t, q, p);
    }
    forall k: nat | k < |t.handles|
      ensures ReaderOk(t, k) && LeaseOk(t, k)
    {
      if k < |st.handles| { HandleFacts(st, k); }
      OpenReaderReader(st, b, s, t, k);
    }
  }

  lemma RefuseReaderKeepsTables(st: State, b: nat, t: State)
    requires ObjectsOk(st) && EventsOk(st)
    requires LiveBuffer(st, b) && st.buffers[b].core.phase == Ready
               && t == SetCore(st, b, st.buffers[b].core.RefuseReader())
    ensures ObjectsOk(t) && EventsOk(t)
  {
    assert BufferOk(st, b);
    assert t.buffers[b].core.Events() == st.buffers[b].core.Events();
    ObjectElements(st, t);
    EventsKept(st, t);
  }

  lemma RefuseReaderKeepsWork(st: State, b: nat, t: State)
    requires ObjectsOk(st) && StreamsOk(st) && EventsOk(st) && WorkOk(st) && WorkersOk(st)
    requires LiveBuffer(st, b) && st.buffers[b].core.phase == Ready
               && t == SetCore(st, b, st.buffers[b].core.RefuseReader())
    ensures StreamsOk(t) && WorkOk(t) && WorkersOk(t)
  {
    assert BufferOk(st, b);
    StreamElements(st, t);
    WorkElements(st, t);
    WorkerElements(st, t);
  }

  lemma RefuseReaderKeepsReads(st: State, b: nat, t: State)
    requires ObjectsOk(st) && StreamsOk(st) && EventsOk(st) && WorkOk(st) && ReadsOk(st)
    requires LiveBuffer(st, b) && st.buffers[b].core.phase == Ready
               && t == SetCore(st, b, st.buffers[b].core.RefuseReader())
    ensures ReadsOk(t)
  {
    assert BufferOk(st, b);
    ReadElements(st, t);
  }

  lemma RecordReaderKeepsTables(st: State, h: nat, t: State)
    requires ObjectsOk(st) && EventsOk(st)
    requires ReaderEnabled(st, RecordReader(h)) && t == DoRecordReader(st, h)
    ensures ObjectsOk(t) && EventsOk(t)
  {
    HandleFacts(st, h);
    ObjectElements(st, t);
    EventElements(st, t);
  }

  lemma RecordReaderKeepsWork(st: State, h: nat, t: State)
    requires ObjectsOk(st) && StreamsOk(st) && EventsOk(st) && WorkOk(st) && WorkersOk(st)
    requires ReaderEnabled(st, RecordReader(h)) && t == DoRecordReader(st, h)
    ensures StreamsOk(t) && WorkOk(t) && WorkersOk(t)
  {
    HandleFacts(st, h);
    StreamElements(st, t);
    WorkElements(st, t);
    WorkerElements(st, t);
  }

  lemma RecordReaderPending(st: State, h: nat, t: State, q: nat, p: nat)
    requires ReaderEnabled(st, RecordReader(h)) && t == DoRecordReader(st, h)
    requires HandleKnown(st, h) && PendingAt(t, q, p)
    requires PendingAt(st, q, p) ==> PendingKnown(st, q, p) && WriteOk(st, q, p) && ReadOk(st, q, p)
    ensures WriteOk(t, q, p) && ReadOk(t, q, p)
  {}

  lemma RecordReaderReader(st: State, h: nat, t: State, k: nat)
    requires ReaderEnabled(st, RecordReader(h)) && t == DoRecordReader(st, h)
    requires HandleKnown(st, h) && k < |t.handles|
    requires k < |st.handles| ==> HandleKnown(st, k) && ReaderOk(st, k) && LeaseOk(st, k)
    ensures ReaderOk(t, k) && LeaseOk(t, k)
  {}

  lemma RecordReaderKeepsReads(st: State, h: nat, t: State)
    requires ObjectsOk(st) && StreamsOk(st) && EventsOk(st) && WorkOk(st) && ReadsOk(st)
    requires ReaderEnabled(st, RecordReader(h)) && t == DoRecordReader(st, h)
    ensures ReadsOk(t)
  {
    HandleFacts(st, h);
    forall q: nat, p: nat | PendingAt(t, q, p)
      ensures WriteOk(t, q, p) && ReadOk(t, q, p)
    {
      if PendingAt(st, q, p) { PendingFacts(st, q, p); }
      RecordReaderPending(st, h, t, q, p);
    }
    forall k: nat | k < |t.handles|
      ensures ReaderOk(t, k) && LeaseOk(t, k)
    {
      if k < |st.handles| { HandleFacts(st, k); }
      RecordReaderReader(st, h, t, k);
    }
  }

  lemma PushReaderKeepsObjects(st: State, h: nat, t: State)
    requires ObjectsOk(st)
    requires ReaderEnabled(st, PushReader(h)) && t == DoPushReader(st, h)
    ensures ObjectsOk(t)
  {
    HandleFacts(st, h);
    ObjectElements(st, t);
  }

  /** The reader's event goes to the end of its buffer's list, where it was not before. */
  lemma PushReaderList(st: State, h: nat, t: State)
    requires HandleKnown(st, h) && RecordedOk(st, h)
    requires ReaderEnabled(st, PushReader(h)) && t == DoPushReader(st, h)
    ensures CoreOf(t, h).Events() == CoreOf(st, h).Events() + [st.handles[h].state.event]
  {
    assert CoreOf(t, h).Events() == CoreOf(st, h).Events() + [st.handles[h].state.event];
  }

  lemma PushReaderIsNew(st: State, h: nat, k: nat)
    requires EventsOk(st) && HandleKnown(st, h) && st.handles[h].state.Recorded? && k < |CoreOf(st, h).Events()|
    ensures ListedOk(st, st.handles[h].buf, k) && CoreOf(st, h).Events()[k] != st.handles[h].state.event
  {
    assert ListedOk(st, st.handles[h].buf, k) && RecordedOk(st, h);
  }

  lemma OwesMore(B: SysBuffer, C: SysBuffer, e: nat, e0: nat)
    requires C.core.Events() == B.core.Events() + [e0] && B.life == C.life == Alive
    ensures Owes(B, e) ==> Owes(C, e)
    ensures Owes(C, e0)
  {
    var es, fs := B.core.Events(), C.core.Events();
    assert fs[|es|] == e0;
    if Owes(B, e) {
      var k :| FirstOwed(B) <= k < |es| && es[k] == e;
      assert fs[k] == e;
    }
  }

  lemma PushReaderEvent(st: State, h: nat, t: State, e: nat)
    requires HandleKnown(st, h) && RecordedOk(st, h)
    requires ReaderEnabled(st, PushReader(h)) && t == DoPushReader(st, h)
    requires e < |st.events| && EventOk(st, e) && BufferOk(st, st.events[e].buf)
    ensures e < |t.events| && EventOk(t, e)
  {
    var b := st.handles[h].buf;
    PushReaderList(st, h, t);
    OwesMore(st.buffers[b], t.buffers[b], e, st.handles[h].state.event);
  }

  lemma PushReaderListed(st: State, h: nat, t: State, c: nat, k: nat)
    requires HandleKnown(st, h) && RecordedOk(st, h)
    requires ReaderEnabled(st, PushReader(h)) && t == DoPushReader(st, h)
    requires c < |t.buffers| && k < |t.buffers[c].core.Events()|
    requires k < |st.buffers[c].core.Events()| ==> ListedOk(st, c, k)
    ensures ListedOk(t, c, k)
  {
    PushReaderList(st, h, t);
  }

  lemma PushReaderKeepsEvents(st: State, h: nat, t: State)
    requires ObjectsOk(st) && EventsOk(st)
    requires ReaderEnabled(st, PushReader(h)) && t == DoPushReader(st, h)
    ensures EventsOk(t)
  {
    HandleFacts(st, h);
    assert RecordedOk(st, h);
    PushReaderList(st, h, t);
    forall e: nat | e < |t.events|
      ensures EventOk(t, e)
    {
      assert EventOk(st, e);
      PushReaderEvent(st, h, t, e);
    }
    forall c: nat | c < |t.buffers|
      ensures Distinct(t.buffers[c].core.Events())
      ensures forall k: nat :: k < |t.buffers[c].core.Events()| ==> ListedOk(t, c, k)
    {
      if c == st.handles[h].buf { PushReaderDistinct(st, h, t); }
      forall k: nat | k < |t.buffers[c].core.Events()|
        ensures ListedOk(t, c, k)
      {
        PushReaderListed(st, h, t, c, k);
      }
    }
    forall g: nat | g < |t.handles|
      ensures RecordedOk(t, g)
    {
      assert RecordedOk(st, g) && HandleOk(st, g);
    }
  }

  lemma PushReaderDistinct(st: State, h: nat, t: State)
    requires EventsOk(st) && HandleKnown(st, h)
    requires ReaderEnabled(st, PushReader(h)) && t == DoPushReader(st, h)
    ensures Distinct(CoreOf(t, h).Events())
  {
    assert RecordedOk(st, h) && Distinct(CoreOf(st, h).Events());
    PushReaderList(st, h, t);
    forall k: nat | k < |CoreOf(st, h).Events()|
      ensures CoreOf(st, h).Events()[k] != st.handles[h].state.event
    {
      PushReaderIsNew(st, h, k);
    }
  }

  lemma PushReaderKeepsWork(st: State, h: nat, t: State)
    requires ObjectsOk(st) && StreamsOk(st) && EventsOk(st) && WorkOk(st) && WorkersOk(st)
    requires ReaderEnabled(st, PushReader(h)) && t == DoPushReader(st, h)
    ensures StreamsOk(t) && WorkOk(t) && WorkersOk(t)
  {
    HandleFacts(st, h);
    StreamElements(st, t);
    WorkElements(st, t);
    WorkerElements(st, t);
  }

  lemma PushReaderPending(st: State, h: nat, t: State, q: nat, p: nat)
    requires ReaderEnabled(st, PushReader(h)) && t == DoPushReader(st, h)
    requires HandleKnown(st, h) && PendingAt(t, q, p)
    requires PendingAt(st, q, p) ==> PendingKnown(st, q, p) && WriteOk(st, q, p) && ReadOk(st, q, p)
    ensures WriteOk(t, q, p) && ReadOk(t, q, p)
  {}

  lemma PushReaderReader(st: State, h: nat, t: State, k: nat)
    requires ReaderEnabled(st, PushReader(h)) && t == DoPushReader(st, h)
    requires HandleKnown(st, h) && k < |t.handles|
    requires k < |st.handles| ==> HandleKnown(st, k) && ReaderOk(st, k) && LeaseOk(st, k)
    ensures ReaderOk(t, k) && LeaseOk(t, k)
  {}

  lemma PushReaderKeepsReads(st: State, h: nat, t: State)
    requires ObjectsOk(st) && StreamsOk(st) && EventsOk(st) && WorkOk(st) && ReadsOk(st)
    requires ReaderEnabled(st, PushReader(h)) && t == DoPushReader(st, h)
    ensures ReadsOk(t)
  {
    HandleFacts(st, h);
    forall q: nat, p: nat | PendingAt(t, q, p)
      ensures WriteOk(t, q, p) && ReadOk(t, q, p)
    {
      if PendingAt(st, q, p) { PendingFacts(st, q, p); }
      PushReaderPending(st, h, t, q, p);
    }
    forall k: nat | k < |t.handles|
      ensures ReaderOk(t, k) && LeaseOk(t, k)
    {
      if k < |st.handles| { HandleFacts(st, k); }
      PushReaderReader(st, h, t, k);
    }
  }

  lemma CheckLeaseKeepsTables(st: State, b: nat, s: nat, t: State)
    requires ObjectsOk(st) && EventsOk(st)
    requires ReaderEnabled(st, CheckLease(b, s)) && t == DoCheckLease(st, b, s)
    ensures ObjectsOk(t) && EventsOk(t)
  {
    ObjectElements(st, t);
    assert BufferOk(st, b);
    if st.buffers[b].core.producerEvent.Some? {
      assert ListedOk(st, b, 0);
    }
    EventElements(st, t);
  }

  lemma CheckLeaseKeepsWork(st: State, b: nat, s: nat, t: State)
    requires ObjectsOk(st) && StreamsOk(st) && EventsOk(st) && WorkOk(st) && WorkersOk(st)
    requires ReaderEnabled(st, CheckLease(b, s)) && t == DoCheckLease(st, b, s)
    ensures StreamsOk(t) && WorkOk(t) && WorkersOk(t)
  {
    assert BufferOk(st, b);
    StreamElements(st, t);
    WorkElements(st, t);
    WorkerElements(st, t);
  }

  lemma CheckLeaseKeepsReads(st: State, b: nat, s: nat, t: State)
    requires ObjectsOk(st) && StreamsOk(st) && EventsOk(st) && WorkOk(st) && ReadsOk(st)
    requires ReaderEnabled(st, CheckLease(b, s)) && t == DoCheckLease(st, b, s)
    ensures ReadsOk(t)
  {
    assert BufferOk(st, b);
    ReadElements(st, t);
  }

  lemma HandleMoveKeepsTables(st: State, h: nat, x: HandleState, t: State)
    requires ObjectsOk(st) && EventsOk(st)
    requires HandleMoving(st, h, x) && t == SetHandleState(st, h, x)
    ensures ObjectsOk(t) && EventsOk(t)
  {
    HandleFacts(st, h);
    ObjectElements(st, t);
    EventElements(st, t);
  }

  lemma HandleMoveKeepsWork(st: State, h: nat, x: HandleState, t: State)
    requires ObjectsOk(st) && StreamsOk(st) && EventsOk(st) && WorkOk(st) && WorkersOk(st)
    requires HandleMoving(st, h, x) && t == SetHandleState(st, h, x)
    ensures StreamsOk(t) && WorkOk(t) && WorkersOk(t)
  {
    HandleFacts(st, h);
    StreamElements(st, t);
    WorkElements(st, t);
    WorkerElements(st, t);
  }

  lemma HandleMovePending(st: State, h: nat, x: HandleState, t: State, q: nat, p: nat)
    requires HandleMoving(st, h, x) && t == SetHandleState(st, h, x)
    requires HandleKnown(st, h) && PendingAt(t, q, p)
    requires PendingAt(st, q, p) ==> PendingKnown(st, q, p) && WriteOk(st, q, p) && ReadOk(st, q, p)
    ensures WriteOk(t, q, p) && ReadOk(t, q, p)
  {}

  lemma HandleMoveReader(st: State, h: nat, x: HandleState, t: State, k: nat)
    requires HandleMoving(st, h, x) && t == SetHandleState(st, h, x)
    requires HandleKnown(st, h) && k < |t.handles|
    requires k < |st.handles| ==> HandleKnown(st, k) && ReaderOk(st, k) && LeaseOk(st, k)
    ensures ReaderOk(t, k) && LeaseOk(t, k)
  {}

  lemma HandleMoveKeepsReads(st: State, h: nat, x: HandleState, t: State)
    requires ObjectsOk(st) && StreamsOk(st) && EventsOk(st) && WorkOk(st) && ReadsOk(st)
    requires HandleMoving(st, h, x) && t == SetHandleState(st, h, x)
    ensures ReadsOk(t)
  {
    HandleFacts(st, h);
    forall q: nat, p: nat | PendingAt(t, q, p)
      ensures WriteOk(t, q, p) && ReadOk(t, q, p)
    {
      if PendingAt(st, q, p) { PendingFacts(st, q, p); }
      HandleMovePending(st, h, x, t, q, p);
    }
    forall k: nat | k < |t.handles|
      ensures ReaderOk(t, k) && LeaseOk(t, k)
    {
      if k < |st.handles| { HandleFacts(st, k); }
      HandleMoveReader(st, h, x, t, k);
    }
  }

  lemma HandleMoveKeeps(st: State, h: nat, x: HandleState, t: State)
    requires Rest(st)
    requires HandleMoving(st, h, x) && t == SetHandleState(st, h, x)
    ensures Rest(t)
  {
    HandleMoveKeepsTables(st, h, x, t);
    HandleMoveKeepsWork(st, h, x, t);
    HandleMoveKeepsReads(st, h, x, t);
  }

  lemma EndEarlyKeepsTables(st: State, h: nat, t: State)
    requires ObjectsOk(st) && EventsOk(st)
    requires ReaderEnabled(st, EndLeaseEarly(h)) && t == DoEndLeaseEarly(st, h)
    ensures ObjectsOk(t) && EventsOk(t)
  {
    HandleFacts(st, h);
    ObjectElements(st, t);
    EventElements(st, t);
  }

  lemma EndEarlyKeepsWork(st: State, h: nat, t: State)
    requires ObjectsOk(st) && StreamsOk(st) && EventsOk(st) && WorkOk(st) && WorkersOk(st)
    requires ReaderEnabled(st, EndLeaseEarly(h)) && t == DoEndLeaseEarly(st, h)
    ensures StreamsOk(t) && WorkOk(t) && WorkersOk(t)
  {
    HandleFacts(st, h);
    StreamElements(st, t);
    WorkElements(st, t);
    WorkerElements(st, t);
  }

  lemma EndEarlyPending(st: State, h: nat, t: State, q: nat, p: nat)
    requires ReaderEnabled(st, EndLeaseEarly(h)) && t == DoEndLeaseEarly(st, h)
    requires HandleKnown(st, h) && PendingAt(t, q, p)
    requires PendingAt(st, q, p) ==> PendingKnown(st, q, p) && WriteOk(st, q, p) && ReadOk(st, q, p)
    ensures WriteOk(t, q, p) && ReadOk(t, q, p)
  {}

  lemma EndEarlyReader(st: State, h: nat, t: State, k: nat)
    requires ReaderEnabled(st, EndLeaseEarly(h)) && t == DoEndLeaseEarly(st, h)
    requires HandleKnown(st, h) && k < |t.handles|
    requires k < |st.handles| ==> HandleKnown(st, k) && ReaderOk(st, k) && LeaseOk(st, k)
    ensures ReaderOk(t, k) && LeaseOk(t, k)
  {}

  lemma EndEarlyKeepsReads(st: State, h: nat, t: State)
    requires ObjectsOk(st) && StreamsOk(st) && EventsOk(st) && WorkOk(st) && ReadsOk(st)
    requires ReaderEnabled(st, EndLeaseEarly(h)) && t == DoEndLeaseEarly(st, h)
    ensures ReadsOk(t)
  {
    HandleFacts(st, h);
    forall q: nat, p: nat | PendingAt(t, q, p)
      ensures WriteOk(t, q, p) && ReadOk(t, q, p)
    {
      if PendingAt(st, q, p) { PendingFacts(st, q, p); }
      EndEarlyPending(st, h, t, q, p);
    }
    forall k: nat | k < |t.handles|
      ensures ReaderOk(t, k) && LeaseOk(t, k)
    {
      if k < |st.handles| { HandleFacts(st, k); }
      EndEarlyReader(st, h, t, k);
    }
  }

  lemma DestroyKeepsObjects(st: State, b: nat, t: State)
    requires ObjectsOk(st)
    requires ReleaseEnabled(st, Destroy(b)) && t == DoDestroy(st, b)
    ensures ObjectsOk(t)
  {
    forall c: nat | c < |t.buffers|
      ensures BufferOk(t, c)
    {
      assert BufferOk(st, c);
    }
    forall g: nat | g < |t.handles|
      ensures HandleOk(t, g)
    {
      HandleFacts(st, g);
    }
  }

  lemma DestroyKeepsEvents(st: State, b: nat, t: State)
    requires ObjectsOk(st) && EventsOk(st)
    requires ReleaseEnabled(st, Destroy(b)) && t == DoDestroy(st, b)
    ensures EventsOk(t)
  {
    assert t.buffers[b].core.Events() == st.buffers[b].core.Events();
    EventsKept(st, t);
  }

  lemma DestroyKeepsWork(st: State, b: nat, t: State)
    requires ObjectsOk(st) && StreamsOk(st) && EventsOk(st) && WorkOk(st) && WorkersOk(st)
    requires ReleaseEnabled(st, Destroy(b)) && t == DoDestroy(st, b)
    ensures StreamsOk(t) && WorkOk(t) && WorkersOk(t)
  {
    assert BufferOk(st, b);
    StreamElements(st, t);
    WorkElements(st, t);
    WorkerElements(st, t);
  }

  lemma DestroyKeepsReads(st: State, b: nat, t: State)
    requires ObjectsOk(st) && StreamsOk(st) && EventsOk(st) && WorkOk(st) && ReadsOk(st)
    requires ReleaseEnabled(st, Destroy(b)) && t == DoDestroy(st, b)
    ensures ReadsOk(t)
  {
    assert BufferOk(st, b);
    ReadElements(st, t);
  }

  lemma LifeMoveKeepsObjects(st: State, b: nat, l: Life, t: State)
    requires ObjectsOk(st)
    requires LifeMoving(st, b, l) && t == SetLife(st, b, l)
    ensures ObjectsOk(t)
  {
    assert BufferOk(st, b);
    ObjectElements(st, t);
  }

  lemma LifeMoveKeepsList(st: State, b: nat, l: Life, t: State, c: nat)
    requires LifeMoving(st, b, l) && t == SetLife(st, b, l)
    requires BufferOk(st, b) && c < |st.buffers|
    ensures SameList(st.buffers[c], t.buffers[c])
  {
    assert t.buffers[b].core == st.buffers[b].core;
  }

  lemma LifeMoveKeepsEvents(st: State, b: nat, l: Life, t: State)
    requires ObjectsOk(st) && EventsOk(st)
    requires LifeMoving(st, b, l) && t == SetLife(st, b, l)
    ensures EventsOk(t)
  {
    assert BufferOk(st, b);
    forall c: nat | c < |st.buffers|
      ensures SameList(st.buffers[c], t.buffers[c])
    {
      LifeMoveKeepsList(st, b, l, t, c);
    }
    EventsKept(st, t);
  }

  lemma LifeMoveKeepsWork(st: State, b: nat, l: Life, t: State)
    requires ObjectsOk(st) && StreamsOk(st) && EventsOk(st) && WorkOk(st) && WorkersOk(st)
    requires LifeMoving(st, b, l) && t == SetLife(st, b, l)
    ensures StreamsOk(t) && WorkOk(t) && WorkersOk(t)
  {
    assert BufferOk(st, b);
    StreamElements(st, t);
    WorkElements(st, t);
    WorkerElements(st, t);
  }

  lemma LifeMoveKeepsReads(st: State, b: nat, l: Life, t: State)
    requires ObjectsOk(st) && StreamsOk(st) && EventsOk(st) && WorkOk(st) && ReadsOk(st)
    requires LifeMoving(st, b, l) && t == SetLife(st, b, l)
    ensures ReadsOk(t)
  {
    assert BufferOk(st, b);
    ReadElements(st, t);
  }

  lemma LifeMoveKeeps(st: State, b: nat, l: Life, t: State)
    requires Rest(st)
    requires LifeMoving(st, b, l) && t == SetLife(st, b, l)
    ensures Rest(t)
  {
    LifeMoveKeepsObjects(st, b, l, t);
    LifeMoveKeepsEvents(st, b, l, t);
    LifeMoveKeepsWork(st, b, l, t);
    LifeMoveKeepsReads(st, b, l, t);
  }

  lemma DestroyEventKeepsObjects(st: State, b: nat, ok: bool, t: State)
    requires ObjectsOk(st)
    requires ReleaseEnabled(st, DestroyEvent(b, ok)) && t == DoDestroyEvent(st, b, ok)
    ensures ObjectsOk(t)
  {
    assert BufferOk(st, b);
    ObjectElements(st, t);
  }

  lemma DestroyEventKeepsLists(st: State, b: nat, ok: bool, t: State)
    requires ObjectsOk(st) && EventsOk(st)
    requires ReleaseEnabled(st, DestroyEvent(b, ok)) && t == DoDestroyEvent(st, b, ok)
    ensures forall c: nat :: c < |t.buffers| ==> Distinct(t.buffers[c].core.Events())
    ensures forall c: nat, k: nat :: c < |t.buffers| && k < |t.buffers[c].core.Events()| ==> ListedOk(t, c, k)
  {
    assert BufferOk(st, b);
    forall c: nat, k: nat | c < |t.buffers| && k < |t.buffers[c].core.Events()|
      ensures ListedOk(t, c, k)
    {
      assert ListedOk(st, c, k) && ListedOk(st, b, st.buffers[b].life.index);
    }
  }

  lemma DestroyEventKeepsTable(st: State, b: nat, ok: bool, t: State)
    requires ObjectsOk(st) && EventsOk(st)
    requires ReleaseEnabled(st, DestroyEvent(b, ok)) && t == DoDestroyEvent(st, b, ok)
    ensures forall e: nat :: e < |t.events| ==> EventOk(t, e)
  {
    assert BufferOk(st, b);
    var i := st.buffers[b].life.index;
    var es := st.buffers[b].core.Events();
    assert t.buffers[b].core.Events() == es && ListedOk(st, b, i);
    assert es[i..] == [es[i]] + es[i + 1..];
    forall e: nat | e < |t.events|
      ensures EventOk(t, e)
    {
      assert EventOk(st, e) && BufferOk(st, st.events[e].buf);
    }
  }

  lemma DestroyEventKeepsEvents(st: State, b: nat, ok: bool, t: State)
    requires ObjectsOk(st) && EventsOk(st)
    requires ReleaseEnabled(st, DestroyEvent(b, ok)) && t == DoDestroyEvent(st, b, ok)
    ensures EventsOk(t)
  {
    DestroyEventKeepsTable(st, b, ok, t);
    DestroyEventKeepsLists(st, b, ok, t);
    assert BufferOk(st, b);
    forall g: nat | g < |t.handles|
      ensures RecordedOk(t, g)
    {
      assert RecordedOk(st, g) && HandleOk(st, g) && ListedOk(st, b, st.buffers[b].life.index);
    }
  }

  lemma DestroyEventKeepsStreams(st: State, b: nat, ok: bool, t: State)
    requires ObjectsOk(st) && StreamsOk(st) && EventsOk(st)
    requires ReleaseEnabled(st, DestroyEvent(b, ok)) && t == DoDestroyEvent(st, b, ok)
    ensures StreamsOk(t)
  {
    StreamElements(st, t);
  }

  lemma DestroyEventCovered(st: State, b: nat, ok: bool, t: State, q: nat, p: nat)
    requires ReleaseEnabled(st, DestroyEvent(b, ok)) && t == DoDestroyEvent(st, b, ok)
    requires BufferOk(st, b) && WorkerOk(st, b) && PendingAt(t, q, p)
    requires PendingAt(st, q, p) ==> PendingKnown(st, q, p)
    ensures Covered(t, q, p)
  {}

  lemma DestroyEventWorker(st: State, b: nat, ok: bool, t: State, c: nat)
    requires ReleaseEnabled(st, DestroyEvent(b, ok)) && t == DoDestroyEvent(st, b, ok)
    requires BufferOk(st, b) && WorkerOk(st, b) && c < |st.buffers| && BufferOk(st, c) && WorkerOk(st, c)
    ensures c < |t.buffers| && WorkerOk(t, c)
  {}

  lemma DestroyEventKeepsWork(st: State, b: nat, ok: bool, t: State)
    requires ObjectsOk(st) && StreamsOk(st) && EventsOk(st) && WorkOk(st) && WorkersOk(st)
    requires ReleaseEnabled(st, DestroyEvent(b, ok)) && t == DoDestroyEvent(st, b, ok)
    ensures StreamsOk(t) && WorkOk(t) && WorkersOk(t)
  {
    assert BufferOk(st, b) && WorkerOk(st, b);
    DestroyEventKeepsStreams(st, b, ok, t);
    forall q: nat, p: nat | PendingAt(t, q, p)
      ensures Covered(t, q, p)
    {
      if PendingAt(st, q, p) { PendingFacts(st, q, p); }
      DestroyEventCovered(st, b, ok, t, q, p);
    }
    forall c: nat | c < |t.buffers|
      ensures WorkerOk(t, c)
    {
      DestroyEventWorker(st, b, ok, t, c);
    }
  }

  lemma DestroyEventPending(st: State, b: nat, ok: bool, t: State, q: nat, p: nat)
    requires ReleaseEnabled(st, DestroyEvent(b, ok)) && t == DoDestroyEvent(st, b, ok)
    requires BufferOk(st, b) && PendingAt(t, q, p)
    requires PendingAt(st, q, p) ==> PendingKnown(st, q, p) && WriteOk(st, q, p) && ReadOk(st, q, p)
    ensures WriteOk(t, q, p) && ReadOk(t, q, p)
  {}

  lemma DestroyEventReader(st: State, b: nat, ok: bool, t: State, k: nat)
    requires ReleaseEnabled(st, DestroyEvent(b, ok)) && t == DoDestroyEvent(st, b, ok)
    requires BufferOk(st, b) && k < |t.handles|
    requires k < |st.handles| ==> HandleKnown(st, k) && ReaderOk(st, k) && LeaseOk(st, k)
    ensures ReaderOk(t, k) && LeaseOk(t, k)
  {}

  lemma DestroyEventKeepsReads(st: State, b: nat, ok: bool, t: State)
    requires ObjectsOk(st) && StreamsOk(st) && EventsOk(st) && WorkOk(st) && ReadsOk(st)
    requires ReleaseEnabled(st, DestroyEvent(b, ok)) && t == DoDestroyEvent(st, b, ok)
    ensures ReadsOk(t)
  {
    assert BufferOk(st, b);
    forall q: nat, p: nat | PendingAt(t, q, p)
      ensures WriteOk(t, q, p) && ReadOk(t, q, p)
    {
      if PendingAt(st, q, p) { PendingFacts(st, q, p); }
      DestroyEventPending(st, b, ok, t, q, p);
    }
    forall k: nat | k < |t.handles|
      ensures ReaderOk(t, k) && LeaseOk(t, k)
    {
      if k < |st.handles| { HandleFacts(st, k); }
      DestroyEventReader(st, b, ok, t, k);
    }
  }

  lemma ReturnKeepsObjects(st: State, b: nat, t: State)
    requires ObjectsOk(st)
    requires Returning(st, b) && t == ReturnBlock(st, b)
    ensures ObjectsOk(t)
  {
    assert BufferOk(st, b);
    ObjectElements(st, t);
  }

  lemma ReturnEvent(st: State, b: nat, t: State, e: nat)
    requires Returning(st, b) && t == ReturnBlock(st, b)
    requires BufferOk(st, b) && e < |st.events| && EventOk(st, e) && BufferOk(st, st.events[e].buf)
    requires HandleKnown(st, st.events[e].maker)
    ensures e < |t.events| && EventOk(t, e)
  {
    assert t.buffers[b].core == st.buffers[b].core;
  }

  lemma ReturnListed(st: State, b: nat, t: State, c: nat, k: nat)
    requires Returning(st, b) && t == ReturnBlock(st, b)
    requires c < |st.buffers| && k < |st.buffers[c].core.Events()| && ListedOk(st, c, k)
    ensures c < |t.buffers| && k < |t.buffers[c].core.Events()| && ListedOk(t, c, k)
  {
    assert t.buffers[c].core == st.buffers[c].core;
  }

  lemma ReturnKeepsTables(st: State, b: nat, t: State)
    requires ObjectsOk(st) && EventsOk(st)
    requires Returning(st, b) && t == ReturnBlock(st, b)
    ensures ObjectsOk(t) && EventsOk(t)
  {
    assert BufferOk(st, b);
    ReturnKeepsObjects(st, b, t);
    forall e: nat | e < |t.events|
      ensures EventOk(t, e)
    {
      assert EventOk(st, e);
      HandleFacts(st, st.events[e].maker);
      ReturnEvent(st, b, t, e);
    }
    forall c: nat | c < |t.buffers|
      ensures Distinct(t.buffers[c].core.Events())
      ensures forall k: nat :: k < |t.buffers[c].core.Events()| ==> ListedOk(t, c, k)
    {
      assert t.buffers[c].core == st.buffers[c].core;
      forall k: nat | k < |t.buffers[c].core.Events()|
        ensures ListedOk(t, c, k)
      {
        ReturnListed(st, b, t, c, k);
      }
    }
    forall g: nat | g < |t.handles|
      ensures RecordedOk(t, g)
    {
      assert RecordedOk(st, g) && HandleOk(st, g);
    }
  }

  lemma ReturnKeepsWork(st: State, b: nat, t: State)
    requires ObjectsOk(st) && StreamsOk(st) && EventsOk(st) && WorkOk(st) && WorkersOk(st)
    requires Returning(st, b) && t == ReturnBlock(st, b)
    ensures StreamsOk(t) && WorkOk(t) && WorkersOk(t)
  {
    assert BufferOk(st, b);
    StreamElements(st, t);
    WorkElements(st, t);
    assert BufferOk(st, b) && WorkerOk(st, b);
    BufferDrained(st, b);
    WorkerElements(st, t);
  }

  lemma ReturnKeepsReads(st: State, b: nat, t: State)
    requires ObjectsOk(st) && StreamsOk(st) && EventsOk(st) && WorkOk(st) && ReadsOk(st)
    requires Returning(st, b) && t == ReturnBlock(st, b)
    ensures ReadsOk(t)
  {
    assert BufferOk(st, b);
    ReadElements(st, t);
  }

  lemma ReturnKeeps(st: State, b: nat, t: State)
    requires Rest(st)
    requires Returning(st, b) && t == ReturnBlock(st, b)
    ensures Rest(t)
  {
    ReturnKeepsTables(st, b, t);
    ReturnKeepsWork(st, b, t);
    ReturnKeepsReads(st, b, t);
  }

  lemma SubmitKeepsTables(st: State, h: nat, s: nat, t: State)
    requires ObjectsOk(st) && EventsOk(st)
    requires WorkEnabled(st, Submit(h, s)) && t == Enqueue(st, s, Touch(h))
    ensures ObjectsOk(t) && EventsOk(t)
  {
    HandleFacts(st, h);
    ObjectElements(st, t);
    EventElements(st, t);
  }

  lemma SubmitKeepsWork(st: State, h: nat, s: nat, t: State)
    requires ObjectsOk(st) && StreamsOk(st) && EventsOk(st) && WorkOk(st) && WorkersOk(st)
    requires WorkEnabled(st, Submit(h, s)) && t == Enqueue(st, s, Touch(h))
    ensures StreamsOk(t) && WorkOk(t) && WorkersOk(t)
  {
    HandleFacts(st, h);
    StreamElements(st, t);
    WorkElements(st, t);
    WorkerElements(st, t);
  }

  lemma SubmitPending(st: State, h: nat, s: nat, t: State, q: nat, p: nat)
    requires WorkEnabled(st, Submit(h, s)) && t == Enqueue(st, s, Touch(h))
    requires HandleKnown(st, h) && ReaderOk(st, h) && PendingAt(t, q, p)
    requires PendingAt(st, q, p) ==> PendingKnown(st, q, p) && WriteOk(st, q, p) && ReadOk(st, q, p)
    ensures WriteOk(t, q, p) && ReadOk(t, q, p)
  {}

  lemma SubmitReader(st: State, h: nat, s: nat, t: State, k: nat)
    requires WorkEnabled(st, Submit(h, s)) && t == Enqueue(st, s, Touch(h))
    requires HandleKnown(st, h) && ReaderOk(st, h) && k < |t.handles|
    requires k < |st.handles| ==> HandleKnown(st, k) && ReaderOk(st, k) && LeaseOk(st, k)
    ensures ReaderOk(t, k) && LeaseOk(t, k)
  {}

  lemma SubmitKeepsReads(st: State, h: nat, s: nat, t: State)
    requires ObjectsOk(st) && StreamsOk(st) && EventsOk(st) && WorkOk(st) && ReadsOk(st)
    requires WorkEnabled(st, Submit(h, s)) && t == Enqueue(st, s, Touch(h))
    ensures ReadsOk(t)
  {
    HandleFacts(st, h);
    assert ReaderOk(st, h);
    forall q: nat, p: nat | PendingAt(t, q, p)
      ensures WriteOk(t, q, p) && ReadOk(t, q, p)
    {
      if PendingAt(st, q, p) { PendingFacts(st, q, p); }
      SubmitPending(st, h, s, t, q, p);
    }
    forall k: nat | k < |t.handles|
      ensures ReaderOk(t, k) && LeaseOk(t, k)
    {
      if k < |st.handles| { HandleFacts(st, k); }
      SubmitReader(st, h, s, t, k);
    }
  }

  lemma ProgressKeepsTables(st: State, s: nat, t: State)
    requires ObjectsOk(st) && EventsOk(st)
    requires WorkEnabled(st, Progress(s)) && t == DoProgress(st, s)
    ensures ObjectsOk(t) && EventsOk(t)
  {
    ObjectElements(st, t);
    EventElements(st, t);
  }

  lemma ProgressKeepsWork(st: State, s: nat, t: State)
    requires ObjectsOk(st) && StreamsOk(st) && EventsOk(st) && WorkOk(st) && WorkersOk(st)
    requires WorkEnabled(st, Progress(s)) && t == DoProgress(st, s)
    ensures StreamsOk(t) && WorkOk(t) && WorkersOk(t)
  {
    StreamElements(st, t);
    WorkElements(st, t);
    WorkerElements(st, t);
  }

  lemma ProgressKeepsReads(st: State, s: nat, t: State)
    requires ObjectsOk(st) && StreamsOk(st) && EventsOk(st) && WorkOk(st) && ReadsOk(st)
    requires WorkEnabled(st, Progress(s)) && t == DoProgress(st, s)
    ensures ReadsOk(t)
  {
    ReadElements(st, t);
  }

  // ---------- Steps of the pool

  /** Buffers may be added and reference counts may change; nothing else that is not the pool's. */
  ghost predicate BuffersGrow(st: State, t: State) {
    && t.handles == st.handles && t.events == st.events && t.streams == st.streams
    && |st.buffers| <= |t.buffers|
    && (forall c :: 0 <= c < |st.buffers| ==>
          t.buffers[c].core == st.buffers[c].core && t.buffers[c].life == st.buffers[c].life)
    && (forall c :: |st.buffers| <= c < |t.buffers| ==> t.buffers[c].core == FRESH && t.buffers[c].life == Alive)
  }

  lemma PoolStepGrows(st: State, x: PoolStep, t: State)
    requires PoolEnabled(st, x) && t == PoolApply(st, x)
    ensures BuffersGrow(st, t)
  {}

  lemma GrowKeepsEvents(st: State, t: State)
    requires ObjectsOk(st) && EventsOk(st) && BuffersGrow(st, t)
    ensures EventsOk(t)
  {
    forall e: nat | e < |t.events|
      ensures EventOk(t, e)
    {
      assert EventOk(st, e);
    }
    forall c: nat | c < |t.buffers|
      ensures Distinct(t.buffers[c].core.Events())
      ensures forall k: nat :: k < |t.buffers[c].core.Events()| ==> ListedOk(t, c, k)
    {
      if c < |st.buffers| {
        forall k: nat | k < |t.buffers[c].core.Events()|
          ensures ListedOk(t, c, k)
        {
          assert ListedOk(st, c, k);
        }
      } else {
        assert t.buffers[c].core.Events() == [];
      }
    }
    forall h: nat | h < |t.handles|
      ensures RecordedOk(t, h)
    {
      assert RecordedOk(st, h);
    }
  }

  lemma GrowKeepsStreams(st: State, t: State)
    requires StreamsOk(st) && BuffersGrow(st, t)
    ensures StreamsOk(t)
  {
    StreamElements(st, t);
  }

  lemma GrowKeepsWork(st: State, t: State)
    requires ObjectsOk(st) && WorkOk(st) && WorkersOk(st) && BuffersGrow(st, t)
    ensures WorkOk(t) && WorkersOk(t)
  {
    forall s: nat, p: nat | PendingAt(t, s, p)
      ensures Covered(t, s, p)
    {
      assert PendingAt(st, s, p) && Covered(st, s, p);
    }
    forall c: nat | c < |t.buffers|
      ensures WorkerOk(t, c)
    {
      if c < |st.buffers| { assert WorkerOk(st, c); }
    }
  }

  lemma GrowKeepsReads(st: State, t: State)
    requires ObjectsOk(st) && WorkOk(st) && ReadsOk(st) && BuffersGrow(st, t)
    ensures ReadsOk(t)
  {
    forall s: nat, p: nat | PendingAt(t, s, p)
      ensures WriteOk(t, s, p) && ReadOk(t, s, p)
    {
      assert PendingAt(st, s, p) && WriteOk(st, s, p) && ReadOk(st, s, p);
    }
    forall h: nat | h < |t.handles|
      ensures ReaderOk(t, h) && LeaseOk(t, h)
    {
      assert ReaderOk(st, h) && LeaseOk(st, h) && HandleOk(st, h);
    }
  }

  lemma WrapKeepsObjects(st: State, call: nat, t: State)
    requires ObjectsOk(st)
    requires PoolEnabled(st, Wrap(call)) && t == DoWrap(st, call)
    ensures ObjectsOk(t)
  {
    ObjectElements(st, t);
  }

  lemma RefsKeepObjects(st: State, b: nat, refs: nat, t: State)
    requires ObjectsOk(st) && b < |st.buffers| && st.buffers[b].life == Alive
    requires t == SetBuf(st, b, st.buffers[b].(refs := refs))
    ensures ObjectsOk(t)
  {
    assert BufferOk(st, b);
    ObjectElements(st, t);
  }

  lemma PoolStepKeepsObjects(st: State, x: PoolStep, t: State)
    requires ObjectsOk(st)
    requires PoolEnabled(st, x) && t == PoolApply(st, x)
    ensures ObjectsOk(t)
  {
    match x
    case Wrap(call) => WrapKeepsObjects(st, call, t);
    case CopyRef(b) => RefsKeepObjects(st, b, st.buffers[b].refs + 1, t);
    case DropRef(b) => RefsKeepObjects(st, b, st.buffers[b].refs - 1, t);
    case _ => ObjectElements(st, t);
  }
}
