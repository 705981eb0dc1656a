/** The invariant of ManagedSystem, kept by every step. */
module ManagedSystemInvariant {
  import opened BufferModel
  import opened ManagedSystem

  // ---------- The pool

  /** Every index has one place, and the free list, the calls in transit and the buffers
      agree with it. */
  ghost predicate PoolOk(st: State) {
    && |st.place| == st.capacity
    && (forall k :: 0 <= k < |st.free| ==> st.free[k] < st.capacity && st.place[st.free[k]] == Free)
    && (forall j, k :: 0 <= j < k < |st.free| ==> st.free[j] != st.free[k])
    && (forall c :: c in st.transit ==> st.transit[c] < st.capacity && st.place[st.transit[c]] == InTransit(c))
    && (forall b :: 0 <= b < |st.buffers| ==> st.buffers[b].block < st.capacity)
    && (forall b :: 0 <= b < |st.buffers| && st.buffers[b].life != Returned ==>
          st.place[st.buffers[b].block] == HeldBy(b))
    && (forall i :: 0 <= i < st.capacity ==> PlaceOk(st, i))
  }

  predicate PlaceOk(st: State, i: nat)
    requires i < |st.place|
  {
    match st.place[i]
    case Free => i in st.free
    case InTransit(c) => c in st.transit && st.transit[c] == i
    case HeldBy(b) => b < |st.buffers| && st.buffers[b].block == i && st.buffers[b].life != Returned
  }

  /** The allocation is dropped only while every index is free, and for good. */
  ghost predicate BackingOk(st: State) {
    !st.backed ==> st.stopping && forall i :: 0 <= i < |st.place| ==> st.place[i] == Free
  }

  /** A block is leased again only after its earlier buffer was returned. */
  ghost predicate LeasesInOrder(st: State) {
    forall b, c :: 0 <= b < c < |st.buffers| && st.buffers[b].block == st.buffers[c].block ==>
      st.buffers[b].life == Returned
  }

  // ---------- Buffers and handles

  predicate BufferOk(st: State, b: nat)
    requires b < |st.buffers|
  {
    var B := st.buffers[b];
    && B.core.Consistent()
    && (B.core.phase == Releasing <==> B.life != Alive)
    && (B.core.phase == Writing <==> B.writer.Some?)
    && (B.life != Alive ==> B.refs == 0)
    && (B.writer.Some? ==>
          && B.writer.value < |st.handles|
          && var W := st.handles[B.writer.value]; W.buf == b && IsWriter(W.kind) && W.state == Active)
    && (B.life == Returned ==> !B.core.mustOrphan)
    && (B.life.Worker? ==>
          && B.life.index <= |B.core.Events()|
          && (B.life.synced ==> B.life.selected && B.life.index < |B.core.Events()|)
          && (B.life.safe ==> B.life.selected && !B.core.mustOrphan))
  }

  predicate HandleOk(st: State, h: nat)
    requires h < |st.handles|
  {
    var H := st.handles[h];
    && H.buf < |st.buffers| && H.stream < |st.streams|
    && var B := st.buffers[H.buf];
    && (H.state != Gone ==> B.life == Alive)
    && (H.cover.Some? ==> H.cover.value < |st.events|)
    && (H.early ==> H.kind == Lease && H.state == Gone)
    && match H.kind
       case AsyncWriter | SyncWriter =>
         && (H.state == Active || H.state == Finished || H.state == Gone)
         && (H.state == Active ==> B.writer == Some(h))
       case Reader =>
         && (H.state.Recorded? ==> H.cover == Some(H.state.event))
         && H.state != Syncing && B.core.readiness != NotReady
         && (H.state == Active ==> H.cover == None)
       case Lease =>
         && (H.state == Syncing || H.state == Active || H.state == Gone)
         && B.core.readiness != NotReady && H.cover == B.core.producerEvent
       case HostCopy => H.state == Gone && H.cover == None && B.core.phase != Fresh && B.core.phase != Writing
  }

  ghost predicate ObjectsOk(st: State) {
    && (forall b :: 0 <= b < |st.buffers| ==> BufferOk(st, b))
    && (forall h :: 0 <= h < |st.handles| ==> HandleOk(st, h))
  }

  // ---------- Streams

  predicate OpOk(st: State, s: nat, p: nat)
    requires s < |st.streams| && p < |st.streams[s].ops|
  {
    match st.streams[s].ops[p]
    case Touch(h) => h < |st.handles|
    case WaitFor(x, y) =>
      && x < |st.streams| && y <= |st.streams[x].ops|
      && (p < st.streams[s].done ==> y <= st.streams[x].done)
  }

  ghost predicate StreamsOk(st: State) {
    && (forall s :: 0 <= s < |st.streams| ==> st.streams[s].done <= |st.streams[s].ops|)
    && (forall s, p :: 0 <= s < |st.streams| && 0 <= p < |st.streams[s].ops| ==> OpOk(st, s, p))
  }

  // ---------- Events

  /** The first of a buffer's events that still has to be destroyed. */
  function FirstOwed(B: SysBuffer): nat {
    var n := |B.core.Events()|;
    match B.life
    case Alive | Dying | Spawned => 0
    case Worker(i, _, _, _) => if i <= n then i else n
    case _ => n
  }

  /** The buffer's destructor still has to destroy event `e`. */
  predicate Owes(B: SysBuffer, e: nat) {
    exists k :: FirstOwed(B) <= k < |B.core.Events()| && B.core.Events()[k] == e
  }

  predicate ListedOk(st: State, b: nat, k: nat)
    requires b < |st.buffers| && k < |st.buffers[b].core.Events()|
  {
    var e := st.buffers[b].core.Events()[k];
    && e < |st.events| && st.events[e].buf == b && st.events[e].at.Some?
    && (FirstOwed(st.buffers[b]) <= k ==> st.events[e].alive)
    && st.events[e].maker < |st.handles|
    && var H := st.handles[st.events[e].maker];
       H.buf == b && H.cover == Some(e) && (H.state == Finished || H.state == Gone)
  }

  /** Where an undestroyed event is. */
  predicate EventOk(st: State, e: nat)
    requires e < |st.events|
  {
    var E := st.events[e];
    && E.buf < |st.buffers| && E.maker < |st.handles|
    && (E.at.Some? ==> E.at.value.0 < |st.streams| && E.at.value.1 <= |st.streams[E.at.value.0].ops|)
    && var B := st.buffers[E.buf];
    (E.alive ==>
       || B.core.mustOrphan || B.life == Orphaned || (B.life.Worker? && !B.life.safe)
       || st.handles[E.maker].state == Recorded(e)
       || Owes(B, e))
  }

  predicate RecordedOk(st: State, h: nat)
    requires h < |st.handles|
  {
    var H := st.handles[h];
    H.state.Recorded? ==>
      && H.state.event < |st.events|
      && var E := st.events[H.state.event];
      E.buf == H.buf && E.maker == h && E.alive && E.at.Some? && E.at.value.0 == H.stream
  }

  predicate Distinct(es: seq<nat>) {
    forall j, k :: 0 <= j < k < |es| ==> es[j] != es[k]
  }

  ghost predicate EventsOk(st: State) {
    && (forall e :: 0 <= e < |st.events| ==> EventOk(st, e))
    && (forall b, k ::
          0 <= b < |st.buffers| && 0 <= k < |st.buffers[b].core.Events()| ==> ListedOk(st, b, k))
    && (forall b :: 0 <= b < |st.buffers| ==> Distinct(st.buffers[b].core.Events()))
    && (forall h :: 0 <= h < |st.handles| ==> RecordedOk(st, h))
  }

  // ---------- Unfinished work

  /** The operation at position `p` of stream `s` is accounted for: its handle still
      answers for it, a listed event completes after it, or its buffer is never recycled.
      Reads through a lease that ended early are accounted for by nobody. */
  predicate Covered(st: State, s: nat, p: nat)
    requires PendingAt(st, s, p)
  {
    var h := st.streams[s].ops[p].handle;
    h < |st.handles| && st.handles[h].buf < |st.buffers|
    && (st.handles[h].early || Answered(st, s, p, h))
  }

  predicate Answered(st: State, s: nat, p: nat, h: nat)
    requires h < |st.handles| && st.handles[h].buf < |st.buffers|
  {
    var H := st.handles[h]; var B := st.buffers[H.buf];
    && B.life != Returned
    && (B.core.mustOrphan || B.life == Orphaned || Holding(H)
        || (H.cover.Some? && H.cover.value < |st.events| && H.cover.value in B.core.Events()
            && Covers(st.events[H.cover.value], s, p)))
    && (H.state.Recorded? ==> H.state.event < |st.events| && Covers(st.events[H.state.event], s, p))
    && (H.kind == AsyncWriter || H.kind == Reader ==> s == H.stream)
  }

  ghost predicate WorkOk(st: State) {
    forall s: nat, p: nat :: PendingAt(st, s, p) ==> Covered(st, s, p)
  }

  /** A worker that has seen no failure has synchronized everything up to its index, and a
      block is returned only after all its buffer's events. */
  predicate WorkerOk(st: State, b: nat)
    requires b < |st.buffers|
  {
    var w := st.buffers[b].life;
    var es := st.buffers[b].core.Events();
    (w.Worker? && w.safe) || w == Returned ==>
      forall k :: 0 <= k < |es| && (w == Returned || k < w.index || (w.synced && k == w.index)) ==>
        es[k] < |st.events| && Complete(st, st.events[es[k]])
  }

  ghost predicate WorkersOk(st: State) {
    forall b :: 0 <= b < |st.buffers| ==> WorkerOk(st, b)
  }

  // ---------- Reading after writing

  /** An unfinished write belongs to a buffer that is not published, or is covered by the
      producer event. */
  predicate WriteOk(st: State, s: nat, p: nat)
    requires PendingAt(st, s, p)
  {
    var h := st.streams[s].ops[p].handle;
    h < |st.handles| && st.handles[h].buf < |st.buffers|
    && var H := st.handles[h]; var C := st.buffers[H.buf].core;
    IsWriter(H.kind) || H.kind == HostCopy ==>
      || C.readiness == NotReady
      || (C.producerEvent.Some? && C.producerEvent.value < |st.events|
          && Covers(st.events[C.producerEvent.value], s, p))
  }

  /** The wait a reader enqueued stands before everything it submits. */
  predicate ReaderOk(st: State, h: nat)
    requires h < |st.handles|
  {
    var H := st.handles[h];
    H.kind == Reader ==>
      && H.buf < |st.buffers| && H.stream < |st.streams|
      && var C := st.buffers[H.buf].core;
      && (H.waitAt.Some? <==> C.producerEvent.Some?)
      && (H.waitAt.Some? ==>
            && H.waitAt.value < |st.streams[H.stream].ops|
            && C.producerEvent.value < |st.events|
            && st.events[C.producerEvent.value].at.Some?
            && var at := st.events[C.producerEvent.value].at.value;
               st.streams[H.stream].ops[H.waitAt.value] == WaitFor(at.0, at.1))
  }

  /** An acquired lease's producer has completed, also after the lease ended early. */
  predicate LeaseOk(st: State, h: nat)
    requires h < |st.handles|
  {
    var H := st.handles[h];
    H.kind == Lease && (H.state == Active || H.early) && H.cover.Some? ==>
      H.cover.value < |st.events| && Complete(st, st.events[H.cover.value])
  }

  predicate ReadOk(st: State, s: nat, p: nat)
    requires PendingAt(st, s, p)
  {
    var h := st.streams[s].ops[p].handle;
    h < |st.handles| && (st.handles[h].kind == Reader && st.handles[h].waitAt.Some? ==> st.handles[h].waitAt.value < p)
  }

  ghost predicate ReadsOk(st: State) {
    && (forall s: nat, p: nat :: PendingAt(st, s, p) ==> WriteOk(st, s, p) && ReadOk(st, s, p))
    && (forall h :: 0 <= h < |st.handles| ==> ReaderOk(st, h) && LeaseOk(st, h))
  }

  ghost predicate Inv(st: State) {
    && PoolOk(st) && BackingOk(st) && LeasesInOrder(st)
    && ObjectsOk(st) && StreamsOk(st) && EventsOk(st)
    && WorkOk(st) && WorkersOk(st) && ReadsOk(st)
  }

  lemma InitOk(st: State)
    requires Init(st)
    ensures Inv(st)
  {
    forall i: nat | i < st.capacity
      ensures PlaceOk(st, i)
    {
      assert st.free[i] == i;
    }
  }
}
