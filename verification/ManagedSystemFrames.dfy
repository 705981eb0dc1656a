/**
 What the invariant says of the object a step acts on, and what a step that leaves a part of
 the state alone keeps.  The lemmas named Elements hand the invariant of the old state to
 proofs about the new one, element by element, when the matching fact about the new state is
 asked for; the lemmas named Frame carry a part of the invariant over a step that does not
 touch it; the lemmas named LeavesPool say which steps do not touch the pool.
 */
module ManagedSystemFrames {
  import opened BufferModel
  import opened ManagedSystem
  import opened ManagedSystemInvariant

  /** The invariant without its pool part. */
  ghost predicate Rest(st: State) {
    ObjectsOk(st) && StreamsOk(st) && EventsOk(st) && WorkOk(st) && WorkersOk(st) && ReadsOk(st)
  }

  // ---------- What the invariant says of the object a step acts on

  lemma HandleFacts(st: State, h: nat)
    requires ObjectsOk(st) && h < |st.handles|
    ensures HandleOk(st, h) && BufferOk(st, st.handles[h].buf)
  {
    assert HandleOk(st, h);
  }

  /** An active writer is its buffer's only writer, and nothing is published yet. */
  lemma WriterFacts(st: State, h: nat)
    requires ObjectsOk(st) && ActiveWriter(st, h)
    ensures HandleOk(st, h) && BufferOk(st, st.handles[h].buf)
    ensures CoreOf(st, h).phase == Writing && CoreOf(st, h).readiness == NotReady && CoreOf(st, h).Events() == []
    ensures st.buffers[st.handles[h].buf].writer == Some(h)
  {
    HandleFacts(st, h);
  }

  // ---------- Instances of the invariant for the elements a later state is asked about

  lemma ObjectElements(st: State, t: State)
    requires ObjectsOk(st)
    ensures forall b: nat {:trigger BufferOk(t, b)} :: b < |st.buffers| && b < |t.buffers| ==> BufferOk(st, b)
    ensures forall h: nat {:trigger HandleOk(t, h)} :: h < |st.handles| && h < |t.handles| ==>
              HandleOk(st, h) && BufferOk(st, st.handles[h].buf)
  {
    forall h: nat | h < |st.handles|
      ensures HandleOk(st, h) && BufferOk(st, st.handles[h].buf)
    {
      assert HandleOk(st, h);
    }
  }

  lemma StreamElements(st: State, t: State)
    requires StreamsOk(st)
    ensures forall s: nat, p: nat {:trigger OpOk(t, s, p)} ::
              s < |st.streams| && p < |st.streams[s].ops| && s < |t.streams| && p < |t.streams[s].ops| ==>
                  OpOk(st, s, p)
  {}

  lemma EventElements(st: State, t: State)
    requires ObjectsOk(st) && EventsOk(st)
    ensures forall e: nat {:trigger EventOk(t, e)} :: e < |st.events| && e < |t.events| ==>
              EventOk(st, e) && BufferOk(st, st.events[e].buf)
    ensures forall b: nat, k: nat {:trigger ListedOk(t, b, k)} ::
              b < |st.buffers| && k < |st.buffers[b].core.Events()| && b < |t.buffers|
                  && k < |t.buffers[b].core.Events()| ==>
                ListedOk(st, b, k)
    ensures forall h: nat {:trigger RecordedOk(t, h)} :: h < |st.handles| && h < |t.handles| ==>
              RecordedOk(st, h) && HandleOk(st, h)
  {
    forall e: nat | e < |st.events|
      ensures EventOk(st, e) && BufferOk(st, st.events[e].buf)
    {
      assert EventOk(st, e);
    }
  }

  lemma WorkElements(st: State, t: State)
    requires ObjectsOk(st) && WorkOk(st)
    ensures forall s: nat, p: nat {:trigger Covered(t, s, p)} :: PendingAt(st, s, p) && PendingAt(t, s, p) ==>
              && Covered(st, s, p)
              && var h := st.streams[s].ops[p].handle; HandleOk(st, h) && BufferOk(st, st.handles[h].buf)
  {
    forall s: nat, p: nat | PendingAt(st, s, p)
      ensures Covered(st, s, p)
      ensures var h := st.streams[s].ops[p].handle; HandleOk(st, h) && BufferOk(st, st.handles[h].buf)
    {
      assert Covered(st, s, p);
      HandleFacts(st, st.streams[s].ops[p].handle);
    }
  }

  lemma WorkerElements(st: State, t: State)
    requires ObjectsOk(st) && WorkersOk(st)
    ensures forall b: nat {:trigger WorkerOk(t, b)} :: b < |st.buffers| && b < |t.buffers| ==>
              WorkerOk(st, b) && BufferOk(st, b)
  {}

  lemma ReadElements(st: State, t: State)
    requires ObjectsOk(st) && WorkOk(st) && ReadsOk(st)
    ensures forall s: nat, p: nat {:trigger WriteOk(t, s, p)} {:trigger ReadOk(t, s, p)} ::
              PendingAt(st, s, p) && PendingAt(t, s, p) ==>
                && WriteOk(st, s, p) && ReadOk(st, s, p) && Covered(st, s, p)
                && var h := st.streams[s].ops[p].handle; HandleOk(st, h) && BufferOk(st, st.handles[h].buf)
    ensures forall h: nat {:trigger ReaderOk(t, h)} {:trigger LeaseOk(t, h)} :: h < |st.handles| && h < |t.handles| ==>
              ReaderOk(st, h) && LeaseOk(st, h) && HandleOk(st, h) && BufferOk(st, st.handles[h].buf)
  {
    forall s: nat, p: nat | PendingAt(st, s, p)
      ensures WriteOk(st, s, p) && ReadOk(st, s, p) && Covered(st, s, p)
      ensures var h := st.streams[s].ops[p].handle; HandleOk(st, h) && BufferOk(st, st.handles[h].buf)
    {
      assert WriteOk(st, s, p) && Covered(st, s, p);
      HandleFacts(st, st.streams[s].ops[p].handle);
    }
    forall h: nat | h < |st.handles|
      ensures ReaderOk(st, h) && LeaseOk(st, h) && HandleOk(st, h) && BufferOk(st, st.handles[h].buf)
    {
      assert ReaderOk(st, h);
      HandleFacts(st, h);
    }
  }

  /** What the invariant says of one handle. */
  predicate HandleKnown(st: State, h: nat) {
    h < |st.handles| && HandleOk(st, h) && BufferOk(st, st.handles[h].buf)
  }

  /** What the invariant says of one unfinished operation. */
  predicate PendingKnown(st: State, s: nat, p: nat) {
    PendingAt(st, s, p) && Covered(st, s, p) && HandleKnown(st, st.streams[s].ops[p].handle)
  }

  lemma PendingFacts(st: State, s: nat, p: nat)
    requires ObjectsOk(st) && WorkOk(st) && PendingAt(st, s, p)
    ensures PendingKnown(st, s, p)
  {
    assert Covered(st, s, p);
    HandleFacts(st, st.streams[s].ops[p].handle);
  }

  predicate WriterOwns(x: WriterStep) {
    x.Finalize? || x.FinalizeThrows? || x.FinalizeSync? || x.FailWriter? || x.Cancel?
  }

  lemma WriterStepFacts(st: State, x: WriterStep)
    requires ObjectsOk(st) && WriterEnabled(st, x)
    ensures WriterOwns(x) ==>
              && HandleOk(st, x.h) && BufferOk(st, st.handles[x.h].buf)
              && CoreOf(st, x.h).phase == Writing && CoreOf(st, x.h).readiness == NotReady
                  && CoreOf(st, x.h).Events() == []
              && st.buffers[st.handles[x.h].buf].writer == Some(x.h)
    ensures !WriterOwns(x) ==> BufferOk(st, x.b) && st.buffers[x.b].core.Events() == []
  {
    if WriterOwns(x) { WriterFacts(st, x.h); }
  }

  predicate ReaderOwns(x: ReaderStep) {
    !x.OpenReader? && !x.OpenReaderThrows? && !x.CheckLease?
  }

  lemma ReaderStepFacts(st: State, x: ReaderStep)
    requires ObjectsOk(st) && ReaderEnabled(st, x)
    ensures ReaderOwns(x) ==> HandleOk(st, x.h) && BufferOk(st, st.handles[x.h].buf)
    ensures !ReaderOwns(x) ==> BufferOk(st, x.b)
  {
    if ReaderOwns(x) { HandleFacts(st, x.h); }
  }

  // ---------- The pool

  /** Nothing the pool part of the invariant looks at has changed. */
  ghost predicate PoolSame(st: State, t: State) {
    && t.capacity == st.capacity && t.free == st.free && t.stopping == st.stopping && t.backed == st.backed
    && t.transit == st.transit && t.place == st.place && |t.buffers| == |st.buffers|
    && forall b :: 0 <= b < |st.buffers| ==>
         t.buffers[b].block == st.buffers[b].block
             && (t.buffers[b].life == Returned <==> st.buffers[b].life == Returned)
  }

  lemma PoolFrame(st: State, t: State)
    requires PoolOk(st) && BackingOk(st) && LeasesInOrder(st) && PoolSame(st, t)
    ensures PoolOk(t) && BackingOk(t) && LeasesInOrder(t)
  {
    forall i: nat | i < |t.place|
      ensures PlaceOk(t, i)
    {
      assert PlaceOk(st, i);
    }
  }

  /** A step that changes only one buffer's state, handles, events and streams. */
  lemma BufferLeavesPool(st: State, b: nat, x: SysBuffer, t: State)
    requires b < |st.buffers| && x.block == st.buffers[b].block
               && (x.life == Returned <==> st.buffers[b].life == Returned)
    requires t == SetBuf(st, b, x).(handles := t.handles, events := t.events, streams := t.streams)
    ensures PoolSame(st, t)
  {}

  lemma WriterLeavesPool(st: State, x: WriterStep)
    requires WriterEnabled(st, x)
    ensures PoolSame(st, WriterApply(st, x))
  {
    var t := WriterApply(st, x);
    if WriterOwns(x) {
      BufferLeavesPool(st, st.handles[x.h].buf, t.buffers[st.handles[x.h].buf], t);
    } else {
      BufferLeavesPool(st, x.b, t.buffers[x.b], t);
    }
  }

  lemma LoseReadsLeavesPool(st: State, h: nat, x: HandleState, t: State)
    requires h < |st.handles| && st.handles[h].buf < |st.buffers|
    requires t == LoseReads(st, h, x).(events := t.events)
    ensures PoolSame(st, t)
  {
    var b := st.handles[h].buf;
    BufferLeavesPool(st, b, st.buffers[b].(core := CoreOf(st, h).LoseCompletion()), t);
  }

  lemma PushReaderLeavesPool(st: State, h: nat)
    requires ReaderEnabled(st, PushReader(h))
    ensures PoolSame(st, DoPushReader(st, h))
  {
    var t := DoPushReader(st, h);
    BufferLeavesPool(st, st.handles[h].buf, t.buffers[st.handles[h].buf], t);
  }

  lemma RefuseReaderLeavesPool(st: State, b: nat, s: nat, enqueued: bool)
    requires ReaderEnabled(st, OpenReaderThrows(b, s, enqueued))
    ensures PoolSame(st, DoOpenReaderThrows(st, b, s, enqueued))
  {
    var t := DoOpenReaderThrows(st, b, s, enqueued);
    BufferLeavesPool(st, b, t.buffers[b], t);
  }

  lemma ReaderLeavesPool(st: State, x: ReaderStep)
    requires ReaderEnabled(st, x)
    ensures PoolSame(st, ReaderApply(st, x))
  {
    match x
    case OpenReaderThrows(b, s, enqueued) => RefuseReaderLeavesPool(st, b, s, enqueued);
    case PushReader(h) => PushReaderLeavesPool(st, h);
    case PushReaderThrows(h, leaked) => LoseReadsLeavesPool(st, h, Finished, DoPushReaderThrows(st, h, leaked));
    case RecordReaderThrows(h, leaked) =>
      LoseReadsLeavesPool(st, h, Finished, Scrap(LoseReads(st, h, Finished), st.handles[h].buf, h, leaked));
    case SyncLeaseThrows(h) => LoseReadsLeavesPool(st, h, Gone, LoseReads(st, h, Gone));
    case _ =>
  }

  lemma ReleaseLeavesPool(st: State, x: ReleaseStep)
    requires ReleaseEnabled(st, x) && !x.ReleaseNow? && !x.WorkerReturns?
    ensures PoolSame(st, ReleaseApply(st, x))
  {}

  lemma WorkLeavesPool(st: State, x: WorkStep)
    requires WorkEnabled(st, x)
    ensures PoolSame(st, WorkApply(st, x))
  {}

  lemma PopKeepsPool(st: State, call: nat)
    requires PoolOk(st) && BackingOk(st) && LeasesInOrder(st) && PoolEnabled(st, Pop(call))
    ensures PoolOk(DoPop(st, call)) && BackingOk(DoPop(st, call)) && LeasesInOrder(DoPop(st, call))
  {
    var t := DoPop(st, call);
    var i := st.free[|st.free| - 1];
    forall j: nat | j < |t.place|
      ensures PlaceOk(t, j)
    {
      assert PlaceOk(st, j);
      if j != i && j in st.free {
        var k :| 0 <= k < |st.free| && st.free[k] == j;
        assert t.free[k] == j;
      }
    }
  }

  lemma GiveBackKeepsPool(st: State, t: State, i: nat)
    requires PoolOk(st) && BackingOk(st) && LeasesInOrder(st) && i < |st.place| && st.place[i] != Free
    requires t.capacity == st.capacity && t.stopping == st.stopping && t.backed == st.backed
    requires t.free == st.free + [i] && t.place == st.place[i := Free]
    requires t.transit == match st.place[i] case InTransit(c) => st.transit - {c} case _ => st.transit
    requires |t.buffers| == |st.buffers|
    requires forall b :: 0 <= b < |st.buffers| ==>
               && t.buffers[b].block == st.buffers[b].block
               && (t.buffers[b].life == Returned <==> st.buffers[b].life == Returned || st.place[i] == HeldBy(b))
    ensures PoolOk(t) && BackingOk(t) && LeasesInOrder(t)
  {
    forall j: nat | j < |t.place|
      ensures PlaceOk(t, j)
    {
      assert PlaceOk(st, i) && PlaceOk(st, j);
      if j == i { assert t.free[|st.free|] == i; }
      if j in st.free {
        var k :| 0 <= k < |st.free| && st.free[k] == j;
        assert t.free[k] == j;
      }
    }
  }

  lemma WrapKeepsPool(st: State, call: nat)
    requires PoolOk(st) && BackingOk(st) && LeasesInOrder(st) && PoolEnabled(st, Wrap(call))
    ensures PoolOk(DoWrap(st, call)) && BackingOk(DoWrap(st, call)) && LeasesInOrder(DoWrap(st, call))
  {
    var t := DoWrap(st, call);
    forall j: nat | j < |t.place|
      ensures PlaceOk(t, j)
    {
      assert PlaceOk(st, j);
    }
  }

  function UpTo(n: nat): (r: set<nat>)
    ensures |r| == n && forall i: nat :: i in r <==> i < n
  {
    if n == 0 then {} else UpTo(n - 1) + {n - 1}
  }

  function Elements(s: seq<nat>): set<nat> {
    set x | x in s
  }

  lemma DistinctSize(s: seq<nat>)
    requires Distinct(s)
    ensures |Elements(s)| == |s|
  {
    if s != [] {
      var n := |s| - 1;
      DistinctSize(s[..n]);
      assert s == s[..n] + [s[n]];
      assert Elements(s) == Elements(s[..n]) + {s[n]};
    }
  }

  /** A free list as long as the capacity holds every index: nothing is outstanding. */
  lemma DrainedIsFree(st: State)
    requires PoolOk(st) && |st.free| == st.capacity
    ensures forall i :: 0 <= i < st.capacity ==> st.place[i] == Free
  {
    DistinctSize(st.free);
    SubsetOfSameSize(Elements(st.free), UpTo(st.capacity));
    forall i: nat | i < st.capacity
      ensures st.place[i] == Free
    {
      assert i in UpTo(st.capacity);
    }
  }

  lemma SubsetOfSameSize(a: set<nat>, b: set<nat>)
    requires a <= b && |a| == |b|
    ensures a == b
  {
    assert b == a + (b - a);
  }

  lemma DrainKeepsPool(st: State, t: State)
    requires PoolOk(st) && BackingOk(st) && LeasesInOrder(st)
    requires PoolEnabled(st, Drain) && t == st.(backed := false)
    ensures PoolOk(t) && BackingOk(t) && LeasesInOrder(t)
  {
    DrainedIsFree(st);
    forall i: nat | i < |t.place|
      ensures PlaceOk(t, i)
    {
      assert PlaceOk(st, i);
    }
  }

  // ---------- Events created, destroyed or leaked do not disturb the rest

  /** Only `alive` flags changed, or events were added. */
  ghost predicate EventsChange(u: State, t: State) {
    && t == u.(events := t.events) && |u.events| <= |t.events|
    && forall e :: 0 <= e < |u.events| ==> t.events[e].at == u.events[e].at
  }

  lemma EventsFrame(u: State, t: State)
    requires EventsChange(u, t)
    ensures ObjectsOk(u) ==> ObjectsOk(t)
    ensures StreamsOk(u) ==> StreamsOk(t)
    ensures WorkersOk(u) ==> WorkersOk(t)
  {
    if ObjectsOk(u) {
      forall b: nat | b < |t.buffers| ensures BufferOk(t, b) { assert BufferOk(u, b); }
      forall h: nat | h < |t.handles| ensures HandleOk(t, h) { assert HandleOk(u, h); }
    }
    if StreamsOk(u) {
      forall s: nat, p: nat | s < |t.streams| && p < |t.streams[s].ops| ensures OpOk(t, s, p) { assert OpOk(u, s, p); }
    }
    if WorkersOk(u) {
      forall b: nat | b < |t.buffers| ensures WorkerOk(t, b) { assert WorkerOk(u, b); }
    }
  }

  lemma EventsFrameWork(u: State, t: State)
    requires EventsChange(u, t) && WorkOk(u)
    ensures WorkOk(t)
  {
    forall s: nat, p: nat | PendingAt(t, s, p)
      ensures Covered(t, s, p)
    {
      assert PendingAt(u, s, p) && Covered(u, s, p);
    }
  }

  lemma EventsFrameReads(u: State, t: State)
    requires EventsChange(u, t) && ReadsOk(u)
    ensures ReadsOk(t)
  {
    forall s: nat, p: nat | PendingAt(t, s, p)
      ensures WriteOk(t, s, p) && ReadOk(t, s, p)
    {
      assert PendingAt(u, s, p) && WriteOk(u, s, p) && ReadOk(u, s, p);
    }
    forall h: nat | h < |t.handles|
      ensures ReaderOk(t, h) && LeaseOk(t, h)
    {
      assert ReaderOk(u, h) && LeaseOk(u, h);
    }
  }
}
