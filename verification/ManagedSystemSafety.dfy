/** What holds in every run of the managed pool, its buffers, streams and release workers. */
module ManagedSystemSafety {
  import opened BufferModel
  import opened ManagedSystem
  import opened ManagedSystemInvariant
  import opened ManagedSystemFrames
  import opened ManagedSystemSteps

  /** `st` is reached from a freshly made pool. */
  ghost predicate Reached(init: State, steps: seq<Step>, st: State) {
    Init(init) && CanRun(init, steps) && st == Run(init, steps)
  }

  lemma ReachedInv(init: State, steps: seq<Step>, st: State)
    requires Reached(init, steps, st)
    ensures Inv(st)
  {
    InitOk(init);
    RunKeeps(init, steps);
  }

  // ---------- Blocks and work

  /** An unfinished operation either belongs to a buffer that still holds its block, or was
      submitted through a lease that ended early and is covered by no event of its buffer if
      that has been returned. */
  lemma PendingHolder(st: State, s: nat, p: nat)
    requires Inv(st) && PendingAt(st, s, p)
    ensures var b := BufOf(st, st.streams[s].ops[p].handle);
            b < |st.buffers| && (EarlyAt(st, s, p) || st.buffers[b].life != Returned)
    ensures var b := BufOf(st, st.streams[s].ops[p].handle);
            st.buffers[b].life != Returned ==> st.place[st.buffers[b].block] == HeldBy(b)
    ensures var b := BufOf(st, st.streams[s].ops[p].handle);
            st.buffers[b].life == Returned ==> NoEventCovers(st, b, s, p)
  {
    assert Covered(st, s, p);
    HandleFacts(st, st.streams[s].ops[p].handle);
    var b := BufOf(st, st.streams[s].ops[p].handle);
    assert WorkerOk(st, b);
  }

  /** No event that buffer `b`'s destructor collects was recorded after the operation. */
  predicate NoEventCovers(st: State, b: nat, s: nat, p: nat)
    requires b < |st.buffers|
  {
    forall k :: 0 <= k < |st.buffers[b].core.Events()| ==>
      var e := st.buffers[b].core.Events()[k]; e < |st.events| && !Covers(st.events[e], s, p)
  }

  /** One of the steps ends lease `h` without waiting for the reads made through it. */
  predicate EndsEarly(steps: seq<Step>, h: nat) { OnReader(EndLeaseEarly(h)) in steps }

  ghost predicate NoLeaseEndsEarly(steps: seq<Step>) { forall h: nat :: !EndsEarly(steps, h) }

  /** The operation at (s, p) was submitted through a lease that ended early, its buffer's
      orphan flag is clear, and no event of its buffer covers it. */
  ghost predicate LeftByEarlyLease(steps: seq<Step>, st: State, s: nat, p: nat)
    requires PendingAt(st, s, p)
  {
    var h := st.streams[s].ops[p].handle;
    && h < |st.handles| && st.handles[h].kind == Lease && st.handles[h].state == Gone && EndsEarly(steps, h)
    && st.handles[h].buf < |st.buffers| && !st.buffers[st.handles[h].buf].core.mustOrphan
    && NoEventCovers(st, st.handles[h].buf, s, p)
  }

  /** Every mark on a handle of `t` was there in `st`. */
  ghost predicate NoNewMarks(st: State, t: State) {
    forall h :: 0 <= h < |t.handles| && t.handles[h].early ==> h < |st.handles| && st.handles[h].early
  }

  lemma WriterMarksNone(st: State, x: WriterStep)
    requires WriterEnabled(st, x)
    ensures NoNewMarks(st, WriterApply(st, x))
  {}

  lemma LoseReadsMarksNone(st: State, h: nat, x: HandleState, t: State)
    requires h < |st.handles| && st.handles[h].buf < |st.buffers| && t == LoseReads(st, h, x).(events := t.events)
    ensures NoNewMarks(st, t)
  {}

  lemma ReaderMarksNone(st: State, x: ReaderStep)
    requires ReaderEnabled(st, x) && !x.EndLeaseEarly?
    ensures NoNewMarks(st, ReaderApply(st, x))
  {
    match x
    case PushReaderThrows(h, leaked) => LoseReadsMarksNone(st, h, Finished, DoPushReaderThrows(st, h, leaked));
    case RecordReaderThrows(h, leaked) =>
      LoseReadsMarksNone(st, h, Finished, Scrap(LoseReads(st, h, Finished), st.handles[h].buf, h, leaked));
    case _ =>
  }

  lemma ReleaseMarksNone(st: State, x: ReleaseStep)
    requires ReleaseEnabled(st, x)
    ensures NoNewMarks(st, ReleaseApply(st, x))
  {}

  /** Only the step that ends a lease early marks a handle. */
  lemma StepMarks(st: State, x: Step, h: nat)
    requires Enabled(st, x) && h < |Apply(st, x).handles| && Apply(st, x).handles[h].early
    ensures (h < |st.handles| && st.handles[h].early) || x == OnReader(EndLeaseEarly(h))
  {
    match x
    case OnWriter(y) => WriterMarksNone(st, y);
    case OnReader(y) => if !y.EndLeaseEarly? { ReaderMarksNone(st, y); }
    case OnRelease(y) => ReleaseMarksNone(st, y);
    case _ =>
  }

  lemma {:induction false} MarkedEndedEarly(st: State, steps: seq<Step>, h: nat)
    requires CanRun(st, steps) && h < |Run(st, steps).handles| && Run(st, steps).handles[h].early
    ensures (h < |st.handles| && st.handles[h].early) || EndsEarly(steps, h)
    decreases |steps|
  {
    if steps != [] {
      MarkedEndedEarly(Apply(st, steps[0]), steps[1..], h);
      if !EndsEarly(steps[1..], h) { StepMarks(st, steps[0], h); }
    }
  }

  /** Why an operation is still unfinished when its buffer's block has been given back. */
  lemma UnfinishedAfterReturn(init: State, steps: seq<Step>, st: State, s: nat, p: nat)
    requires Reached(init, steps, st) && PendingAt(st, s, p)
    ensures var b := BufOf(st, st.streams[s].ops[p].handle);
            b < |st.buffers| && (st.buffers[b].life == Returned ==> LeftByEarlyLease(steps, st, s, p))
  {
    ReachedInv(init, steps, st);
    PendingHolder(st, s, p);
    var h := st.streams[s].ops[p].handle;
    HandleFacts(st, h);
    if st.buffers[st.handles[h].buf].life == Returned { MarkedEndedEarly(init, steps, h); }
  }

  /** An unfinished operation on a free block was left by a lease that ended early; so a run
      in which none does has no unfinished operation on a free block. */
  lemma FreeBlocksAreQuiet(init: State, steps: seq<Step>, st: State)
    requires Reached(init, steps, st)
    ensures forall s: nat, p: nat :: PendingAt(st, s, p) ==>
              BlockOf(st, BufOf(st, st.streams[s].ops[p].handle)) in st.free ==> LeftByEarlyLease(steps, st, s, p)
    ensures NoLeaseEndsEarly(steps) ==> forall i :: i in st.free ==> BlockQuiet(st, i)
  {
    ReachedInv(init, steps, st);
    forall s: nat, p: nat | PendingAt(st, s, p) && BlockOf(st, BufOf(st, st.streams[s].ops[p].handle)) in st.free
      ensures LeftByEarlyLease(steps, st, s, p)
    {
      UnfinishedAfterReturn(init, steps, st, s, p);
      PendingHolder(st, s, p);
    }
  }

  /** By the time a block is leased again, every operation of its earlier leases has
      completed unless such a lease ended early, so no operation of a later lease runs before
      one of an earlier lease. */
  lemma EarlierLeasesAreOver(init: State, steps: seq<Step>, st: State, b: nat, c: nat)
    requires Reached(init, steps, st)
    requires b < c < |st.buffers| && st.buffers[b].block == st.buffers[c].block
    ensures st.buffers[b].life == Returned
    ensures forall s: nat, p: nat :: PendingAt(st, s, p) && BufOf(st, st.streams[s].ops[p].handle) == b ==>
              LeftByEarlyLease(steps, st, s, p)
    ensures NoLeaseEndsEarly(steps) ==> BufferQuiet(st, b)
  {
    ReachedInv(init, steps, st);
    forall s: nat, p: nat | PendingAt(st, s, p) && BufOf(st, st.streams[s].ops[p].handle) == b
      ensures LeftByEarlyLease(steps, st, s, p)
    {
      UnfinishedAfterReturn(init, steps, st, s, p);
    }
  }

  /** When the GPU executes a read submitted through a read handle or a lease, every write
      to the buffer has completed. */
  lemma ReadsSeeFinishedWrites(init: State, steps: seq<Step>, st: State, s: nat, q: nat, p: nat)
    requires Reached(init, steps, st) && Enabled(st, OnWork(Progress(s)))
    requires PendingAt(st, s, st.streams[s].done)
    requires var h := st.streams[s].ops[st.streams[s].done].handle;
             h < |st.handles| && (st.handles[h].kind == Reader
                                  || (st.handles[h].kind == Lease
                                      && (st.handles[h].state == Active || st.handles[h].early)))
    requires PendingAt(st, q, p)
    requires var g := st.streams[q].ops[p].handle;
             g < |st.handles| && (IsWriter(st.handles[g].kind) || st.handles[g].kind == HostCopy)
    ensures BufOf(st, st.streams[q].ops[p].handle) != BufOf(st, st.streams[s].ops[st.streams[s].done].handle)
  {
    ReachedInv(init, steps, st);
    var d := st.streams[s].done;
    var h, g := st.streams[s].ops[d].handle, st.streams[q].ops[p].handle;
    assert WriteOk(st, q, p) && ReadOk(st, s, d) && Covered(st, s, d);
    HandleFacts(st, h);
    HandleFacts(st, g);
    assert ReaderOk(st, h) && LeaseOk(st, h);
    if st.handles[h].kind == Reader && st.handles[h].waitAt.Some? {
      assert OpOk(st, s, st.handles[h].waitAt.value);
    }
  }

  // ---------- Events

  /** The events a step passes to wait_event, synchronize_event or destroy_event. */
  ghost function UsedEvents(st: State, x: Step): set<nat>
    requires Enabled(st, x)
  {
    match x
    case OnReader(y) => (
      match y
      case OpenReader(b, _) => Elements(if st.buffers[b].core.producerEvent.Some?
          then [st.buffers[b].core.producerEvent.value] else [])
      case OpenReaderThrows(b, _, _) => {st.buffers[b].core.producerEvent.value}
      case PushReaderThrows(h, _) => {st.handles[h].state.event}
      case SyncLease(h) => if st.handles[h].cover.Some? then {st.handles[h].cover.value} else {}
      case SyncLeaseThrows(h) => if st.handles[h].cover.Some? then {st.handles[h].cover.value} else {}
      case _ => {})
    case OnRelease(y) => (
      match y
      case SpawnThrows(b, _) => Elements(st.buffers[b].core.Events())
      case SyncEvent(b, _) => {st.buffers[b].core.Events()[st.buffers[b].life.index]}
      case DestroyEvent(b, _) => {st.buffers[b].core.Events()[st.buffers[b].life.index]}
      case _ => {})
    case _ => {}
  }

  lemma ListedIsAlive(st: State, b: nat, k: nat)
    requires EventsOk(st) && b < |st.buffers| && FirstOwed(st.buffers[b]) <= k < |st.buffers[b].core.Events()|
    ensures var e := st.buffers[b].core.Events()[k]; e < |st.events| && st.events[e].alive
  {
    assert ListedOk(st, b, k);
  }

  lemma ReaderUsesAlive(st: State, x: ReaderStep, e: nat)
    requires ObjectsOk(st) && EventsOk(st) && ReaderEnabled(st, x) && e in UsedEvents(st, OnReader(x))
    ensures e < |st.events| && st.events[e].alive
  {
    ReaderStepFacts(st, x);
    if x.PushReaderThrows? {
      assert RecordedOk(st, x.h);
    } else {
      var b := if ReaderOwns(x) then st.handles[x.h].buf else x.b;
      assert st.buffers[b].core.Events()[0] == e;
      ListedIsAlive(st, b, 0);
    }
  }

  lemma ReleaseUsesAlive(st: State, x: ReleaseStep, e: nat)
    requires ObjectsOk(st) && EventsOk(st) && ReleaseEnabled(st, x) && e in UsedEvents(st, OnRelease(x))
    ensures e < |st.events| && st.events[e].alive
  {
    var es := st.buffers[x.b].core.Events();
    assert BufferOk(st, x.b);
    var k :| 0 <= k < |es| && es[k] == e && (x.SpawnThrows? || k == st.buffers[x.b].life.index);
    ListedIsAlive(st, x.b, k);
  }

  /** No event is waited on, synchronized or destroyed after its destruction. */
  lemma UsedEventsAreAlive(init: State, steps: seq<Step>, st: State, x: Step, e: nat)
    requires Reached(init, steps, st) && Enabled(st, x) && e in UsedEvents(st, x)
    ensures e < |st.events| && st.events[e].alive
  {
    ReachedInv(init, steps, st);
    match x
    case OnReader(y) => ReaderUsesAlive(st, y, e);
    case OnRelease(y) => ReleaseUsesAlive(st, y, e);
  }

  /** The events that exist before a step are there after it; the dead ones still dead. */
  ghost predicate NoneRevived(st: State, t: State) {
    |st.events| <= |t.events| && forall e :: 0 <= e < |st.events| && !st.events[e].alive ==> !t.events[e].alive
  }

  lemma WriterRevivesNone(st: State, x: WriterStep)
    requires WriterEnabled(st, x)
    ensures NoneRevived(st, WriterApply(st, x))
  {}

  lemma ReaderRevivesNone(st: State, x: ReaderStep)
    requires ReaderEnabled(st, x)
    ensures NoneRevived(st, ReaderApply(st, x))
  {}

  lemma ReleaseRevivesNone(st: State, x: ReleaseStep)
    requires ReleaseEnabled(st, x)
    ensures NoneRevived(st, ReleaseApply(st, x))
  {}

  lemma StepRevivesNone(st: State, x: Step)
    requires Enabled(st, x)
    ensures NoneRevived(st, Apply(st, x))
  {
    match x
    case OnWriter(y) => WriterRevivesNone(st, y);
    case OnReader(y) => ReaderRevivesNone(st, y);
    case OnRelease(y) => ReleaseRevivesNone(st, y);
    case _ =>
  }

  /** With UsedEventsAreAlive: over a whole run no event is destroyed twice. */
  lemma {:induction false} DestroyedOnceAndForAll(st: State, steps: seq<Step>, e: nat)
    requires CanRun(st, steps) && e < |st.events| && !st.events[e].alive
    ensures e < |Run(st, steps).events| && !Run(st, steps).events[e].alive
    decreases |steps|
  {
    if steps != [] {
      StepRevivesNone(st, steps[0]);
      DestroyedOnceAndForAll(Apply(st, steps[0]), steps[1..], e);
    }
  }

  /** An event that is never destroyed belongs to a buffer whose block never comes back. */
  lemma ReturnedBuffersOweNoEvent(init: State, steps: seq<Step>, st: State, e: nat)
    requires Reached(init, steps, st) && e < |st.events|
    requires st.events[e].buf < |st.buffers| && st.buffers[st.events[e].buf].life == Returned
    ensures !st.events[e].alive
  {
    ReachedInv(init, steps, st);
    assert EventOk(st, e) && BufferOk(st, st.events[e].buf);
    HandleFacts(st, st.events[e].maker);
    assert RecordedOk(st, st.events[e].maker);
  }

  // ---------- Writers and phases

  /** A buffer is being written exactly when it has an active writer handle of either kind,
      it never has two, and no buffer is destroyed while one exists. */
  lemma SingleWriter(init: State, steps: seq<Step>, st: State, b: nat)
    requires Reached(init, steps, st) && b < |st.buffers|
    ensures st.buffers[b].core.phase == Writing <==>
              exists h: nat :: ActiveWriter(st, h) && st.handles[h].buf == b
    ensures forall g: nat, h: nat ::
              ActiveWriter(st, g) && ActiveWriter(st, h) && st.handles[g].buf == st.handles[h].buf ==> g == h
    ensures st.buffers[b].life != Alive ==> forall h: nat :: ActiveWriter(st, h) ==> st.handles[h].buf != b
  {
    ReachedInv(init, steps, st);
    assert BufferOk(st, b);
    forall h: nat | ActiveWriter(st, h)
      ensures HandleOk(st, h) && BufferOk(st, st.handles[h].buf)
    {
      HandleFacts(st, h);
    }
    if st.buffers[b].core.phase == Writing {
      assert ActiveWriter(st, st.buffers[b].writer.value);
    }
  }

  predicate Reads(h: Handle) { h.kind == Reader || h.kind == Lease }

  /** Stored readiness is event-backed exactly when a producer event is stored, and a
      handle that reads exists only on a buffer that was published. */
  lemma ReadinessMatchesEvent(init: State, steps: seq<Step>, st: State, b: nat)
    requires Reached(init, steps, st) && b < |st.buffers|
    ensures st.buffers[b].core.producerEvent.Some? <==> st.buffers[b].core.readiness == EventBackedReady
    ensures forall h :: 0 <= h < |st.handles| && st.handles[h].buf == b && Reads(st.handles[h]) ==>
                          && st.buffers[b].core.readiness != NotReady
                          && st.buffers[b].core.phase != Fresh && st.buffers[b].core.phase != Writing
  {
    ReachedInv(init, steps, st);
    assert BufferOk(st, b);
    forall h: nat | h < |st.handles| && st.handles[h].buf == b && Reads(st.handles[h])
      ensures st.buffers[b].core.readiness != NotReady
    {
      HandleFacts(st, h);
    }
  }

  predicate Published(p: Phase) { p == Ready || p == Failed || p == Releasing }

  ghost predicate StillPublished(st: State, t: State) {
    |st.buffers| <= |t.buffers|
    && forall b :: 0 <= b < |st.buffers| && Published(st.buffers[b].core.phase) ==> Published(t.buffers[b].core.phase)
  }

  lemma WriterKeepsPublished(st: State, x: WriterStep)
    requires ObjectsOk(st) && WriterEnabled(st, x)
    ensures StillPublished(st, WriterApply(st, x))
  {
    WriterStepFacts(st, x);
  }

  lemma LoseReadsKeepsPublished(st: State, h: nat, x: HandleState, t: State)
    requires h < |st.handles| && st.handles[h].buf < |st.buffers| && t == LoseReads(st, h, x).(events := t.events)
    ensures StillPublished(st, t)
  {}

  lemma ReaderKeepsPublished(st: State, x: ReaderStep)
    requires ReaderEnabled(st, x)
    ensures StillPublished(st, ReaderApply(st, x))
  {
    match x
    case PushReaderThrows(h, leaked) => LoseReadsKeepsPublished(st, h, Finished, DoPushReaderThrows(st, h, leaked));
    case RecordReaderThrows(h, leaked) =>
      LoseReadsKeepsPublished(st, h, Finished, Scrap(LoseReads(st, h, Finished), st.handles[h].buf, h, leaked));
    case _ =>
  }

  lemma ReleaseKeepsPublished(st: State, x: ReleaseStep)
    requires ReleaseEnabled(st, x)
    ensures StillPublished(st, ReleaseApply(st, x))
  {}

  lemma StepKeepsPublished(st: State, x: Step)
    requires Inv(st) && Enabled(st, x)
    ensures StillPublished(st, Apply(st, x))
  {
    match x
    case OnWriter(y) => WriterKeepsPublished(st, y);
    case OnReader(y) => ReaderKeepsPublished(st, y);
    case OnRelease(y) => ReleaseKeepsPublished(st, y);
    case _ =>
  }

  /** Once ready or failed, a buffer is never fresh or being written again. */
  lemma {:induction false} NeverFreshAgain(st: State, steps: seq<Step>, b: nat)
    requires Inv(st) && CanRun(st, steps) && b < |st.buffers| && Published(st.buffers[b].core.phase)
    ensures b < |Run(st, steps).buffers| && Published(Run(st, steps).buffers[b].core.phase)
    decreases |steps|
  {
    if steps != [] {
      StepKeepsPublished(st, steps[0]);
      StepKeeps(st, steps[0]);
      NeverFreshAgain(Apply(st, steps[0]), steps[1..], b);
    }
  }

  // ---------- The pool

  function Unreturned(st: State): set<nat> {
    set b: nat | b < |st.buffers| && st.buffers[b].life != Returned
  }

  predicate InFree(st: State, i: nat) { i in st.free }

  predicate InCall(st: State, i: nat) { exists c :: c in st.transit && st.transit[c] == i }

  predicate InBuffer(st: State, i: nat) { exists b :: b in Unreturned(st) && st.buffers[b].block == i }

  /** Every index is in exactly one of the three places, and in that place once. */
  lemma IndicesArePartitioned(init: State, steps: seq<Step>, st: State, i: nat)
    requires Reached(init, steps, st) && i < st.capacity
    ensures InFree(st, i) || InCall(st, i) || InBuffer(st, i)
    ensures !(InFree(st, i) && InCall(st, i)) && !(InFree(st, i) && InBuffer(st, i))
              && !(InCall(st, i) && InBuffer(st, i))
    ensures forall j, k :: 0 <= j < k < |st.free| ==> st.free[j] != st.free[k]
    ensures forall c, d :: c in st.transit && d in st.transit && st.transit[c] == st.transit[d] ==> c == d
    ensures forall b, c :: b in Unreturned(st) && c in Unreturned(st) && st.buffers[b].block == st.buffers[c].block ==>
              b == c
  {
    ReachedInv(init, steps, st);
    assert PlaceOk(st, i);
  }

  function Image(d: set<nat>, f: map<nat, nat>): set<nat>
    requires d <= f.Keys
  {
    set x | x in d :: f[x]
  }

  /** An injective function keeps a set's size. */
  lemma ImageSize(d: set<nat>, f: map<nat, nat>)
    requires d <= f.Keys
    requires forall x, y :: x in d && y in d && f[x] == f[y] ==> x == y
    ensures |Image(d, f)| == |d|
  {
    if d != {} {
      var x :| x in d;
      ImageSize(d - {x}, f);
      assert Image(d, f) == Image(d - {x}, f) + {f[x]};
    }
  }

  function CallIndices(st: State): set<nat> {
    Image(st.transit.Keys, st.transit)
  }

  function Blocks(st: State): map<nat, nat> {
    map b | b in Unreturned(st) :: st.buffers[b].block
  }

  function BufferIndices(st: State): set<nat> {
    Image(Unreturned(st), Blocks(st))
  }

  lemma PlaceOf(st: State, i: nat)
    requires Inv(st)
    ensures i in Elements(st.free) <==> i < st.capacity && st.place[i] == Free
    ensures i in CallIndices(st) <==> i < st.capacity && st.place[i].InTransit?
    ensures i in BufferIndices(st) <==> i < st.capacity && st.place[i].HeldBy?
  {
    if i < st.capacity {
      assert PlaceOk(st, i);
      match st.place[i]
      case Free =>
      case InTransit(c) => assert st.transit[c] == i;
      case HeldBy(b) => assert Blocks(st)[b] == i;
    }
  }

  lemma PlacesAreDisjoint(st: State)
    requires Inv(st)
    ensures Elements(st.free) !! CallIndices(st) && (Elements(st.free) + CallIndices(st)) !! BufferIndices(st)
  {
    forall i: nat | i in Elements(st.free) + CallIndices(st) + BufferIndices(st)
      ensures !(i in Elements(st.free) && i in CallIndices(st))
      ensures !(i in Elements(st.free) + CallIndices(st) && i in BufferIndices(st))
    {
      PlaceOf(st, i);
    }
  }

  lemma PlacesCoverIndices(st: State)
    requires Inv(st)
    ensures UpTo(st.capacity) == Elements(st.free) + CallIndices(st) + BufferIndices(st)
  {
    forall i: nat
      ensures i in UpTo(st.capacity) <==> i in Elements(st.free) + CallIndices(st) + BufferIndices(st)
    {
      PlaceOf(st, i);
    }
  }

  /** Conservation: free, in transit and unreturned indices add up to the capacity. */
  lemma IndicesAreConserved(init: State, steps: seq<Step>, st: State)
    requires Reached(init, steps, st)
    ensures |st.free| + |st.transit| + |Unreturned(st)| == st.capacity
  {
    ReachedInv(init, steps, st);
    DistinctSize(st.free);
    ImageSize(st.transit.Keys, st.transit);
    ImageSize(Unreturned(st), Blocks(st));
    PlacesCoverIndices(st);
    PlacesAreDisjoint(st);
    assert |st.transit.Keys| == |st.transit|;
  }

  /** Once the backing allocation is dropped nothing is outstanding: no acquire call holds an
      index, every buffer is returned, and no stream has unfinished work on any buffer unless
      a lease ended early. */
  lemma DroppedMeansIdle(init: State, steps: seq<Step>, st: State)
    requires Reached(init, steps, st) && !st.backed
    ensures st.transit.Keys == {} && Unreturned(st) == {}
    ensures forall s: nat, p: nat :: PendingAt(st, s, p) ==> LeftByEarlyLease(steps, st, s, p)
    ensures NoLeaseEndsEarly(steps) ==> forall s: nat, p: nat :: !PendingAt(st, s, p)
  {
    ReachedInv(init, steps, st);
    assert Unreturned(st) == {};
    forall s: nat, p: nat | PendingAt(st, s, p)
      ensures LeftByEarlyLease(steps, st, s, p)
    {
      UnfinishedAfterReturn(init, steps, st, s, p);
      PendingHolder(st, s, p);
    }
  }

  /** The read of the base pointer after the pool's mutex is released sees the allocation,
      and so does every buffer until its block is returned. */
  lemma HeldIndexKeepsBacking(init: State, steps: seq<Step>, st: State)
    requires Reached(init, steps, st) && (st.transit.Keys != {} || Unreturned(st) != {})
    ensures st.backed
  {
    if !st.backed { DroppedMeansIdle(init, steps, st); }
  }

  /** After shutdown begins no index leaves the free list. */
  lemma {:induction false} StoppedPoolHandsOutNothing(st: State, steps: seq<Step>)
    requires CanRun(st, steps) && st.stopping
    ensures Run(st, steps).stopping && st.free <= Run(st, steps).free
    decreases |steps|
  {
    if steps != [] {
      var t := Apply(st, steps[0]);
      StoppedStep(st, steps[0]);
      StoppedPoolHandsOutNothing(t, steps[1..]);
    }
  }

  lemma ReleaseOnlyGivesBack(st: State, x: ReleaseStep)
    requires ReleaseEnabled(st, x)
    ensures ReleaseApply(st, x).stopping == st.stopping && st.free <= ReleaseApply(st, x).free
  {
    if !x.ReleaseNow? && !x.WorkerReturns? { ReleaseLeavesPool(st, x); }
  }

  lemma StoppedStep(st: State, x: Step)
    requires Enabled(st, x) && st.stopping
    ensures Apply(st, x).stopping && st.free <= Apply(st, x).free
  {
    match x
    case OnRelease(y) => ReleaseOnlyGivesBack(st, y);
    case OnWriter(y) => WriterLeavesPool(st, y);
    case OnReader(y) => ReaderLeavesPool(st, y);
    case OnWork(y) => WorkLeavesPool(st, y);
    case _ =>
  }

  // ---------- Failed buffers

  predicate Unflagged(B: SysBuffer) { B.core.phase == Failed && !B.core.mustOrphan }

  /** The step is a reader of buffer `b` whose wait for the producer fails. */
  predicate RefusesReader(x: Step, b: nat) {
    x.OnReader? && x.reader.OpenReaderThrows? && x.reader.b == b
  }

  /** Every failed buffer of `t` without the orphan flag was one in `st`. */
  ghost predicate NoNewUnflagged(st: State, t: State) {
    forall b :: 0 <= b < |t.buffers| && Unflagged(t.buffers[b]) ==> b < |st.buffers| && Unflagged(st.buffers[b])
  }

  lemma WriterFlags(st: State, x: WriterStep)
    requires WriterEnabled(st, x)
    ensures NoNewUnflagged(st, WriterApply(st, x))
  {}

  lemma ReaderFlags(st: State, x: ReaderStep)
    requires ReaderEnabled(st, x) && !x.OpenReaderThrows?
    ensures NoNewUnflagged(st, ReaderApply(st, x))
  {}

  lemma RefusalFlags(st: State, b: nat, s: nat, enqueued: bool, c: nat)
    requires ReaderEnabled(st, OpenReaderThrows(b, s, enqueued)) && c != b
    ensures var t := DoOpenReaderThrows(st, b, s, enqueued);
            |t.buffers| == |st.buffers| && (c < |st.buffers| ==> t.buffers[c] == st.buffers[c])
  {}

  lemma ReleaseFlags(st: State, x: ReleaseStep)
    requires ReleaseEnabled(st, x)
    ensures NoNewUnflagged(st, ReleaseApply(st, x))
  {}

  lemma PoolFlags(st: State, x: PoolStep)
    requires PoolEnabled(st, x)
    ensures NoNewUnflagged(st, PoolApply(st, x))
  {}

  lemma StepFlags(st: State, x: Step, b: nat)
    requires Enabled(st, x) && b < |Apply(st, x).buffers| && Unflagged(Apply(st, x).buffers[b])
    ensures (b < |st.buffers| && Unflagged(st.buffers[b])) || RefusesReader(x, b)
  {
    match x
    case OnPool(y) => PoolFlags(st, y);
    case OnWriter(y) => WriterFlags(st, y);
    case OnReader(y) =>
      if y.OpenReaderThrows? {
        if y.b != b { RefusalFlags(st, y.b, y.s, y.enqueued, b); }
      } else {
        ReaderFlags(st, y);
      }
    case OnRelease(y) => ReleaseFlags(st, y);
    case OnWork(_) =>
  }

  lemma {:induction false} UnflaggedWasRefused(st: State, steps: seq<Step>, b: nat)
    requires CanRun(st, steps) && b < |Run(st, steps).buffers| && Unflagged(Run(st, steps).buffers[b])
    ensures (b < |st.buffers| && Unflagged(st.buffers[b])) || exists x :: x in steps && RefusesReader(x, b)
    decreases |steps|
  {
    if steps != [] {
      UnflaggedWasRefused(Apply(st, steps[0]), steps[1..], b);
      if !exists x :: x in steps[1..] && RefusesReader(x, b) {
        StepFlags(st, steps[0], b);
      } else {
        var x :| x in steps[1..] && RefusesReader(x, b);
        assert x in steps;
      }
    }
  }

  /** A buffer is failed with its orphan flag clear only after a reader's wait failed on it;
      every other failure sets the flag. */
  lemma OnlyRefusalsLeaveTheFlagClear(init: State, steps: seq<Step>, st: State, b: nat)
    requires Reached(init, steps, st) && b < |st.buffers| && st.buffers[b].core.phase == Failed
    ensures st.buffers[b].core.mustOrphan || exists x :: x in steps && RefusesReader(x, b)
  {
    if !st.buffers[b].core.mustOrphan { UnflaggedWasRefused(init, steps, b); }
  }

  /** A buffer with the orphan flag is never recycled. */
  lemma OrphanFlagIsFinal(init: State, steps: seq<Step>, st: State, b: nat)
    requires Reached(init, steps, st) && b < |st.buffers| && st.buffers[b].core.mustOrphan
    ensures st.buffers[b].life != Returned && st.buffers[b].block !in st.free
  {
    ReachedInv(init, steps, st);
    assert BufferOk(st, b);
  }
}
