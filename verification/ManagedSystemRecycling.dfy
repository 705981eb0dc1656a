/**
 When a block comes back: a release in which nothing fails returns it, a failed buffer need
 not be orphaned, and a lease must outlive the reads made through it.
 */
module ManagedSystemRecycling {
  import opened BufferModel
  import opened ManagedSystem
  import opened ManagedSystemInvariant
  import opened ManagedSystemFrames
  import opened ManagedSystemSteps
  import opened ManagedSystemSafety

  lemma Prepend(st: State, x: Step, rest: seq<Step>)
    requires Enabled(st, x) && CanRun(Apply(st, x), rest)
    ensures CanRun(st, [x] + rest) && Run(st, [x] + rest) == Run(Apply(st, x), rest)
  {
    assert ([x] + rest)[1..] == rest;
  }

  /** Every event in `es` has completed. */
  predicate WorkDone(st: State, es: seq<nat>) {
    forall k :: 0 <= k < |es| ==> es[k] < |st.events| && Complete(st, st.events[es[k]])
  }

  /** Buffer `b`'s life has moved on; the streams, the handles and all it holds are as before. */
  predicate OnlyLife(st: State, b: nat, t: State)
    requires b < |st.buffers|
  {
    && |t.buffers| == |st.buffers| && t.buffers[b] == st.buffers[b].(life := t.buffers[b].life)
    && t.streams == st.streams && t.handles == st.handles
  }

  lemma SyncNext(st: State, b: nat) returns (u: State)
    requires Inv(st) && b < |st.buffers| && WorkDone(st, st.buffers[b].core.Events())
    requires st.buffers[b].life.Worker? && st.buffers[b].life.safe && !st.buffers[b].life.synced
    requires st.buffers[b].life.index < |st.buffers[b].core.Events()|
    ensures Enabled(st, OnRelease(SyncEvent(b, true))) && u == Apply(st, OnRelease(SyncEvent(b, true)))
    ensures Inv(u) && OnlyLife(st, b, u) && u.events == st.events
    ensures u.buffers[b].life == Worker(st.buffers[b].life.index, true, true, true)
  {
    assert BufferOk(st, b);
    u := Apply(st, OnRelease(SyncEvent(b, true)));
    StepKeeps(st, OnRelease(SyncEvent(b, true)));
  }

  lemma DestroyEventOnlyLife(u: State, b: nat, t: State)
    requires ReleaseEnabled(u, DestroyEvent(b, true)) && t == DoDestroyEvent(u, b, true)
    requires u.buffers[b].life.safe && WorkDone(u, u.buffers[b].core.Events())
    ensures OnlyLife(u, b, t) && WorkDone(t, u.buffers[b].core.Events())
    ensures t.buffers[b].life == Worker(u.buffers[b].life.index + 1, u.buffers[b].life.selected, false, true)
  {}

  lemma DestroyNext(u: State, b: nat) returns (t: State)
    requires Inv(u) && b < |u.buffers| && WorkDone(u, u.buffers[b].core.Events())
    requires u.buffers[b].life.Worker? && u.buffers[b].life.index < |u.buffers[b].core.Events()|
    requires u.buffers[b].life == Worker(u.buffers[b].life.index, true, true, true)
    ensures Enabled(u, OnRelease(DestroyEvent(b, true))) && t == Apply(u, OnRelease(DestroyEvent(b, true)))
    ensures Inv(t) && OnlyLife(u, b, t) && WorkDone(t, u.buffers[b].core.Events())
    ensures t.buffers[b].life == Worker(u.buffers[b].life.index + 1, true, false, true)
  {
    t := Apply(u, OnRelease(DestroyEvent(b, true)));
    StepKeeps(u, OnRelease(DestroyEvent(b, true)));
    DestroyEventOnlyLife(u, b, t);
  }

  /** The block of a buffer whose release saw no failure goes back to the free list. */
  lemma LastRelease(st: State, b: nat, x: ReleaseStep)
    requires Inv(st) && b < |st.buffers| && ReleaseEnabled(st, x) && (x == ReleaseNow(b) || x == WorkerReturns(b))
    ensures CanRun(st, [OnRelease(x)])
    ensures BlockBack(st, b, Run(st, [OnRelease(x)]))
  {
    assert ReleaseApply(st, x).free[|st.free|] == st.buffers[b].block;
    Prepend(st, OnRelease(x), []);
    assert [OnRelease(x)] + [] == [OnRelease(x)];
  }

  /** In `t` the block of buffer `b` of `st` is back in the pool. */
  predicate BlockBack(st: State, b: nat, t: State)
    requires b < |st.buffers|
  {
    OnlyLife(st, b, t) && t.buffers[b].life == Returned && st.buffers[b].block in t.free
  }

  /** Worker `b` can go through the rest of its events without a failure. */
  lemma {:induction false} WorkerCanReturn(st: State, b: nat) returns (steps: seq<Step>)
    requires Inv(st) && b < |st.buffers| && WorkDone(st, st.buffers[b].core.Events())
    requires st.buffers[b].life.Worker? && st.buffers[b].life.safe && !st.buffers[b].life.synced
    ensures CanRun(st, steps) && BlockBack(st, b, Run(st, steps))
    decreases |st.buffers[b].core.Events()| - st.buffers[b].life.index
  {
    assert BufferOk(st, b);
    if st.buffers[b].life.index == |st.buffers[b].core.Events()| {
      LastRelease(st, b, WorkerReturns(b));
      steps := [OnRelease(WorkerReturns(b))];
    } else {
      var u := SyncNext(st, b);
      var t := DestroyNext(u, b);
      var rest := WorkerCanReturn(t, b);
      Prepend(u, OnRelease(DestroyEvent(b, true)), rest);
      Prepend(st, OnRelease(SyncEvent(b, true)), [OnRelease(DestroyEvent(b, true))] + rest);
      steps := [OnRelease(SyncEvent(b, true))] + ([OnRelease(DestroyEvent(b, true))] + rest);
    }
  }

  lemma StartWorker(st: State, b: nat) returns (u: State, t: State)
    requires Inv(st) && b < |st.buffers| && st.buffers[b].life == Dying && !st.buffers[b].core.mustOrphan
    requires st.buffers[b].core.Events() != [] && WorkDone(st, st.buffers[b].core.Events())
    ensures Enabled(st, OnRelease(Spawn(b))) && u == Apply(st, OnRelease(Spawn(b)))
    ensures Enabled(u, OnRelease(Select(b, true))) && t == Apply(u, OnRelease(Select(b, true)))
    ensures Inv(t) && OnlyLife(st, b, t) && WorkDone(t, t.buffers[b].core.Events())
    ensures t.buffers[b].life == Worker(0, true, false, true)
  {
    u := Apply(st, OnRelease(Spawn(b)));
    t := Apply(u, OnRelease(Select(b, true)));
    StepKeeps(st, OnRelease(Spawn(b)));
    StepKeeps(u, OnRelease(Select(b, true)));
  }

  /** Failed or not, a buffer whose orphan flag is clear and whose events have completed is
      recycled by a release in which every backend call succeeds. */
  lemma ReleaseCanReturn(st: State, b: nat) returns (steps: seq<Step>)
    requires Inv(st) && b < |st.buffers| && st.buffers[b].life == Dying && !st.buffers[b].core.mustOrphan
    requires WorkDone(st, st.buffers[b].core.Events())
    ensures CanRun(st, steps) && BlockBack(st, b, Run(st, steps))
  {
    if st.buffers[b].core.Events() == [] {
      LastRelease(st, b, ReleaseNow(b));
      steps := [OnRelease(ReleaseNow(b))];
    } else {
      var u, t := StartWorker(st, b);
      var rest := WorkerCanReturn(t, b);
      Prepend(u, OnRelease(Select(b, true)), rest);
      Prepend(st, OnRelease(Spawn(b)), [OnRelease(Select(b, true))] + rest);
      steps := [OnRelease(Spawn(b))] + ([OnRelease(Select(b, true))] + rest);
    }
  }

  lemma DestroyUnheld(st: State, b: nat) returns (t: State)
    requires Inv(st) && b < |st.buffers| && st.buffers[b].life == Alive && Unreferenced(st, b)
               && st.buffers[b].refs == 0
    ensures Enabled(st, OnRelease(Destroy(b))) && t == Apply(st, OnRelease(Destroy(b))) && Inv(t)
    ensures |t.buffers| == |st.buffers| && t.streams == st.streams && t.handles == st.handles && t.events == st.events
    ensures t.buffers[b] == st.buffers[b].(core := st.buffers[b].core.Release(), life := Dying)
  {
    t := Apply(st, OnRelease(Destroy(b)));
    StepKeeps(st, OnRelease(Destroy(b)));
  }

  lemma DropOne(st: State, b: nat) returns (t: State)
    requires Inv(st) && LiveBuffer(st, b)
    ensures Enabled(st, OnPool(DropRef(b))) && t == Apply(st, OnPool(DropRef(b))) && Inv(t)
    ensures |t.buffers| == |st.buffers| && t.streams == st.streams && t.handles == st.handles && t.events == st.events
    ensures t.buffers[b] == st.buffers[b].(refs := st.buffers[b].refs - 1)
  {
    t := Apply(st, OnPool(DropRef(b)));
    StepKeeps(st, OnPool(DropRef(b)));
  }

  /** The references to a buffer that no handle uses go, one after the other, and the
      destructor and its worker return the block if nothing fails. */
  lemma {:induction false} UnheldCanReturn(st: State, b: nat) returns (steps: seq<Step>, t: State)
    requires Inv(st) && b < |st.buffers| && st.buffers[b].life == Alive && Unreferenced(st, b)
    requires !st.buffers[b].core.mustOrphan && WorkDone(st, st.buffers[b].core.Events())
    ensures CanRun(st, steps) && t == Run(st, steps)
    ensures |t.buffers| == |st.buffers| && t.buffers[b].life == Returned && t.buffers[b].block == st.buffers[b].block
    ensures st.buffers[b].block in t.free && t.streams == st.streams && t.handles == st.handles
    decreases st.buffers[b].refs
  {
    if st.buffers[b].refs == 0 {
      var u := DestroyUnheld(st, b);
      assert u.buffers[b].core.Events() == st.buffers[b].core.Events();
      var rest := ReleaseCanReturn(u, b);
      Prepend(st, OnRelease(Destroy(b)), rest);
      steps := [OnRelease(Destroy(b))] + rest;
      t := Run(u, rest);
    } else {
      var u := DropOne(st, b);
      var rest;
      rest, t := UnheldCanReturn(u, b);
      Prepend(st, OnPool(DropRef(b)), rest);
      steps := [OnPool(DropRef(b))] + rest;
    }
  }

  lemma {:induction false} RunAppend(st: State, steps: seq<Step>, x: Step)
    requires CanRun(st, steps) && Enabled(Run(st, steps), x)
    ensures CanRun(st, steps + [x]) && Run(st, steps + [x]) == Apply(Run(st, steps), x)
    decreases |steps|
  {
    if steps == [] {
      Prepend(st, x, []);
      assert [] + [x] == [x] + [];
    } else {
      RunAppend(Apply(st, steps[0]), steps[1..], x);
      Prepend(st, steps[0], steps[1..] + [x]);
      assert steps + [x] == [steps[0]] + (steps[1..] + [x]);
    }
  }

  /** Some run reaches `st`. */
  ghost predicate Reachable(init: State, st: State) {
    exists steps :: Reached(init, steps, st)
  }

  lemma ReachNext(init: State, st: State, x: Step)
    requires Reachable(init, st) && Enabled(st, x)
    ensures Reachable(init, Apply(st, x))
  {
    var steps :| Reached(init, steps, st);
    RunAppend(init, steps, x);
    assert Reached(init, steps + [x], Apply(st, x));
  }

  /** A run to a state with one fresh buffer around the pool's only block. */
  lemma FreshBuffer(init: State) returns (st: State)
    requires Init(init) && init.capacity == 1
    ensures Reachable(init, st) && st.streams == init.streams && st.handles == [] && st.events == []
    ensures st.buffers == [SysBuffer(FRESH, 0, 1, None, Alive)] && |st.place| == 1 && st.free == []
  {
    assert Reached(init, [], init);
    var s1 := Apply(init, OnPool(Pop(0)));
    ReachNext(init, init, OnPool(Pop(0)));
    st := Apply(s1, OnPool(Wrap(0)));
    ReachNext(init, s1, OnPool(Wrap(0)));
  }

  const PRODUCED := Buffer(Ready, EventBackedReady, 0, Some(0), [], false)

  /** A run to an active writer of that buffer on stream 0. */
  lemma OpenedBuffer(init: State) returns (st: State)
    requires Init(init) && init.capacity == 1 && |init.streams| == 2
    ensures Reachable(init, st) && st.streams == init.streams && st.events == []
    ensures st.buffers == [SysBuffer(FRESH.OpenWriter(0), 0, 1, Some(0), Alive)]
    ensures st.handles == [Handle(AsyncWriter, 0, 0, Active, None, None, false)]
  {
    var made := FreshBuffer(init);
    st := Apply(made, OnWriter(OpenWriter(0, 0)));
    ReachNext(init, made, OnWriter(OpenWriter(0, 0)));
  }

  /** A run to a state with one buffer, produced on stream 0 and held by one reference. */
  lemma ProducedBuffer(init: State) returns (st: State)
    requires Init(init) && init.capacity == 1 && |init.streams| == 2
    ensures Reachable(init, st)
    ensures st.buffers == [SysBuffer(PRODUCED, 0, 1, None, Alive)] && st.events == [EventInfo(0, 0, Some((0, 0)), true)]
    ensures |st.handles| == 1 && st.handles[0].state == Gone && st.streams == init.streams
  {
    var reserved := OpenedBuffer(init);
    var published := Apply(reserved, OnWriter(Finalize(0)));
    ReachNext(init, reserved, OnWriter(Finalize(0)));
    st := Apply(published, OnWork(DropHandle(0)));
    ReachNext(init, published, OnWork(DropHandle(0)));
  }

  lemma RefuseReader(st: State, b: nat, s: nat) returns (failed: State)
    requires Inv(st) && LiveBuffer(st, b) && s < |st.streams|
    requires st.buffers[b].core.phase == Ready && st.buffers[b].core.producerEvent.Some?
    ensures Enabled(st, OnReader(OpenReaderThrows(b, s, false)))
    ensures failed == Apply(st, OnReader(OpenReaderThrows(b, s, false))) && Inv(failed)
    ensures |failed.buffers| == |st.buffers| && failed.handles == st.handles && failed.streams == st.streams
    ensures failed.events == st.events && failed.buffers[b] == st.buffers[b].(core := st.buffers[b].core.RefuseReader())
  {
    failed := Apply(st, OnReader(OpenReaderThrows(b, s, false)));
    StepKeeps(st, OnReader(OpenReaderThrows(b, s, false)));
  }

  /** "Failed implies orphaned" is false: whenever a wait fails on a ready buffer that no
      handle uses and whose events have completed, the buffer is failed and its block can be
      recycled. */
  lemma FailedButRecycled(st: State, b: nat, s: nat) returns (failed: State, steps: seq<Step>)
    requires Inv(st) && LiveBuffer(st, b) && s < |st.streams|
    requires st.buffers[b].core.phase == Ready && st.buffers[b].core.producerEvent.Some?
    requires Unreferenced(st, b) && WorkDone(st, st.buffers[b].core.Events())
    ensures Enabled(st, OnReader(OpenReaderThrows(b, s, false)))
    ensures failed == Apply(st, OnReader(OpenReaderThrows(b, s, false)))
    ensures |failed.buffers| == |st.buffers| && failed.buffers[b].core.phase == Failed
    ensures CanRun(failed, steps)
    ensures var t := Run(failed, steps);
            |t.buffers| == |st.buffers| && t.buffers[b].life == Returned && st.buffers[b].block in t.free
  {
    assert BufferOk(st, b);
    failed := RefuseReader(st, b, s);
    assert failed.buffers[b].core.Events() == st.buffers[b].core.Events();
    var t;
    steps, t := UnheldCanReturn(failed, b);
  }

  /** The premises of FailedButRecycled are met in a run of five steps. */
  lemma FailedButRecycledHappens(init: State) returns (st: State)
    requires Init(init) && init.capacity == 1 && |init.streams| == 2
    ensures Reachable(init, st)
    ensures |st.buffers| == 1 && st.buffers[0].core.phase == Ready && st.buffers[0].core.Events() == [0]
    ensures LiveBuffer(st, 0) && Unreferenced(st, 0) && WorkDone(st, [0])
  {
    st := ProducedBuffer(init);
    assert PRODUCED.Events() == [0];
  }

  // ---------- Why a lease outlives its reads

  /** An active lease is the last handle of a buffer all of whose events have completed, with
      a read through it in flight at position `p` of stream `s`. */
  ghost predicate BusyLease(st: State, h: nat, b: nat, s: nat, p: nat) {
    && b < |st.buffers| && st.buffers[b].life == Alive
    && !st.buffers[b].core.mustOrphan && WorkDone(st, st.buffers[b].core.Events())
    && h < |st.handles| && st.handles[h].kind == Lease && st.handles[h].state == Active && st.handles[h].buf == b
    && (forall g :: 0 <= g < |st.handles| && g != h && st.handles[g].buf == b ==> st.handles[g].state == Gone)
    && PendingAt(st, s, p) && st.streams[s].ops[p] == Touch(h)
  }

  lemma EndEarly(st: State, h: nat) returns (ended: State)
    requires Inv(st) && ActiveHandle(st, h) && st.handles[h].kind == Lease
    ensures Enabled(st, OnReader(EndLeaseEarly(h))) && ended == Apply(st, OnReader(EndLeaseEarly(h))) && Inv(ended)
  {
    ended := Apply(st, OnReader(EndLeaseEarly(h)));
    StepKeeps(st, OnReader(EndLeaseEarly(h)));
  }

  lemma EndedIsUnheld(st: State, h: nat, b: nat, s: nat, p: nat, ended: State)
    requires BusyLease(st, h, b, s, p) && ended == DoEndLeaseEarly(st, h)
    ensures ended.streams == st.streams && ended.buffers == st.buffers && BufOf(ended, h) == b
    ensures Unreferenced(ended, b) && WorkDone(ended, ended.buffers[b].core.Events())
    ensures !Enabled(st, OnReader(DropLease(h)))
  {
    assert !HandleQuiet(st, h);
  }

  /** A lease records no event when it ends.  Whenever it ends with a read through it in
      flight, as a blocking copy to the host does when it throws early, and the events of the
      buffer do not wait for the read, the block can be free with the read unfinished. */
  lemma EarlyLeaseFreesBusyBlock(st: State, h: nat, b: nat, s: nat, p: nat)
    returns (ended: State, steps: seq<Step>, t: State)
    requires Inv(st) && BusyLease(st, h, b, s, p)
    ensures !Enabled(st, OnReader(DropLease(h)))
    ensures Enabled(st, OnReader(EndLeaseEarly(h))) && ended == Apply(st, OnReader(EndLeaseEarly(h)))
    ensures CanRun(ended, steps) && t == Run(ended, steps)
    ensures st.buffers[b].block in t.free && !BlockQuiet(t, st.buffers[b].block)
  {
    ended := EndEarly(st, h);
    EndedIsUnheld(st, h, b, s, p, ended);
    steps, t := UnheldCanReturn(ended, b);
    StillBusy(ended, t, s, p);
  }

  lemma StillBusy(ended: State, t: State, s: nat, p: nat)
    requires PendingAt(ended, s, p) && BufOf(ended, ended.streams[s].ops[p].handle) < |ended.buffers|
    requires t.streams == ended.streams && t.handles == ended.handles && |t.buffers| == |ended.buffers|
    requires var b := BufOf(ended, ended.streams[s].ops[p].handle); t.buffers[b].block == ended.buffers[b].block
    ensures !BlockQuiet(t, BlockOf(ended, BufOf(ended, ended.streams[s].ops[p].handle)))
  {
    assert PendingAt(t, s, p);
    assert BufOf(t, t.streams[s].ops[p].handle) == BufOf(ended, ended.streams[s].ops[p].handle);
  }

  /** A run to a buffer that was filled by a blocking copy. */
  lemma CopiedBuffer(init: State) returns (st: State)
    requires Init(init) && init.capacity == 1
    ensures Reachable(init, st) && st.streams == init.streams && |st.place| == 1 && st.handles == []
    ensures st.buffers == [SysBuffer(FRESH.FinalizeSynchronously(), 0, 1, None, Alive)]
  {
    var made := FreshBuffer(init);
    st := Apply(made, OnWriter(HostToDevice(0)));
    ReachNext(init, made, OnWriter(HostToDevice(0)));
  }

  /** A run to an active lease of it. */
  lemma LeasedBuffer(init: State) returns (st: State)
    requires Init(init) && init.capacity == 1 && |init.streams| == 1
    ensures Reachable(init, st) && st.streams == init.streams && |st.place| == 1
    ensures st.buffers == [SysBuffer(FRESH.FinalizeSynchronously(), 0, 1, None, Alive)]
    ensures st.handles == [Handle(Lease, 0, 0, Active, None, None, false)]
  {
    var copied := CopiedBuffer(init);
    var checked := Apply(copied, OnReader(CheckLease(0, 0)));
    ReachNext(init, copied, OnReader(CheckLease(0, 0)));
    st := Apply(checked, OnReader(SyncLease(0)));
    ReachNext(init, checked, OnReader(SyncLease(0)));
  }

  /** A busy lease of a buffer without events occurs in a run of six steps. */
  lemma BusyLeaseHappens(init: State) returns (st: State)
    requires Init(init) && init.capacity == 1 && |init.streams| == 1
    ensures Reachable(init, st) && BusyLease(st, 0, 0, 0, 0) && st.buffers[0].core.Events() == []
  {
    var held := LeasedBuffer(init);
    st := Apply(held, OnWork(Submit(0, 0)));
    ReachNext(init, held, OnWork(Submit(0, 0)));
    assert FRESH.FinalizeSynchronously().Events() == [];
  }

  /** A run to an active lease of a buffer with a producer event. */
  lemma LeasedProduct(init: State) returns (st: State)
    requires Init(init) && init.capacity == 1 && |init.streams| == 2
    ensures Reachable(init, st) && st.streams == init.streams
    ensures st.buffers == [SysBuffer(PRODUCED, 0, 1, None, Alive)] && st.events == [EventInfo(0, 0, Some((0, 0)), true)]
    ensures |st.handles| == 2 && st.handles[0].state == Gone
              && st.handles[1] == Handle(Lease, 0, 0, Active, Some(0), None, false)
  {
    var produced := ProducedBuffer(init);
    var checked := Apply(produced, OnReader(CheckLease(0, 0)));
    ReachNext(init, produced, OnReader(CheckLease(0, 0)));
    st := Apply(checked, OnReader(SyncLease(1)));
    ReachNext(init, checked, OnReader(SyncLease(1)));
  }

  /** So does one of a buffer with an event, in nine. */
  lemma BusyLeaseOfProductHappens(init: State) returns (st: State)
    requires Init(init) && init.capacity == 1 && |init.streams| == 2
    ensures Reachable(init, st) && BusyLease(st, 1, 0, 1, 0) && st.buffers[0].core.Events() == [0]
  {
    var held := LeasedProduct(init);
    st := Apply(held, OnWork(Submit(1, 1)));
    ReachNext(init, held, OnWork(Submit(1, 1)));
    assert PRODUCED.Events() == [0];
  }
}
