/**
 The release tracker: threads destroying buffers, the workers they start, and the pending
 counts that wait_for_pending_releases reads.  An owner's deleter may destroy further
 buffers, so a thread is a stack of calls; only its top call moves.
 */
module ReleaseTracker {

  datatype Kind = Cuda | Hip

  /** A call on some thread's stack: a destructor with events, the worker it started, or a
      destructor without events. */
  datatype Call = ParentOf(r: nat) | WorkerOf(r: nat) | SyncOf(r: nat)

  /** The destructor: waiting for the tracker's mutex; counted, holding it; worker started;
      own copies of the owners dropped; returned. */
  datatype ParentPc = Waiting | Counted | Started | Dropped | Left

  /** The worker (or the destructor without events): at the gate; letting go of owners;
      running the deleter of the owner just dropped; returned. */
  datatype WorkerPc = Absent | Gate | Working | InDeleter | Gone

  /** `settled` of the `owners` are dropped or in orphan storage.  `parentHas` and
      `workerHas` say who keeps copies of the rest.  `trigger` is the release whose owner's
      deleter destroyed this buffer.  `pAt` and `wAt` are stack positions (bookkeeping). */
  datatype Release = Release(
    kind: Kind, sync: bool, owners: nat, settled: nat, parent: ParentPc, worker: WorkerPc,
    parentHas: bool, workerHas: bool, trigger: int, pAt: (nat, nat), wAt: (nat, nat))

  datatype State = State(
    mutex: int, cuda: nat, hip: nat, releases: seq<Release>, threads: seq<seq<Call>>)

  /** The mutex is free, or held by the destructor of the release with this number. */
  const UNLOCKED := -1

  const NO_TRIGGER := -1

  datatype Step =
    | Begin(t: nat, kind: Kind, sync: bool, owners: nat)
    | Lock(t: nat)
    | StartWorker(t: nat)
    | StartThrows(t: nat)
    | DropCopies(t: nat)
    | Unlock(t: nat)
    | PassGate(t: nat)
    | DropOwner(t: nat)
    | EndDeleter(t: nat)
    | OrphanRest(t: nat)
    | Finish(t: nat)

  predicate Busy(st: State, t: nat) {
    t < |st.threads| && st.threads[t] != []
  }

  function Top(st: State, t: nat): Call
    requires Busy(st, t)
  {
    st.threads[t][|st.threads[t]| - 1]
  }

  predicate TopRelease(st: State, t: nat) {
    Busy(st, t) && Top(st, t).r < |st.releases|
  }

  function Now(st: State, t: nat): Release
    requires TopRelease(st, t)
  {
    st.releases[Top(st, t).r]
  }

  /** The top call is a worker or an event-free destructor, at `pc`. */
  predicate WorkerTop(st: State, t: nat, pc: WorkerPc) {
    TopRelease(st, t) && !Top(st, t).ParentOf? && Now(st, t).worker == pc
  }

  predicate ParentTop(st: State, t: nat, pc: ParentPc) {
    TopRelease(st, t) && Top(st, t).ParentOf? && Now(st, t).parent == pc
  }

  predicate Enabled(st: State, x: Step) {
    match x
    // A thread destroys a buffer from outside, or because a deleter it runs does so.
    case Begin(t, _, _, _) => t < |st.threads| && (st.threads[t] == [] || WorkerTop(st, t, InDeleter))
    case Lock(t) => ParentTop(st, t, Waiting) && st.mutex == UNLOCKED
    case StartWorker(t) => ParentTop(st, t, Counted)
    case StartThrows(t) => ParentTop(st, t, Counted) && CountFor(st, Now(st, t).kind) > 0
    case DropCopies(t) => ParentTop(st, t, Started)
    case Unlock(t) => ParentTop(st, t, Dropped)
    // The worker's empty critical section.
    case PassGate(t) => WorkerTop(st, t, Gate) && st.mutex == UNLOCKED
    case DropOwner(t) => WorkerTop(st, t, Working) && Now(st, t).settled < Now(st, t).owners
    case EndDeleter(t) => WorkerTop(st, t, InDeleter)
    case OrphanRest(t) => WorkerTop(st, t, Working) && Now(st, t).settled == 0
    // A worker takes the mutex to decrement the count; an event-free destructor returns.
    case Finish(t) =>
      && WorkerTop(st, t, Working) && Now(st, t).settled == Now(st, t).owners
      && (Now(st, t).sync || (st.mutex == UNLOCKED && CountFor(st, Now(st, t).kind) > 0))
  }

  function CountFor(st: State, k: Kind): nat {
    if k == Cuda then st.cuda else st.hip
  }

  function Add(st: State, k: Kind, d: int): State
    requires CountFor(st, k) + d >= 0
  {
    if k == Cuda then st.(cuda := st.cuda + d) else st.(hip := st.hip + d)
  }

  function Set(st: State, r: nat, x: Release): State
    requires r < |st.releases|
  {
    st.(releases := st.releases[r := x])
  }

  function PopCall(st: State, t: nat): State
    requires Busy(st, t)
  {
    st.(threads := st.threads[t := st.threads[t][..|st.threads[t]| - 1]])
  }

  function DoBegin(st: State, t: nat, kind: Kind, sync: bool, owners: nat): State
    requires Enabled(st, Begin(t, kind, sync, owners))
  {
    var r := |st.releases|;
    var at := (t, |st.threads[t]|);
    var trigger: int := if st.threads[t] == [] then NO_TRIGGER else Top(st, t).r;
    var x := if sync then Release(kind, true, owners, 0, Left, Working, false, true, trigger, at, at)
             else Release(kind, false, owners, 0, Waiting, Absent, true, false, trigger, at, at);
    st.(releases := st.releases + [x],
        threads := st.threads[t := st.threads[t] + [if sync then SyncOf(r) else ParentOf(r)]])
  }

  function DoStartWorker(st: State, t: nat): State
    requires Enabled(st, StartWorker(t))
  {
    var r := Top(st, t).r;
    Set(st, r, st.releases[r].(parent := Started, worker := Gate, workerHas := true, wAt := (|st.threads|, 0)))
      .(threads := st.threads + [[WorkerOf(r)]])
  }

  function DoStartThrows(st: State, t: nat): State
    requires Enabled(st, StartThrows(t))
  {
    var r := Top(st, t).r;
    var x := st.releases[r];
    PopCall(
      Set(Add(st, x.kind, -1).(mutex := UNLOCKED), r, x.(settled := x.owners, parentHas := false, parent := Left)), t)
  }

  function DoFinish(st: State, t: nat): State
    requires Enabled(st, Finish(t))
  {
    var r := Top(st, t).r;
    var x := st.releases[r];
    var u := if x.sync then st else Add(st, x.kind, -1);
    PopCall(Set(u, r, x.(worker := Gone, workerHas := false)), t)
  }

  function DoLock(st: State, t: nat): State
    requires Enabled(st, Lock(t))
  {
    var r := Top(st, t).r;
    Set(Add(st, st.releases[r].kind, 1).(mutex := r), r, st.releases[r].(parent := Counted))
  }

  function DoDropCopies(st: State, t: nat): State
    requires Enabled(st, DropCopies(t))
  {
    Set(st, Top(st, t).r, Now(st, t).(parent := Dropped, parentHas := false))
  }

  function DoUnlock(st: State, t: nat): State
    requires Enabled(st, Unlock(t))
  {
    PopCall(Set(st.(mutex := UNLOCKED), Top(st, t).r, Now(st, t).(parent := Left)), t)
  }

  /** The worker on top moves on; `settled` of its owners are let go. */
  function DoMove(st: State, t: nat, worker: WorkerPc, settled: nat): State
    requires TopRelease(st, t)
  {
    Set(st, Top(st, t).r, Now(st, t).(worker := worker, settled := settled))
  }

  function Apply(st: State, x: Step): State
    requires Enabled(st, x)
  {
    match x
    case Begin(t, kind, sync, owners) => DoBegin(st, t, kind, sync, owners)
    case Lock(t) => DoLock(st, t)
    case StartWorker(t) => DoStartWorker(st, t)
    case StartThrows(t) => DoStartThrows(st, t)
    case DropCopies(t) => DoDropCopies(st, t)
    case Unlock(t) => DoUnlock(st, t)
    case PassGate(t) => DoMove(st, t, Working, Now(st, t).settled)
    case DropOwner(t) => DoMove(st, t, InDeleter, Now(st, t).settled + 1)
    case EndDeleter(t) => DoMove(st, t, Working, Now(st, t).settled)
    case OrphanRest(t) => DoMove(st, t, Working, Now(st, t).owners)
    case Finish(t) => DoFinish(st, t)
  }

  /** Dropping a reference runs the owner's deleter exactly when it is the last one. */
  predicate RunsDeleter(st: State, x: Step)
    requires Enabled(st, x)
  {
    match x
    case DropCopies(t) => !Now(st, t).workerHas
    case DropOwner(t) => !Now(st, t).parentHas
    case _ => false
  }

  ghost predicate Init(st: State) {
    st.mutex == UNLOCKED && st.cuda == 0 && st.hip == 0 && st.releases == []
    && forall t :: 0 <= t < |st.threads| ==> st.threads[t] == []
  }

  // ---------- The invariant

  /** Counted, and not yet uncounted. */
  predicate InFlight(x: Release) {
    !x.sync && (x.parent == Counted || x.parent == Started || x.parent == Dropped
                || x.worker == Gate || x.worker == Working || x.worker == InDeleter)
  }

  predicate Running(pc: WorkerPc) { pc == Gate || pc == Working || pc == InDeleter }

  predicate OnStack(st: State, at: (nat, nat), c: Call) {
    at.0 < |st.threads| && at.1 < |st.threads[at.0]| && st.threads[at.0][at.1] == c
  }

  predicate CallOk(st: State, t: nat, j: nat)
    requires t < |st.threads| && j < |st.threads[t]|
  {
    var c := st.threads[t][j];
    && c.r < |st.releases|
    && var x := st.releases[c.r];
    // Only a call that runs a deleter has another call above it.
    && (j < |st.threads[t]| - 1 ==> !c.ParentOf? && x.worker == InDeleter)
    && match c
       case ParentOf(_) => !x.sync && x.parent != Left && x.pAt == (t, j)
       case WorkerOf(_) => !x.sync && Running(x.worker) && x.wAt == (t, j)
       case SyncOf(_) => x.sync && Running(x.worker) && x.wAt == (t, j)
  }

  predicate ReleaseOk(st: State, r: nat)
    requires r < |st.releases|
  {
    var x := st.releases[r];
    && x.settled <= x.owners
    && (x.sync ==> x.parent == Left && x.worker != Absent && x.worker != Gate && !x.parentHas)
    && (x.parent != Left ==> OnStack(st, x.pAt, ParentOf(r)))
    && (Running(x.worker) ==> OnStack(st, x.wAt, if x.sync then SyncOf(r) else WorkerOf(r)))
    && (!x.sync ==>
          && (x.parent == Waiting || x.parent == Counted ==> x.worker == Absent && x.settled == 0)
          && (x.parent == Started || x.parent == Dropped ==> x.worker == Gate)
          && (x.parentHas <==> x.parent == Waiting || x.parent == Counted || x.parent == Started)
          && (x.parent == Left && x.worker == Absent ==> x.settled == x.owners))
    && (x.workerHas <==> Running(x.worker))
    && (x.worker == Gone ==> x.settled == x.owners)
    && (st.mutex == r <==> x.parent == Counted || x.parent == Started || x.parent == Dropped)
    && TriggerOk(st, r)
  }

  /** A release that is not counted yet stands on the call whose deleter triggered it. */
  predicate TriggerOk(st: State, r: nat)
    requires r < |st.releases|
  {
    var x := st.releases[r];
    x.trigger != NO_TRIGGER ==>
      && 0 <= x.trigger < r
      && var at := if x.sync then x.wAt else x.pAt;
      ((x.parent != Left || (x.sync && Running(x.worker))) ==>
         && 0 < at.1 && at.0 < |st.threads| && at.1 <= |st.threads[at.0]|
         && st.threads[at.0][at.1 - 1].r == x.trigger && !st.threads[at.0][at.1 - 1].ParentOf?)
      && st.releases[x.trigger].worker != Absent
  }

  ghost predicate StacksOk(st: State) {
    && (forall t: nat, j: nat :: t < |st.threads| && j < |st.threads[t]| ==> CallOk(st, t, j))
    && (forall r: nat :: r < |st.releases| ==> ReleaseOk(st, r))
    && -1 <= st.mutex < |st.releases|
  }

  /** The releases of kind `k` among the first `n` that are counted. */
  function Pending(st: State, k: Kind, n: nat): nat
    requires n <= |st.releases|
  {
    if n == 0 then 0
    else Pending(st, k, n - 1) + if InFlight(st.releases[n - 1]) && st.releases[n - 1].kind == k then 1 else 0
  }

  ghost predicate CountOk(st: State) {
    forall k :: CountFor(st, k) == Pending(st, k, |st.releases|)
  }

  ghost predicate Inv(st: State) {
    StacksOk(st) && CountOk(st)
  }

  lemma InitOk(st: State)
    requires Init(st)
    ensures Inv(st)
  {}
}
