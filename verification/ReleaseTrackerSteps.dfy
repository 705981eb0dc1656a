/**
 Every step of ReleaseTracker keeps its invariant.  For each kind of step X, XKeepsCall shows
 that a call on some stack stays in order, and XKeepsRelease that a release does, from what the
 invariant says of that call or release, of the calls that stand for it and of the top of the
 stepping thread's stack; StepMovesCount shows when a step counts a release.
 */
module ReleaseTrackerSteps {

  import opened ReleaseTracker

  // ---------- Counting

  lemma {:induction false} PendingUpdate(st: State, t: State, k: Kind, n: nat, r: nat)
    requires r < |st.releases| && |t.releases| == |st.releases| && n <= |st.releases|
    requires forall q :: 0 <= q < n && q != r ==> t.releases[q] == st.releases[q]
    requires t.releases[r].kind == st.releases[r].kind
    ensures Pending(t, k, n) ==
              Pending(st, k, n) + if r < n && st.releases[r].kind == k then
                                    (if InFlight(t.releases[r]) then 1 else 0)
                                        - (if InFlight(st.releases[r]) then 1 else 0)
                                  else 0
  {
    if n == 0 {
    } else {
      PendingUpdate(st, t, k, n - 1, r);
    }
  }

  lemma {:induction false} PendingPrefix(st: State, t: State, k: Kind, n: nat)
    requires n <= |st.releases| && n <= |t.releases|
    requires forall q :: 0 <= q < n ==> t.releases[q] == st.releases[q]
    ensures Pending(t, k, n) == Pending(st, k, n)
  {
    if n == 0 {
    } else {
      PendingPrefix(st, t, k, n - 1);
    }
  }

  lemma {:induction false} PendingPositive(st: State, k: Kind, n: nat, r: nat)
    requires r < n <= |st.releases| && InFlight(st.releases[r]) && st.releases[r].kind == k
    ensures Pending(st, k, n) > 0
  {
    if r < n - 1 { PendingPositive(st, k, n - 1, r); }
  }

  lemma BeginKeepsCount(st: State, t: State, x: Step)
    requires Inv(st) && Enabled(st, x) && x.Begin? && t == Apply(st, x)
    ensures CountOk(t)
  {
    forall k: Kind
      ensures CountFor(t, k) == Pending(t, k, |t.releases|)
    {
      PendingPrefix(st, t, k, |st.releases|);
    }
  }

  /** What the invariant says of the call at stack position `at`. */
  predicate CallKnown(st: State, at: (nat, nat)) {
    at.0 < |st.threads| && at.1 < |st.threads[at.0]| && CallOk(st, at.0, at.1)
  }

  /** What it says of a release and the calls that stand for it. */
  predicate ReleaseKnown(st: State, r: nat) {
    && r < |st.releases| && ReleaseOk(st, r)
    && (st.releases[r].parent != Left ==> CallKnown(st, st.releases[r].pAt))
    && (Running(st.releases[r].worker) ==> CallKnown(st, st.releases[r].wAt))
  }

  /** What it says of the top of stack `t`, if that is not empty. */
  predicate TopKnown(st: State, t: nat) {
    Busy(st, t) ==> CallKnown(st, (t, |st.threads[t]| - 1)) && ReleaseKnown(st, Top(st, t).r)
  }

  /** The call at (a, j), if it was there before, was in order. */
  predicate CallWas(st: State, a: nat, j: nat) {
    a < |st.threads| && j < |st.threads[a]| ==> CallOk(st, a, j)
  }

  predicate ReleaseWas(st: State, r: nat) {
    st.mutex < |st.releases| && (r < |st.releases| ==> ReleaseKnown(st, r))
  }

  lemma ReleaseFacts(st: State, r: nat)
    requires StacksOk(st) && r < |st.releases|
    ensures ReleaseKnown(st, r)
  {
    assert ReleaseOk(st, r);
  }

  lemma TopFacts(st: State, t: nat)
    requires StacksOk(st) && Busy(st, t)
    ensures TopKnown(st, t)
  {
    assert CallOk(st, t, |st.threads[t]| - 1);
    ReleaseFacts(st, Top(st, t).r);
  }

  function Unit(b: bool): int { if b then 1 else 0 }

  /** A step counts the release on top exactly when it makes it in flight. */
  lemma StepMovesCount(st: State, u: State, x: Step, k: Kind)
    requires Enabled(st, x) && !x.Begin? && u == Apply(st, x) && TopKnown(st, x.t)
    ensures var r := Top(st, x.t).r;
            && |u.releases| == |st.releases| && u.releases == st.releases[r := u.releases[r]]
            && u.releases[r].kind == st.releases[r].kind
            && CountFor(u, k) == CountFor(st, k) + if st.releases[r].kind != k then 0
                                                   else Unit(InFlight(u.releases[r])) - Unit(InFlight(st.releases[r]))
  {}

  lemma StepKeepsCount(st: State, t: State, x: Step)
    requires Inv(st) && Enabled(st, x) && !x.Begin? && t == Apply(st, x)
    ensures CountOk(t)
  {
    TopFacts(st, x.t);
    forall k: Kind
      ensures CountFor(t, k) == Pending(t, k, |t.releases|)
    {
      StepMovesCount(st, t, x, k);
      PendingUpdate(st, t, k, |st.releases|, Top(st, x.t).r);
    }
  }

  // ---------- Stacks

  lemma BeginKeepsCall(st: State, t: nat, kind: Kind, sync: bool, owners: nat, u: State, a: nat, j: nat)
    requires Enabled(st, Begin(t, kind, sync, owners)) && u == DoBegin(st, t, kind, sync, owners) && TopKnown(st, t)
    requires a < |u.threads| && j < |u.threads[a]| && CallWas(st, a, j)
    ensures CallOk(u, a, j)
  {}

  lemma BeginKeepsRelease(st: State, t: nat, kind: Kind, sync: bool, owners: nat, u: State, r: nat)
    requires Enabled(st, Begin(t, kind, sync, owners)) && u == DoBegin(st, t, kind, sync, owners) && TopKnown(st, t)
    requires r < |u.releases| && ReleaseWas(st, r)
    ensures ReleaseOk(u, r)
  {}

  lemma LockKeepsCall(st: State, t: nat, u: State, a: nat, j: nat)
    requires Enabled(st, Lock(t)) && u == DoLock(st, t) && TopKnown(st, t)
    requires a < |u.threads| && j < |u.threads[a]| && CallWas(st, a, j)
    ensures CallOk(u, a, j)
  {}

  lemma LockKeepsRelease(st: State, t: nat, u: State, r: nat)
    requires Enabled(st, Lock(t)) && u == DoLock(st, t) && TopKnown(st, t)
    requires r < |u.releases| && ReleaseWas(st, r)
    ensures ReleaseOk(u, r)
  {}

  lemma StartWorkerKeepsCall(st: State, t: nat, u: State, a: nat, j: nat)
    requires Enabled(st, StartWorker(t)) && u == DoStartWorker(st, t) && TopKnown(st, t)
    requires a < |u.threads| && j < |u.threads[a]| && CallWas(st, a, j)
    ensures CallOk(u, a, j)
  {}

  lemma StartWorkerKeepsRelease(st: State, t: nat, u: State, r: nat)
    requires Enabled(st, StartWorker(t)) && u == DoStartWorker(st, t) && TopKnown(st, t)
    requires r < |u.releases| && ReleaseWas(st, r)
    ensures ReleaseOk(u, r)
  {}

  lemma StartThrowsKeepsCall(st: State, t: nat, u: State, a: nat, j: nat)
    requires Enabled(st, StartThrows(t)) && u == DoStartThrows(st, t) && TopKnown(st, t)
    requires a < |u.threads| && j < |u.threads[a]| && CallWas(st, a, j)
    ensures CallOk(u, a, j)
  {}

  lemma StartThrowsKeepsRelease(st: State, t: nat, u: State, r: nat)
    requires Enabled(st, StartThrows(t)) && u == DoStartThrows(st, t) && TopKnown(st, t)
    requires r < |u.releases| && ReleaseWas(st, r)
    ensures ReleaseOk(u, r)
  {}

  lemma DropCopiesKeepsCall(st: State, t: nat, u: State, a: nat, j: nat)
    requires Enabled(st, DropCopies(t)) && u == DoDropCopies(st, t) && TopKnown(st, t)
    requires a < |u.threads| && j < |u.threads[a]| && CallWas(st, a, j)
    ensures CallOk(u, a, j)
  {}

  lemma DropCopiesKeepsRelease(st: State, t: nat, u: State, r: nat)
    requires Enabled(st, DropCopies(t)) && u == DoDropCopies(st, t) && TopKnown(st, t)
    requires r < |u.releases| && ReleaseWas(st, r)
    ensures ReleaseOk(u, r)
  {}

  lemma UnlockKeepsCall(st: State, t: nat, u: State, a: nat, j: nat)
    requires Enabled(st, Unlock(t)) && u == DoUnlock(st, t) && TopKnown(st, t)
    requires a < |u.threads| && j < |u.threads[a]| && CallWas(st, a, j)
    ensures CallOk(u, a, j)
  {}

  lemma UnlockKeepsRelease(st: State, t: nat, u: State, r: nat)
    requires Enabled(st, Unlock(t)) && u == DoUnlock(st, t) && TopKnown(st, t)
    requires r < |u.releases| && ReleaseWas(st, r)
    ensures ReleaseOk(u, r)
  {}

  lemma FinishKeepsCall(st: State, t: nat, u: State, a: nat, j: nat)
    requires Enabled(st, Finish(t)) && u == DoFinish(st, t) && TopKnown(st, t)
    requires a < |u.threads| && j < |u.threads[a]| && CallWas(st, a, j)
    ensures CallOk(u, a, j)
  {}

  /** The stack position `at` and all below it are as before. */
  predicate StillThere(st: State, u: State, at: (nat, nat)) {
    at.0 < |st.threads| && at.1 < |st.threads[at.0]| ==>
      && at.0 < |u.threads| && at.1 < |u.threads[at.0]|
      && forall j :: 0 <= j <= at.1 ==> u.threads[at.0][j] == st.threads[at.0][j]
  }

  /** A release that a step does not act on, while its calls stay where they are. */
  lemma OtherKept(st: State, u: State, r: nat)
    requires ReleaseKnown(st, r) && r < |u.releases| && u.releases[r] == st.releases[r]
    requires st.releases[r].trigger != NO_TRIGGER ==>
               st.releases[r].trigger < |u.releases| && u.releases[st.releases[r].trigger].worker != Absent
    requires u.mutex == r <==> st.mutex == r
    requires st.releases[r].parent != Left ==> StillThere(st, u, st.releases[r].pAt)
    requires Running(st.releases[r].worker) ==> StillThere(st, u, st.releases[r].wAt)
    ensures ReleaseOk(u, r)
  {}

  /** Popping the top call leaves every other call in place. */
  lemma PopLeaves(st: State, u: State, t: nat, at: (nat, nat))
    requires Busy(st, t) && u.threads == st.threads[t := st.threads[t][..|st.threads[t]| - 1]]
    requires CallKnown(st, at) && at != (t, |st.threads[t]| - 1)
    ensures StillThere(st, u, at)
  {}

  lemma FinishKeepsRelease(st: State, t: nat, u: State, r: nat)
    requires Enabled(st, Finish(t)) && u == DoFinish(st, t) && TopKnown(st, t)
    requires r < |u.releases| && ReleaseWas(st, r)
    ensures ReleaseOk(u, r)
  {
    var q := Top(st, t).r;
    assert u.releases == st.releases[q := Now(st, t).(worker := Gone, workerHas := false)];
    if r == q {
      FinishedIsOk(st, t, u);
    } else {
      if st.releases[r].parent != Left { PopLeaves(st, u, t, st.releases[r].pAt); }
      if Running(st.releases[r].worker) { PopLeaves(st, u, t, st.releases[r].wAt); }
      OtherKept(st, u, r);
    }
  }

  lemma FinishedIsOk(st: State, t: nat, u: State)
    requires Enabled(st, Finish(t)) && u == DoFinish(st, t) && TopKnown(st, t)
    ensures ReleaseOk(u, Top(st, t).r)
  {}

  /** What the worker on top may do without leaving its stack. */
  predicate Moving(st: State, t: nat, worker: WorkerPc, settled: nat) {
    && TopRelease(st, t) && !Top(st, t).ParentOf? && (worker == Working || worker == InDeleter)
    && Now(st, t).settled <= settled <= Now(st, t).owners
    && (Now(st, t).worker == Gate ==> st.mutex == UNLOCKED)
    && (settled != Now(st, t).settled ==> Now(st, t).worker == Working)
  }

  lemma MoveKeepsCall(st: State, t: nat, worker: WorkerPc, settled: nat, u: State, a: nat, j: nat)
    requires Moving(st, t, worker, settled) && u == DoMove(st, t, worker, settled) && TopKnown(st, t)
    requires a < |u.threads| && j < |u.threads[a]| && CallWas(st, a, j)
    ensures CallOk(u, a, j)
  {}

  lemma MoveKeepsRelease(st: State, t: nat, worker: WorkerPc, settled: nat, u: State, r: nat)
    requires Moving(st, t, worker, settled) && u == DoMove(st, t, worker, settled) && TopKnown(st, t)
    requires r < |u.releases| && ReleaseWas(st, r)
    ensures ReleaseOk(u, r)
  {}

  /** A step of a worker, or of a destructor without events. */
  predicate OfWorker(x: Step) {
    x.PassGate? || x.DropOwner? || x.EndDeleter? || x.OrphanRest? || x.Finish?
  }

  lemma ParentStepKeepsCall(st: State, u: State, x: Step, a: nat, j: nat)
    requires Enabled(st, x) && !OfWorker(x) && u == Apply(st, x) && TopKnown(st, x.t)
    requires a < |u.threads| && j < |u.threads[a]| && CallWas(st, a, j)
    ensures CallOk(u, a, j)
  {
    match x
    case Begin(t, kind, sync, owners) => BeginKeepsCall(st, t, kind, sync, owners, u, a, j);
    case Lock(t) => LockKeepsCall(st, t, u, a, j);
    case StartWorker(t) => StartWorkerKeepsCall(st, t, u, a, j);
    case StartThrows(t) => StartThrowsKeepsCall(st, t, u, a, j);
    case DropCopies(t) => DropCopiesKeepsCall(st, t, u, a, j);
    case Unlock(t) => UnlockKeepsCall(st, t, u, a, j);
  }

  lemma ParentStepKeepsRelease(st: State, u: State, x: Step, r: nat)
    requires Enabled(st, x) && !OfWorker(x) && u == Apply(st, x) && TopKnown(st, x.t)
    requires r < |u.releases| && ReleaseWas(st, r)
    ensures ReleaseOk(u, r)
  {
    match x
    case Begin(t, kind, sync, owners) => BeginKeepsRelease(st, t, kind, sync, owners, u, r);
    case Lock(t) => LockKeepsRelease(st, t, u, r);
    case StartWorker(t) => StartWorkerKeepsRelease(st, t, u, r);
    case StartThrows(t) => StartThrowsKeepsRelease(st, t, u, r);
    case DropCopies(t) => DropCopiesKeepsRelease(st, t, u, r);
    case Unlock(t) => UnlockKeepsRelease(st, t, u, r);
  }

  lemma WorkerStepKeepsCall(st: State, u: State, x: Step, a: nat, j: nat)
    requires Enabled(st, x) && OfWorker(x) && u == Apply(st, x) && TopKnown(st, x.t)
    requires a < |u.threads| && j < |u.threads[a]| && CallWas(st, a, j)
    ensures CallOk(u, a, j)
  {
    match x
    case PassGate(t) => MoveKeepsCall(st, t, Working, Now(st, t).settled, u, a, j);
    case DropOwner(t) => MoveKeepsCall(st, t, InDeleter, Now(st, t).settled + 1, u, a, j);
    case EndDeleter(t) => MoveKeepsCall(st, t, Working, Now(st, t).settled, u, a, j);
    case OrphanRest(t) => MoveKeepsCall(st, t, Working, Now(st, t).owners, u, a, j);
    case Finish(t) => FinishKeepsCall(st, t, u, a, j);
  }

  lemma WorkerStepKeepsRelease(st: State, u: State, x: Step, r: nat)
    requires Enabled(st, x) && OfWorker(x) && u == Apply(st, x) && TopKnown(st, x.t)
    requires r < |u.releases| && ReleaseWas(st, r)
    ensures ReleaseOk(u, r)
  {
    match x
    case PassGate(t) => MoveKeepsRelease(st, t, Working, Now(st, t).settled, u, r);
    case DropOwner(t) => MoveKeepsRelease(st, t, InDeleter, Now(st, t).settled + 1, u, r);
    case EndDeleter(t) => MoveKeepsRelease(st, t, Working, Now(st, t).settled, u, r);
    case OrphanRest(t) => MoveKeepsRelease(st, t, Working, Now(st, t).owners, u, r);
    case Finish(t) => FinishKeepsRelease(st, t, u, r);
  }

  lemma StepKeepsStacks(st: State, t: State, x: Step)
    requires Inv(st) && Enabled(st, x) && t == Apply(st, x)
    ensures StacksOk(t)
  {
    if st.threads[x.t] != [] { TopFacts(st, x.t); }
    forall a: nat, j: nat | a < |t.threads| && j < |t.threads[a]|
      ensures CallOk(t, a, j)
    {
      if OfWorker(x) { WorkerStepKeepsCall(st, t, x, a, j); } else { ParentStepKeepsCall(st, t, x, a, j); }
    }
    forall r: nat | r < |t.releases|
      ensures ReleaseOk(t, r)
    {
      if r < |st.releases| { ReleaseFacts(st, r); }
      if OfWorker(x) { WorkerStepKeepsRelease(st, t, x, r); } else { ParentStepKeepsRelease(st, t, x, r); }
    }
  }

  lemma StepKeeps(st: State, x: Step)
    requires Inv(st) && Enabled(st, x)
    ensures Inv(Apply(st, x))
  {
    var t := Apply(st, x);
    StepKeepsStacks(st, t, x);
    if x.Begin? {
      BeginKeepsCount(st, t, x);
    } else {
      StepKeepsCount(st, t, x);
    }
  }
}
