/** What the release tracker guarantees in every run. */
module ReleaseTrackerSafety {

  import opened ReleaseTracker
  import opened ReleaseTrackerSteps

  // ---------- Runs

  predicate CanRun(st: State, steps: seq<Step>)
    decreases |steps|
  {
    steps == [] || (Enabled(st, steps[0]) && CanRun(Apply(st, steps[0]), steps[1..]))
  }

  function Run(st: State, steps: seq<Step>): State
    requires CanRun(st, steps)
    decreases |steps|
  {
    if steps == [] then st else Run(Apply(st, steps[0]), steps[1..])
  }

  ghost predicate Reached(init: State, steps: seq<Step>, st: State) {
    Init(init) && CanRun(init, steps) && st == Run(init, steps)
  }

  lemma {:induction false} RunKeeps(st: State, steps: seq<Step>)
    requires Inv(st) && CanRun(st, steps)
    ensures Inv(Run(st, steps))
    decreases |steps|
  {
    if steps == [] {
    } else {
      StepKeeps(st, steps[0]);
      RunKeeps(Apply(st, steps[0]), steps[1..]);
    }
  }

  lemma ReachedInv(init: State, steps: seq<Step>, st: State)
    requires Reached(init, steps, st)
    ensures Inv(st)
  {
    InitOk(init);
    RunKeeps(init, steps);
  }

  // ---------- What every run guarantees

  /** The event-backed releases of kind `k` that were counted and have not finished. */
  function CountedReleases(st: State, k: Kind): set<nat> {
    set r | 0 <= r < |st.releases| && InFlight(st.releases[r]) && st.releases[r].kind == k
  }

  lemma {:induction false} PendingIsSize(st: State, k: Kind, n: nat)
    requires n <= |st.releases|
    ensures Pending(st, k, n) == |set r | 0 <= r < n && InFlight(st.releases[r]) && st.releases[r].kind == k|
  {
    if n == 0 {
    } else {
      PendingIsSize(st, k, n - 1);
      var before := set r | 0 <= r < n - 1 && InFlight(st.releases[r]) && st.releases[r].kind == k;
      var now := set r | 0 <= r < n && InFlight(st.releases[r]) && st.releases[r].kind == k;
      if InFlight(st.releases[n - 1]) && st.releases[n - 1].kind == k {
        assert now == before + {n - 1};
      } else {
        assert now == before;
      }
    }
  }

  /** Under every interleaving the count of a backend is the number of its releases that
      took the mutex and have not finished. */
  lemma CountIsReleasesInFlight(init: State, steps: seq<Step>, st: State, k: Kind)
    requires Reached(init, steps, st)
    ensures CountFor(st, k) == |CountedReleases(st, k)|
  {
    ReachedInv(init, steps, st);
    PendingIsSize(st, k, |st.releases|);
  }

  /** What a waiter that sees zero may rely on: every counted release of that backend has
      let go of all owners, and no thread keeps a copy of one. */
  lemma ZeroMeansSettled(init: State, steps: seq<Step>, st: State, r: nat)
    requires Reached(init, steps, st)
    requires r < |st.releases| && !st.releases[r].sync && st.releases[r].parent != Waiting
    requires CountFor(st, st.releases[r].kind) == 0
    ensures var x := st.releases[r]; x.settled == x.owners && !x.parentHas && !x.workerHas
  {
    ReachedInv(init, steps, st);
    assert ReleaseOk(st, r);
    if InFlight(st.releases[r]) {
      PendingPositive(st, st.releases[r].kind, |st.releases|, r);
    }
  }

  /** The unsigned counters never wrap. */
  lemma DecrementsArePositive(init: State, steps: seq<Step>, st: State, t: nat)
    requires Reached(init, steps, st)
    requires ParentTop(st, t, Counted) || (WorkerTop(st, t, Working) && !Now(st, t).sync)
    ensures CountFor(st, Now(st, t).kind) > 0
  {
    ReachedInv(init, steps, st);
    TopFacts(st, t);
    PendingPositive(st, Now(st, t).kind, |st.releases|, Top(st, t).r);
  }

  /** Thread `t` holds the tracker's mutex across its steps. */
  predicate Holds(st: State, t: nat) {
    t < |st.threads| && exists c :: c in st.threads[t] && c == ParentOf(c.r) && c.r == st.mutex
  }

  lemma HolderIsOnTop(st: State, t: nat)
    requires Inv(st) && Holds(st, t)
    ensures Busy(st, t) && Top(st, t).ParentOf? && Top(st, t).r == st.mutex
  {
    var c :| c in st.threads[t] && c == ParentOf(c.r) && c.r == st.mutex;
    var j: nat :| j < |st.threads[t]| && st.threads[t][j] == c;
    assert CallOk(st, t, j);
  }

  /** No deleter of an owner runs in a thread that holds the mutex: dropping the parent's
      copies is never the last reference, and whoever drops the last one holds nothing. */
  lemma DeletersRunUnlocked(init: State, steps: seq<Step>, st: State, x: Step)
    requires Reached(init, steps, st) && Enabled(st, x) && RunsDeleter(st, x)
    ensures x.DropOwner? && !Holds(st, x.t)
  {
    ReachedInv(init, steps, st);
    TopFacts(st, x.t);
    if Holds(st, x.t) {
      HolderIsOnTop(st, x.t);
    }
  }

  /** The worker's gate works: once past it, the worker drops the last references. */
  lemma WorkerDropsLast(init: State, steps: seq<Step>, st: State, t: nat)
    requires Reached(init, steps, st) && Enabled(st, DropOwner(t))
    ensures RunsDeleter(st, DropOwner(t))
  {
    ReachedInv(init, steps, st);
    TopFacts(st, t);
  }

  lemma HolderPrefix(st: State, x: Step, rest: seq<Step>)
    requires Enabled(st, x) && CanRun(Apply(st, x), rest)
    ensures CanRun(st, [x] + rest) && Run(st, [x] + rest) == Run(Apply(st, x), rest)
  {
    assert ([x] + rest)[1..] == rest;
  }

  /** The holder at `Dropped` gives the mutex back in one step, at `Started` in two. */
  lemma DroppedCanUnlock(st: State, t: nat)
    requires Enabled(st, Unlock(t))
    ensures CanRun(st, [Unlock(t)]) && Run(st, [Unlock(t)]).mutex == UNLOCKED
  {
    HolderPrefix(st, Unlock(t), []);
    assert [Unlock(t)] + [] == [Unlock(t)];
  }

  lemma StartedCanUnlock(st: State, t: nat)
    requires Enabled(st, DropCopies(t))
    ensures CanRun(st, [DropCopies(t), Unlock(t)]) && Run(st, [DropCopies(t), Unlock(t)]).mutex == UNLOCKED
  {
    DroppedCanUnlock(Apply(st, DropCopies(t)), t);
    HolderPrefix(st, DropCopies(t), [Unlock(t)]);
    assert [DropCopies(t)] + [Unlock(t)] == [DropCopies(t), Unlock(t)];
  }

  lemma CountedCanUnlock(st: State, t: nat)
    requires Enabled(st, StartWorker(t))
    ensures CanRun(st, [StartWorker(t), DropCopies(t), Unlock(t)])
    ensures Run(st, [StartWorker(t), DropCopies(t), Unlock(t)]).mutex == UNLOCKED
  {
    StartedCanUnlock(Apply(st, StartWorker(t)), t);
    HolderPrefix(st, StartWorker(t), [DropCopies(t), Unlock(t)]);
    assert [StartWorker(t)] + [DropCopies(t), Unlock(t)] == [StartWorker(t), DropCopies(t), Unlock(t)];
  }

  /** The tracker cannot deadlock: whoever holds the mutex can give it back alone. */
  lemma HolderCanUnlock(init: State, steps: seq<Step>, st: State) returns (more: seq<Step>)
    requires Reached(init, steps, st) && st.mutex != UNLOCKED
    ensures CanRun(st, more) && |more| <= 3 && Run(st, more).mutex == UNLOCKED
  {
    ReachedInv(init, steps, st);
    var r := st.mutex;
    ReleaseFacts(st, r);
    var t := st.releases[r].pAt.0;
    assert Top(st, t) == ParentOf(r);
    match st.releases[r].parent
    case Dropped =>
      DroppedCanUnlock(st, t);
      more := [Unlock(t)];
    case Started =>
      StartedCanUnlock(st, t);
      more := [DropCopies(t), Unlock(t)];
    case Counted =>
      CountedCanUnlock(st, t);
      more := [StartWorker(t), DropCopies(t), Unlock(t)];
  }

  /** A destruction that has not reached the tracker, or is still letting go without it. */
  predicate Untracked(x: Release) {
    if x.sync then Running(x.worker) else x.parent == Waiting
  }

  lemma TriggerIsInDeleter(st: State, q: nat)
    requires Inv(st) && q < |st.releases| && Untracked(st.releases[q]) && st.releases[q].trigger != NO_TRIGGER
    ensures 0 <= st.releases[q].trigger < q
    ensures st.releases[st.releases[q].trigger].worker == InDeleter
  {
    ReleaseFacts(st, q);
    var at := if st.releases[q].sync then st.releases[q].wAt else st.releases[q].pAt;
    assert CallOk(st, at.0, at.1 - 1);
  }

  /** A release whose deleter triggers another is uncounted only after the inner one is
      counted, or, when the inner one has no events, finished. */
  lemma InnerIsCountedFirst(init: State, steps: seq<Step>, st: State, r: nat, q: nat)
    requires Reached(init, steps, st) && r < |st.releases| && q < |st.releases|
    requires st.releases[q].trigger == r && !InFlight(st.releases[r]) && !st.releases[r].sync
    ensures if st.releases[q].sync then st.releases[q].worker == Gone else st.releases[q].parent != Waiting
  {
    ReachedInv(init, steps, st);
    assert ReleaseOk(st, q);
    if Untracked(st.releases[q]) {
      TriggerIsInDeleter(st, q);
    }
  }

  /** `q` was destroyed by the deleter of an event-backed release, directly or through
      buffers without events. */
  predicate UnderTracked(st: State, q: int) {
    0 <= q < |st.releases| && 0 <= st.releases[q].trigger < q
    && (!st.releases[st.releases[q].trigger].sync || UnderTracked(st, st.releases[q].trigger))
  }

  lemma {:induction false} UntrackedIsCovered(st: State, q: nat)
    requires Inv(st) && UnderTracked(st, q) && Untracked(st.releases[q])
    ensures st.cuda + st.hip > 0
    decreases q
  {
    TriggerIsInDeleter(st, q);
    var r := st.releases[q].trigger;
    if st.releases[r].sync {
      UntrackedIsCovered(st, r);
    } else {
      PendingPositive(st, st.releases[r].kind, |st.releases|, r);
      assert CountFor(st, st.releases[r].kind) > 0;
    }
  }

  /** Both counts zero: every destruction that an event-backed release set off, however
      deeply nested, has let go of all its owners. */
  lemma QuietMeansSettled(init: State, steps: seq<Step>, st: State, q: nat)
    requires Reached(init, steps, st) && st.cuda == 0 && st.hip == 0
    requires UnderTracked(st, q)
    ensures var x := st.releases[q]; x.settled == x.owners && !x.parentHas && !x.workerHas
  {
    ReachedInv(init, steps, st);
    assert ReleaseOk(st, q);
    if Untracked(st.releases[q]) {
      UntrackedIsCovered(st, q);
    } else if !st.releases[q].sync {
      ZeroMeansSettled(init, steps, st, q);
    }
  }
}
