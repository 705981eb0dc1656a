/**
 Callback rundown of OnnxInferenceNode: executor threads run the subscription callback while
 another thread runs the node's destructor.  One step is one critical section, or one action
 outside them.
 */
module Rundown {

  /** Where one callback stands: not yet in; counted; in OnTensors holding the inference
      mutex, before or after publishing; out of OnTensors; uncounted but not yet notified. */
  datatype Callback = Called | Entered | Inside | Published | Left | Notifying | Finished

  datatype Destructor = NotStarted | Checking | Asleep | Drained | IoGone | CoreDown | Destroyed

  /** `node` and `shuttingDown` are fields of the shared callback state, as is `active`.
      `hasCore` is false for a node without a model.  `holder` has the inference mutex. */
  datatype State = State(
    callbacks: seq<Callback>, active: nat, shuttingDown: bool, node: bool,
    destructor: Destructor, io: bool, hasCore: bool, holder: int)

  const NOBODY := -1

  datatype Step =
    | Arrive
    | Enter(i: nat)
    | Skip(i: nat)
    | LockInference(i: nat)
    | Publish(i: nat)
    | UnlockInference(i: nat)
    | Exit(i: nat)
    | Notify(i: nat)
    | StartShutdown
    | CheckActive
    | WakeSpuriously
    | ResetIo
    | ShutdownCore
    | Destroy

  predicate At(st: State, i: nat, c: Callback) {
    i < |st.callbacks| && st.callbacks[i] == c
  }

  predicate Enabled(st: State, x: Step) {
    match x
    case Arrive => true
    case Enter(i) => At(st, i, Called)
    // OnTensors returns at once without a core.
    case Skip(i) => At(st, i, Entered) && !st.hasCore
    case LockInference(i) => At(st, i, Entered) && st.hasCore && st.holder == NOBODY
    case Publish(i) => At(st, i, Inside)
    // Inference may throw before anything is published.
    case UnlockInference(i) => At(st, i, Inside) || At(st, i, Published)
    case Exit(i) => At(st, i, Left) && st.active > 0
    case Notify(i) => At(st, i, Notifying)
    case StartShutdown => st.destructor == NotStarted
    case CheckActive => st.destructor == Checking
    case WakeSpuriously => st.destructor == Asleep
    case ResetIo => st.destructor == Drained
    case ShutdownCore => st.destructor == IoGone
    case Destroy => st.destructor == CoreDown
  }

  function Set(st: State, i: nat, c: Callback): State
    requires i < |st.callbacks|
  {
    st.(callbacks := st.callbacks[i := c])
  }

  function Apply(st: State, x: Step): State
    requires Enabled(st, x)
  {
    match x
    case Arrive => st.(callbacks := st.callbacks + [Called])
    case Enter(i) =>
      if st.shuttingDown || !st.node then Set(st, i, Finished)
      else Set(st, i, Entered).(active := st.active + 1)
    case Skip(i) => Set(st, i, Left)
    case LockInference(i) => Set(st, i, Inside).(holder := i)
    case Publish(i) => Set(st, i, Published)
    case UnlockInference(i) => Set(st, i, Left).(holder := NOBODY)
    case Exit(i) => Set(st, i, Notifying).(active := st.active - 1)
    case Notify(i) =>
      var t := Set(st, i, Finished);
      if st.destructor == Asleep then t.(destructor := Checking) else t
    case StartShutdown => st.(shuttingDown := true, node := false, destructor := Checking)
    case CheckActive => st.(destructor := if st.active == 0 then Drained else Asleep)
    case WakeSpuriously => st.(destructor := Checking)
    case ResetIo => st.(io := false, destructor := IoGone)
    case ShutdownCore => st.(destructor := CoreDown)
    case Destroy => st.(destructor := Destroyed)
  }

  ghost predicate Init(st: State) {
    st.callbacks == [] && st.active == 0 && !st.shuttingDown && st.node && st.destructor == NotStarted && st.io
    && st.holder == NOBODY
  }

  predicate CanRun(st: State, steps: seq<Step>)
    decreases |steps|
  {
    steps == [] || (Enabled(st, steps[0]) && CanRun(Apply(st, steps[0]), steps[1..]))
  }

  function Run(st: State, steps: seq<Step>): State
    requires CanRun(st, steps)
    decreases |steps|
  {
    if steps == [] then st else Run(Apply(st, steps[0]), steps[1..])
  }

  ghost predicate Reached(init: State, steps: seq<Step>, st: State) {
    Init(init) && CanRun(init, steps) && st == Run(init, steps)
  }

  // ---------- The invariant

  /** Between entry and exit: the callback uses the node. */
  predicate UsesNode(c: Callback) {
    c == Entered || c == Inside || c == Published || c == Left
  }

  function CountUsers(cs: seq<Callback>): nat {
    if cs == [] then 0 else CountUsers(cs[..|cs| - 1]) + if UsesNode(cs[|cs| - 1]) then 1 else 0
  }

  /** The destructor may still be waiting, or has passed its wait. */
  predicate Waiting(d: Destructor) {
    d == NotStarted || d == Checking || d == Asleep
  }

  ghost predicate Inv(st: State) {
    && st.active == CountUsers(st.callbacks)
    && (st.shuttingDown <==> st.destructor != NotStarted) && (st.node <==> !st.shuttingDown)
    && (st.io <==> Waiting(st.destructor) || st.destructor == Drained)
    && (!Waiting(st.destructor) ==> st.active == 0)
    && HolderOk(st)
    && (st.destructor == Asleep && st.active == 0 ==> SomeoneNotifies(st.callbacks))
  }

  predicate HoldsInference(c: Callback) { c == Inside || c == Published }

  ghost predicate HolderOk(st: State) {
    && (st.holder == NOBODY || (0 <= st.holder < |st.callbacks| && HoldsInference(st.callbacks[st.holder])))
    && (forall i :: 0 <= i < |st.callbacks| && HoldsInference(st.callbacks[i]) ==> i == st.holder && st.hasCore)
  }

  lemma {:induction false} CountUpdate(cs: seq<Callback>, i: nat, c: Callback)
    requires i < |cs|
    ensures CountUsers(cs[i := c]) ==
            CountUsers(cs) + (if UsesNode(c) then 1 else 0) - (if UsesNode(cs[i]) then 1 else 0)
  {
    var n := |cs| - 1;
    if i < n {
      CountUpdate(cs[..n], i, c);
      assert cs[i := c][..n] == cs[..n][i := c];
    } else {
      assert cs[i := c][..n] == cs[..n];
    }
  }

  lemma {:induction false} CountZero(cs: seq<Callback>, i: nat)
    requires i < |cs| && CountUsers(cs) == 0
    ensures !UsesNode(cs[i])
  {
    var n := |cs| - 1;
    if i < n {
      CountZero(cs[..n], i);
    }
  }

  predicate HasCallback(x: Step) {
    x.Enter? || x.Skip? || x.LockInference? || x.Publish? || x.UnlockInference? || x.Exit? || x.Notify?
  }

  predicate SomeoneNotifies(cs: seq<Callback>) {
    exists i :: 0 <= i < |cs| && cs[i] == Notifying
  }

  lemma CallbackKeepsCount(st: State, x: Step)
    requires Inv(st) && Enabled(st, x) && HasCallback(x)
    ensures var t := Apply(st, x); t.active == CountUsers(t.callbacks) && (!Waiting(t.destructor) ==> t.active == 0)
  {
    CountUpdate(st.callbacks, x.i, Apply(st, x).callbacks[x.i]);
    if CountUsers(st.callbacks) == 0 { CountZero(st.callbacks, x.i); }
  }

  lemma NotifierStays(st: State, x: Step)
    requires Inv(st) && Enabled(st, x) && HasCallback(x)
    requires Apply(st, x).destructor == Asleep && Apply(st, x).active == 0
    ensures SomeoneNotifies(Apply(st, x).callbacks)
  {
    var t := Apply(st, x);
    if st.active == 0 {
      var i :| 0 <= i < |st.callbacks| && st.callbacks[i] == Notifying;
      assert t.callbacks[i] == Notifying;
    } else {
      assert t.callbacks[x.i] == Notifying;
    }
  }

  lemma ArrivalKeeps(st: State)
    requires Inv(st)
    ensures Inv(Apply(st, Arrive))
  {
    var t := Apply(st, Arrive);
    assert t.callbacks[..|t.callbacks| - 1] == st.callbacks;
    if st.destructor == Asleep && st.active == 0 {
      var i :| 0 <= i < |st.callbacks| && st.callbacks[i] == Notifying;
      assert t.callbacks[i] == Notifying;
    }
  }

  lemma CallbackKeepsHolder(st: State, x: Step)
    requires Inv(st) && Enabled(st, x) && HasCallback(x)
    ensures HolderOk(Apply(st, x))
  {}

  lemma StepKeeps(st: State, x: Step)
    requires Inv(st) && Enabled(st, x)
    ensures Inv(Apply(st, x))
  {
    var t := Apply(st, x);
    if HasCallback(x) {
      CallbackKeepsCount(st, x);
      CallbackKeepsHolder(st, x);
      if t.destructor == Asleep && t.active == 0 { NotifierStays(st, x); }
    } else if x.Arrive? {
      ArrivalKeeps(st);
    }
  }

  lemma {:induction false} RunKeeps(st: State, steps: seq<Step>)
    requires Inv(st) && CanRun(st, steps)
    ensures Inv(Run(st, steps))
    decreases |steps|
  {
    if steps == [] {
    } else {
      StepKeeps(st, steps[0]);
      RunKeeps(Apply(st, steps[0]), steps[1..]);
    }
  }

  lemma ReachedInv(init: State, steps: seq<Step>, st: State)
    requires Reached(init, steps, st)
    ensures Inv(st)
  {
    RunKeeps(init, steps);
  }

  // ---------- What every run guarantees

  function Users(st: State): set<nat> {
    set i | 0 <= i < |st.callbacks| && UsesNode(st.callbacks[i])
  }

  lemma {:induction false} CountIsSize(cs: seq<Callback>)
    ensures CountUsers(cs) == |set i | 0 <= i < |cs| && UsesNode(cs[i])|
  {
    if cs == [] {
    } else {
      var n := |cs| - 1;
      CountIsSize(cs[..n]);
      var before := set i | 0 <= i < n && UsesNode(cs[..n][i]);
      var now := set i | 0 <= i < |cs| && UsesNode(cs[i]);
      assert forall i :: 0 <= i < n ==> cs[..n][i] == cs[i];
      if UsesNode(cs[n]) {
        assert now == before + {n};
      } else {
        assert now == before;
      }
    }
  }

  /** The active count is the number of callbacks between entry and exit. */
  lemma ActiveIsUsers(init: State, steps: seq<Step>, st: State)
    requires Reached(init, steps, st)
    ensures st.active == |Users(st)|
  {
    ReachedInv(init, steps, st);
    CountIsSize(st.callbacks);
  }

  /** The node pointer a callback took stays valid for as long as it uses it, and whoever is
      in OnTensors still has the IO. */
  lemma UsersHaveNodeAndIo(init: State, steps: seq<Step>, st: State, i: nat)
    requires Reached(init, steps, st) && i < |st.callbacks| && UsesNode(st.callbacks[i])
    ensures Waiting(st.destructor) && st.io
  {
    ReachedInv(init, steps, st);
    if st.active == 0 {
      CountZero(st.callbacks, i);
    }
  }

  /** After the destructor's wait no callback is in and none gets in. */
  lemma DrainedForGood(init: State, steps: seq<Step>, st: State, x: Step)
    requires Reached(init, steps, st) && !Waiting(st.destructor) && Enabled(st, x)
    ensures Users(st) == {} && Users(Apply(st, x)) == {} && !Waiting(Apply(st, x).destructor)
    ensures !x.Publish? && !x.LockInference?
  {
    ActiveIsUsers(init, steps, st);
    ReachedInv(init, steps, st);
    assert Users(st) == {};
    assert forall i :: 0 <= i < |st.callbacks| ==> i in Users(st) || !UsesNode(st.callbacks[i]);
    StepKeeps(st, x);
    CountIsSize(Apply(st, x).callbacks);
  }

  /** Once shutdown has begun the active count never rises again. */
  lemma {:induction false} ActiveNeverRises(st: State, steps: seq<Step>)
    requires st.shuttingDown && CanRun(st, steps)
    ensures Run(st, steps).shuttingDown && Run(st, steps).active <= st.active
    decreases |steps|
  {
    if steps == [] {
    } else {
      ActiveNeverRises(Apply(st, steps[0]), steps[1..]);
    }
  }

  // ---------- Termination

  function CallbackRank(c: Callback): nat {
    match c
    case Called => 6
    case Entered => 5
    case Inside => 4
    case Published => 3
    case Left => 2
    case Notifying => 1
    case Finished => 0
  }

  function DestructorRank(d: Destructor): nat {
    match d
    case NotStarted => 6
    case Checking => 5
    case Asleep => 4
    case Drained => 3
    case IoGone => 2
    case CoreDown => 1
    case Destroyed => 0
  }

  function SumRanks(cs: seq<Callback>): nat {
    if cs == [] then 0 else SumRanks(cs[..|cs| - 1]) + CallbackRank(cs[|cs| - 1])
  }

  /** What is left to do.  A notification may wake the destructor, which costs one. */
  function Rank(st: State): nat {
    2 * SumRanks(st.callbacks) + DestructorRank(st.destructor)
  }

  lemma {:induction false} RankUpdate(cs: seq<Callback>, i: nat, c: Callback)
    requires i < |cs|
    ensures SumRanks(cs[i := c]) == SumRanks(cs) + CallbackRank(c) - CallbackRank(cs[i])
  {
    var n := |cs| - 1;
    if i < n {
      RankUpdate(cs[..n], i, c);
      assert cs[i := c][..n] == cs[..n][i := c];
    } else {
      assert cs[i := c][..n] == cs[..n];
    }
  }

  /** No new message arrives and nobody wakes without a notification. */
  predicate Progress(x: Step) {
    !x.Arrive? && !x.WakeSpuriously?
  }

  lemma ProgressLowersRank(st: State, x: Step)
    requires Enabled(st, x) && Progress(x)
    ensures Rank(Apply(st, x)) < Rank(st)
  {
    if HasCallback(x) {
      RankUpdate(st.callbacks, x.i, Apply(st, x).callbacks[x.i]);
    }
  }

  /** So the number of steps left is bounded, whatever the schedule. */
  lemma {:induction false} RunsAreBounded(st: State, steps: seq<Step>)
    requires CanRun(st, steps) && forall k :: 0 <= k < |steps| ==> Progress(steps[k])
    ensures |steps| + Rank(Run(st, steps)) <= Rank(st)
    decreases |steps|
  {
    if steps == [] {
    } else {
      ProgressLowersRank(st, steps[0]);
      RunsAreBounded(Apply(st, steps[0]), steps[1..]);
    }
  }

  /** And nobody is ever stuck: while the destructor has not returned, or a callback has not
      finished, some step is possible.  A sleeping destructor always has a user or a pending
      notification to wait for, so no wake-up is lost. */
  lemma NeverStuck(init: State, steps: seq<Step>, st: State) returns (x: Step)
    requires Reached(init, steps, st)
    requires st.destructor != Destroyed || exists i :: 0 <= i < |st.callbacks| && st.callbacks[i] != Finished
    ensures Enabled(st, x) && Progress(x)
  {
    ReachedInv(init, steps, st);
    if i: nat :| i < |st.callbacks| && st.callbacks[i] != Finished {
      x := NextOf(st, i);
    } else {
      match st.destructor {
        case NotStarted => x := StartShutdown;
        case Checking => x := CheckActive;
        case Drained => x := ResetIo;
        case IoGone => x := ShutdownCore;
        case CoreDown => x := Destroy;
        case Asleep =>
          AllFinished(st.callbacks);
          assert false;
      }
    }
  }

  lemma {:induction false} AllFinished(cs: seq<Callback>)
    requires forall i :: 0 <= i < |cs| ==> cs[i] == Finished
    ensures CountUsers(cs) == 0
  {
    if cs == [] {
    } else {
      AllFinished(cs[..|cs| - 1]);
    }
  }

  /** A callback that waits for the inference mutex is waiting for one that can go on. */
  lemma NextOf(st: State, i: nat) returns (x: Step)
    requires Inv(st) && i < |st.callbacks| && st.callbacks[i] != Finished
    ensures Enabled(st, x) && Progress(x)
  {
    match st.callbacks[i] {
      case Called => x := Enter(i);
      case Entered =>
        x := if !st.hasCore then Skip(i) else if st.holder == NOBODY then LockInference(i)
            else UnlockInference(st.holder);
      case Inside => x := Publish(i);
      case Published => x := UnlockInference(i);
      case Left =>
        if st.active == 0 { CountZero(st.callbacks, i); }
        x := Exit(i);
      case Notifying => x := Notify(i);
    }
  }
}
