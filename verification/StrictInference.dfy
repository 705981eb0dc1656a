/**
 RunStrictManagedInference: a block reserved from each of n output pools, then bound, submitted
 and finalized, or rolled back, while other threads drop outputs of earlier calls.
 */
module StrictInference {

  import opened BufferModel

  /** Where a block of an output pool is.  The last three are for good: its buffer's orphan
      flag was set here; selecting the device failed while a call dropped its buffer; or the
      same, or unfinished reads, when a consumer dropped it. */
  datatype Place = Free | InCall | Lent | Withheld | Lost | Abandoned

  datatype PoolBlocks = PoolBlocks(place: seq<Place>, stopping: bool)
  {
    function Put(block: nat, p: Place): PoolBlocks
      requires block < |place|
    {
      this.(place := place[block := p])
    }

    predicate Exhausted() {
      forall b :: 0 <= b < |place| ==> place[b] != Free
    }

    predicate Drained() {
      forall b :: 0 <= b < |place| ==> place[b] == Free
    }

    predicate Idle() {
      forall b :: 0 <= b < |place| ==> place[b] != InCall
    }
  }

  /** A reserved block: its buffer as a value of BufferModel, and whether its synchronized
      writer still answers for it. */
  datatype Reservation = Reservation(block: nat, buffer: Buffer, responsible: bool)
  {
    /** SynchronizedWriteHandle::cancel, and fail if it throws. */
    function CancelOrFail(): Reservation {
      if !responsible then this
      else if buffer.phase == Writing then this.(buffer := buffer.Cancel(), responsible := false)
      else Fail()
    }

    /** SynchronizedWriteHandle::fail, also what its destructor does. */
    function Fail(): Reservation {
      if !responsible then this else this.(buffer := buffer.FailWriter(), responsible := false)
    }
  }

  function Reserved(block: nat): Reservation {
    Reservation(block, FRESH.OpenSynchronizedWriter(), true)
  }

  function ReadySynchronously(block: nat): Reservation {
    Reservation(block, FRESH.OpenSynchronizedWriter().FinalizeSynchronously(), false)
  }

  datatype Outcome =
    | Unhealthy
    | BadInput
    | NotReserved(exhausted: Option<nat>)
    | NotSubmitted
    | FailedAfterSubmission
    | Returned(outputs: seq<Reservation>)

  /** The core between calls; `selectionFailures` counts the device selections that failed in
      calls so far. */
  datatype Core = Core(healthy: bool, drops: nat, selectionFailures: nat, pools: seq<PoolBlocks>)

  // ---------- What a call may do to one pool

  /** What may happen to a block that the call does not hold: a consumer drops its output. */
  predicate Allowed(from: Place, to: Place) {
    to == from || (from == Lent && (to == Free || to == Abandoned))
  }

  ghost predicate Drift(a: PoolBlocks, b: PoolBlocks) {
    && |b.place| == |a.place| && b.stopping == a.stopping
    && forall y :: 0 <= y < |a.place| ==> Allowed(a.place[y], b.place[y])
  }

  /** What the call did to a pool: nothing, or it took a block and left it in `place`. */
  datatype Fate = Untouched | Took(block: nat, place: Place)

  /** From `a` to `b` the call left its block as `fate` says, and nothing but consumers moved
      any other. */
  ghost predicate PoolStep(a: PoolBlocks, b: PoolBlocks, fate: Fate) {
    match fate
    case Untouched => Drift(a, b)
    case Took(x, p) =>
      && |b.place| == |a.place| && b.stopping == a.stopping && x < |a.place|
      && (a.place[x] == Free || a.place[x] == Lent) && b.place[x] == p
      && forall y :: 0 <= y < |a.place| && y != x ==> Allowed(a.place[y], b.place[y])
  }

  ghost predicate PoolsStep(a: seq<PoolBlocks>, b: seq<PoolBlocks>, fates: seq<Fate>) {
    |b| == |a| == |fates| && forall i :: 0 <= i < |a| ==> PoolStep(a[i], b[i], fates[i])
  }

  /** The block was given back, unless a device could not be selected. */
  predicate GivenBack(f: Fate) { f.Took? && (f.place == Free || f.place == Lost) }

  predicate Kept(f: Fate) { f.Took? && f.place == Withheld }

  function LostIn(fates: seq<Fate>): nat {
    if fates == [] then 0
    else LostIn(fates[..|fates| - 1]) + if fates[|fates| - 1].Took? && fates[|fates| - 1].place == Lost then 1 else 0
  }

  /** The transaction, as its callers see it.  Blocks are lost to failed device selections
      only, one each.  A failure after submission withholds the block of every pool when no
      writer was finalized, and of none when all were. */
  ghost predicate CallStep(a: Core, b: Core, r: Outcome, fates: seq<Fate>) {
    && PoolsStep(a.pools, b.pools, fates)
    && b.selectionFailures == a.selectionFailures + LostIn(fates)
    && (r == Unhealthy <==> !a.healthy)
    && (b.healthy <==> r == BadInput || r.NotReserved? || r.Returned?)
    && b.drops == a.drops + (if r.NotReserved? && r.exhausted.Some? then 1 else 0)
    && match r
       case Unhealthy => b.pools == a.pools && forall i :: 0 <= i < |fates| ==> fates[i] == Untouched
       case BadInput => b.pools == a.pools && forall i :: 0 <= i < |fates| ==> fates[i] == Untouched
       case NotReserved(exhausted) =>
         && (forall i :: 0 <= i < |fates| ==> fates[i] == Untouched || GivenBack(fates[i]))
         && (exhausted.Some? ==>
               && exhausted.value < |a.pools| && a.pools[exhausted.value].Exhausted()
               && (forall i :: 0 <= i < exhausted.value ==> fates[i].Took?)
               && (forall i :: exhausted.value <= i < |fates| ==> fates[i] == Untouched))
       case NotSubmitted => forall i :: 0 <= i < |fates| ==> GivenBack(fates[i])
       case FailedAfterSubmission =>
         || (forall i :: 0 <= i < |fates| ==> Kept(fates[i]))
         || (forall i :: 0 <= i < |fates| ==> GivenBack(fates[i]))
       case Returned(outputs) =>
         && |outputs| == |fates|
         && forall i :: 0 <= i < |fates| ==>
                          outputs[i] == ReadySynchronously(outputs[i].block) && fates[i] == Took(outputs[i].block, Lent)
  }

  // ---------- How fates compose

  lemma DriftFollows(a: PoolBlocks, b: PoolBlocks, c: PoolBlocks, fate: Fate)
    requires PoolStep(a, b, fate) && Drift(b, c) && (fate.Took? ==> fate.place != Lent)
    ensures PoolStep(a, c, fate)
  {}

  lemma DriftsFollow(a: seq<PoolBlocks>, b: seq<PoolBlocks>, c: seq<PoolBlocks>, fates: seq<Fate>)
    requires PoolsStep(a, b, fates) && |c| == |b| && forall i :: 0 <= i < |b| ==> Drift(b[i], c[i])
    requires NoneLent(fates)
    ensures PoolsStep(a, c, fates)
  {
    forall i | 0 <= i < |a|
      ensures PoolStep(a[i], c[i], fates[i])
    {
      DriftFollows(a[i], b[i], c[i], fates[i]);
    }
  }

  /** Taking a free block of a pool the call has not touched, or moving the one it took. */
  lemma PutFollows(a: PoolBlocks, b: PoolBlocks, fate: Fate, x: nat, p: Place)
    requires PoolStep(a, b, fate) && x < |b.place|
    requires if fate == Untouched then b.place[x] == Free else fate.block == x
    ensures PoolStep(a, b.Put(x, p), Took(x, p))
  {}

  lemma PutsFollow(a: seq<PoolBlocks>, b: seq<PoolBlocks>, fates: seq<Fate>, i: nat, x: nat, p: Place)
    requires PoolsStep(a, b, fates) && i < |b| && x < |b[i].place|
    requires if fates[i] == Untouched then b[i].place[x] == Free else fates[i].block == x
    ensures PoolsStep(a, b[i := b[i].Put(x, p)], fates[i := Took(x, p)])
  {
    PutFollows(a[i], b[i], fates[i], x, p);
  }

  lemma {:induction false} LostInUpdate(fates: seq<Fate>, i: nat, f: Fate)
    requires i < |fates| && !(fates[i].Took? && fates[i].place == Lost)
    ensures LostIn(fates[i := f]) == LostIn(fates) + if f.Took? && f.place == Lost then 1 else 0
  {
    var n := |fates| - 1;
    if i < n {
      LostInUpdate(fates[..n], i, f);
      assert fates[i := f][..n] == fates[..n][i := f];
    } else {
      assert fates[i := f][..n] == fates[..n];
    }
  }

  lemma {:induction false} NoneLost(fates: seq<Fate>)
    requires forall i :: 0 <= i < |fates| ==> fates[i].Took? ==> fates[i].place != Lost
    ensures LostIn(fates) == 0
  {
    if fates == [] {
    } else {
      NoneLost(fates[..|fates| - 1]);
    }
  }

  /** The fate of a pool before the call reaches it. */
  function AllUntouched(n: nat): seq<Fate> {
    seq(n, i => Untouched)
  }

  lemma UntouchedPools(pools: seq<PoolBlocks>)
    ensures PoolsStep(pools, pools, AllUntouched(|pools|)) && LostIn(AllUntouched(|pools|)) == 0
  {
    NoneLost(AllUntouched(|pools|));
  }

  /** The first |rs| pools gave the blocks of the reservations, which the call still holds. */
  predicate Holds(rs: seq<Reservation>, fates: seq<Fate>) {
    |rs| <= |fates| && forall i :: 0 <= i < |rs| ==> fates[i] == Took(rs[i].block, InCall)
  }

  /** Nothing has been handed out yet. */
  predicate NoneLent(fates: seq<Fate>) {
    forall i :: 0 <= i < |fates| ==> fates[i].Took? ==> fates[i].place != Lent
  }

  /** What dropping the buffer of reservation `r` leads to. */
  predicate Dropped(r: Reservation, f: Fate) {
    if r.buffer.mustOrphan then Kept(f) else GivenBack(f)
  }

  class OnnxInferenceCore {
    var strictHealthy: bool
    var poolExhaustionDrops: nat
    var selectionFailures: nat
    var pools: seq<PoolBlocks>

    function View(): Core
      reads this
    {
      Core(strictHealthy, poolExhaustionDrops, selectionFailures, pools)
    }

    /** No call is in progress. */
    ghost predicate Valid()
      reads this
    {
      forall i :: 0 <= i < |pools| ==> pools[i].Idle()
    }

    constructor (capacities: seq<nat>)
      ensures Valid() && View() == Start(capacities)
    {
      strictHealthy, poolExhaustionDrops, selectionFailures := true, 0, 0;
      pools := Start(capacities).pools;
    }

    /** Any number of outputs of earlier calls are dropped, each with or without success. */
    method ConsumersRun()
      modifies `pools
      ensures |pools| == |old(pools)| && forall i :: 0 <= i < |pools| ==> Drift(old(pools)[i], pools[i])
    {
      var drops: int := *;
      while drops > 0
        invariant |pools| == |old(pools)| && forall i :: 0 <= i < |pools| ==> Drift(old(pools)[i], pools[i])
      {
        drops := drops - 1;
        var i: nat, block: nat, safe: bool := *, *, *;
        if i < |pools| && block < |pools[i].place| && pools[i].place[block] == Lent {
          pools := pools[i := pools[i].Put(block, if safe then Free else Abandoned)];
        }
      }
    }

    /** The same in the middle of a call. */
    method OthersRun(ghost before: seq<PoolBlocks>, ghost fates: seq<Fate>)
      requires PoolsStep(before, pools, fates) && NoneLent(fates)
      modifies `pools
      ensures PoolsStep(before, pools, fates)
    {
      ghost var was := pools;
      ConsumersRun();
      DriftsFollow(before, was, pools, fates);
    }

    /** A reserved block leaves the call: its buffer is dropped. */
    method DropReserved(i: nat, r: Reservation, ghost before: seq<PoolBlocks>, ghost fates: seq<Fate>)
      returns (ghost after: seq<Fate>)
      requires i < |pools| && PoolsStep(before, pools, fates) && fates[i] == Took(r.block, InCall)
      modifies `pools, `selectionFailures
      ensures PoolsStep(before, pools, after) && after == fates[i := after[i]]
      ensures Dropped(r, after[i])
      ensures selectionFailures + LostIn(fates) == old(selectionFailures) + LostIn(after)
    {
      var p := Withheld;
      if !r.buffer.mustOrphan {
        var selected: bool := *;
        p := if selected then Free else Lost;
        selectionFailures := selectionFailures + if selected then 0 else 1;
      }
      PutsFollow(before, pools, fates, i, r.block, p);
      LostInUpdate(fates, i, Took(r.block, p));
      pools := pools[i := pools[i].Put(r.block, p)];
      after := fates[i := Took(r.block, p)];
    }

    /** One block of pool `index`, after consumers had time to return some.  `exhausted`: the
        wait timed out.  Otherwise the pool may be stopping or fail after taking the index. */
    method Acquire(index: nat, ghost before: seq<PoolBlocks>, ghost fates: seq<Fate>)
      returns (got: Option<Reservation>, exhausted: bool, ghost after: seq<Fate>)
      requires index < |pools| && PoolsStep(before, pools, fates) && fates[index] == Untouched
      requires NoneLent(fates)
      modifies `pools, `selectionFailures
      ensures PoolsStep(before, pools, after) && after == fates[index := after[index]]
      ensures got.Some? ==> got.value == Reserved(got.value.block) && after[index] == Took(got.value.block, InCall)
      ensures got.None? ==> after[index] == Untouched || GivenBack(after[index])
      ensures exhausted ==> got.None? && after[index] == Untouched && before[index].Exhausted()
      ensures selectionFailures + LostIn(fates) == old(selectionFailures) + LostIn(after)
    {
      OthersRun(before, fates);
      after := fates;
      if pools[index].stopping {
        return None, false, after;
      }
      if pools[index].Exhausted() {
        return None, true, after;
      }
      var block :| 0 <= block < |pools[index].place| && pools[index].place[block] == Free;
      PutsFollow(before, pools, after, index, block, InCall);
      LostInUpdate(after, index, Took(block, InCall));
      pools := pools[index := pools[index].Put(block, InCall)];
      after := after[index := Took(block, InCall)];
      // Allocation inside the pool may throw; its buffer is then dropped.
      var made: bool := *;
      if made {
        got, exhausted := Some(Reserved(block)), false;
      } else {
        after := DropReserved(index, Reservation(block, FRESH, false), before, after);
        got, exhausted := None, false;
      }
    }

    /** The reservation loop.  `exhausted` is the pool whose wait timed out, which alone counts
        a drop; every other way to stop is an exception. */
    method Reserve() returns (ok: bool, rs: seq<Reservation>, exhausted: Option<nat>, ghost fates: seq<Fate>)
      modifies `pools, `poolExhaustionDrops, `selectionFailures
      ensures PoolsStep(old(pools), pools, fates) && Holds(rs, fates)
      ensures forall i :: 0 <= i < |rs| ==> rs[i] == Reserved(rs[i].block)
      ensures forall i :: |rs| <= i < |fates| ==> fates[i] == Untouched || (i == |rs| && GivenBack(fates[i]))
      ensures ok ==> |rs| == |pools|
      ensures poolExhaustionDrops == old(poolExhaustionDrops) + (if exhausted.Some? then 1 else 0)
      ensures exhausted.Some? ==>
                && !ok && exhausted == Some(|rs|) && |rs| < |pools|
                && fates[|rs|] == Untouched && old(pools)[|rs|].Exhausted()
      ensures selectionFailures == old(selectionFailures) + LostIn(fates)
    {
      ok, rs, exhausted, fates := true, [], None, AllUntouched(|pools|);
      ghost var before := pools;
      UntouchedPools(pools);
      for index := 0 to |pools|
        invariant ok && exhausted == None && |rs| == index && poolExhaustionDrops == old(poolExhaustionDrops)
        invariant PoolsStep(before, pools, fates) && Holds(rs, fates)
        invariant forall i :: 0 <= i < index ==> rs[i] == Reserved(rs[i].block)
        invariant forall i :: index <= i < |fates| ==> fates[i] == Untouched
        invariant selectionFailures == old(selectionFailures) + LostIn(fates)
      {
        var got, timedOut;
        got, timedOut, fates := Acquire(index, before, fates);
        if got.None? {
          if timedOut {
            poolExhaustionDrops := poolExhaustionDrops + 1;
            exhausted := Some(index);
          }
          ok := false;
          return;
        }
        rs := rs + [got.value];
        // The block may be too small, or the tensor over it refused.
        var bound: bool := *;
        if !bound {
          ok := false;
          return;
        }
      }
    }

    /** The handles go out of scope: a writer still responsible fails its buffer, and every
        buffer without another holder is destroyed. */
    method Unwind(rs: seq<Reservation>, ghost before: seq<PoolBlocks>, ghost fates: seq<Fate>)
      returns (ghost after: seq<Fate>)
      requires PoolsStep(before, pools, fates) && Holds(rs, fates)
      requires forall i :: |rs| <= i < |fates| ==> fates[i] == Untouched || GivenBack(fates[i])
      modifies `pools, `selectionFailures
      ensures PoolsStep(before, pools, after)
      ensures forall i :: |rs| <= i < |after| ==> after[i] == fates[i]
      ensures forall i :: 0 <= i < |rs| ==> Dropped(rs[i].Fail(), after[i])
      ensures selectionFailures + LostIn(fates) == old(selectionFailures) + LostIn(after)
    {
      after := fates;
      for k := 0 to |rs|
        invariant PoolsStep(before, pools, after)
        invariant forall i :: k <= i < |after| ==> after[i] == fates[i]
        invariant NoneLent(after)
        invariant forall i :: 0 <= i < k ==> Dropped(rs[i].Fail(), after[i])
        invariant selectionFailures + LostIn(fates) == old(selectionFailures) + LostIn(after)
      {
        OthersRun(before, after);
        after := DropReserved(k, rs[k].Fail(), before, after);
      }
    }

    method RunStrictManagedInference(inputsAccepted: bool) returns (r: Outcome, ghost fates: seq<Fate>)
      requires Valid()
      modifies this
      ensures CallStep(old(View()), View(), r, fates)
      ensures Valid()
      ensures old(strictHealthy) ==> (r == BadInput <==> !inputsAccepted)
    {
      UntouchedPools(pools);
      if !strictHealthy {
        return Unhealthy, AllUntouched(|pools|);
      }
      if !inputsAccepted {
        return BadInput, AllUntouched(|pools|);
      }
      ghost var a := View();
      var ok, rs, exhausted;
      ok, rs, exhausted, fates := Reserve();
      if ok {
        r, fates := SubmitReserved(rs, a, fates);
      } else {
        fates := CancelAll(rs, exhausted, a, fates);
        r := NotReserved(exhausted);
      }
      CallLeavesIdle(a, View(), r, fates);
    }

    /** The reservation loop was left early. */
    method CancelAll(reserved: seq<Reservation>, exhausted: Option<nat>, ghost a: Core, ghost held: seq<Fate>)
      returns (ghost fates: seq<Fate>)
      requires strictHealthy && a.healthy && poolExhaustionDrops == a.drops + (if exhausted.Some? then 1 else 0)
      requires PoolsStep(a.pools, pools, held) && Holds(reserved, held)
      requires forall i :: 0 <= i < |reserved| ==> reserved[i] == Reserved(reserved[i].block)
      requires forall i :: |reserved| <= i < |held| ==> held[i] == Untouched || (i == |reserved| && GivenBack(held[i]))
      requires exhausted.Some? ==>
                 && exhausted == Some(|reserved|) && |reserved| < |held|
                 && held[|reserved|] == Untouched && a.pools[|reserved|].Exhausted()
      requires selectionFailures == a.selectionFailures + LostIn(held)
      modifies `pools, `selectionFailures
      ensures CallStep(a, View(), NotReserved(exhausted), fates)
    {
      var rs := CancelReservations(reserved);
      AfterRollBack(reserved, rs, false, false);
      fates := Unwind(rs, a.pools, held);
    }

    /** From binding to the returned outputs, with every block reserved; `a` is the core
        before the call. */
    method SubmitReserved(reserved: seq<Reservation>, ghost a: Core, ghost held: seq<Fate>)
      returns (r: Outcome, ghost fates: seq<Fate>)
      requires strictHealthy && a.healthy && poolExhaustionDrops == a.drops
      requires PoolsStep(a.pools, pools, held) && Holds(reserved, held) && |reserved| == |held|
      requires forall i :: 0 <= i < |reserved| ==> reserved[i] == Reserved(reserved[i].block)
      requires selectionFailures == a.selectionFailures + LostIn(held)
      modifies `strictHealthy, `pools, `selectionFailures
      ensures r == NotSubmitted || r == FailedAfterSubmission || r.Returned?
      ensures CallStep(a, View(), r, fates)
    {
      var rs, submitted, finalized := reserved, false, false;
      // Binding, and synchronizing the inputs.
      var prepared: bool, ran: bool, reported: bool := *, *, *;
      if prepared {
        submitted := true;
        // Run, synchronizing the outputs, and checking what came back.
        if ran {
          rs, finalized := FinalizeAll(rs);
          // Writing the binding report may fail after every buffer became ready.
          if reported {
            fates := Lend(rs, a.pools, held);
            return Returned(rs), fates;
          }
        }
      }
      strictHealthy := false;
      ghost var was := rs;
      rs := RollBack(rs, submitted);
      AfterRollBack(was, rs, submitted, finalized);
      fates := Unwind(rs, a.pools, held);
      r := if submitted then FailedAfterSubmission else NotSubmitted;
      RolledBack(a, View(), rs, fates, submitted, finalized);
    }

    /** The caller gets the outputs: from here on other threads may drop them. */
    method Lend(rs: seq<Reservation>, ghost before: seq<PoolBlocks>, ghost held: seq<Fate>)
      returns (ghost fates: seq<Fate>)
      requires PoolsStep(before, pools, held) && Holds(rs, held) && |rs| == |held|
      modifies `pools
      ensures PoolsStep(before, pools, fates) && LostIn(fates) == LostIn(held)
      ensures forall i :: 0 <= i < |fates| ==> fates[i] == Took(rs[i].block, Lent)
    {
      fates := held;
      for i := 0 to |rs|
        invariant PoolsStep(before, pools, fates) && LostIn(fates) == LostIn(held)
        invariant forall k :: 0 <= k < i ==> fates[k] == Took(rs[k].block, Lent)
        invariant forall k :: i <= k < |fates| ==> fates[k] == held[k]
      {
        PutsFollow(before, pools, fates, i, rs[i].block, Lent);
        LostInUpdate(fates, i, Took(rs[i].block, Lent));
        pools := pools[i := pools[i].Put(rs[i].block, Lent)];
        fates := fates[i := Took(rs[i].block, Lent)];
      }
    }

    /** Draining is asked of every pool, also after one fails to drain. */
    method Shutdown() returns (drained: bool)
      requires Valid()
      modifies `pools
      ensures Valid() && ShutdownStep(old(View()), View())
      ensures drained <==> forall i :: 0 <= i < |pools| ==> pools[i].Drained()
    {
      drained := true;
      for i := 0 to |pools|
        invariant |pools| == |old(pools)|
        invariant forall k :: 0 <= k < i ==> pools[k] == old(pools)[k].(stopping := true)
        invariant forall k :: i <= k < |pools| ==> pools[k] == old(pools)[k]
        invariant drained <==> forall k :: 0 <= k < i ==> pools[k].Drained()
      {
        pools := pools[i := pools[i].(stopping := true)];
        if !pools[i].Drained() {
          drained := false;
        }
      }
    }
  }

  function Start(capacities: seq<nat>): Core {
    Core(true, 0, 0, seq(|capacities|, i requires 0 <= i < |capacities| =>
                           PoolBlocks(seq(capacities[i], k => Free), false)))
  }

  // ---------- The loops over the reservations

  method CancelReservations(rs: seq<Reservation>) returns (out: seq<Reservation>)
    ensures |out| == |rs| && forall i :: 0 <= i < |rs| ==> out[i] == rs[i].CancelOrFail()
  {
    out := [];
    for i := 0 to |rs|
      invariant |out| == i && forall k :: 0 <= k < i ==> out[k] == rs[k].CancelOrFail()
    {
      out := out + [rs[i].CancelOrFail()];
    }
  }

  method FailAll(rs: seq<Reservation>) returns (out: seq<Reservation>)
    ensures |out| == |rs| && forall i :: 0 <= i < |rs| ==> out[i] == rs[i].Fail()
  {
    out := [];
    for i := 0 to |rs|
      invariant |out| == i && forall k :: 0 <= k < i ==> out[k] == rs[k].Fail()
    {
      out := out + [rs[i].Fail()];
    }
  }

  /** Once work may have been submitted a block must not be handed back as unused. */
  method RollBack(rs: seq<Reservation>, submitted: bool) returns (out: seq<Reservation>)
    ensures |out| == |rs| && forall i :: 0 <= i < |rs| ==>
              out[i] == if submitted then rs[i].Fail() else rs[i].CancelOrFail()
  {
    if submitted {
      out := FailAll(rs);
    } else {
      out := CancelReservations(rs);
    }
  }

  /** A rolled back reservation keeps its block, and its buffer must be orphaned exactly when
      work may have been submitted and its writer was not finalized. */
  lemma AfterRollBack(rs: seq<Reservation>, out: seq<Reservation>, submitted: bool, finalized: bool)
    requires |out| == |rs| && (finalized ==> submitted)
    requires forall i :: 0 <= i < |rs| ==>
               && rs[i] == (if finalized then ReadySynchronously(rs[i].block) else Reserved(rs[i].block))
               && out[i] == (if submitted then rs[i].Fail() else rs[i].CancelOrFail())
    ensures forall i :: 0 <= i < |rs| ==>
                          out[i].block == rs[i].block
                          && (out[i].Fail().buffer.mustOrphan <==> submitted && !finalized)
  {}

  /** Where rolling back leads: see CallStep. */
  lemma RolledBack(a: Core, b: Core, rs: seq<Reservation>, fates: seq<Fate>, submitted: bool, finalized: bool)
    requires a.healthy && !b.healthy && b.drops == a.drops && PoolsStep(a.pools, b.pools, fates)
    requires b.selectionFailures == a.selectionFailures + LostIn(fates) && |rs| == |fates|
    requires forall i :: 0 <= i < |rs| ==> Dropped(rs[i].Fail(), fates[i])
    requires forall i :: 0 <= i < |rs| ==> (rs[i].Fail().buffer.mustOrphan <==> submitted && !finalized)
    ensures CallStep(a, b, if submitted then FailedAfterSubmission else NotSubmitted, fates)
    ensures submitted && !finalized ==> forall i :: 0 <= i < |fates| ==> Kept(fates[i])
  {
    forall i | 0 <= i < |fates|
      ensures if submitted && !finalized then Kept(fates[i]) else GivenBack(fates[i])
    {
      assert Dropped(rs[i].Fail(), fates[i]);
    }
  }

  /** finalize_synchronously throws for a buffer that is not being written.  Nobody else can
      reach the buffer of a reservation, so that does not happen. */
  method FinalizeAll(rs: seq<Reservation>) returns (out: seq<Reservation>, ok: bool)
    requires forall i :: 0 <= i < |rs| ==> rs[i] == Reserved(rs[i].block)
    ensures ok && |out| == |rs| && forall i :: 0 <= i < |rs| ==> out[i] == ReadySynchronously(rs[i].block)
  {
    out, ok := [], true;
    for i := 0 to |rs|
      invariant ok && |out| == i && forall k :: 0 <= k < i ==> out[k] == ReadySynchronously(rs[k].block)
    {
      var r := rs[i];
      if r.responsible {
        if r.buffer.phase != Writing {
          return out, false;
        }
        r := r.(buffer := r.buffer.FinalizeSynchronously(), responsible := false);
      }
      out := out + [r];
    }
  }

  // ---------- Counting blocks

  function CountAt(s: seq<Place>, p: Place): nat {
    if s == [] then 0 else CountAt(s[..|s| - 1], p) + if s[|s| - 1] == p then 1 else 0
  }

  lemma {:induction false} CountSame(s: seq<Place>, t: seq<Place>, p: Place)
    requires |s| == |t| && forall k :: 0 <= k < |s| ==> (s[k] == p <==> t[k] == p)
    ensures CountAt(s, p) == CountAt(t, p)
  {
    if s == [] {
    } else {
      CountSame(s[..|s| - 1], t[..|t| - 1], p);
    }
  }

  lemma {:induction false} CountPut(s: seq<Place>, x: nat, q: Place, p: Place)
    requires x < |s|
    ensures CountAt(s[x := q], p) + (if s[x] == p then 1 else 0) == CountAt(s, p) + if q == p then 1 else 0
  {
    var n := |s| - 1;
    if x < n {
      CountPut(s[..n], x, q, p);
      assert s[x := q][..n] == s[..n][x := q];
    } else {
      assert s[x := q][..n] == s[..n];
    }
  }

  lemma {:induction false} EveryBlockCounts(s: seq<Place>)
    ensures CountAt(s, Free) + CountAt(s, InCall) + CountAt(s, Lent)
            + CountAt(s, Withheld) + CountAt(s, Lost) + CountAt(s, Abandoned) == |s|
  {
    if s == [] {
    } else {
      EveryBlockCounts(s[..|s| - 1]);
    }
  }

  lemma {:induction false} NoneCounts(s: seq<Place>, p: Place)
    ensures CountAt(s, p) == 0 <==> forall k :: 0 <= k < |s| ==> s[k] != p
  {
    if s == [] {
    } else {
      NoneCounts(s[..|s| - 1], p);
      assert forall k :: 0 <= k < |s| - 1 ==> s[..|s| - 1][k] == s[k];
    }
  }

  /** Only the call's own block can become withheld or lost. */
  lemma StepCounts(a: PoolBlocks, b: PoolBlocks, fate: Fate, p: Place)
    requires PoolStep(a, b, fate) && (p == Withheld || p == Lost || p == InCall)
    ensures CountAt(b.place, p) == CountAt(a.place, p) + if fate.Took? && fate.place == p then 1 else 0
  {
    match fate
    case Untouched => CountSame(a.place, b.place, p);
    case Took(x, q) =>
      CountPut(a.place, x, q, p);
      CountSame(a.place[x := q], b.place, p);
  }

  function TotalLost(pools: seq<PoolBlocks>): nat {
    if pools == [] then 0 else TotalLost(pools[..|pools| - 1]) + CountAt(pools[|pools| - 1].place, Lost)
  }

  lemma {:induction false} StepLoses(a: seq<PoolBlocks>, b: seq<PoolBlocks>, fates: seq<Fate>)
    requires PoolsStep(a, b, fates)
    ensures TotalLost(b) == TotalLost(a) + LostIn(fates)
  {
    if a == [] {
    } else {
      var n := |a| - 1;
      StepLoses(a[..n], b[..n], fates[..n]);
      StepCounts(a[n], b[n], fates[n], Lost);
    }
  }

  lemma CallLeavesIdle(a: Core, b: Core, r: Outcome, fates: seq<Fate>)
    requires CallStep(a, b, r, fates) && forall i :: 0 <= i < |a.pools| ==> a.pools[i].Idle()
    ensures forall i :: 0 <= i < |b.pools| ==> b.pools[i].Idle()
  {
    forall i | 0 <= i < |b.pools|
      ensures b.pools[i].Idle()
    {
      assert PoolStep(a.pools[i], b.pools[i], fates[i]);
    }
  }

  // ---------- Whole runs

  /** Between calls, too, consumers drop outputs. */
  ghost predicate ConsumerStep(a: Core, b: Core) {
    && b == a.(pools := b.pools) && |b.pools| == |a.pools|
    && forall i :: 0 <= i < |a.pools| ==> Drift(a.pools[i], b.pools[i])
  }

  ghost predicate ShutdownStep(a: Core, b: Core) {
    && b == a.(pools := b.pools) && |b.pools| == |a.pools|
    && forall i :: 0 <= i < |a.pools| ==> b.pools[i] == a.pools[i].(stopping := true)
  }

  ghost predicate Step(a: Core, b: Core) {
    (exists r, fates :: CallStep(a, b, r, fates)) || ConsumerStep(a, b) || ShutdownStep(a, b)
  }

  /** The states of one run of a core, in order. */
  ghost predicate History(capacities: seq<nat>, states: seq<Core>) {
    && states != [] && states[0] == Start(capacities)
    && forall k :: 0 <= k < |states| - 1 ==> Step(states[k], states[k + 1])
  }

  /** What holds of one pool between any two calls. */
  ghost predicate PoolInv(p: PoolBlocks, capacity: nat, healthy: bool) {
    && |p.place| == capacity && p.Idle()
    && CountAt(p.place, Withheld) <= (if healthy then 0 else 1)
  }

  ghost predicate Inv(c: Core, capacities: seq<nat>) {
    && |c.pools| == |capacities| && TotalLost(c.pools) == c.selectionFailures
    && forall i :: 0 <= i < |c.pools| ==> PoolInv(c.pools[i], capacities[i], c.healthy)
  }

  lemma {:induction false} NothingLost(pools: seq<PoolBlocks>)
    requires forall i :: 0 <= i < |pools| ==> CountAt(pools[i].place, Lost) == 0
    ensures TotalLost(pools) == 0
  {
    if pools == [] {
    } else {
      NothingLost(pools[..|pools| - 1]);
    }
  }

  lemma StartInv(capacities: seq<nat>)
    ensures Inv(Start(capacities), capacities)
  {
    var pools := Start(capacities).pools;
    forall i | 0 <= i < |pools|
      ensures CountAt(pools[i].place, Lost) == 0 && CountAt(pools[i].place, Withheld) == 0
    {
      NoneCounts(pools[i].place, Lost);
      NoneCounts(pools[i].place, Withheld);
    }
    NothingLost(pools);
  }

  lemma CallKeepsInv(a: Core, b: Core, r: Outcome, fates: seq<Fate>, capacities: seq<nat>)
    requires Inv(a, capacities) && CallStep(a, b, r, fates)
    ensures Inv(b, capacities)
  {
    StepLoses(a.pools, b.pools, fates);
    CallLeavesIdle(a, b, r, fates);
    forall i | 0 <= i < |b.pools|
      ensures PoolInv(b.pools[i], capacities[i], b.healthy)
    {
      StepCounts(a.pools[i], b.pools[i], fates[i], Withheld);
    }
  }

  lemma DriftKeepsPoolInv(a: PoolBlocks, b: PoolBlocks, capacity: nat, healthy: bool)
    requires PoolInv(a, capacity, healthy) && Drift(a, b)
    ensures PoolInv(b, capacity, healthy)
  {
    StepCounts(a, b, Untouched, Withheld);
  }

  lemma ConsumerKeepsInv(a: Core, b: Core, capacities: seq<nat>)
    requires Inv(a, capacities) && ConsumerStep(a, b)
    ensures Inv(b, capacities)
  {
    var fates := AllUntouched(|a.pools|);
    NoneLost(fates);
    StepLoses(a.pools, b.pools, fates);
    forall i | 0 <= i < |b.pools|
      ensures PoolInv(b.pools[i], capacities[i], b.healthy)
    {
      DriftKeepsPoolInv(a.pools[i], b.pools[i], capacities[i], a.healthy);
    }
  }

  lemma {:induction false} SamePlacesLose(a: seq<PoolBlocks>, b: seq<PoolBlocks>)
    requires |a| == |b| && forall i :: 0 <= i < |a| ==> b[i].place == a[i].place
    ensures TotalLost(b) == TotalLost(a)
  {
    if a == [] {
    } else {
      SamePlacesLose(a[..|a| - 1], b[..|b| - 1]);
    }
  }

  lemma StepKeepsInv(a: Core, b: Core, capacities: seq<nat>)
    requires Inv(a, capacities) && Step(a, b)
    ensures Inv(b, capacities)
  {
    if r, fates :| CallStep(a, b, r, fates) {
      CallKeepsInv(a, b, r, fates, capacities);
    } else if ConsumerStep(a, b) {
      ConsumerKeepsInv(a, b, capacities);
    } else {
      SamePlacesLose(a.pools, b.pools);
    }
  }

  lemma {:induction false} HistoryInv(capacities: seq<nat>, states: seq<Core>, k: nat)
    requires History(capacities, states) && k < |states|
    ensures Inv(states[k], capacities)
  {
    if k == 0 {
      StartInv(capacities);
    } else {
      HistoryInv(capacities, states, k - 1);
      StepKeepsInv(states[k - 1], states[k], capacities);
    }
  }

  /** Over a whole run, with any number of failures, this function withholds at most one block
      of each pool, and none as long as the core is healthy. */
  lemma AtMostOneWithheldPerPool(capacities: seq<nat>, states: seq<Core>, k: nat, i: nat)
    requires History(capacities, states) && k < |states| && i < |states[k].pools|
    ensures CountAt(states[k].pools[i].place, Withheld) <= 1
    ensures states[k].healthy ==> forall b :: 0 <= b < |states[k].pools[i].place| ==>
              states[k].pools[i].place[b] != Withheld
  {
    HistoryInv(capacities, states, k);
    assert PoolInv(states[k].pools[i], capacities[i], states[k].healthy);
    NoneCounts(states[k].pools[i].place, Withheld);
  }

  /** Blocks are lost to failed device selections and to nothing else, one each. */
  lemma LossesAreSelectionFailures(capacities: seq<nat>, states: seq<Core>, k: nat)
    requires History(capacities, states) && k < |states|
    ensures TotalLost(states[k].pools) == states[k].selectionFailures
  {
    HistoryInv(capacities, states, k);
  }

  /** A call that ends before submission, or after every writer was finalized, gives every
      block it took back if no device selection fails in it. */
  lemma AllComeBack(a: Core, b: Core, r: Outcome, fates: seq<Fate>)
    requires CallStep(a, b, r, fates) && b.selectionFailures == a.selectionFailures
    requires r.NotReserved? || r == NotSubmitted
               || (r == FailedAfterSubmission && exists i :: 0 <= i < |fates| && !Kept(fates[i]))
    ensures forall i :: 0 <= i < |a.pools| ==>
                          fates[i] == Untouched || (fates[i].Took? && b.pools[i].place[fates[i].block] == Free)
    ensures forall i, y :: 0 <= i < |a.pools| && 0 <= y < |a.pools[i].place| && a.pools[i].place[y] == Free ==>
                             b.pools[i].place[y] == Free
  {
    forall i | 0 <= i < |a.pools|
      ensures fates[i] == Untouched || (fates[i].Took? && fates[i].place == Free)
      ensures PoolStep(a.pools[i], b.pools[i], fates[i])
    {
      if fates[i].Took? && fates[i].place == Lost { SomeLost(fates, i); }
    }
  }

  lemma {:induction false} SomeLost(fates: seq<Fate>, i: nat)
    requires i < |fates| && fates[i].Took? && fates[i].place == Lost
    ensures LostIn(fates) > 0
  {
    if i < |fates| - 1 { SomeLost(fates[..|fates| - 1], i); }
  }

  predicate SameWithheld(a: PoolBlocks, b: PoolBlocks) {
    |b.place| == |a.place| && forall y :: 0 <= y < |a.place| ==> (b.place[y] == Withheld <==> a.place[y] == Withheld)
  }

  lemma StepWithholds(a: Core, b: Core, i: nat)
    requires Step(a, b) && !a.healthy && i < |a.pools|
    ensures i < |b.pools| && SameWithheld(a.pools[i], b.pools[i])
  {
    if r, fates :| CallStep(a, b, r, fates) {
    } else if ConsumerStep(a, b) {
      assert Drift(a.pools[i], b.pools[i]);
    }
  }

  /** The latch: an unhealthy core never becomes healthy, and nothing more is withheld. */
  lemma {:induction false} UnhealthyForGood(capacities: seq<nat>, states: seq<Core>, j: nat, k: nat)
    requires History(capacities, states) && j <= k < |states| && !states[j].healthy
    ensures !states[k].healthy && |states[k].pools| == |states[j].pools|
    ensures forall i :: 0 <= i < |states[j].pools| ==> SameWithheld(states[j].pools[i], states[k].pools[i])
    decreases k - j
  {
    if j == k {
    } else {
      UnhealthyForGood(capacities, states, j, k - 1);
      assert Step(states[k - 1], states[k]);
      forall i | 0 <= i < |states[j].pools|
        ensures SameWithheld(states[j].pools[i], states[k].pools[i])
      {
        StepWithholds(states[k - 1], states[k], i);
      }
    }
  }

  /** Blocks are conserved: free, lent, withheld, lost and abandoned add up to the capacity. */
  lemma BlocksAreConserved(capacities: seq<nat>, states: seq<Core>, k: nat, i: nat)
    requires History(capacities, states) && k < |states| && i < |capacities|
    ensures |states[k].pools| == |capacities|
    ensures var s := states[k].pools[i].place;
            CountAt(s, Free) + CountAt(s, Lent) + CountAt(s, Withheld) + CountAt(s, Lost) + CountAt(s, Abandoned)
            == |s| == capacities[i]
  {
    HistoryInv(capacities, states, k);
    assert PoolInv(states[k].pools[i], capacities[i], states[k].healthy);
    EveryBlockCounts(states[k].pools[i].place);
    NoneCounts(states[k].pools[i].place, InCall);
  }

  /** A withheld block keeps its pool's allocation for good: that pool never drains. */
  lemma WithheldNeverDrains(capacities: seq<nat>, states: seq<Core>, j: nat, k: nat, i: nat, y: nat)
    requires History(capacities, states) && j <= k < |states|
    requires i < |states[j].pools| && y < |states[j].pools[i].place| && states[j].pools[i].place[y] == Withheld
    ensures i < |states[k].pools| && !states[k].pools[i].Drained()
  {
    AtMostOneWithheldPerPool(capacities, states, j, i);
    UnhealthyForGood(capacities, states, j, k);
    assert SameWithheld(states[j].pools[i], states[k].pools[i]) && states[k].pools[i].place[y] == Withheld;
  }
}
