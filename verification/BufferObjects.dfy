/**
 BufferState, its four kinds of handle, DeviceBuffer and the release of a buffer, as
 objects updated in place.  Each method's effect on the buffer is one of the functions of
 BufferModel, which are also the steps of ManagedSystem; each backend call may fail.
 */
module BufferObjects {
  import opened BufferModel

  datatype Error = InvalidArgument | OutOfRange | LogicError | BackendError

  datatype Outcome = Done | Throws(error: Error)

  /** The backend operations.  `selected` is the device the calling thread selected for
      its next event operation; `failures` counts the calls that threw. */
  class Backend {
    var selected: Option<int>
    var nextEvent: nat
    ghost var live: set<nat>
    ghost var failures: nat

    constructor ()
      ensures Valid() && live == {}
    {
      selected, nextEvent, live, failures := None, 1, {}, 0;
    }

    /** Event number 0 means "no event"; numbers are not reused. */
    ghost predicate Valid()
      reads this
    {
      nextEvent > 0 && forall e :: e in live ==> 0 < e < nextEvent
    }

    method SelectDevice(ordinal: int) returns (ok: bool)
      modifies this`selected, this`failures
      ensures selected == if ok then Some(ordinal) else None
      ensures failures == if ok then old(failures) else old(failures) + 1
    {
      ok := *;
      selected := if ok then Some(ordinal) else None;
      failures := if ok then failures else failures + 1;
    }

    /** 0 when the call throws. */
    method CreateEvent(ordinal: int) returns (e: nat)
      requires Valid() && selected == Some(ordinal)
      modifies this
      ensures Valid()
      ensures e == 0 || (e !in old(live) && e == old(nextEvent))
      ensures live == if e == 0 then old(live) else old(live) + {e}
      ensures failures == if e == 0 then old(failures) + 1 else old(failures)
    {
      selected := None;
      var ok: bool := *;
      if ok {
        e := nextEvent;
        nextEvent := nextEvent + 1;
        live := live + {e};
      } else {
        e := 0;
        failures := failures + 1;
      }
    }

    /** record_event, wait_event and synchronize_event: each needs a live event. */
    method UseEvent(ordinal: int, e: nat) returns (ok: bool)
      requires e in live && selected == Some(ordinal)
      modifies this`selected, this`failures
      ensures failures == if ok then old(failures) else old(failures) + 1
    {
      selected := None;
      ok := *;
      failures := if ok then failures else failures + 1;
    }

    method DestroyEvent(ordinal: int, e: nat)
      requires Valid() && e in live && selected == Some(ordinal)
      modifies this
      ensures Valid() && live == old(live) - {e} && failures == old(failures)
    {
      selected := None;
      live := live - {e};
    }

    /** A blocking copy, which selects the device itself. */
    method Copy() returns (ok: bool)
      modifies this`selected, this`failures
      ensures failures == if ok then old(failures) else old(failures) + 1
    {
      selected := None;
      ok := *;
      failures := if ok then failures else failures + 1;
    }
  }

  /** A stream handle; `owner` keeps the native stream alive. */
  datatype DeviceStream = Empty | Stream(device: int, native: nat, owner: Option<nat>, ops: Backend)

  /** What happened to owners in this process, and the release tracker's count. */
  class Process {
    var released: seq<nat>
    var orphaned: seq<nat>
    var pending: nat
    ghost var spawnFailures: nat

    constructor ()
      ensures released == [] && orphaned == [] && pending == 0
    {
      released, orphaned, pending, spawnFailures := [], [], 0, 0;
    }
  }

  function OptSeq(o: Option<nat>): seq<nat> {
    if o.Some? then [o.value] else []
  }

  /** What a release lets go of: the allocation, the source owners, the stream owner. */
  datatype Held = Held(owner: Option<nat>, producerOwners: seq<nat>, streamOwner: Option<nat>)
  {
    function All(): seq<nat> {
      OptSeq(owner) + producerOwners + OptSeq(streamOwner)
    }

    function Retain(source: nat): Held {
      this.(producerOwners := producerOwners + [source])
    }
  }

  class BufferState {
    const device: int
    const size: nat
    const ops: Backend
    var allocationOwner: Option<nat>
    var phase: Phase
    var writerStream: nat
    var writerStreamOwner: Option<nat>
    var producerEvent: nat
    var readerEvents: seq<nat>
    var readiness: Readiness
    var producerOwners: seq<nat>
    var releaseMustOrphan: bool

    function Abs(): Buffer
      reads this
    {
      Buffer(phase, readiness, writerStream, if producerEvent == 0 then None else Some(producerEvent), readerEvents,
             releaseMustOrphan)
    }

    /** Everything the release of this buffer has to let go of. */
    function Owners(): Held
      reads this
    {
      Held(allocationOwner, producerOwners, writerStreamOwner)
    }

    /** The buffer is consistent and owns its events, each once. */
    ghost predicate Valid()
      reads this, ops
    {
      && ops.Valid() && Abs().Consistent()
      && (phase == Fresh ==> writerStreamOwner == None && producerOwners == [])
      && (forall e :: e in Abs().Events() ==> e in ops.live)
      && (forall j, k :: 0 <= j < k < |Abs().Events()| ==> Abs().Events()[j] != Abs().Events()[k])
    }

    /** make_buffer: the checks on size, pointer and owner, then a fresh or ready state. */
    static method Make(device: int, size: nat, hasData: bool, owner: Option<nat>, ops: Backend, ready: bool)
      returns (r: Outcome, s: BufferState?)
      requires ops.Valid()
      ensures r == (if size != 0 && (!hasData || owner == None) then Throws(InvalidArgument) else Done)
      ensures s != null <==> r == Done
      ensures s != null ==>
                && fresh(s) && s.Valid() && s.ops == ops && s.Owners() == Held(owner, [], None) && s.device == device
                    && s.size == size
                && s.Abs() == if ready then FRESH.FinalizeSynchronously() else FRESH
    {
      if size != 0 && (!hasData || owner == None) {
        return Throws(InvalidArgument), null;
      }
      s := new BufferState(device, size, owner, ops, ready);
      r := Done;
    }

    constructor (device: int, size: nat, owner: Option<nat>, ops: Backend, ready: bool)
      requires ops.Valid()
      ensures Valid() && this.ops == ops && this.device == device && this.size == size
      ensures Owners() == Held(owner, [], None)
      ensures Abs() == if ready then FRESH.FinalizeSynchronously() else FRESH
    {
      this.device, this.size, this.ops := device, size, ops;
      allocationOwner, writerStreamOwner, producerOwners := owner, None, [];
      phase := if ready then Ready else Fresh;
      readiness := if ready then SynchronouslyReady else NotReady;
      writerStream, producerEvent, readerEvents, releaseMustOrphan := 0, 0, [], false;
    }

    /** An event for the work recorded so far on a stream: select, create, select, record.
        `recorded` says whether it can be trusted; otherwise `e` is 0 or still to be scrapped. */
    method RecordNewEvent() returns (e: nat, recorded: bool)
      requires ops.Valid()
      modifies ops
      ensures ops.Valid()
      ensures e == 0 || e !in old(ops.live)
      ensures ops.live == if e == 0 then old(ops.live) else old(ops.live) + {e}
      ensures recorded ==> e != 0
      ensures ops.failures >= old(ops.failures)
      ensures recorded <==> ops.failures == old(ops.failures)
    {
      e, recorded := 0, false;
      var ok := ops.SelectDevice(device);
      if !ok { return; }
      e := ops.CreateEvent(device);
      if e == 0 { return; }
      ok := ops.SelectDevice(device);
      if !ok { return; }
      recorded := ops.UseEvent(device, e);
    }

    /** destroy_event_on_device: without its device selected the event is leaked. */
    method DestroyEventOnDevice(e: nat)
      requires ops.Valid() && (e == 0 || e in ops.live)
      modifies this`releaseMustOrphan, ops
      ensures ops.Valid() && (ops.live == old(ops.live) - {e} || ops.live == old(ops.live))
      ensures releaseMustOrphan == (old(releaseMustOrphan) || (e != 0 && ops.failures > old(ops.failures)))
      ensures e != 0 && e in ops.live ==> releaseMustOrphan
      ensures ops.failures >= old(ops.failures)
    {
      if e == 0 {
        assert ops.live - {e} == ops.live;
        return;
      }
      var ok := ops.SelectDevice(device);
      if ok {
        ops.DestroyEvent(device, e);
      } else {
        releaseMustOrphan := true;
      }
    }
  }

  // ---------- Writers

  /** What a writer handle's terminal operations share. */
  class WriteHandle {
    var state: BufferState?
    var responsible: bool

    constructor (state: BufferState)
      ensures this.state == state && responsible
    {
      this.state, responsible := state, true;
    }

    /** The moved-from handle keeps nothing and answers for nothing. */
    constructor Move(other: WriteHandle)
      modifies other
      ensures state == old(other.state) && responsible == old(other.responsible)
      ensures other.state == null && !other.responsible
    {
      state, responsible := other.state, other.responsible;
      new;
      other.state, other.responsible := null, false;
    }

    predicate Active()
      reads this
    {
      responsible && state != null
    }

    ghost function Footprint(): set<object>
      reads this
    {
      if state == null then {} else {state, state.ops}
    }

    ghost predicate Valid()
      reads this, Footprint()
    {
      state != null ==> state.Valid()
    }

    method RetainOwner(owner: Option<nat>) returns (r: Outcome)
      requires Valid()
      modifies state
      ensures Valid()
      ensures r == if owner == None then Throws(InvalidArgument)
                   else if !Active() || old(state.phase) != Writing then Throws(LogicError) else Done
      ensures state != null ==>
                && state.Abs() == old(state.Abs())
                && state.Owners() == (if r == Done then old(state.Owners()).Retain(owner.value)
                    else old(state.Owners()))
    {
      if owner == None { return Throws(InvalidArgument); }
      if !responsible || state == null { return Throws(LogicError); }
      if state.phase != Writing { return Throws(LogicError); }
      state.producerOwners := state.producerOwners + [owner.value];
      r := Done;
    }

    /** Publish with an event.  A second call, or a call on a moved-from handle, is harmless;
        a failed backend call fails the buffer for good. */
    method Finalize() returns (r: Outcome)
      requires Valid()
      modifies this, Footprint()
      ensures Valid() && state == old(state)
      ensures !old(Active()) ==> r == Done && responsible == old(responsible)
      ensures state != null && !(old(Active()) && old(state.phase) == Writing) ==>
                state.Abs() == old(state.Abs()) && state.ops.live == old(state.ops.live)
      ensures old(Active()) && old(state.phase) == Ready ==> r == Done && !responsible
      ensures old(Active()) && old(state.phase) != Ready && old(state.phase) != Writing ==>
                r == Throws(LogicError) && responsible
      ensures old(Active()) && old(state.phase) == Writing ==>
                && !responsible
                && (r == Done <==> state.ops.failures == old(state.ops.failures))
                && (r == Done ==>
                      && state.producerEvent !in old(state.ops.live)
                      && state.ops.live == old(state.ops.live) + {state.producerEvent}
                      && state.Abs() == old(state.Abs()).Finalize(state.producerEvent))
                && (r != Done ==> r == Throws(BackendError) && state.Abs() == old(state.Abs()).LoseCompletion())
      ensures state != null ==> state.Owners() == old(state.Owners())
    {
      r := Done;
      if !responsible || state == null { return; }
      if state.phase == Ready {
        responsible := false;
        return;
      }
      if state.phase != Writing { return Throws(LogicError); }
      assert state.Abs().Events() == [];
      var e, recorded := state.RecordNewEvent();
      if recorded {
        state.producerEvent := e;
        state.readiness := EventBackedReady;
        state.phase := Ready;
        assert state.Abs().Events() == [e];
      } else {
        state.phase := Failed;
        state.releaseMustOrphan := true;
        state.DestroyEventOnDevice(e);
        assert state.Abs().Events() == [];
        r := Throws(BackendError);
      }
      responsible := false;
    }

    /** Also what the destructor of an active writer handle does.  Only the handle of a
        buffer that is being written is active, so the buffer stays consistent. */
    method Fail()
      requires Valid()
      modifies this`responsible, state
      ensures (old(Active()) && old(state.phase) != Writing) || Valid()
      ensures !Active()
      ensures !old(Active()) ==> responsible == old(responsible)
      ensures state != null ==>
                && state.Abs() == (if old(Active()) then old(state.Abs()).FailWriter() else old(state.Abs()))
                && state.Owners() == old(state.Owners())
    {
      if !responsible || state == null { return; }
      state.phase := Failed;
      state.readiness := NotReady;
      state.releaseMustOrphan := true;
      responsible := false;
      assert state.Abs().Events() == old(state.Abs()).Events();
    }

    /** Undo the reservation: the buffer is fresh again and lets go of what the writer
        brought, the stream and the source owners. */
    method Cancel(p: Process) returns (r: Outcome)
      requires Valid()
      modifies this`responsible, state, p
      ensures Valid()
      ensures !old(Active()) ==> r == Done && responsible == old(responsible)
      ensures old(Active()) ==>
                && r == (if old(state.phase) == Writing then Done else Throws(LogicError))
                && responsible == (r != Done)
      ensures state != null && !(old(Active()) && r == Done) ==>
                state.Abs() == old(state.Abs()) && state.Owners() == old(state.Owners())
                    && p.released == old(p.released)
      ensures old(Active()) && r == Done ==>
                && state.Abs() == old(state.Abs()).Cancel()
                && state.Owners() == Held(old(state.allocationOwner), [], None)
                && p.released == old(p.released) + old(state.producerOwners) + OptSeq(old(state.writerStreamOwner))
      ensures p.orphaned == old(p.orphaned) && p.pending == old(p.pending)
    {
      r := Done;
      if !responsible || state == null { return; }
      if state.phase != Writing { return Throws(LogicError); }
      state.phase := Fresh;
      state.writerStream := 0;
      responsible := false;
      p.released := p.released + state.producerOwners + OptSeq(state.writerStreamOwner);
      state.writerStreamOwner := None;
      state.producerOwners := [];
      assert state.Abs().Events() == old(state.Abs()).Events();
    }

    /** finalize_synchronously, of the synchronized kind of writer. */
    method FinalizeSynchronously() returns (r: Outcome)
      requires Valid()
      modifies this`responsible, state
      ensures Valid()
      ensures !old(Active()) ==> r == Done && responsible == old(responsible)
      ensures old(Active()) ==>
                && r == (if old(state.phase) == Writing then Done else Throws(LogicError))
                && responsible == (r != Done)
      ensures state != null ==>
                && state.Abs() == (if old(Active()) && r == Done then old(state.Abs()).FinalizeSynchronously()
                    else old(state.Abs()))
                && state.Owners() == old(state.Owners())
    {
      r := Done;
      if !responsible || state == null { return; }
      if state.phase != Writing { return Throws(LogicError); }
      assert state.Abs().Events() == [];
      state.readiness := SynchronouslyReady;
      state.phase := Ready;
      responsible := false;
      assert state.Abs().Events() == [];
    }
  }

  // ---------- Readers

  class ReadHandle {
    var state: BufferState?
    var stream: DeviceStream
    var responsible: bool

    constructor (state: BufferState, stream: DeviceStream)
      ensures this.state == state && this.stream == stream && responsible
    {
      this.state, this.stream, this.responsible := state, stream, true;
    }

    /** The constructor of the source: it may throw, and only a ready buffer is read. */
    static method Open(state: BufferState, stream: DeviceStream) returns (r: Outcome, h: ReadHandle?)
      requires state.Valid()
      modifies state, state.ops
      ensures state.Valid() && state.ops.live == old(state.ops.live) && state.Owners() == old(state.Owners())
      ensures h != null <==> r == Done
      ensures h != null ==> fresh(h) && h.state == state && h.stream == stream && h.responsible
      ensures StreamError(state, stream) || old(state.phase) != Ready ==>
                r == Throws(if StreamError(state, stream) then InvalidArgument else LogicError)
                    && state.Abs() == old(state.Abs())
      ensures !StreamError(state, stream) && old(state.phase) == Ready ==>
                && (r == Done <==> state.ops.failures == old(state.ops.failures))
                && (r == Done ==> state.Abs() == old(state.Abs()))
                && (r != Done ==>
                      r == Throws(BackendError) && old(state.producerEvent) != 0
                      && state.Abs() == old(state.Abs()).RefuseReader())
    {
      h := null;
      if StreamError(state, stream) { return Throws(InvalidArgument), null; }
      if state.phase != Ready { return Throws(LogicError), null; }
      if state.producerEvent != 0 {
        assert state.producerEvent == state.Abs().Events()[0];
        var ok := state.ops.SelectDevice(state.device);
        if ok { ok := state.ops.UseEvent(state.device, state.producerEvent); }
        if !ok {
          state.phase := Failed;
          assert state.Abs().Events() == old(state.Abs()).Events();
          return Throws(BackendError), null;
        }
      }
      h := new ReadHandle(state, stream);
      r := Done;
    }

    ghost function Footprint(): set<object>
      reads this
    {
      if state == null then {} else {state, state.ops}
    }

    ghost predicate Valid()
      reads this, Footprint()
    {
      state != null ==> state.Valid() && state.phase != Fresh && state.phase != Writing
    }

    /** Publish the completion of everything submitted through this handle, or fail the
        buffer for good. */
    method Finish() returns (r: Outcome)
      requires Valid()
      modifies this, Footprint()
      ensures Valid() && state == old(state) && !(responsible && state != null)
      ensures !(old(responsible) && state != null) ==> r == Done
      ensures state != null && !old(responsible) ==>
                state.Abs() == old(state.Abs()) && state.ops.live == old(state.ops.live)
      ensures state != null && old(responsible) ==>
                && (r == Done <==> state.ops.failures == old(state.ops.failures))
                && (r == Done ==>
                      exists e :: e !in old(state.ops.live) && state.ops.live == old(state.ops.live) + {e}
                                  && state.Abs() == old(state.Abs()).AddReaderEvent(e))
                && (r != Done ==> r == Throws(BackendError) && state.Abs() == old(state.Abs()).LoseCompletion())
      ensures state != null ==> state.Owners() == old(state.Owners())
    {
      r := Done;
      if !responsible || state == null { return; }
      ghost var before := state.Abs();
      var e, recorded := state.RecordNewEvent();
      if recorded {
        state.readerEvents := state.readerEvents + [e];
        assert state.Abs() == before.AddReaderEvent(e);
        assert state.Abs().Events() == before.Events() + [e];
      } else {
        state.phase := Failed;
        state.releaseMustOrphan := true;
        state.DestroyEventOnDevice(e);
        assert state.Abs().Events() == before.Events();
        r := Throws(BackendError);
      }
      responsible := false;
    }
  }

  /** The destructor of a read handle: finish, and no exception escapes. */
  method DropReadHandle(h: ReadHandle)
    requires h.Valid()
    modifies h, h.Footprint()
    ensures h.Valid() && h.state == old(h.state) && !(h.responsible && h.state != null)
    ensures h.state != null && old(h.responsible) ==>
              || (h.state.ops.failures == old(h.state.ops.failures)
                  && exists e :: e !in old(h.state.ops.live) && h.state.Abs() == old(h.state.Abs()).AddReaderEvent(e))
              || h.state.Abs() == old(h.state.Abs()).LoseCompletion()
    ensures h.state != null && !old(h.responsible) ==> h.state.Abs() == old(h.state.Abs())
  {
    var r := h.Finish();
    if r != Done && h.state != null {
      h.state.phase := Failed;
      assert h.state.Abs() == old(h.state.Abs()).LoseCompletion();
    }
  }

  predicate StreamError(state: BufferState, stream: DeviceStream) {
    stream.Empty? || stream.device != state.device || stream.ops != state.ops
  }

  /** get_blocking_ready_lease: check readiness, then wait for the producer on the host. */
  method OpenLease(state: BufferState) returns (r: Outcome)
    requires state.Valid()
    modifies state, state.ops
    ensures state.Valid() && state.ops.live == old(state.ops.live) && state.Owners() == old(state.Owners())
    ensures old(state.phase) != Ready ==> r == Throws(LogicError) && state.Abs() == old(state.Abs())
    ensures old(state.phase) == Ready ==>
              && (r == Done <==> state.ops.failures == old(state.ops.failures))
              && (r == Done ==> state.Abs() == old(state.Abs()))
              && (r != Done ==>
                    r == Throws(BackendError) && old(state.producerEvent) != 0
                    && state.Abs() == old(state.Abs()).LoseCompletion())
  {
    r := Done;
    if state.phase != Ready { return Throws(LogicError); }
    var e := state.producerEvent;
    if e != 0 {
      assert e == state.Abs().Events()[0];
      var ok := state.ops.SelectDevice(state.device);
      if ok { ok := state.ops.UseEvent(state.device, e); }
      if !ok {
        state.phase := Failed;
        state.releaseMustOrphan := true;
        assert state.Abs().Events() == old(state.Abs()).Events();
        return Throws(BackendError);
      }
    }
  }

  // ---------- DeviceBuffer

  method GetWriteHandle(state: BufferState, stream: DeviceStream) returns (r: Outcome, h: WriteHandle?)
    requires state.Valid()
    modifies state
    ensures state.Valid()
    ensures r == if StreamError(state, stream) then Throws(InvalidArgument)
                 else if old(state.phase) != Fresh then Throws(LogicError) else Done
    ensures h != null <==> r == Done
    ensures r != Done ==> state.Abs() == old(state.Abs()) && state.Owners() == old(state.Owners())
    ensures r == Done ==>
              && fresh(h) && h.state == state && h.responsible
              && state.Abs() == old(state.Abs()).OpenWriter(stream.native)
              && state.Owners() == old(state.Owners()).(streamOwner := stream.owner)
  {
    h := null;
    if StreamError(state, stream) { return Throws(InvalidArgument), null; }
    if state.phase != Fresh { return Throws(LogicError), null; }
    state.writerStreamOwner := stream.owner;
    state.phase := Writing;
    state.writerStream := stream.native;
    assert state.Abs().Events() == old(state.Abs()).Events();
    h := new WriteHandle(state);
    r := Done;
  }

  method GetSynchronizedWriteHandle(state: BufferState) returns (r: Outcome, h: WriteHandle?)
    requires state.Valid()
    modifies state
    ensures state.Valid() && state.Owners() == old(state.Owners())
    ensures r == if old(state.phase) != Fresh then Throws(LogicError) else Done
    ensures h != null <==> r == Done
    ensures state.Abs() == if r == Done then old(state.Abs()).OpenSynchronizedWriter() else old(state.Abs())
    ensures h != null ==> fresh(h) && h.state == state && h.responsible
  {
    h := null;
    if state.phase != Fresh { return Throws(LogicError), null; }
    state.phase := Writing;
    assert state.Abs().Events() == old(state.Abs()).Events();
    h := new WriteHandle(state);
    r := Done;
  }

  /** DeviceBuffer::readiness: what is stored counts only while the buffer is ready. */
  function ReadinessOf(state: BufferState): (r: Readiness)
    requires state.Valid()
    reads state, state.ops
    ensures r == NotReady <==> state.phase != Ready
    ensures r == EventBackedReady <==> state.phase == Ready && state.producerEvent != 0
  {
    if state.phase == Ready then state.readiness else NotReady
  }

  method CopyFromHostBlocking(state: BufferState, hasSource: bool, bytes: nat) returns (r: Outcome)
    requires state.Valid()
    modifies state, state.ops
    ensures state.Valid() && state.Owners() == old(state.Owners()) && state.ops.live == old(state.ops.live)
    ensures old(state.phase) != Fresh ==> r == Throws(LogicError)
    ensures old(state.phase) == Fresh && bytes > state.size ==> r == Throws(OutOfRange)
    ensures old(state.phase) == Fresh && bytes <= state.size && bytes != 0 && !hasSource ==>
              r == Throws(InvalidArgument)
    ensures r == Done ==> state.Abs() == old(state.Abs()).FinalizeSynchronously()
    ensures r == Throws(BackendError) ==> state.Abs() == old(state.Abs()).LoseCompletion()
    ensures r != Done && r != Throws(BackendError) ==> state.Abs() == old(state.Abs())
    ensures old(state.phase) == Fresh && bytes <= state.size && (bytes == 0 || hasSource) ==>
              (r == Done <==> state.ops.failures == old(state.ops.failures))
  {
    if state.phase != Fresh { return Throws(LogicError); }
    if bytes > state.size { return Throws(OutOfRange); }
    if bytes != 0 && !hasSource { return Throws(InvalidArgument); }
    assert state.Abs().Events() == [];
    var ok := true;
    if bytes != 0 { ok := state.ops.Copy(); }
    if ok {
      state.readiness := SynchronouslyReady;
      state.phase := Ready;
      r := Done;
    } else {
      state.phase := Failed;
      state.releaseMustOrphan := true;
      r := Throws(BackendError);
    }
    assert state.Abs().Events() == [];
  }

  // ---------- Release

  function Members(es: seq<nat>): set<nat> {
    set e | e in es
  }

  /** The worker's loop: synchronize and destroy every event once, whatever fails. */
  method DrainEvents(ops: Backend, device: int, events: seq<nat>, mustOrphan: bool) returns (safe: bool)
    requires ops.Valid()
    requires forall e :: e in events ==> e in ops.live
    requires forall j, k :: 0 <= j < k < |events| ==> events[j] != events[k]
    modifies ops
    ensures ops.Valid()
    ensures old(ops.live) - Members(events) <= ops.live <= old(ops.live)
    ensures safe <==> !mustOrphan && ops.failures == old(ops.failures)
    ensures safe ==> ops.live == old(ops.live) - Members(events)
  {
    safe := !mustOrphan;
    var deviceSelected := ops.SelectDevice(device);
    if !deviceSelected { safe := false; }
    for i := 0 to |events|
      invariant ops.Valid()
      invariant old(ops.live) - Members(events[..i]) <= ops.live <= old(ops.live)
      invariant forall k :: i <= k < |events| ==> events[k] in ops.live
      invariant ops.failures >= old(ops.failures)
      invariant deviceSelected || ops.failures > old(ops.failures)
      invariant safe <==> !mustOrphan && ops.failures == old(ops.failures)
      invariant safe ==> ops.live == old(ops.live) - Members(events[..i])
    {
      var event := events[i];
      if deviceSelected {
        var ok := ops.SelectDevice(device);
        if ok { ok := ops.UseEvent(device, event); }
        if !ok { safe := false; }
      }
      var ok := ops.SelectDevice(device);
      if ok {
        ops.DestroyEvent(device, event);
      } else {
        safe := false;
      }
      assert events[..i + 1] == events[..i] + [event];
    }
    assert events[..|events|] == events;
  }

  /** The cleanup when the worker thread cannot be created. */
  method ScrapEvents(ops: Backend, device: int, events: seq<nat>)
    requires ops.Valid()
    requires forall e :: e in events ==> e in ops.live
    requires forall j, k :: 0 <= j < k < |events| ==> events[j] != events[k]
    modifies ops
    ensures ops.Valid()
    ensures old(ops.live) - Members(events) <= ops.live <= old(ops.live)
    ensures ops.failures == old(ops.failures) ==> ops.live == old(ops.live) - Members(events)
  {
    for i := 0 to |events|
      invariant ops.Valid() && ops.failures >= old(ops.failures)
      invariant old(ops.live) - Members(events[..i]) <= ops.live <= old(ops.live)
      invariant forall k :: i <= k < |events| ==> events[k] in ops.live
      invariant ops.failures == old(ops.failures) ==> ops.live == old(ops.live) - Members(events[..i])
    {
      var ok := ops.SelectDevice(device);
      if ok { ops.DestroyEvent(device, events[i]); }
      assert events[..i + 1] == events[..i] + [events[i]];
    }
    assert events[..|events|] == events;
  }

  /** All of `held` has one fate: dropped when `released`, otherwise in orphan storage. */
  twostate predicate SharedFate(p: Process, held: Held, released: bool)
    reads p
  {
    if released then
      p.released == old(p.released) + held.All() && p.orphaned == old(p.orphaned)
    else
      p.released == old(p.released) && multiset(p.orphaned) == multiset(old(p.orphaned)) + multiset(held.All())
  }

  /** No event is outstanding: no thread is needed. */
  method ReleaseNow(ops: Backend, device: int, mustOrphan: bool, held: Held, p: Process) returns (released: bool)
    requires ops.Valid()
    modifies ops`selected, ops`failures, p
    ensures SharedFate(p, held, released)
    ensures released <==> !mustOrphan && ops.failures == old(ops.failures)
    ensures p.pending == old(p.pending) && p.spawnFailures == old(p.spawnFailures)
  {
    released := false;
    if !mustOrphan {
      released := ops.SelectDevice(device);
    }
    if released {
      p.released := p.released + held.All();
    } else {
      p.orphaned := p.orphaned + held.All();
    }
  }

  /** The worker thread, and the cleanup in the destructor when it cannot be created. */
  method ReleaseOnWorker(ops: Backend, device: int, events: seq<nat>, mustOrphan: bool, held: Held, p: Process)
    returns (released: bool)
    requires ops.Valid()
    requires forall e :: e in events ==> e in ops.live
    requires forall j, k :: 0 <= j < k < |events| ==> events[j] != events[k]
    modifies ops, p
    ensures ops.Valid() && SharedFate(p, held, released) && p.pending == old(p.pending)
    ensures released <==>
              !mustOrphan && ops.failures == old(ops.failures) && p.spawnFailures == old(p.spawnFailures)
    ensures old(ops.live) - Members(events) <= ops.live <= old(ops.live)
    ensures released ==> ops.live == old(ops.live) - Members(events)
  {
    p.pending := p.pending + 1;
    var spawned: bool := *;
    if spawned {
      released := DrainEvents(ops, device, events, mustOrphan);
      if released {
        p.released := p.released + held.All();
      } else {
        p.orphaned := p.orphaned + held.All();
      }
    } else {
      p.spawnFailures := p.spawnFailures + 1;
      ScrapEvents(ops, device, events);
      p.orphaned := p.orphaned + OptSeq(held.owner) + OptSeq(held.streamOwner) + held.producerOwners;
      released := false;
    }
    p.pending := p.pending - 1;
  }

  lemma NothingToDestroy(live: set<nat>, events: seq<nat>)
    requires events == []
    ensures live - Members(events) == live
  {}

  /** The destructor with its worker run to the end.  The allocation, the stream owner and
      every source owner share one fate; they are released exactly when the orphan flag is
      clear and no backend call and no thread creation of the release fails; and then no
      event survives. */
  method Destroy(state: BufferState, p: Process) returns (released: bool)
    requires state.Valid() && state.phase != Writing
    modifies state, state.ops, p
    ensures state.phase == Releasing && state.ops.Valid() && p.pending == old(p.pending)
    ensures SharedFate(p, old(state.Owners()), released)
    ensures old(state.Owners()) == Held(None, [], None) && old(state.Abs()).Events() == [] ==> released
    ensures old(state.Owners()) != Held(None, [], None) || old(state.Abs()).Events() != [] ==>
              (released <==> !old(state.releaseMustOrphan) && state.ops.failures == old(state.ops.failures)
                             && p.spawnFailures == old(p.spawnFailures))
    ensures old(state.ops.live) - Members(old(state.Abs()).Events()) <= state.ops.live <= old(state.ops.live)
    ensures released ==> state.ops.live == old(state.ops.live) - Members(old(state.Abs()).Events())
    ensures old(state.Abs()).Events() == [] ==> p.spawnFailures == old(p.spawnFailures)
  {
    var events := (if state.producerEvent != 0 then [state.producerEvent] else []) + state.readerEvents;
    ghost var listed, live := state.Abs().Events(), state.ops.live;
    assert events == listed;
    var held := state.Owners();
    var mustOrphan := state.releaseMustOrphan;
    state.allocationOwner, state.writerStreamOwner, state.producerOwners := None, None, [];
    state.phase := Releasing;
    if held.owner == None && held.streamOwner == None && held.producerOwners == [] && events == [] {
      NothingToDestroy(live, events);
      assert held.All() == [] && p.released == old(p.released) + held.All();
      return true;
    }
    if events == [] {
      NothingToDestroy(live, events);
      released := ReleaseNow(state.ops, state.device, mustOrphan, held, p);
    } else {
      released := ReleaseOnWorker(state.ops, state.device, events, mustOrphan, held, p);
    }
  }
}
