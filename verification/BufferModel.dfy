/**
 The value of one managed buffer (gpu_ros_managed_core, BufferState) and what each
 critical section of the handle classes does to it.  The transition system in
 ManagedSystem and the objects in BufferObjects both use these functions.
 */
module BufferModel {

  datatype Option<+T> = None | Some(value: T)

  /** kReleased exists in the source's enumeration but no statement assigns it; the
      destructor stops at kReleasing. */
  datatype Phase = Fresh | Writing | Ready | Failed | Releasing | Released

  datatype Readiness = NotReady | SynchronouslyReady | EventBackedReady

  /** `producerEvent` is None where the source stores the event number 0. */
  datatype Buffer = Buffer(
    phase: Phase,
    readiness: Readiness,
    writerStream: nat,
    producerEvent: Option<nat>,
    readerEvents: seq<nat>,
    mustOrphan: bool)
  {
    /** The events the destructor collects: the producer's, then the readers'. */
    function Events(): seq<nat> {
      (if producerEvent.Some? then [producerEvent.value] else []) + readerEvents
    }

    function OpenWriter(stream: nat): Buffer {
      this.(phase := Writing, writerStream := stream)
    }

    function OpenSynchronizedWriter(): Buffer {
      this.(phase := Writing)
    }

    function Finalize(event: nat): Buffer {
      this.(producerEvent := Some(event), readiness := EventBackedReady, phase := Ready)
    }

    function FinalizeSynchronously(): Buffer {
      this.(readiness := SynchronouslyReady, phase := Ready)
    }

    /** Explicit or implicit failure of a writer handle. */
    function FailWriter(): Buffer {
      this.(phase := Failed, readiness := NotReady, mustOrphan := true)
    }

    /** An operation may be in flight and no trustworthy completion event exists. */
    function LoseCompletion(): Buffer {
      this.(phase := Failed, mustOrphan := true)
    }

    /** A reader could not be made to wait for the producer; nothing was submitted. */
    function RefuseReader(): Buffer {
      this.(phase := Failed)
    }

    function Cancel(): Buffer {
      this.(phase := Fresh, writerStream := 0)
    }

    function AddReaderEvent(event: nat): Buffer {
      this.(readerEvents := readerEvents + [event])
    }

    function Release(): Buffer {
      this.(phase := Releasing)
    }

    /** What holds of a buffer between any two critical sections. */
    predicate Consistent() {
      && (producerEvent.Some? <==> readiness == EventBackedReady)
      && (phase == Fresh || phase == Writing ==>
            readiness == NotReady && readerEvents == [] && !mustOrphan)
      && (phase == Ready ==> readiness != NotReady && !mustOrphan)
      && phase != Released
    }
  }

  const FRESH := Buffer(Fresh, NotReady, 0, None, [], false)
}
