/**
 DetectionComparator of compare_detections.py: frames of two topics arrive interleaved; a
 frame waits in its side's buffer until one with the same stamp arrives on the other side.
 */
module Comparator {

  import opened BufferModel
  import opened Geometry
  import opened DetectionMatching
  import Matching

  datatype Message = Message(sec: int, nanosec: int, detections: seq<Detection>)

  type Stamp = (int, int)

  datatype Side = A | B

  datatype Arrival = Arrival(side: Side, msg: Message)

  function StampOf(m: Message): Stamp {
    (m.sec, m.nanosec)
  }

  /** validate_detection_array. */
  predicate Acceptable(m: Message) {
    0 <= m.nanosec < 1_000_000_000 && AllSized(m.detections)
  }

  /** The counters kept once per side. */
  datatype SideCounts = SideCounts(
    receivedFrames: nat, receivedDetections: nat, pairedDetections: nat, pairedUnmatched: nat,
    unpairedFrames: nat, unpairedDetections: nat)
  {
    function Plus(o: SideCounts): SideCounts {
      SideCounts(receivedFrames + o.receivedFrames, receivedDetections + o.receivedDetections,
                 pairedDetections + o.pairedDetections, pairedUnmatched + o.pairedUnmatched,
                 unpairedFrames + o.unpairedFrames, unpairedDetections + o.unpairedDetections)
    }

    function Receive(detections: nat): SideCounts {
      this.(receivedFrames := receivedFrames + 1, receivedDetections := receivedDetections + detections)
    }

    function Pair(detections: nat, unmatched: nat): SideCounts {
      this.(pairedDetections := pairedDetections + detections, pairedUnmatched := pairedUnmatched + unmatched)
    }

    function Replace(detections: nat): SideCounts {
      this.(unpairedFrames := unpairedFrames + 1, unpairedDetections := unpairedDetections + detections)
    }
  }

  /** Every counter. */
  datatype Counts = Counts(
    a: SideCounts, b: SideCounts, pairedFrames: nat, matched: nat,
    classMatches: nat, classMismatches: nat, classUnavailable: nat)
  {
    function Plus(o: Counts): Counts {
      Counts(a.Plus(o.a), b.Plus(o.b), pairedFrames + o.pairedFrames, matched + o.matched,
             classMatches + o.classMatches, classMismatches + o.classMismatches, classUnavailable + o.classUnavailable)
    }
  }

  const NO_SIDE := SideCounts(0, 0, 0, 0, 0, 0)

  const NO_COUNTS := Counts(NO_SIDE, NO_SIDE, 0, 0, 0, 0, 0)

  function SumOf(xs: seq<real>): real {
    if xs == [] then 0.0 else SumOf(xs[..|xs| - 1]) + xs[|xs| - 1]
  }

  function Mean(xs: seq<real>): real
    requires xs != []
  {
    SumOf(xs) / |xs| as real
  }

  /** The frame's mean, if it has samples. */
  function Sample(xs: seq<real>): seq<real> {
    if xs == [] then [] else [Mean(xs)]
  }

  ghost predicate IsFound(r: FrameMatch, a: seq<Detection>, b: seq<Detection>) {
    exists chosen :: FrameResult(r, chosen, a, b)
  }

  lemma FoundExists(a: seq<Detection>, b: seq<Detection>)
    ensures exists r :: IsFound(r, a, b)
  {
    var r, chosen := FrameResultExists(a, b);
    assert IsFound(r, a, b);
  }

  /** The result of match_frame, which is unique. */
  ghost function Found(a: seq<Detection>, b: seq<Detection>): FrameMatch {
    FoundExists(a, b);
    var r :| IsFound(r, a, b);
    r
  }

  lemma FoundIs(r: FrameMatch, chosen: seq<Matching.Pair>, a: seq<Detection>, b: seq<Detection>)
    requires FrameResult(r, chosen, a, b)
    ensures Found(a, b) == r
  {
    FoundExists(a, b);
    var f := Found(a, b);
    assert IsFound(f, a, b);
    var other :| FrameResult(f, other, a, b);
    FrameResultIsUnique(r, chosen, f, other, a, b);
  }

  method FindMatches(a: seq<Detection>, b: seq<Detection>) returns (f: FrameMatch)
    ensures f == Found(a, b)
  {
    var r, chosen := MatchFrame(a, b);
    FoundIs(r, chosen, a, b);
    f := r;
  }

  // ---------- One arrival, on values

  datatype State = State(
    bufA: map<Stamp, Message>, bufB: map<Stamp, Message>, counts: Counts, frameIous: seq<real>, frameDeltas: seq<real>)
  {
    function Buf(s: Side): map<Stamp, Message> { if s == A then bufA else bufB }

    function Waiting(s: Side, k: Stamp): Option<Message> {
      if k in Buf(s) then Some(Buf(s)[k]) else None
    }

    function With(s: Side, m: map<Stamp, Message>): State {
      if s == A then this.(bufA := m) else this.(bufB := m)
    }
  }

  const START := State(map[], map[], NO_COUNTS, [], [])

  function Other(s: Side): Side { if s == A then B else A }

  /** What an accepted message adds to the counters, given what waits under its stamp on its
      own side and on the other. */
  ghost function Gain(e: Arrival, own: Option<Message>, other: Option<Message>): Counts {
    var n := |e.msg.detections|;
    var mine := NO_SIDE.Receive(n);
    if other.Some? then
      // The arriving message is the first argument of match_frame on either side.
      var f := Found(e.msg.detections, other.value.detections);
      var here := mine.Pair(n, f.unmatchedA);
      var there := NO_SIDE.Pair(|other.value.detections|, f.unmatchedB);
      Counts(if e.side == A then here else there, if e.side == A then there else here, 1,
             |f.ious|, f.matches, f.mismatches, f.unavailable)
    else
      var here := if own.Some? then mine.Replace(|own.value.detections|) else mine;
      NO_COUNTS.(a := if e.side == A then here else NO_SIDE, b := if e.side == A then NO_SIDE else here)
  }

  ghost function On(st: State, e: Arrival): State {
    if !Acceptable(e.msg) then st
    else
      var k := StampOf(e.msg);
      var own, other := st.Waiting(e.side, k), st.Waiting(Other(e.side), k);
      var t := st.(counts := st.counts.Plus(Gain(e, own, other)));
      if other.Some? then
        var f := Found(e.msg.detections, other.value.detections);
        t.(frameIous := st.frameIous + Sample(f.ious), frameDeltas := st.frameDeltas + Sample(f.scoreDeltas))
        .With(Other(e.side), st.Buf(Other(e.side)) - {k})
      else t.With(e.side, st.Buf(e.side)[k := e.msg])
  }

  ghost function Run(trace: seq<Arrival>): State {
    if trace == [] then START else On(Run(trace[..|trace| - 1]), trace[|trace| - 1])
  }

  /** Pairing, counter by counter; `f` is what is found in the two frames. */
  predicate Paired(st: State, t: State, side: Side, k: Stamp, n: nat, m: nat, f: FrameMatch) {
    && t.bufA == (if side == A then st.bufA else st.bufA - {k})
    && t.bufB == (if side == A then st.bufB - {k} else st.bufB)
    && (side == A ==>
          t.counts.a == st.counts.a.Receive(n).Pair(n, f.unmatchedA) && t.counts.b == st.counts.b.Pair(m, f.unmatchedB))
    && (side == B ==>
          t.counts.b == st.counts.b.Receive(n).Pair(n, f.unmatchedA) && t.counts.a == st.counts.a.Pair(m, f.unmatchedB))
    && t.frameIous == st.frameIous + Sample(f.ious) && t.frameDeltas == st.frameDeltas + Sample(f.scoreDeltas)
    && t.counts.pairedFrames == st.counts.pairedFrames + 1 && t.counts.matched == st.counts.matched + |f.ious|
    && t.counts.classMatches == st.counts.classMatches + f.matches
    && t.counts.classMismatches == st.counts.classMismatches + f.mismatches
    && t.counts.classUnavailable == st.counts.classUnavailable + f.unavailable
  }

  lemma OnPairs(st: State, e: Arrival, other: Message)
    requires Acceptable(e.msg) && st.Waiting(Other(e.side), StampOf(e.msg)) == Some(other)
    ensures Paired(st, On(st, e), e.side, StampOf(e.msg), |e.msg.detections|, |other.detections|,
                   Found(e.msg.detections, other.detections))
  {}

  /** The message waiting under `k` leaves its buffer and both sides count a paired frame. */
  function Took(
    st: State, side: Side, k: Stamp, here: nat, there: nat, unmatchedHere: nat, unmatchedThere: nat): State
  {
    var t := st.(counts := st.counts.(pairedFrames := st.counts.pairedFrames + 1));
    if side == A then
      t.(bufB := st.bufB - {k},
         counts := t.counts.(a := st.counts.a.Receive(here).Pair(here, unmatchedHere),
                             b := st.counts.b.Pair(there, unmatchedThere)))
    else
      t.(bufA := st.bufA - {k},
         counts := t.counts.(b := st.counts.b.Receive(here).Pair(here, unmatchedHere),
                             a := st.counts.a.Pair(there, unmatchedThere)))
  }

  /** The samples and class counts of one paired frame. */
  function Observed(st: State, f: FrameMatch): State {
    st.(frameIous := st.frameIous + Sample(f.ious), frameDeltas := st.frameDeltas + Sample(f.scoreDeltas),
        counts := st.counts.(matched := st.counts.matched + |f.ious|,
                             classMatches := st.counts.classMatches + f.matches,
                             classMismatches := st.counts.classMismatches + f.mismatches,
                             classUnavailable := st.counts.classUnavailable + f.unavailable))
  }

  lemma PairIsOn(st: State, e: Arrival, other: Message, f: FrameMatch)
    requires Acceptable(e.msg) && st.Waiting(Other(e.side), StampOf(e.msg)) == Some(other)
    requires f == Found(e.msg.detections, other.detections)
    ensures var n, m := |e.msg.detections|, |other.detections|;
            Observed(Took(st, e.side, StampOf(e.msg), n, m, f.unmatchedA, f.unmatchedB), f) == On(st, e)
  {
    OnPairs(st, e, other);
  }

  /** Storing, counter by counter; `own` is the message that is replaced. */
  predicate Stored(st: State, t: State, e: Arrival, own: Option<Message>) {
    var n := |e.msg.detections|;
    && (e.side == A ==>
          && t.counts.a == (var c := st.counts.a.Receive(n); if own.Some? then c.Replace(|own.value.detections|) else c)
          && t.counts.b == st.counts.b
          && t.bufA == st.bufA[StampOf(e.msg) := e.msg] && t.bufB == st.bufB)
    && (e.side == B ==>
          && t.counts.b == (var c := st.counts.b.Receive(n); if own.Some? then c.Replace(|own.value.detections|) else c)
          && t.counts.a == st.counts.a
          && t.bufB == st.bufB[StampOf(e.msg) := e.msg] && t.bufA == st.bufA)
    && t.frameIous == st.frameIous && t.frameDeltas == st.frameDeltas
    && t.counts.(a := st.counts.a, b := st.counts.b) == st.counts
  }

  lemma OnStores(st: State, e: Arrival)
    requires Acceptable(e.msg) && st.Waiting(Other(e.side), StampOf(e.msg)).None?
    ensures Stored(st, On(st, e), e, st.Waiting(e.side, StampOf(e.msg)))
  {}

  lemma StoredIsOn(st: State, t: State, e: Arrival)
    requires Acceptable(e.msg) && st.Waiting(Other(e.side), StampOf(e.msg)).None?
    requires Stored(st, t, e, st.Waiting(e.side, StampOf(e.msg)))
    ensures t == On(st, e)
  {
    OnStores(st, e);
  }

  // ---------- Detections waiting in a buffer

  ghost function Pending(m: map<Stamp, Message>): nat {
    if m == map[] then 0
    else
      var k :| k in m;
      |m[k].detections| + Pending(m - {k})
  }

  lemma {:induction false} PendingRemove(m: map<Stamp, Message>, k: Stamp)
    requires k in m
    ensures Pending(m) == |m[k].detections| + Pending(m - {k})
    decreases |m|
  {
    var first :| first in m && Pending(m) == |m[first].detections| + Pending(m - {first});
    if first != k {
      PendingRemove(m - {first}, k);
      PendingRemove(m - {k}, first);
      assert m - {first} - {k} == m - {k} - {first};
    }
  }

  lemma PutThenRemove(m: map<Stamp, Message>, k: Stamp, v: Message)
    ensures m[k := v] - {k} == m - {k}
  {}

  lemma PendingPut(m: map<Stamp, Message>, k: Stamp, v: Message)
    ensures Pending(m[k := v]) == Pending(m - {k}) + |v.detections|
    ensures |m[k := v]| == |m - {k}| + 1
  {
    PendingRemove(m[k := v], k);
    SizeRemove(m[k := v], k);
    PutThenRemove(m, k, v);
  }

  lemma PendingAdd(m: map<Stamp, Message>, k: Stamp, v: Message)
    requires k !in m
    ensures Pending(m[k := v]) == Pending(m) + |v.detections| && |m[k := v]| == |m| + 1
  {
    PendingPut(m, k, v);
    assert m - {k} == m;
  }

  lemma SizeRemove(m: map<Stamp, Message>, k: Stamp)
    requires k in m
    ensures |m| == |m - {k}| + 1
  {
    assert m.Keys == (m - {k}).Keys + {k};
  }

  // ---------- Conservation in every trace

  ghost predicate SideOk(c: SideCounts, buf: map<Stamp, Message>, t: Counts) {
    && c.receivedFrames == t.pairedFrames + c.unpairedFrames + |buf|
    && c.receivedDetections == c.pairedDetections + c.unpairedDetections + Pending(buf)
    && c.pairedDetections == t.matched + c.pairedUnmatched
    && forall k :: k in buf ==> StampOf(buf[k]) == k && Acceptable(buf[k])
  }

  /** No stamp waits on both sides. */
  ghost predicate Apart(m: map<Stamp, Message>, n: map<Stamp, Message>) {
    forall k :: k in m ==> k !in n
  }

  ghost predicate Ok(st: State) {
    && Apart(st.bufA, st.bufB)
    && SideOk(st.counts.a, st.bufA, st.counts) && SideOk(st.counts.b, st.bufB, st.counts)
    && st.counts.classMatches + st.counts.classMismatches + st.counts.classUnavailable == st.counts.matched
    // A paired frame gives at most one sample to each list, and a score sample only with an
    // overlap sample.
    && |st.frameDeltas| <= |st.frameIous| <= st.counts.pairedFrames
  }

  lemma FoundFacts(a: seq<Detection>, b: seq<Detection>)
    ensures var f := Found(a, b);
            && |f.ious| + f.unmatchedA == |a| && |f.ious| + f.unmatchedB == |b|
            && f.matches + f.mismatches + f.unavailable == |f.ious|
            && |f.scoreDeltas| == f.matches + f.mismatches
  {
    FoundExists(a, b);
    var f := Found(a, b);
    assert IsFound(f, a, b);
    var chosen :| FrameResult(f, chosen, a, b);
    assert InRange(chosen, a, b);
    OutcomesCoverChoice(chosen, a, b);
  }

  /** The side whose waiting message is paired. */
  lemma TakeOnSide(c: SideCounts, buf: map<Stamp, Message>, t: Counts, u: Counts, k: Stamp, unmatched: nat)
    requires SideOk(c, buf, t) && k in buf && u.pairedFrames == t.pairedFrames + 1
    requires u.matched + unmatched == t.matched + |buf[k].detections|
    ensures SideOk(c.Pair(|buf[k].detections|, unmatched), buf - {k}, u)
  {
    PendingRemove(buf, k);
    SizeRemove(buf, k);
  }

  /** The side whose arriving message is paired. */
  lemma ArriveOnSide(c: SideCounts, buf: map<Stamp, Message>, t: Counts, u: Counts, n: nat, unmatched: nat)
    requires SideOk(c, buf, t) && u.pairedFrames == t.pairedFrames + 1 && u.matched + unmatched == t.matched + n
    ensures SideOk(c.Receive(n).Pair(n, unmatched), buf, u)
  {}

  lemma PairedKeepsSides(st: State, t: State, side: Side, k: Stamp, n: nat, f: FrameMatch)
    requires Ok(st) && k in st.Buf(Other(side))
    requires Paired(st, t, side, k, n, |st.Buf(Other(side))[k].detections|, f)
    requires |f.ious| + f.unmatchedA == n && |f.ious| + f.unmatchedB == |st.Buf(Other(side))[k].detections|
    ensures SideOk(t.counts.a, t.bufA, t.counts) && SideOk(t.counts.b, t.bufB, t.counts)
  {
    if side == A {
      ArriveOnSide(st.counts.a, st.bufA, st.counts, t.counts, n, f.unmatchedA);
      TakeOnSide(st.counts.b, st.bufB, st.counts, t.counts, k, f.unmatchedB);
    } else {
      ArriveOnSide(st.counts.b, st.bufB, st.counts, t.counts, n, f.unmatchedA);
      TakeOnSide(st.counts.a, st.bufA, st.counts, t.counts, k, f.unmatchedB);
    }
  }

  lemma PairingKeepsOk(st: State, e: Arrival)
    requires Ok(st) && Acceptable(e.msg) && st.Waiting(Other(e.side), StampOf(e.msg)).Some?
    ensures Ok(On(st, e))
  {
    var k := StampOf(e.msg);
    var other := st.Buf(Other(e.side))[k];
    var f := Found(e.msg.detections, other.detections);
    FoundFacts(e.msg.detections, other.detections);
    OnPairs(st, e, other);
    PairedKeepsSides(st, On(st, e), e.side, k, |e.msg.detections|, f);
  }

  lemma StoreOnSide(c: SideCounts, buf: map<Stamp, Message>, t: Counts, msg: Message)
    requires SideOk(c, buf, t) && StampOf(msg) !in buf && Acceptable(msg)
    ensures SideOk(c.Receive(|msg.detections|), buf[StampOf(msg) := msg], t)
  {
    PendingAdd(buf, StampOf(msg), msg);
  }

  lemma ReplaceOnSide(c: SideCounts, buf: map<Stamp, Message>, t: Counts, msg: Message)
    requires SideOk(c, buf, t) && StampOf(msg) in buf && Acceptable(msg)
    ensures SideOk(c.Receive(|msg.detections|).Replace(|buf[StampOf(msg)].detections|), buf[StampOf(msg) := msg], t)
  {
    PendingPut(buf, StampOf(msg), msg);
    PendingRemove(buf, StampOf(msg));
    SizeRemove(buf, StampOf(msg));
  }

  /** Only the counts of pairs in the counts matter to a side. */
  lemma SideIgnores(c: SideCounts, buf: map<Stamp, Message>, t: Counts, u: Counts)
    requires SideOk(c, buf, t) && u.pairedFrames == t.pairedFrames && u.matched == t.matched
    ensures SideOk(c, buf, u)
  {}

  lemma StoredKeepsSides(st: State, t: State, e: Arrival)
    requires Ok(st) && Acceptable(e.msg) && Stored(st, t, e, st.Waiting(e.side, StampOf(e.msg)))
    ensures SideOk(t.counts.a, t.bufA, t.counts) && SideOk(t.counts.b, t.bufB, t.counts)
  {
    var c := if e.side == A then st.counts.a else st.counts.b;
    if StampOf(e.msg) in st.Buf(e.side) {
      ReplaceOnSide(c, st.Buf(e.side), st.counts, e.msg);
    } else {
      StoreOnSide(c, st.Buf(e.side), st.counts, e.msg);
    }
    SideIgnores(t.counts.a, t.bufA, st.counts, t.counts);
    SideIgnores(t.counts.b, t.bufB, st.counts, t.counts);
  }

  lemma StoringKeepsOk(st: State, e: Arrival)
    requires Ok(st) && Acceptable(e.msg) && st.Waiting(Other(e.side), StampOf(e.msg)).None?
    ensures Ok(On(st, e))
  {
    OnStores(st, e);
    StoredKeepsSides(st, On(st, e), e);
  }

  lemma ArrivalKeepsOk(st: State, e: Arrival)
    requires Ok(st)
    ensures Ok(On(st, e))
  {
    if Acceptable(e.msg) {
      if st.Waiting(Other(e.side), StampOf(e.msg)).Some? {
        PairingKeepsOk(st, e);
      } else {
        StoringKeepsOk(st, e);
      }
    }
  }

  lemma NothingPending(st: State)
    requires st.bufA == st.bufB == map[] && st.counts == NO_COUNTS
    ensures SideOk(st.counts.a, st.bufA, st.counts) && SideOk(st.counts.b, st.bufB, st.counts)
  {}

  lemma StartOk(st: State)
    requires st.bufA == st.bufB == map[] && st.counts == NO_COUNTS && st.frameIous == st.frameDeltas == []
    ensures Ok(st)
  {
    NothingPending(st);
  }

  lemma {:induction false} RunOk(trace: seq<Arrival>)
    ensures Ok(Run(trace))
  {
    if trace == [] {
      StartOk(START);
    } else {
      var before := Run(trace[..|trace| - 1]);
      RunOk(trace[..|trace| - 1]);
      ArrivalKeepsOk(before, trace[|trace| - 1]);
    }
  }

  // ---------- One stamp at a time

  /** Everything the comparator reports about a trace; the samples without their order. */
  datatype Totals = Totals(counts: Counts, ious: multiset<real>, deltas: multiset<real>)
  {
    function Plus(o: Totals): Totals {
      Totals(counts.Plus(o.counts), ious + o.ious, deltas + o.deltas)
    }
  }

  const NOTHING := Totals(NO_COUNTS, multiset{}, multiset{})

  function TotalsOf(st: State): Totals {
    Totals(st.counts, multiset(st.frameIous), multiset(st.frameDeltas))
  }

  lemma PlusSwap(x: Totals, y: Totals, z: Totals)
    ensures x.Plus(y).Plus(z) == x.Plus(z).Plus(y)
  {}

  lemma PlusAssociates(x: Totals, y: Totals, z: Totals)
    ensures x.Plus(y.Plus(z)) == x.Plus(y).Plus(z)
  {}

  lemma PlusNothing(x: Totals)
    ensures x.Plus(NOTHING) == x
  {}

  function Sub(trace: seq<Arrival>, k: Stamp): seq<Arrival> {
    if trace == [] then []
    else Sub(trace[..|trace| - 1], k) + if StampOf(trace[|trace| - 1].msg) == k then [trace[|trace| - 1]] else []
  }

  lemma RunSnoc(trace: seq<Arrival>, e: Arrival)
    ensures Run(trace + [e]) == On(Run(trace), e)
  {
    assert (trace + [e])[..|trace|] == trace;
  }

  /** An arrival changes what waits under its own stamp only, and that only depending on what
      waited there. */
  lemma OnIsLocal(st: State, e: Arrival, k: Stamp, s: Side)
    ensures k != StampOf(e.msg) ==> On(st, e).Waiting(s, k) == st.Waiting(s, k)
    ensures k == StampOf(e.msg) && Acceptable(e.msg) ==>
              On(st, e).Waiting(s, k) ==
              if st.Waiting(Other(e.side), k).Some? then (if s == e.side then st.Waiting(s, k) else None)
              else if s == e.side then Some(e.msg) else None
    ensures !Acceptable(e.msg) ==> On(st, e) == st
  {}

  /** What waits under a stamp is decided by the arrivals with that stamp. */
  lemma {:induction false} WaitingIsLocal(trace: seq<Arrival>, k: Stamp, s: Side)
    ensures Run(trace).Waiting(s, k) == Run(Sub(trace, k)).Waiting(s, k)
  {
    if trace == [] {
    } else {
      var before, e := trace[..|trace| - 1], trace[|trace| - 1];
      WaitingIsLocal(before, k, A);
      WaitingIsLocal(before, k, B);
      OnIsLocal(Run(before), e, k, s);
      if StampOf(e.msg) == k {
        RunSnoc(Sub(before, k), e);
        OnIsLocal(Run(Sub(before, k)), e, k, s);
      } else {
        assert Sub(trace, k) == Sub(before, k);
      }
    }
  }

  ghost function SumParts(trace: seq<Arrival>, stamps: seq<Stamp>): Totals {
    if stamps == [] then NOTHING
    else SumParts(trace, stamps[..|stamps| - 1]).Plus(TotalsOf(Run(Sub(trace, stamps[|stamps| - 1]))))
  }

  predicate Distinct(stamps: seq<Stamp>) {
    forall i, j :: 0 <= i < j < |stamps| ==> stamps[i] != stamps[j]
  }

  /** Adding `e` to a trace adds its gain to the sum, through the part of its own stamp. */
  lemma {:induction false} SumPartsSnoc(trace: seq<Arrival>, e: Arrival, stamps: seq<Stamp>, gain: Totals)
    requires Distinct(stamps)
    requires TotalsOf(Run(Sub(trace, StampOf(e.msg)) + [e])) == TotalsOf(Run(Sub(trace, StampOf(e.msg)))).Plus(gain)
    ensures SumParts(trace + [e], stamps) ==
            if StampOf(e.msg) in stamps then SumParts(trace, stamps).Plus(gain) else SumParts(trace, stamps)
  {
    if stamps == [] {
    } else {
      var rest, k := stamps[..|stamps| - 1], stamps[|stamps| - 1];
      SumPartsSnoc(trace, e, rest, gain);
      assert (trace + [e])[..|trace|] == trace;
      if k == StampOf(e.msg) {
        assert k !in rest;
        PlusAssociates(SumParts(trace, rest), TotalsOf(Run(Sub(trace, k))), gain);
      } else {
        assert k != StampOf(e.msg) && Sub(trace + [e], k) == Sub(trace, k);
        assert StampOf(e.msg) in stamps <==> StampOf(e.msg) in rest;
        PlusSwap(SumParts(trace, rest), gain, TotalsOf(Run(Sub(trace, k))));
      }
    }
  }

  lemma {:induction false} SumOfEmptyTrace(stamps: seq<Stamp>)
    ensures SumParts([], stamps) == NOTHING
  {
    if stamps == [] {
    } else {
      SumOfEmptyTrace(stamps[..|stamps| - 1]);
      var part := Run(Sub([], stamps[|stamps| - 1]));
      assert TotalsOf(part) == NOTHING;
      PlusNothing(NOTHING);
    }
  }

  /** What an accepted message adds to everything. */
  ghost function TotalGain(e: Arrival, own: Option<Message>, other: Option<Message>): Totals {
    if other.Some? then
      var f := Found(e.msg.detections, other.value.detections);
      Totals(Gain(e, own, other), multiset(Sample(f.ious)), multiset(Sample(f.scoreDeltas)))
    else Totals(Gain(e, own, other), multiset{}, multiset{})
  }

  lemma TotalsGain(st: State, e: Arrival)
    requires Acceptable(e.msg)
    ensures TotalsOf(On(st, e)) ==
            TotalsOf(st).Plus(TotalGain(e, st.Waiting(e.side, StampOf(e.msg)),
                st.Waiting(Other(e.side), StampOf(e.msg))))
  {}

  /** The gain of `e` after `trace` is its gain after the arrivals of its own stamp. */
  lemma GainIsLocal(trace: seq<Arrival>, e: Arrival) returns (gain: Totals)
    ensures TotalsOf(Run(Sub(trace, StampOf(e.msg)) + [e])) == TotalsOf(Run(Sub(trace, StampOf(e.msg)))).Plus(gain)
    ensures TotalsOf(Run(trace + [e])) == TotalsOf(Run(trace)).Plus(gain)
  {
    var k := StampOf(e.msg);
    var whole, part := Run(trace), Run(Sub(trace, k));
    RunSnoc(Sub(trace, k), e);
    RunSnoc(trace, e);
    if Acceptable(e.msg) {
      WaitingIsLocal(trace, k, A);
      WaitingIsLocal(trace, k, B);
      gain := TotalGain(e, part.Waiting(e.side, k), part.Waiting(Other(e.side), k));
      TotalsGain(part, e);
      TotalsGain(whole, e);
    } else {
      gain := NOTHING;
      PlusNothing(TotalsOf(part));
      PlusNothing(TotalsOf(whole));
    }
  }

  lemma StartTotals()
    ensures TotalsOf(START) == NOTHING
  {}

  lemma LastArrival(trace: seq<Arrival>)
    requires trace != []
    ensures trace == trace[..|trace| - 1] + [trace[|trace| - 1]]
  {}

  lemma EmptyTraceSums(trace: seq<Arrival>, stamps: seq<Stamp>)
    requires trace == []
    ensures TotalsOf(Run(trace)) == SumParts(trace, stamps)
  {
    SumOfEmptyTrace(stamps);
    StartTotals();
  }

  lemma SumStep(before: seq<Arrival>, e: Arrival, trace: seq<Arrival>, stamps: seq<Stamp>)
    requires Distinct(stamps) && StampOf(e.msg) in stamps && TotalsOf(Run(before)) == SumParts(before, stamps)
    requires trace == before + [e]
    ensures TotalsOf(Run(trace)) == SumParts(trace, stamps)
  {
    var gain := GainIsLocal(before, e);
    SumPartsSnoc(before, e, stamps, gain);
  }

  /** The whole result is the sum over the stamps of running the comparator on each stamp's
      arrivals alone. */
  lemma {:induction false} TotalsAreSumOverStamps(trace: seq<Arrival>, stamps: seq<Stamp>)
    requires Distinct(stamps) && forall k :: 0 <= k < |trace| ==> StampOf(trace[k].msg) in stamps
    ensures TotalsOf(Run(trace)) == SumParts(trace, stamps)
  {
    if trace == [] {
      EmptyTraceSums(trace, stamps);
    } else {
      var before, e := trace[..|trace| - 1], trace[|trace| - 1];
      assert forall k :: 0 <= k < |before| ==> before[k] == trace[k];
      LastArrival(trace);
      TotalsAreSumOverStamps(before, stamps);
      SumStep(before, e, trace, stamps);
    }
  }

  // ---------- The object

  datatype Summary = Summary(
    receivedFramesA: nat, receivedFramesB: nat, pairedFrames: nat, unmatchedFramesA: nat, unmatchedFramesB: nat,
    receivedDetectionsA: nat, receivedDetectionsB: nat, matched: nat,
    unmatchedDetectionsA: nat, unmatchedDetectionsB: nat,
    matches: nat, mismatches: nat, unavailable: nat)

  class DetectionComparator {
    var bufA: map<Stamp, Message>
    var bufB: map<Stamp, Message>
    var dataError: bool
    var a: SideCounts
    var b: SideCounts
    var pairedFrames: nat
    var frameIous: seq<real>
    var frameDeltas: seq<real>
    var matched: nat
    var classMatches: nat
    var classMismatches: nat
    var classUnavailable: nat
    ghost var trace: seq<Arrival>

    function View(): State
      reads this
    {
      State(bufA, bufB,
            Counts(a, b, pairedFrames, matched, classMatches, classMismatches, classUnavailable), frameIous,
                frameDeltas)
    }

    /** The fields are what the arrivals so far make of them. */
    ghost predicate Valid()
      reads this
    {
      View() == Run(trace)
    }

    constructor ()
      ensures Valid() && trace == [] && !dataError
    {
      bufA, bufB, dataError := map[], map[], false;
      a, b, pairedFrames, matched := NO_SIDE, NO_SIDE, 0, 0;
      frameIous, frameDeltas := [], [];
      classMatches, classMismatches, classUnavailable := 0, 0, 0;
      trace := [];
    }

    /** _on: a malformed message only records the error. */
    method Receive(e: Arrival)
      requires Valid()
      modifies this
      ensures Valid() && trace == old(trace) + [e]
      ensures View() == On(old(View()), e)
      ensures dataError == (old(dataError) || !Acceptable(e.msg))
      ensures old(frameIous) <= frameIous && old(frameDeltas) <= frameDeltas
    {
      RunSnoc(trace, e);
      if !Acceptable(e.msg) {
        dataError, trace := true, trace + [e];
        return;
      }
      var k := StampOf(e.msg);
      if k in View().Buf(Other(e.side)) {
        PairWith(e, View().Buf(Other(e.side))[k]);
      } else {
        Store(e);
      }
      trace := trace + [e];
    }

    method PairWith(e: Arrival, other: Message)
      requires View().Waiting(Other(e.side), StampOf(e.msg)) == Some(other) && Acceptable(e.msg)
      modifies this
      ensures View() == On(old(View()), e)
      ensures dataError == old(dataError) && trace == old(trace)
      ensures old(frameIous) <= frameIous && old(frameDeltas) <= frameDeltas
    {
      var f := FindMatches(e.msg.detections, other.detections);
      ghost var before := View();
      TakeWaiting(e.side, StampOf(e.msg), |e.msg.detections|, |other.detections|, f.unmatchedA, f.unmatchedB);
      Observe(f);
      PairIsOn(before, e, other, f);
    }

    method TakeWaiting(side: Side, k: Stamp, here: nat, there: nat, unmatchedHere: nat, unmatchedThere: nat)
      modifies `bufA, `bufB, `a, `b, `pairedFrames
      ensures View() == Took(old(View()), side, k, here, there, unmatchedHere, unmatchedThere)
    {
      if side == A {
        bufB := bufB - {k};
        a := a.Receive(here).Pair(here, unmatchedHere);
        b := b.Pair(there, unmatchedThere);
      } else {
        bufA := bufA - {k};
        b := b.Receive(here).Pair(here, unmatchedHere);
        a := a.Pair(there, unmatchedThere);
      }
      pairedFrames := pairedFrames + 1;
    }

    method Observe(f: FrameMatch)
      modifies `frameIous, `frameDeltas, `matched, `classMatches, `classMismatches, `classUnavailable
      ensures View() == Observed(old(View()), f)
    {
      if f.ious != [] {
        frameIous := frameIous + [Mean(f.ious)];
        matched := matched + |f.ious|;
      }
      if f.scoreDeltas != [] {
        frameDeltas := frameDeltas + [Mean(f.scoreDeltas)];
      }
      classMatches := classMatches + f.matches;
      classMismatches := classMismatches + f.mismatches;
      classUnavailable := classUnavailable + f.unavailable;
    }

    method Store(e: Arrival)
      requires View().Waiting(Other(e.side), StampOf(e.msg)).None? && Acceptable(e.msg)
      modifies this
      ensures View() == On(old(View()), e)
      ensures dataError == old(dataError) && trace == old(trace)
      ensures frameIous == old(frameIous) && frameDeltas == old(frameDeltas)
    {
      var k, n := StampOf(e.msg), |e.msg.detections|;
      ghost var before := View();
      if e.side == A {
        a := a.Receive(n);
        if k in bufA {
          a := a.Replace(|bufA[k].detections|);
        }
        bufA := bufA[k := e.msg];
      } else {
        b := b.Receive(n);
        if k in bufB {
          b := b.Replace(|bufB[k].detections|);
        }
        bufB := bufB[k := e.msg];
      }
      StoredIsOn(before, View(), e);
    }

    /** summary: nothing that was received is missing from the counts it reports. */
    method Summarize() returns (s: Summary)
      requires Valid()
      ensures s.receivedFramesA == s.pairedFrames + s.unmatchedFramesA
      ensures s.receivedFramesB == s.pairedFrames + s.unmatchedFramesB
      ensures s.receivedDetectionsA == s.matched + s.unmatchedDetectionsA
      ensures s.receivedDetectionsB == s.matched + s.unmatchedDetectionsB
      ensures s.matches + s.mismatches + s.unavailable == s.matched
      ensures s.receivedFramesA == a.receivedFrames && s.receivedDetectionsA == a.receivedDetections
      ensures s.receivedFramesB == b.receivedFrames && s.receivedDetectionsB == b.receivedDetections
      ensures s.pairedFrames == pairedFrames && s.matched == matched
      ensures s.matches == classMatches && s.mismatches == classMismatches && s.unavailable == classUnavailable
    {
      RunOk(trace);
      var pendingA := CountPending(bufA);
      var pendingB := CountPending(bufB);
      s := Summary(
        a.receivedFrames, b.receivedFrames, pairedFrames, a.unpairedFrames + |bufA|, b.unpairedFrames + |bufB|,
        a.receivedDetections, b.receivedDetections, matched,
        a.pairedUnmatched + (a.unpairedDetections + pendingA), b.pairedUnmatched + (b.unpairedDetections + pendingB),
        classMatches, classMismatches, classUnavailable);
    }
  }

  method CountPending(m: map<Stamp, Message>) returns (n: nat)
    ensures n == Pending(m)
  {
    n := 0;
    var left := m;
    while left != map[]
      invariant n + Pending(left) == Pending(m)
      decreases |left|
    {
      var k :| k in left;
      PendingRemove(left, k);
      SizeRemove(left, k);
      n := n + |left[k].detections|;
      left := left - {k};
    }
  }

  // ---------- How many frames of a side are received

  function Accepted(trace: seq<Arrival>, s: Side): nat {
    if trace == [] then 0
    else
      var e := trace[|trace| - 1];
      Accepted(trace[..|trace| - 1], s) + if e.side == s && Acceptable(e.msg) then 1 else 0
  }

  function AcceptedDetections(trace: seq<Arrival>, s: Side): nat {
    if trace == [] then 0
    else
      var e := trace[|trace| - 1];
      AcceptedDetections(trace[..|trace| - 1], s) + if e.side == s && Acceptable(e.msg) then |e.msg.detections| else 0
  }

  /** The received counters are what arrived well formed on each side. */
  lemma {:induction false} ReceivedIsAccepted(trace: seq<Arrival>)
    ensures Run(trace).counts.a.receivedFrames == Accepted(trace, A)
    ensures Run(trace).counts.b.receivedFrames == Accepted(trace, B)
    ensures Run(trace).counts.a.receivedDetections == AcceptedDetections(trace, A)
    ensures Run(trace).counts.b.receivedDetections == AcceptedDetections(trace, B)
  {
    if trace == [] {
    } else {
      var before, e := trace[..|trace| - 1], trace[|trace| - 1];
      ReceivedIsAccepted(before);
      if Acceptable(e.msg) {
        TotalsGain(Run(before), e);
      }
    }
  }
}
