/**
 The bag comparison as a whole: read and filter the frames of both bags, pair them, match the
 detections of every pair, add up the counts.
 */
module BagReport {

  import opened BufferModel
  import opened Geometry
  import Matching
  import opened DetectionMatching
  import opened FramePairing

  /** One paired frame; the source's matched_count is the number of overlaps. */
  datatype FrameComparison = FrameComparison(refIndex: nat, candIndex: nat, found: BagMatch)
  {
    function Matched(): nat { |found.ious| }

    function Unmatched(): nat { found.unmatchedRef + found.unmatchedCand }
  }

  function Count(c: FrameComparison, what: Column): nat {
    match what
    case MatchedPairs => c.Matched()
    case UnmatchedRef => c.found.unmatchedRef
    case UnmatchedCand => c.found.unmatchedCand
    case ClassMatches => c.found.classMatches
    case ClassSamples => c.found.classSamples
    case FramesWithUnmatched => if c.Unmatched() > 0 then 1 else 0
  }

  datatype Column = MatchedPairs | UnmatchedRef | UnmatchedCand | ClassMatches | ClassSamples | FramesWithUnmatched

  function SumOf(cs: seq<FrameComparison>, what: Column): nat {
    if cs == [] then 0 else SumOf(cs[..|cs| - 1], what) + Count(cs[|cs| - 1], what)
  }

  function Detections(frames: seq<Frame>): nat {
    if frames == [] then 0 else Detections(frames[..|frames| - 1]) + |frames[|frames| - 1].detections|
  }

  /** Detections of the frames whose index is not in `paired`. */
  function Unpaired(frames: seq<Frame>, paired: set<nat>): nat {
    if frames == [] then 0
    else
      var f := frames[|frames| - 1];
      Unpaired(frames[..|frames| - 1], paired) + if f.index in paired then 0 else |f.detections|
  }

  function Indices(frames: seq<Frame>): set<nat> {
    set k | 0 <= k < |frames| :: frames[k].index
  }

  /** unpaired_detection_counts. */
  function UnpairedDetections(ref: seq<Frame>, cand: seq<Frame>, pairs: seq<FramePair>): (nat, nat) {
    (Unpaired(ref, Indices(Firsts(pairs))), Unpaired(cand, Indices(Seconds(pairs))))
  }

  datatype Summary = Summary(
    pairedFrames: nat, refFrames: nat, candFrames: nat, unpairedRefFrames: nat, unpairedCandFrames: nat,
    unpairedRefDetections: nat, unpairedCandDetections: nat,
    matched: nat, unmatchedRef: nat, unmatchedCand: nat, unmatchedFrames: nat,
    classMatches: nat, classSamples: nat)

  function Summarize(
    cs: seq<FrameComparison>, refFrames: nat, candFrames: nat, unpairedRef: nat, unpairedCand: nat,
    unpairedRefDetections: nat, unpairedCandDetections: nat): Summary
  {
    Summary(
      |cs|, refFrames, candFrames, unpairedRef, unpairedCand, unpairedRefDetections, unpairedCandDetections,
      SumOf(cs, MatchedPairs),
      unpairedRefDetections + SumOf(cs, UnmatchedRef),
      unpairedCandDetections + SumOf(cs, UnmatchedCand),
      unpairedRef + unpairedCand + SumOf(cs, FramesWithUnmatched),
      SumOf(cs, ClassMatches), SumOf(cs, ClassSamples))
  }

  predicate Comparable(p: FramePair) {
    AllSized(p.0.detections) && AllSized(p.1.detections)
  }

  /** What compare_frame reports for one pair. */
  ghost predicate Compares(c: FrameComparison, p: FramePair, classAware: bool) {
    && c.refIndex == p.0.index && c.candIndex == p.1.index
    && exists chosen :: BagResult(c.found, chosen, p.0.detections, p.1.detections, classAware)
  }

  method CompareFrame(ref: Frame, cand: Frame, classAware: bool) returns (r: Option<FrameComparison>)
    ensures r.Some? <==> Comparable((ref, cand))
    ensures r.Some? ==> Compares(r.value, (ref, cand), classAware)
  {
    var found, chosen := MatchDetections(ref.detections, cand.detections, classAware);
    if found.None? {
      return None;
    }
    r := Some(FrameComparison(ref.index, cand.index, found.value));
    assert BagResult(r.value.found, chosen, ref.detections, cand.detections, classAware);
  }

  /** `cs` holds one comparison per pair, in order. */
  ghost predicate AllCompare(cs: seq<FrameComparison>, pairs: seq<FramePair>, classAware: bool) {
    |cs| == |pairs| && forall k :: 0 <= k < |cs| ==> Compares(cs[k], pairs[k], classAware)
  }

  lemma AllCompareSnoc(cs: seq<FrameComparison>, c: FrameComparison, pairs: seq<FramePair>, p: FramePair,
      classAware: bool)
    requires AllCompare(cs, pairs, classAware) && Compares(c, p, classAware)
    ensures AllCompare(cs + [c], pairs + [p], classAware)
  {
    forall k | 0 <= k < |cs| + 1
      ensures Compares((cs + [c])[k], (pairs + [p])[k], classAware)
    {
      if k < |cs| { assert Compares(cs[k], pairs[k], classAware); }
    }
  }

  method CompareFrames(pairs: seq<FramePair>, classAware: bool) returns (r: Option<seq<FrameComparison>>)
    ensures r.Some? <==> forall k :: 0 <= k < |pairs| ==> Comparable(pairs[k])
    ensures r.Some? ==> AllCompare(r.value, pairs, classAware)
  {
    var cs: seq<FrameComparison> := [];
    for n := 0 to |pairs|
      invariant forall k :: 0 <= k < n ==> Comparable(pairs[k])
      invariant AllCompare(cs, pairs[..n], classAware)
    {
      var p := pairs[n];
      assert p == (p.0, p.1);
      var c := CompareFrame(p.0, p.1, classAware);
      if c.None? {
        assert !Comparable(pairs[n]);
        return None;
      }
      assert Comparable(pairs[n]);
      AllCompareSnoc(cs, c.value, pairs[..n], p, classAware);
      assert pairs[..n + 1] == pairs[..n] + [pairs[n]];
      cs := cs + [c.value];
    }
    assert pairs[..|pairs|] == pairs;
    r := Some(cs);
  }

  /** The report on two lists of frames, or None where the script stops with an error: an
      unknown policy, or a detection with a negative size in a paired frame. */
  method Report(ref: seq<Frame>, cand: seq<Frame>, policy: string, classAware: bool)
    returns (r: Option<Summary>, pairing: Option<Pairing>, cs: seq<FrameComparison>)
    ensures pairing.Some? <==> policy == "index" || policy == "stamp"
    ensures pairing.Some? ==> PairingResult(pairing.value, ref, cand, policy)
    ensures r.Some? <==> pairing.Some? && forall k :: 0 <= k < |pairing.value.pairs| ==>
              Comparable(pairing.value.pairs[k])
    ensures r.Some? ==> ReportResult(r.value, pairing.value, cs, ref, cand, classAware)
  {
    cs := [];
    pairing := PairFrames(ref, cand, policy);
    if pairing.None? {
      return None, None, [];
    }
    var p := pairing.value;
    var unpaired := UnpairedDetections(ref, cand, p.pairs);
    var found := CompareFrames(p.pairs, classAware);
    if found.None? {
      return None, pairing, [];
    }
    cs := found.value;
    r := Some(Summarize(cs, |ref|, |cand|, p.unpairedRef, p.unpairedCand, unpaired.0, unpaired.1));
  }

  ghost predicate ReportResult(
    r: Summary, pairing: Pairing, cs: seq<FrameComparison>, ref: seq<Frame>, cand: seq<Frame>, classAware: bool)
  {
    && AllCompare(cs, pairing.pairs, classAware)
    && var unpaired := UnpairedDetections(ref, cand, pairing.pairs);
    r == Summarize(cs, |ref|, |cand|, pairing.unpairedRef, pairing.unpairedCand, unpaired.0, unpaired.1)
  }

  // ---------- Conservation

  /** Taking one more frame out moves its detections from one side of the sum to the other. */
  lemma {:induction false} UnpairedWithout(frames: seq<Frame>, paired: set<nat>, i: nat)
    requires Indexed(frames) && i !in paired
    ensures Unpaired(frames, paired) == Unpaired(frames, paired + {i}) + if i < |frames| then |frames[i].detections|
              else 0
  {
    if frames == [] {
    } else {
      UnpairedWithout(frames[..|frames| - 1], paired, i);
    }
  }

  lemma {:induction false} UnpairedOfNone(frames: seq<Frame>)
    ensures Unpaired(frames, {}) == Detections(frames)
  {
    if frames == [] {
    } else {
      UnpairedOfNone(frames[..|frames| - 1]);
    }
  }

  lemma {:induction false} TakenPlusUnpaired(part: seq<Frame>, whole: seq<Frame>)
    requires Indexed(whole) && TakenFrom(part, whole)
    ensures Detections(part) + Unpaired(whole, Indices(part)) == Detections(whole)
  {
    if part == [] {
      assert Indices(part) == {};
      UnpairedOfNone(whole);
    } else {
      var rest, f := part[..|part| - 1], part[|part| - 1];
      TakenPlusUnpaired(rest, whole);
      UnpairedWithout(whole, Indices(rest), f.index);
      assert Indices(part) == Indices(rest) + {f.index} by {
        forall k | 0 <= k < |rest|
          ensures rest[k].index in Indices(part)
        {
          assert part[k] == rest[k];
        }
      }
    }
  }

  /** What is matched and left over in a paired frame is what the frame holds. */
  predicate AddsUp(c: FrameComparison, p: FramePair) {
    |p.0.detections| == c.Matched() + c.found.unmatchedRef && |p.1.detections| == c.Matched() + c.found.unmatchedCand
  }

  lemma FrameDetections(c: FrameComparison, p: FramePair, classAware: bool)
    requires Compares(c, p, classAware)
    ensures AddsUp(c, p)
  {
    var chosen :| BagResult(c.found, chosen, p.0.detections, p.1.detections, classAware);
  }

  lemma {:induction false} SumsAddUp(cs: seq<FrameComparison>, pairs: seq<FramePair>)
    requires |cs| == |pairs| && forall k :: 0 <= k < |cs| ==> AddsUp(cs[k], pairs[k])
    ensures Detections(Firsts(pairs)) == SumOf(cs, MatchedPairs) + SumOf(cs, UnmatchedRef)
    ensures Detections(Seconds(pairs)) == SumOf(cs, MatchedPairs) + SumOf(cs, UnmatchedCand)
  {
    if cs == [] {
    } else {
      var n := |cs| - 1;
      SumsAddUp(cs[..n], pairs[..n]);
      assert Firsts(pairs)[..n] == Firsts(pairs[..n]) && Seconds(pairs)[..n] == Seconds(pairs[..n]);
      assert AddsUp(cs[n], pairs[n]);
    }
  }

  lemma PairedDetections(cs: seq<FrameComparison>, pairs: seq<FramePair>, classAware: bool)
    requires AllCompare(cs, pairs, classAware)
    ensures Detections(Firsts(pairs)) == SumOf(cs, MatchedPairs) + SumOf(cs, UnmatchedRef)
    ensures Detections(Seconds(pairs)) == SumOf(cs, MatchedPairs) + SumOf(cs, UnmatchedCand)
  {
    forall k | 0 <= k < |cs|
      ensures AddsUp(cs[k], pairs[k])
    {
      FrameDetections(cs[k], pairs[k], classAware);
    }
    SumsAddUp(cs, pairs);
  }

  /** For any two bags: every detection of either bag is counted once, as matched, as left
      over in a paired frame, or in an unpaired frame; and every frame is paired or not. */
  lemma ReportConserves(
    r: Summary, pairing: Pairing, cs: seq<FrameComparison>, ref: seq<Frame>, cand: seq<Frame>, policy: string,
    classAware: bool)
    requires Indexed(ref) && Indexed(cand)
    requires PairingResult(pairing, ref, cand, policy) && ReportResult(r, pairing, cs, ref, cand, classAware)
    ensures Detections(ref) == r.matched + r.unmatchedRef
    ensures Detections(cand) == r.matched + r.unmatchedCand
    ensures r.refFrames == r.pairedFrames + r.unpairedRefFrames
    ensures r.candFrames == r.pairedFrames + r.unpairedCandFrames
  {
    PairingTakes(pairing, ref, cand, policy);
    TakenPlusUnpaired(Firsts(pairing.pairs), ref);
    TakenPlusUnpaired(Seconds(pairing.pairs), cand);
    PairedDetections(cs, pairing.pairs, classAware);
  }

  predicate ClassCountsFitFrame(c: FrameComparison, classAware: bool) {
    && c.found.classMatches <= c.found.classSamples <= c.Matched()
    && (classAware ==> c.found.classMatches == c.found.classSamples)
  }

  lemma FrameFits(c: FrameComparison, p: FramePair, classAware: bool)
    requires Compares(c, p, classAware)
    ensures ClassCountsFitFrame(c, classAware)
  {
    var a, b := p.0.detections, p.1.detections;
    var chosen :| BagResult(c.found, chosen, a, b, classAware);
    OutcomesCoverChoice(chosen, a, b);
    if classAware { ClassAwareNeverMismatches(chosen, a, b); }
  }

  lemma {:induction false} SumsFit(cs: seq<FrameComparison>, classAware: bool)
    requires forall k :: 0 <= k < |cs| ==> ClassCountsFitFrame(cs[k], classAware)
    ensures SumOf(cs, ClassMatches) <= SumOf(cs, ClassSamples) <= SumOf(cs, MatchedPairs)
    ensures classAware ==> SumOf(cs, ClassMatches) == SumOf(cs, ClassSamples)
  {
    if cs == [] {
    } else {
      SumsFit(cs[..|cs| - 1], classAware);
      assert ClassCountsFitFrame(cs[|cs| - 1], classAware);
    }
  }

  /** Class counts never exceed what was matched, and with class-aware matching every class
      comparison is an agreement. */
  lemma ClassCountsFit(cs: seq<FrameComparison>, pairs: seq<FramePair>, classAware: bool)
    requires AllCompare(cs, pairs, classAware)
    ensures SumOf(cs, ClassMatches) <= SumOf(cs, ClassSamples) <= SumOf(cs, MatchedPairs)
    ensures classAware ==> SumOf(cs, ClassMatches) == SumOf(cs, ClassSamples)
  {
    forall k | 0 <= k < |cs|
      ensures ClassCountsFitFrame(cs[k], classAware)
    {
      FrameFits(cs[k], pairs[k], classAware);
    }
    SumsFit(cs, classAware);
  }

  lemma ComparedOnce(c: FrameComparison, d: FrameComparison, p: FramePair, classAware: bool)
    requires Compares(c, p, classAware) && Compares(d, p, classAware)
    ensures c == d
  {
    var a, b := p.0.detections, p.1.detections;
    var chosen :| BagResult(c.found, chosen, a, b, classAware);
    var chosen' :| BagResult(d.found, chosen', a, b, classAware);
    BagResultIsUnique(c.found, chosen, d.found, chosen', a, b, classAware);
  }

  lemma AllComparedOnce(cs: seq<FrameComparison>, cs': seq<FrameComparison>, pairs: seq<FramePair>, classAware: bool)
    requires AllCompare(cs, pairs, classAware) && AllCompare(cs', pairs, classAware)
    ensures cs == cs'
  {
    forall k | 0 <= k < |cs|
      ensures cs[k] == cs'[k]
    {
      ComparedOnce(cs[k], cs'[k], pairs[k], classAware);
    }
  }

  /** Two reports of the same bags under the same options are equal. */
  lemma ReportIsDetermined(
    r: Summary, p: Pairing, cs: seq<FrameComparison>, r': Summary, p': Pairing, cs': seq<FrameComparison>,
    ref: seq<Frame>, cand: seq<Frame>, policy: string, classAware: bool)
    requires PairingResult(p, ref, cand, policy) && ReportResult(r, p, cs, ref, cand, classAware)
    requires PairingResult(p', ref, cand, policy) && ReportResult(r', p', cs', ref, cand, classAware)
    ensures cs == cs' && r == r'
  {
    AllComparedOnce(cs, cs', p.pairs, classAware);
  }

  // ---------- From the bags to the report

  /** One message of the detection topic. */
  datatype Message = Message(stamp: int, detections: seq<Detection>)

  /** The score filter; without a threshold every detection passes. */
  predicate Passes(d: Detection, minScore: Option<real>) {
    minScore.None? || (d.result.Some? && d.result.value.score >= minScore.value)
  }

  function Kept(ds: seq<Detection>, minScore: Option<real>): seq<Detection> {
    if ds == [] then []
    else Kept(ds[..|ds| - 1], minScore) + if Passes(ds[|ds| - 1], minScore) then [ds[|ds| - 1]] else []
  }

  lemma MultisetSnoc(s: seq<Detection>, x: Detection, d: Detection)
    ensures multiset(s + [x])[d] == multiset(s)[d] + if d == x then 1 else 0
  {}

  /** The filter keeps each occurrence of what passes and nothing else. */
  lemma {:induction false} KeptIsWhatPasses(ds: seq<Detection>, minScore: Option<real>, d: Detection)
    ensures multiset(Kept(ds, minScore))[d] == if Passes(d, minScore) then multiset(ds)[d] else 0
  {
    if ds == [] {
    } else {
      var before, x := ds[..|ds| - 1], ds[|ds| - 1];
      KeptIsWhatPasses(before, minScore, d);
      MultisetSnoc(before, x, d);
      assert ds == before + [x];
      if Passes(x, minScore) {
        MultisetSnoc(Kept(before, minScore), x, d);
        assert Kept(ds, minScore) == Kept(before, minScore) + [x];
      } else {
        assert Kept(ds, minScore) == Kept(before, minScore);
      }
    }
  }

  /** Without a threshold it changes nothing. */
  lemma {:induction false} EverythingIsKept(ds: seq<Detection>)
    ensures Kept(ds, None) == ds
  {
    if ds == [] {
    } else {
      EverythingIsKept(ds[..|ds| - 1]);
    }
  }

  lemma {:induction false} KeptAreSized(ds: seq<Detection>, minScore: Option<real>)
    requires AllSized(ds)
    ensures AllSized(Kept(ds, minScore))
  {
    if ds == [] {
    } else {
      KeptAreSized(ds[..|ds| - 1], minScore);
    }
  }

  /** Every detection is checked before the filter looks at it: None, the ValueError, does
      not depend on the threshold. */
  method FilterDetections(ds: seq<Detection>, minScore: Option<real>) returns (r: Option<seq<Detection>>)
    ensures r.Some? <==> AllSized(ds)
    ensures r.Some? ==> r.value == Kept(ds, minScore)
  {
    var kept: seq<Detection> := [];
    for n := 0 to |ds|
      invariant AllSized(ds[..n]) && kept == Kept(ds[..n], minScore)
    {
      if !Sized(ds[n]) {
        return None;
      }
      assert ds[..n + 1][..n] == ds[..n];
      if Passes(ds[n], minScore) {
        kept := kept + [ds[n]];
      }
    }
    assert ds[..|ds|] == ds;
    r := Some(kept);
  }

  /** The frames of a bag, numbered from zero. */
  function FramesOf(bag: seq<Message>, minScore: Option<real>): seq<Frame> {
    seq(|bag|, k requires 0 <= k < |bag| => Frame(k, bag[k].stamp, Kept(bag[k].detections, minScore)))
  }

  predicate ValidBag(bag: seq<Message>) {
    forall k :: 0 <= k < |bag| ==> AllSized(bag[k].detections)
  }

  method ReadFrames(bag: seq<Message>, minScore: Option<real>) returns (r: Option<seq<Frame>>)
    ensures r.Some? <==> ValidBag(bag)
    ensures r.Some? ==> r.value == FramesOf(bag, minScore)
  {
    var frames: seq<Frame> := [];
    for n := 0 to |bag|
      invariant forall k :: 0 <= k < n ==> AllSized(bag[k].detections)
      invariant frames == FramesOf(bag, minScore)[..n]
    {
      var kept := FilterDetections(bag[n].detections, minScore);
      if kept.None? {
        return None;
      }
      frames := frames + [Frame(|frames|, bag[n].stamp, kept.value)];
    }
    r := Some(frames);
  }

  /** `r` is the report on the two bags. */
  ghost predicate BagsReport(
    r: Summary, ref: seq<Message>, cand: seq<Message>, minScore: Option<real>, policy: string, classAware: bool)
  {
    exists pairing: Pairing, cs: seq<FrameComparison> ::
      && PairingResult(pairing, FramesOf(ref, minScore), FramesOf(cand, minScore), policy)
      && ReportResult(r, pairing, cs, FramesOf(ref, minScore), FramesOf(cand, minScore), classAware)
  }

  lemma ReadIsComparable(ref: seq<Message>, cand: seq<Message>, minScore: Option<real>, r: Pairing, policy: string)
    requires ValidBag(ref) && ValidBag(cand)
    requires PairingResult(r, FramesOf(ref, minScore), FramesOf(cand, minScore), policy)
    ensures forall k :: 0 <= k < |r.pairs| ==> Comparable(r.pairs[k])
  {
    PairingTakes(r, FramesOf(ref, minScore), FramesOf(cand, minScore), policy);
    forall k | 0 <= k < |r.pairs|
      ensures Comparable(r.pairs[k])
    {
      var i, j := Firsts(r.pairs)[k].index, Seconds(r.pairs)[k].index;
      assert r.pairs[k].0 == FramesOf(ref, minScore)[i] && r.pairs[k].1 == FramesOf(cand, minScore)[j];
      KeptAreSized(ref[i].detections, minScore);
      KeptAreSized(cand[j].detections, minScore);
    }
  }

  /** The whole comparison.  It stops exactly when some detection of either bag, paired and
      kept or not, has a negative size, or the policy is unknown. */
  method CompareBags(
    ref: seq<Message>, cand: seq<Message>, minScore: Option<real>, policy: string, classAware: bool)
    returns (r: Option<Summary>)
    ensures r.Some? <==> ValidBag(ref) && ValidBag(cand) && (policy == "index" || policy == "stamp")
    ensures r.Some? ==> BagsReport(r.value, ref, cand, minScore, policy, classAware)
  {
    var refFrames := ReadFrames(ref, minScore);
    if refFrames.None? {
      return None;
    }
    var candFrames := ReadFrames(cand, minScore);
    if candFrames.None? {
      return None;
    }
    var pairing, cs;
    r, pairing, cs := Report(refFrames.value, candFrames.value, policy, classAware);
    if pairing.Some? {
      ReadIsComparable(ref, cand, minScore, pairing.value, policy);
    }
  }

  /** What is counted in a bag after the filter. */
  function KeptIn(bag: seq<Message>, minScore: Option<real>): nat {
    if bag == [] then 0 else KeptIn(bag[..|bag| - 1], minScore) + |Kept(bag[|bag| - 1].detections, minScore)|
  }

  lemma {:induction false} FramesHoldKept(bag: seq<Message>, minScore: Option<real>)
    ensures Detections(FramesOf(bag, minScore)) == KeptIn(bag, minScore)
  {
    if bag == [] {
    } else {
      var n := |bag| - 1;
      FramesHoldKept(bag[..n], minScore);
      assert FramesOf(bag, minScore)[..n] == FramesOf(bag[..n], minScore);
    }
  }

  /** From the two bags to the printed counts: nothing that passes the filter is lost or
      counted twice, every message is a paired or an unpaired frame, and the bags and options
      determine the report. */
  lemma BagsAreConserved(
    r: Summary, r': Summary, ref: seq<Message>, cand: seq<Message>, minScore: Option<real>, policy: string,
    classAware: bool)
    requires BagsReport(r, ref, cand, minScore, policy, classAware)
    ensures KeptIn(ref, minScore) == r.matched + r.unmatchedRef && KeptIn(cand, minScore) == r.matched + r.unmatchedCand
    ensures |ref| == r.pairedFrames + r.unpairedRefFrames && |cand| == r.pairedFrames + r.unpairedCandFrames
    ensures BagsReport(r', ref, cand, minScore, policy, classAware) ==> r == r'
  {
    var a, b := FramesOf(ref, minScore), FramesOf(cand, minScore);
    var p, cs :| PairingResult(p, a, b, policy) && ReportResult(r, p, cs, a, b, classAware);
    ReportConserves(r, p, cs, a, b, policy, classAware);
    FramesHoldKept(ref, minScore);
    FramesHoldKept(cand, minScore);
    if BagsReport(r', ref, cand, minScore, policy, classAware) {
      var p', cs' :| PairingResult(p', a, b, policy) && ReportResult(r', p', cs', a, b, classAware);
      ReportIsDetermined(r, p, cs, r', p', cs', a, b, policy, classAware);
    }
  }
}
