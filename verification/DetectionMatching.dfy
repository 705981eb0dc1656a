/**
 match_detections (compare_detection2d_bags.py) and match_frame (compare_detections.py):
 the greedy choice over two detection lists and the statistics taken from it.
 */
module DetectionMatching {

  import opened BufferModel
  import opened Geometry
  import opened Matching

  function ClassOf(d: Detection): Option<string> {
    if d.result.Some? then Some(d.result.value.classId) else None
  }

  predicate Compatible(a: Detection, b: Detection, classAware: bool) {
    !classAware || ClassOf(a) == ClassOf(b)
  }

  function Weight(a: Detection, b: Detection): real {
    ClampedIou(ToXyxy(a), ToXyxy(b))
  }

  /** Every pair of indices the scripts consider, with its overlap. */
  function Candidates(refs: seq<Detection>, cands: seq<Detection>, classAware: bool): set<Pair> {
    set i, j | 0 <= i < |refs| && 0 <= j < |cands| && Compatible(refs[i], cands[j], classAware)
      :: Pair(Weight(refs[i], cands[j]), i, j)
  }

  predicate AllSized(ds: seq<Detection>) {
    forall k :: 0 <= k < |ds| ==> Sized(ds[k])
  }

  /** `pairs` lists the candidates of the first `n` references. */
  ghost predicate Lists(pairs: seq<Pair>, refs: seq<Detection>, cands: seq<Detection>, classAware: bool, n: nat,
      m: nat)
  {
    && Comparable(pairs)
    && (forall k :: 0 <= k < |pairs| ==> IsCandidate(pairs[k], refs, cands, classAware, n, m))
    && (forall p :: IsCandidate(p, refs, cands, classAware, n, m) ==> p in pairs)
  }

  /** In the double loop's order, `p` comes before position (n, m). */
  predicate IsCandidate(p: Pair, refs: seq<Detection>, cands: seq<Detection>, classAware: bool, n: nat, m: nat) {
    && p.ref < |refs| && p.cand < |cands| && (p.ref < n || (p.ref == n && p.cand < m))
    && Compatible(refs[p.ref], cands[p.cand], classAware) && p.weight == Weight(refs[p.ref], cands[p.cand])
  }

  method BuildPairs(refs: seq<Detection>, cands: seq<Detection>, classAware: bool) returns (pairs: seq<Pair>)
    ensures Comparable(pairs) && Elements(pairs) == Candidates(refs, cands, classAware)
  {
    pairs := [];
    for i := 0 to |refs|
      invariant Lists(pairs, refs, cands, classAware, i, 0)
    {
      for j := 0 to |cands|
        invariant Lists(pairs, refs, cands, classAware, i, j)
      {
        ghost var was := pairs;
        if Compatible(refs[i], cands[j], classAware) {
          pairs := pairs + [Pair(Weight(refs[i], cands[j]), i, j)];
        }
        assert forall k :: 0 <= k < |was| ==> pairs[k] == was[k];
        forall p | IsCandidate(p, refs, cands, classAware, i, j + 1)
          ensures p in pairs
        {
          if IsCandidate(p, refs, cands, classAware, i, j) {
            assert p in was;
          } else {
            assert p == pairs[|pairs| - 1];
          }
        }
      }
      forall p | IsCandidate(p, refs, cands, classAware, i + 1, 0)
        ensures p in pairs
      {
        assert IsCandidate(p, refs, cands, classAware, i, |cands|);
      }
    }
    forall p | p in Candidates(refs, cands, classAware)
      ensures p in pairs
    {
      assert IsCandidate(p, refs, cands, classAware, |refs|, 0);
    }
  }

  // ---------- Statistics of a choice

  datatype ClassOutcome = Match | Mismatch | Unavailable

  function Outcome(a: Detection, b: Detection): ClassOutcome {
    if a.result.None? || b.result.None? then Unavailable
    else if a.result.value.classId == b.result.value.classId then Match
    else Mismatch
  }

  predicate InRange(m: seq<Pair>, refs: seq<Detection>, cands: seq<Detection>) {
    forall k :: 0 <= k < |m| ==> m[k].ref < |refs| && m[k].cand < |cands|
  }

  function Tally(m: seq<Pair>, refs: seq<Detection>, cands: seq<Detection>, c: ClassOutcome): nat
    requires InRange(m, refs, cands)
  {
    if m == [] then 0
    else
      var p := m[|m| - 1];
      Tally(m[..|m| - 1], refs, cands, c) + if Outcome(refs[p.ref], cands[p.cand]) == c then 1 else 0
  }

  function Abs(x: real): real { if x < 0.0 then -x else x }

  function Deltas(m: seq<Pair>, refs: seq<Detection>, cands: seq<Detection>): seq<real>
    requires InRange(m, refs, cands)
  {
    if m == [] then []
    else
      var p := m[|m| - 1];
      var (a, b) := (refs[p.ref].result, cands[p.cand].result);
      Deltas(m[..|m| - 1], refs, cands)
      + if a.Some? && b.Some? then [Abs(a.value.score - b.value.score)] else []
  }

  function Weights(m: seq<Pair>): seq<real> {
    seq(|m|, k requires 0 <= k < |m| => m[k].weight)
  }

  /** Every chosen pair is a match, a mismatch or unavailable, and the score deltas come from
      exactly the pairs whose classes can be compared. */
  lemma {:induction false} OutcomesCoverChoice(m: seq<Pair>, refs: seq<Detection>, cands: seq<Detection>)
    requires InRange(m, refs, cands)
    ensures Tally(m, refs, cands, Match) + Tally(m, refs, cands, Mismatch) + Tally(m, refs, cands, Unavailable) == |m|
    ensures |Deltas(m, refs, cands)| == Tally(m, refs, cands, Match) + Tally(m, refs, cands, Mismatch)
  {
    if m == [] {
    } else {
      OutcomesCoverChoice(m[..|m| - 1], refs, cands);
    }
  }

  /** With class-aware matching no chosen pair has two different classes. */
  lemma {:induction false} ClassAwareNeverMismatches(m: seq<Pair>, refs: seq<Detection>, cands: seq<Detection>)
    requires forall k :: 0 <= k < |m| ==> m[k] in Candidates(refs, cands, true)
    ensures InRange(m, refs, cands) && Tally(m, refs, cands, Mismatch) == 0
  {
    if m == [] {
    } else {
      ClassAwareNeverMismatches(m[..|m| - 1], refs, cands);
      assert m[|m| - 1] in Candidates(refs, cands, true);
    }
  }

  lemma ChoiceInRange(m: seq<Pair>, refs: seq<Detection>, cands: seq<Detection>, classAware: bool)
    requires forall k :: 0 <= k < |m| ==> m[k] in Candidates(refs, cands, classAware)
    ensures InRange(m, refs, cands)
  {
    forall k | 0 <= k < |m|
      ensures m[k].ref < |refs| && m[k].cand < |cands|
    {
      assert m[k] in Candidates(refs, cands, classAware);
    }
  }

  lemma SubsetSize(s: set<nat>, n: nat)
    requires forall x :: x in s ==> x < n
    ensures |s| <= n
  {
    if n == 0 {
      assert s == {};
    } else {
      SubsetSize(s - {n - 1}, n - 1);
    }
  }

  /** A one-to-one choice has at most as many pairs as either list has detections. */
  lemma ChoiceFits(m: seq<Pair>, refs: seq<Detection>, cands: seq<Detection>, usedRef: set<nat>, usedCand: set<nat>)
    requires InRange(m, refs, cands) && Tracks(m, usedRef, usedCand)
    ensures |m| <= |refs| && |m| <= |cands|
  {
    SubsetSize(usedRef, |refs|);
    SubsetSize(usedCand, |cands|);
  }

  // ---------- The two scripts

  datatype BagMatch = BagMatch(
    ious: seq<real>, scoreDeltas: seq<real>, unmatchedRef: nat, unmatchedCand: nat,
    classMatches: nat, classSamples: nat)

  /** What match_detections returns for the pairs it chose. */
  ghost predicate BagResult(r: BagMatch, chosen: seq<Pair>, refs: seq<Detection>, cands: seq<Detection>,
      classAware: bool)
  {
    && GreedyChoice(chosen, Candidates(refs, cands, classAware), SmallIndicesFirst)
    && InRange(chosen, refs, cands)
    && r.ious == Weights(chosen)
    && r.scoreDeltas == Deltas(chosen, refs, cands)
    && |chosen| + r.unmatchedRef == |refs| && |chosen| + r.unmatchedCand == |cands|
    && r.classMatches == Tally(chosen, refs, cands, Match)
    && r.classSamples == |r.scoreDeltas|
  }

  /** None stands for the ValueError a detection with a negative size raises. */
  method MatchDetections(refs: seq<Detection>, cands: seq<Detection>, classAware: bool)
    returns (r: Option<BagMatch>, chosen: seq<Pair>)
    ensures r.Some? <==> AllSized(refs) && AllSized(cands)
    ensures r.Some? ==> BagResult(r.value, chosen, refs, cands, classAware)
  {
    chosen := [];
    if (exists k :: 0 <= k < |refs| && !Sized(refs[k])) || (exists k :: 0 <= k < |cands| && !Sized(cands[k])) {
      return None, [];
    }
    if refs == [] || cands == [] {
      return Some(BagMatch([], [], |refs|, |cands|, 0, 0)), [];
    }
    var pairs := BuildPairs(refs, cands, classAware);
    var s := SortPairs(pairs, SmallIndicesFirst);
    assert Elements(s) == Elements(pairs);
    var usedRef, usedCand;
    chosen, usedRef, usedCand := Select(s, SmallIndicesFirst);
    ChoiceInRange(chosen, refs, cands, classAware);
    ChoiceFits(chosen, refs, cands, usedRef, usedCand);
    OutcomesCoverChoice(chosen, refs, cands);
    var ious, scoreDeltas, matches, mismatches, unavailable := Observe(chosen, refs, cands);
    r := Some(BagMatch(ious, scoreDeltas, |refs| - |usedRef|, |cands| - |usedCand|, matches, matches + mismatches));
  }

  /** The statistics each iteration of the selection loop adds for the pair it takes. */
  method Observe(chosen: seq<Pair>, refs: seq<Detection>, cands: seq<Detection>)
    returns (ious: seq<real>, scoreDeltas: seq<real>, matches: nat, mismatches: nat, unavailable: nat)
    requires InRange(chosen, refs, cands)
    ensures ious == Weights(chosen) && scoreDeltas == Deltas(chosen, refs, cands)
    ensures matches == Tally(chosen, refs, cands, Match)
    ensures mismatches == Tally(chosen, refs, cands, Mismatch)
    ensures unavailable == Tally(chosen, refs, cands, Unavailable)
  {
    ious, scoreDeltas, matches, mismatches, unavailable := [], [], 0, 0, 0;
    for n := 0 to |chosen|
      invariant ious == Weights(chosen[..n]) && scoreDeltas == Deltas(chosen[..n], refs, cands)
      invariant matches == Tally(chosen[..n], refs, cands, Match)
      invariant mismatches == Tally(chosen[..n], refs, cands, Mismatch)
      invariant unavailable == Tally(chosen[..n], refs, cands, Unavailable)
    {
      assert chosen[..n + 1][..n] == chosen[..n];
      ious := ious + [chosen[n].weight];
      var a, b := refs[chosen[n].ref].result, cands[chosen[n].cand].result;
      if a.Some? && b.Some? {
        scoreDeltas := scoreDeltas + [Abs(a.value.score - b.value.score)];
        if a.value.classId == b.value.classId {
          matches := matches + 1;
        } else {
          mismatches := mismatches + 1;
        }
      } else {
        unavailable := unavailable + 1;
      }
    }
    assert chosen[..|chosen|] == chosen;
  }

  datatype FrameMatch = FrameMatch(
    ious: seq<real>, scoreDeltas: seq<real>, unmatchedA: nat, unmatchedB: nat,
    matches: nat, mismatches: nat, unavailable: nat)

  ghost predicate FrameResult(r: FrameMatch, chosen: seq<Pair>, a: seq<Detection>, b: seq<Detection>) {
    && GreedyChoice(chosen, Candidates(a, b, false), LargeIndicesFirst)
    && InRange(chosen, a, b)
    && r.ious == Weights(chosen) && r.scoreDeltas == Deltas(chosen, a, b)
    && |chosen| + r.unmatchedA == |a| && |chosen| + r.unmatchedB == |b|
    && r.matches == Tally(chosen, a, b, Match)
    && r.mismatches == Tally(chosen, a, b, Mismatch)
    && r.unavailable == Tally(chosen, a, b, Unavailable)
  }

  method MatchFrame(a: seq<Detection>, b: seq<Detection>) returns (r: FrameMatch, chosen: seq<Pair>)
    ensures FrameResult(r, chosen, a, b)
  {
    chosen := [];
    if a == [] || b == [] {
      return FrameMatch([], [], |a|, |b|, 0, 0, 0), [];
    }
    var pairs := BuildPairs(a, b, false);
    var s := SortPairs(pairs, LargeIndicesFirst);
    assert Elements(s) == Elements(pairs);
    var usedA, usedB;
    chosen, usedA, usedB := Select(s, LargeIndicesFirst);
    ChoiceInRange(chosen, a, b, false);
    ChoiceFits(chosen, a, b, usedA, usedB);
    var ious, scoreDeltas, matches, mismatches, unavailable := Observe(chosen, a, b);
    r := FrameMatch(ious, scoreDeltas, |a| - |usedA|, |b| - |usedB|, matches, mismatches, unavailable);
  }

  lemma {:induction false} OneToOneTracks(m: seq<Pair>)
    requires OneToOne(m)
    ensures Tracks(m, Refs(m), Cands(m))
  {
    if m == [] {
    } else {
      var rest, p := m[..|m| - 1], m[|m| - 1];
      OneToOneTracks(rest);
      assert forall k :: 0 <= k < |rest| ==> !Conflict(m[k], p);
      TakeTracks(rest, Refs(rest), Cands(rest), p);
      assert rest + [p] == m;
    }
  }

  /** match_frame has a result for any two lists. */
  lemma FrameResultExists(a: seq<Detection>, b: seq<Detection>) returns (r: FrameMatch, chosen: seq<Pair>)
    ensures FrameResult(r, chosen, a, b)
  {
    chosen := ChoiceExists(Candidates(a, b, false), LargeIndicesFirst);
    ChoiceInRange(chosen, a, b, false);
    OneToOneTracks(chosen);
    ChoiceFits(chosen, a, b, Refs(chosen), Cands(chosen));
    r := FrameMatch(
      Weights(chosen), Deltas(chosen, a, b), |a| - |chosen|, |b| - |chosen|,
      Tally(chosen, a, b, Match), Tally(chosen, a, b, Mismatch), Tally(chosen, a, b, Unavailable));
  }

  // ---------- What a user of either script may rely on

  /** One result for given inputs, whichever way it is found. */
  lemma FrameResultIsUnique(r: FrameMatch, chosen: seq<Pair>, q: FrameMatch, other: seq<Pair>, a: seq<Detection>,
      b: seq<Detection>)
    requires FrameResult(r, chosen, a, b) && FrameResult(q, other, a, b)
    ensures r == q && chosen == other
  {
    ChoiceIsUnique(chosen, other, Candidates(a, b, false), LargeIndicesFirst);
  }

  lemma BagResultIsUnique(r: BagMatch, chosen: seq<Pair>, q: BagMatch, other: seq<Pair>, refs: seq<Detection>,
      cands: seq<Detection>, classAware: bool)
    requires BagResult(r, chosen, refs, cands, classAware) && BagResult(q, other, refs, cands, classAware)
    ensures r == q && chosen == other
  {
    ChoiceIsUnique(chosen, other, Candidates(refs, cands, classAware), SmallIndicesFirst);
  }

  /** Reported overlaps are the boxes' overlaps, lie in (0, 1] and never increase along the list. */
  lemma ReportedOverlaps(r: BagMatch, chosen: seq<Pair>, refs: seq<Detection>, cands: seq<Detection>, classAware: bool)
    requires AllSized(refs) && AllSized(cands) && BagResult(r, chosen, refs, cands, classAware)
    ensures forall k :: 0 <= k < |r.ious| ==>
                          0.0 < r.ious[k] <= 1.0
                              && Some(r.ious[k]) == Iou(ToXyxy(refs[chosen[k].ref]), ToXyxy(cands[chosen[k].cand]))
    ensures forall j, k :: 0 <= j < k < |r.ious| ==> r.ious[j] >= r.ious[k]
  {
    forall k | 0 <= k < |r.ious|
      ensures 0.0 < r.ious[k] <= 1.0
                && Some(r.ious[k]) == Iou(ToXyxy(refs[chosen[k].ref]), ToXyxy(cands[chosen[k].cand]))
    {
      assert chosen[k] in Candidates(refs, cands, classAware);
      var a, b := refs[chosen[k].ref], cands[chosen[k].cand];
      SizedIsUpright(a);
      SizedIsUpright(b);
      ScriptsAgree(ToXyxy(a), ToXyxy(b));
      IouRange(ToXyxy(a), ToXyxy(b));
    }
    assert forall j, k :: 0 <= j < k < |chosen| ==> Ahead(chosen[j], chosen[k], SmallIndicesFirst);
  }

  /** A detection is left over only if everything it overlaps is taken by something it
      overlaps at least as much. */
  lemma LeftOverIsBeaten(r: BagMatch, chosen: seq<Pair>, refs: seq<Detection>, cands: seq<Detection>,
      classAware: bool, i: nat, j: nat)
    requires BagResult(r, chosen, refs, cands, classAware)
    requires i < |refs| && j < |cands| && Compatible(refs[i], cands[j], classAware)
    requires Weight(refs[i], cands[j]) > 0.0 && i !in Refs(chosen)
    ensures exists k :: 0 <= k < |chosen| && chosen[k].cand == j && chosen[k].weight >= Weight(refs[i], cands[j])
  {
    var p := Pair(Weight(refs[i], cands[j]), i, j);
    assert p in Candidates(refs, cands, classAware);
    assert forall k :: 0 <= k < |chosen| ==> chosen[k].ref in Refs(chosen);
    ChoiceIsMaximal(chosen, Candidates(refs, cands, classAware), SmallIndicesFirst, p);
    var k :| 0 <= k < |chosen| && Conflict(chosen[k], p) && chosen[k].weight >= p.weight;
  }
}
