/**
 Greedy one-to-one matching of two detection lists by overlap, as both comparison scripts do
 it (match_detections, match_frame), and what the result is worth.
 */
module Matching {

  import opened BufferModel
  import opened Geometry

  datatype Pair = Pair(weight: real, ref: nat, cand: nat)

  /** Equal weights: the bag script takes small indices first; the online script sorts tuples
      in reverse, so large indices come first. */
  datatype Ties = SmallIndicesFirst | LargeIndicesFirst

  predicate Before(p: Pair, q: Pair) {
    p.ref < q.ref || (p.ref == q.ref && p.cand < q.cand)
  }

  /** `p` is tried before `q`. */
  predicate Ahead(p: Pair, q: Pair, ties: Ties) {
    p.weight > q.weight
    || (p.weight == q.weight && if ties == SmallIndicesFirst then Before(p, q) else Before(q, p))
  }

  predicate Ordered(s: seq<Pair>, ties: Ties) {
    forall i, j :: 0 <= i < j < |s| ==> Ahead(s[i], s[j], ties)
  }

  predicate Conflict(p: Pair, q: Pair) {
    p.ref == q.ref || p.cand == q.cand
  }

  predicate OneToOne(m: seq<Pair>) {
    forall i, j :: 0 <= i < j < |m| ==> !Conflict(m[i], m[j])
  }

  predicate Blocked(p: Pair, m: seq<Pair>, ties: Ties) {
    exists k :: 0 <= k < |m| && Ahead(m[k], p, ties) && Conflict(m[k], p)
  }

  /** What the greedy choice from `pairs` is, without saying how it is found: a one-to-one
      choice, in trial order, in which every positive pair left out loses to a chosen one. */
  ghost predicate GreedyChoice(m: seq<Pair>, pairs: set<Pair>, ties: Ties) {
    && Ordered(m, ties)
    && OneToOne(m)
    && (forall k :: 0 <= k < |m| ==> m[k] in pairs && m[k].weight > 0.0)
    && (forall p {:trigger Blocked(p, m, ties)} :: p in pairs && p.weight > 0.0 && p !in m ==> Blocked(p, m, ties))
  }

  function Sum(m: seq<Pair>): real {
    if m == [] then 0.0 else Sum(m[..|m| - 1]) + m[|m| - 1].weight
  }

  // ---------- There is one greedy choice

  lemma AheadOrSame(p: Pair, q: Pair, r: Pair, ties: Ties)
    requires p == q || Ahead(p, q, ties)
    requires q == r || Ahead(q, r, ties)
    ensures p == r || Ahead(p, r, ties)
  {}

  /** `m[k]`, or a pair that blocks it, is in `other`. */
  lemma Answer(m: seq<Pair>, other: seq<Pair>, pairs: set<Pair>, ties: Ties, k: nat) returns (i: nat)
    requires GreedyChoice(m, pairs, ties) && GreedyChoice(other, pairs, ties) && k < |m|
    ensures i < |other| && Conflict(other[i], m[k]) && (other[i] == m[k] || Ahead(other[i], m[k], ties))
  {
    if m[k] in other {
      i :| i < |other| && other[i] == m[k];
    } else {
      assert Blocked(m[k], other, ties);
      i :| i < |other| && Ahead(other[i], m[k], ties) && Conflict(other[i], m[k]);
    }
  }

  lemma AtLeastAsEarly(m: seq<Pair>, other: seq<Pair>, pairs: set<Pair>, ties: Ties, k: nat)
    requires GreedyChoice(m, pairs, ties) && GreedyChoice(other, pairs, ties)
    requires k < |m| && k <= |other| && m[..k] == other[..k]
    ensures k < |other| && (other[k] == m[k] || Ahead(other[k], m[k], ties))
  {
    assert forall j :: 0 <= j < k ==> m[..k][j] == m[j] && other[..k][j] == other[j];
    assert forall j :: 0 <= j < k ==> !Conflict(other[j], m[k]);
    var i := Answer(m, other, pairs, ties, k);
    if i < k {
      assert false;
    } else {
      assert i == k || Ahead(other[k], other[i], ties);
      AheadOrSame(other[k], other[i], m[k], ties);
    }
  }

  lemma {:induction false} SamePrefix(m: seq<Pair>, other: seq<Pair>, pairs: set<Pair>, ties: Ties, k: nat)
    requires GreedyChoice(m, pairs, ties) && GreedyChoice(other, pairs, ties)
    requires k <= |m|
    ensures k <= |other| && m[..k] == other[..k]
  {
    if k == 0 {
    } else {
      SamePrefix(m, other, pairs, ties, k - 1);
      AtLeastAsEarly(m, other, pairs, ties, k - 1);
      AtLeastAsEarly(other, m, pairs, ties, k - 1);
      assert m[..k] == m[..k - 1] + [m[k - 1]] && other[..k] == other[..k - 1] + [other[k - 1]];
    }
  }

  /** The order of trial and the set of pairs determine the result. */
  lemma ChoiceIsUnique(m: seq<Pair>, other: seq<Pair>, pairs: set<Pair>, ties: Ties)
    requires GreedyChoice(m, pairs, ties) && GreedyChoice(other, pairs, ties)
    ensures m == other
  {
    SamePrefix(m, other, pairs, ties, |m|);
    SamePrefix(other, m, pairs, ties, |other|);
    assert m[..|m|] == m && other[..|other|] == other;
  }

  predicate Keyed(pairs: set<Pair>) {
    forall p, q :: p in pairs && q in pairs && p.ref == q.ref && p.cand == q.cand ==> p == q
  }

  lemma {:induction false} LastTried(pairs: set<Pair>, ties: Ties) returns (last: Pair)
    requires pairs != {} && Keyed(pairs)
    ensures last in pairs && forall p :: p in pairs && p != last ==> Ahead(p, last, ties)
    decreases |pairs|
  {
    last :| last in pairs;
    var rest := pairs - {last};
    if rest != {} {
      var other := LastTried(rest, ties);
      if Ahead(last, other, ties) {
        last := other;
      } else {
        assert Ahead(other, last, ties);
        forall p | p in rest && p != other
          ensures Ahead(p, last, ties)
        {
          AheadOrSame(p, other, last, ties);
        }
      }
    }
  }

  /** What was blocked stays blocked by a longer choice. */
  lemma BlockedByMore(p: Pair, m: seq<Pair>, q: Pair, ties: Ties)
    requires Blocked(p, m, ties)
    ensures Blocked(p, m + [q], ties)
  {
    var k :| 0 <= k < |m| && Ahead(m[k], p, ties) && Conflict(m[k], p);
    assert (m + [q])[k] == m[k];
  }

  /** The last pair tried is chosen if nothing chosen conflicts with it. */
  lemma ChooseLast(m: seq<Pair>, pairs: set<Pair>, last: Pair, ties: Ties)
    requires last in pairs && GreedyChoice(m, pairs - {last}, ties) && last.weight > 0.0
    requires forall p :: p in pairs && p != last ==> Ahead(p, last, ties)
    requires forall k :: 0 <= k < |m| ==> !Conflict(m[k], last)
    ensures GreedyChoice(m + [last], pairs, ties)
  {
    var more := m + [last];
    assert more[|m|] == last;
    forall p | p in pairs && p.weight > 0.0 && p !in more
      ensures Blocked(p, more, ties)
    {
      assert p in pairs - {last} && p !in m;
      BlockedByMore(p, m, last, ties);
    }
  }

  lemma SkipLast(m: seq<Pair>, pairs: set<Pair>, last: Pair, ties: Ties)
    requires last in pairs && GreedyChoice(m, pairs - {last}, ties)
    requires forall p :: p in pairs && p != last ==> Ahead(p, last, ties)
    requires last.weight <= 0.0 || exists k :: 0 <= k < |m| && Conflict(m[k], last)
    ensures GreedyChoice(m, pairs, ties)
  {}

  /** Any set of index pairs has a greedy choice. */
  lemma {:induction false} ChoiceExists(pairs: set<Pair>, ties: Ties) returns (m: seq<Pair>)
    requires Keyed(pairs)
    ensures GreedyChoice(m, pairs, ties)
    decreases |pairs|
  {
    m := [];
    if pairs != {} {
      var last := LastTried(pairs, ties);
      m := ChoiceExists(pairs - {last}, ties);
      if last.weight > 0.0 && forall k :: 0 <= k < |m| ==> !Conflict(m[k], last) {
        ChooseLast(m, pairs, last, ties);
        m := m + [last];
      } else {
        SkipLast(m, pairs, last, ties);
      }
    }
  }

  /** Nothing can be added to the choice. */
  lemma ChoiceIsMaximal(m: seq<Pair>, pairs: set<Pair>, ties: Ties, p: Pair)
    requires GreedyChoice(m, pairs, ties) && p in pairs && p.weight > 0.0 && p !in m
    ensures exists k :: 0 <= k < |m| && Conflict(m[k], p) && m[k].weight >= p.weight
  {
    assert Blocked(p, m, ties);
  }

  // ---------- Half of the best

  /** Weight of the chosen pair at one endpoint. */
  function At(m: seq<Pair>, useRef: bool, end: nat): real {
    if m == [] then 0.0
    else At(m[..|m| - 1], useRef, end)
         + if (if useRef then m[|m| - 1].ref else m[|m| - 1].cand) == end then m[|m| - 1].weight else 0.0
  }

  function Charged(m: seq<Pair>, useRef: bool, other: seq<Pair>): real {
    if other == [] then 0.0
    else Charged(m, useRef, other[..|other| - 1])
         + At(m, useRef, if useRef then other[|other| - 1].ref else other[|other| - 1].cand)
  }

  predicate Positive(m: seq<Pair>) {
    forall k :: 0 <= k < |m| ==> m[k].weight > 0.0
  }

  lemma {:induction false} AtCovers(m: seq<Pair>, useRef: bool, k: nat)
    requires Positive(m) && k < |m|
    ensures At(m, useRef, if useRef then m[k].ref else m[k].cand) >= m[k].weight
  {
    var e := if useRef then m[k].ref else m[k].cand;
    AtNonnegative(m[..|m| - 1], useRef, e);
    if k < |m| - 1 {
      AtCovers(m[..|m| - 1], useRef, k);
    }
  }

  lemma {:induction false} AtNonnegative(m: seq<Pair>, useRef: bool, end: nat)
    requires Positive(m)
    ensures At(m, useRef, end) >= 0.0
  {
    if m == [] {
    } else {
      AtNonnegative(m[..|m| - 1], useRef, end);
    }
  }

  /** One chosen pair is charged by at most one pair of a one-to-one `other` per endpoint. */
  lemma {:induction false} LastCharge(m: seq<Pair>, useRef: bool, other: seq<Pair>)
    requires Positive(m) && m != [] && OneToOne(other)
    ensures Charged(m, useRef, other) <= Charged(m[..|m| - 1], useRef, other) + m[|m| - 1].weight
    ensures (forall k :: 0 <= k < |other| ==>
                           (if useRef then other[k].ref != m[|m| - 1].ref else other[k].cand != m[|m| - 1].cand))
            ==> Charged(m, useRef, other) == Charged(m[..|m| - 1], useRef, other)
  {
    if other == [] {
    } else {
      var rest := other[..|other| - 1];
      LastCharge(m, useRef, rest);
      var end := if useRef then other[|other| - 1].ref else other[|other| - 1].cand;
      if end == (if useRef then m[|m| - 1].ref else m[|m| - 1].cand) {
        forall k | 0 <= k < |rest|
          ensures if useRef then rest[k].ref != m[|m| - 1].ref else rest[k].cand != m[|m| - 1].cand
        {
          assert !Conflict(other[k], other[|other| - 1]);
        }
      }
    }
  }

  lemma {:induction false} ChargedAtMostSum(m: seq<Pair>, useRef: bool, other: seq<Pair>)
    requires Positive(m) && OneToOne(other)
    ensures Charged(m, useRef, other) <= Sum(m)
  {
    if m == [] {
      ChargedByNone(useRef, other);
    } else {
      LastCharge(m, useRef, other);
      ChargedAtMostSum(m[..|m| - 1], useRef, other);
    }
  }

  lemma {:induction false} ChargedByNone(useRef: bool, other: seq<Pair>)
    ensures Charged([], useRef, other) == 0.0
  {
    if other == [] {
    } else {
      ChargedByNone(useRef, other[..|other| - 1]);
    }
  }

  /** Every pair of `other` is paid for by the chosen pairs at its two endpoints. */
  lemma {:induction false} OtherIsCharged(m: seq<Pair>, pairs: set<Pair>, ties: Ties, other: seq<Pair>)
    requires GreedyChoice(m, pairs, ties)
    requires forall k :: 0 <= k < |other| ==> other[k] in pairs
    ensures Sum(other) <= Charged(m, true, other) + Charged(m, false, other)
  {
    if other == [] {
    } else {
      OtherIsCharged(m, pairs, ties, other[..|other| - 1]);
      var p := other[|other| - 1];
      AtNonnegative(m, true, p.ref);
      AtNonnegative(m, false, p.cand);
      if p.weight > 0.0 {
        if p in m {
          var k :| 0 <= k < |m| && m[k] == p;
          AtCovers(m, true, k);
        } else {
          ChoiceIsMaximal(m, pairs, ties, p);
          var k :| 0 <= k < |m| && Conflict(m[k], p) && m[k].weight >= p.weight;
          AtCovers(m, true, k);
          AtCovers(m, false, k);
        }
      }
    }
  }

  /** The greedy choice weighs at least half of any one-to-one choice from the same pairs. */
  lemma GreedyIsHalfOfBest(m: seq<Pair>, pairs: set<Pair>, ties: Ties, other: seq<Pair>)
    requires GreedyChoice(m, pairs, ties)
    requires OneToOne(other) && forall k :: 0 <= k < |other| ==> other[k] in pairs
    ensures Sum(other) <= 2.0 * Sum(m)
  {
    OtherIsCharged(m, pairs, ties, other);
    ChargedAtMostSum(m, true, other);
    ChargedAtMostSum(m, false, other);
  }

  /** The half cannot be improved: weights of one greedy choice and a better one. */
  lemma HalfIsTight(w: real, gap: real)
    requires 0.0 < gap < w
    ensures var pairs := {Pair(w, 0, 0), Pair(w - gap, 0, 1), Pair(w - gap, 1, 0)};
            && GreedyChoice([Pair(w, 0, 0)], pairs, SmallIndicesFirst)
            && OneToOne([Pair(w - gap, 0, 1), Pair(w - gap, 1, 0)])
            && Sum([Pair(w - gap, 0, 1), Pair(w - gap, 1, 0)]) == 2.0 * Sum([Pair(w, 0, 0)]) - 2.0 * gap
  {
    var m := [Pair(w, 0, 0)];
    assert Ahead(m[0], Pair(w - gap, 0, 1), SmallIndicesFirst) && Conflict(m[0], Pair(w - gap, 0, 1));
    assert Ahead(m[0], Pair(w - gap, 1, 0), SmallIndicesFirst) && Conflict(m[0], Pair(w - gap, 1, 0));
    var other := [Pair(w - gap, 0, 1), Pair(w - gap, 1, 0)];
    assert other[..1] == [Pair(w - gap, 0, 1)] && other[..1][..0] == [] && m[..0] == [];
  }

  // ---------- Sorting and selecting

  predicate Comparable(s: seq<Pair>) {
    forall i, j :: 0 <= i < j < |s| ==> s[i].ref != s[j].ref || s[i].cand != s[j].cand
  }

  /** Inserting before the first pair that `p` is ahead of keeps the order. */
  lemma InsertKeepsOrder(s: seq<Pair>, p: Pair, k: nat, ties: Ties)
    requires Ordered(s, ties) && k <= |s|
    requires forall i :: 0 <= i < k ==> Ahead(s[i], p, ties)
    requires forall i :: k <= i < |s| ==> Ahead(p, s[i], ties)
    ensures Ordered(s[..k] + [p] + s[k..], ties)
  {
    var t := s[..k] + [p] + s[k..];
    forall i, j | 0 <= i < j < |t|
      ensures Ahead(t[i], t[j], ties)
    {
      assert t[i] == if i < k then s[i] else if i == k then p else s[i - 1];
      assert t[j] == if j < k then s[j] else if j == k then p else s[j - 1];
    }
  }

  lemma InsertAdds(s: seq<Pair>, p: Pair, k: nat)
    requires k <= |s|
    ensures forall q :: q in s[..k] + [p] + s[k..] <==> q in s || q == p
  {
    assert s == s[..k] + s[k..];
  }

  /** A pair that is not ahead of `p` and has another key comes after it, and so does the rest. */
  lemma RestIsBehind(s: seq<Pair>, p: Pair, k: nat, ties: Ties)
    requires Ordered(s, ties) && k <= |s|
    requires forall q :: q in s ==> q.ref != p.ref || q.cand != p.cand
    requires k < |s| ==> !Ahead(s[k], p, ties)
    ensures forall i :: k <= i < |s| ==> Ahead(p, s[i], ties)
  {
    forall i | k <= i < |s|
      ensures Ahead(p, s[i], ties)
    {
      assert s[k] in s && Ahead(p, s[k], ties);
      AheadOrSame(p, s[k], s[i], ties);
      assert s[i] in s;
    }
  }

  lemma EarlierDiffer(pairs: seq<Pair>, n: nat, q: Pair)
    requires Comparable(pairs) && n < |pairs| && q in pairs[..n]
    ensures q.ref != pairs[n].ref || q.cand != pairs[n].cand
  {
    var i :| 0 <= i < n && pairs[..n][i] == q;
  }

  method SortPairs(pairs: seq<Pair>, ties: Ties) returns (s: seq<Pair>)
    requires Comparable(pairs)
    ensures Ordered(s, ties) && |s| == |pairs|
    ensures forall p :: p in s <==> p in pairs
  {
    s := [];
    for n := 0 to |pairs|
      invariant Ordered(s, ties) && |s| == n
      invariant forall p :: p in s <==> p in pairs[..n]
    {
      var k := 0;
      while k < |s| && Ahead(s[k], pairs[n], ties)
        invariant 0 <= k <= |s|
        invariant forall i :: 0 <= i < k ==> Ahead(s[i], pairs[n], ties)
      {
        k := k + 1;
      }
      forall q | q in s
        ensures q.ref != pairs[n].ref || q.cand != pairs[n].cand
      {
        EarlierDiffer(pairs, n, q);
      }
      RestIsBehind(s, pairs[n], k, ties);
      InsertKeepsOrder(s, pairs[n], k, ties);
      InsertAdds(s, pairs[n], k);
      s := s[..k] + [pairs[n]] + s[k..];
      assert pairs[..n + 1] == pairs[..n] + [pairs[n]];
    }
    assert pairs[..|pairs|] == pairs;
  }

  function Elements(s: seq<Pair>): set<Pair> {
    set p | p in s
  }

  /** `chosen` answers for the first `n` pairs of `s`. */
  ghost predicate Answers(chosen: seq<Pair>, s: seq<Pair>, n: nat, ties: Ties)
    requires n <= |s|
  {
    && (forall k :: 0 <= k < |chosen| ==> chosen[k] in s[..n] && chosen[k].weight > 0.0)
    && (forall k :: 0 <= k < n ==> s[k] in chosen || s[k].weight <= 0.0 || Blocked(s[k], chosen, ties))
  }

  lemma EarlierIsAhead(chosen: seq<Pair>, s: seq<Pair>, n: nat, ties: Ties)
    requires n < |s| && Ordered(s, ties) && Answers(chosen, s, n, ties)
    ensures forall k :: 0 <= k < |chosen| ==> Ahead(chosen[k], s[n], ties)
  {
    forall k | 0 <= k < |chosen|
      ensures Ahead(chosen[k], s[n], ties)
    {
      var i :| 0 <= i < n && s[..n][i] == chosen[k];
      assert Ahead(s[i], s[n], ties);
    }
  }

  lemma SkipAnswers(chosen: seq<Pair>, s: seq<Pair>, n: nat, ties: Ties)
    requires n < |s| && Answers(chosen, s, n, ties)
    requires s[n].weight <= 0.0 || Blocked(s[n], chosen, ties)
    ensures Answers(chosen, s, n + 1, ties)
  {
    assert s[..n + 1] == s[..n] + [s[n]];
  }

  lemma TakeAnswers(chosen: seq<Pair>, s: seq<Pair>, n: nat, ties: Ties)
    requires n < |s| && Answers(chosen, s, n, ties) && s[n].weight > 0.0
    ensures Answers(chosen + [s[n]], s, n + 1, ties)
  {
    var more := chosen + [s[n]];
    assert s[..n + 1] == s[..n] + [s[n]];
    assert forall k :: 0 <= k < |chosen| ==> more[k] == chosen[k];
    forall k | 0 <= k < n
      ensures s[k] in more || s[k].weight <= 0.0 || Blocked(s[k], more, ties)
    {
      if s[k] !in chosen && s[k].weight > 0.0 {
        var i :| 0 <= i < |chosen| && Ahead(chosen[i], s[k], ties) && Conflict(chosen[i], s[k]);
        assert more[i] == chosen[i];
      }
    }
    assert more[|chosen|] == s[n];
  }

  lemma {:induction false} RestIsNotPositive(chosen: seq<Pair>, s: seq<Pair>, n: nat, ties: Ties)
    requires n < |s| && Ordered(s, ties) && Answers(chosen, s, n, ties) && s[n].weight <= 0.0
    ensures Answers(chosen, s, |s|, ties)
    decreases |s| - n
  {
    SkipAnswers(chosen, s, n, ties);
    if n + 1 < |s| {
      assert Ahead(s[n], s[n + 1], ties);
      RestIsNotPositive(chosen, s, n + 1, ties);
    }
  }

  function Refs(m: seq<Pair>): set<nat> {
    set k | 0 <= k < |m| :: m[k].ref
  }

  function Cands(m: seq<Pair>): set<nat> {
    set k | 0 <= k < |m| :: m[k].cand
  }

  /** The loop's sets of used indices belong to the pairs chosen so far. */
  ghost predicate Tracks(chosen: seq<Pair>, usedRef: set<nat>, usedCand: set<nat>) {
    usedRef == Refs(chosen) && usedCand == Cands(chosen) && |usedRef| == |usedCand| == |chosen|
  }

  lemma RefsSnoc(chosen: seq<Pair>, p: Pair)
    ensures Refs(chosen + [p]) == Refs(chosen) + {p.ref}
  {
    var more := chosen + [p];
    assert more[|chosen|] == p;
    forall k | 0 <= k < |chosen|
      ensures chosen[k].ref in Refs(more)
    {
      assert more[k] == chosen[k];
    }
  }

  lemma CandsSnoc(chosen: seq<Pair>, p: Pair)
    ensures Cands(chosen + [p]) == Cands(chosen) + {p.cand}
  {
    var more := chosen + [p];
    assert more[|chosen|] == p;
    forall k | 0 <= k < |chosen|
      ensures chosen[k].cand in Cands(more)
    {
      assert more[k] == chosen[k];
    }
  }

  lemma TakeTracks(chosen: seq<Pair>, usedRef: set<nat>, usedCand: set<nat>, p: Pair)
    requires Tracks(chosen, usedRef, usedCand) && p.ref !in usedRef && p.cand !in usedCand
    ensures Tracks(chosen + [p], usedRef + {p.ref}, usedCand + {p.cand})
  {
    RefsSnoc(chosen, p);
    CandsSnoc(chosen, p);
  }

  lemma TakeKeepsOrder(chosen: seq<Pair>, usedRef: set<nat>, usedCand: set<nat>, p: Pair, ties: Ties)
    requires Tracks(chosen, usedRef, usedCand) && p.ref !in usedRef && p.cand !in usedCand
    requires OneToOne(chosen) && Ordered(chosen, ties)
    requires forall k :: 0 <= k < |chosen| ==> Ahead(chosen[k], p, ties)
    ensures OneToOne(chosen + [p]) && Ordered(chosen + [p], ties)
  {
    forall k | 0 <= k < |chosen|
      ensures !Conflict(chosen[k], p)
    {
      assert chosen[k].ref in Refs(chosen) && chosen[k].cand in Cands(chosen);
    }
  }

  lemma UsedIsBlocked(chosen: seq<Pair>, usedRef: set<nat>, usedCand: set<nat>, p: Pair, ties: Ties)
    requires Tracks(chosen, usedRef, usedCand) && (p.ref in usedRef || p.cand in usedCand)
    requires forall k :: 0 <= k < |chosen| ==> Ahead(chosen[k], p, ties)
    ensures Blocked(p, chosen, ties)
  {
    if p.ref in usedRef {
      var k :| 0 <= k < |chosen| && chosen[k].ref == p.ref;
    } else {
      var k :| 0 <= k < |chosen| && chosen[k].cand == p.cand;
    }
  }

  lemma AllAnswered(chosen: seq<Pair>, s: seq<Pair>, ties: Ties)
    requires OneToOne(chosen) && Ordered(chosen, ties) && Answers(chosen, s, |s|, ties)
    ensures GreedyChoice(chosen, Elements(s), ties)
  {
    assert s[..|s|] == s;
    forall p | p in Elements(s) && p.weight > 0.0 && p !in chosen
      ensures Blocked(p, chosen, ties)
    {
      var k :| 0 <= k < |s| && s[k] == p;
    }
  }

  /** The selection loop over the sorted pairs. */
  method Select(s: seq<Pair>, ties: Ties) returns (chosen: seq<Pair>, usedRef: set<nat>, usedCand: set<nat>)
    requires Ordered(s, ties)
    ensures GreedyChoice(chosen, Elements(s), ties)
    ensures Tracks(chosen, usedRef, usedCand)
  {
    chosen, usedRef, usedCand := [], {}, {};
    var n := 0;
    while n < |s|
      invariant n <= |s| && Answers(chosen, s, n, ties)
      invariant OneToOne(chosen) && Ordered(chosen, ties)
      invariant Tracks(chosen, usedRef, usedCand)
    {
      if s[n].weight <= 0.0 {
        RestIsNotPositive(chosen, s, n, ties);
        n := |s|;
        break;
      }
      EarlierIsAhead(chosen, s, n, ties);
      if s[n].ref in usedRef || s[n].cand in usedCand {
        UsedIsBlocked(chosen, usedRef, usedCand, s[n], ties);
        SkipAnswers(chosen, s, n, ties);
      } else {
        TakeAnswers(chosen, s, n, ties);
        TakeTracks(chosen, usedRef, usedCand, s[n]);
        TakeKeepsOrder(chosen, usedRef, usedCand, s[n], ties);
        usedRef := usedRef + {s[n].ref};
        usedCand := usedCand + {s[n].cand};
        chosen := chosen + [s[n]];
      }
      n := n + 1;
    }
    AllAnswered(chosen, s, ties);
  }
}
