/**
 pair_frames of compare_detection2d_bags.py: pairing two bags' frames by stamp, first in
 first out among equal stamps, or by position.
 */
module FramePairing {

  import opened BufferModel
  import opened Geometry

  /** `index` is the frame's position in its bag. */
  datatype Frame = Frame(index: nat, stamp: int, detections: seq<Detection>)

  type FramePair = (Frame, Frame)

  predicate Indexed(frames: seq<Frame>) {
    forall k :: 0 <= k < |frames| ==> frames[k].index == k
  }

  /** The frames with stamp `s`, in bag order. */
  function Of(frames: seq<Frame>, s: int): seq<Frame> {
    if frames == [] then []
    else Of(frames[..|frames| - 1], s) + if frames[|frames| - 1].stamp == s then [frames[|frames| - 1]] else []
  }

  function PairsAt(pairs: seq<FramePair>, s: int): seq<FramePair> {
    if pairs == [] then []
    else PairsAt(pairs[..|pairs| - 1], s) + if pairs[|pairs| - 1].0.stamp == s then [pairs[|pairs| - 1]] else []
  }

  function Least(a: nat, b: nat): nat { if a < b then a else b }

  /** k-th with k-th, as far as both go. */
  function Zip(a: seq<Frame>, b: seq<Frame>): seq<FramePair> {
    seq(Least(|a|, |b|), k requires 0 <= k < Least(|a|, |b|) => (a[k], b[k]))
  }

  /** The pairs the stamp policy makes for `ref`, in its order. */
  function StampPairs(ref: seq<Frame>, cand: seq<Frame>): seq<FramePair> {
    if ref == [] then []
    else
      var before := ref[..|ref| - 1];
      var f := ref[|ref| - 1];
      StampPairs(before, cand)
      + if |Of(before, f.stamp)| < |Of(cand, f.stamp)| then [(f, Of(cand, f.stamp)[|Of(before, f.stamp)|])] else []
  }

  // ---------- The dictionary of queues

  function Queue(queues: map<int, seq<Frame>>, s: int): seq<Frame> {
    if s in queues then queues[s] else []
  }

  /** `keys` lists the dictionary's keys in insertion order. */
  ghost predicate KeysOf(queues: map<int, seq<Frame>>, keys: seq<int>) {
    && (forall s :: s in queues <==> s in keys)
    && (forall i, j :: 0 <= i < j < |keys| ==> keys[i] != keys[j])
  }

  function Total(queues: map<int, seq<Frame>>, keys: seq<int>): nat {
    if keys == [] then 0 else Total(queues, keys[..|keys| - 1]) + |Queue(queues, keys[|keys| - 1])|
  }

  lemma {:induction false} TotalUpdate(queues: map<int, seq<Frame>>, keys: seq<int>, s: int, q: seq<Frame>)
    requires forall i, j :: 0 <= i < j < |keys| ==> keys[i] != keys[j]
    ensures Total(queues[s := q], keys) ==
            Total(queues, keys) + if s in keys then |q| - |Queue(queues, s)| else 0
  {
    if keys == [] {
    } else {
      TotalUpdate(queues, keys[..|keys| - 1], s, q);
      assert keys == keys[..|keys| - 1] + [keys[|keys| - 1]];
    }
  }

  datatype Pairing = Pairing(pairs: seq<FramePair>, unpairedRef: nat, unpairedCand: nat)

  /** What both policies promise: which frames are paired, and how many are not. */
  ghost predicate PairingResult(r: Pairing, ref: seq<Frame>, cand: seq<Frame>, policy: string) {
    && |r.pairs| + r.unpairedRef == |ref| && |r.pairs| + r.unpairedCand == |cand|
    && r.pairs == if policy == "index" then Zip(ref, cand) else StampPairs(ref, cand)
  }

  lemma OfSnoc(frames: seq<Frame>, n: nat, s: int)
    requires n < |frames|
    ensures Of(frames[..n + 1], s) == Of(frames[..n], s) + if frames[n].stamp == s then [frames[n]] else []
  {
    assert frames[..n + 1][..n] == frames[..n];
  }

  /** Append to the queue of the frame's stamp, which the dictionary makes when needed. */
  function Push(queues: map<int, seq<Frame>>, f: Frame): map<int, seq<Frame>> {
    queues[f.stamp := Queue(queues, f.stamp) + [f]]
  }

  ghost predicate QueuesHold(queues: map<int, seq<Frame>>, frames: seq<Frame>) {
    forall s :: Queue(queues, s) == Of(frames, s)
  }

  lemma PushHolds(queues: map<int, seq<Frame>>, cand: seq<Frame>, n: nat)
    requires n < |cand| && QueuesHold(queues, cand[..n])
    ensures QueuesHold(Push(queues, cand[n]), cand[..n + 1])
  {
    var more := Push(queues, cand[n]);
    forall s
      ensures Queue(more, s) == Of(cand[..n + 1], s)
    {
      OfSnoc(cand, n, s);
      assert Queue(queues, s) == Of(cand[..n], s);
    }
  }

  /** The keys after `s` is used: a new key goes to the end. */
  function WithKey(keys: seq<int>, s: int): seq<int> {
    if s in keys then keys else keys + [s]
  }

  lemma TotalSnoc(queues: map<int, seq<Frame>>, keys: seq<int>, s: int)
    ensures Total(queues, keys + [s]) == Total(queues, keys) + |Queue(queues, s)|
  {
    assert (keys + [s])[..|keys|] == keys;
  }

  lemma PushKeys(queues: map<int, seq<Frame>>, keys: seq<int>, f: Frame)
    requires KeysOf(queues, keys)
    ensures KeysOf(Push(queues, f), WithKey(keys, f.stamp))
  {
    var more, longer := Push(queues, f), WithKey(keys, f.stamp);
    assert longer[|longer| - 1] == f.stamp || f.stamp in keys;
    forall s
      ensures s in more <==> s in longer
    {
      assert s in more <==> s in queues || s == f.stamp;
    }
  }

  lemma PushTotal(queues: map<int, seq<Frame>>, keys: seq<int>, f: Frame)
    requires KeysOf(queues, keys)
    ensures Total(Push(queues, f), WithKey(keys, f.stamp)) == Total(queues, keys) + 1
  {
    var more, q := Push(queues, f), Queue(queues, f.stamp);
    TotalUpdate(queues, keys, f.stamp, q + [f]);
    if f.stamp !in keys {
      assert q == [] && Queue(more, f.stamp) == q + [f];
      TotalSnoc(more, keys, f.stamp);
    }
  }

  method FillQueues(cand: seq<Frame>) returns (queues: map<int, seq<Frame>>, keys: seq<int>)
    ensures KeysOf(queues, keys) && Total(queues, keys) == |cand|
    ensures QueuesHold(queues, cand)
  {
    queues, keys := map[], [];
    for n := 0 to |cand|
      invariant KeysOf(queues, keys) && Total(queues, keys) == n && QueuesHold(queues, cand[..n])
    {
      var f := cand[n];
      PushKeys(queues, keys, f);
      PushTotal(queues, keys, f);
      PushHolds(queues, cand, n);
      keys := WithKey(keys, f.stamp);
      queues := Push(queues, f);
    }
    assert cand[..|cand|] == cand;
  }

  /** The queues after the frames `done` of the reference took what they could. */
  ghost predicate QueuesLeft(queues: map<int, seq<Frame>>, done: seq<Frame>, cand: seq<Frame>) {
    forall s :: Queue(queues, s) == Of(cand, s)[Least(|Of(done, s)|, |Of(cand, s)|)..]
  }

  lemma TakeLeaves(queues: map<int, seq<Frame>>, ref: seq<Frame>, cand: seq<Frame>, n: nat)
    requires n < |ref| && QueuesLeft(queues, ref[..n], cand) && Queue(queues, ref[n].stamp) != []
    ensures QueuesLeft(queues[ref[n].stamp := Queue(queues, ref[n].stamp)[1..]], ref[..n + 1], cand)
    ensures StampPairs(ref[..n + 1], cand) == StampPairs(ref[..n], cand) + [(ref[n], Queue(queues, ref[n].stamp)[0])]
  {
    var f := ref[n];
    var less := queues[f.stamp := Queue(queues, f.stamp)[1..]];
    assert ref[..n + 1][..n] == ref[..n];
    assert Queue(queues, f.stamp) == Of(cand, f.stamp)[Least(|Of(ref[..n], f.stamp)|, |Of(cand, f.stamp)|)..];
    forall s
      ensures Queue(less, s) == Of(cand, s)[Least(|Of(ref[..n + 1], s)|, |Of(cand, s)|)..]
    {
      OfSnoc(ref, n, s);
      assert Queue(queues, s) == Of(cand, s)[Least(|Of(ref[..n], s)|, |Of(cand, s)|)..];
    }
  }

  lemma MissLeaves(queues: map<int, seq<Frame>>, ref: seq<Frame>, cand: seq<Frame>, n: nat)
    requires n < |ref| && QueuesLeft(queues, ref[..n], cand) && Queue(queues, ref[n].stamp) == []
    ensures QueuesLeft(queues, ref[..n + 1], cand) && StampPairs(ref[..n + 1], cand) == StampPairs(ref[..n], cand)
  {
    var f := ref[n];
    assert ref[..n + 1][..n] == ref[..n];
    assert Queue(queues, f.stamp) == Of(cand, f.stamp)[Least(|Of(ref[..n], f.stamp)|, |Of(cand, f.stamp)|)..];
    forall s
      ensures Queue(queues, s) == Of(cand, s)[Least(|Of(ref[..n + 1], s)|, |Of(cand, s)|)..]
    {
      OfSnoc(ref, n, s);
      assert Queue(queues, s) == Of(cand, s)[Least(|Of(ref[..n], s)|, |Of(cand, s)|)..];
    }
  }

  /** The loop over the reference frames: pairs made, and references left without one. */
  method PairByStamp(ref: seq<Frame>, cand: seq<Frame>) returns (r: Pairing)
    ensures PairingResult(r, ref, cand, "stamp")
  {
    var queues, keys := FillQueues(cand);
    var pairs: seq<FramePair>, unpairedRef: nat := [], 0;
    assert QueuesLeft(queues, ref[..0], cand);
    for n := 0 to |ref|
      invariant KeysOf(queues, keys) && Total(queues, keys) + |pairs| == |cand| && |pairs| + unpairedRef == n
      invariant pairs == StampPairs(ref[..n], cand)
      invariant QueuesLeft(queues, ref[..n], cand)
    {
      var s := ref[n].stamp;
      var q := Queue(queues, s);
      if q != [] {
        TakeLeaves(queues, ref, cand, n);
        TotalUpdate(queues, keys, s, q[1..]);
        pairs, queues := pairs + [(ref[n], q[0])], queues[s := q[1..]];
      } else {
        MissLeaves(queues, ref, cand, n);
        unpairedRef := unpairedRef + 1;
      }
    }
    assert ref[..|ref|] == ref;
    var unpairedCand := CountQueued(queues, keys);
    r := Pairing(pairs, unpairedRef, unpairedCand);
  }

  /** None stands for the ValueError of an unknown policy. */
  method PairFrames(ref: seq<Frame>, cand: seq<Frame>, policy: string) returns (r: Option<Pairing>)
    ensures r.Some? <==> policy == "index" || policy == "stamp"
    ensures r.Some? ==> PairingResult(r.value, ref, cand, policy)
  {
    if policy == "index" {
      var n := Least(|ref|, |cand|);
      return Some(Pairing(Zip(ref, cand), |ref| - n, |cand| - n));
    }
    if policy != "stamp" {
      return None;
    }
    var p := PairByStamp(ref, cand);
    r := Some(p);
  }

  method CountQueued(queues: map<int, seq<Frame>>, keys: seq<int>) returns (n: nat)
    ensures n == Total(queues, keys)
  {
    n := 0;
    for k := 0 to |keys|
      invariant n == Total(queues, keys[..k])
    {
      assert keys[..k + 1][..k] == keys[..k];
      n := n + |Queue(queues, keys[k])|;
    }
    assert keys[..|keys|] == keys;
  }

  // ---------- What the stamp policy means

  lemma ZipSnoc(a: seq<Frame>, f: Frame, b: seq<Frame>)
    ensures Zip(a + [f], b) == Zip(a, b) + if |a| < |b| then [(f, b[|a|])] else []
  {}

  lemma PairsAtSnoc(pairs: seq<FramePair>, p: FramePair, s: int)
    ensures PairsAt(pairs + [p], s) == PairsAt(pairs, s) + if p.0.stamp == s then [p] else []
  {
    assert (pairs + [p])[..|pairs|] == pairs;
  }

  lemma StampPairsSnoc(before: seq<Frame>, f: Frame, cand: seq<Frame>)
    ensures var n, q := |Of(before, f.stamp)|, Of(cand, f.stamp);
            StampPairs(before + [f], cand) == StampPairs(before, cand) + if n < |q| then [(f, q[n])] else []
  {
    assert (before + [f])[..|before|] == before;
  }

  lemma OfAnother(before: seq<Frame>, f: Frame, s: int)
    ensures Of(before + [f], s) == Of(before, s) + if f.stamp == s then [f] else []
  {
    assert (before + [f])[..|before|] == before;
  }

  /** One more reference frame adds the same pair on both sides. */
  lemma ZipOneMore(before: seq<Frame>, f: Frame, cand: seq<Frame>, s: int)
    requires PairsAt(StampPairs(before, cand), s) == Zip(Of(before, s), Of(cand, s))
    ensures PairsAt(StampPairs(before + [f], cand), s) == Zip(Of(before + [f], s), Of(cand, s))
  {
    var pairs, n, q := StampPairs(before, cand), |Of(before, f.stamp)|, Of(cand, f.stamp);
    StampPairsSnoc(before, f, cand);
    OfAnother(before, f, s);
    ZipSnoc(Of(before, s), f, Of(cand, s));
    if n < |q| {
      PairsAtSnoc(pairs, (f, q[n]), s);
      assert StampPairs(before + [f], cand) == pairs + [(f, q[n])];
    } else {
      assert StampPairs(before + [f], cand) == pairs;
    }
    if f.stamp != s { assert Of(before + [f], s) == Of(before, s); }
  }

  /** Among the frames of one stamp, the k-th of one bag is paired with the k-th of the other. */
  lemma {:induction false} StampPairsZip(ref: seq<Frame>, cand: seq<Frame>, s: int)
    ensures PairsAt(StampPairs(ref, cand), s) == Zip(Of(ref, s), Of(cand, s))
  {
    if ref == [] {
      assert Zip([], Of(cand, s)) == [];
    } else {
      var before := ref[..|ref| - 1];
      StampPairsZip(before, cand, s);
      ZipOneMore(before, ref[|ref| - 1], cand, s);
      assert ref == before + [ref[|ref| - 1]];
    }
  }

  /** So a stamp gets as many pairs as the bag with fewer frames of it has. */
  lemma PairsPerStamp(ref: seq<Frame>, cand: seq<Frame>, s: int)
    ensures |PairsAt(StampPairs(ref, cand), s)| == Least(|Of(ref, s)|, |Of(cand, s)|)
    ensures forall k :: 0 <= k < |PairsAt(StampPairs(ref, cand), s)| ==>
                          PairsAt(StampPairs(ref, cand), s)[k] == (Of(ref, s)[k], Of(cand, s)[k])
  {
    StampPairsZip(ref, cand, s);
  }

  /** The frames of one stamp are frames of the bag, in its order. */
  lemma {:induction false} OfFacts(frames: seq<Frame>, s: int)
    requires Indexed(frames)
    ensures forall k :: 0 <= k < |Of(frames, s)| ==>
                          var f := Of(frames, s)[k]; f.stamp == s && f.index < |frames| && frames[f.index] == f
    ensures forall i, j :: 0 <= i < j < |Of(frames, s)| ==> Of(frames, s)[i].index < Of(frames, s)[j].index
  {
    if frames == [] {
    } else {
      OfFacts(frames[..|frames| - 1], s);
    }
  }

  function Firsts(pairs: seq<FramePair>): seq<Frame> {
    seq(|pairs|, k requires 0 <= k < |pairs| => pairs[k].0)
  }

  function Seconds(pairs: seq<FramePair>): seq<Frame> {
    seq(|pairs|, k requires 0 <= k < |pairs| => pairs[k].1)
  }

  /** `part` takes frames out of `whole`, none of them twice. */
  predicate TakenFrom(part: seq<Frame>, whole: seq<Frame>) {
    && (forall k :: 0 <= k < |part| ==> part[k].index < |whole| && whole[part[k].index] == part[k])
    && (forall i, j :: 0 <= i < j < |part| ==> part[i].index != part[j].index)
  }

  lemma ZipTakes(ref: seq<Frame>, cand: seq<Frame>)
    requires Indexed(ref) && Indexed(cand)
    ensures TakenFrom(Firsts(Zip(ref, cand)), ref) && TakenFrom(Seconds(Zip(ref, cand)), cand)
  {}

  /** The second of a pair comes from the queue of the first's stamp, at a place an earlier
      reference of that stamp accounts for. */
  ghost predicate FromQueue(p: FramePair, ref: seq<Frame>, cand: seq<Frame>) {
    exists k :: 0 <= k < |Of(ref, p.0.stamp)| && k < |Of(cand, p.0.stamp)| && p.1 == Of(cand, p.0.stamp)[k]
  }

  lemma FromQueueSnoc(p: FramePair, ref: seq<Frame>, f: Frame, cand: seq<Frame>)
    requires FromQueue(p, ref, cand)
    ensures FromQueue(p, ref + [f], cand)
  {
    var k :| 0 <= k < |Of(ref, p.0.stamp)| && k < |Of(cand, p.0.stamp)| && p.1 == Of(cand, p.0.stamp)[k];
    assert (ref + [f])[..|ref|] == ref;
  }

  /** A later place in a queue is a different frame. */
  lemma FromQueueIsOther(p: FramePair, ref: seq<Frame>, cand: seq<Frame>, s: int)
    requires Indexed(cand) && FromQueue(p, ref, cand) && |Of(ref, s)| < |Of(cand, s)|
    ensures p.1.index != Of(cand, s)[|Of(ref, s)|].index
  {
    OfFacts(cand, p.0.stamp);
    OfFacts(cand, s);
  }

  lemma TakenSnoc(part: seq<Frame>, f: Frame, whole: seq<Frame>)
    requires TakenFrom(part, whole) && f.index < |whole| && whole[f.index] == f
    requires forall k :: 0 <= k < |part| ==> part[k].index != f.index
    ensures TakenFrom(part + [f], whole)
  {}

  lemma TakenFromLonger(part: seq<Frame>, before: seq<Frame>, whole: seq<Frame>)
    requires TakenFrom(part, before) && before <= whole
    ensures TakenFrom(part, whole)
  {}

  lemma {:induction false} StampPairsTake(ref: seq<Frame>, cand: seq<Frame>)
    requires Indexed(ref) && Indexed(cand)
    ensures TakenFrom(Firsts(StampPairs(ref, cand)), ref) && TakenFrom(Seconds(StampPairs(ref, cand)), cand)
    ensures forall k :: 0 <= k < |StampPairs(ref, cand)| ==> FromQueue(StampPairs(ref, cand)[k], ref, cand)
  {
    if ref == [] {
    } else {
      var before := ref[..|ref| - 1];
      var f := ref[|ref| - 1];
      StampPairsTake(before, cand);
      var pairs := StampPairs(before, cand);
      assert before + [f] == ref;
      forall k | 0 <= k < |pairs|
        ensures FromQueue(pairs[k], ref, cand) && Firsts(pairs)[k].index != f.index
      {
        FromQueueSnoc(pairs[k], before, f, cand);
      }
      TakenFromLonger(Firsts(pairs), before, ref);
      if |Of(before, f.stamp)| < |Of(cand, f.stamp)| {
        var g := Of(cand, f.stamp)[|Of(before, f.stamp)|];
        OfFacts(cand, f.stamp);
        forall k | 0 <= k < |pairs|
          ensures Seconds(pairs)[k].index != g.index
        {
          FromQueueIsOther(pairs[k], before, cand, f.stamp);
        }
        TakenSnoc(Firsts(pairs), f, ref);
        TakenSnoc(Seconds(pairs), g, cand);
        assert Firsts(pairs + [(f, g)]) == Firsts(pairs) + [f];
        assert Seconds(pairs + [(f, g)]) == Seconds(pairs) + [g];
        assert FromQueue((f, g), ref, cand);
        assert StampPairs(ref, cand) == pairs + [(f, g)];
      } else {
        assert StampPairs(ref, cand) == pairs;
      }
    }
  }

  lemma PairingTakes(r: Pairing, ref: seq<Frame>, cand: seq<Frame>, policy: string)
    requires Indexed(ref) && Indexed(cand) && PairingResult(r, ref, cand, policy)
    ensures TakenFrom(Firsts(r.pairs), ref) && TakenFrom(Seconds(r.pairs), cand)
  {
    StampPairsTake(ref, cand);
    ZipTakes(ref, cand);
  }
}
