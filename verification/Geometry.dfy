/**
 Detections, their boxes and the overlap measure of the two comparison scripts.  Coordinates
 are real numbers; the scripts reject everything that is not finite.
 */
module Geometry {

  import opened BufferModel

  datatype Hypothesis = Hypothesis(classId: string, score: real)

  /** `result` is the first entry of the message's result list, if it has one. */
  datatype Detection = Detection(cx: real, cy: real, width: real, height: real, result: Option<Hypothesis>)

  datatype Box = Box(x1: real, y1: real, x2: real, y2: real)

  function Max(a: real, b: real): real { if a < b then b else a }

  function Min(a: real, b: real): real { if a < b then a else b }

  /** The bag script raises ValueError for a negative size. */
  predicate Sized(d: Detection) {
    d.width >= 0.0 && d.height >= 0.0
  }

  function ToXyxy(d: Detection): Box {
    Box(d.cx - d.width / 2.0, d.cy - d.height / 2.0, d.cx + d.width / 2.0, d.cy + d.height / 2.0)
  }

  predicate Upright(b: Box) {
    b.x1 <= b.x2 && b.y1 <= b.y2
  }

  /** The common length of [a1, a2] and [b1, b2]. */
  function Overlap(a1: real, a2: real, b1: real, b2: real): real {
    Max(0.0, Min(a2, b2) - Max(a1, b1))
  }

  function Intersection(a: Box, b: Box): real {
    Overlap(a.x1, a.x2, b.x1, b.x2) * Overlap(a.y1, a.y2, b.y1, b.y2)
  }

  function Area(b: Box): real {
    (b.x2 - b.x1) * (b.y2 - b.y1)
  }

  function Share(intersection: real, union: real): real {
    if union > 0.0 then intersection / union else 0.0
  }

  /** compare_detection2d_bags.py: None stands for its ValueError. */
  function Iou(a: Box, b: Box): Option<real> {
    if !Upright(a) || !Upright(b) || Area(a) + Area(b) - Intersection(a, b) < 0.0 then None
    else Some(Share(Intersection(a, b), Area(a) + Area(b) - Intersection(a, b)))
  }

  /** compare_detections.py clamps sides instead of rejecting a box. */
  function ClampedIou(a: Box, b: Box): real {
    Share(Intersection(a, b), ClampedArea(a) + ClampedArea(b) - Intersection(a, b))
  }

  function ClampedArea(b: Box): real {
    Max(0.0, b.x2 - b.x1) * Max(0.0, b.y2 - b.y1)
  }

  lemma MulMonotone(a: real, b: real, c: real, d: real)
    requires 0.0 <= a <= c && 0.0 <= b <= d
    ensures 0.0 <= a * b <= c * d
  {
    assert a * b <= a * d;
    assert a * d <= c * d;
  }

  lemma OverlapWithin(a1: real, a2: real, b1: real, b2: real)
    requires a1 <= a2 && b1 <= b2
    ensures 0.0 <= Overlap(a1, a2, b1, b2) <= a2 - a1
    ensures 0.0 <= Overlap(a1, a2, b1, b2) <= b2 - b1
    ensures Overlap(a1, a2, b1, b2) == Overlap(b1, b2, a1, a2)
  {}

  lemma IntersectionWithin(a: Box, b: Box)
    requires Upright(a) && Upright(b)
    ensures 0.0 <= Intersection(a, b) <= Area(a)
    ensures Intersection(a, b) == Intersection(b, a)
  {
    OverlapWithin(a.x1, a.x2, b.x1, b.x2);
    OverlapWithin(a.y1, a.y2, b.y1, b.y2);
    MulMonotone(Overlap(a.x1, a.x2, b.x1, b.x2), Overlap(a.y1, a.y2, b.y1, b.y2), a.x2 - a.x1, a.y2 - a.y1);
  }

  lemma RatioInUnit(n: real, d: real)
    requires 0.0 <= n <= d && d > 0.0
    ensures 0.0 <= n / d <= 1.0
    ensures n / d > 0.0 <==> n > 0.0
    ensures n / d == 1.0 <==> n == d
  {
    var q := n / d;
    assert n == q * d;
    assert q > 0.0 ==> q * d > 0.0;
    assert q < 0.0 ==> q * d < 0.0;
    assert q > 1.0 ==> q * d > d;
  }

  /** For upright boxes the measure exists, lies in [0, 1] and does not depend on the order of
      its arguments. */
  lemma IouRange(a: Box, b: Box)
    requires Upright(a) && Upright(b)
    ensures Iou(a, b).Some? && 0.0 <= Iou(a, b).value <= 1.0
    ensures Iou(a, b) == Iou(b, a)
    ensures Iou(a, b).value > 0.0 <==> Intersection(a, b) > 0.0
    ensures Iou(a, b).value == 1.0 <==> Intersection(a, b) == Area(a) == Area(b) > 0.0
  {
    IntersectionWithin(a, b);
    IntersectionWithin(b, a);
    var union := Area(a) + Area(b) - Intersection(a, b);
    if union > 0.0 { RatioInUnit(Intersection(a, b), union); }
  }

  /** The two scripts agree on upright boxes. */
  lemma ScriptsAgree(a: Box, b: Box)
    requires Upright(a) && Upright(b)
    ensures Iou(a, b) == Some(ClampedIou(a, b))
  {
    NoClamping(a);
    NoClamping(b);
    IouRange(a, b);
  }

  lemma NoClamping(b: Box)
    requires Upright(b)
    ensures ClampedArea(b) == Area(b)
  {}

  lemma SidesFromProduct(w: real, h: real, c: real, d: real)
    requires 0.0 <= w <= c && 0.0 <= h <= d && w * h == c * d > 0.0
    ensures w == c && h == d
  {
    MulMonotone(w, h, w, d);
    MulMonotone(w, h, c, h);
    MulMonotone(w, d, c, d);
    MulMonotone(c, h, c, d);
    assert (c - w) * d == 0.0 && c * (d - h) == 0.0;
  }

  lemma FullOverlapHasSides(a: Box, b: Box)
    requires Upright(a) && Upright(b) && Intersection(a, b) == Area(a) > 0.0
    ensures Overlap(a.x1, a.x2, b.x1, b.x2) == a.x2 - a.x1 && Overlap(a.y1, a.y2, b.y1, b.y2) == a.y2 - a.y1
  {
    OverlapWithin(a.x1, a.x2, b.x1, b.x2);
    OverlapWithin(a.y1, a.y2, b.y1, b.y2);
    SidesFromProduct(Overlap(a.x1, a.x2, b.x1, b.x2), Overlap(a.y1, a.y2, b.y1, b.y2), a.x2 - a.x1, a.y2 - a.y1);
  }

  /** The measure is 1 exactly for two equal boxes of positive area. */
  lemma FullOverlapIsEquality(a: Box, b: Box)
    requires Upright(a) && Upright(b)
    ensures Iou(a, b) == Some(1.0) <==> a == b && Area(a) > 0.0
  {
    IouRange(a, b);
    IntersectionWithin(a, b);
    IntersectionWithin(b, a);
    if Iou(a, b) == Some(1.0) {
      FullOverlapHasSides(a, b);
      FullOverlapHasSides(b, a);
    } else if a == b && Area(a) > 0.0 {
      SelfIntersection(a);
    }
  }

  lemma SelfIntersection(a: Box)
    requires Upright(a)
    ensures Intersection(a, a) == Area(a)
  {
    assert Overlap(a.x1, a.x2, a.x1, a.x2) == a.x2 - a.x1;
    assert Overlap(a.y1, a.y2, a.y1, a.y2) == a.y2 - a.y1;
  }

  lemma PositiveProduct(a: real, b: real)
    requires a > 0.0 && b > 0.0
    ensures a * b > 0.0
  {}

  /** The measure is positive exactly when the interiors meet. */
  lemma PositiveIsOverlap(a: Box, b: Box)
    requires Upright(a) && Upright(b)
    ensures Iou(a, b).Some?
    ensures Iou(a, b).value > 0.0 <==> exists x: real, y: real :: Inside(x, y, a) && Inside(x, y, b)
  {
    IouRange(a, b);
    var left, right := Max(a.x1, b.x1), Min(a.x2, b.x2);
    var low, high := Max(a.y1, b.y1), Min(a.y2, b.y2);
    if Intersection(a, b) > 0.0 {
      assert left < right && low < high;
      assert Inside((left + right) / 2.0, (low + high) / 2.0, a);
      assert Inside((left + right) / 2.0, (low + high) / 2.0, b);
    } else {
      forall x: real, y: real | Inside(x, y, a)
        ensures !Inside(x, y, b)
      {
        if left < right && low < high {
          PositiveProduct(right - left, high - low);
          assert false;
        }
      }
    }
  }

  ghost predicate Inside(x: real, y: real, b: Box) {
    b.x1 < x < b.x2 && b.y1 < y < b.y2
  }

  lemma SizedIsUpright(d: Detection)
    ensures Upright(ToXyxy(d)) <==> Sized(d)
  {}
}
