/**
 * The pure arithmetic of interaction capture in `app/components/StudioCanvas.tsx`:
 * hit testing, resize, rectangle normalisation, dragging and the jitter filter
 * that feeds the freehand point buffer.
 */
module Gestures {
  import opened Wrappers
  import opened Geometry
  import opened Shapes
  import opened Collections

  /** Resized boxes keep their width and height within [5, 20000]. */
  const MinSize: real := 5.0
  const MaxSize: real := 20000.0

  /** `dist > 0.7` in the jitter filter, compared through squares. */
  const Jitter: real := 0.7

  datatype Corner = NW | NE | SW | SE
  datatype Box = Box(x: real, y: real, w: real, h: real)

  /** `resizingRef`: the shape, the handle grabbed, and the box at gesture start. */
  datatype ResizeInfo = ResizeInfo(id: Id, corner: Corner, start: Box)

  /** The box a handle drag produces when the pointer is at `p`. */
  function ResizeBox(info: ResizeInfo, p: Point): (b: Box)
    ensures MinSize <= b.w <= MaxSize && MinSize <= b.h <= MaxSize
    ensures info.corner == SE ==> b.x == info.start.x && b.y == info.start.y
    ensures info.corner == NE ==> b.x == info.start.x && 0.0 <= b.y <= MaxSize
    ensures info.corner == SW ==> b.y == info.start.y && 0.0 <= b.x <= MaxSize
    ensures info.corner == NW ==> 0.0 <= b.x <= MaxSize && 0.0 <= b.y <= MaxSize
    // While no clamp engages the corner opposite the handle stays where it was.
    ensures var s := info.start;
      && (info.corner in {NW, SW} && 0.0 <= p.x <= MaxSize && MinSize <= s.x + s.w - p.x <= MaxSize
          ==> b.x + b.w == s.x + s.w)
      && (info.corner in {NW, NE} && 0.0 <= p.y <= MaxSize && MinSize <= s.y + s.h - p.y <= MaxSize
          ==> b.y + b.h == s.y + s.h)
  {
    var s := info.start;
    match info.corner
    case SE => Box(s.x, s.y, Clamp(p.x - s.x, MinSize, MaxSize), Clamp(p.y - s.y, MinSize, MaxSize))
    case NE => Box(s.x, Clamp(p.y, 0.0, MaxSize), Clamp(p.x - s.x, MinSize, MaxSize), Clamp(s.y + s.h - p.y, MinSize, MaxSize))
    case SW => Box(Clamp(p.x, 0.0, MaxSize), s.y, Clamp(s.x + s.w - p.x, MinSize, MaxSize), Clamp(p.y - s.y, MinSize, MaxSize))
    case NW => Box(Clamp(p.x, 0.0, MaxSize), Clamp(p.y, 0.0, MaxSize), Clamp(s.x + s.w - p.x, MinSize, MaxSize), Clamp(s.y + s.h - p.y, MinSize, MaxSize))
  }

  /** One shape under an active resize: only the box shape with the resized id changes, and only its box. */
  function Resized(s: Shape, info: ResizeInfo, p: Point): (r: Shape)
    ensures s.id != info.id || !s.IsBox() ==> r == s
    ensures s.id == info.id && s.IsBox() ==>
              && r.IsBox() && r == s.(x := r.x, y := r.y, w := r.w, h := r.h)
              && Box(r.x, r.y, r.w, r.h) == ResizeBox(info, p)
  {
    if s.id != info.id || !s.IsBox() then s
    else
      var b := ResizeBox(info, p);
      s.(x := b.x, y := b.y, w := b.w, h := b.h)
  }

  /** `prev.map(...)` of the resize branch of `onPointerMove`. */
  function ResizeAll(shapes: seq<Shape>, info: ResizeInfo, p: Point): (r: seq<Shape>)
    ensures |r| == |shapes| && Ids(r) == Ids(shapes)
    ensures forall i :: 0 <= i < |shapes| ==> r[i] == Resized(shapes[i], info, p)
  {
    seq(|shapes|, i requires 0 <= i < |shapes| => Resized(shapes[i], info, p))
  }

  /** A box being drawn (the source draws rects and ellipses) spans the start point and the pointer. */
  function Normalised(s: Shape, start: Point, p: Point): (r: Shape)
    requires s.IsBox()
    ensures r.IsBox() && r == s.(x := r.x, y := r.y, w := r.w, h := r.h)
    ensures r.x == Min(start.x, p.x) && r.x + r.w == Max(start.x, p.x)
    ensures r.y == Min(start.y, p.y) && r.y + r.h == Max(start.y, p.y)
    ensures r.w >= 0.0 && r.h >= 0.0
  {
    s.(x := Min(start.x, p.x), y := Min(start.y, p.y), w := Abs(p.x - start.x), h := Abs(p.y - start.y))
  }

  /** A dragged shape keeps its grab offset to the pointer; a pencil stroke does not move. */
  function Dragged(s: Shape, offset: Point, p: Point): (r: Shape)
    ensures s.Pencil? ==> r == s
    ensures s.IsPositioned() ==> r.IsPositioned() && r == s.(x := r.x, y := r.y) && r.x + offset.x == p.x && r.y + offset.y == p.y
  {
    if s.IsPositioned() then s.(x := p.x - offset.x, y := p.y - offset.y) else s
  }

  /** `distToSegment`, squared: a zero-length segment measures to its end point. */
  function DistToSegmentSq(p: Point, a: Point, b: Point): (r: real)
    ensures DistSq(a, b) == 0.0 ==> r == DistSq(p, a)
  {
    if DistSq(a, b) == 0.0 then DistSq(p, a) else SegmentDistSq(p, a, b)
  }

  /**
   * `distToSegment` measures to the closest point of the segment: the value
   * is attained at a parameter in [0, 1], and no point of a segment of
   * non-zero length, nor of one whose ends coincide, is closer.
   */
  lemma {:induction false} DistToSegmentSqLeast(p: Point, a: Point, b: Point) returns (t0: real)
    ensures 0.0 <= t0 <= 1.0 && DistToSegmentSq(p, a, b) == DistSq(p, Along(a, b, t0))
    ensures DistSq(a, b) != 0.0 ==> forall t :: 0.0 <= t <= 1.0 ==> DistToSegmentSq(p, a, b) <= DistSq(p, Along(a, b, t))
    ensures a == b ==> forall t :: 0.0 <= t <= 1.0 ==> DistToSegmentSq(p, a, b) <= DistSq(p, Along(a, b, t))
  {
    if DistSq(a, b) == 0.0 {
      t0 := 0.0;
      assert Along(a, b, t0) == a;
      if a == b {
        assert forall t :: Along(a, b, t) == a;
      }
    } else {
      t0 := SegmentDistSqLeast(p, a, b);
    }
  }

  /** Some segment between consecutive points of the stroke passes within `radius` of `p`. */
  ghost predicate NearStroke(pts: seq<Point>, p: Point, radius: real)
    requires radius >= 0.0
  {
    exists i :: 0 <= i < |pts| - 1 && Within(DistToSegmentSq(p, pts[i], pts[i + 1]), radius)
  }

  /** The recursive form of the segment scan of `hitTest`. */
  predicate StrokeHit(pts: seq<Point>, p: Point, radius: real)
    requires radius >= 0.0
    decreases |pts|
  {
    |pts| >= 2 && (Within(DistToSegmentSq(p, pts[0], pts[1]), radius) || StrokeHit(pts[1..], p, radius))
  }

  lemma {:induction false} StrokeHitSpec(pts: seq<Point>, p: Point, radius: real)
    requires radius >= 0.0
    ensures StrokeHit(pts, p, radius) <==> NearStroke(pts, p, radius)
    decreases |pts|
  {
    if |pts| >= 2 {
      StrokeHitSpec(pts[1..], p, radius);
      if NearStroke(pts, p, radius) && !Within(DistToSegmentSq(p, pts[0], pts[1]), radius) {
        var i :| 0 <= i < |pts| - 1 && Within(DistToSegmentSq(p, pts[i], pts[i + 1]), radius);
        assert pts[1..][i - 1] == pts[i] && pts[1..][i] == pts[i + 1];
      }
      if StrokeHit(pts[1..], p, radius) {
        var i :| 0 <= i < |pts| - 2 && Within(DistToSegmentSq(p, pts[1..][i], pts[1..][i + 1]), radius);
        assert pts[i + 1] == pts[1..][i] && pts[i + 2] == pts[1..][i + 1];
      }
    }
  }

  /**
   * `hitTest(s, p, radius)`: point in box for rect, ellipse and image; a
   * 40 by 20 neighbourhood of the anchor for text; any stroke segment within
   * `radius` for pencil.
   */
  predicate HitTest(s: Shape, p: Point, radius: real)
    requires radius >= 0.0
  {
    match s
    case Pencil(_, _, pts, _) => StrokeHit(pts, p, radius)
    case Text(_, _, tx, ty, _, _) => Abs(p.x - tx) < 40.0 && Abs(p.y - ty) < 20.0
    case _ => s.x <= p.x <= s.x + s.w && s.y <= p.y <= s.y + s.h
  }

  /** The indexed segment loop of `hitTest`, returning as soon as one segment is close enough. */
  method HitTestScan(s: Shape, p: Point, radius: real) returns (hit: bool)
    requires radius >= 0.0
    ensures hit <==> HitTest(s, p, radius)
    ensures s.Pencil? ==> (hit <==> NearStroke(s.points, p, radius))
  {
    if !s.Pencil? {
      return HitTest(s, p, radius);
    }
    var pts := s.points;
    StrokeHitSpec(pts, p, radius);
    var i := 0;
    while i < |pts| - 1
      invariant 0 <= i <= |pts|
      invariant |pts| >= 1 ==> i <= |pts| - 1
      invariant forall k :: 0 <= k < i ==> !Within(DistToSegmentSq(p, pts[k], pts[k + 1]), radius)
    {
      if Within(DistToSegmentSq(p, pts[i], pts[i + 1]), radius) {
        return true;
      }
      i := i + 1;
    }
    return false;
  }

  /** A stroke of a single point has no segment and is never hit. */
  lemma SinglePointNeverHit(s: Shape, p: Point, radius: real)
    requires radius >= 0.0 && s.Pencil? && |s.points| <= 1
    ensures !HitTest(s, p, radius)
  {
  }

  /**
   * `[...shapes].reverse().find((s) => hitTest(s, p))`: the most recently drawn
   * shape under the pointer, if any.
   */
  function Topmost(shapes: seq<Shape>, p: Point, radius: real): (r: Option<nat>)
    requires radius >= 0.0
    ensures r.Some? ==> r.value < |shapes| && HitTest(shapes[r.value], p, radius)
    ensures r.Some? ==> forall j :: r.value < j < |shapes| ==> !HitTest(shapes[j], p, radius)
    ensures r.None? ==> forall j :: 0 <= j < |shapes| ==> !HitTest(shapes[j], p, radius)
    decreases |shapes|
  {
    if shapes == [] then None
    else if HitTest(shapes[|shapes| - 1], p, radius) then Some(|shapes| - 1)
    else Topmost(shapes[..|shapes| - 1], p, radius)
  }

  /** `prev.filter((s) => !hitTest(s, p, radius))`: what an eraser touch at `p` leaves. */
  function Erased(shapes: seq<Shape>, p: Point, radius: real): seq<Shape>
    requires radius >= 0.0
  {
    Filter(shapes, (s: Shape) => !HitTest(s, p, radius))
  }

  /**
   * The eraser removes exactly the shapes it touches: what is left are the
   * shapes not hit, and erasing distributes over a split of the list, so the
   * survivors keep their order.
   */
  lemma ErasedSpec(shapes: seq<Shape>, more: seq<Shape>, p: Point, radius: real)
    requires radius >= 0.0
    ensures forall s :: s in Erased(shapes, p, radius) <==> s in shapes && !HitTest(s, p, radius)
    ensures Erased(shapes + more, p, radius) == Erased(shapes, p, radius) + Erased(more, p, radius)
    ensures |Erased(shapes, p, radius)| <= |shapes|
  {
    FilterMembers(shapes, (s: Shape) => !HitTest(s, p, radius));
    FilterConcat(shapes, more, (s: Shape) => !HitTest(s, p, radius));
  }

  /** A freehand sample is kept when there is no last accepted point or it is more than 0.7 away from it. */
  predicate Accepts(last: Option<Point>, pt: Point) {
    last.None? || DistSq(pt, last.value) > Jitter * Jitter
  }

  /**
   * The jitter filter of the `for (const ev of events)` loop: the points
   * pushed to the buffer and the last accepted point afterwards.
   */
  function JitterFilter(last: Option<Point>, samples: seq<Point>): (r: (seq<Point>, Option<Point>))
    decreases |samples|
  {
    if samples == [] then ([], last)
    else
      var (kept, l) := JitterFilter(last, samples[..|samples| - 1]);
      var pt := samples[|samples| - 1];
      if Accepts(l, pt) then (kept + [pt], Some(pt)) else (kept, l)
  }

  /** One sample is kept exactly when it is accepted against the last point, and then becomes it. */
  lemma JitterOne(last: Option<Point>, pt: Point)
    ensures JitterFilter(last, [pt]) == if Accepts(last, pt) then ([pt], Some(pt)) else ([], last)
  {
    assert [pt][..0] == [];
    assert JitterFilter(last, []) == ([], last);
    assert [] + [pt] == [pt];
  }

  /** Kept points, in order, each far enough from the one accepted before it. */
  ghost predicate Spaced(last: Option<Point>, kept: seq<Point>) {
    && (kept != [] ==> Accepts(last, kept[0]))
    && forall i :: 0 < i < |kept| ==> Accepts(Some(kept[i - 1]), kept[i])
  }

  /**
   * What the filter keeps comes from the samples, each more than 0.7 from the
   * point accepted before it, and the last accepted point is the newest kept one.
   */
  lemma {:induction false} JitterFilterSpec(last: Option<Point>, samples: seq<Point>)
    ensures forall q :: q in JitterFilter(last, samples).0 ==> q in samples
    ensures |JitterFilter(last, samples).0| <= |samples|
    ensures Spaced(last, JitterFilter(last, samples).0)
    ensures JitterFilter(last, samples).1 ==
      (if JitterFilter(last, samples).0 == [] then last
       else Some(JitterFilter(last, samples).0[|JitterFilter(last, samples).0| - 1]))
    ensures last.None? && samples != [] ==> JitterFilter(last, samples).0[0] == samples[0]
    decreases |samples|
  {
    if samples != [] {
      var init := samples[..|samples| - 1];
      JitterFilterSpec(last, init);
      if last.None? && init != [] {
        assert JitterFilter(last, samples).0[0] == JitterFilter(last, init).0[0];
      }
    }
  }

  /**
   * `idx` lists, in increasing order, the indices of the samples the filter
   * keeps, and an index is listed exactly when its sample is accepted.
   */
  ghost predicate KeptAt(last: Option<Point>, samples: seq<Point>, idx: seq<nat>) {
    && |idx| == |JitterFilter(last, samples).0|
    && (forall k :: 0 <= k < |idx| ==> idx[k] < |samples| && JitterFilter(last, samples).0[k] == samples[idx[k]])
    && (forall k, m :: 0 <= k < m < |idx| ==> idx[k] < idx[m])
    && (forall j :: 0 <= j < |samples| ==> (j in idx <==> Accepts(JitterFilter(last, samples[..j]).1, samples[j])))
  }

  /**
   * The filter keeps a subsequence of the samples, in their order, and the
   * sample at index `j` is kept exactly when it is accepted against the
   * last point the filter holds when it reaches that sample.
   */
  lemma {:induction false} JitterFilterOrder(last: Option<Point>, samples: seq<Point>) returns (idx: seq<nat>)
    ensures |idx| == |JitterFilter(last, samples).0|
    ensures forall k :: 0 <= k < |idx| ==> idx[k] < |samples| && JitterFilter(last, samples).0[k] == samples[idx[k]]
    ensures forall k, m :: 0 <= k < m < |idx| ==> idx[k] < idx[m]
    ensures forall j :: 0 <= j < |samples| ==> (j in idx <==> Accepts(JitterFilter(last, samples[..j]).1, samples[j]))
    decreases |samples|
  {
    if samples == [] {
      return [];
    }
    var n := |samples| - 1;
    var before := JitterFilterOrder(last, samples[..n]);
    if Accepts(JitterFilter(last, samples[..n]).1, samples[n]) {
      idx := before + [n];
      KeptStep(last, samples, before);
    } else {
      idx := before;
      DroppedStep(last, samples, before);
    }
  }

  /** A last sample that is accepted extends the index list by its own index. */
  lemma KeptStep(last: Option<Point>, samples: seq<Point>, before: seq<nat>)
    requires samples != [] && KeptAt(last, samples[..|samples| - 1], before)
    requires Accepts(JitterFilter(last, samples[..|samples| - 1]).1, samples[|samples| - 1])
    ensures KeptAt(last, samples, before + [|samples| - 1])
  {
    var n := |samples| - 1;
    assert JitterFilter(last, samples).0 == JitterFilter(last, samples[..n]).0 + [samples[n]];
    KeptIndices(samples, JitterFilter(last, samples[..n]).0, before);
    KeptMembers(last, samples, before);
  }

  /** The index half of `KeptStep`: the new sample goes last, under index `|samples| - 1`. */
  lemma KeptIndices(samples: seq<Point>, kept: seq<Point>, before: seq<nat>)
    requires samples != [] && |before| == |kept|
    requires forall k :: 0 <= k < |before| ==> before[k] < |samples| - 1 && kept[k] == samples[..|samples| - 1][before[k]]
    requires forall k, m :: 0 <= k < m < |before| ==> before[k] < before[m]
    ensures var idx := before + [|samples| - 1];
            && (forall k :: 0 <= k < |idx| ==> idx[k] < |samples| && (kept + [samples[|samples| - 1]])[k] == samples[idx[k]])
            && (forall k, m :: 0 <= k < m < |idx| ==> idx[k] < idx[m])
  {
    var n := |samples| - 1;
    var idx := before + [n];
    forall k | 0 <= k < |idx|
      ensures idx[k] < |samples| && (kept + [samples[n]])[k] == samples[idx[k]]
    {
      if k < |before| {
        assert idx[k] == before[k] && (kept + [samples[n]])[k] == kept[k];
      }
    }
  }

  /** The membership half of `KeptStep`. */
  lemma KeptMembers(last: Option<Point>, samples: seq<Point>, before: seq<nat>)
    requires samples != []
    requires forall j :: 0 <= j < |samples| - 1 ==>
               (j in before <==> Accepts(JitterFilter(last, samples[..|samples| - 1][..j]).1, samples[..|samples| - 1][j]))
    requires Accepts(JitterFilter(last, samples[..|samples| - 1]).1, samples[|samples| - 1])
    ensures forall j :: 0 <= j < |samples| ==> (j in before + [|samples| - 1] <==> Accepts(JitterFilter(last, samples[..j]).1, samples[j]))
  {
    var n := |samples| - 1;
    var init := samples[..n];
    forall j | 0 <= j < |samples|
      ensures j in before + [n] <==> Accepts(JitterFilter(last, samples[..j]).1, samples[j])
    {
      if j < n {
        assert samples[..j] == init[..j] && samples[j] == init[j];
        assert j in before + [n] <==> j in before;
      } else {
        assert samples[..j] == init;
      }
    }
  }

  /** A last sample that is dropped leaves the index list as it is. */
  lemma DroppedStep(last: Option<Point>, samples: seq<Point>, before: seq<nat>)
    requires samples != [] && KeptAt(last, samples[..|samples| - 1], before)
    requires !Accepts(JitterFilter(last, samples[..|samples| - 1]).1, samples[|samples| - 1])
    ensures KeptAt(last, samples, before)
  {
    var n := |samples| - 1;
    var init := samples[..n];
    assert samples[..n] == init;
    assert JitterFilter(last, samples) == JitterFilter(last, init);
    forall j | 0 <= j < |samples|
      ensures j in before <==> Accepts(JitterFilter(last, samples[..j]).1, samples[j])
    {
      if j < n {
        assert samples[..j] == init[..j] && samples[j] == init[j];
      } else {
        assert n !in before;
      }
    }
  }

  /** Samples all within 0.7 of the last accepted point add nothing to the buffer. */
  lemma {:induction false} JitterDropsNearby(a: Point, samples: seq<Point>)
    requires forall i :: 0 <= i < |samples| ==> DistSq(samples[i], a) <= Jitter * Jitter
    ensures JitterFilter(Some(a), samples) == ([], Some(a))
    decreases |samples|
  {
    if samples != [] {
      JitterDropsNearby(a, samples[..|samples| - 1]);
    }
  }

  /**
   * The `prev.map(...)` of `flushBufferedPoints`: the pencil strokes with id
   * `id` get `pts` appended in capture order; every other shape is untouched.
   */
  function WithPoints(shapes: seq<Shape>, id: Id, pts: seq<Point>): (r: seq<Shape>)
    ensures |r| == |shapes| && Ids(r) == Ids(shapes)
    ensures forall i :: 0 <= i < |shapes| && (shapes[i].id != id || !shapes[i].Pencil?) ==> r[i] == shapes[i]
    ensures forall i :: 0 <= i < |shapes| && shapes[i].id == id && shapes[i].Pencil? ==>
              r[i].Pencil? && r[i] == shapes[i].(points := r[i].points) && r[i].points == shapes[i].points + pts
  {
    seq(|shapes|, i requires 0 <= i < |shapes| =>
      if shapes[i].id == id && shapes[i].Pencil? then shapes[i].(points := shapes[i].points + pts) else shapes[i])
  }

  /** Two flushes in a row append the two batches in order, as one flush of both would. */
  lemma WithPointsTwice(shapes: seq<Shape>, id: Id, a: seq<Point>, b: seq<Point>)
    ensures WithPoints(WithPoints(shapes, id, a), id, b) == WithPoints(shapes, id, a + b)
    ensures WithPoints(shapes, id, []) == shapes
  {
    var l := WithPoints(WithPoints(shapes, id, a), id, b);
    var r := WithPoints(shapes, id, a + b);
    forall i | 0 <= i < |shapes|
      ensures l[i] == r[i]
    {
      if shapes[i].id == id && shapes[i].Pencil? {
        assert shapes[i].points + a + b == shapes[i].points + (a + b);
      }
    }
    var e := WithPoints(shapes, id, []);
    forall i | 0 <= i < |shapes|
      ensures e[i] == shapes[i]
    {
      if shapes[i].id == id && shapes[i].Pencil? {
        assert shapes[i].points + [] == shapes[i].points;
      }
    }
  }

  /**
   * The rect and ellipse part of the drawing branch of `onPointerMove`: the
   * rect or ellipse with id `id` spans `start` and the pointer; nothing else
   * changes, and nothing changes at all without a start point.
   */
  function DrawAll(shapes: seq<Shape>, id: Id, start: Option<Point>, p: Point): (r: seq<Shape>)
    ensures |r| == |shapes| && Ids(r) == Ids(shapes)
    ensures start.None? ==> r == shapes
    ensures forall i :: 0 <= i < |shapes| && (shapes[i].id != id || !(shapes[i].Rect? || shapes[i].Ellipse?)) ==> r[i] == shapes[i]
    ensures start.Some? ==> forall i :: 0 <= i < |shapes| && shapes[i].id == id && (shapes[i].Rect? || shapes[i].Ellipse?) ==>
              r[i] == Normalised(shapes[i], start.value, p)
  {
    seq(|shapes|, i requires 0 <= i < |shapes| =>
      if shapes[i].id == id && (shapes[i].Rect? || shapes[i].Ellipse?) && start.Some? then Normalised(shapes[i], start.value, p) else shapes[i])
  }

  /** The drag branch of `onPointerMove`: only the shapes with id `id` follow the pointer. */
  function DragAll(shapes: seq<Shape>, id: Id, offset: Point, p: Point): (r: seq<Shape>)
    ensures |r| == |shapes| && Ids(r) == Ids(shapes)
    ensures forall i :: 0 <= i < |shapes| && shapes[i].id != id ==> r[i] == shapes[i]
    ensures forall i :: 0 <= i < |shapes| && shapes[i].id == id ==> r[i] == Dragged(shapes[i], offset, p)
  {
    seq(|shapes|, i requires 0 <= i < |shapes| => if shapes[i].id == id then Dragged(shapes[i], offset, p) else shapes[i])
  }

  /** The grab offset taken on pointer-down: the pointer minus the anchor, or zero for a stroke. */
  function GrabOffset(s: Shape, p: Point): (r: Point)
    ensures s.Pencil? ==> r == Point(0.0, 0.0)
  {
    if s.IsPositioned() then Point(p.x - s.x, p.y - s.y) else Point(0.0, 0.0)
  }

  /** Dragging to the very point where a shape was grabbed leaves it where it was. */
  lemma GrabThenDragInPlace(s: Shape, p: Point)
    ensures Dragged(s, GrabOffset(s, p), p) == s
  {
  }
}
