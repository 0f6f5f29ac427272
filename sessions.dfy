/**
 * Whole gestures on a freshly mounted board, composed from the handler
 * effects of `Canvas` that the methods of `Studio.StudioCanvas` are proved
 * against: a pen stroke that spans an animation frame, and a cancelled
 * stroke followed by a new one.
 */
module Sessions {
  import opened Wrappers
  import opened Geometry
  import opened Shapes
  import opened Gestures
  import opened Canvas

  /** A flush moves the whole buffer onto the active stroke, empty or not. */
  lemma FlushedShapes(s: CanvasState)
    requires Held(s.drawingId)
    ensures Flushed(s).shapes == WithPoints(s.shapes, s.drawingId.value, s.buffered)
  {
    WithPointsTwice(s.shapes, s.drawingId.value, [], []);
  }

  /** The one-stroke list a pen press on an empty board leaves. */
  lemma StrokeIsPencil(shapes: seq<Shape>, id: Id, pts: seq<Point>)
    requires shapes == [Pencil(id, "#ffffff", pts, StrokeWidth)]
    ensures HasPencil(shapes, id)
  {
    assert shapes[0].Pencil? && shapes[0].id == id;
  }

  /** Flushing onto a lone stroke appends the points to it. */
  lemma OneStroke(id: Id, pts: seq<Point>, extra: seq<Point>)
    ensures WithPoints([Pencil(id, "#ffffff", pts, StrokeWidth)], id, extra) == [Pencil(id, "#ffffff", pts + extra, StrokeWidth)]
  {
  }

  /** A pen press at `a` on a fresh board, then one move to `p` with the coalesced `samples`. */
  function Stroked(a: Point, p: Point, samples: seq<Point>, id: Id): CanvasState {
    Moved(Pressed(Initial(), Pen, a, None, id), Pen, p, samples)
  }

  /** The stroke holds the pressed point; the samples the filter keeps wait in the buffer. */
  lemma {:induction false} StrokedSpec(a: Point, p: Point, samples: seq<Point>, id: Id)
    requires id != ""
    ensures var s := Stroked(a, p, samples, id);
            var kept := JitterFilter(Some(Relative(a)), Relatives(samples));
            && s.shapes == [Pencil(id, "#ffffff", [Relative(a)], StrokeWidth)]
            && s.buffered == kept.0 && s.lastAdded == kept.1 && s.rafPending
            && s.tool == PencilTool && !s.commentMode && !s.isErasing && s.resizing.None?
            && s.color == "#ffffff" && s.drawingId == Some(id) && s.startPoint.None?
  {
    var s1 := Pressed(Initial(), Pen, a, None, id);
    PenPressSpec(Initial(), a, None, id);
    StrokeIsPencil(s1.shapes, id, [Relative(a)]);
    StrokeMoveSpec(s1, Pen, p, samples);
  }

  /** The first half of `StrokeAcrossFrame`: the press, the first batch and the frame. */
  function FirstBatch(a: Point, p: Point, first: seq<Point>, id: Id): CanvasState {
    Framed(Stroked(a, p, first, id))
  }

  /** After the frame the stroke holds the first batch and the buffer is empty. */
  lemma {:induction false} FirstBatchSpec(a: Point, p: Point, first: seq<Point>, id: Id)
    requires id != ""
    ensures var k1 := JitterFilter(Some(Relative(a)), Relatives(first)).0;
            var s := FirstBatch(a, p, first, id);
            && s.shapes == [Pencil(id, "#ffffff", [Relative(a)] + k1, StrokeWidth)]
            && s.buffered == [] && s.lastAdded == (if k1 == [] then Some(Relative(a)) else None)
            && s.tool == PencilTool && !s.commentMode && !s.isErasing && s.resizing.None?
            && s.drawingId == Some(id) && s.startPoint.None?
  {
    var pa := Relative(a);
    var s2 := Stroked(a, p, first, id);
    StrokedSpec(a, p, first, id);
    JitterFilterSpec(Some(pa), Relatives(first));
    FramedSpec(s2);
    OneStroke(id, [pa], s2.buffered);
  }

  /**
   * A pen stroke on a fresh board, drawn with two moves and one animation
   * frame between them, then released. The stroke starts with the pressed
   * point; each batch of samples passes the jitter filter against the last
   * accepted point, and once the frame has flushed a non-empty batch, the
   * first sample of the next batch is kept whatever its distance.
   */
  lemma {:induction false} StrokeAcrossFrame(a: Point, p: Point, q: Point, first: seq<Point>, second: seq<Point>, id: Id)
    requires id != ""
    ensures var k1 := JitterFilter(Some(Relative(a)), Relatives(first)).0;
            var k2 := JitterFilter(if k1 == [] then Some(Relative(a)) else None, Relatives(second)).0;
            Released(Moved(FirstBatch(a, p, first, id), Pen, q, second)).shapes
              == [Pencil(id, "#ffffff", [Relative(a)] + k1 + k2, StrokeWidth)]
  {
    var pa := Relative(a);
    var k1 := JitterFilter(Some(pa), Relatives(first)).0;
    var s3 := FirstBatch(a, p, first, id);
    FirstBatchSpec(a, p, first, id);
    var w1 := [Pencil(id, "#ffffff", [pa] + k1, StrokeWidth)];
    StrokeIsPencil(w1, id, [pa] + k1);
    var s4 := Moved(s3, Pen, q, second);
    var k2 := JitterFilter(s3.lastAdded, Relatives(second)).0;
    StrokeMoveSpec(s3, Pen, q, second);
    assert s4.shapes == w1 && s4.buffered == k2 && s4.drawingId == Some(id);
    ReleaseSpec(s4);
    FlushedShapes(s4);
    OneStroke(id, [pa] + k1, k2);
  }

  /** A single sample far enough from the pressed point is buffered. */
  lemma OneSampleKept(a: Point, b: Point)
    requires DistSq(Relative(b), Relative(a)) > Jitter * Jitter
    ensures JitterFilter(Some(Relative(a)), Relatives([b])).0 == [Relative(b)]
  {
    assert Relatives([b]) == [Relative(b)];
    JitterOne(Some(Relative(a)), Relative(b));
  }

  /**
   * A pen tap (press, then release) appends a one-point stroke that also
   * receives whatever the stroke buffer held before the press.
   */
  lemma {:induction false} PenTap(s: CanvasState, c: Point, id: Id)
    requires s.tool == PencilTool && !s.commentMode && id != ""
    ensures Released(Pressed(s, Pen, c, None, id)).shapes
              == WithPoints(s.shapes + [Pencil(id, s.color, [Relative(c)], StrokeWidth)], id, s.buffered)
  {
    var s4 := Pressed(s, Pen, c, None, id);
    PenPressSpec(s, c, None, id);
    ReleaseSpec(s4);
    FlushedShapes(s4);
  }

  /** Two strokes with different ids: buffered points go to the second only. */
  lemma TwoStrokes(first: Id, second: Id, pa: Point, pc: Point, extra: seq<Point>)
    requires first != second
    ensures WithPoints([Pencil(first, "#ffffff", [pa], StrokeWidth), Pencil(second, "#ffffff", [pc], StrokeWidth)], second, extra)
              == [Pencil(first, "#ffffff", [pa], StrokeWidth), Pencil(second, "#ffffff", [pc] + extra, StrokeWidth)]
  {
  }

  /**
   * With `onPointerCancel` as written, the sample buffered for the cancelled
   * stroke survives the cancel and the frame the move requested, and the
   * next stroke's release appends it to the new stroke.
   */
  lemma {:induction false} CancelLeakAsWritten(a: Point, b: Point, c: Point, first: Id, second: Id)
    requires first != "" && second != "" && first != second
    requires DistSq(Relative(b), Relative(a)) > Jitter * Jitter
    ensures Released(Pressed(Framed(CancelledAsWritten(Stroked(a, b, [b], first))), Pen, c, None, second)).shapes
              == [Pencil(first, "#ffffff", [Relative(a)], StrokeWidth),
                  Pencil(second, "#ffffff", [Relative(c), Relative(b)], StrokeWidth)]
  {
    StrokedSpec(a, b, [b], first);
    OneSampleKept(a, b);
    var s := Framed(CancelledAsWritten(Stroked(a, b, [b], first)));
    assert s.buffered == [Relative(b)] && s.shapes == Stroked(a, b, [b], first).shapes;
    PenTap(s, c, second);
    TwoStrokes(first, second, Relative(a), Relative(c), [Relative(b)]);
    assert [Relative(c)] + [Relative(b)] == [Relative(c), Relative(b)];
  }

  /** With the intended cancel, the next stroke holds only its own point. */
  lemma {:induction false} CancelThenStroke(a: Point, b: Point, c: Point, first: Id, second: Id)
    requires first != "" && second != "" && first != second
    requires DistSq(Relative(b), Relative(a)) > Jitter * Jitter
    ensures Released(Pressed(Framed(Cancelled(Stroked(a, b, [b], first))), Pen, c, None, second)).shapes
              == [Pencil(first, "#ffffff", [Relative(a)], StrokeWidth),
                  Pencil(second, "#ffffff", [Relative(c)], StrokeWidth)]
  {
    StrokedSpec(a, b, [b], first);
    var s := Framed(Cancelled(Stroked(a, b, [b], first)));
    assert s.buffered == [] && s.shapes == Stroked(a, b, [b], first).shapes;
    PenTap(s, c, second);
    TwoStrokes(first, second, Relative(a), Relative(c), []);
    assert [Relative(c)] + [] == [Relative(c)];
  }

  /**
   * A page switch as written, while a stroke with buffered points is held:
   * the save carries the stroke without any of the buffered points, which
   * the flush has put only on the local list.
   */
  lemma {:induction false} SwitchLosesBufferAsWritten(s: CanvasState, i: nat)
    requires Held(s.drawingId) && s.buffered != []
    requires i < |s.shapes| && s.shapes[i].Pencil? && s.shapes[i].id == s.drawingId.value
    ensures var sent := SwitchSaveAsWritten(s).shapes;
            && sent[i].points == s.shapes[i].points
            && |sent[i].points| + |s.buffered| == |Flushed(s).shapes[i].points|
            && sent != Flushed(s).shapes
  {
    FlushSpec(s);
  }

  /**
   * The corrected page switch saves the held stroke with every buffered
   * point appended in capture order, and every other shape as it is.
   */
  lemma {:induction false} SwitchSavesBuffer(s: CanvasState)
    requires Held(s.drawingId)
    ensures var save := SwitchSave(s);
            && save.baseVersion == s.version && save.page == s.page
            && Ids(save.shapes) == Ids(s.shapes)
            && (forall i :: 0 <= i < |s.shapes| && s.shapes[i].Pencil? && s.shapes[i].id == s.drawingId.value ==>
                  save.shapes[i].points == s.shapes[i].points + s.buffered)
            && (forall i :: 0 <= i < |s.shapes| && !(s.shapes[i].Pencil? && s.shapes[i].id == s.drawingId.value) ==>
                  save.shapes[i] == s.shapes[i])
  {
    FlushSpec(s);
    if s.buffered == [] {
      assert forall i :: 0 <= i < |s.shapes| && s.shapes[i].Pencil? ==> s.shapes[i].points + s.buffered == s.shapes[i].points;
    }
  }
}
