/**
 * `app/components/SandboxWhiteboard.tsx`: the sign-in-free whiteboard. Its
 * pointer handlers work on the shape list directly, with no point buffer,
 * history or persistence; the refs `drawingId`, `startPoint`, `dragId`,
 * `dragOffset` and `isErasing` are fields of the board.
 */
module Sandbox {
  import opened Wrappers
  import opened Geometry
  import opened Collections
  import opened Shapes
  import opened Gestures
  import opened Canvas

  /** The six tools of the toolbar. */
  datatype SandboxTool = PenTool | BoxTool | OvalTool | LabelTool | PictureTool | RubberTool

  const DefaultColor: string := "#ffffff"
  const StrokeSize: real := 2.0
  const LabelSize: real := 16.0
  const HitRadius: real := 6.0
  const RubberRadius: real := 16.0
  /** The image a picked file becomes: 360 by 240, centred on the 1600 by 1000 canvas. */
  const PictureW: real := 360.0
  const PictureH: real := 240.0
  const PictureX: real := (1600.0 - 360.0) / 2.0
  const PictureY: real := (1000.0 - 240.0) / 2.0

  /** The component's state and refs. */
  datatype Board = Board(
    tool: SandboxTool,
    color: string,
    shapes: seq<Shape>,
    selectedId: Option<Id>,
    drawingId: Option<Id>,
    startPoint: Option<Point>,
    dragId: Option<Id>,
    dragOffset: Point,
    isErasing: bool)

  function Fresh(): (b: Board)
    ensures b.shapes == [] && b.tool == PenTool && b.dragId.None? && b.drawingId.None? && !b.isErasing
  {
    Board(PenTool, DefaultColor, [], None, None, None, None, Point(0.0, 0.0), false)
  }

  /** A stroke segment is hit when it has non-zero length and passes within `radius`. */
  predicate SegmentHit(p: Point, a: Point, b: Point, radius: real)
    requires radius >= 0.0
  {
    DistSq(a, b) != 0.0 && Within(SegmentDistSq(p, a, b), radius)
  }

  /** The recursive form of the segment loop of `hit`. */
  predicate StrokeTouched(pts: seq<Point>, p: Point, radius: real)
    requires radius >= 0.0
    decreases |pts|
  {
    |pts| >= 2 && (SegmentHit(p, pts[0], pts[1], radius) || StrokeTouched(pts[1..], p, radius))
  }

  /** `hit(s, p, radius)`: inside the box, near the text anchor, or near a segment of non-zero length. */
  predicate Touched(s: Shape, p: Point, radius: real)
    requires radius >= 0.0
  {
    match s
    case Pencil(_, _, pts, _) => StrokeTouched(pts, p, radius)
    case Text(_, _, tx, ty, _, _) => Abs(p.x - tx) < 40.0 && Abs(p.y - ty) < 20.0
    case _ => s.x <= p.x <= s.x + s.w && s.y <= p.y <= s.y + s.h
  }

  /** A stroke is touched exactly when one of its segments is. */
  lemma {:induction false} StrokeTouchedSpec(pts: seq<Point>, p: Point, radius: real)
    requires radius >= 0.0
    ensures StrokeTouched(pts, p, radius) <==>
              exists i :: 0 <= i < |pts| - 1 && SegmentHit(p, pts[i], pts[i + 1], radius)
    decreases |pts|
  {
    if |pts| >= 2 {
      StrokeTouchedSpec(pts[1..], p, radius);
      if StrokeTouched(pts[1..], p, radius) {
        var i :| 0 <= i < |pts| - 2 && SegmentHit(p, pts[1..][i], pts[1..][i + 1], radius);
        assert pts[i + 1] == pts[1..][i] && pts[i + 2] == pts[1..][i + 1];
      }
      if !SegmentHit(p, pts[0], pts[1], radius) && exists i :: 0 <= i < |pts| - 1 && SegmentHit(p, pts[i], pts[i + 1], radius) {
        var i :| 0 <= i < |pts| - 1 && SegmentHit(p, pts[i], pts[i + 1], radius);
        assert pts[1..][i - 1] == pts[i] && pts[1..][i] == pts[i + 1];
      }
    }
  }

  /** The indexed loop of `hit`: zero-length segments are skipped, the first close segment returns. */
  method Hit(s: Shape, p: Point, radius: real) returns (hit: bool)
    requires radius >= 0.0
    ensures hit <==> Touched(s, p, radius)
  {
    if !s.Pencil? {
      return Touched(s, p, radius);
    }
    var pts := s.points;
    StrokeTouchedSpec(pts, p, radius);
    var i := 0;
    while i < |pts| - 1
      invariant 0 <= i <= |pts|
      invariant |pts| >= 1 ==> i <= |pts| - 1
      invariant forall k :: 0 <= k < i ==> !SegmentHit(p, pts[k], pts[k + 1], radius)
    {
      var a, b := pts[i], pts[i + 1];
      if DistSq(a, b) == 0.0 {
        i := i + 1;
        continue;
      }
      if Within(SegmentDistSq(p, a, b), radius) {
        return true;
      }
      i := i + 1;
    }
    return false;
  }

  /**
   * A stroke that never leaves its first point (a tap, in particular) is
   * never hit, at any radius.
   */
  lemma {:induction false} StillStrokeNeverTouched(pts: seq<Point>, p: Point, radius: real)
    requires radius >= 0.0
    requires forall i :: 0 <= i < |pts| ==> pts[i] == pts[0]
    ensures !StrokeTouched(pts, p, radius)
  {
    StrokeTouchedSpec(pts, p, radius);
    forall i | 0 <= i < |pts| - 1
      ensures !SegmentHit(p, pts[i], pts[i + 1], radius)
    {
      assert pts[i + 1] == pts[0];
    }
  }

  /**
   * Against the studio board's `hitTest`: every sandbox hit is a studio hit,
   * and the two agree on a shape that is not a pencil stroke.
   */
  lemma {:induction false} TouchedIsHitTest(s: Shape, p: Point, radius: real)
    requires radius >= 0.0
    ensures Touched(s, p, radius) ==> HitTest(s, p, radius)
    ensures !s.Pencil? ==> (Touched(s, p, radius) <==> HitTest(s, p, radius))
  {
    if s.Pencil? && Touched(s, p, radius) {
      StrokeTouchedSpec(s.points, p, radius);
      StrokeHitSpec(s.points, p, radius);
      var i :| 0 <= i < |s.points| - 1 && SegmentHit(p, s.points[i], s.points[i + 1], radius);
      assert Within(DistToSegmentSq(p, s.points[i], s.points[i + 1]), radius);
    }
  }

  /** `prev.filter((s) => !hit(s, p, 16))`. */
  function Rubbed(shapes: seq<Shape>, p: Point): seq<Shape> {
    Filter(shapes, (s: Shape) => !Touched(s, p, RubberRadius))
  }

  /** The eraser removes exactly the shapes it touches and keeps the order of the rest. */
  lemma RubbedSpec(shapes: seq<Shape>, more: seq<Shape>, p: Point)
    ensures forall s :: s in Rubbed(shapes, p) <==> s in shapes && !Touched(s, p, RubberRadius)
    ensures Rubbed(shapes + more, p) == Rubbed(shapes, p) + Rubbed(more, p)
    ensures |Rubbed(shapes, p)| <= |shapes|
  {
    FilterMembers(shapes, (s: Shape) => !Touched(s, p, RubberRadius));
    FilterConcat(shapes, more, (s: Shape) => !Touched(s, p, RubberRadius));
  }

  /**
   * `[...shapes].reverse().find((s) => hit(s, p))`: the index of the most
   * recently drawn shape under the pointer.
   */
  function TopTouched(shapes: seq<Shape>, p: Point): (r: Option<nat>)
    ensures r.Some? ==> r.value < |shapes| && Touched(shapes[r.value], p, HitRadius)
    ensures r.Some? ==> forall j :: r.value < j < |shapes| ==> !Touched(shapes[j], p, HitRadius)
    ensures r.None? ==> forall j :: 0 <= j < |shapes| ==> !Touched(shapes[j], p, HitRadius)
    decreases |shapes|
  {
    if shapes == [] then None
    else if Touched(shapes[|shapes| - 1], p, HitRadius) then Some(|shapes| - 1)
    else TopTouched(shapes[..|shapes| - 1], p)
  }

  /**
   * The select/move branch of `onPointerDown`: grab the topmost shape under
   * the pointer (an empty id counts as none) with its offset to the pointer.
   * No toolbar tool leads to this branch.
   */
  function Grabbed(b: Board, p: Point): (r: Board)
    ensures r.shapes == b.shapes && r.tool == b.tool
  {
    match TopTouched(b.shapes, p)
    case None => b.(dragId := None, selectedId := None, dragOffset := Point(0.0, 0.0))
    case Some(k) =>
      var found := b.shapes[k];
      var id := if found.id != "" then Some(found.id) else None;
      b.(dragId := id, selectedId := id, dragOffset := GrabOffset(found, p))
  }

  /** `onPointerDown`; `answer` is what the text prompt returns and `newId` the fresh `uid()`. */
  function Down(b: Board, kind: PointerType, p: Point, answer: Option<string>, newId: Id): Board {
    if kind == Touch then b
    else
      match b.tool
      case PenTool =>
        b.(drawingId := Some(newId), shapes := b.shapes + [Pencil(newId, b.color, [p], StrokeSize)], selectedId := Some(newId))
      case BoxTool =>
        b.(drawingId := Some(newId), startPoint := Some(p),
           shapes := b.shapes + [Rect(newId, b.color, p.x, p.y, 0.0, 0.0)], selectedId := Some(newId))
      case OvalTool =>
        b.(drawingId := Some(newId), startPoint := Some(p),
           shapes := b.shapes + [Ellipse(newId, b.color, p.x, p.y, 0.0, 0.0)], selectedId := Some(newId))
      case LabelTool =>
        if answer.None? || answer.value == "" then b
        else b.(shapes := b.shapes + [Text(newId, b.color, p.x, p.y, answer.value, LabelSize)], selectedId := Some(newId))
      case PictureTool => b
      case RubberTool => b.(isErasing := true, shapes := Rubbed(b.shapes, p))
  }

  /**
   * The drawing branch of `onPointerMove`: a stroke with the drawing id gets
   * the pointer appended; a rect or ellipse with that id spans the start
   * point and the pointer.
   */
  function Drawn(shapes: seq<Shape>, id: Id, start: Option<Point>, p: Point): seq<Shape> {
    WithPoints(DrawAll(shapes, id, start, p), id, [p])
  }

  /** `onPointerMove`. */
  function Move(b: Board, kind: PointerType, p: Point): Board {
    if kind == Touch then b
    else if b.isErasing && b.tool == RubberTool then b.(shapes := Rubbed(b.shapes, p))
    else if Held(b.drawingId) then b.(shapes := Drawn(b.shapes, b.drawingId.value, b.startPoint, p))
    else if Held(b.dragId) && b.tool != RubberTool then b.(shapes := DragAll(b.shapes, b.dragId.value, b.dragOffset, p))
    else b
  }

  /** `onPointerUp`: every gesture ref is cleared. */
  function Up(b: Board): Board {
    b.(drawingId := None, startPoint := None, isErasing := false, dragId := None)
  }

  /** The Clear button. */
  function Cleared(b: Board): Board {
    b.(shapes := [])
  }

  /** A picked image file, read as the data URL `src`: a centred image, and the tool goes back to the pencil. */
  function Picked(b: Board, src: string, newId: Id): Board {
    b.(shapes := b.shapes + [Image(newId, DefaultColor, PictureX, PictureY, PictureW, PictureH, src)], tool := PenTool)
  }

  /** Touch pointers neither draw nor move anything. */
  lemma TouchIgnored(b: Board, p: Point, answer: Option<string>, newId: Id)
    ensures Down(b, Touch, p, answer, newId) == b && Move(b, Touch, p) == b
  {
  }

  /** Pressing adds at most one shape, at the end, and keeps every shape already drawn, except for the eraser. */
  lemma DownSpec(b: Board, kind: PointerType, p: Point, answer: Option<string>, newId: Id)
    ensures var r := Down(b, kind, p, answer, newId);
            && (kind != Touch && b.tool == RubberTool ==> r.shapes == Rubbed(b.shapes, p) && r.isErasing)
            && (kind == Touch || b.tool != RubberTool ==>
                  r.shapes == b.shapes || (|r.shapes| == |b.shapes| + 1 && r.shapes[..|b.shapes|] == b.shapes && r.shapes[|b.shapes|].id == newId))
            && (kind != Touch && b.tool == LabelTool ==> (r.shapes == b.shapes <==> answer.None? || answer.value == ""))
            && r.dragId == b.dragId
  {
    var r := Down(b, kind, p, answer, newId);
    if kind != Touch && b.tool != RubberTool && r.shapes != b.shapes {
      assert r.shapes[..|b.shapes|] == b.shapes;
    }
  }

  /**
   * While a stroke is being drawn, a move appends the pointer to that stroke
   * and to nothing else: every other shape is untouched.
   */
  lemma {:induction false} StrokeMoveAppendsOne(b: Board, kind: PointerType, p: Point)
    requires kind != Touch && !(b.isErasing && b.tool == RubberTool) && Held(b.drawingId)
    ensures var r := Move(b, kind, p);
            && |r.shapes| == |b.shapes| && Ids(r.shapes) == Ids(b.shapes)
            && forall i :: 0 <= i < |b.shapes| ==>
                 if b.shapes[i].id == b.drawingId.value && b.shapes[i].Pencil? then r.shapes[i] == b.shapes[i].(points := b.shapes[i].points + [p])
                 else if b.shapes[i].id == b.drawingId.value && (b.shapes[i].Rect? || b.shapes[i].Ellipse?) && b.startPoint.Some?
                 then r.shapes[i] == Normalised(b.shapes[i], b.startPoint.value, p)
                 else r.shapes[i] == b.shapes[i]
  {
    var d := DrawAll(b.shapes, b.drawingId.value, b.startPoint, p);
    assert forall i :: 0 <= i < |b.shapes| && b.shapes[i].Pencil? ==> d[i] == b.shapes[i];
  }

  /** Dragging moves a grabbed shape by the pointer's displacement since the grab. */
  lemma {:induction false} GrabThenDrag(b: Board, kind: PointerType, p: Point, q: Point)
    requires kind != Touch && b.tool != RubberTool && !Held(b.drawingId)
    requires TopTouched(b.shapes, p).Some? && b.shapes[TopTouched(b.shapes, p).value].id != ""
    ensures var k := TopTouched(b.shapes, p).value;
            var s := b.shapes[k];
            var r := Move(Grabbed(b, p), kind, q);
            && r.shapes[k] == (if s.IsPositioned() then s.(x := s.x + (q.x - p.x), y := s.y + (q.y - p.y)) else s)
            && forall i :: 0 <= i < |b.shapes| && b.shapes[i].id != s.id ==> r.shapes[i] == b.shapes[i]
  {
    var k := TopTouched(b.shapes, p).value;
    var s := b.shapes[k];
    var g := Grabbed(b, p);
    assert g.dragId == Some(s.id) && g.dragOffset == GrabOffset(s, p);
    var r := Move(g, kind, q);
    assert r.shapes == DragAll(b.shapes, s.id, GrabOffset(s, p), q);
  }

  /** The gesture refs are all clear after pointer-up, and the shapes are kept. */
  lemma UpSpec(b: Board)
    ensures var r := Up(b);
            && r.drawingId.None? && r.startPoint.None? && !r.isErasing && r.dragId.None?
            && r.shapes == b.shapes && r.tool == b.tool && r.selectedId == b.selectedId
            && Up(r) == r
  {
  }

  /**
   * Since no tool reaches the select branch, no handler ever sets `dragId`:
   * a board that starts without one never drags.
   */
  lemma NeverDrags(b: Board, kind: PointerType, p: Point, answer: Option<string>, newId: Id, src: string)
    requires b.dragId.None?
    ensures Down(b, kind, p, answer, newId).dragId.None? && Move(b, kind, p).dragId.None?
    ensures Up(b).dragId.None? && Cleared(b).dragId.None? && Picked(b, src, newId).dragId.None?
    ensures !Held(b.drawingId) && !(b.isErasing && b.tool == RubberTool) ==> Move(b, kind, p) == b
  {
  }

  /** A tap with the pencil leaves a one-point stroke that neither the eraser nor selection can hit. */
  lemma {:induction false} PenTapUnhittable(b: Board, kind: PointerType, p: Point, q: Point, newId: Id, radius: real)
    requires kind != Touch && b.tool == PenTool && radius >= 0.0
    ensures var r := Up(Down(b, kind, p, None, newId));
            && r.shapes == b.shapes + [Pencil(newId, b.color, [p], StrokeSize)]
            && !Touched(r.shapes[|r.shapes| - 1], q, radius)
  {
    StillStrokeNeverTouched([p], q, radius);
  }

  /** The board object: the handlers update its fields in place. */
  class SandboxBoard {
    var tool: SandboxTool
    var color: string
    var shapes: seq<Shape>
    var selectedId: Option<Id>
    var drawingId: Option<Id>
    var startPoint: Option<Point>
    var dragId: Option<Id>
    var dragOffset: Point
    var isErasing: bool

    function State(): Board
      reads this
    {
      Board(tool, color, shapes, selectedId, drawingId, startPoint, dragId, dragOffset, isErasing)
    }

    constructor()
      ensures State() == Fresh()
    {
      tool := PenTool;
      color := DefaultColor;
      shapes := [];
      selectedId := None;
      drawingId := None;
      startPoint := None;
      dragId := None;
      dragOffset := Point(0.0, 0.0);
      isErasing := false;
    }

    /** A toolbar button. */
    method ChooseTool(t: SandboxTool)
      modifies this`tool
      ensures State() == old(State()).(tool := t)
    {
      tool := t;
    }

    /** The colour input. */
    method ChooseColor(c: string)
      modifies this`color
      ensures State() == old(State()).(color := c)
    {
      color := c;
    }

    method PointerDown(kind: PointerType, p: Point, answer: Option<string>, newId: Id)
      modifies this
      ensures State() == Down(old(State()), kind, p, answer, newId)
    {
      if kind == Touch {
        return;
      }
      match tool
      case PenTool =>
        drawingId := Some(newId);
        shapes := shapes + [Pencil(newId, color, [p], StrokeSize)];
        selectedId := Some(newId);
      case BoxTool =>
        drawingId := Some(newId);
        startPoint := Some(p);
        shapes := shapes + [Rect(newId, color, p.x, p.y, 0.0, 0.0)];
        selectedId := Some(newId);
      case OvalTool =>
        drawingId := Some(newId);
        startPoint := Some(p);
        shapes := shapes + [Ellipse(newId, color, p.x, p.y, 0.0, 0.0)];
        selectedId := Some(newId);
      case LabelTool =>
        if answer.None? || answer.value == "" {
          return;
        }
        shapes := shapes + [Text(newId, color, p.x, p.y, answer.value, LabelSize)];
        selectedId := Some(newId);
      case PictureTool =>
      case RubberTool =>
        isErasing := true;
        shapes := Rubbed(shapes, p);
    }

    method PointerMove(kind: PointerType, p: Point)
      modifies this`shapes
      ensures State() == Move(old(State()), kind, p)
    {
      if kind == Touch {
        return;
      }
      if isErasing && tool == RubberTool {
        shapes := Rubbed(shapes, p);
        return;
      }
      if Held(drawingId) {
        shapes := Drawn(shapes, drawingId.value, startPoint, p);
      } else if Held(dragId) && tool != RubberTool {
        shapes := DragAll(shapes, dragId.value, dragOffset, p);
      }
    }

    method PointerUp()
      modifies this`drawingId, this`startPoint, this`isErasing, this`dragId
      ensures State() == Up(old(State()))
    {
      drawingId := None;
      startPoint := None;
      isErasing := false;
      dragId := None;
    }

    method Clear()
      modifies this`shapes
      ensures State() == Cleared(old(State()))
    {
      shapes := [];
    }

    method PickImage(src: string, newId: Id)
      modifies this`shapes, this`tool
      ensures State() == Picked(old(State()), src, newId)
    {
      shapes := shapes + [Image(newId, DefaultColor, PictureX, PictureY, PictureW, PictureH, src)];
      tool := PenTool;
    }
  }
}
