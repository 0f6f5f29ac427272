/**
 * The board editor component of `app/components/StudioCanvas.tsx` as an
 * object: its React state and refs are fields, and each event handler,
 * timer callback and fetch continuation is a method. Each method states its
 * new state through `Canvas.CanvasState`. Network replies, prompt answers
 * and fresh ids come in as parameters; requests go out as results.
 */
module Studio {
  import opened Wrappers
  import opened Geometry
  import opened Numbers
  import opened Shapes
  import opened Comments
  import History
  import opened Merge
  import opened Gestures
  import opened Canvas

  /** What the canvas reads from a successful `GET /api/comments`. */
  datatype CommentsResponse = CommentsResponse(comments: Option<seq<CommentDoc>>)

  class StudioCanvas {
    const projectId: string
    var tool: Tool
    var color: string
    var commentMode: bool
    var shapes: seq<Shape>
    var version: int
    var past: seq<seq<Shape>>
    var future: seq<seq<Shape>>
    var page: real
    var selectedId: Option<Id>
    var comments: seq<CommentDoc>
    var activePinId: Option<string>
    var dragId: Option<Id>
    var dragOffset: Point
    var drawingId: Option<Id>
    var startPoint: Option<Point>
    var isErasing: bool
    var isInteracting: bool
    var resizing: Option<ResizeInfo>
    var rafPending: bool
    var buffered: seq<Point>
    var lastAdded: Option<Point>
    /** The argument of the debounced save that is waiting for its 400 ms timer, if any. */
    var pendingSave: Option<SaveRequest>

    /** All fields as one value. */
    function State(): CanvasState
      reads this
    {
      CanvasState(tool, color, commentMode, shapes, version, past, future, page, selectedId, comments, activePinId,
                  dragId, dragOffset, drawingId, startPoint, isErasing, isInteracting, resizing,
                  rafPending, buffered, lastAdded, pendingSave)
    }

    ghost predicate Valid()
      reads this
    {
      State().Valid()
    }

    constructor(projectId: string)
      ensures this.projectId == projectId && State() == Initial() && Valid()
    {
      this.projectId := projectId;
      tool := PencilTool;
      color := "#ffffff";
      commentMode := false;
      shapes := [];
      version := 0;
      past := [];
      future := [];
      page := 0.0;
      selectedId := None;
      comments := [];
      activePinId := None;
      dragId := None;
      dragOffset := Point(0.0, 0.0);
      drawingId := None;
      startPoint := None;
      isErasing := false;
      isInteracting := false;
      resizing := None;
      rafPending := false;
      buffered := [];
      lastAdded := None;
      pendingSave := None;
    }

    /** The mount effect that restores the page from storage. */
    method RestorePage(stored: Option<JsNumber>)
      requires Valid()
      modifies this`page
      ensures State() == old(State()).(page := RestoredPage(stored))
      ensures Valid()
    {
      page := RestoredPage(stored);
    }

    // Single-purpose updates the handlers are composed of.

    method SetBoard(t: History.Timeline)
      modifies this`shapes, this`past, this`future
      ensures State() == old(State()).(shapes := t.shapes, past := t.past, future := t.future)
    {
      shapes := t.shapes;
      past := t.past;
      future := t.future;
    }

    method SetShapes(next: seq<Shape>)
      modifies this`shapes
      ensures State() == old(State()).(shapes := next)
    {
      shapes := next;
    }

    method SetPage(target: real)
      modifies this`page
      ensures State() == old(State()).(page := target)
    {
      page := target;
    }

    method SetSelected(id: Option<Id>)
      modifies this`selectedId
      ensures State() == old(State()).(selectedId := id)
    {
      selectedId := id;
    }

    method SetInteracting(b: bool)
      modifies this`isInteracting
      ensures State() == old(State()).(isInteracting := b)
    {
      isInteracting := b;
    }

    method SetErasing(b: bool)
      modifies this`isErasing
      ensures State() == old(State()).(isErasing := b)
    {
      isErasing := b;
    }

    method SetResizing(r: Option<ResizeInfo>)
      modifies this`resizing
      ensures State() == old(State()).(resizing := r)
    {
      resizing := r;
    }

    method SetDragId(id: Option<Id>)
      modifies this`dragId
      ensures State() == old(State()).(dragId := id)
    {
      dragId := id;
    }

    /** A new stroke or box: its id, and either the last accepted point (pencil) or the start corner (box). */
    method BeginDrawing(id: Id, p: Point, box: bool)
      modifies this`drawingId, this`startPoint, this`lastAdded
      ensures box ==> State() == old(State()).(drawingId := Some(id), startPoint := Some(p))
      ensures !box ==> State() == old(State()).(drawingId := Some(id), lastAdded := Some(p))
    {
      drawingId := Some(id);
      if box {
        startPoint := Some(p);
      } else {
        lastAdded := Some(p);
      }
    }

    method EndDrawing()
      modifies this`drawingId, this`startPoint
      ensures State() == old(State()).(drawingId := None, startPoint := None)
    {
      drawingId := None;
      startPoint := None;
    }

    /** Selecting the shape under the pointer and grabbing it. */
    method BeginDrag(f: Shape, p: Point)
      modifies this`selectedId, this`dragId, this`dragOffset
      ensures State() == old(State()).(selectedId := Some(f.id), dragId := Some(f.id), dragOffset := GrabOffset(f, p))
    {
      selectedId := Some(f.id);
      dragId := Some(f.id);
      dragOffset := GrabOffset(f, p);
    }

    method DropBuffer()
      modifies this`buffered, this`lastAdded
      ensures State() == old(State()).(buffered := [], lastAdded := None)
    {
      buffered := [];
      lastAdded := None;
    }

    /** `debouncedSave(next)`: a later call replaces an earlier one still waiting (trailing edge). */
    method ScheduleSave(next: seq<Shape>)
      modifies this`pendingSave
      ensures State() == old(State()).(pendingSave := Some(SaveRequest(next, version, page)))
    {
      pendingSave := Some(SaveRequest(next, version, page));
    }

    /** The debounce timer fires: the last scheduled save is sent. */
    method DebounceElapsed() returns (sent: Option<SaveRequest>)
      modifies this`pendingSave
      ensures sent == old(pendingSave)
      ensures State() == old(State()).(pendingSave := None)
    {
      sent := pendingSave;
      pendingSave := None;
    }

    /** The continuation of `save`: a successful reply installs the stored version. */
    method SaveAcknowledged(reply: Option<int>)
      requires Valid()
      modifies this`version
      ensures State() == Acknowledged(old(State()), reply)
      ensures Valid()
    {
      if reply.Some? {
        version := reply.value;
      }
    }

    /** `loadPageState` after its fetch; `None` is a failed or rejected request. */
    method LoadPageState(resp: Option<PageResponse>)
      requires Valid()
      modifies this`shapes, this`version, this`selectedId, this`past, this`future
      ensures State() == Loaded(old(State()), resp)
      ensures Valid()
    {
      if resp.None? {
        return;
      }
      SetBoard(History.Timeline(resp.value.shapes.GetOr([]), [], []));
      version := resp.value.version.GetOr(0);
      SetSelected(None);
    }

    /**
     * One tick of the 1.5 s poll, after its fetch. A newer remote version is
     * merged in (local entries win) unless a gesture is in progress, in which
     * case neither the list nor the version moves.
     */
    method Poll(resp: Option<PageResponse>)
      requires Valid()
      modifies this`shapes, this`version
      ensures resp.None? || resp.value.version.GetOr(0) <= old(version) ==> State() == old(State())
      ensures resp.Some? && resp.value.version.GetOr(0) > old(version) && old(State()).Interacting() ==> State() == old(State())
      ensures resp.Some? && resp.value.version.GetOr(0) > old(version) && !old(State()).Interacting() ==>
                State() == old(State()).(shapes := MergeShapes(old(shapes), resp.value.shapes.GetOr([])),
                                         version := resp.value.version.GetOr(0))
      ensures Valid()
    {
      if resp.None? {
        return;
      }
      var remoteVersion := resp.value.version.GetOr(0);
      if remoteVersion > version {
        if isInteracting || Held(drawingId) || resizing.Some? || isErasing || Held(dragId) {
          return;
        }
        shapes := MergeShapes(shapes, resp.value.shapes.GetOr([]));
        version := remoteVersion;
      }
    }

    /** The comment poll, after its fetch: a successful reply replaces the list. */
    method CommentsPolled(resp: Option<CommentsResponse>)
      modifies this`comments
      ensures resp.None? ==> State() == old(State())
      ensures resp.Some? ==> State() == old(State()).(comments := resp.value.comments.GetOr([]))
    {
      if resp.Some? {
        comments := resp.value.comments.GetOr([]);
      }
    }

    /** `commit(producer)`. */
    method Commit(producer: seq<Shape> -> seq<Shape>)
      modifies this`shapes, this`past, this`future, this`pendingSave
      ensures State() == Committed(old(State()), producer(old(shapes)))
    {
      var next := producer(shapes);
      SetBoard(History.Timeline(next, History.KeepRecent(past) + [shapes], []));
      ScheduleSave(next);
    }

    /** The history snapshot that starts a drag or a resize. */
    method Record()
      modifies this`past, this`future
      ensures State() == Recorded(old(State()))
    {
      past := History.KeepRecent(past) + [shapes];
      future := [];
    }

    method Undo()
      requires Valid()
      modifies this`shapes, this`past, this`future, this`pendingSave
      ensures State() == Undone(old(State()))
      ensures Valid()
    {
      if |past| == 0 {
        return;
      }
      var last := past[|past| - 1];
      ScheduleSave(last);
      SetBoard(History.Timeline(last, past[..|past| - 1], future + [shapes]));
    }

    method Redo()
      requires Valid()
      modifies this`shapes, this`past, this`future, this`pendingSave
      ensures State() == Redone(old(State()))
      ensures Valid()
    {
      if |future| == 0 {
        return;
      }
      var last := future[|future| - 1];
      ScheduleSave(last);
      SetBoard(History.Timeline(last, past + [shapes], future[..|future| - 1]));
    }

    /** `eraseAt(p)`: one commit that drops every shape within reach of the eraser. */
    method EraseAt(p: Point)
      modifies this`shapes, this`past, this`future, this`pendingSave
      ensures State() == Committed(old(State()), Erased(old(shapes), p, EraserRadius))
    {
      Commit((prev: seq<Shape>) => Erased(prev, p, EraserRadius));
    }

    /** `flushBufferedPoints()`. */
    method Flush()
      modifies this`shapes, this`buffered, this`lastAdded
      ensures State() == Flushed(old(State()))
    {
      if !Held(drawingId) || |buffered| == 0 {
        return;
      }
      var toAdd := buffered;
      DropBuffer();
      SetShapes(WithPoints(shapes, drawingId.value, toAdd));
    }

    /** `scheduleRAFAppend()`: at most one frame callback is pending. */
    method ScheduleFrame()
      modifies this`rafPending
      ensures State() == old(State()).(rafPending := true)
    {
      if rafPending {
        return;
      }
      rafPending := true;
    }

    /** The frame callback: flush, then allow the next frame to be requested. */
    method AnimationFrame()
      requires Valid()
      modifies this`shapes, this`buffered, this`lastAdded, this`rafPending
      ensures State() == Framed(old(State()))
      ensures Valid()
    {
      if !rafPending {
        return;
      }
      Flush();
      rafPending := false;
    }

    /**
     * The jitter loop over the coalesced samples of one move: a sample is
     * buffered when nothing was accepted yet or it lies more than 0.7 from
     * the last accepted point.
     */
    method BufferSamples(samples: seq<Point>)
      modifies this`buffered, this`lastAdded
      ensures var kept := JitterFilter(old(lastAdded), Relatives(samples));
              State() == old(State()).(buffered := old(buffered) + kept.0, lastAdded := kept.1)
    {
      ghost var all := Relatives(samples);
      var buf := buffered;
      var last := lastAdded;
      var i := 0;
      while i < |samples|
        invariant 0 <= i <= |samples|
        invariant buf == buffered + JitterFilter(lastAdded, all[..i]).0
        invariant last == JitterFilter(lastAdded, all[..i]).1
      {
        var pt := Relative(samples[i]);
        assert all[..i + 1][..i] == all[..i] && all[..i + 1][i] == pt;
        if Accepts(last, pt) {
          buf := buf + [pt];
          last := Some(pt);
        }
        i := i + 1;
      }
      assert all[..|samples|] == all;
      buffered := buf;
      lastAdded := last;
    }

    /**
     * `gotoPage(next)` as written, with the replies of its save and of the
     * page load as parameters: the save carries the list from before the
     * flush.
     */
    method GotoPageAsWritten(next: real, saveReply: Option<int>, loaded: Option<PageResponse>) returns (sent: Option<SaveRequest>)
      requires Valid()
      modifies this
      ensures var target := Clamp(next, 0.0, (TotalPages - 1) as real);
              && (target == old(page) ==> sent.None? && State() == old(State()))
              && (target != old(page) ==>
                    && sent == Some(SwitchSaveAsWritten(old(State())))
                    && State() == Switched(old(State()), target, saveReply, loaded))
      ensures Valid()
    {
      var target := Clamp(next, 0.0, (TotalPages - 1) as real);
      if target == page {
        return None;
      }
      var request := SaveRequest(shapes, version, page);
      Flush();
      sent := Some(request);
      SaveAcknowledged(saveReply);
      SetPage(target);
      LoadPageState(loaded);
    }

    /**
     * `gotoPage(next)` as its comment intends: the buffer is flushed first
     * and the save carries the flushed list, so no buffered point is lost
     * when the target page replaces the list.
     */
    method GotoPage(next: real, saveReply: Option<int>, loaded: Option<PageResponse>) returns (sent: Option<SaveRequest>)
      requires Valid()
      modifies this
      ensures var target := Clamp(next, 0.0, (TotalPages - 1) as real);
              && (target == old(page) ==> sent.None? && State() == old(State()))
              && (target != old(page) ==>
                    && sent == Some(SwitchSave(old(State())))
                    && State() == Switched(old(State()), target, saveReply, loaded))
      ensures Valid()
    {
      var target := Clamp(next, 0.0, (TotalPages - 1) as real);
      if target == page {
        return None;
      }
      ghost var before := State();
      Flush();
      FlushSpec(before);
      sent := Some(SaveRequest(shapes, version, page));
      SaveAcknowledged(saveReply);
      SetPage(target);
      LoadPageState(loaded);
    }

    /**
     * `onPointerDown` on the board at raw position `raw`. `answer` is what
     * the comment or text prompt returned (`None` when cancelled) and `newId`
     * is the id `uid()` would produce. A comment-mode press yields the body
     * of the comment post, if one is sent.
     */
    method PointerDown(kind: PointerType, raw: Point, answer: Option<string>, newId: Id) returns (post: Option<CommentBody>)
      requires Valid()
      modifies this
      ensures State() == Pressed(old(State()), kind, raw, answer, newId)
      ensures post == PressPost(old(State()), projectId, kind, raw, answer)
      ensures Valid()
    {
      post := None;
      if tool == Plumb {
        return;
      }
      if kind == Touch {
        SetInteracting(false);
        return;
      }
      if tool == PencilTool && kind != Pen {
        return;
      }
      var p := Relative(raw);
      if commentMode {
        post := PinBody(projectId, answer, p);
        return;
      }
      SetInteracting(true);
      PressTool(p, answer, newId);
    }

    /** The tool-specific part of `onPointerDown`, once the board has been engaged. */
    method PressTool(p: Point, answer: Option<string>, newId: Id)
      requires Valid()
      modifies this
      ensures State() == ToolPressed(old(State()), p, answer, newId)
      ensures Valid()
    {
      if tool == PencilTool || tool == RectTool || tool == EllipseTool {
        PressDrawingTool(p, newId);
      } else {
        PressOtherTool(p, answer, newId);
      }
    }

    /** A press with the pencil, rect or ellipse tool. */
    method PressDrawingTool(p: Point, newId: Id)
      requires Valid() && (tool == PencilTool || tool == RectTool || tool == EllipseTool)
      modifies this
      ensures State() == ToolPressed(old(State()), p, None, newId)
      ensures Valid()
    {
      match tool {
        case PencilTool => PressPencil(p, newId);
        case RectTool => PressBox(p, newId, false);
        case EllipseTool => PressBox(p, newId, true);
      }
    }

    /** A press with any other tool. */
    method PressOtherTool(p: Point, answer: Option<string>, newId: Id)
      requires Valid() && tool != PencilTool && tool != RectTool && tool != EllipseTool
      modifies this
      ensures State() == ToolPressed(old(State()), p, answer, newId)
      ensures Valid()
    {
      match tool {
        case ImageTool => SetInteracting(false);
        case TextTool => PressTextTool(p, answer, newId);
        case Select => PressSelect(p);
        case Eraser => PressEraser(p);
        case CommentTool =>
        case Plumb =>
      }
    }

    /** A press with the text tool: the prompt's answer, when non-empty, becomes a text shape. */
    method PressTextTool(p: Point, answer: Option<string>, newId: Id)
      requires Valid() && tool == TextTool
      modifies this
      ensures State() == ToolPressed(old(State()), p, answer, newId)
      ensures Valid()
    {
      if answer.Some? && answer.value != "" {
        PressText(p, answer.value, newId);
      }
      SetInteracting(false);
    }

    /** The pencil press: a one-point stroke is committed and selected. */
    method PressPencil(p: Point, id: Id)
      requires Valid()
      modifies this`drawingId, this`startPoint, this`lastAdded, this`shapes, this`past, this`future, this`pendingSave, this`selectedId
      ensures State() == PencilPressed(old(State()), p, id)
      ensures Valid()
    {
      var stroke := Pencil(id, color, [p], StrokeWidth);
      BeginDrawing(id, p, false);
      Commit((prev: seq<Shape>) => prev + [stroke]);
      SetSelected(Some(id));
    }

    /** The rect or ellipse press: an empty box at the pointer is committed and selected. */
    method PressBox(p: Point, id: Id, ellipse: bool)
      requires Valid()
      modifies this`drawingId, this`startPoint, this`lastAdded, this`shapes, this`past, this`future, this`pendingSave, this`selectedId
      ensures State() == BoxPressed(old(State()), p, id, ellipse)
      ensures Valid()
    {
      var box := if ellipse then Ellipse(id, color, p.x, p.y, 0.0, 0.0) else Rect(id, color, p.x, p.y, 0.0, 0.0);
      BeginDrawing(id, p, true);
      Commit((prev: seq<Shape>) => prev + [box]);
      SetSelected(Some(id));
    }

    /** The text press with a non-empty answer: the text shape is committed and selected. */
    method PressText(p: Point, text: string, id: Id)
      requires Valid()
      modifies this`shapes, this`past, this`future, this`pendingSave, this`selectedId
      ensures State() == TextPressed(old(State()), p, text, id)
      ensures Valid()
    {
      var note := Text(id, color, p.x, p.y, text, TextSize);
      Commit((prev: seq<Shape>) => prev + [note]);
      SetSelected(Some(id));
    }

    /** The `onload` of `onPickImage`; `src` is the file's data URL (`""` when it is not a string). */
    method PickImage(src: string, id: Id)
      requires Valid()
      modifies this`shapes, this`past, this`future, this`pendingSave, this`tool, this`selectedId
      ensures State() == ImagePicked(old(State()), src, id)
      ensures Valid()
    {
      var picture := Image(id, "#ffffff", (CanvasSize - PictureWidth) / 2.0, (CanvasSize - PictureHeight) / 2.0,
                           PictureWidth, PictureHeight, src);
      Commit((prev: seq<Shape>) => prev + [picture]);
      SetTool(Select);
      SetSelected(Some(id));
    }

    /** The colour input. */
    method SetColor(c: string)
      modifies this`color
      ensures State() == old(State()).(color := c)
    {
      color := c;
    }

    /** The select press: grab the topmost shape under the pointer, or clear the selection. */
    method PressSelect(p: Point)
      requires Valid()
      modifies this`selectedId, this`dragId, this`dragOffset, this`past, this`future, this`isInteracting
      ensures State() == SelectPressed(old(State()), p)
      ensures Valid()
    {
      var found := Topmost(shapes, p, SelectRadius);
      if found.Some? {
        BeginDrag(shapes[found.value], p);
        Record();
      } else {
        SetSelected(None);
        SetInteracting(false);
      }
    }

    /** The eraser press: erasing starts and the first touch is committed. */
    method PressEraser(p: Point)
      requires Valid()
      modifies this`isErasing, this`shapes, this`past, this`future, this`pendingSave
      ensures State() == Committed(old(State()).(isErasing := true), Erased(old(shapes), p, EraserRadius))
      ensures Valid()
    {
      SetErasing(true);
      EraseAt(p);
    }

    /**
     * The pointer-down of a resize handle, which the board shows only on the
     * selected rect, ellipse or image: a snapshot, then the resize starts
     * from the shape's current box.
     */
    method StartResize(i: nat, corner: Corner)
      requires Valid() && i < |shapes| && shapes[i].IsBox()
      modifies this
      ensures var f := old(shapes)[i];
              State() == Recorded(old(State())).(isInteracting := true,
                                                 resizing := Some(ResizeInfo(f.id, corner, Box(f.x, f.y, f.w, f.h))))
      ensures Valid()
    {
      var f := shapes[i];
      SetInteracting(true);
      SetResizing(Some(ResizeInfo(f.id, corner, Box(f.x, f.y, f.w, f.h))));
      Record();
    }

    /** `onPointerMove` at raw position `raw`, with the raw coalesced samples of the event. */
    method PointerMove(kind: PointerType, raw: Point, samples: seq<Point>)
      requires Valid()
      modifies this
      ensures State() == Moved(old(State()), kind, raw, samples)
      ensures Valid()
    {
      if tool == Plumb || kind == Touch || (tool == PencilTool && kind != Pen) {
        return;
      }
      var p := Relative(raw);
      if commentMode {
        return;
      }
      if isErasing && tool == Eraser {
        EraseAt(p);
        return;
      }
      if resizing.Some? {
        SetShapes(ResizeAll(shapes, resizing.value, p));
        return;
      }
      if Held(drawingId) {
        MoveDrawing(p, samples);
      } else if Held(dragId) && tool == Select {
        SetShapes(DragAll(shapes, dragId.value, dragOffset, p));
      }
    }

    /** The drawing branch of `onPointerMove`. */
    method MoveDrawing(p: Point, samples: seq<Point>)
      requires Held(drawingId)
      modifies this`shapes, this`buffered, this`lastAdded, this`rafPending
      ensures State() == DrawMoved(old(State()), p, samples)
    {
      var id := drawingId.value;
      if HasPencil(shapes, id) {
        BufferSamples(samples);
        ScheduleFrame();
      }
      SetShapes(DrawAll(shapes, id, startPoint, p));
    }

    /** `onPointerUp`. */
    method PointerUp()
      requires Valid()
      modifies this
      ensures old(commentMode) ==> State() == old(State())
      ensures !old(commentMode) ==> State() == Released(old(State()))
      ensures Valid()
    {
      if commentMode {
        return;
      }
      SetErasing(false);
      SetResizing(None);
      if Held(drawingId) {
        FinishStroke();
      }
      if Held(dragId) {
        FinishDrag();
      }
      SetInteracting(false);
    }

    /** The stroke part of `onPointerUp`: flush, forget the stroke, save, and keep it selected. */
    method FinishStroke()
      requires Held(drawingId)
      modifies this`shapes, this`buffered, this`lastAdded, this`drawingId, this`startPoint, this`pendingSave, this`selectedId
      ensures State() == StrokeEnded(old(State()))
    {
      var finished := drawingId;
      Flush();
      EndDrawing();
      ScheduleSave(shapes);
      SetSelected(finished);
    }

    /** The drag part of `onPointerUp`: forget the dragged id and save. */
    method FinishDrag()
      modifies this`dragId, this`pendingSave
      requires Held(dragId)
      ensures State() == DragEnded(old(State()))
    {
      SetDragId(None);
      ScheduleSave(shapes);
    }

    /** `onPointerCancel` as the source writes it. */
    method PointerCancelAsWritten()
      requires Valid()
      modifies this
      ensures State() == CancelledAsWritten(old(State()))
      ensures Valid()
    {
      SetErasing(false);
      SetResizing(None);
      EndDrawing();
      SetDragId(None);
      SetInteracting(false);
    }

    /** `onPointerCancel` as intended: the abandoned stroke's samples are dropped too. */
    method PointerCancel()
      requires Valid()
      modifies this
      ensures State() == Cancelled(old(State()))
      ensures Valid()
    {
      PointerCancelAsWritten();
      DropBuffer();
    }

    /** The continuation of the comment-mode post: the new pin opens when the reply names it. */
    method PinCreated(newId: Option<string>)
      modifies this`activePinId
      ensures Held(newId) ==> State() == old(State()).(activePinId := newId)
      ensures !Held(newId) ==> State() == old(State())
    {
      if Held(newId) {
        activePinId := newId;
      }
    }

    /** Clicking a pin opens its thread; the close button passes `None`. */
    method OpenThread(pin: Option<string>)
      modifies this`activePinId
      ensures State() == old(State()).(activePinId := pin)
    {
      activePinId := pin;
    }

    /** Submitting the reply form of the open thread; `input` is the form field. */
    method SubmitReply(input: Option<string>) returns (post: Option<CommentBody>)
      requires Held(activePinId)
      ensures post == ReplyBody(projectId, input, activePinId)
    {
      post := ReplyBody(projectId, input, activePinId);
    }

    /** A toolbar button. */
    method SetTool(t: Tool)
      modifies this`tool
      ensures State() == old(State()).(tool := t)
    {
      tool := t;
    }

    method ToggleCommentMode()
      modifies this`commentMode
      ensures State() == old(State()).(commentMode := !old(commentMode))
    {
      commentMode := !commentMode;
    }
  }
}
