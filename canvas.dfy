/**
 * The state of the board editor of `app/components/StudioCanvas.tsx` as one
 * value, with the effects its handlers share (commit, history snapshot,
 * buffer flush, page load) and what they keep. The class `Studio.StudioCanvas`
 * holds the same fields and is specified through these functions.
 */
module Canvas {
  import opened Wrappers
  import opened Geometry
  import opened Numbers
  import opened Shapes
  import opened Comments
  import Strings
  import History
  import opened Gestures

  /** Number of pages of a board. */
  const TotalPages: nat := 150
  /** Width and height of the drawing surface (`canvasW`, `canvasH`). */
  const CanvasSize: real := 3000.0
  /** Attributes of new pencil strokes and text shapes. */
  const StrokeWidth: real := 2.0
  const TextSize: real := 16.0
  /** `hitTest` radius for selecting and for erasing. */
  const SelectRadius: real := 6.0
  const EraserRadius: real := 10.0

  datatype Tool = Select | PencilTool | RectTool | EllipseTool | TextTool | Eraser | ImageTool | CommentTool | Plumb

  datatype PointerType = Mouse | Pen | Touch

  /** What the canvas reads from a successful `GET /api/projects/state`; absent fields are `None`. */
  datatype PageResponse = PageResponse(version: Option<int>, shapes: Option<seq<Shape>>)

  /** The body of the `POST /api/projects/state` that `save` sends. */
  datatype SaveRequest = SaveRequest(shapes: seq<Shape>, baseVersion: int, page: real)

  /** JavaScript truthiness of an optional string: present and non-empty. */
  predicate Held(o: Option<string>) {
    o.Some? && o.value != ""
  }

  /** `getRelative`: a pointer position clamped to the drawing surface. */
  function Relative(raw: Point): (p: Point)
    ensures 0.0 <= p.x <= CanvasSize && 0.0 <= p.y <= CanvasSize
    ensures 0.0 <= raw.x <= CanvasSize && 0.0 <= raw.y <= CanvasSize ==> p == raw
  {
    Point(Clamp(raw.x, 0.0, CanvasSize), Clamp(raw.y, 0.0, CanvasSize))
  }

  /** `getRelativeFromClient` applied to every coalesced sample. */
  function Relatives(raw: seq<Point>): (r: seq<Point>)
    ensures |r| == |raw| && forall i :: 0 <= i < |raw| ==> r[i] == Relative(raw[i])
  {
    seq(|raw|, i requires 0 <= i < |raw| => Relative(raw[i]))
  }

  /**
   * The page restored from the stored `project_page_v1_<projectId>` value:
   * `Number(raw) || 0` clamped to [0, 149]; `None` stands for storage that
   * throws, which also gives 0.
   */
  function RestoredPage(stored: Option<JsNumber>): (r: real)
    ensures 0.0 <= r <= (TotalPages - 1) as real
    ensures stored.None? || stored == Some(NaN) ==> r == 0.0
    ensures stored.Some? && stored.value.Finite? && 0.0 <= stored.value.value <= (TotalPages - 1) as real ==> r == stored.value.value
  {
    match stored
    case None => 0.0
    case Some(n) => ClampJs(OrZero(n), 0.0, (TotalPages - 1) as real)
  }

  /** Every field of the editor: React state, refs, and the pending debounced save. */
  datatype CanvasState = CanvasState(
    tool: Tool,
    color: string,
    commentMode: bool,
    shapes: seq<Shape>,
    version: int,
    past: seq<seq<Shape>>,
    future: seq<seq<Shape>>,
    page: real,
    selectedId: Option<Id>,
    comments: seq<CommentDoc>,
    activePinId: Option<string>,
    dragId: Option<Id>,
    dragOffset: Point,
    drawingId: Option<Id>,
    startPoint: Option<Point>,
    isErasing: bool,
    isInteracting: bool,
    resizing: Option<ResizeInfo>,
    rafPending: bool,
    buffered: seq<Point>,
    lastAdded: Option<Point>,
    pendingSave: Option<SaveRequest>)
  {
    /** The shape list with its undo and redo stacks. */
    function Board(): History.Timeline {
      History.Timeline(shapes, past, future)
    }

    /** The guard of the poll: a gesture is in progress. */
    predicate Interacting() {
      isInteracting || Held(drawingId) || resizing.Some? || isErasing || Held(dragId)
    }

    /** What every handler keeps: the history bound and a page in range. */
    ghost predicate Valid() {
      History.Bounded(Board()) && 0.0 <= page <= (TotalPages - 1) as real
    }
  }

  /** The state of a freshly mounted editor (pencil tool, white ink, page 0). */
  function Initial(): (s: CanvasState)
    ensures s.Valid() && !s.Interacting()
  {
    CanvasState(PencilTool, "#ffffff", false, [], 0, [], [], 0.0, None, [], None,
                None, Point(0.0, 0.0), None, None, false, false, None, false, [], None, None)
  }

  /**
   * `commit(producer)` with `next == producer(prev)`: a history snapshot, the
   * new list, and a debounced save of it against the current version and page.
   */
  function Committed(s: CanvasState, next: seq<Shape>): (r: CanvasState)
    ensures s.Valid() ==> r.Valid()
    ensures r.Board() == History.Commit(s.Board(), next)
  {
    var t := History.Commit(s.Board(), next);
    s.(shapes := t.shapes, past := t.past, future := t.future,
       pendingSave := Some(SaveRequest(next, s.version, s.page)))
  }

  /** The snapshot a drag or a resize takes at its start (`setPast`, `setFuture([])`). */
  function Recorded(s: CanvasState): (r: CanvasState)
    ensures s.Valid() ==> r.Valid()
    ensures r.Board() == History.Record(s.Board())
  {
    var t := History.Record(s.Board());
    s.(past := t.past, future := t.future)
  }

  /** `undo()`: a save of the restored list is scheduled only when something was undone. */
  function Undone(s: CanvasState): (r: CanvasState)
    ensures s.Valid() ==> r.Valid()
    ensures r.Board() == History.Undo(s.Board())
  {
    var t := History.Undo(s.Board());
    s.(shapes := t.shapes, past := t.past, future := t.future,
       pendingSave := if s.past == [] then s.pendingSave else Some(SaveRequest(t.shapes, s.version, s.page)))
  }

  /** `redo()`, the mirror of `undo()`. */
  function Redone(s: CanvasState): (r: CanvasState)
    ensures s.Valid() ==> r.Valid()
    ensures r.Board() == History.Redo(s.Board())
  {
    var t := History.Redo(s.Board());
    s.(shapes := t.shapes, past := t.past, future := t.future,
       pendingSave := if s.future == [] then s.pendingSave else Some(SaveRequest(t.shapes, s.version, s.page)))
  }

  /**
   * `flushBufferedPoints()`: when a stroke is active and the buffer holds
   * points, they move to that stroke and the last accepted point is forgotten.
   */
  function Flushed(s: CanvasState): (r: CanvasState)
    ensures s.Valid() ==> r.Valid()
  {
    if !Held(s.drawingId) || s.buffered == [] then s
    else s.(shapes := WithPoints(s.shapes, s.drawingId.value, s.buffered), buffered := [], lastAdded := None)
  }

  /**
   * The `requestAnimationFrame` callback: when a frame was requested, the
   * buffer is flushed and the request cleared; otherwise nothing happens.
   */
  function Framed(s: CanvasState): (r: CanvasState)
    ensures s.Valid() ==> r.Valid()
    ensures !r.rafPending && r.past == s.past && r.future == s.future
  {
    if s.rafPending then Flushed(s).(rafPending := false) else s
  }

  /**
   * A requested frame during a stroke moves the whole buffer, possibly
   * empty, onto the stroke; the last accepted point is forgotten only when
   * something was moved.
   */
  lemma {:induction false} FramedSpec(s: CanvasState)
    requires Held(s.drawingId) && s.rafPending
    ensures Framed(s) == s.(shapes := WithPoints(s.shapes, s.drawingId.value, s.buffered), buffered := [],
                            lastAdded := if s.buffered == [] then s.lastAdded else None, rafPending := false)
  {
    WithPointsTwice(s.shapes, s.drawingId.value, [], []);
  }

  /** `loadPageState`: a failed request changes nothing; otherwise the page's list replaces the board. */
  function Loaded(s: CanvasState, resp: Option<PageResponse>): (r: CanvasState)
    ensures s.Valid() ==> r.Valid()
  {
    match resp
    case None => s
    case Some(r) => s.(shapes := r.shapes.GetOr([]), version := r.version.GetOr(0), selectedId := None, past := [], future := [])
  }

  /** The version after a save's reply: a successful reply carries the stored version. */
  function Acknowledged(s: CanvasState, reply: Option<int>): (r: CanvasState)
    ensures s.Valid() ==> r.Valid()
  {
    match reply
    case None => s
    case Some(v) => s.(version := v)
  }

  /**
   * The save `gotoPage` sends, as written: `save(shapes, version)` reads the
   * list of the handler's closure, from before the flush it has just asked
   * for, so the buffered points are not in it.
   */
  function SwitchSaveAsWritten(s: CanvasState): SaveRequest {
    SaveRequest(s.shapes, s.version, s.page)
  }

  /** The save a page switch is meant to send: the current page with the buffer flushed onto its stroke. */
  function SwitchSave(s: CanvasState): SaveRequest {
    SaveRequest(Flushed(s).shapes, s.version, s.page)
  }

  /** The editor after a page switch to `target`: flushed, the save's reply installed, the target loaded. */
  function Switched(s: CanvasState, target: real, saveReply: Option<int>, loaded: Option<PageResponse>): (r: CanvasState)
    ensures s.Valid() && 0.0 <= target <= (TotalPages - 1) as real ==> r.Valid()
  {
    Loaded(Acknowledged(Flushed(s), saveReply).(page := target), loaded)
  }

  /**
   * Undo then redo gives back the exact list and both stacks; the only
   * trace left is the scheduled save, which now carries that same list.
   */
  lemma {:induction false} UndoRedoRoundTrip(s: CanvasState)
    requires s.past != []
    ensures Redone(Undone(s)) == s.(pendingSave := Some(SaveRequest(s.shapes, s.version, s.page)))
  {
    History.UndoThenRedo(s.Board());
  }

  /** Undo on an empty stack and redo on an empty stack change nothing at all. */
  lemma NothingToUndo(s: CanvasState)
    ensures s.past == [] ==> Undone(s) == s
    ensures s.future == [] ==> Redone(s) == s
  {
  }

  /**
   * The flush moves the buffered points, in capture order, onto the active
   * pencil stroke and nowhere else, and leaves the buffer empty; it changes
   * nothing when no stroke is active or the buffer is empty; a second flush
   * changes nothing.
   */
  lemma FlushSpec(s: CanvasState)
    ensures Flushed(s) == s.(shapes := Flushed(s).shapes, buffered := Flushed(s).buffered, lastAdded := Flushed(s).lastAdded)
    ensures !Held(s.drawingId) || s.buffered == [] ==> Flushed(s) == s
    ensures Held(s.drawingId) ==> Flushed(s).buffered == []
    ensures Held(s.drawingId) && s.buffered != [] ==>
              && Flushed(s).lastAdded == None
              && Ids(Flushed(s).shapes) == Ids(s.shapes)
              && (forall i :: 0 <= i < |s.shapes| && s.shapes[i].Pencil? && s.shapes[i].id == s.drawingId.value ==>
                    Flushed(s).shapes[i].points == s.shapes[i].points + s.buffered)
              && (forall i :: 0 <= i < |s.shapes| && !(s.shapes[i].Pencil? && s.shapes[i].id == s.drawingId.value) ==>
                    Flushed(s).shapes[i] == s.shapes[i])
    ensures Flushed(Flushed(s)) == Flushed(s)
  {
  }

  /**
   * A page load replaces the list and the version (missing data gives an
   * empty list and version 0) and clears the selection and both stacks.
   */
  lemma LoadSpec(s: CanvasState, r: PageResponse)
    ensures Loaded(s, Some(r)).shapes == (if r.shapes.Some? then r.shapes.value else [])
    ensures Loaded(s, Some(r)).version == (if r.version.Some? then r.version.value else 0)
    ensures Loaded(s, Some(r)).past == [] && Loaded(s, Some(r)).future == [] && Loaded(s, Some(r)).selectedId == None
    ensures Loaded(s, Some(r)).(shapes := s.shapes, version := s.version, past := s.past, future := s.future, selectedId := s.selectedId) == s
    ensures Loaded(s, None) == s
  {
  }

  /**
   * The gates at the top of `onPointerDown` and `onPointerMove`: plumb mode
   * takes no input, touch is left to native scrolling, and the pencil draws
   * with a stylus only.
   */
  predicate Ignored(tool: Tool, kind: PointerType) {
    tool == Plumb || kind == Touch || (tool == PencilTool && kind != Pen)
  }

  /** Some pencil stroke in the list carries the id. */
  predicate HasPencil(shapes: seq<Shape>, id: Id) {
    exists i | 0 <= i < |shapes| :: shapes[i].Pencil? && shapes[i].id == id
  }

  /** `onPointerUp` outside comment mode. */
  function Released(s: CanvasState): CanvasState {
    DragEnded(StrokeEnded(s.(isErasing := false, resizing := None))).(isInteracting := false)
  }

  /**
   * The stroke part of `onPointerUp`: the buffer is flushed, drawing stops,
   * the finished shape stays selected and the list is saved.
   */
  function StrokeEnded(s: CanvasState): CanvasState {
    if Held(s.drawingId) then
      var f := Flushed(s);
      f.(drawingId := None, startPoint := None, selectedId := s.drawingId,
         pendingSave := Some(SaveRequest(f.shapes, f.version, f.page)))
    else s
  }

  /** The drag part of `onPointerUp`: the dragged id is forgotten and the list is saved. */
  function DragEnded(s: CanvasState): CanvasState {
    if Held(s.dragId) then s.(dragId := None, pendingSave := Some(SaveRequest(s.shapes, s.version, s.page)))
    else s
  }

  /**
   * Pointer-up ends every gesture and leaves history alone. A finished
   * stroke gets its buffered points, stays selected and is saved; a finished
   * drag is saved; with neither, only the gesture flags are reset.
   */
  lemma {:induction false} ReleaseSpec(s: CanvasState)
    ensures !Released(s).Interacting() && Released(s).resizing.None? && !Released(s).isErasing
    ensures Released(s).past == s.past && Released(s).future == s.future && Released(s).version == s.version
    ensures Held(s.drawingId) ==>
              && Released(s).shapes == Flushed(s).shapes
              && Released(s).buffered == []
              && Released(s).selectedId == s.drawingId
              && Released(s).drawingId.None? && Released(s).startPoint.None?
    ensures Held(s.drawingId) || Held(s.dragId) ==> Released(s).pendingSave == Some(SaveRequest(Released(s).shapes, s.version, s.page))
    ensures !Held(s.drawingId) && !Held(s.dragId) ==> Released(s) == s.(isErasing := false, resizing := None, isInteracting := false)
  {
    var s1 := s.(isErasing := false, resizing := None);
    var s2 := StrokeEnded(s1);
    StrokeEndedSpec(s1);
    assert Flushed(s1) == Flushed(s).(isErasing := false, resizing := None);
    assert s2.shapes == (if Held(s.drawingId) then Flushed(s).shapes else s.shapes);
  }

  /** The stroke part of pointer-up touches only the stroke fields and the pending save. */
  lemma StrokeEndedSpec(s: CanvasState)
    ensures var r := StrokeEnded(s);
            && r.past == s.past && r.future == s.future && r.version == s.version && r.page == s.page
            && r.dragId == s.dragId && r.isInteracting == s.isInteracting && r.resizing == s.resizing
            && r.isErasing == s.isErasing
            && (Held(s.drawingId) ==>
                  && r.shapes == Flushed(s).shapes && r.buffered == [] && r.selectedId == s.drawingId
                  && r.drawingId.None? && r.startPoint.None? && r.pendingSave == Some(SaveRequest(r.shapes, s.version, s.page)))
            && (!Held(s.drawingId) ==> r == s)
  {
  }

  /**
   * `onPointerCancel` as the source writes it: the gesture flags are reset
   * but the stroke buffer and the last accepted point are kept.
   */
  function CancelledAsWritten(s: CanvasState): CanvasState {
    s.(isErasing := false, resizing := None, drawingId := None, startPoint := None, dragId := None, isInteracting := false)
  }

  /** `onPointerCancel` as intended: the abandoned stroke's buffered samples are dropped as well. */
  function Cancelled(s: CanvasState): CanvasState {
    CancelledAsWritten(s).(buffered := [], lastAdded := None)
  }

  /**
   * Both forms of cancel end every gesture; only the intended one leaves no
   * samples behind, while the one as written keeps whatever the last frame
   * had not flushed yet.
   */
  lemma CancelSpec(s: CanvasState)
    ensures !Cancelled(s).Interacting() && !CancelledAsWritten(s).Interacting()
    ensures Cancelled(s).buffered == [] && Cancelled(s).lastAdded.None?
    ensures CancelledAsWritten(s).buffered == s.buffered
    ensures Cancelled(s).shapes == s.shapes && CancelledAsWritten(s).shapes == s.shapes
  {
  }

  /**
   * The comment-mode post of `onPointerDown`: sent only when the answer to
   * the prompt is not blank, with the untrimmed text and the pointer position.
   */
  function PinBody(projectId: string, answer: Option<string>, p: Point): (b: Option<CommentBody>)
    ensures b.Some? <==> answer.Some? && !Strings.IsBlank(answer.value)
    ensures b.Some? ==> b.value == CommentBody(Some(projectId), answer, None, Some(p.x), Some(p.y))
  {
    if answer.Some? && !Strings.IsBlank(answer.value) then
      Some(CommentBody(Some(projectId), answer, None, Some(p.x), Some(p.y)))
    else None
  }

  /** The reply form's post: the trimmed text, sent only when non-empty, to the open pin. */
  function ReplyBody(projectId: string, input: Option<string>, pin: Option<string>): (b: Option<CommentBody>)
    ensures b.Some? <==> input.Some? && !Strings.IsBlank(input.value)
    ensures b.Some? ==> b.value == CommentBody(Some(projectId), Some(Strings.Trim(input.value)), pin, None, None)
  {
    var text := Strings.Trim(if input.Some? then input.value else "");
    if text == "" then None else Some(CommentBody(Some(projectId), Some(text), pin, None, None))
  }

  /**
   * `onPointerDown` on the board at raw position `raw`: `answer` is what the
   * text prompt returned (`None` when cancelled) and `newId` the id `uid()`
   * would produce.
   */
  function Pressed(s: CanvasState, kind: PointerType, raw: Point, answer: Option<string>, newId: Id): CanvasState {
    if s.tool == Plumb then s
    else if kind == Touch then s.(isInteracting := false)
    else if Ignored(s.tool, kind) || s.commentMode then s
    else ToolPressed(s.(isInteracting := true), Relative(raw), answer, newId)
  }

  /** The tool-specific part of a press at `p`, after `isInteracting` has been set. */
  function ToolPressed(s: CanvasState, p: Point, answer: Option<string>, newId: Id): CanvasState {
    match s.tool
    case PencilTool => PencilPressed(s, p, newId)
    case RectTool => BoxPressed(s, p, newId, false)
    case EllipseTool => BoxPressed(s, p, newId, true)
    case ImageTool => s.(isInteracting := false)
    case TextTool =>
      if answer.Some? && answer.value != "" then TextPressed(s, p, answer.value, newId).(isInteracting := false)
      else s.(isInteracting := false)
    case Select => SelectPressed(s, p)
    case Eraser => Committed(s.(isErasing := true), Erased(s.shapes, p, EraserRadius))
    case CommentTool => s
    case Plumb => s
  }

  /** A pencil press: a one-point stroke is committed on top and selected, and drawing starts. */
  function PencilPressed(s: CanvasState, p: Point, id: Id): CanvasState {
    Committed(s.(drawingId := Some(id), lastAdded := Some(p)), s.shapes + [Pencil(id, s.color, [p], StrokeWidth)]).(selectedId := Some(id))
  }

  /** A rect or ellipse press: an empty box at the pointer is committed on top and selected. */
  function BoxPressed(s: CanvasState, p: Point, id: Id, ellipse: bool): CanvasState {
    var box := if ellipse then Ellipse(id, s.color, p.x, p.y, 0.0, 0.0) else Rect(id, s.color, p.x, p.y, 0.0, 0.0);
    Committed(s.(drawingId := Some(id), startPoint := Some(p)), s.shapes + [box]).(selectedId := Some(id))
  }

  /** A text press with a non-empty answer: the text is committed on top and selected. */
  function TextPressed(s: CanvasState, p: Point, text: string, id: Id): CanvasState {
    Committed(s, s.shapes + [Text(id, s.color, p.x, p.y, text, TextSize)]).(selectedId := Some(id))
  }

  /** The size of a picked picture. */
  const PictureWidth: real := 480.0
  const PictureHeight: real := 360.0

  /**
   * The `onload` of `onPickImage` with the file's data URL: the picture,
   * centred on the drawing surface, is committed on top and selected, and
   * the tool becomes select.
   */
  function ImagePicked(s: CanvasState, src: string, id: Id): CanvasState {
    var picture := Image(id, "#ffffff", (CanvasSize - PictureWidth) / 2.0, (CanvasSize - PictureHeight) / 2.0,
                         PictureWidth, PictureHeight, src);
    Committed(s, s.shapes + [picture]).(tool := Select, selectedId := Some(id))
  }

  /**
   * A picked picture lands on top at (1260, 1320), 480 by 360, in one undo
   * step, with the select tool on; a press at the centre of the surface
   * then grabs that picture.
   */
  lemma ImagePickedSpec(s: CanvasState, src: string, id: Id)
    ensures var r := ImagePicked(s, src, id);
            && r.shapes == s.shapes + [Image(id, "#ffffff", 1260.0, 1320.0, 480.0, 360.0, src)]
            && r.tool == Select && r.selectedId == Some(id)
            && r.past == History.Suffix(s.past + [s.shapes], History.Capacity) && r.future == []
            && Topmost(r.shapes, Point(1500.0, 1500.0), SelectRadius) == Some(|s.shapes|)
  {
  }

  /** A select press: the topmost shape under the pointer is selected and grabbed, else nothing is. */
  function SelectPressed(s: CanvasState, p: Point): CanvasState {
    match Topmost(s.shapes, p, SelectRadius)
    case Some(i) =>
      Recorded(s.(selectedId := Some(s.shapes[i].id), dragId := Some(s.shapes[i].id), dragOffset := GrabOffset(s.shapes[i], p)))
    case None => s.(selectedId := None, isInteracting := false)
  }

  /** The comment post of a press, sent only in comment mode (`answer` is then the comment prompt's). */
  function PressPost(s: CanvasState, projectId: string, kind: PointerType, raw: Point, answer: Option<string>): Option<CommentBody> {
    if Ignored(s.tool, kind) || !s.commentMode then None else PinBody(projectId, answer, Relative(raw))
  }

  /** `onPointerMove` at raw position `raw`, with the raw coalesced samples of the event. */
  function Moved(s: CanvasState, kind: PointerType, raw: Point, samples: seq<Point>): CanvasState {
    var p := Relative(raw);
    if Ignored(s.tool, kind) || s.commentMode then s
    else if s.isErasing && s.tool == Eraser then Committed(s, Erased(s.shapes, p, EraserRadius))
    else if s.resizing.Some? then s.(shapes := ResizeAll(s.shapes, s.resizing.value, p))
    else if Held(s.drawingId) then DrawMoved(s, p, samples)
    else if Held(s.dragId) && s.tool == Select then s.(shapes := DragAll(s.shapes, s.dragId.value, s.dragOffset, p))
    else s
  }

  /**
   * A move while drawing: a box being drawn spans the start point and the
   * pointer; for a stroke, the samples that pass the jitter filter are
   * buffered and a frame is requested, and the list itself does not change.
   */
  function DrawMoved(s: CanvasState, p: Point, samples: seq<Point>): CanvasState
    requires Held(s.drawingId)
  {
    var drawn := DrawAll(s.shapes, s.drawingId.value, s.startPoint, p);
    var kept := JitterFilter(s.lastAdded, Relatives(samples));
    if HasPencil(s.shapes, s.drawingId.value) then
      s.(shapes := drawn, buffered := s.buffered + kept.0, lastAdded := kept.1, rafPending := true)
    else s.(shapes := drawn)
  }

  /**
   * Presses that the board does not take: in plumb mode nothing changes, a
   * finger only clears the interaction flag, and a wrong pointer for the
   * pencil or any press in comment mode leaves the board alone. Comment
   * mode posts a pin, and nothing else does.
   */
  lemma PressIgnoredSpec(s: CanvasState, projectId: string, kind: PointerType, raw: Point, answer: Option<string>, newId: Id)
    ensures s.tool == Plumb ==> Pressed(s, kind, raw, answer, newId) == s
    ensures s.tool != Plumb && kind == Touch ==> Pressed(s, kind, raw, answer, newId) == s.(isInteracting := false)
    ensures kind != Touch && (Ignored(s.tool, kind) || s.commentMode) ==> Pressed(s, kind, raw, answer, newId) == s
    ensures PressPost(s, projectId, kind, raw, answer).Some? <==>
              !Ignored(s.tool, kind) && s.commentMode && answer.Some? && !Strings.IsBlank(answer.value)
  {
  }

  /**
   * A pen press with the pencil commits a one-point stroke at the pointer on
   * top of the list, selects it and starts drawing from that point; the
   * stroke buffer, the frame request and every other field are untouched.
   */
  lemma PenPressSpec(s: CanvasState, raw: Point, answer: Option<string>, id: Id)
    requires s.tool == PencilTool && !s.commentMode
    ensures var r := Pressed(s, Pen, raw, answer, id);
            && r.shapes == s.shapes + [Pencil(id, s.color, [Relative(raw)], StrokeWidth)]
            && r.past == History.Suffix(s.past + [s.shapes], History.Capacity) && r.future == []
            && r.drawingId == Some(id) && r.lastAdded == Some(Relative(raw)) && r.selectedId == Some(id)
            && r.pendingSave == Some(SaveRequest(r.shapes, s.version, s.page))
            && r == s.(shapes := r.shapes, past := r.past, future := r.future, drawingId := r.drawingId,
                       lastAdded := r.lastAdded, selectedId := r.selectedId, isInteracting := true,
                       pendingSave := r.pendingSave)
  {
  }

  /**
   * A press with the select tool takes a snapshot exactly when it lands on
   * a shape, which becomes both selected and dragged; the list itself does
   * not change.
   */
  lemma SelectPressSpec(s: CanvasState, kind: PointerType, raw: Point, answer: Option<string>, newId: Id)
    requires s.tool == Select && kind != Touch && !s.commentMode
    ensures var r := Pressed(s, kind, raw, answer, newId);
            && r.shapes == s.shapes
            && match Topmost(s.shapes, Relative(raw), SelectRadius)
               case Some(i) =>
                 && r.selectedId == Some(s.shapes[i].id) && r.dragId == Some(s.shapes[i].id)
                 && r.past == History.Suffix(s.past + [s.shapes], History.Capacity) && r.future == []
               case None => r == s.(selectedId := None, isInteracting := false)
  {
  }

  /**
   * A move during a pencil stroke never changes the list: the samples the
   * jitter filter keeps are buffered and a frame is requested, and nothing
   * else changes.
   */
  lemma StrokeMoveSpec(s: CanvasState, kind: PointerType, raw: Point, samples: seq<Point>)
    requires !Ignored(s.tool, kind) && !s.commentMode && !(s.isErasing && s.tool == Eraser) && s.resizing.None?
    requires Held(s.drawingId) && HasPencil(s.shapes, s.drawingId.value) && s.startPoint.None?
    ensures var kept := JitterFilter(s.lastAdded, Relatives(samples));
            Moved(s, kind, raw, samples) == s.(buffered := s.buffered + kept.0, lastAdded := kept.1, rafPending := true)
  {
  }

  /**
   * Moves never change history, and a move that is not part of an eraser
   * gesture never adds or removes a shape.
   */
  lemma MoveSpec(s: CanvasState, kind: PointerType, raw: Point, samples: seq<Point>)
    ensures !(s.isErasing && s.tool == Eraser && !Ignored(s.tool, kind) && !s.commentMode) ==>
              && Moved(s, kind, raw, samples).past == s.past && Moved(s, kind, raw, samples).future == s.future
              && Ids(Moved(s, kind, raw, samples).shapes) == Ids(s.shapes)
  {
  }
}
