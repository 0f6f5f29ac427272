# Collaborative design studio: a verified model of its board engine

This project models the core of a collaborative whiteboard written in
TypeScript (Next.js and React). The model is in Dafny and proves
properties of it.

- **Studio board engine.** The editor of `app/components/StudioCanvas.tsx`. It keeps the shape list of one page of a project, an undo and a redo stack of whole snapshots, and a buffer of freehand samples that an animation frame flushes onto the stroke being drawn. It also keeps the gesture refs of a pointer state machine (drawing, dragging, resizing, erasing). It polls the server for newer versions and merges them by shape id, and it switches between 150 pages.
- **State route.** `app/api/projects/state/route.ts` stores one document per page. A write gets a version above both the stored one and the one the writer claims. A read of page 0 falls back to the legacy single-page record.
- **Comments route.** `app/api/comments/route.ts` validates comment posts: root pins need coordinates, and replies have theirs removed.
- **Projects route.** `app/api/projects/route.ts` lists, creates, deletes and edits projects. Deleting and editing are for the owner only.
- **Dashboard.** `app/dashboard/page.tsx` turns its inputs into requests to the projects route and filters the listing by folder and tag.
- **Folder pager.** `app/components/FolderPager.tsx` keeps a folder of 150 pages of four text areas, with a page bar of numbers and ellipses.
- **Sandbox whiteboard.** `app/components/SandboxWhiteboard.tsx` is a simpler board with no point buffer, history or persistence.
- **Templates.** `lib/templates.ts` holds the starter shapes of the nine board templates.

## How the model is organised

**Entities that are values are datatypes.** Shapes, comments, store documents, request and reply bodies, and the editor's whole state (`Canvas.CanvasState`) are datatypes.

**Components whose fields change in place are classes.** Each method of such a class is proved against a function of the old state:

- The studio editor (`Studio.StudioCanvas`) is specified through the functions of `Canvas`.
- The other classes are the folder pager (`FolderPager.Pager`), the sandbox board (`Sandbox.SandboxBoard`) and the document store (`Store.Database`).

**Loops stay loops.** The source's loops are methods with loop invariants: the hit test's segment scan, the jitter filter, the page bar's pushes and its filter, the template lanes, and the membership deletes.

**Things outside the program become parameters.** These are network replies, prompt answers, fresh ids and stored values. Requests the client sends are results. Timers and animation frames are explicit methods, called when they fire.

## Model

| member | source | states |
|---|---|---|
| Geometry.Clamp | app/components/StudioCanvas.tsx:38-40 | the result is in [lo, hi]; a value already in range is kept; one below or above gives the nearer bound |
| Geometry.DistSq | app/components/StudioCanvas.tsx:617-624 | squared distances are never negative |
| Geometry.SegmentDistSq | app/components/StudioCanvas.tsx:617-624 | for a segment of non-zero length, the squared distance to the clamped projection is never negative; that it is the least distance is `Geometry.SegmentDistSqLeast` |
| Gestures.DistToSegmentSq | app/components/StudioCanvas.tsx:617-624 | a zero-length segment measures to its end point |
| Geometry.AlongDistSq | app/components/StudioCanvas.tsx:617-624 | the squared distance to the point at parameter `t` of the line through `a` and `b` is the quadratic `|p-a|² - 2t(p-a)·(b-a) + t²|b-a|²` |
| Geometry.ClampedVertexLeast | app/components/StudioCanvas.tsx:620-622 | on [0, 1] that quadratic, with a positive leading coefficient, is least at its vertex clamped to [0, 1], the `t` the source computes |
| Geometry.SegmentNoCloser | app/components/StudioCanvas.tsx:617-624 | no point of a segment of non-zero length is closer to `p` than the clamped projection |
| Geometry.SegmentDistSqLeast | app/components/StudioCanvas.tsx:617-624 | the value is the squared distance to the segment point at some parameter in [0, 1], and no point of the segment is closer |
| Gestures.DistToSegmentSqLeast | app/components/StudioCanvas.tsx:617-624 | `distToSegment` is attained at a point of the segment and is the least distance to it, for a segment of non-zero length and for one whose two ends coincide |
| Numbers.ClampJs | app/components/StudioCanvas.tsx:91 | `Math.max(lo, Math.min(n, hi))` on a JavaScript number is in range, keeps a finite in-range value, and sends the infinities to the bounds |
| Numbers.OrZero | app/components/StudioCanvas.tsx:91 | `n \|\| 0` is never NaN, and changes nothing except NaN |
| Collections.AppendNewSpec | app/components/StudioCanvas.tsx:126-131 | inserting into an insertion-ordered set keeps it duplicate-free, keeps the old entries as a prefix, and holds exactly the old and new elements |
| Collections.DedupeSpec | app/api/projects/route.ts:23 | `Array.from(new Set(xs))` holds every element of `xs` exactly once and is no longer than `xs` |
| Collections.DedupeLength | app/api/projects/route.ts:23 | de-duplication never lengthens a list |
| Collections.DedupeOfDistinct | app/api/projects/route.ts:23 | a duplicate-free list passes through `new Set` unchanged |
| Collections.FilterConcat | app/components/StudioCanvas.tsx:332 | `filter` distributes over concatenation, so the survivors keep their order |
| Collections.FilterMembers | app/dashboard/page.tsx:82-84 | `filter` keeps exactly the elements that pass |
| Strings.TrimStartAt | app/dashboard/page.tsx:69 | trimming the start drops a whitespace prefix, and the rest does not start with whitespace |
| Strings.TrimEndAt | app/dashboard/page.tsx:69 | trimming the end drops a whitespace suffix, and the rest does not end with whitespace |
| Strings.TrimAt | app/dashboard/page.tsx:69 | `trim()` gives a contiguous piece of the input with whitespace only outside it and at neither end of it |
| Strings.TrimIdempotent | app/dashboard/page.tsx:69 | trimming twice is trimming once, and blankness is kept |
| Strings.BlankIffAllSpace | app/dashboard/page.tsx:46 | `!s.trim()` holds exactly when every character is whitespace |
| Strings.Split | app/dashboard/page.tsx:69 | `split` on one character never returns an empty list |
| Strings.SplitJoin | app/dashboard/page.tsx:69 | joining the pieces of `split` gives the string back, and no piece holds the separator |
| Shapes.Ids | app/components/StudioCanvas.tsx:18-32 | the id list has one entry per shape, in order |
| Shapes.IdsPrefix | app/components/StudioCanvas.tsx:18-32 | the ids of a prefix are the prefix of the ids |
| Shapes.LastFound | app/components/StudioCanvas.tsx:126-131 | the last shape with an id exists exactly when the id occurs, and carries that id |
| Shapes.FirstFound | app/components/StudioCanvas.tsx:126-131 | the first shape with an id exists exactly when the id occurs, and carries that id |
| Merge.PutIds | app/components/StudioCanvas.tsx:127-129 | `map.set` keeps a present key in its slot and appends a new key |
| Merge.PutFirst | app/components/StudioCanvas.tsx:127-129 | after `map.set(s.id, s)` the entry for `s.id` is `s`, and every other entry is unchanged |
| Merge.PutAllIds | app/components/StudioCanvas.tsx:127-129 | filling the map adds the new ids after the old keys, in first-insertion order |
| Merge.PutAllFirst | app/components/StudioCanvas.tsx:127-129 | after filling, the entry for an id of the inserted list is that list's last shape with the id |
| Merge.MergeSpec | app/components/StudioCanvas.tsx:126-131 | the merge holds each id of local and remote exactly once. Remote ids come first in remote order, then local-only ids in local order. A local entry wins for a shared id, and a remote-only id keeps its remote entry |
| Merge.MergeKeepsLocal | app/components/StudioCanvas.tsx:129 | with distinct local ids, every local shape is in the merge unchanged |
| Merge.LastOfDistinct | app/components/StudioCanvas.tsx:129 | in a list of distinct ids, the last shape with an id is the only one |
| Merge.MergeExample | app/components/StudioCanvas.tsx:126-131 | local edited "a" and "c" merged with remote "a", "b" gives edited "a", "b", "c" |
| Merge.MergeShapes | app/components/StudioCanvas.tsx:126-131 | the merge by id of a polled list into the local one; `Merge.MergeSpec`, `Merge.MergeKeepsLocal` and `Merge.MergeExample` state its result |
| History.Record | app/components/StudioCanvas.tsx:447-448 | a snapshot keeps the list, empties the redo stack, and pushes the list onto the last 49 undo entries |
| History.Commit | app/components/StudioCanvas.tsx:245-253 | commit installs the new list, empties the redo stack, and pushes the old list onto the last 49 undo entries, so at most 50 are kept |
| History.Undo | app/components/StudioCanvas.tsx:255-266 | an empty undo stack changes nothing. Otherwise the last snapshot comes back, the undo stack loses exactly that entry, and the current list is pushed onto the redo stack |
| History.Redo | app/components/StudioCanvas.tsx:268-279 | the mirror of undo, pushing onto the undo stack without trimming |
| History.UndoThenRedo | app/components/StudioCanvas.tsx:255-279 | undo then redo restores the exact list and both stacks |
| History.RedoThenUndo | app/components/StudioCanvas.tsx:255-279 | redo then undo restores the exact list and both stacks |
| History.BoundKept | app/components/StudioCanvas.tsx:245-279 | commit, snapshot, undo and redo all keep the two stacks within 50 snapshots together, so the untrimmed redo push never grows the undo stack past 50 |
| History.CommitEvictsOldest | app/components/StudioCanvas.tsx:248 | a commit on a full undo stack drops exactly its oldest snapshot |
| History.KeepRecent | app/components/StudioCanvas.tsx:248 | `p.slice(-49)`; `History.BoundKept` and `History.CommitEvictsOldest` state the 50-snapshot bound it keeps |
| Gestures.ResizeBox | app/components/StudioCanvas.tsx:481-501 | on the corner being dragged, width and height are in [5, 20000] and a moved edge lies in [0, 20000]. The se corner keeps x and y, ne keeps x, sw keeps y, and the edges opposite the handle stay where they started |
| Gestures.Resized | app/components/StudioCanvas.tsx:478-503 | only a box shape with the resized id changes, and only its box |
| Gestures.ResizeAll | app/components/StudioCanvas.tsx:478-503 | the resize map keeps length and ids and resizes each shape on its own |
| Gestures.Normalised | app/components/StudioCanvas.tsx:531-535 | a box being drawn spans the start point and the pointer: x and y are the minima, x + w and y + h the maxima |
| Gestures.Dragged | app/components/StudioCanvas.tsx:539-545 | a dragged positioned shape keeps its grab offset to the pointer; a pencil stroke does not move |
| Gestures.StrokeHitSpec | app/components/StudioCanvas.tsx:606-613 | the recursive stroke test holds exactly when some segment between consecutive points is within the radius |
| Gestures.HitTestScan | app/components/StudioCanvas.tsx:593-615 | the indexed segment loop with early return answers exactly `hitTest`, and for a stroke exactly "some segment is within the radius" |
| Gestures.HitTest | app/components/StudioCanvas.tsx:593-615 | the hit test as a predicate; `Gestures.HitTestScan` proves the loop computes it, `Gestures.StrokeHitSpec` and `Gestures.SinglePointNeverHit` say what it means |
| Gestures.SinglePointNeverHit | app/components/StudioCanvas.tsx:608 | a stroke of at most one point has no segment and is never hit |
| Gestures.Topmost | app/components/StudioCanvas.tsx:434 | the reverse find returns a shape under the pointer with none above it, or none when no shape is hit |
| Gestures.ErasedSpec | app/components/StudioCanvas.tsx:331-333 | erasing keeps exactly the shapes not hit, in order, and distributes over concatenation |
| Gestures.Erased | app/components/StudioCanvas.tsx:331-333 | the eraser filter; `Gestures.ErasedSpec` states what survives |
| Gestures.JitterOne | app/components/StudioCanvas.tsx:518-526 | one sample is buffered exactly when there is no last point or it is more than 0.7 away, and then it becomes the last point |
| Gestures.JitterFilterSpec | app/components/StudioCanvas.tsx:516-527 | the buffered points come from the samples in order, each more than 0.7 from the point accepted before it. The last point afterwards is the newest kept sample, or the old one when none was kept. With no last point, the first sample is always kept. The exact index map is `Gestures.JitterFilterOrder` |
| Gestures.JitterDropsNearby | app/components/StudioCanvas.tsx:516-527 | samples all within 0.7 of the last point add nothing |
| Gestures.JitterFilterOrder | app/components/StudioCanvas.tsx:516-527 | the kept points are the samples at a strictly increasing list of indices, and index `j` is in it exactly when sample `j` is accepted against the last point held on reaching it: every accepted sample is kept, in order, and nothing else |
| Gestures.JitterFilter | app/components/StudioCanvas.tsx:516-527 | the filter as a function of the samples; its properties are `Gestures.JitterFilterSpec`, `Gestures.JitterFilterOrder` and `Gestures.JitterDropsNearby` |
| Gestures.WithPoints | app/components/StudioCanvas.tsx:340-343 | the flush map appends the points, in order, to the pencil strokes with the id, and leaves every other shape and the ids untouched |
| Gestures.WithPointsTwice | app/components/StudioCanvas.tsx:335-344 | two flushes in a row append both batches in order, as one flush would; an empty flush changes nothing |
| Gestures.DrawAll | app/components/StudioCanvas.tsx:507-537 | while drawing, only the rect or ellipse with the drawing id is normalised to start and pointer; nothing changes without a start point |
| Gestures.DragAll | app/components/StudioCanvas.tsx:538-546 | the drag map moves only the shapes with the dragged id |
| Gestures.GrabOffset | app/components/StudioCanvas.tsx:438-445 | the grab offset of a stroke is zero |
| Gestures.GrabThenDragInPlace | app/components/StudioCanvas.tsx:438-545 | dragging to the point where a shape was grabbed leaves it where it was |
| Comments.FindById | app/components/StudioCanvas.tsx:795 | `find` by id returns a comment with that id from the list, or nothing when no comment has it |
| Comments.PinsSpec | app/components/StudioCanvas.tsx:792 | pins are exactly the root comments with both coordinates |
| Comments.ActiveThreadSpec | app/components/StudioCanvas.tsx:793-798 | the open thread is empty with no pin open. With a pin open, it holds only that pin and its replies, with every reply, and the pin first when it exists |
| Canvas.Relative | app/components/StudioCanvas.tsx:311-319 | the pointer position is clamped to the 3000 by 3000 surface, and a position already on it is kept |
| Canvas.Relatives | app/components/StudioCanvas.tsx:514-517 | each coalesced sample is clamped, in order |
| Canvas.RestoredPage | app/components/StudioCanvas.tsx:88-96 | the restored page is in [0, 149], is 0 for failing storage or NaN, and keeps an in-range stored value |
| Canvas.Initial | app/components/StudioCanvas.tsx:67-123 | a fresh editor keeps the history bound and has no gesture in progress |
| Canvas.Committed | app/components/StudioCanvas.tsx:245-253 | commit keeps the invariant, and its board is `History.Commit` of the old board |
| Canvas.Recorded | app/components/StudioCanvas.tsx:447-448 | the drag and resize snapshot keeps the invariant, and its board is `History.Record` |
| Canvas.Undone | app/components/StudioCanvas.tsx:255-266 | undo keeps the invariant, and its board is `History.Undo` |
| Canvas.Redone | app/components/StudioCanvas.tsx:268-279 | redo keeps the invariant, and its board is `History.Redo` |
| Canvas.Flushed | app/components/StudioCanvas.tsx:335-344 | the flush keeps the invariant |
| Canvas.Framed | app/components/StudioCanvas.tsx:346-353 | the frame callback clears the frame request and leaves history alone |
| Canvas.FramedSpec | app/components/StudioCanvas.tsx:346-353 | a requested frame during a stroke moves the whole buffer onto the stroke. The last point is forgotten only when something moved |
| Canvas.Loaded | app/components/StudioCanvas.tsx:134-149 | a page load keeps the invariant |
| Canvas.Acknowledged | app/components/StudioCanvas.tsx:231-232 | installing the version of a save reply keeps the invariant |
| Canvas.Switched | app/components/StudioCanvas.tsx:281-290 | a page switch from a valid state to a page in [0, 149] ends in a valid state: it flushes, installs the save reply, sets the page and loads the target |
| Canvas.UndoRedoRoundTrip | app/components/StudioCanvas.tsx:255-279 | undo then redo gives back the editor exactly, except that the pending save now carries the same list |
| Canvas.NothingToUndo | app/components/StudioCanvas.tsx:257 | undo on an empty undo stack, or redo on an empty redo stack, changes nothing at all |
| Canvas.FlushSpec | app/components/StudioCanvas.tsx:335-344 | the flush changes only shapes, buffer and last point. It is a no-op with no stroke or an empty buffer, and otherwise appends the buffer in order to the drawing pencil only, empties the buffer and forgets the last point. A second flush changes nothing |
| Canvas.LoadSpec | app/components/StudioCanvas.tsx:134-149 | a load replaces list and version (missing data gives [] and 0) and clears selection and both stacks. A failed load changes nothing, and nothing else ever changes |
| Canvas.ImagePickedSpec | app/components/StudioCanvas.tsx:642-654 | a picked picture lands on top at (1260, 1320), 480 by 360, in one undo step, selected and with the select tool on, and a press at the surface centre grabs it |
| Canvas.ImagePicked | app/components/StudioCanvas.tsx:642-654 | adding a picked image; `Canvas.ImagePickedSpec` states the new state |
| Canvas.ReleaseSpec | app/components/StudioCanvas.tsx:549-582 | pointer-up ends every gesture and leaves history and version alone. A stroke gets its buffered points, stays selected and stops drawing. A stroke or drag schedules a save of the list. With neither, only the gesture flags reset |
| Canvas.StrokeEndedSpec | app/components/StudioCanvas.tsx:557-572 | the stroke part of pointer-up touches only the stroke fields, the selection and the pending save |
| Canvas.CancelSpec | app/components/StudioCanvas.tsx:584-591 | both forms of cancel end every gesture and keep the list. Only the corrected one empties the buffer, and the one as written keeps it |
| Canvas.Released | app/components/StudioCanvas.tsx:549-582 | pointer up; `Canvas.ReleaseSpec` and `Canvas.StrokeEndedSpec` state the new state |
| Canvas.Cancelled | app/components/StudioCanvas.tsx:584-591 | the corrected pointer cancel; `Canvas.CancelSpec` and `Sessions.CancelThenStroke` state what it drops |
| Canvas.CancelledAsWritten | app/components/StudioCanvas.tsx:584-591 | pointer cancel as the source writes it; `Sessions.CancelLeakAsWritten` shows the samples it leaves behind |
| Canvas.PinBody | app/components/StudioCanvas.tsx:375-389 | a comment-mode press posts exactly when the answer is not blank, with the untrimmed text and the pointer position |
| Canvas.ReplyBody | app/components/StudioCanvas.tsx:987-998 | the reply form posts exactly when the trimmed text is non-empty, with that text and the open pin as parent |
| Canvas.PressIgnoredSpec | app/components/StudioCanvas.tsx:355-391 | plumb mode ignores a press, and touch only clears the interaction flag. A non-pen pencil press, or any press in comment mode, leaves the board alone. A comment is posted exactly in comment mode with a non-blank answer |
| Canvas.PenPressSpec | app/components/StudioCanvas.tsx:395-401 | a pen press with the pencil commits a one-point stroke at the pointer on top, in one undo step. It selects the stroke, starts drawing from that point, schedules a save, and changes nothing else |
| Canvas.SelectPressSpec | app/components/StudioCanvas.tsx:432-452 | a select press on a shape selects and grabs the topmost one and takes a snapshot. A press on nothing only clears the selection and the interaction flag. The list never changes |
| Canvas.StrokeMoveSpec | app/components/StudioCanvas.tsx:507-530 | a move during a pencil stroke only buffers the samples the jitter filter keeps and requests a frame; the list does not change |
| Canvas.MoveSpec | app/components/StudioCanvas.tsx:459-547 | moves never change history, and outside an eraser gesture never add or remove a shape |
| Canvas.Pressed | app/components/StudioCanvas.tsx:355-457 | pointer down; `Canvas.PressIgnoredSpec`, `Canvas.PenPressSpec` and `Canvas.SelectPressSpec` state the new state |
| Canvas.ToolPressed | app/components/StudioCanvas.tsx:395-456 | the tool branch of pointer down; `Canvas.PenPressSpec` and `Canvas.SelectPressSpec` state the pen and select cases |
| Canvas.Moved | app/components/StudioCanvas.tsx:459-547 | pointer move; `Canvas.StrokeMoveSpec` and `Canvas.MoveSpec` state the new state |
| Studio.StudioCanvas.constructor | app/components/StudioCanvas.tsx:66-123 | the mounted editor is the initial state |
| Studio.StudioCanvas.SetBoard | app/components/StudioCanvas.tsx:69-73 | `setShapes`, `setPast`, `setFuture`: the shape list and both stacks become those of the timeline, and nothing else changes |
| Studio.StudioCanvas.SetShapes | app/components/StudioCanvas.tsx:69 | `setShapes`: only the shape list changes |
| Studio.StudioCanvas.SetPage | app/components/StudioCanvas.tsx:85 | `setPage`: only the page changes |
| Studio.StudioCanvas.SetSelected | app/components/StudioCanvas.tsx:115 | `setSelectedId`: only the selection changes |
| Studio.StudioCanvas.SetInteracting | app/components/StudioCanvas.tsx:103 | `isInteractingRef.current = b`: only that flag changes |
| Studio.StudioCanvas.SetErasing | app/components/StudioCanvas.tsx:102 | `isErasing.current = b`: only that flag changes |
| Studio.StudioCanvas.SetResizing | app/components/StudioCanvas.tsx:116-123 | `resizingRef.current = r`: only the resize gesture changes |
| Studio.StudioCanvas.SetDragId | app/components/StudioCanvas.tsx:98 | `setDragId`: only the dragged id changes |
| Studio.StudioCanvas.DropBuffer | app/components/StudioCanvas.tsx:107-108 | the buffered samples and the last accepted point are cleared, and nothing else changes |
| Studio.StudioCanvas.RestorePage | app/components/StudioCanvas.tsx:88-96 | only the page changes, to the restored page |
| Studio.StudioCanvas.BeginDrawing | app/components/StudioCanvas.tsx:398-414 | a stroke records its last point, a box its start corner, together with the drawing id |
| Studio.StudioCanvas.EndDrawing | app/components/StudioCanvas.tsx:560-562 | drawing id and start point are cleared |
| Studio.StudioCanvas.BeginDrag | app/components/StudioCanvas.tsx:436-445 | the shape becomes selected and dragged, with its grab offset |
| Studio.StudioCanvas.ScheduleSave | app/components/StudioCanvas.tsx:42-49 | the debounced save replaces any waiting one with this list, the current version and page |
| Studio.StudioCanvas.DebounceElapsed | app/components/StudioCanvas.tsx:240-242 | the timer sends the last scheduled save and clears it |
| Studio.StudioCanvas.SaveAcknowledged | app/components/StudioCanvas.tsx:231-232 | a successful reply installs the stored version |
| Studio.StudioCanvas.LoadPageState | app/components/StudioCanvas.tsx:134-149 | the new state is `Canvas.Loaded` of the old one |
| Studio.StudioCanvas.Poll | app/components/StudioCanvas.tsx:163-184 | a failed poll or one with a version no newer changes nothing, and so does a newer version during a gesture. Otherwise the list becomes the id-keyed merge with local entries winning, and the version becomes the remote one |
| Studio.StudioCanvas.CommentsPolled | app/components/StudioCanvas.tsx:187-204 | a successful comment poll replaces the list (missing gives []), and a failed one changes nothing |
| Studio.StudioCanvas.Commit | app/components/StudioCanvas.tsx:245-253 | the new state is `Canvas.Committed` with the producer's result |
| Studio.StudioCanvas.Record | app/components/StudioCanvas.tsx:447-448 | the new state is `Canvas.Recorded` |
| Studio.StudioCanvas.Undo | app/components/StudioCanvas.tsx:255-266 | the new state is `Canvas.Undone` |
| Studio.StudioCanvas.Redo | app/components/StudioCanvas.tsx:268-279 | the new state is `Canvas.Redone` |
| Studio.StudioCanvas.EraseAt | app/components/StudioCanvas.tsx:331-333 | one commit of the list with every shape within 10 of the point removed |
| Studio.StudioCanvas.Flush | app/components/StudioCanvas.tsx:335-344 | the new state is `Canvas.Flushed` |
| Studio.StudioCanvas.ScheduleFrame | app/components/StudioCanvas.tsx:346-353 | a frame is requested, and a pending request is kept |
| Studio.StudioCanvas.AnimationFrame | app/components/StudioCanvas.tsx:349-352 | the new state is `Canvas.Framed` |
| Studio.StudioCanvas.BufferSamples | app/components/StudioCanvas.tsx:516-527 | the loop appends to the buffer exactly what the jitter filter keeps of the clamped samples, and leaves the filter's last point; nothing else changes |
| Studio.StudioCanvas.GotoPage | app/components/StudioCanvas.tsx:281-290 | the target is clamped to [0, 149], and the same page changes nothing and sends nothing. Another page sends a save of the list with the buffered samples flushed onto the held stroke (`Canvas.SwitchSave`), with the current version and page, and ends in the state `Canvas.Switched`: flushed, acknowledged, on the target page, loaded |
| Studio.StudioCanvas.GotoPageAsWritten | app/components/StudioCanvas.tsx:281-290 | as the source writes it: the save carries the list as it stood before the flush (`Canvas.SwitchSaveAsWritten`); the end state is the same `Canvas.Switched` |
| Studio.StudioCanvas.PointerDown | app/components/StudioCanvas.tsx:355-457 | the new state is `Canvas.Pressed`, and the comment post is `Canvas.PressPost` |
| Studio.StudioCanvas.PressTool | app/components/StudioCanvas.tsx:395-456 | the new state is the tool-specific part of a press |
| Studio.StudioCanvas.PressDrawingTool | app/components/StudioCanvas.tsx:395-416 | a pencil, rect or ellipse press as `Canvas.ToolPressed` |
| Studio.StudioCanvas.PressOtherTool | app/components/StudioCanvas.tsx:417-456 | an image, text, select or eraser press as `Canvas.ToolPressed` |
| Studio.StudioCanvas.PressTextTool | app/components/StudioCanvas.tsx:423-431 | a text press as `Canvas.ToolPressed` |
| Studio.StudioCanvas.PressPencil | app/components/StudioCanvas.tsx:395-401 | the new state is `Canvas.PencilPressed` |
| Studio.StudioCanvas.PressBox | app/components/StudioCanvas.tsx:402-416 | the new state is `Canvas.BoxPressed` |
| Studio.StudioCanvas.PressText | app/components/StudioCanvas.tsx:425-430 | the new state is `Canvas.TextPressed` |
| Studio.StudioCanvas.PickImage | app/components/StudioCanvas.tsx:642-654 | the new state is `Canvas.ImagePicked` |
| Studio.StudioCanvas.SetColor | app/components/StudioCanvas.tsx:845 | only the colour changes |
| Studio.StudioCanvas.PressSelect | app/components/StudioCanvas.tsx:432-452 | the new state is `Canvas.SelectPressed` |
| Studio.StudioCanvas.PressEraser | app/components/StudioCanvas.tsx:453-456 | erasing starts and one commit removes what the first touch hits |
| Studio.StudioCanvas.StartResize | app/components/StudioCanvas.tsx:818-825 | a snapshot is taken, then the resize starts from the selected box's current box, and the interaction flag is set |
| Studio.StudioCanvas.PointerMove | app/components/StudioCanvas.tsx:459-547 | the new state is `Canvas.Moved` |
| Studio.StudioCanvas.MoveDrawing | app/components/StudioCanvas.tsx:507-537 | the new state is `Canvas.DrawMoved` |
| Studio.StudioCanvas.PointerUp | app/components/StudioCanvas.tsx:549-582 | comment mode changes nothing; otherwise the new state is `Canvas.Released` |
| Studio.StudioCanvas.FinishStroke | app/components/StudioCanvas.tsx:557-572 | the new state is `Canvas.StrokeEnded` |
| Studio.StudioCanvas.FinishDrag | app/components/StudioCanvas.tsx:573-580 | the new state is `Canvas.DragEnded` |
| Studio.StudioCanvas.PointerCancelAsWritten | app/components/StudioCanvas.tsx:584-591 | the new state is `Canvas.CancelledAsWritten` |
| Studio.StudioCanvas.PointerCancel | app/components/StudioCanvas.tsx:584-591 | the new state is `Canvas.Cancelled` |
| Studio.StudioCanvas.PinCreated | app/components/StudioCanvas.tsx:382-388 | the new pin opens when the reply names one, and otherwise nothing changes |
| Studio.StudioCanvas.OpenThread | app/components/StudioCanvas.tsx:958 | only the open pin changes |
| Studio.StudioCanvas.SubmitReply | app/components/StudioCanvas.tsx:987-998 | the post is `Canvas.ReplyBody` for the open pin |
| Studio.StudioCanvas.SetTool | app/components/StudioCanvas.tsx:629 | only the tool changes |
| Studio.StudioCanvas.ToggleCommentMode | app/components/StudioCanvas.tsx:881 | only comment mode changes, and it flips |
| Sessions.FlushedShapes | app/components/StudioCanvas.tsx:335-344 | during a stroke, the flushed list is the whole buffer appended to the stroke |
| Sessions.StrokeIsPencil | app/components/StudioCanvas.tsx:397 | a lone committed stroke is a pencil with its id |
| Sessions.OneStroke | app/components/StudioCanvas.tsx:340-343 | flushing onto a lone stroke appends to its points |
| Sessions.StrokedSpec | app/components/StudioCanvas.tsx:395-530 | after a pen press and a move on a fresh board, the stroke holds only the pressed point, and the kept samples wait in the buffer with a frame requested |
| Sessions.FirstBatchSpec | app/components/StudioCanvas.tsx:346-353 | after the frame, the stroke holds the pressed point and the first kept batch, and the buffer is empty |
| Sessions.StrokeAcrossFrame | app/components/StudioCanvas.tsx:335-582 | a stroke drawn across a frame and released holds the pressed point and both kept batches in order. Once a non-empty batch is flushed, the next batch is filtered with no last point |
| Sessions.OneSampleKept | app/components/StudioCanvas.tsx:523-526 | a sample more than 0.7 from the pressed point is buffered |
| Sessions.PenTap | app/components/StudioCanvas.tsx:395-572 | a pen tap appends a one-point stroke that also receives whatever the buffer held before the press |
| Sessions.TwoStrokes | app/components/StudioCanvas.tsx:340-343 | buffered points go to the stroke with the drawing id only |
| Sessions.CancelLeakAsWritten | app/components/StudioCanvas.tsx:584-591 | with cancel as written, a sample buffered for the cancelled stroke ends up in the next stroke |
| Sessions.CancelThenStroke | app/components/StudioCanvas.tsx:584-591 | with the corrected cancel, the next stroke holds only its own point |
| Sessions.SwitchLosesBufferAsWritten | app/components/StudioCanvas.tsx:285-287 | with a held stroke and samples still buffered, the save `gotoPage` sends holds the stroke without them, so it differs from the flushed list |
| Sessions.SwitchSavesBuffer | app/components/StudioCanvas.tsx:285-287 | the corrected save holds every shape, with the held stroke extended by the buffered samples and every other shape unchanged |
| StateRoute.ParsePage | app/api/projects/state/route.ts:62-63 | the page is never negative. It is the number when that is finite and not negative, and 0 otherwise |
| StateRoute.ParsePageIdempotent | app/api/projects/state/route.ts:23-24 | parsing a parsed page gives it back, and a non-finite input gives 0 |
| StateRoute.Decimal | app/api/projects/state/route.ts:27 | a whole page renders as a non-empty string of decimal digits |
| StateRoute.DecimalRoundTrip | app/api/projects/state/route.ts:27 | reading the digits back gives the page number |
| StateRoute.PageKeysDistinct | app/api/projects/state/route.ts:27 | two different whole pages of a project never share the key `projectId__page` |
| StateRoute.Lookup | app/api/projects/state/route.ts:26-40 | an existing page document is found. Otherwise, for page 0 only, the legacy record is found. With neither, the answer is the blank state |
| StateRoute.Get | app/api/projects/state/route.ts:14-48 | a missing id is a 400 before anything else; then membership failures pass through; then the answer is the lookup of the parsed page |
| StateRoute.NextVersion | app/api/projects/state/route.ts:70-72 | the version is above the claimed base and above the stored one, equals one of the two plus one, and for an absent record is the base plus one, or 0 |
| StateRoute.BaseVersion | app/api/projects/state/route.ts:59 | a non-number base version counts as 0 |
| StateRoute.Post | app/api/projects/state/route.ts:50-89 | a missing id is a 400 and a membership failure passes through, both storing nothing. A member's write replaces only the parsed page's document with the next version, the data sent and the writer's uid |
| StateRoute.WriteRaisesVersion | app/api/projects/state/route.ts:70-72 | successive writes to a page get strictly increasing versions |
| StateRoute.VersionCases | app/api/projects/state/route.ts:72 | a writer at or behind the store gets its version plus one; a writer ahead gets its base plus one |
| Store.Database.constructor | app/api/projects/route.ts:18-28 | the `projectMemberships`, `projects`, `projectStates` and `comments` collections, created empty |
| Store.MembershipId | app/api/projects/state/route.ts:8 | the membership key starts with the project id and `_`, and is as long as both ids and the separator |
| Store.RequireMember | app/api/projects/state/route.ts:5-12 | no session is a 401; a session without the membership document is a 403; otherwise the session user |
| Store.RequireUser | app/api/projects/route.ts:6-10 | a session is returned, and its absence is a 401 |
| CommentsRoute.Matching | app/api/comments/route.ts:22-24 | the query's answers are exactly the stored comments of the project |
| CommentsRoute.OfProject | app/api/comments/route.ts:22-27 | the listing is a prefix, in store order, of the project's comments. It holds at most 500: all of them when there are no more, and exactly 500 otherwise |
| CommentsRoute.List | app/api/comments/route.ts:14-37 | a missing id is a 400, then membership failures pass through, then the project's comments are listed |
| CommentsRoute.AuthorName | app/api/comments/route.ts:67 | the author name is never empty and is the display name when there is one |
| CommentsRoute.Create | app/api/comments/route.ts:39-82 | a failed check stores nothing; an accepted comment is appended once under the new id |
| CommentsRoute.AcceptOrder | app/api/comments/route.ts:42-57 | the checks come in order: project id, then session and membership, then text, then the coordinates of a root pin |
| CommentsRoute.PayloadSpec | app/api/comments/route.ts:59-70 | a root, including one with an empty `parentId`, is stored with no parent and its coordinates. A reply keeps its parent and has no coordinates. The text is kept and the author is the session user |
| CommentsRoute.Accept | app/api/comments/route.ts:42-70 | the validation of a comment post; `CommentsRoute.AcceptOrder` and `CommentsRoute.PayloadSpec` state its answers |
| CommentsRoute.ClientPinAccepted | app/api/comments/route.ts:55-65 | a pin the board posts for a member is stored as a pin at the clicked point and is drawn among the pins |
| CommentsRoute.ClientReplyAccepted | app/api/comments/route.ts:50-65 | a reply the board posts for a member is stored as a reply to the open pin and shows in its thread |
| ProjectsRoute.Take | app/api/projects/route.ts:50 | `slice(0, n)` is a prefix of at most `n` elements, and is everything when the list is short enough |
| ProjectsRoute.OrDefault | app/api/projects/route.ts:48-49 | `value \|\| fallback` is the value when non-empty, and the fallback otherwise |
| ProjectsRoute.Present | app/api/projects/route.ts:26-34 | every listed entry exists with its stored document, every existing id is listed, and distinct ids stay distinct |
| ProjectsRoute.ListingSpec | app/api/projects/route.ts:22-34 | each project appears once. Every listed project exists and comes from one of the user's memberships. Every existing project the user belongs to is listed |
| ProjectsRoute.Listing | app/api/projects/route.ts:22-34 | the listing of GET; `ProjectsRoute.ListingSpec` states what it holds |
| ProjectsRoute.List | app/api/projects/route.ts:12-42 | no session is a 401; otherwise the listing of the user's memberships |
| ProjectsRoute.NewProject | app/api/projects/route.ts:48-59 | the owner is the user. The name defaults to 'Untitled Project' and the folder to 'General'. Tags are the first 6 of an array, else [] |
| ProjectsRoute.Create | app/api/projects/route.ts:44-88 | no session is a 401 and changes nothing. Otherwise it writes the project under the new id, an owner membership under `newId_uid`, and an empty version-0 state under the bare id |
| ProjectsRoute.CreatorIsMember | app/api/projects/route.ts:61-78 | the creator passes the membership check and the owner guard, and reads page 0 as the empty version-0 state |
| ProjectsRoute.Guard | app/api/projects/route.ts:92-103 | the checks come in order: 401 with no session, 400 for a missing id, 404 for an absent project, 403 for a non-owner. Otherwise the id passes |
| ProjectsRoute.KeySet | app/api/projects/route.ts:117-118 | the keys to delete are exactly the query's answers |
| ProjectsRoute.Delete | app/api/projects/route.ts:90-129 | a failed guard deletes nothing. Otherwise the project, the state under the bare id and the queried memberships are deleted, and nothing else: every page document of the project is kept |
| ProjectsRoute.NoMemberAfterDelete | app/api/projects/route.ts:111-119 | after deleting a project with fewer than 200 memberships, nobody is a member of it any more, and other memberships stay |
| ProjectsRoute.Updated | app/api/projects/route.ts:147 | the update sets exactly the fields given and keeps the owner |
| ProjectsRoute.BuildUpdates | app/api/projects/route.ts:137-140 | updates hold a string name, a string folder, and array tags truncated to 6 |
| ProjectsRoute.Patch | app/api/projects/route.ts:131-156 | a failed guard, including a non-owner's 403, changes nothing. Otherwise only the fields carried change, on that one project |
| ProjectsRoute.UpdatedIdempotent | app/api/projects/route.ts:137-147 | an empty edit changes nothing, and the same edit twice is the edit once |
| Dashboard.Pieces | app/dashboard/page.tsx:69 | one trimmed piece per comma-separated part, in order |
| Dashboard.TrimmedPieceClean | app/dashboard/page.tsx:69 | a trimmed comma-free piece is trimmed and comma-free |
| Dashboard.PiecesClean | app/dashboard/page.tsx:69 | every piece is trimmed and holds no comma |
| Dashboard.ParseTagsSpec | app/dashboard/page.tsx:69 | parsed tags are at most 6 non-empty, trimmed, comma-free pieces of the input. When there are at most 6 non-blank parts, every one of them is kept |
| Dashboard.OneTag | app/dashboard/page.tsx:69 | a single non-blank tag parses to its trimmed text |
| Dashboard.SplitNoSeparator | app/dashboard/page.tsx:69 | a comma-free input splits into itself |
| Dashboard.FolderOf | app/dashboard/page.tsx:80 | the listed folder is never empty, and is the stored folder when there is one |
| Dashboard.FlatTags | app/dashboard/page.tsx:81 | the flattened tags are exactly the tags of some project |
| Dashboard.FiltersSpec | app/dashboard/page.tsx:80-81 | folder and tag choices have no duplicates and hold exactly the listed folders and tags. 'General' is missing only when every project has a non-empty folder |
| Dashboard.FilteredSpec | app/dashboard/page.tsx:82-84 | the filter keeps exactly the projects in the folder carrying the tag, and with 'All' and no tag every project in order |
| Dashboard.ParseTags | app/dashboard/page.tsx:69 | the tag parser; `Dashboard.ParseTagsSpec` and `Dashboard.OneTag` state its result |
| Dashboard.Filtered | app/dashboard/page.tsx:82-84 | the folder and tag filter; `Dashboard.FilteredSpec` states what it keeps |
| Dashboard.AllFolders | app/dashboard/page.tsx:80 | the folder options; `Dashboard.FiltersSpec` states them |
| Dashboard.AllTags | app/dashboard/page.tsx:81 | the tag options; `Dashboard.FiltersSpec` states them |
| Dashboard.CreateClick | app/dashboard/page.tsx:44-60 | a blank name is refused with 'Project name is required' and no request; otherwise the trimmed name is posted |
| Dashboard.EditBody | app/dashboard/page.tsx:68-72 | the PATCH carries the id, the typed folder or 'General', and the parsed tags |
| Dashboard.RenameBody | app/dashboard/page.tsx:74-78 | a blank rename sends nothing; otherwise the trimmed name is patched |
| Dashboard.CreatedNameNotBlank | app/dashboard/page.tsx:46-52 | a created project gets the trimmed, non-blank name, folder 'General' and no tags |
| Dashboard.EditRoundTrip | app/dashboard/page.tsx:68-84 | after an edit the project is listed under the typed folder ('General' for none) with exactly the parsed tags, and keeps its name |
| Dashboard.RenameRoundTrip | app/dashboard/page.tsx:74-78 | after a rename the project has the trimmed non-blank name and keeps folder and tags |
| FolderPager.EmptyPage | app/components/FolderPager.tsx:16-18 | four empty areas |
| FolderPager.LoadFolder | app/components/FolderPager.tsx:20-35 | always 150 pages of 4 strings. With nothing stored all are empty; otherwise each area is the stored one, or "" when absent |
| FolderPager.LoadSaved | app/components/FolderPager.tsx:20-35 | loading a saved well-formed folder gives it back |
| FolderPager.Add | app/components/FolderPager.tsx:41-43 | `add` appends unless the value repeats the last entry |
| FolderPager.Run | app/components/FolderPager.tsx:52 | the run holds the numbers a..b in order |
| FolderPager.IncreasingJoin | app/components/FolderPager.tsx:45-57 | two increasing pieces, each below the next, join increasing |
| FolderPager.LayoutOrdered | app/components/FolderPager.tsx:45-57 | the pushed numbers increase strictly and lie in [1, 150] |
| FolderPager.KeepNew | app/components/FolderPager.tsx:60-67 | the filter keeps only numbers in [1, 150], none seen before, and none twice |
| FolderPager.KeepNewKeepsOrdered | app/components/FolderPager.tsx:60-67 | an increasing in-range bar passes the filter whole |
| FolderPager.PushButtons | app/components/FolderPager.tsx:39-57 | the pushes give the layout: 1, 2, an optional ellipsis, the run around the page, an optional ellipsis, 149, 150 |
| FolderPager.DropRepeats | app/components/FolderPager.tsx:59-67 | the filter loop with its seen set computes the recursive filter |
| FolderPager.BuildButtons | app/components/FolderPager.tsx:37-68 | the bar equals the layout, since the filter drops nothing from it |
| FolderPager.BarEnds | app/components/FolderPager.tsx:45-57 | the bar starts with 1, 2 and ends with 149, 150 |
| FolderPager.BarGaps | app/components/FolderPager.tsx:48-54 | the leading ellipsis shows exactly when the page is past 5 and the trailing one exactly when it is before 146, and there are no other ellipses |
| FolderPager.BarShowsCurrent | app/components/FolderPager.tsx:45-57 | every page from 1 to 150 is on its own bar |
| FolderPager.HeadPushes | app/components/FolderPager.tsx:45-48 | the pushes of 1, 2 and the leading ellipsis give the head of the bar |
| FolderPager.RunStep | app/components/FolderPager.tsx:50-52 | each pass of the run loop appends its page |
| FolderPager.TailPushes | app/components/FolderPager.tsx:54-57 | the trailing ellipsis, 149 and 150 are all appended, completing the layout |
| FolderPager.Pager.constructor | app/components/FolderPager.tsx:71-72 | the pager starts on the first page of the loaded folder |
| FolderPager.Pager.SwitchFolder | app/components/FolderPager.tsx:75-79 | a new folder reloads the pages and goes to the first page |
| FolderPager.Pager.Prev | app/components/FolderPager.tsx:127 | Prev moves back by one exactly when the page is above 0 |
| FolderPager.Pager.Next | app/components/FolderPager.tsx:150 | Next moves on by one exactly when the page is below 149 |
| FolderPager.Pager.Buttons | app/components/FolderPager.tsx:109 | the bar is the layout of the 1-based current page |
| FolderPager.Pager.Jump | app/components/FolderPager.tsx:141 | a numbered button opens its page |
| FolderPager.Pager.UpdateArea | app/components/FolderPager.tsx:98-106 | only the typed area of the current page changes |
| Sandbox.Fresh | app/components/SandboxWhiteboard.tsx:28-40 | an empty board with the pencil and no gesture |
| Sandbox.StrokeTouchedSpec | app/components/SandboxWhiteboard.tsx:60-64 | a stroke is touched exactly when one of its segments has non-zero length and passes within the radius |
| Sandbox.Hit | app/components/SandboxWhiteboard.tsx:52-66 | the loop that skips zero-length segments and returns early answers exactly `Touched` |
| Sandbox.Touched | app/components/SandboxWhiteboard.tsx:52-66 | the sandbox hit test; `Sandbox.TouchedIsHitTest` and `Sandbox.StrokeTouchedSpec` state it |
| Sandbox.StillStrokeNeverTouched | app/components/SandboxWhiteboard.tsx:61-62 | a stroke that never leaves its first point is never hit |
| Sandbox.TouchedIsHitTest | app/components/SandboxWhiteboard.tsx:52-66 | every sandbox hit is a studio `hitTest` hit, and the two agree on every shape that is not a stroke |
| Sandbox.RubbedSpec | app/components/SandboxWhiteboard.tsx:93 | the eraser removes exactly the shapes hit at radius 16 and keeps the order of the rest |
| Sandbox.Rubbed | app/components/SandboxWhiteboard.tsx:93 | the sandbox eraser; `Sandbox.RubbedSpec` states what survives |
| Sandbox.TopTouched | app/components/SandboxWhiteboard.tsx:96 | the reverse find returns a touched shape with none above it, or none |
| Sandbox.Grabbed | app/components/SandboxWhiteboard.tsx:94-99 | the select branch keeps the shapes and the tool |
| Sandbox.TouchIgnored | app/components/SandboxWhiteboard.tsx:70-104 | touch pointers change nothing on down and move |
| Sandbox.DownSpec | app/components/SandboxWhiteboard.tsx:68-101 | a press outside the eraser keeps every shape and adds at most one, at the end |
| Sandbox.StrokeMoveAppendsOne | app/components/SandboxWhiteboard.tsx:111-120 | while a shape is drawn, a move appends the pointer to the stroke with the drawing id, and a rect or ellipse with that id spans the start point and the pointer (x and y the minima, w and h the distances). Every other shape is unchanged |
| Sandbox.GrabThenDrag | app/components/SandboxWhiteboard.tsx:96-126 | dragging a grabbed shape moves it to the pointer minus its grab offset, and leaves the others |
| Sandbox.UpSpec | app/components/SandboxWhiteboard.tsx:130 | pointer-up clears drawing, start, erasing and drag state and keeps the shapes |
| Sandbox.NeverDrags | app/components/SandboxWhiteboard.tsx:94-127 | no handler ever sets the drag id, so a board without one never drags |
| Sandbox.PenTapUnhittable | app/components/SandboxWhiteboard.tsx:76-79 | a pencil tap leaves a one-point stroke that nothing can hit |
| Sandbox.Down | app/components/SandboxWhiteboard.tsx:68-101 | pointer down; `Sandbox.DownSpec` and `Sandbox.TouchIgnored` state the new board |
| Sandbox.Move | app/components/SandboxWhiteboard.tsx:103-128 | pointer move; `Sandbox.StrokeMoveAppendsOne` and `Sandbox.GrabThenDrag` state the new board |
| Sandbox.Up | app/components/SandboxWhiteboard.tsx:130 | pointer up; `Sandbox.UpSpec` states the new board |
| Sandbox.SandboxBoard.constructor | app/components/SandboxWhiteboard.tsx:28-40 | the board starts fresh |
| Sandbox.SandboxBoard.ChooseTool | app/components/SandboxWhiteboard.tsx:184-189 | only the tool changes |
| Sandbox.SandboxBoard.ChooseColor | app/components/SandboxWhiteboard.tsx:190 | only the colour changes |
| Sandbox.SandboxBoard.PointerDown | app/components/SandboxWhiteboard.tsx:68-101 | the new state is `Sandbox.Down` |
| Sandbox.SandboxBoard.PointerMove | app/components/SandboxWhiteboard.tsx:103-128 | the new state is `Sandbox.Move` |
| Sandbox.SandboxBoard.PointerUp | app/components/SandboxWhiteboard.tsx:130 | the new state is `Sandbox.Up` |
| Sandbox.SandboxBoard.Clear | app/components/SandboxWhiteboard.tsx:192 | the new state is `Sandbox.Cleared`: no shapes |
| Sandbox.SandboxBoard.PickImage | app/components/SandboxWhiteboard.tsx:132-141 | the new state is `Sandbox.Picked`: a centred 360 by 240 image, and the pencil tool |
| Templates.Find | lib/templates.ts:18 | `find` returns a listed entry with the slug, or nothing when none has it |
| Templates.LanePair | lib/templates.ts:47-50 | each iteration pushes two shapes with the next two ids |
| Templates.LaneShapesSnoc | lib/templates.ts:47-50 | one more iteration appends one more pair |
| Templates.PushPair | lib/templates.ts:47-50 | pushing the two shapes of one iteration extends the list to the lanes so far |
| Templates.PushLanes | lib/templates.ts:44-107 | the `forEach` loop leaves the heading followed by the pairs of every lane |
| Templates.GetTemplatePreset | lib/templates.ts:17-111 | the method computes the preset function, literal or loop-built |
| Templates.LaneShapesSpec | lib/templates.ts:44-107 | a lane loop pushes two starter shapes per lane, with ids in build order |
| Templates.LaneBoardSpec | lib/templates.ts:44-107 | a lane board is the heading plus two shapes per lane, all starter shapes with ids in build order |
| Templates.LiteralSpec | lib/templates.ts:25-98 | the literal templates are starter shapes with ids in build order |
| Templates.ListSpec | lib/templates.ts:3-13 | nine templates with pairwise distinct slugs and non-empty titles |
| Templates.KnownSlugs | lib/templates.ts:24-110 | exactly the listed slugs have a case |
| Templates.UnknownSlug | lib/templates.ts:108-109 | a slug gives no preset exactly when it is not listed |
| Templates.FindListed | lib/templates.ts:18 | with distinct slugs, `find` returns the listed entry |
| Templates.ListedPreset | lib/templates.ts:17-107 | every listed slug has a preset titled as listed, made of rects and white 18-point labels with ids in build order |
| Templates.PresetSizes | lib/templates.ts:24-107 | sizes are brainstorm 7, flowchart 9, weekly-plan 15, kanban 7, mind-map 10, roadmap 9, retrospective 7, sprint-plan 7 and journey 9 |
| Templates.PresetIdsDistinct | lib/templates.ts:21-22 | with an id source that never repeats, the shapes of a preset have distinct ids |
| Templates.KnownPreset | lib/templates.ts:24-107 | a slug with a case gives a preset with its title, made of starter shapes with ids in build order |
| Templates.PresetOf | lib/templates.ts:17-111 | the preset of a slug; `Templates.KnownPreset`, `Templates.ListedPreset` and `Templates.UnknownSlug` state it |

## Left out

- Network, database, storage and browser APIs are not modelled as such:
  - `fetch` replies, stored documents, `localStorage` values and `window.prompt` answers come in as parameters;
  - requests and stored writes are results or state;
  - `FileReader` is reduced to its data URL;
  - SVG rendering, the toolbar JSX and the PNG, SVG and PDF exports are not modelled at all.
- Timers and frames are explicit methods, called when they fire: the 1.5 s and 2 s polls, the 400 ms trailing debounce, and `requestAnimationFrame`.
- `uid()` and the random template ids are parameters. A template's ids come from a function applied to the build index.
- Handlers are atomic. React's stale closures and nested state setters are not modelled, except in `gotoPage`, whose save reads the list from before its own flush (see Findings).
- Coordinates are real numbers. `Math.hypot` is compared through squares, and IEEE floating point (rounding, `-0`) is not modelled. A fractional page is a real number everywhere, and JSON numbers that are not integers are not modelled for versions.
- The drawing surface is fixed at 3000 by 3000. The growth of the canvas on scroll is not modelled.
- `String.prototype.trim` is modelled with the Latin-1 whitespace characters and the byte-order mark, not every Unicode space.
- The body fields of a request are `Option` values. A field of the wrong JSON type counts as absent. A failure of `req.json()` and the 500 answers are not modelled.
- Timestamps (`createdAt`, `updatedAt`) are not stored. Neither is any part of a state document's `data` other than its shapes.
- Project DELETE removes only the state document under the bare id. The page documents of the studio and the project's comments are left in place, as the source does (`ProjectsRoute.Delete`).
- The string keys of collections:
  - page documents are keyed by a `DocId` datatype, so a page key and a legacy key never collide;
  - `StateRoute.PageKeysDistinct` proves the string keys of whole pages distinct;
  - fractional pages and a project id that itself ends in `__<digits>` are not modelled.
- Gestures.DistToSegmentSqLeast: minimality is stated for segments of non-zero length and for segments whose two ends coincide. That a zero squared length forces the two ends to coincide is not proved.
- Sandbox.Grabbed: the sandbox's select branch is modelled, but no toolbar tool reaches it (`Sandbox.NeverDrags`).
- StateRoute.Post: the `data` written is only its shapes, or none when the body sends none.
- The magic assistant, chat, history snapshots, sharing, invitations, authentication middleware and the marketing pages are not part of this model.

## Findings

| source | as written | input that shows it | evidently intended | confidence | as-written member | corrected member |
|---|---|---|---|---|---|---|
| app/components/StudioCanvas.tsx:584-591 | `onPointerCancel` clears the drawing id but keeps the points buffered for the abandoned stroke, and the frame requested before the cancel cannot flush them once no stroke is active | a pen press at `a`, a move buffering a sample `b` more than 0.7 away, a cancel, the animation frame, then a pen tap at `c`: the second stroke ends as `[c, b]` | cancelling a stroke drops its buffered samples, so the next stroke holds only its own points (`[c]`) | not executed | Sessions.CancelLeakAsWritten | Sessions.CancelThenStroke |
| app/components/StudioCanvas.tsx:285-287 | `gotoPage` calls `flushBufferedPoints()` and then `save(shapes, version)` with the `shapes` of its closure, which the flush's `setShapes` has not yet changed | a stroke held at `[a]` with a sample `b` buffered, then a switch to another page: the save sends the stroke as `[a]`, and loading the target page drops `b` | the save sends the flushed list, with the stroke as `[a, b]` | not executed | Sessions.SwitchLosesBufferAsWritten | Sessions.SwitchSavesBuffer |
