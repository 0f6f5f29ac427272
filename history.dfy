/**
 * The history manager of `app/components/StudioCanvas.tsx`: the current shape
 * list with two stacks of full snapshots, `past` (undo) and `future` (redo).
 */
module History {
  import opened Shapes

  /** At most 50 snapshots are kept on the undo stack by `commit`. */
  const Capacity: nat := 50

  datatype Timeline = Timeline(shapes: seq<Shape>, past: seq<seq<Shape>>, future: seq<seq<Shape>>)

  /** `p.slice(-49)`: the most recent 49 entries (all of them when there are fewer). */
  function KeepRecent(p: seq<seq<Shape>>): seq<seq<Shape>> {
    if |p| > Capacity - 1 then p[|p| - (Capacity - 1)..] else p
  }

  /** The last `n` entries of `s` (all of `s` when it is shorter). */
  function Suffix<T>(s: seq<T>, n: nat): seq<T> {
    if |s| <= n then s else s[|s| - n..]
  }

  /**
   * `setPast(p => [...p.slice(-49), shapes]); setFuture([])`: one snapshot
   * of the current list. `commit` does this before installing its result;
   * a drag or resize does it alone, at the start of the gesture.
   */
  function Record(t: Timeline): (r: Timeline)
    ensures r.shapes == t.shapes && r.future == []
    ensures r.past == Suffix(t.past + [t.shapes], Capacity)
  {
    Timeline(t.shapes, KeepRecent(t.past) + [t.shapes], [])
  }

  /** `commit(producer)` with `next == producer(prev)`. */
  function Commit(t: Timeline, next: seq<Shape>): (r: Timeline)
    ensures r.shapes == next && r.future == []
    ensures r.past == Suffix(t.past + [t.shapes], Capacity)
    ensures |r.past| <= Capacity && r.past[|r.past| - 1] == t.shapes
  {
    Record(t).(shapes := next)
  }

  /** `undo()`: no-op on an empty past; else the last snapshot comes back and the current list goes to `future`. */
  function Undo(t: Timeline): (r: Timeline)
    ensures t.past == [] ==> r == t
    ensures t.past != [] ==>
              && r.shapes == t.past[|t.past| - 1]
              && r.past + [t.past[|t.past| - 1]] == t.past
              && r.future == t.future + [t.shapes]
  {
    if t.past == [] then t
    else Timeline(t.past[|t.past| - 1], t.past[..|t.past| - 1], t.future + [t.shapes])
  }

  /** `redo()`: the mirror of `undo`; the past is pushed without trimming. */
  function Redo(t: Timeline): (r: Timeline)
    ensures t.future == [] ==> r == t
    ensures t.future != [] ==>
              && r.shapes == t.future[|t.future| - 1]
              && r.future + [t.future[|t.future| - 1]] == t.future
              && r.past == t.past + [t.shapes]
  {
    if t.future == [] then t
    else Timeline(t.future[|t.future| - 1], t.past + [t.shapes], t.future[..|t.future| - 1])
  }

  /** The bound every operation keeps: both stacks together hold at most 50 snapshots. */
  predicate Bounded(t: Timeline) {
    |t.past| + |t.future| <= Capacity
  }

  /** Undo followed by redo restores the exact list and both stacks. */
  lemma UndoThenRedo(t: Timeline)
    requires t.past != []
    ensures Redo(Undo(t)) == t
  {
    assert t.past[..|t.past| - 1] + [t.past[|t.past| - 1]] == t.past;
  }

  /** Redo followed by undo restores the exact list and both stacks. */
  lemma RedoThenUndo(t: Timeline)
    requires t.future != []
    ensures Undo(Redo(t)) == t
  {
    assert t.future[..|t.future| - 1] + [t.future[|t.future| - 1]] == t.future;
  }

  /**
   * Every history operation keeps the 50-snapshot bound; in particular the
   * untrimmed push of `redo` never takes `past` beyond 50.
   */
  lemma BoundKept(t: Timeline, next: seq<Shape>)
    requires Bounded(t)
    ensures Bounded(Commit(t, next)) && Bounded(Record(t))
    ensures Bounded(Undo(t)) && Bounded(Redo(t))
    ensures |Undo(t).past| <= Capacity && |Redo(t).past| <= Capacity
  {
  }

  /** A full undo stack drops exactly its oldest snapshot on the next commit. */
  lemma CommitEvictsOldest(t: Timeline, next: seq<Shape>)
    requires |t.past| == Capacity
    ensures Commit(t, next).past == t.past[1..] + [t.shapes]
  {
  }
}
