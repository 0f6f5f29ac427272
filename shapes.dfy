/** The drawn primitives of a page (`app/components/StudioCanvas.tsx`, lines 18-32). */
module Shapes {
  import opened Wrappers
  import opened Geometry

  /** Shape ids are opaque strings (`uid()` in the source, a parameter here). */
  type Id = string

  /** A tagged union over the five kinds; list order is z-order (later is on top). */
  datatype Shape =
    | Pencil(id: Id, color: string, points: seq<Point>, strokeWidth: real)
    | Rect(id: Id, color: string, x: real, y: real, w: real, h: real)
    | Ellipse(id: Id, color: string, x: real, y: real, w: real, h: real)
    | Text(id: Id, color: string, x: real, y: real, text: string, fontSize: real)
    | Image(id: Id, color: string, x: real, y: real, w: real, h: real, src: string)
  {
    /** Rect, ellipse and image: the kinds with a box that can be resized. */
    predicate IsBox() { Rect? || Ellipse? || Image? }

    /** Every kind except pencil has an anchor (`'x' in s && 'y' in s`). */
    predicate IsPositioned() { !Pencil? }
  }

  /** The ids of a shape list, in order. */
  function Ids(ss: seq<Shape>): (r: seq<Id>)
    ensures |r| == |ss| && forall i :: 0 <= i < |ss| ==> r[i] == ss[i].id
  {
    seq(|ss|, i requires 0 <= i < |ss| => ss[i].id)
  }

  /** The first shape with the given id. */
  function First(ss: seq<Shape>, id: Id): Option<Shape> {
    if ss == [] then None
    else if ss[0].id == id then Some(ss[0])
    else First(ss[1..], id)
  }

  /** The last shape with the given id. */
  function Last(ss: seq<Shape>, id: Id): Option<Shape> {
    if ss == [] then None
    else if ss[|ss| - 1].id == id then Some(ss[|ss| - 1])
    else Last(ss[..|ss| - 1], id)
  }

  lemma IdsPrefix(ss: seq<Shape>, k: nat)
    requires k <= |ss|
    ensures Ids(ss[..k]) == Ids(ss)[..k]
  {
  }

  lemma {:induction false} LastFound(ss: seq<Shape>, id: Id)
    ensures Last(ss, id).Some? <==> id in Ids(ss)
    ensures Last(ss, id).Some? ==> Last(ss, id).value in ss && Last(ss, id).value.id == id
    decreases |ss|
  {
    if ss != [] && ss[|ss| - 1].id != id {
      var init := ss[..|ss| - 1];
      LastFound(init, id);
      assert ss == init + [ss[|ss| - 1]];
      assert Ids(ss) == Ids(init) + [ss[|ss| - 1].id];
    }
  }

  lemma {:induction false} FirstFound(ss: seq<Shape>, id: Id)
    ensures First(ss, id).Some? <==> id in Ids(ss)
    ensures First(ss, id).Some? ==> First(ss, id).value in ss && First(ss, id).value.id == id
    decreases |ss|
  {
    if ss != [] && ss[0].id != id {
      FirstFound(ss[1..], id);
      assert Ids(ss) == [ss[0].id] + Ids(ss[1..]);
    }
  }
}
