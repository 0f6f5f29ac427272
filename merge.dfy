/**
 * The id-keyed merge of the sync engine (`mergeShapes`): a `Map` keyed by
 * shape id is filled with the remote shapes and then the local ones, and its
 * values are read back in key-insertion order.
 */
module Merge {
  import opened Wrappers
  import opened Collections
  import opened Shapes

  /**
   * `map.set(s.id, s)` on an insertion-ordered map held as a list: an id that
   * is present keeps its slot and takes the new value; a new id goes last.
   */
  function Put(m: seq<Shape>, s: Shape): seq<Shape>
  {
    if m == [] then [s]
    else if m[0].id == s.id then [s] + m[1..]
    else [m[0]] + Put(m[1..], s)
  }

  /** `xs.forEach((s) => map.set(s.id, s))`. */
  function PutAll(m: seq<Shape>, xs: seq<Shape>): seq<Shape>
    decreases |xs|
  {
    if xs == [] then m else Put(PutAll(m, xs[..|xs| - 1]), xs[|xs| - 1])
  }

  /** `mergeShapes(local, remote)`: remote first, local on top; local wins for a shared id. */
  function MergeShapes(local: seq<Shape>, remote: seq<Shape>): seq<Shape>
  {
    PutAll(PutAll([], remote), local)
  }

  lemma {:induction false} PutIds(m: seq<Shape>, s: Shape)
    ensures Ids(Put(m, s)) == if s.id in Ids(m) then Ids(m) else Ids(m) + [s.id]
    decreases |m|
  {
    if m != [] {
      assert Ids(m) == [m[0].id] + Ids(m[1..]);
      if m[0].id != s.id {
        PutIds(m[1..], s);
        assert Ids(Put(m, s)) == [m[0].id] + Ids(Put(m[1..], s));
        assert (s.id in Ids(m)) == (s.id in Ids(m[1..]));
        if s.id !in Ids(m) {
          assert [m[0].id] + (Ids(m[1..]) + [s.id]) == Ids(m) + [s.id];
        }
      } else {
        assert Ids(Put(m, s)) == [s.id] + Ids(m[1..]);
      }
    }
  }

  lemma {:induction false} PutFirst(m: seq<Shape>, s: Shape, id: Id)
    ensures First(Put(m, s), id) == if id == s.id then Some(s) else First(m, id)
    decreases |m|
  {
    if m != [] && m[0].id != s.id {
      PutFirst(m[1..], s, id);
      assert Put(m, s)[1..] == Put(m[1..], s);
    } else if m != [] {
      assert Put(m, s)[1..] == m[1..];
    }
  }

  /** The keys of the map after `PutAll` are its old keys followed by the new ids of `xs`. */
  lemma {:induction false} PutAllIds(m: seq<Shape>, xs: seq<Shape>)
    ensures Ids(PutAll(m, xs)) == AppendNew(Ids(m), Ids(xs))
    decreases |xs|
  {
    if xs != [] {
      var init := xs[..|xs| - 1];
      PutAllIds(m, init);
      PutIds(PutAll(m, init), xs[|xs| - 1]);
      IdsPrefix(xs, |xs| - 1);
      assert Ids(xs)[..|Ids(xs)| - 1] == Ids(init);
    }
  }

  /** After `PutAll`, the value under an id of `xs` is the last shape of `xs` with that id. */
  lemma {:induction false} PutAllFirst(m: seq<Shape>, xs: seq<Shape>, id: Id)
    ensures First(PutAll(m, xs), id) == if Last(xs, id).Some? then Last(xs, id) else First(m, id)
    decreases |xs|
  {
    if xs != [] {
      var init := xs[..|xs| - 1];
      PutAllFirst(m, init, id);
      PutFirst(PutAll(m, init), xs[|xs| - 1], id);
    }
  }

  /**
   * The merge holds every id of local and remote exactly once; remote ids come
   * first in remote order and local-only ids follow in local order; the entry for
   * an id is the local one whenever local has that id, otherwise the remote one.
   */
  lemma MergeSpec(local: seq<Shape>, remote: seq<Shape>)
    ensures Ids(MergeShapes(local, remote)) == AppendNew(Dedupe(Ids(remote)), Ids(local))
    ensures NoDuplicates(Ids(MergeShapes(local, remote)))
    ensures forall id :: id in Ids(MergeShapes(local, remote)) <==> id in Ids(local) || id in Ids(remote)
    ensures forall id :: id in Ids(local) ==> First(MergeShapes(local, remote), id) == Last(local, id)
    ensures forall id :: id !in Ids(local) ==> First(MergeShapes(local, remote), id) == Last(remote, id)
  {
    var base := PutAll([], remote);
    PutAllIds([], remote);
    PutAllIds(base, local);
    assert Ids([]) == [];
    AppendNewSpec([], Ids(remote));
    AppendNewSpec(Dedupe(Ids(remote)), Ids(local));
    forall id
      ensures id in Ids(local) ==> First(MergeShapes(local, remote), id) == Last(local, id)
      ensures id !in Ids(local) ==> First(MergeShapes(local, remote), id) == Last(remote, id)
    {
      PutAllFirst(base, local, id);
      PutAllFirst([], remote, id);
      LastFound(local, id);
    }
  }

  /**
   * Local work is never lost: when the local ids are distinct, every local
   * shape is in the merge as it is.
   */
  lemma MergeKeepsLocal(local: seq<Shape>, remote: seq<Shape>)
    requires NoDuplicates(Ids(local))
    ensures forall s :: s in local ==> s in MergeShapes(local, remote)
  {
    MergeSpec(local, remote);
    forall s | s in local ensures s in MergeShapes(local, remote) {
      var i :| 0 <= i < |local| && local[i] == s;
      LastOfDistinct(local, i);
      FirstFound(MergeShapes(local, remote), s.id);
    }
  }

  lemma {:induction false} LastOfDistinct(ss: seq<Shape>, i: nat)
    requires i < |ss| && NoDuplicates(Ids(ss))
    ensures Last(ss, ss[i].id) == Some(ss[i])
    decreases |ss|
  {
    if i < |ss| - 1 {
      var init := ss[..|ss| - 1];
      assert Ids(ss)[i] != Ids(ss)[|ss| - 1];
      IdsPrefix(ss, |ss| - 1);
      LastOfDistinct(init, i);
    }
  }

  /**
   * The worked case: local holds an edited "a" and "c", the remote holds "a"
   * and "b"; the merge is the edited "a", then "b", then "c".
   */
  lemma MergeExample(a: Shape, aEdited: Shape, b: Shape, c: Shape)
    requires a.id == aEdited.id == "a" && b.id == "b" && c.id == "c"
    ensures MergeShapes([aEdited, c], [a, b]) == [aEdited, b, c]
  {
    assert [a, b][..1] == [a];
    assert PutAll([], [a]) == [a];
    assert PutAll([], [a, b]) == Put([a], b) == [a, b];
    assert [aEdited, c][..1] == [aEdited];
    assert PutAll([a, b], [aEdited]) == Put([a, b], aEdited) == [aEdited, b];
    assert Put([aEdited, b], c) == [aEdited] + Put([b], c);
  }
}
