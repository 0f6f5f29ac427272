/**
 * Insertion-ordered sets, the behaviour of JavaScript's `Set` and of the key
 * order of `Map`: a value is placed where it is first inserted, and inserting
 * it again leaves it there.
 */
module Collections {
  ghost predicate NoDuplicates<T>(s: seq<T>) {
    forall i, j :: 0 <= i < j < |s| ==> s[i] != s[j]
  }

  /** `d` followed by the elements of `xs` that are new, in first-insertion order. */
  function AppendNew<T(==)>(d: seq<T>, xs: seq<T>): seq<T>
    decreases |xs|
  {
    if xs == [] then d
    else
      var front := AppendNew(d, xs[..|xs| - 1]);
      if xs[|xs| - 1] in front then front else front + [xs[|xs| - 1]]
  }

  /** `Array.from(new Set(xs))`. */
  function Dedupe<T(==)>(xs: seq<T>): seq<T> {
    AppendNew([], xs)
  }

  /**
   * Inserting into a duplicate-free sequence keeps it duplicate-free, keeps
   * what was there as a prefix, and adds exactly the elements of `xs`.
   */
  lemma {:induction false} AppendNewSpec<T>(d: seq<T>, xs: seq<T>)
    requires NoDuplicates(d)
    ensures NoDuplicates(AppendNew(d, xs))
    ensures |d| <= |AppendNew(d, xs)| && AppendNew(d, xs)[..|d|] == d
    ensures forall x :: x in AppendNew(d, xs) <==> x in d || x in xs
    decreases |xs|
  {
    if xs != [] {
      var init := xs[..|xs| - 1];
      AppendNewSpec(d, init);
      assert xs == init + [xs[|xs| - 1]];
      var front := AppendNew(d, init);
      if xs[|xs| - 1] !in front {
        assert (front + [xs[|xs| - 1]])[..|d|] == front[..|d|];
      }
    }
  }

  /** `Array.from(new Set(xs))` holds each element of `xs` exactly once. */
  lemma DedupeSpec<T>(xs: seq<T>)
    ensures NoDuplicates(Dedupe(xs))
    ensures forall x :: x in Dedupe(xs) <==> x in xs
    ensures |Dedupe(xs)| <= |xs|
  {
    AppendNewSpec([], xs);
    DedupeLength(xs);
  }

  lemma {:induction false} DedupeLength<T>(xs: seq<T>)
    ensures |AppendNew([], xs)| <= |xs|
    decreases |xs|
  {
    if xs != [] {
      DedupeLength(xs[..|xs| - 1]);
    }
  }

  /** A sequence that is already duplicate-free passes through `Dedupe` unchanged. */
  lemma {:induction false} DedupeOfDistinct<T>(xs: seq<T>)
    requires NoDuplicates(xs)
    ensures Dedupe(xs) == xs
    decreases |xs|
  {
    if xs != [] {
      var init := xs[..|xs| - 1];
      assert NoDuplicates(init);
      DedupeOfDistinct(init);
      assert xs == init + [xs[|xs| - 1]];
    }
  }

  /** `xs.filter(keep)`. */
  function Filter<T>(xs: seq<T>, keep: T -> bool): seq<T>
    decreases |xs|
  {
    if xs == [] then [] else (if keep(xs[0]) then [xs[0]] else []) + Filter(xs[1..], keep)
  }

  /** `filter` distributes over concatenation, so it keeps the survivors in their order. */
  lemma {:induction false} FilterConcat<T>(a: seq<T>, b: seq<T>, keep: T -> bool)
    ensures Filter(a + b, keep) == Filter(a, keep) + Filter(b, keep)
    decreases |a|
  {
    if a != [] {
      assert (a + b)[1..] == a[1..] + b;
      FilterConcat(a[1..], b, keep);
    } else {
      assert a + b == b;
    }
  }

  /** `filter` keeps exactly the elements that pass, and no more of them than there were. */
  lemma {:induction false} FilterMembers<T>(xs: seq<T>, keep: T -> bool)
    ensures forall x :: x in Filter(xs, keep) <==> x in xs && keep(x)
    ensures |Filter(xs, keep)| <= |xs|
    decreases |xs|
  {
    if xs != [] {
      FilterMembers(xs[1..], keep);
      assert xs == [xs[0]] + xs[1..];
    }
  }
}
