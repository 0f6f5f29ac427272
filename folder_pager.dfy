/**
 * `app/components/FolderPager.tsx`: a folder of 150 pages of four text
 * areas, with a page bar of numbered buttons and ellipses around the
 * current page.
 */
module FolderPager {
  import opened Wrappers

  const TotalPages: int := 150
  const AreasPerPage: int := 4

  /** `makeEmptyPage()`: four empty areas. */
  function EmptyPage(): (p: seq<string>)
    ensures |p| == AreasPerPage && forall a :: 0 <= a < |p| ==> p[a] == ""
  {
    ["", "", "", ""]
  }

  /** A folder as the component keeps it: 150 pages of exactly four areas. */
  ghost predicate WellFormed(pages: seq<seq<string>>) {
    |pages| == TotalPages && forall i :: 0 <= i < |pages| ==> |pages[i]| == AreasPerPage
  }

  /**
   * Area `a` of stored page `i`: `(data[i] ?? makeEmptyPage())[a] ?? ""`.
   * A stored page or area that is absent or null is `None`.
   */
  function StoredArea(data: seq<Option<seq<Option<string>>>>, i: nat, a: nat): string {
    if i < |data| && data[i].Some? && a < |data[i].value| && data[i].value[a].Some? then data[i].value[a].value
    else ""
  }

  /**
   * `loadFolder`: the parsed `folder_pages_v1_<folderId>` value, or `None`
   * when there is none or reading or parsing it fails, normalised to 150
   * pages of four areas.
   */
  function LoadFolder(stored: Option<seq<Option<seq<Option<string>>>>>): (pages: seq<seq<string>>)
    ensures WellFormed(pages)
    ensures stored.None? ==> forall i, a :: 0 <= i < TotalPages && 0 <= a < AreasPerPage ==> pages[i][a] == ""
    ensures stored.Some? ==> forall i, a :: 0 <= i < TotalPages && 0 <= a < AreasPerPage ==>
              pages[i][a] == StoredArea(stored.value, i, a)
  {
    match stored
    case None => seq(TotalPages, _ => EmptyPage())
    case Some(data) =>
      seq(TotalPages, i requires 0 <= i < TotalPages =>
        [StoredArea(data, i, 0), StoredArea(data, i, 1), StoredArea(data, i, 2), StoredArea(data, i, 3)])
  }

  /** Loading what was saved gives it back: a well-formed folder survives storage unchanged. */
  lemma {:induction false} LoadSaved(pages: seq<seq<string>>)
    requires WellFormed(pages)
    ensures LoadFolder(Some(seq(|pages|, i requires 0 <= i < |pages| => Some(seq(|pages[i]|, a requires 0 <= a < |pages[i]| => Some(pages[i][a])))))) == pages
  {
    var stored := seq(|pages|, i requires 0 <= i < |pages| => Some(seq(|pages[i]|, a requires 0 <= a < |pages[i]| => Some(pages[i][a]))));
    var loaded := LoadFolder(Some(stored));
    forall i | 0 <= i < TotalPages
      ensures loaded[i] == pages[i]
    {
      forall a | 0 <= a < AreasPerPage
        ensures loaded[i][a] == pages[i][a]
      {
        assert StoredArea(stored, i, a) == pages[i][a];
      }
    }
  }

  /** An entry of the page bar: a page number (1-based) or an ellipsis. */
  datatype Button = Num(n: int) | Gap

  /** `add(v)`: push `v` unless it repeats the last entry. */
  function Add(buttons: seq<Button>, v: Button): (r: seq<Button>)
    ensures r == buttons + [v] || (buttons != [] && buttons[|buttons| - 1] == v && r == buttons)
  {
    if buttons == [] || buttons[|buttons| - 1] != v then buttons + [v] else buttons
  }

  /** The numbered buttons `a..b`, in order (empty when `a > b`). */
  function Run(a: int, b: int): (r: seq<Button>)
    ensures |r| == (if a <= b then b - a + 1 else 0)
    ensures forall k :: 0 <= k < |r| ==> r[k] == Num(a + k)
  {
    seq(if a <= b then b - a + 1 else 0, k => Num(a + k))
  }

  /** The first and last entries the bar pushes around the run. */
  function Head(current: int): seq<Button> {
    [Num(1), Num(2)] + (if current > 5 then [Gap] else [])
  }

  function Tail(current: int): seq<Button> {
    (if current < TotalPages - 4 then [Gap] else []) + [Num(TotalPages - 1), Num(TotalPages)]
  }

  function Min(a: int, b: int): int { if a <= b then a else b }
  function Max(a: int, b: int): int { if a <= b then b else a }

  /** The run of pages around `current`: from `max(3, current - 2)` to `min(148, current + 2)`. */
  function RunStart(current: int): int { Max(3, current - 2) }
  function RunEnd(current: int): int { Min(TotalPages - 2, current + 2) }

  /** The page bar for the 1-based page `current`. */
  function Layout(current: int): seq<Button> {
    Head(current) + Run(RunStart(current), RunEnd(current)) + Tail(current)
  }

  /** Page numbers increase from left to right (ellipses aside). */
  ghost predicate Increasing(bs: seq<Button>) {
    forall i, j :: 0 <= i < j < |bs| && bs[i].Num? && bs[j].Num? ==> bs[i].n < bs[j].n
  }

  ghost predicate InRange(bs: seq<Button>) {
    forall i :: 0 <= i < |bs| && bs[i].Num? ==> 1 <= bs[i].n <= TotalPages
  }

  /** Two increasing pieces, each page of the first below each page of the second, join increasing. */
  lemma IncreasingJoin(a: seq<Button>, b: seq<Button>)
    requires Increasing(a) && Increasing(b)
    requires forall i, j :: 0 <= i < |a| && 0 <= j < |b| && a[i].Num? && b[j].Num? ==> a[i].n < b[j].n
    ensures Increasing(a + b)
  {
    var ab := a + b;
    forall i, j | 0 <= i < j < |ab| && ab[i].Num? && ab[j].Num?
      ensures ab[i].n < ab[j].n
    {
      if j < |a| {
      } else if i >= |a| {
        assert ab[i] == b[i - |a|] && ab[j] == b[j - |a|];
      } else {
        assert ab[i] == a[i] && ab[j] == b[j - |a|];
      }
    }
  }

  /** The bar is increasing and every page in it exists. */
  lemma {:induction false} LayoutOrdered(current: int)
    ensures Increasing(Layout(current)) && InRange(Layout(current))
  {
    var h, r, t := Head(current), Run(RunStart(current), RunEnd(current)), Tail(current);
    IncreasingJoin(h, r);
    IncreasingJoin(h + r, t);
    var l := Layout(current);
    forall i | 0 <= i < |l| && l[i].Num?
      ensures 1 <= l[i].n <= TotalPages
    {
      if i < |h| {
        assert l[i] == h[i];
      } else if i < |h| + |r| {
        assert l[i] == r[i - |h|];
      } else {
        assert l[i] == t[i - |h| - |r|];
      }
    }
  }

  /**
   * The `.filter` at the end of `buildButtons`: ellipses stay; a page number
   * stays when it is between 1 and 150 and not already kept (`seen` holds
   * the numbers kept so far).
   */
  function KeepNew(bs: seq<Button>, seen: set<int>): (r: seq<Button>)
    ensures InRange(r)
    ensures forall i :: 0 <= i < |r| && r[i].Num? ==> r[i].n !in seen
    ensures forall i, j :: 0 <= i < j < |r| && r[i].Num? && r[j].Num? ==> r[i].n != r[j].n
    decreases |bs|
  {
    if bs == [] then []
    else if bs[0].Num? && (bs[0].n < 1 || bs[0].n > TotalPages || bs[0].n in seen) then KeepNew(bs[1..], seen)
    else
      var rest := KeepNew(bs[1..], if bs[0].Num? then seen + {bs[0].n} else seen);
      assert forall i :: 1 <= i < |[bs[0]] + rest| ==> ([bs[0]] + rest)[i] == rest[i - 1];
      [bs[0]] + rest
  }

  /** An increasing bar of existing pages, all above what was seen, passes the filter whole. */
  lemma {:induction false} KeepNewKeepsOrdered(bs: seq<Button>, seen: set<int>)
    requires Increasing(bs) && InRange(bs)
    requires forall m, i :: m in seen && 0 <= i < |bs| && bs[i].Num? ==> m < bs[i].n
    ensures KeepNew(bs, seen) == bs
    decreases |bs|
  {
    if bs != [] {
      var seen' := if bs[0].Num? then seen + {bs[0].n} else seen;
      assert forall i :: 0 <= i < |bs[1..]| ==> bs[1..][i] == bs[i + 1];
      KeepNewKeepsOrdered(bs[1..], seen');
      assert bs == [bs[0]] + bs[1..];
    }
  }

  /** The pushes before the run: `add(1)`, `add(2)` and the leading ellipsis. */
  lemma {:induction false} HeadPushes(current: int)
    ensures var two := Add(Add([], Num(1)), Num(2));
            (if current > 5 then Add(two, Gap) else two) == Head(current)
  {
  }

  /**
   * The pushes after the run: the trailing ellipsis, 149 and 150 are all
   * pushed, because what precedes each of them differs from it.
   */
  lemma {:induction false} TailPushes(current: int)
    ensures var p := Head(current) + Run(RunStart(current), RunEnd(current));
            var q := if current < TotalPages - 4 then Add(p, Gap) else p;
            Add(Add(q, Num(TotalPages - 1)), Num(TotalPages)) == Layout(current)
  {
    var r := Run(RunStart(current), RunEnd(current));
    var p := Head(current) + r;
    if current < TotalPages - 4 {
      if r == [] {
        assert current <= 5;
        assert p[|p| - 1] == Num(2);
      } else {
        assert p[|p| - 1] == r[|r| - 1];
      }
      assert Add(p, Gap) == p + [Gap];
    }
    var q := if current < TotalPages - 4 then Add(p, Gap) else p;
    assert q[|q| - 1] != Num(TotalPages - 1) by {
      if current >= TotalPages - 4 && r != [] {
        assert q[|q| - 1] == r[|r| - 1];
      }
    }
    assert Add(q, Num(TotalPages - 1)) == q + [Num(TotalPages - 1)];
  }

  /** Each pass of the run loop pushes its page, which differs from the entry before it. */
  lemma {:induction false} RunStep(current: int, i: int, raw: seq<Button>)
    requires RunStart(current) <= i <= RunEnd(current)
    requires raw == Head(current) + Run(RunStart(current), i - 1)
    ensures Add(raw, Num(i)) == Head(current) + Run(RunStart(current), i)
  {
    var r := Run(RunStart(current), i - 1);
    if r == [] {
      assert raw[|raw| - 1] == Head(current)[|Head(current)| - 1];
    } else {
      assert raw[|raw| - 1] == r[|r| - 1];
    }
    assert Run(RunStart(current), i) == r + [Num(i)];
  }

  /** The pushes of `buildButtons`, through `add`. */
  method PushButtons(current: int) returns (raw: seq<Button>)
    ensures raw == Layout(current)
  {
    raw := [];
    raw := Add(raw, Num(1));
    raw := Add(raw, Num(2));
    if current > 5 {
      raw := Add(raw, Gap);
    }
    HeadPushes(current);
    var start := Max(3, current - 2);
    var end := Min(TotalPages - 2, current + 2);
    assert start == RunStart(current) && end == RunEnd(current);
    var i := start;
    while i <= end
      invariant start <= i <= Max(start, end + 1)
      invariant raw == Head(current) + Run(start, i - 1)
    {
      RunStep(current, i, raw);
      raw := Add(raw, Num(i));
      i := i + 1;
    }
    assert Run(start, i - 1) == Run(start, end);
    if current < TotalPages - 4 {
      raw := Add(raw, Gap);
    }
    raw := Add(raw, Num(TotalPages - 1));
    raw := Add(raw, Num(TotalPages));
    TailPushes(current);
  }

  /** The filter loop, with its `seenNum` set. */
  method DropRepeats(raw: seq<Button>) returns (buttons: seq<Button>)
    ensures buttons == KeepNew(raw, {})
  {
    var seen: set<int> := {};
    buttons := [];
    var k := 0;
    while k < |raw|
      invariant 0 <= k <= |raw|
      invariant buttons + KeepNew(raw[k..], seen) == KeepNew(raw, {})
    {
      var b := raw[k];
      assert raw[k..][1..] == raw[k + 1..];
      if b.Num? && (b.n < 1 || b.n > TotalPages) {
      } else if b.Num? && b.n in seen {
      } else {
        if b.Num? {
          seen := seen + {b.n};
        }
        buttons := buttons + [b];
      }
      k := k + 1;
    }
    assert raw[k..] == [];
  }

  /**
   * `buildButtons(currentHuman)`: the pushes, then the filter, which never
   * drops anything from them, so the bar is the layout above.
   */
  method BuildButtons(current: int) returns (buttons: seq<Button>)
    ensures buttons == Layout(current)
  {
    var raw := PushButtons(current);
    buttons := DropRepeats(raw);
    LayoutOrdered(current);
    KeepNewKeepsOrdered(raw, {});
  }

  /** The bar starts with pages 1, 2 and ends with pages 149, 150. */
  lemma BarEnds(current: int)
    ensures Layout(current)[..2] == [Num(1), Num(2)]
    ensures Layout(current)[|Layout(current)| - 2..] == [Num(TotalPages - 1), Num(TotalPages)]
  {
  }

  /** The leading ellipsis shows exactly when the page is past 5, the trailing one exactly when it is before 146. */
  lemma {:induction false} BarGaps(current: int)
    requires 1 <= current <= TotalPages
    ensures Layout(current)[2] == Gap <==> current > 5
    ensures Layout(current)[|Layout(current)| - 3] == Gap <==> current < TotalPages - 4
    ensures forall i :: 0 <= i < |Layout(current)| && Layout(current)[i] == Gap ==>
              i == 2 || i == |Layout(current)| - 3
  {
    var h, r, t := Head(current), Run(RunStart(current), RunEnd(current)), Tail(current);
    var l := Layout(current);
    assert l == h + (r + t);
    if current <= 5 {
      assert l[2] == (r + t)[0];
    }
    assert l[|l| - 3] == (h + r + t)[|h| + |r| + |t| - 3];
    if current >= TotalPages - 4 {
      assert l[|l| - 3] == (h + r)[|h| + |r| - 1];
    }
    assert forall i :: |h| <= i < |h| + |r| ==> l[i] == r[i - |h|];
    forall i | 0 <= i < |l| && l[i] == Gap
      ensures i == 2 || i == |l| - 3
    {
      if i < |h| {
        assert l[i] == h[i];
      } else if i >= |h| + |r| {
        assert l[i] == t[i - |h| - |r|];
      }
    }
  }

  /** Every page from 1 to 150 finds itself on its own bar. */
  lemma {:induction false} BarShowsCurrent(current: int)
    requires 1 <= current <= TotalPages
    ensures Num(current) in Layout(current)
  {
    var h, r, t := Head(current), Run(RunStart(current), RunEnd(current)), Tail(current);
    if current <= 2 {
      assert Layout(current)[current - 1] == Num(current);
    } else if current >= TotalPages - 1 {
      assert Layout(current)[|Layout(current)| - 1 - (TotalPages - current)] == Num(current);
    } else {
      assert r[current - RunStart(current)] == Num(current);
      assert Layout(current)[|h| + current - RunStart(current)] == Num(current);
    }
  }

  /** The pager: the current 0-based page and the folder's pages. */
  class Pager {
    var current: int
    var pages: seq<seq<string>>

    ghost predicate Valid()
      reads this
    {
      WellFormed(pages) && 0 <= current < TotalPages
    }

    /** Mounting, or switching to another folder: the stored folder, from its first page. */
    constructor(stored: Option<seq<Option<seq<Option<string>>>>>)
      ensures pages == LoadFolder(stored) && current == 0 && Valid()
    {
      pages := LoadFolder(stored);
      current := 0;
    }

    /** The effect of a new `folderId`: reload and go to the first page. */
    method SwitchFolder(stored: Option<seq<Option<seq<Option<string>>>>>)
      modifies this
      ensures pages == LoadFolder(stored) && current == 0 && Valid()
    {
      pages := LoadFolder(stored);
      current := 0;
    }

    predicate CanPrev()
      reads this
    {
      current > 0
    }

    predicate CanNext()
      reads this
    {
      current < TotalPages - 1
    }

    /** The Prev button: one page back when there is one. */
    method Prev()
      requires Valid()
      modifies this`current
      ensures current == (if old(CanPrev()) then old(current) - 1 else old(current))
      ensures Valid()
    {
      if CanPrev() {
        current := current - 1;
      }
    }

    /** The Next button: one page on when there is one. */
    method Next()
      requires Valid()
      modifies this`current
      ensures current == (if old(CanNext()) then old(current) + 1 else old(current))
      ensures Valid()
    {
      if CanNext() {
        current := current + 1;
      }
    }

    /** The page bar of the current page. */
    method Buttons() returns (bar: seq<Button>)
      ensures bar == Layout(current + 1)
    {
      bar := BuildButtons(current + 1);
    }

    /** A click on a numbered button of the bar opens that page. */
    method Jump(b: Button)
      requires Valid() && b in Layout(current + 1) && b.Num?
      modifies this`current
      ensures current == b.n - 1 && Valid()
    {
      LayoutOrdered(old(current) + 1);
      current := b.n - 1;
    }

    /** Typing into area `area` of the current page; every other area of every page is kept. */
    method UpdateArea(area: int, value: string)
      requires Valid() && 0 <= area < AreasPerPage
      modifies this`pages
      ensures pages == old(pages)[current := old(pages)[current][area := value]]
      ensures forall i, a :: 0 <= i < TotalPages && 0 <= a < AreasPerPage ==>
                pages[i][a] == (if i == current && a == area then value else old(pages)[i][a])
      ensures Valid()
    {
      var next := pages;
      var cur := next[current];
      cur := cur[area := value];
      next := next[current := cur];
      pages := next;
    }
  }
}
