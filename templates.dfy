/**
 * `lib/templates.ts`: the board templates. Each known slug has a title and
 * a list of starter shapes, all rectangles or 18-point white labels; the
 * column and lane templates build their shapes in a loop, the others are
 * literal lists. The random ids come from `ids`: the k-th shape built gets
 * `ids(k)`.
 */
module Templates {
  import opened Wrappers
  import opened Collections
  import opened Shapes

  datatype TemplateInfo = TemplateInfo(slug: string, title: string, description: string)

  /** `TEMPLATE_LIST`. */
  const TemplateList: seq<TemplateInfo> := [
    TemplateInfo("brainstorm", "Brainstorming", "Sticky-notes style idea clusters"),
    TemplateInfo("flowchart", "Flowchart", "Simple process flow"),
    TemplateInfo("weekly-plan", "Weekly Planning", "Plan your week in columns"),
    TemplateInfo("kanban", "Kanban", "To Do / Doing / Done"),
    TemplateInfo("mind-map", "Mind Map", "Central idea with branches"),
    TemplateInfo("roadmap", "Roadmap", "Quarterly timeline lanes"),
    TemplateInfo("retrospective", "Retrospective", "Keep / Stop / Start"),
    TemplateInfo("sprint-plan", "Sprint Planning", "Scope your sprint"),
    TemplateInfo("journey", "User Journey", "Stages and touchpoints")
  ]

  const White: string := "#ffffff"
  const Cyan: string := "#91f2ff"
  const Amber: string := "#ffd18c"
  const Mint: string := "#b0ffa6"
  const Pink: string := "#ff9ecd"
  const LabelPoints: real := 18.0

  datatype Preset = Preset(title: string, shapes: seq<Shape>)

  /** `box(x, y, w, h, color)`. */
  function Box(id: Id, x: real, y: real, w: real, h: real, color: string): Shape {
    Rect(id, color, x, y, w, h)
  }

  /** `text(x, y, str)`: the labels always use the default colour. */
  function Label(id: Id, x: real, y: real, s: string): Shape {
    Text(id, White, x, y, s, LabelPoints)
  }

  /** `TEMPLATE_LIST.find((t) => t.slug === slug)`. */
  function Find(list: seq<TemplateInfo>, slug: string): (r: Option<TemplateInfo>)
    ensures r.Some? ==> r.value in list && r.value.slug == slug
    ensures r.None? ==> forall t :: t in list ==> t.slug != slug
    decreases |list|
  {
    if list == [] then None
    else if list[0].slug == slug then Some(list[0])
    else Find(list[1..], slug)
  }

  /** `find?.title || 'Board'`. */
  function TitleOf(slug: string): string {
    var found := Find(TemplateList, slug);
    if found.Some? && found.value.title != "" then found.value.title else "Board"
  }

  /**
   * Where one loop iteration puts its rectangle and its label: `x + i*dx`,
   * `y + i*dy` for both, the rectangle's colour from the palette (white when
   * there is none), and which of the two is pushed first.
   */
  datatype Lanes = Lanes(
    boxX: real, boxDX: real, boxY: real, boxDY: real, w: real, h: real,
    textX: real, textDX: real, textY: real, textDY: real,
    labelFirst: bool, palette: seq<string>)

  /** The two shapes of iteration `i`, with the ids `ids(base + 2i)` and `ids(base + 2i + 1)`. */
  function LanePair(l: Lanes, ids: nat -> Id, base: nat, i: nat, name: string): (r: seq<Shape>)
    ensures |r| == 2 && r[0].id == ids(base + 2 * i) && r[1].id == ids(base + 2 * i + 1)
  {
    var color := if l.palette == [] then White else l.palette[i % |l.palette|];
    var first := base + 2 * i;
    if l.labelFirst then
      [Label(ids(first), l.textX + i as real * l.textDX, l.textY + i as real * l.textDY, name),
       Box(ids(first + 1), l.boxX + i as real * l.boxDX, l.boxY + i as real * l.boxDY, l.w, l.h, color)]
    else
      [Box(ids(first), l.boxX + i as real * l.boxDX, l.boxY + i as real * l.boxDY, l.w, l.h, color),
       Label(ids(first + 1), l.textX + i as real * l.textDX, l.textY + i as real * l.textDY, name)]
  }

  /** What `names.forEach(...)` pushes, after `base` shapes already built. */
  function LaneShapes(l: Lanes, ids: nat -> Id, base: nat, names: seq<string>): (r: seq<Shape>)
    decreases |names|
  {
    if names == [] then []
    else LaneShapes(l, ids, base, names[..|names| - 1]) + LanePair(l, ids, base, |names| - 1, names[|names| - 1])
  }

  /** One more iteration pushes one more pair. */
  lemma LaneShapesSnoc(l: Lanes, ids: nat -> Id, base: nat, names: seq<string>, i: nat)
    requires i < |names|
    ensures LaneShapes(l, ids, base, names[..i + 1]) == LaneShapes(l, ids, base, names[..i]) + LanePair(l, ids, base, i, names[i])
  {
    assert names[..i + 1][..i] == names[..i];
  }

  /** Pushing the two shapes of iteration `i` extends the list to the lanes up to `i`. */
  lemma {:induction false} PushPair(heading: Shape, l: Lanes, ids: nat -> Id, names: seq<string>, i: nat)
    requires i < |names|
    ensures var pair := LanePair(l, ids, 1, i, names[i]);
            [heading] + LaneShapes(l, ids, 1, names[..i]) + [pair[0]] + [pair[1]] == [heading] + LaneShapes(l, ids, 1, names[..i + 1])
  {
    LaneShapesSnoc(l, ids, 1, names, i);
    var pair := LanePair(l, ids, 1, i, names[i]);
    assert [pair[0]] + [pair[1]] == pair;
  }

  /** The `forEach` loop of a lane template, pushing onto the list that holds the heading label. */
  method PushLanes(heading: Shape, l: Lanes, ids: nat -> Id, names: seq<string>) returns (shapes: seq<Shape>)
    ensures shapes == [heading] + LaneShapes(l, ids, 1, names)
  {
    shapes := [heading];
    var i := 0;
    while i < |names|
      invariant 0 <= i <= |names|
      invariant shapes == [heading] + LaneShapes(l, ids, 1, names[..i])
    {
      PushPair(heading, l, ids, names, i);
      var pair := LanePair(l, ids, 1, i, names[i]);
      shapes := shapes + [pair[0]];
      shapes := shapes + [pair[1]];
      i := i + 1;
    }
    assert names[..i] == names;
  }

  /** A lane template: its heading label (at `x`, 160), where its lanes go, and their names. */
  datatype LaneTemplate = LaneTemplate(heading: string, x: real, lanes: Lanes, names: seq<string>)

  predicate IsLaneTemplate(slug: string) {
    slug in {"weekly-plan", "kanban", "roadmap", "journey"}
  }

  function LaneTemplateOf(slug: string): LaneTemplate
    requires IsLaneTemplate(slug)
  {
    if slug == "weekly-plan" then
      LaneTemplate("Weekly Plan", 1100.0, Lanes(800.0, 180.0, 220.0, 0.0, 160.0, 520.0, 810.0, 180.0, 240.0, 0.0, false, [White]),
                   ["Mon", "Tue", "Wed", "Thu", "Fri", "Sat", "Sun"])
    else if slug == "kanban" then
      LaneTemplate("Kanban", 1000.0, Lanes(900.0, 360.0, 220.0, 0.0, 320.0, 520.0, 920.0, 360.0, 240.0, 0.0, false, [White]),
                   ["To Do", "Doing", "Done"])
    else if slug == "roadmap" then
      LaneTemplate("Roadmap", 1120.0, Lanes(960.0, 0.0, 220.0, 140.0, 800.0, 60.0, 900.0, 0.0, 240.0, 140.0, true, [Cyan, Amber, Mint, Pink]),
                   ["Q1", "Q2", "Q3", "Q4"])
    else
      LaneTemplate("User Journey", 1080.0, Lanes(860.0, 320.0, 220.0, 0.0, 300.0, 520.0, 880.0, 320.0, 240.0, 0.0, false, [White]),
                   ["Awareness", "Consideration", "Decision", "Retention"])
  }

  /** The shapes of a lane template: the heading, then two shapes per lane. */
  function LaneBoard(t: LaneTemplate, f: nat -> Id): seq<Shape> {
    [Label(f(0), t.x, 160.0, t.heading)] + LaneShapes(t.lanes, f, 1, t.names)
  }

  /** The literal lists of the other templates. */
  function Literal(slug: string, f: nat -> Id): seq<Shape> {
    if slug == "brainstorm" then
      [Label(f(0), 1400.0, 200.0, "Brainstorm"),
       Box(f(1), 1200.0, 260.0, 200.0, 120.0, Cyan), Label(f(2), 1220.0, 330.0, "Idea 1"),
       Box(f(3), 1450.0, 420.0, 220.0, 120.0, Amber), Label(f(4), 1470.0, 490.0, "Idea 2"),
       Box(f(5), 1000.0, 540.0, 220.0, 120.0, Mint), Label(f(6), 1020.0, 610.0, "Idea 3")]
    else if slug == "flowchart" then
      [Label(f(0), 1200.0, 180.0, "Flowchart"),
       Box(f(1), 1160.0, 240.0, 220.0, 100.0, Cyan), Label(f(2), 1180.0, 300.0, "Start"),
       Box(f(3), 1160.0, 380.0, 220.0, 100.0, Amber), Label(f(4), 1180.0, 440.0, "Step 1"),
       Box(f(5), 1160.0, 520.0, 220.0, 100.0, Amber), Label(f(6), 1180.0, 580.0, "Step 2"),
       Box(f(7), 1160.0, 660.0, 220.0, 100.0, Mint), Label(f(8), 1180.0, 720.0, "End")]
    else if slug == "mind-map" then
      [Box(f(0), 1300.0, 400.0, 260.0, 120.0, Cyan), Label(f(1), 1340.0, 470.0, "Central Idea"),
       Box(f(2), 980.0, 260.0, 220.0, 100.0, Amber), Label(f(3), 1000.0, 320.0, "Branch A"),
       Box(f(4), 980.0, 600.0, 220.0, 100.0, Amber), Label(f(5), 1000.0, 660.0, "Branch B"),
       Box(f(6), 1650.0, 260.0, 220.0, 100.0, Amber), Label(f(7), 1670.0, 320.0, "Branch C"),
       Box(f(8), 1650.0, 600.0, 220.0, 100.0, Amber), Label(f(9), 1670.0, 660.0, "Branch D")]
    else if slug == "retrospective" then
      [Label(f(0), 1040.0, 160.0, "Retro"),
       Box(f(1), 900.0, 220.0, 360.0, 520.0, White), Label(f(2), 920.0, 240.0, "Keep"),
       Box(f(3), 1280.0, 220.0, 360.0, 520.0, White), Label(f(4), 1300.0, 240.0, "Stop"),
       Box(f(5), 1660.0, 220.0, 360.0, 520.0, White), Label(f(6), 1680.0, 240.0, "Start")]
    else if slug == "sprint-plan" then
      [Label(f(0), 1040.0, 160.0, "Sprint Planning"),
       Box(f(1), 880.0, 220.0, 520.0, 240.0, Cyan), Label(f(2), 900.0, 240.0, "Backlog"),
       Box(f(3), 880.0, 480.0, 520.0, 260.0, Amber), Label(f(4), 900.0, 500.0, "Scope"),
       Box(f(5), 1420.0, 220.0, 520.0, 520.0, Mint), Label(f(6), 1440.0, 240.0, "Tasks")]
    else []
  }

  predicate IsLiteral(slug: string) {
    slug in {"brainstorm", "flowchart", "mind-map", "retrospective", "sprint-plan"}
  }

  /** `getTemplatePreset(slug)`, as a value: `None` for an unknown slug. */
  function PresetOf(slug: string, f: nat -> Id): Option<Preset> {
    if IsLiteral(slug) then Some(Preset(TitleOf(slug), Literal(slug, f)))
    else if IsLaneTemplate(slug) then Some(Preset(TitleOf(slug), LaneBoard(LaneTemplateOf(slug), f)))
    else None
  }

  /** `getTemplatePreset(slug)`: the literal templates directly, the lane templates through their loop. */
  method GetTemplatePreset(slug: string, f: nat -> Id) returns (p: Option<Preset>)
    ensures p == PresetOf(slug, f)
  {
    var title := TitleOf(slug);
    if IsLiteral(slug) {
      return Some(Preset(title, Literal(slug, f)));
    }
    if !IsLaneTemplate(slug) {
      return None;
    }
    var t := LaneTemplateOf(slug);
    var shapes := PushLanes(Label(f(0), t.x, 160.0, t.heading), t.lanes, f, t.names);
    p := Some(Preset(title, shapes));
  }

  /** A starter shape: a rectangle, or a white 18-point label. */
  predicate Starter(s: Shape) {
    s.Rect? || (s.Text? && s.fontSize == LabelPoints && s.color == White)
  }

  /** A lane loop pushes two starter shapes per name, with the ids in build order. */
  lemma {:induction false} LaneShapesSpec(l: Lanes, f: nat -> Id, base: nat, names: seq<string>)
    ensures |LaneShapes(l, f, base, names)| == 2 * |names|
    ensures forall k :: 0 <= k < |LaneShapes(l, f, base, names)| ==>
              Starter(LaneShapes(l, f, base, names)[k]) && LaneShapes(l, f, base, names)[k].id == f(base + k)
    decreases |names|
  {
    if names != [] {
      var init := names[..|names| - 1];
      LaneShapesSpec(l, f, base, init);
      var front := LaneShapes(l, f, base, init);
      var pair := LanePair(l, f, base, |names| - 1, names[|names| - 1]);
      assert forall k :: 0 <= k < |front| ==> (front + pair)[k] == front[k];
      assert forall k :: |front| <= k < |front| + 2 ==> (front + pair)[k] == pair[k - |front|];
    }
  }

  /** A lane board is its heading and two shapes per lane, all starter shapes with ids in build order. */
  lemma {:induction false} LaneBoardSpec(t: LaneTemplate, f: nat -> Id)
    ensures |LaneBoard(t, f)| == 1 + 2 * |t.names|
    ensures forall k :: 0 <= k < |LaneBoard(t, f)| ==> Starter(LaneBoard(t, f)[k]) && LaneBoard(t, f)[k].id == f(k)
  {
    LaneShapesSpec(t.lanes, f, 1, t.names);
    var rest := LaneShapes(t.lanes, f, 1, t.names);
    var board := [Label(f(0), t.x, 160.0, t.heading)] + rest;
    assert board == LaneBoard(t, f);
    forall k | 0 <= k < |board|
      ensures Starter(board[k]) && board[k].id == f(k)
    {
      if k > 0 {
        assert board[k] == rest[k - 1];
      }
    }
  }

  /** The literal templates are made of starter shapes with ids in build order. */
  lemma LiteralSpec(slug: string, f: nat -> Id)
    requires IsLiteral(slug)
    ensures forall k :: 0 <= k < |Literal(slug, f)| ==> Starter(Literal(slug, f)[k]) && Literal(slug, f)[k].id == f(k)
  {
  }

  /** The list has nine templates and no two share a slug. */
  lemma ListSpec()
    ensures |TemplateList| == 9
    ensures forall i, j :: 0 <= i < j < |TemplateList| ==> TemplateList[i].slug != TemplateList[j].slug
    ensures forall i :: 0 <= i < |TemplateList| ==> TemplateList[i].title != ""
  {
  }

  /** Exactly the listed slugs have a preset. */
  lemma {:induction false} KnownSlugs(slug: string)
    ensures IsLiteral(slug) || IsLaneTemplate(slug) <==> exists i :: 0 <= i < |TemplateList| && TemplateList[i].slug == slug
  {
    if IsLiteral(slug) || IsLaneTemplate(slug) {
      var i := if slug == "brainstorm" then 0 else if slug == "flowchart" then 1 else if slug == "weekly-plan" then 2
               else if slug == "kanban" then 3 else if slug == "mind-map" then 4 else if slug == "roadmap" then 5
               else if slug == "retrospective" then 6 else if slug == "sprint-plan" then 7 else 8;
      assert TemplateList[i].slug == slug;
    }
  }

  /** A slug has no preset exactly when it is not listed. */
  lemma {:induction false} UnknownSlug(slug: string, f: nat -> Id)
    ensures PresetOf(slug, f).None? <==> forall i :: 0 <= i < |TemplateList| ==> TemplateList[i].slug != slug
  {
    KnownSlugs(slug);
  }

  /** With distinct slugs, `find` returns the listed entry of a listed slug. */
  lemma {:induction false} FindListed(list: seq<TemplateInfo>, i: nat)
    requires i < |list|
    requires forall a, b :: 0 <= a < b < |list| ==> list[a].slug != list[b].slug
    ensures Find(list, list[i].slug) == Some(list[i])
    decreases |list|
  {
    if i > 0 {
      assert list[1..][i - 1] == list[i];
      FindListed(list[1..], i - 1);
    }
  }

  /** A slug with a case has a preset made of starter shapes with ids in build order. */
  lemma {:induction false} KnownPreset(slug: string, f: nat -> Id)
    requires IsLiteral(slug) || IsLaneTemplate(slug)
    ensures PresetOf(slug, f).Some? && PresetOf(slug, f).value.title == TitleOf(slug)
    ensures forall k :: 0 <= k < |PresetOf(slug, f).value.shapes| ==>
              Starter(PresetOf(slug, f).value.shapes[k]) && PresetOf(slug, f).value.shapes[k].id == f(k)
  {
    if IsLiteral(slug) {
      LiteralSpec(slug, f);
    } else {
      LaneBoardSpec(LaneTemplateOf(slug), f);
    }
  }

  /** Every listed template has a preset titled as listed, made of starter shapes with ids in build order. */
  lemma {:induction false} ListedPreset(i: nat, f: nat -> Id)
    requires i < |TemplateList|
    ensures var slug := TemplateList[i].slug;
            && PresetOf(slug, f).Some?
            && PresetOf(slug, f).value.title == TemplateList[i].title
            && forall k :: 0 <= k < |PresetOf(slug, f).value.shapes| ==>
                 Starter(PresetOf(slug, f).value.shapes[k]) && PresetOf(slug, f).value.shapes[k].id == f(k)
  {
    var slug := TemplateList[i].slug;
    ListSpec();
    FindListed(TemplateList, i);
    assert TitleOf(slug) == TemplateList[i].title;
    KnownSlugs(slug);
    KnownPreset(slug, f);
  }

  /** The shape counts of the presets. */
  lemma {:induction false} PresetSizes(f: nat -> Id)
    ensures |Literal("brainstorm", f)| == 7 && |Literal("flowchart", f)| == 9 && |Literal("mind-map", f)| == 10
    ensures |Literal("retrospective", f)| == 7 && |Literal("sprint-plan", f)| == 7
    ensures |LaneBoard(LaneTemplateOf("weekly-plan"), f)| == 15 && |LaneBoard(LaneTemplateOf("kanban"), f)| == 7
    ensures |LaneBoard(LaneTemplateOf("roadmap"), f)| == 9 && |LaneBoard(LaneTemplateOf("journey"), f)| == 9
  {
    LaneBoardSpec(LaneTemplateOf("weekly-plan"), f);
    LaneBoardSpec(LaneTemplateOf("kanban"), f);
    LaneBoardSpec(LaneTemplateOf("roadmap"), f);
    LaneBoardSpec(LaneTemplateOf("journey"), f);
  }

  /** With a generator that never repeats, the shapes of a preset have pairwise distinct ids. */
  lemma {:induction false} PresetIdsDistinct(i: nat, f: nat -> Id)
    requires i < |TemplateList|
    requires forall a: nat, b: nat :: a != b ==> f(a) != f(b)
    ensures NoDuplicates(Ids(PresetOf(TemplateList[i].slug, f).value.shapes))
  {
    ListedPreset(i, f);
  }
}
