/**
 * `app/dashboard/page.tsx`: the project list of the signed-in user. The
 * page turns its text inputs into requests to `/api/projects` (guarding
 * blank names on the client) and derives its folder and tag filters from
 * the listed projects.
 */
module Dashboard {
  import opened Wrappers
  import opened Strings
  import opened Collections
  import opened Store
  import opened ProjectsRoute

  /** The tag text of one comma-separated piece, as `saveEdits` keeps it. */
  function Pieces(input: string): (r: seq<string>)
    ensures |r| == |Split(input, ',')| && forall i :: 0 <= i < |r| ==> r[i] == Trim(Split(input, ',')[i])
  {
    var parts := Split(input, ',');
    seq(|parts|, i requires 0 <= i < |parts| => Trim(parts[i]))
  }

  /** `editTags.split(',').map(t => t.trim()).filter(Boolean).slice(0, 6)`. */
  function ParseTags(input: string): seq<string> {
    Take(Filter(Pieces(input), (t: string) => t != ""), MaxTags)
  }

  /** A trimmed piece of a comma-free string is itself trimmed and comma-free. */
  lemma {:induction false} TrimmedPieceClean(part: string)
    requires ',' !in part
    ensures Trim(Trim(part)) == Trim(part) && ',' !in Trim(part)
  {
    TrimIdempotent(part);
    var a, b := TrimAt(part);
    forall k | 0 <= k < |Trim(part)|
      ensures Trim(part)[k] != ','
    {
      assert Trim(part)[k] == part[a + k];
    }
  }

  /** Every piece is trimmed and holds no comma. */
  lemma {:induction false} PiecesClean(input: string)
    ensures forall t :: t in Pieces(input) ==> Trim(t) == t && ',' !in t
  {
    SplitJoin(input, ',');
    var parts := Split(input, ',');
    forall i | 0 <= i < |parts|
      ensures Trim(Trim(parts[i])) == Trim(parts[i]) && ',' !in Trim(parts[i])
    {
      TrimmedPieceClean(parts[i]);
    }
  }

  /**
   * Parsed tags are at most six non-empty, already trimmed pieces without a
   * comma, each the trimmed text of a piece of the input; when there are no
   * more than six such pieces, all of them are kept.
   */
  lemma {:induction false} ParseTagsSpec(input: string)
    ensures var tags := ParseTags(input);
            && |tags| <= MaxTags
            && (forall t :: t in tags ==> t != "" && Trim(t) == t && ',' !in t && t in Pieces(input))
            && (|Filter(Pieces(input), (t: string) => t != "")| <= MaxTags ==>
                  forall i :: 0 <= i < |Split(input, ',')| && !IsBlank(Split(input, ',')[i]) ==> Trim(Split(input, ',')[i]) in tags)
  {
    var pieces := Pieces(input);
    var kept := Filter(pieces, (t: string) => t != "");
    FilterMembers(pieces, (t: string) => t != "");
    PiecesClean(input);
    var tags := ParseTags(input);
    assert forall t :: t in tags ==> t in kept;
  }

  /** A single tag with no comma parses to its trimmed text. */
  lemma OneTag(input: string)
    requires ',' !in input && !IsBlank(input)
    ensures ParseTags(input) == [Trim(input)]
  {
    SplitNoSeparator(input);
    assert Pieces(input) == [Trim(input)];
    assert Filter(Pieces(input)[1..], (t: string) => t != "") == [];
  }

  lemma {:induction false} SplitNoSeparator(s: string)
    requires ',' !in s
    ensures Split(s, ',') == [s]
    decreases |s|
  {
    if s != [] {
      SplitNoSeparator(s[1..]);
      assert [s[0]] + s[1..] == s;
    }
  }

  /** `p.folder || 'General'`: the folder a project is listed under. */
  function FolderOf(p: ProjectEntry): (f: string)
    ensures f != ""
    ensures p.doc.folder.Some? && p.doc.folder.value != "" ==> f == p.doc.folder.value
  {
    OrDefault(p.doc.folder, DefaultFolder)
  }

  /** `p.tags || []`. */
  function TagsOf(p: ProjectEntry): seq<string> {
    if p.doc.tags.Some? then p.doc.tags.value else []
  }

  /** `Array.from(new Set(projects.map(p => p.folder || 'General')))`. */
  function AllFolders(projects: seq<ProjectEntry>): seq<string> {
    Dedupe(seq(|projects|, i requires 0 <= i < |projects| => FolderOf(projects[i])))
  }

  /** `Array.from(new Set(projects.flatMap(p => p.tags || [])))`. */
  function AllTags(projects: seq<ProjectEntry>): seq<string> {
    Dedupe(FlatTags(projects))
  }

  function FlatTags(projects: seq<ProjectEntry>): (r: seq<string>)
    ensures forall t :: t in r <==> exists i :: 0 <= i < |projects| && t in TagsOf(projects[i])
    decreases |projects|
  {
    if projects == [] then []
    else
      var rest := FlatTags(projects[1..]);
      assert forall i :: 1 <= i < |projects| ==> projects[i] == projects[1..][i - 1];
      assert forall i :: 0 <= i < |projects[1..]| ==> projects[1..][i] == projects[i + 1];
      TagsOf(projects[0]) + rest
  }

  /** The folder choices hold every listed folder once; the tag buttons every tag once. */
  lemma FiltersSpec(projects: seq<ProjectEntry>)
    ensures NoDuplicates(AllFolders(projects)) && NoDuplicates(AllTags(projects))
    ensures forall f :: f in AllFolders(projects) <==> exists i :: 0 <= i < |projects| && FolderOf(projects[i]) == f
    ensures forall t :: t in AllTags(projects) <==> exists i :: 0 <= i < |projects| && t in TagsOf(projects[i])
    ensures DefaultFolder !in AllFolders(projects) ==> forall i :: 0 <= i < |projects| ==> projects[i].doc.folder.Some? && projects[i].doc.folder.value != ""
  {
    var fs := seq(|projects|, i requires 0 <= i < |projects| => FolderOf(projects[i]));
    DedupeSpec(fs);
    DedupeSpec(FlatTags(projects));
    assert forall i :: 0 <= i < |projects| ==> fs[i] == FolderOf(projects[i]);
  }

  /** A project passes the folder and tag filters. */
  predicate Shown(p: ProjectEntry, folder: string, tag: string) {
    (folder == "All" || FolderOf(p) == folder) && (tag == "" || tag in TagsOf(p))
  }

  /** `filtered`. */
  function Filtered(projects: seq<ProjectEntry>, folder: string, tag: string): seq<ProjectEntry> {
    Filter(projects, (p: ProjectEntry) => Shown(p, folder, tag))
  }

  /**
   * The filters keep exactly the projects in the folder that carry the tag,
   * in list order; with folder 'All' and no tag they keep every project.
   */
  lemma {:induction false} FilteredSpec(projects: seq<ProjectEntry>, folder: string, tag: string)
    ensures forall p :: p in Filtered(projects, folder, tag) <==> p in projects && Shown(p, folder, tag)
    ensures folder == "All" && tag == "" ==> Filtered(projects, folder, tag) == projects
    decreases |projects|
  {
    FilterMembers(projects, (p: ProjectEntry) => Shown(p, folder, tag));
    if folder == "All" && tag == "" && projects != [] {
      FilteredSpec(projects[1..], folder, tag);
      assert projects == [projects[0]] + projects[1..];
    }
  }

  /** What the Create button does: an error without any request, or a POST of the trimmed name. */
  datatype CreateAction = CreateRefused(error: string) | PostName(body: ProjectBody)

  /** `createProject`. */
  function CreateClick(name: string): (a: CreateAction)
    ensures a.CreateRefused? <==> IsBlank(name)
    ensures a.CreateRefused? ==> a.error == "Project name is required"
    ensures a.PostName? ==> a.body == ProjectBody(None, Some(Trim(name)), None, None)
  {
    if IsBlank(name) then CreateRefused("Project name is required") else PostName(ProjectBody(None, Some(Trim(name)), None, None))
  }

  /** `saveEdits(id)`: the PATCH body, with an empty folder sent as 'General' and the parsed tags. */
  function EditBody(id: string, editFolder: string, editTags: string): (b: ProjectBody)
    ensures b.id == Some(id) && b.name.None? && b.folder.Some? && b.folder.value != "" && b.tags == Some(ParseTags(editTags))
    ensures editFolder != "" ==> b.folder == Some(editFolder)
  {
    ProjectBody(Some(id), None, Some(OrDefault(Some(editFolder), DefaultFolder)), Some(ParseTags(editTags)))
  }

  /** `saveRename(id)`: no request for a blank name, else a PATCH of the trimmed name. */
  function RenameBody(id: string, renameValue: string): (b: Option<ProjectBody>)
    ensures b.None? <==> IsBlank(renameValue)
    ensures b.Some? ==> b.value == ProjectBody(Some(id), Some(Trim(renameValue)), None, None)
  {
    if IsBlank(renameValue) then None else Some(ProjectBody(Some(id), Some(Trim(renameValue)), None, None))
  }

  /**
   * A created project is listed under its trimmed name, even though the
   * route would accept any name: the client never posts a blank one.
   */
  lemma {:induction false} CreatedNameNotBlank(name: string, user: User)
    requires CreateClick(name).PostName?
    ensures var doc := NewProject(CreateClick(name).body, user);
            doc.name == Trim(name) && !IsBlank(doc.name) && doc.folder == Some(DefaultFolder) && doc.tags == Some([])
  {
    TrimIdempotent(name);
  }

  /**
   * Saving an edit and listing the project again shows the folder that was
   * typed ('General' for none) and exactly the parsed tags; the name is
   * kept.
   */
  lemma {:induction false} EditRoundTrip(doc: ProjectDoc, id: string, editFolder: string, editTags: string)
    ensures var b := EditBody(id, editFolder, editTags);
            var u := Updates(b.name, b.folder, Some(Take(b.tags.value, MaxTags)));
            var after := ProjectEntry(id, Updated(doc, u));
            && FolderOf(after) == (if editFolder == "" then DefaultFolder else editFolder)
            && TagsOf(after) == ParseTags(editTags)
            && after.doc.name == doc.name
  {
    ParseTagsSpec(editTags);
  }

  /** A rename that is sent lists the project under the trimmed, non-blank name. */
  lemma {:induction false} RenameRoundTrip(doc: ProjectDoc, id: string, renameValue: string)
    requires RenameBody(id, renameValue).Some?
    ensures var b := RenameBody(id, renameValue).value;
            var after := Updated(doc, Updates(b.name, b.folder, None));
            && after.name == Trim(renameValue) && !IsBlank(after.name)
            && after.folder == doc.folder && after.tags == doc.tags
  {
    TrimIdempotent(renameValue);
  }
}
