/**
 * `app/api/projects/route.ts`: listing, creating, deleting and editing the
 * projects of the signed-in user. Every method first requires a session
 * (401); deletion and editing are for the owner only.
 */
module ProjectsRoute {
  import opened Wrappers
  import opened Collections
  import opened Store
  import opened StateRoute

  const MaxTags: nat := 6
  /** The `limit(200)` of the membership query of DELETE. */
  const MembershipBatch: nat := 200
  const DefaultName: string := "Untitled Project"
  const DefaultFolder: string := "General"

  /** `xs.slice(0, n)`. */
  function Take<T>(xs: seq<T>, n: nat): (r: seq<T>)
    ensures |r| <= n && |r| <= |xs| && r == xs[..|r|]
    ensures |xs| <= n ==> r == xs
  {
    if |xs| <= n then xs else xs[..n]
  }

  /** `value || fallback` for an optional string. */
  function OrDefault(value: Option<string>, fallback: string): (r: string)
    ensures value.Some? && value.value != "" ==> r == value.value
    ensures value.None? || value.value == "" ==> r == fallback
  {
    if value.Some? && value.value != "" then value.value else fallback
  }

  /**
   * The list of GET: the distinct project ids of the user's memberships, in
   * the order the query returns them, each with its project document when it
   * still exists.
   */
  function Listing(mine: seq<Membership>, projects: map<string, ProjectDoc>): seq<ProjectEntry> {
    Present(Dedupe(seq(|mine|, i requires 0 <= i < |mine| => mine[i].projectId)), projects)
  }

  /** `projects.filter(Boolean)` after fetching each id. */
  function Present(ids: seq<string>, projects: map<string, ProjectDoc>): (r: seq<ProjectEntry>)
    ensures forall e :: e in r ==> e.id in ids && e.id in projects && e.doc == projects[e.id]
    ensures forall id :: id in ids && id in projects ==> ProjectEntry(id, projects[id]) in r
    ensures NoDuplicates(ids) ==> forall i, j :: 0 <= i < j < |r| ==> r[i].id != r[j].id
    decreases |ids|
  {
    if ids == [] then []
    else
      var rest := Present(ids[1..], projects);
      if ids[0] in projects then [ProjectEntry(ids[0], projects[ids[0]])] + rest else rest
  }

  /**
   * Each project appears once, every listed project exists and comes from a
   * membership of the user, and every existing project the user is a member
   * of is listed.
   */
  lemma ListingSpec(mine: seq<Membership>, projects: map<string, ProjectDoc>)
    ensures var r := Listing(mine, projects);
            && (forall i, j :: 0 <= i < j < |r| ==> r[i].id != r[j].id)
            && (forall e :: e in r ==> e.id in projects && e.doc == projects[e.id] && exists m :: m in mine && m.projectId == e.id)
            && (forall m :: m in mine && m.projectId in projects ==> ProjectEntry(m.projectId, projects[m.projectId]) in r)
  {
    var pids := seq(|mine|, i requires 0 <= i < |mine| => mine[i].projectId);
    DedupeSpec(pids);
    var r := Listing(mine, projects);
    forall e | e in r
      ensures exists m :: m in mine && m.projectId == e.id
    {
      var i :| 0 <= i < |pids| && pids[i] == e.id;
      assert mine[i] in mine;
    }
    forall m | m in mine && m.projectId in projects
      ensures ProjectEntry(m.projectId, projects[m.projectId]) in r
    {
      var i :| 0 <= i < |mine| && mine[i] == m;
      assert pids[i] == m.projectId;
    }
  }

  datatype ListReply = ListDenied(failure: Failure) | Listed(projects: seq<ProjectEntry>)

  /**
   * GET. `mine` is the answer of the membership query: exactly the
   * memberships of the session user, in store order.
   */
  method List(db: Database, session: Option<User>, mine: seq<Membership>) returns (reply: ListReply)
    requires session.Some? ==> forall m :: m in mine <==> m in db.memberships.Values && m.userId == session.value.uid
    ensures session.None? ==> reply == ListDenied(Failure(401, "Authentication required"))
    ensures session.Some? ==> reply == Listed(Listing(mine, db.projects))
  {
    var access := RequireUser(session);
    if access.Fail? {
      return ListDenied(access.failure);
    }
    reply := Listed(Listing(mine, db.projects));
  }

  /** The project document POST writes for `user`. */
  function NewProject(body: ProjectBody, user: User): (doc: ProjectDoc)
    ensures doc.ownerId == user.uid && doc.name != "" && doc.folder.Some? && doc.folder.value != ""
    ensures doc.name == OrDefault(body.name, DefaultName) && doc.folder == Some(OrDefault(body.folder, DefaultFolder))
    ensures doc.tags == Some(if body.tags.Some? then Take(body.tags.value, MaxTags) else [])
    ensures |doc.tags.value| <= MaxTags
  {
    ProjectDoc(OrDefault(body.name, DefaultName), user.uid, Some(OrDefault(body.folder, DefaultFolder)),
               Some(if body.tags.Some? then Take(body.tags.value, MaxTags) else []))
  }

  datatype CreateReply = CreateDenied(failure: Failure) | Created(id: string)

  /**
   * POST: the project under the store's new id `newId`, an owner membership
   * under `${newId}_${uid}`, and an empty version-0 state under the bare
   * project id.
   */
  method Create(db: Database, session: Option<User>, body: ProjectBody, newId: string) returns (reply: CreateReply)
    modifies db`projects, db`memberships, db`states
    ensures session.None? ==> reply == CreateDenied(Failure(401, "Authentication required")) && unchanged(db)
    ensures session.Some? ==>
              && reply == Created(newId)
              && db.projects == old(db.projects)[newId := NewProject(body, session.value)]
              && db.memberships == old(db.memberships)[MembershipId(newId, session.value.uid) := Membership(session.value.uid, newId, "owner")]
              && db.states == old(db.states)[LegacyDoc(newId) := StateDoc(0, Some([]), None)]
              && db.comments == old(db.comments)
  {
    var access := RequireUser(session);
    if access.Fail? {
      return CreateDenied(access.failure);
    }
    var user := access.value;
    var name := OrDefault(body.name, DefaultName);
    var folder := OrDefault(body.folder, DefaultFolder);
    var tags := if body.tags.Some? then Take(body.tags.value, MaxTags) else [];
    db.projects := db.projects[newId := ProjectDoc(name, user.uid, Some(folder), Some(tags))];
    db.memberships := db.memberships[MembershipId(newId, user.uid) := Membership(user.uid, newId, "owner")];
    db.states := db.states[LegacyDoc(newId) := StateDoc(0, Some([]), None)];
    reply := Created(newId);
  }

  /**
   * The creator of a project is its member, passes the owner checks of
   * DELETE and PATCH, and reads page 0 of its board as the empty version-0
   * state.
   */
  lemma CreatorIsMember(user: User, projects: map<string, ProjectDoc>, memberships: map<string, Membership>,
                        states: map<DocId, StateDoc>, body: ProjectBody, newId: string)
    requires newId != "" && PageDoc(newId, 0.0) !in states
    ensures var ms := memberships[MembershipId(newId, user.uid) := Membership(user.uid, newId, "owner")];
            var ps := projects[newId := NewProject(body, user)];
            var ss := states[LegacyDoc(newId) := StateDoc(0, Some([]), None)];
            && RequireMember(Some(user), ms, newId) == Ok(user)
            && Guard(Some(user), Some(newId), ps) == Ok(newId)
            && Lookup(ss, newId, 0.0) == Found(LegacyDoc(newId), StateDoc(0, Some([]), None))
  {
  }

  /** The checks DELETE and PATCH share, in their order: session, id, existence, ownership. */
  function Guard(session: Option<User>, id: Option<string>, projects: map<string, ProjectDoc>): (r: Result<string>)
    ensures r.Ok? <==> session.Some? && id.Some? && id.value != "" && id.value in projects && projects[id.value].ownerId == session.value.uid
    ensures r.Ok? ==> r.value == id.value
    ensures session.None? ==> r == Fail(Failure(401, "Authentication required"))
    ensures session.Some? && (id.None? || id.value == "") ==> r == Fail(Failure(400, "Missing id"))
    ensures session.Some? && id.Some? && id.value != "" && id.value !in projects ==> r == Fail(Failure(404, "Not found"))
    ensures session.Some? && id.Some? && id.value != "" && id.value in projects && projects[id.value].ownerId != session.value.uid ==>
              r == Fail(Failure(403, "Forbidden"))
  {
    match RequireUser(session)
    case Fail(f) => Fail(f)
    case Ok(user) =>
      if id.None? || id.value == "" then Fail(Failure(400, "Missing id"))
      else if id.value !in projects then Fail(Failure(404, "Not found"))
      else if projects[id.value].ownerId != user.uid then Fail(Failure(403, "Forbidden"))
      else Ok(id.value)
  }

  /** The membership documents named by a query answer. */
  function KeySet(hits: seq<string>): (r: set<string>)
    ensures forall k :: k in r <==> k in hits
  {
    set k | k in hits
  }

  datatype DeleteReply = DeleteDenied(failure: Failure) | Deleted

  /**
   * The answer of the membership query of DELETE: distinct keys of
   * memberships of `id`, at most 200, and all of them when there are fewer.
   */
  ghost predicate MembershipPage(memberships: map<string, Membership>, id: string, hits: seq<string>) {
    && NoDuplicates(hits) && |hits| <= MembershipBatch
    && (forall k :: k in hits ==> k in memberships && memberships[k].projectId == id)
    && (|hits| < MembershipBatch ==> forall k :: k in memberships && memberships[k].projectId == id ==> k in hits)
  }

  /**
   * DELETE `?id=…`: after the guard, the project document, the state
   * document under the bare id, and the memberships the query returned
   * (`hits`) are deleted; nothing is deleted on an error.
   */
  method Delete(db: Database, session: Option<User>, id: Option<string>, hits: seq<string>) returns (reply: DeleteReply)
    requires id.Some? && id.value in db.projects ==> MembershipPage(db.memberships, id.value, hits)
    modifies db`projects, db`memberships, db`states
    ensures match Guard(session, id, old(db.projects))
            case Fail(f) => reply == DeleteDenied(f) && unchanged(db)
            case Ok(pid) =>
              && reply == Deleted
              && db.projects == old(db.projects) - {pid}
              && db.states == old(db.states) - {LegacyDoc(pid)}
              && db.memberships == old(db.memberships) - KeySet(hits)
              && (forall page :: PageDoc(pid, page) in old(db.states) ==> PageDoc(pid, page) in db.states)
  {
    var guard := Guard(session, id, db.projects);
    if guard.Fail? {
      return DeleteDenied(guard.failure);
    }
    var pid := guard.value;
    db.projects := db.projects - {pid};
    db.states := db.states - {LegacyDoc(pid)};
    var i := 0;
    while i < |hits|
      invariant 0 <= i <= |hits|
      invariant db.memberships == old(db.memberships) - KeySet(hits[..i])
      invariant db.projects == old(db.projects) - {pid} && db.states == old(db.states) - {LegacyDoc(pid)}
    {
      assert hits[..i + 1] == hits[..i] + [hits[i]];
      db.memberships := db.memberships - {hits[i]};
      i := i + 1;
    }
    assert hits[..i] == hits;
    reply := Deleted;
  }

  /**
   * After a delete of a project with fewer than 200 memberships, none of
   * its memberships is left, so nobody passes `requireMember` for it; every
   * membership of another project is kept.
   */
  lemma {:induction false} NoMemberAfterDelete(memberships: map<string, Membership>, id: string, hits: seq<string>, user: User)
    requires MembershipPage(memberships, id, hits) && |hits| < MembershipBatch
    requires memberships[MembershipId(id, user.uid) := Membership(user.uid, id, "owner")] == memberships
    ensures var left := memberships - KeySet(hits);
            && (forall k :: k in left ==> left[k].projectId != id)
            && (forall k :: k in memberships && memberships[k].projectId != id ==> k in left && left[k] == memberships[k])
            && RequireMember(Some(user), left, id).Fail?
  {
    var left := memberships - KeySet(hits);
    assert MembershipId(id, user.uid) in memberships && memberships[MembershipId(id, user.uid)].projectId == id;
    assert MembershipId(id, user.uid) !in left;
  }

  /** The fields PATCH sets; `None` leaves a field as it is. */
  datatype Updates = Updates(name: Option<string>, folder: Option<string>, tags: Option<seq<string>>)

  /** `update({ ...updates })` on a project document. */
  function Updated(doc: ProjectDoc, u: Updates): (r: ProjectDoc)
    ensures r.ownerId == doc.ownerId
    ensures r.name == (if u.name.Some? then u.name.value else doc.name)
    ensures r.folder == (if u.folder.Some? then u.folder else doc.folder)
    ensures r.tags == (if u.tags.Some? then u.tags else doc.tags)
  {
    ProjectDoc(if u.name.Some? then u.name.value else doc.name, doc.ownerId,
               if u.folder.Some? then u.folder else doc.folder,
               if u.tags.Some? then u.tags else doc.tags)
  }

  /** The conditional assignments that fill `updates`. */
  method BuildUpdates(body: ProjectBody) returns (u: Updates)
    ensures u.name == body.name && u.folder == body.folder
    ensures u.tags == (if body.tags.Some? then Some(Take(body.tags.value, MaxTags)) else None)
    ensures u.tags.Some? ==> |u.tags.value| <= MaxTags
  {
    u := Updates(None, None, None);
    if body.name.Some? {
      u := u.(name := body.name);
    }
    if body.folder.Some? {
      u := u.(folder := body.folder);
    }
    if body.tags.Some? {
      u := u.(tags := Some(Take(body.tags.value, MaxTags)));
    }
  }

  datatype PatchReply = PatchDenied(failure: Failure) | Patched

  /**
   * PATCH: after the guard, only the fields the body carries change, and
   * only on that one project; a failed guard changes nothing.
   */
  method Patch(db: Database, session: Option<User>, body: ProjectBody) returns (reply: PatchReply)
    modifies db`projects
    ensures match Guard(session, body.id, old(db.projects))
            case Fail(f) => reply == PatchDenied(f) && db.projects == old(db.projects)
            case Ok(pid) =>
              var u := Updates(body.name, body.folder, if body.tags.Some? then Some(Take(body.tags.value, MaxTags)) else None);
              reply == Patched && db.projects == old(db.projects)[pid := Updated(old(db.projects)[pid], u)]
  {
    var access := RequireUser(session);
    if access.Fail? {
      return PatchDenied(access.failure);
    }
    var id := body.id;
    if id.None? || id.value == "" {
      return PatchDenied(Failure(400, "Missing id"));
    }
    var u := BuildUpdates(body);
    if id.value !in db.projects {
      return PatchDenied(Failure(404, "Not found"));
    }
    if db.projects[id.value].ownerId != access.value.uid {
      return PatchDenied(Failure(403, "Forbidden"));
    }
    db.projects := db.projects[id.value := Updated(db.projects[id.value], u)];
    reply := Patched;
  }

  /** An edit with no fields changes nothing, and applying the same edit twice is applying it once. */
  lemma UpdatedIdempotent(doc: ProjectDoc, u: Updates)
    ensures Updated(doc, Updates(None, None, None)) == doc
    ensures Updated(Updated(doc, u), u) == Updated(doc, u)
  {
  }
}
