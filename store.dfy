/**
 * The document store behind the API routes: the `projects`,
 * `projectMemberships`, `projectStates` and `comments` collections, and the
 * signed-in user a request carries. Each collection is a field of one
 * `Database` object that the route methods read and update.
 */
module Store {
  import opened Wrappers
  import opened Shapes
  import opened Comments

  /** The session user: `uid` and the optional `displayName`. */
  datatype User = User(uid: string, displayName: Option<string>)

  /**
   * A document of `projects`. Creation always writes a folder and tags; a
   * document without them (`None`) reads as folder 'General' and no tags.
   */
  datatype ProjectDoc = ProjectDoc(name: string, ownerId: string, folder: Option<string>, tags: Option<seq<string>>)

  /** A project as the listing returns it: `{ id: doc.id, ...doc.data() }`. */
  datatype ProjectEntry = ProjectEntry(id: string, doc: ProjectDoc)

  /**
   * The JSON body of a POST or PATCH to `/api/projects`. A field is `None`
   * when it is absent or of another type than the one shown (a string for
   * `id`, `name` and `folder`, an array for `tags`).
   */
  datatype ProjectBody = ProjectBody(id: Option<string>, name: Option<string>, folder: Option<string>, tags: Option<seq<string>>)

  /** A document of `projectMemberships`. */
  datatype Membership = Membership(userId: string, projectId: string, role: string)

  /**
   * The key of a `projectStates` document: `${projectId}__${page}` for a
   * page, or the bare project id of the legacy single-page record (which
   * project creation also writes).
   */
  datatype DocId = PageDoc(projectId: string, page: real) | LegacyDoc(projectId: string)

  /**
   * A document of `projectStates`: the version, the shapes of its `data`
   * (`None` when the writer sent no data) and the uid of the last writer.
   */
  datatype StateDoc = StateDoc(version: int, shapes: Option<seq<Shape>>, updatedBy: Option<string>)

  /** An error answer: the HTTP status and the `error` message. */
  datatype Failure = Failure(status: int, error: string)

  /** `${projectId}_${uid}`: the deterministic id of a membership document. */
  function MembershipId(projectId: string, uid: string): (id: string)
    ensures |id| == |projectId| + 1 + |uid| && id[..|projectId|] == projectId && id[|projectId|] == '_'
  {
    projectId + "_" + uid
  }

  /**
   * `requireMember(projectId)`: no session is a 401; a session without the
   * membership document `${projectId}_${uid}` is a 403; otherwise the user.
   */
  function RequireMember(session: Option<User>, memberships: map<string, Membership>, projectId: string)
    : (r: Result<User>)
    ensures session.None? <==> r == Fail(Failure(401, "Authentication required"))
    ensures r.Ok? <==> session.Some? && MembershipId(projectId, session.value.uid) in memberships
    ensures r.Ok? ==> r.value == session.value
    ensures r.Fail? && session.Some? ==> r.failure == Failure(403, "Forbidden")
  {
    match session
    case None => Fail(Failure(401, "Authentication required"))
    case Some(user) =>
      if MembershipId(projectId, user.uid) in memberships then Ok(user) else Fail(Failure(403, "Forbidden"))
  }

  /** `requireUser()`: a session, or a 401. */
  function RequireUser(session: Option<User>): (r: Result<User>)
    ensures r.Ok? <==> session.Some?
    ensures r.Ok? ==> r.value == session.value
    ensures r.Fail? ==> r.failure == Failure(401, "Authentication required")
  {
    match session
    case None => Fail(Failure(401, "Authentication required"))
    case Some(user) => Ok(user)
  }

  /** A route step that either produced a value or ended the request with an error answer. */
  datatype Result<T> = Ok(value: T) | Fail(failure: Failure)

  /** The four collections. Document ids generated by the store come in as parameters. */
  class Database {
    var projects: map<string, ProjectDoc>
    var memberships: map<string, Membership>
    var states: map<DocId, StateDoc>
    var comments: seq<CommentDoc>

    /** An empty store. */
    constructor()
      ensures projects == map[] && memberships == map[] && states == map[] && comments == []
    {
      projects := map[];
      memberships := map[];
      states := map[];
      comments := [];
    }
  }
}
