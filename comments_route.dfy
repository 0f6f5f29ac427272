/**
 * `app/api/comments/route.ts`: listing and creating the comments of a
 * project. Creation checks, in order, the project id, membership, the text
 * and, for a root pin, its coordinates; the stored document has a null
 * parent for roots and null coordinates for replies.
 */
module CommentsRoute {
  import opened Wrappers
  import opened Strings
  import opened Collections
  import opened Comments
  import opened Store

  /** The `limit(500)` of the listing query. */
  const ListLimit: nat := 500

  datatype ListReply = ListFailed(failure: Failure) | Listed(comments: seq<CommentDoc>)
  datatype CreateReply = CreateFailed(failure: Failure) | Created(id: string)

  /** `where('projectId', '==', projectId)`: the project's comments in store order. */
  function Matching(comments: seq<CommentDoc>, projectId: string): (r: seq<CommentDoc>)
    ensures forall c :: c in r <==> c in comments && c.projectId == projectId
  {
    var keep := (c: CommentDoc) => c.projectId == projectId;
    FilterMembers(comments, keep);
    Filter(comments, keep)
  }

  /**
   * The listing with `limit(500)`: the first 500 of the project's comments
   * in store order, and all of them when there are no more.
   */
  function OfProject(comments: seq<CommentDoc>, projectId: string): (r: seq<CommentDoc>)
    ensures |r| <= ListLimit && |r| <= |Matching(comments, projectId)| && r == Matching(comments, projectId)[..|r|]
    ensures forall c :: c in r ==> c in comments && c.projectId == projectId
    ensures |Matching(comments, projectId)| <= ListLimit ==> r == Matching(comments, projectId)
    ensures |Matching(comments, projectId)| >= ListLimit ==> |r| == ListLimit
  {
    var all := Matching(comments, projectId);
    if |all| <= ListLimit then all else all[..ListLimit]
  }

  /** GET `?projectId=…`: a missing id is a 400, then membership is required. */
  method List(db: Database, session: Option<User>, projectId: Option<string>) returns (reply: ListReply)
    ensures projectId.None? || projectId.value == "" ==> reply == ListFailed(Failure(400, "Missing projectId"))
    ensures projectId.Some? && projectId.value != "" ==>
              match RequireMember(session, db.memberships, projectId.value)
              case Fail(f) => reply == ListFailed(f)
              case Ok(_) => reply == Listed(OfProject(db.comments, projectId.value))
  {
    if projectId.None? || projectId.value == "" {
      return ListFailed(Failure(400, "Missing projectId"));
    }
    var access := RequireMember(session, db.memberships, projectId.value);
    if access.Fail? {
      return ListFailed(access.failure);
    }
    reply := Listed(OfProject(db.comments, projectId.value));
  }

  /** `!parentId`: no parent, or the empty string, makes a root pin. */
  predicate IsRoot(body: CommentBody) {
    body.parentId.None? || body.parentId.value == ""
  }

  /** `displayName || 'Anonymous'`. */
  function AuthorName(user: User): (name: string)
    ensures name != ""
    ensures user.displayName.Some? && user.displayName.value != "" ==> name == user.displayName.value
  {
    if user.displayName.Some? && user.displayName.value != "" then user.displayName.value else "Anonymous"
  }

  /**
   * The POST decision: the first failing check, or the document that is
   * added under the store's new id `newId`.
   */
  function Accept(session: Option<User>, memberships: map<string, Membership>, body: CommentBody, newId: string)
    : Result<CommentDoc>
  {
    if body.projectId.None? || body.projectId.value == "" then Fail(Failure(400, "Missing projectId"))
    else
      match RequireMember(session, memberships, body.projectId.value)
      case Fail(f) => Fail(f)
      case Ok(user) =>
        if body.text.None? || IsBlank(body.text.value) then Fail(Failure(400, "Missing text"))
        else if IsRoot(body) && (body.x.None? || body.y.None?) then Fail(Failure(400, "Missing coordinates for pin"))
        else
          Ok(CommentDoc(newId, body.projectId.value,
                        if IsRoot(body) then None else body.parentId,
                        body.text.value,
                        if IsRoot(body) then body.x else None,
                        if IsRoot(body) then body.y else None,
                        user.uid, Some(AuthorName(user))))
  }

  /** POST: the checks of `Accept`, then one append to the comments collection. */
  method Create(db: Database, session: Option<User>, body: CommentBody, newId: string) returns (reply: CreateReply)
    modifies db`comments
    ensures match Accept(session, db.memberships, body, newId)
            case Fail(f) => reply == CreateFailed(f) && db.comments == old(db.comments)
            case Ok(doc) => reply == Created(newId) && db.comments == old(db.comments) + [doc]
  {
    if body.projectId.None? || body.projectId.value == "" {
      return CreateFailed(Failure(400, "Missing projectId"));
    }
    var projectId := body.projectId.value;
    var access := RequireMember(session, db.memberships, projectId);
    if access.Fail? {
      return CreateFailed(access.failure);
    }
    var user := access.value;
    if body.text.None? || IsBlank(body.text.value) {
      return CreateFailed(Failure(400, "Missing text"));
    }
    var parentId := body.parentId;
    if (parentId.None? || parentId.value == "") && (body.x.None? || body.y.None?) {
      return CreateFailed(Failure(400, "Missing coordinates for pin"));
    }
    var root := parentId.None? || parentId.value == "";
    var doc := CommentDoc(newId, projectId, if root then None else parentId, body.text.value,
                          if root then body.x else None, if root then body.y else None,
                          user.uid, Some(AuthorName(user)));
    db.comments := db.comments + [doc];
    reply := Created(newId);
  }

  /**
   * The checks come in a fixed order: the project id before the session,
   * the session and membership before the text, the text before the
   * coordinates.
   */
  lemma AcceptOrder(session: Option<User>, memberships: map<string, Membership>, body: CommentBody, newId: string)
    ensures body.projectId.None? || body.projectId.value == "" ==>
              Accept(session, memberships, body, newId) == Fail(Failure(400, "Missing projectId"))
    ensures body.projectId.Some? && body.projectId.value != "" && session.None? ==>
              Accept(session, memberships, body, newId) == Fail(Failure(401, "Authentication required"))
    ensures body.projectId.Some? && body.projectId.value != "" && RequireMember(session, memberships, body.projectId.value).Ok? ==>
              (Accept(session, memberships, body, newId) == Fail(Failure(400, "Missing text"))
               <==> body.text.None? || IsBlank(body.text.value))
    ensures Accept(session, memberships, body, newId).Ok? ==>
              && body.projectId.Some? && body.projectId.value != ""
              && RequireMember(session, memberships, body.projectId.value).Ok?
              && body.text.Some? && !IsBlank(body.text.value)
              && (IsRoot(body) ==> body.x.Some? && body.y.Some?)
  {
  }

  /**
   * A stored comment: roots have no parent (an empty `parentId` counts as
   * none) and keep the coordinates they were given; replies point at their
   * parent and have none; the author is the session user.
   */
  lemma {:induction false} PayloadSpec(session: Option<User>, memberships: map<string, Membership>, body: CommentBody, newId: string)
    requires Accept(session, memberships, body, newId).Ok?
    ensures var doc := Accept(session, memberships, body, newId).value;
            && doc.id == newId && doc.projectId == body.projectId.value && doc.text == body.text.value
            && doc.parentId != Some("")
            && (IsRoot(body) ==> doc.parentId.None? && doc.x == body.x && doc.y == body.y && IsPin(doc))
            && (!IsRoot(body) ==> doc.parentId == body.parentId && doc.x.None? && doc.y.None? && !IsPin(doc))
            && doc.authorId == session.value.uid && doc.authorName.Some? && doc.authorName.value != ""
  {
    AcceptOrder(session, memberships, body, newId);
  }

  /**
   * A pin the board posts for a member is stored as a pin at the clicked
   * point, and so appears among the pins the board draws.
   */
  lemma ClientPinAccepted(user: User, memberships: map<string, Membership>, projectId: string,
                          answer: Option<string>, x: real, y: real, newId: string, existing: seq<CommentDoc>)
    requires projectId != "" && MembershipId(projectId, user.uid) in memberships
    requires answer.Some? && !IsBlank(answer.value)
    ensures var body := CommentBody(Some(projectId), answer, None, Some(x), Some(y));
            && Accept(Some(user), memberships, body, newId).Ok?
            && var doc := Accept(Some(user), memberships, body, newId).value;
               doc.x == Some(x) && doc.y == Some(y) && doc in Pins(existing + [doc])
  {
    var body := CommentBody(Some(projectId), answer, None, Some(x), Some(y));
    var doc := Accept(Some(user), memberships, body, newId).value;
    PinsSpec(existing + [doc]);
  }

  /**
   * A reply the board posts for a member to the open pin (its trimmed,
   * non-empty text) is stored as a reply to that pin, and so appears in the
   * pin's thread.
   */
  lemma ClientReplyAccepted(user: User, memberships: map<string, Membership>, projectId: string,
                            input: string, pin: string, newId: string, existing: seq<CommentDoc>)
    requires projectId != "" && pin != "" && MembershipId(projectId, user.uid) in memberships
    requires !IsBlank(input)
    ensures var body := CommentBody(Some(projectId), Some(Trim(input)), Some(pin), None, None);
            && Accept(Some(user), memberships, body, newId).Ok?
            && var doc := Accept(Some(user), memberships, body, newId).value;
               doc.parentId == Some(pin) && doc in ActiveThread(existing + [doc], Some(pin))
  {
    TrimIdempotent(input);
    var body := CommentBody(Some(projectId), Some(Trim(input)), Some(pin), None, None);
    var doc := Accept(Some(user), memberships, body, newId).value;
    ActiveThreadSpec(existing + [doc], pin);
  }
}
