/**
 * `app/api/projects/state/route.ts`: reading and writing the shapes of one
 * page of a project. GET picks the page document, falling back to the
 * legacy single-page record for page 0; POST overwrites the page document
 * with a version above both the stored one and the one the writer claims.
 */
module StateRoute {
  import opened Wrappers
  import opened Numbers
  import opened Shapes
  import opened Store

  /**
   * The page of a request, from `Number(raw)`: used when finite and not
   * negative, otherwise page 0.
   */
  function ParsePage(n: JsNumber): (page: real)
    ensures page >= 0.0
    ensures n.Finite? && n.value >= 0.0 ==> page == n.value
    ensures !(n.Finite? && n.value >= 0.0) ==> page == 0.0
  {
    if n.Finite? && n.value >= 0.0 then n.value else 0.0
  }

  /** A page that is already valid parses to itself, so parsing is idempotent. */
  lemma ParsePageIdempotent(n: JsNumber)
    ensures ParsePage(Finite(ParsePage(n))) == ParsePage(n)
    ensures !n.Finite? ==> ParsePage(n) == 0.0
  {
  }

  /** The decimal digits of `n`, as `${page}` renders a whole page number. */
  function Decimal(n: nat): (s: string)
    ensures s != [] && forall i :: 0 <= i < |s| ==> '0' <= s[i] <= '9'
  {
    var d := ['0' + (n % 10) as char];
    if n < 10 then d else Decimal(n / 10) + d
  }

  /** The number a string of decimal digits denotes. */
  function DecimalValue(s: string): nat
    requires forall i :: 0 <= i < |s| ==> '0' <= s[i] <= '9'
  {
    if s == [] then 0 else DecimalValue(s[..|s| - 1]) * 10 + (s[|s| - 1] - '0') as nat
  }

  /** Reading the digits back gives the page number. */
  lemma {:induction false} DecimalRoundTrip(n: nat)
    ensures DecimalValue(Decimal(n)) == n
  {
    var s := Decimal(n);
    if n >= 10 {
      DecimalRoundTrip(n / 10);
      assert s[..|s| - 1] == Decimal(n / 10);
    }
  }

  /** The key `${projectId}__${page}` of a whole page. */
  function PageKey(projectId: string, page: nat): string {
    projectId + "__" + Decimal(page)
  }

  /** Two whole pages of a project never share a key. */
  lemma {:induction false} PageKeysDistinct(projectId: string, n: nat, m: nat)
    requires n != m
    ensures PageKey(projectId, n) != PageKey(projectId, m)
  {
    if PageKey(projectId, n) == PageKey(projectId, m) {
      var k := |projectId| + 2;
      assert PageKey(projectId, n)[k..] == Decimal(n);
      assert PageKey(projectId, m)[k..] == Decimal(m);
      DecimalRoundTrip(n);
      DecimalRoundTrip(m);
    }
  }

  /** The answer of GET: an error, a stored document, or the blank state of a missing one. */
  datatype LoadReply = LoadFailed(failure: Failure) | Found(id: DocId, doc: StateDoc) | Blank

  /** The answer of POST: an error, or success with the version written. */
  datatype SaveReply = SaveFailed(failure: Failure) | Saved(version: int)

  /** What GET answers for a member, given the stored documents. */
  function Lookup(states: map<DocId, StateDoc>, projectId: string, page: real): (r: LoadReply)
    ensures r.Found? ==> r.id in states && r.doc == states[r.id]
    ensures r.Found? && r.id.LegacyDoc? ==> page == 0.0 && PageDoc(projectId, page) !in states && r.id == LegacyDoc(projectId)
    ensures PageDoc(projectId, page) in states ==> r == Found(PageDoc(projectId, page), states[PageDoc(projectId, page)])
    ensures r.Blank? <==> PageDoc(projectId, page) !in states && (page != 0.0 || LegacyDoc(projectId) !in states)
    ensures !r.LoadFailed?
  {
    if PageDoc(projectId, page) in states then Found(PageDoc(projectId, page), states[PageDoc(projectId, page)])
    else if page == 0.0 && LegacyDoc(projectId) in states then Found(LegacyDoc(projectId), states[LegacyDoc(projectId)])
    else Blank
  }

  /**
   * GET `?projectId=…&page=…`: a missing id is a 400, then membership is
   * required, then the page document, or for page 0 the legacy record, or
   * the blank state.
   */
  method Get(db: Database, session: Option<User>, projectId: Option<string>, pageParam: JsNumber)
    returns (reply: LoadReply)
    ensures projectId.None? || projectId.value == "" ==> reply == LoadFailed(Failure(400, "Missing projectId"))
    ensures projectId.Some? && projectId.value != "" ==>
              match RequireMember(session, db.memberships, projectId.value)
              case Fail(f) => reply == LoadFailed(f)
              case Ok(_) => reply == Lookup(db.states, projectId.value, ParsePage(pageParam))
  {
    if projectId.None? || projectId.value == "" {
      return LoadFailed(Failure(400, "Missing projectId"));
    }
    var pid := projectId.value;
    var access := RequireMember(session, db.memberships, pid);
    if access.Fail? {
      return LoadFailed(access.failure);
    }
    var page := ParsePage(pageParam);
    var docId := PageDoc(pid, page);
    var doc: Option<StateDoc> := if docId in db.states then Some(db.states[docId]) else None;
    if doc.None? && page == 0.0 {
      if LegacyDoc(pid) in db.states {
        docId := LegacyDoc(pid);
        doc := Some(db.states[docId]);
      }
    }
    if doc.None? {
      return Blank;
    }
    reply := Found(docId, doc.value);
  }

  /**
   * `Math.max(currentVersion + 1, baseVersion + 1)`, with an absent record
   * counting as version -1: the least version above both.
   */
  function NextVersion(current: Option<int>, base: int): (v: int)
    ensures v > base && (current.Some? ==> v > current.value)
    ensures v == base + 1 || v == current.GetOr(-1) + 1
    ensures current.None? ==> v == (if base >= -1 then base + 1 else 0)
  {
    var cur := if current.Some? then current.value else -1;
    if cur + 1 >= base + 1 then cur + 1 else base + 1
  }

  /** The body of a POST; a `baseVersion` that is not a number is `None`. */
  datatype SaveBody = SaveBody(projectId: Option<string>, shapes: Option<seq<Shape>>, baseVersion: Option<int>, page: JsNumber)

  /** `typeof body.baseVersion === 'number' ? body.baseVersion : 0`. */
  function BaseVersion(body: SaveBody): (b: int)
    ensures body.baseVersion.None? ==> b == 0
    ensures body.baseVersion.Some? ==> b == body.baseVersion.value
  {
    body.baseVersion.GetOr(0)
  }

  /**
   * POST: a missing id is a 400, then membership is required; a member's
   * write replaces the page document (read first for its version) with the
   * next version, the data sent and the writer's uid, and nothing else in
   * the store changes.
   */
  method Post(db: Database, session: Option<User>, body: SaveBody) returns (reply: SaveReply)
    modifies db`states
    ensures body.projectId.None? || body.projectId.value == "" ==>
              reply == SaveFailed(Failure(400, "Missing projectId")) && db.states == old(db.states)
    ensures body.projectId.Some? && body.projectId.value != "" ==>
              match RequireMember(session, db.memberships, body.projectId.value)
              case Fail(f) => reply == SaveFailed(f) && db.states == old(db.states)
              case Ok(user) =>
                var key := PageDoc(body.projectId.value, ParsePage(body.page));
                var current := if key in old(db.states) then Some(old(db.states)[key].version) else None;
                var next := NextVersion(current, BaseVersion(body));
                && reply == Saved(next)
                && db.states == old(db.states)[key := StateDoc(next, body.shapes, Some(user.uid))]
  {
    if body.projectId.None? || body.projectId.value == "" {
      return SaveFailed(Failure(400, "Missing projectId"));
    }
    var pid := body.projectId.value;
    var access := RequireMember(session, db.memberships, pid);
    if access.Fail? {
      return SaveFailed(access.failure);
    }
    var base := BaseVersion(body);
    var key := PageDoc(pid, ParsePage(body.page));
    var currentVersion := if key in db.states then db.states[key].version else -1;
    var nextVersion := if currentVersion + 1 >= base + 1 then currentVersion + 1 else base + 1;
    db.states := db.states[key := StateDoc(nextVersion, body.shapes, Some(access.value.uid))];
    reply := Saved(nextVersion);
  }

  /**
   * Successive writes to one page get strictly increasing versions, and each
   * written version is above the version the writer based it on.
   */
  lemma WriteRaisesVersion(current: Option<int>, base: int, base2: int)
    ensures NextVersion(Some(NextVersion(current, base)), base2) > NextVersion(current, base)
    ensures NextVersion(current, base) > base
  {
  }

  /**
   * A writer that claims the stored version gets exactly the next one; a
   * writer ahead of the store jumps to its own claim plus one.
   */
  lemma VersionCases(current: int, base: int)
    ensures base <= current ==> NextVersion(Some(current), base) == current + 1
    ensures base > current ==> NextVersion(Some(current), base) == base + 1
  {
  }
}
