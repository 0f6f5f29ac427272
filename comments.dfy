/**
 * Comment threads as the canvas sees them (`app/components/StudioCanvas.tsx`,
 * lines 52-61 and 792-798): one collection holding root pins, which carry
 * coordinates, and replies, which point at their root through `parentId`.
 */
module Comments {
  import opened Wrappers
  import opened Collections

  datatype CommentDoc = CommentDoc(
    id: string,
    projectId: string,
    parentId: Option<string>,
    text: string,
    x: Option<real>,
    y: Option<real>,
    authorId: string,
    authorName: Option<string>)

  /** The JSON body the canvas posts to create a comment; absent fields are `None`. */
  datatype CommentBody = CommentBody(
    projectId: Option<string>,
    text: Option<string>,
    parentId: Option<string>,
    x: Option<real>,
    y: Option<real>)

  /** A root pin shown on the board: no parent, and both coordinates are numbers. */
  predicate IsPin(c: CommentDoc) {
    c.parentId.None? && c.x.Some? && c.y.Some?
  }

  /** `pins`: the comments drawn as numbered markers, in list order. */
  function Pins(comments: seq<CommentDoc>): seq<CommentDoc> {
    Filter(comments, IsPin)
  }

  /** A reply to the pin with id `pin`. */
  predicate RepliesTo(c: CommentDoc, pin: string) {
    c.parentId == Some(pin)
  }

  /** The first comment with the given id (`comments.find`). */
  function FindById(comments: seq<CommentDoc>, id: string): (r: Option<CommentDoc>)
    ensures r.Some? ==> r.value in comments && r.value.id == id
    ensures r.None? ==> forall c :: c in comments ==> c.id != id
  {
    if comments == [] then None
    else if comments[0].id == id then Some(comments[0])
    else FindById(comments[1..], id)
  }

  /** `activeThread`: the open pin's root comment (when present) followed by its replies. */
  function ActiveThread(comments: seq<CommentDoc>, active: Option<string>): seq<CommentDoc> {
    if active.None? || active.value == "" then []
    else
      var replies := Filter(comments, (c: CommentDoc) => RepliesTo(c, active.value));
      match FindById(comments, active.value)
      case Some(root) => [root] + replies
      case None => replies
  }

  /** Pins are exactly the root comments that have both coordinates. */
  lemma PinsSpec(comments: seq<CommentDoc>)
    ensures forall c :: c in Pins(comments) <==> c in comments && c.parentId.None? && c.x.Some? && c.y.Some?
  {
    FilterMembers(comments, IsPin);
  }

  /**
   * The open thread holds nothing when no pin is open, and otherwise only the
   * pin itself (first, when it exists) and every reply to it.
   */
  lemma ActiveThreadSpec(comments: seq<CommentDoc>, pin: string)
    requires pin != ""
    ensures forall c :: c in ActiveThread(comments, Some(pin)) ==> c in comments && (c.id == pin || RepliesTo(c, pin))
    ensures forall c :: c in comments && RepliesTo(c, pin) ==> c in ActiveThread(comments, Some(pin))
    ensures FindById(comments, pin).Some? ==> ActiveThread(comments, Some(pin))[0].id == pin
    ensures ActiveThread(comments, None) == []
  {
    FilterMembers(comments, (c: CommentDoc) => RepliesTo(c, pin));
  }
}
