/**
 * The comment slice: the comments of the game on screen, newest first, and
 * the last error.  Its reducer ignores SET_LOADING and SET_ERROR.
 */
module Comments {
  import opened Common
  import opened Actions

  datatype CommentState = CommentState(comments: seq<Comment>, error: Option<string>)

  const Initial := CommentState([], None)

  const InvalidCommentStructure: string := "Invalid comment structure."

  function CommentReduce(s: CommentState, a: Action): CommentState {
    match a
    case SetComments(cs) => s.(comments := cs)
    case AddComment(c) => s.(comments := [c] + s.comments)
    case SetCommentError(m) => s.(error := Some(m))
    case _ => s
  }

  /** `newComment && newComment.id && newComment.User`: the reply is an object with an id and an author. */
  predicate WellShaped(reply: Option<Comment>) {
    reply.Some? && reply.value.id != "" && reply.value.author.Some?
  }

  /** `fetchCommentsThunk`: the list or the error, with no loading step. */
  function FetchCommentsActions(o: Outcome<seq<Comment>>): seq<Action> {
    [match o case Ok(cs) => SetComments(cs) case Err(m) => SetCommentError(m)]
  }

  /**
   * `postCommentThunk`: the comment when the reply is well shaped; a reply
   * without an id or an author is thrown as "Invalid comment structure."
   * and lands in the same catch as a failed request.
   */
  function PostCommentActions(o: Outcome<Option<Comment>>): seq<Action> {
    [match o
     case Ok(reply) => if WellShaped(reply) then AddComment(reply.value) else SetCommentError(InvalidCommentStructure)
     case Err(m) => SetCommentError(m)]
  }

  // ---------------------------------------------------------------------

  /** SET_COMMENTS replaces the list and leaves the error as it was. */
  lemma SetCommentsEffect(s: CommentState, cs: seq<Comment>)
    ensures CommentReduce(s, SetComments(cs)) == CommentState(cs, s.error)
  {
  }

  /** ADD_COMMENT puts the comment first and shifts the old list behind it. */
  lemma AddCommentEffect(s: CommentState, c: Comment)
    ensures var r := CommentReduce(s, AddComment(c));
      && |r.comments| == |s.comments| + 1
      && r.comments[0] == c
      && r.comments[1..] == s.comments
      && r.error == s.error
  {
  }

  /** SET_COMMENT_ERROR records the error and leaves the comments. */
  lemma SetCommentErrorEffect(s: CommentState, m: string)
    ensures CommentReduce(s, SetCommentError(m)) == CommentState(s.comments, Some(m))
  {
  }

  /** Every other action, the shared SET_LOADING and SET_ERROR included, leaves the slice as it was. */
  lemma OtherActionsIgnored(s: CommentState, a: Action)
    requires WellFormed(a)
    requires !a.SetComments? && !a.AddComment? && !a.SetCommentError?
    ensures CommentReduce(s, a) == s
  {
  }

  /** No action clears a recorded error: once set, it stays set whatever is dispatched. */
  lemma {:induction false} ErrorNeverCleared(s: CommentState, acts: seq<Action>)
    requires s.error.Some?
    ensures Run(CommentReduce, s, acts).error.Some?
    decreases |acts|
  {
    if acts != [] {
      ErrorNeverCleared(CommentReduce(s, acts[0]), acts[1..]);
    }
  }

  /** Fetching dispatches exactly one action: the list on success, the message on failure. */
  lemma FetchCommentsEffect(s: CommentState, o: Outcome<seq<Comment>>)
    ensures |FetchCommentsActions(o)| == 1
    ensures var r := Run(CommentReduce, s, FetchCommentsActions(o));
      && (o.Ok? ==> r == CommentState(o.value, s.error))
      && (o.Err? ==> r == CommentState(s.comments, Some(o.message)))
  {
    RunOne(CommentReduce, s, FetchCommentsActions(o)[0]);
  }

  /**
   * Posting adds the reply at the top only when it is well shaped; otherwise
   * the comments stay and the error is the message or "Invalid comment structure.".
   */
  lemma PostCommentEffect(s: CommentState, o: Outcome<Option<Comment>>)
    ensures |PostCommentActions(o)| == 1
    ensures var r := Run(CommentReduce, s, PostCommentActions(o));
      && (o.Ok? && WellShaped(o.value) ==> r == CommentState([o.value.value] + s.comments, s.error))
      && (o.Ok? && !WellShaped(o.value) ==> r == CommentState(s.comments, Some(InvalidCommentStructure)))
      && (o.Err? ==> r == CommentState(s.comments, Some(o.message)))
  {
    RunOne(CommentReduce, s, PostCommentActions(o)[0]);
  }
}
