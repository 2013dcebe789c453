/** The form that posts a comment or a reply: it refuses to send for a
    signed-out user or blank text, sends the text as typed, and on success
    empties itself and tells its parents. */
module CommentForm {
  import opened Common
  import opened Identity
  import opened Store
  import CommentsRoute

  /** "You must sign in to post a comment". */
  const SignInToComment: string := "برای ارسال کامنت باید وارد شوید"
  /** "The comment cannot be empty". */
  const EmptyComment: string := "محتوای کامنت نمی‌تواند خالی باشد"
  /** "Error sending the comment", shown when a response that is not ok has
      no error text. */
  const SendFallback: string := "خطا در ارسال کامنت"

  /** The JSON body of `POST /api/comments`. */
  datatype CommentRequest = CommentRequest(postId: string, content: string, parentId: Option<string>)

  /** How the request settles: an ok response; a response that is not ok,
      with the `error` text of its body ("" when it has none); or a throw
      before any response, with the thrown message. */
  datatype SubmitOutcome = Accepted | Rejected(errorText: string) | Threw(message: string)

  /** The message `handleSubmit` shows for an outcome that is not ok: the
      route's error text, else the fallback; a throw shows its own message. */
  function SubmitError(outcome: SubmitOutcome): (m: Option<string>)
    ensures outcome.Accepted? <==> m.None?
    ensures outcome.Rejected? && outcome.errorText != "" ==> m == Some(outcome.errorText)
    ensures outcome.Rejected? && outcome.errorText == "" ==> m == Some(SendFallback)
    ensures outcome.Threw? ==> m == Some(outcome.message)
  {
    match outcome
    case Accepted => None
    case Rejected(text) => Some(OrDefault(text, SendFallback))
    case Threw(message) => Some(message)
  }

  /** A rejected submission always shows a message, and the fallback never
      hides an error text the route sent. */
  lemma RejectionIsShown(text: string)
    ensures SubmitError(Rejected(text)).Some? && SubmitError(Rejected(text)).value != ""
    ensures text != "" ==> SubmitError(Rejected(text)).value == text
  {
  }

  /** Which of the optional callbacks a successful submission calls. */
  datatype Callbacks = Callbacks(commentAdded: bool, replySubmitted: bool)

  /** The body the route reads from a request the form sends. */
  function RouteBody(r: CommentRequest): CommentsRoute.CommentBody {
    CommentsRoute.CommentBody(Some(r.postId), Some(r.content), r.parentId)
  }

  /** A request the form lets through passes the route's content check:
      for a signed-in caller and a non-empty post id the route stores the
      text as typed, leading and trailing spaces included. */
  lemma SentRequestIsStored<T>(caller: User, r: CommentRequest, now: int, create: CommentsRoute.NewComment -> Result<T>)
    requires !IsBlank(r.content) && r.postId != ""
    ensures var reply := CommentsRoute.CommentReplyOf(Some(caller), Ok(RouteBody(r)), now, create);
      && reply.response.status != 400
      && reply.created.Some? && reply.created.value.content == r.content
      && reply.created.value.author == caller.id
  {
    assert r.content == "" ==> IsBlank(r.content);
    CommentsRoute.CommentRecord(caller, RouteBody(r), now, create);
  }

  class Form {
    var content: string
    var error: Option<string>
    var isSubmitting: bool
    const postId: string
    const user: Option<User>
    const parentId: Option<string>
    const hasOnCommentAdded: bool
    const hasOnReplySubmitted: bool

    constructor (postId: string, user: Option<User>, parentId: Option<string>,
                 hasOnCommentAdded: bool, hasOnReplySubmitted: bool)
      ensures this.postId == postId && this.user == user && this.parentId == parentId
      ensures this.hasOnCommentAdded == hasOnCommentAdded && this.hasOnReplySubmitted == hasOnReplySubmitted
      ensures content == "" && error == None && !isSubmitting
    {
      this.postId := postId;
      this.user := user;
      this.parentId := parentId;
      this.hasOnCommentAdded := hasOnCommentAdded;
      this.hasOnReplySubmitted := hasOnReplySubmitted;
      content := "";
      error := None;
      isSubmitting := false;
    }

    /** The text area's `onChange`. */
    method Type(text: string)
      modifies this
      ensures content == text && error == old(error) && isSubmitting == old(isSubmitting)
    {
      content := text;
    }

    /** The first half of `handleSubmit`: the sign-in check comes first,
        then the blank check; a request goes out only past both, with the
        text untrimmed. */
    method BeginSubmit() returns (request: Option<CommentRequest>)
      modifies this
      ensures content == old(content)
      ensures request.Some? <==> user.Some? && !IsBlank(content)
      ensures request.Some? ==> request.value == CommentRequest(postId, content, parentId)
      ensures request.Some? ==> isSubmitting && error == None
      ensures user.None? ==> error == Some(SignInToComment) && isSubmitting == old(isSubmitting)
      ensures user.Some? && IsBlank(content) ==> error == Some(EmptyComment) && isSubmitting == old(isSubmitting)
    {
      if user.None? {
        error := Some(SignInToComment);
        return None;
      }
      if IsBlank(content) {
        error := Some(EmptyComment);
        return None;
      }
      isSubmitting := true;
      error := None;
      request := Some(CommentRequest(postId, content, parentId));
    }

    /** The second half: on success the text is cleared, `onCommentAdded`
        is called if given, and `onReplySubmitted` only for a reply; a
        response that is not ok, or a throw, shows its message. Submitting
        ends either way. */
    method FinishSubmit(outcome: SubmitOutcome) returns (calls: Callbacks)
      modifies this
      ensures !isSubmitting
      ensures outcome.Accepted? ==> content == "" && error == old(error)
      ensures outcome.Accepted? ==> calls == Callbacks(hasOnCommentAdded, Truthy(parentId) && hasOnReplySubmitted)
      ensures !outcome.Accepted? ==> content == old(content) && error == SubmitError(outcome)
      ensures !outcome.Accepted? ==> calls == Callbacks(false, false)
    {
      match outcome {
        case Accepted =>
          content := "";
          calls := Callbacks(hasOnCommentAdded, Truthy(parentId) && hasOnReplySubmitted);
        case Rejected(_) =>
          error := SubmitError(outcome);
          calls := Callbacks(false, false);
        case Threw(_) =>
          error := SubmitError(outcome);
          calls := Callbacks(false, false);
      }
      isSubmitting := false;
    }
  }
}
