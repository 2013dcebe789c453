/** The comment thread under a post: loading the comments, the reply box
    that opens under one comment at a time, deleting one's own comments,
    and the nested rendering of replies. */
module CommentList {
  import opened Common
  import opened Identity

  /** A comment as the thread receives it, replies nested inside. */
  datatype Comment = Comment(id: string, postId: string, content: string, author: string,
                             authorName: string, createdAt: string, replies: seq<Comment>)

  /** "Error fetching comments: ". */
  const LoadErrorPrefix: string := "خطا در گرفتن کامنت‌ها: "
  /** "You must sign in to delete a comment". */
  const SignInToDelete: string := "برای حذف کامنت باید وارد شوید"
  /** "Error deleting the comment: ". */
  const DeleteErrorPrefix: string := "خطا در حذف کامنت: "

  /** The thread's request: the post's bare id (or the id itself when it
      has no non-empty second segment). */
  function CommentsUrl(postId: string): (r: string)
    ensures ':' !in postId ==> r == "/api/comments/post/" + postId
    ensures SplitSecond(postId) == Some("") ==> r == "/api/comments/post/" + postId
  {
    "/api/comments/post/" + CleanId(postId)
  }

  /** The delete request for a comment, by the same rule. */
  function CommentDeleteUrl(commentId: string): (r: string)
    ensures ':' !in commentId ==> r == "/api/comments/" + commentId
    ensures SplitSecond(commentId) == Some("") ==> r == "/api/comments/" + commentId
  {
    "/api/comments/" + CleanId(commentId)
  }

  /** A post is asked for by the same path whether the thread got its
      record key or its bare id. */
  lemma CommentsUrlOfKey(id: string)
    requires ':' !in id && id != ""
    ensures CommentsUrl("posts:" + id) == CommentsUrl(id) == "/api/comments/post/" + id
    ensures CommentDeleteUrl("comments:" + id) == CommentDeleteUrl(id) == "/api/comments/" + id
  {
    CleanIdOfKey("posts", id);
    CleanIdOfKey("comments", id);
    assert "posts:" + id == "posts" + ":" + id;
    assert "comments:" + id == "comments" + ":" + id;
  }

  /** `handleReplyClick`: a second click on the open reply box closes it;
      a click on any other comment moves the box there. */
  function ReplyToggle(replyingTo: Option<string>, commentId: string): (r: Option<string>)
    ensures r.None? <==> replyingTo == Some(commentId)
    ensures r.Some? ==> r.value == commentId
  {
    if replyingTo == Some(commentId) then None else Some(commentId)
  }

  /** Two clicks on the same comment restore the state exactly when the box
      was closed or already under that comment. */
  lemma ToggleTwice(replyingTo: Option<string>, commentId: string)
    ensures ReplyToggle(ReplyToggle(replyingTo, commentId), commentId) == replyingTo <==>
      replyingTo == None || replyingTo == Some(commentId)
  {
  }

  /** What a delete click does: the alert it shows, the request it sends
      and whether it asks the parent to refresh the thread. */
  datatype DeleteEffects = DeleteEffects(alert: Option<string>, request: Option<string>, refresh: bool)

  /** `handleDelete(commentId)` for the signed-in user, the answer to the
      confirmation dialog and the request's outcome (`Err`: the thrown
      message). */
  function DeleteEffectsOf(user: Option<User>, confirmed: bool, commentId: string, outcome: Result<()>): (e: DeleteEffects)
    ensures e.refresh ==> e.request.Some? && e.alert.None?
    ensures e.request.None? ==> !e.refresh
  {
    if user.None? then DeleteEffects(Some(SignInToDelete), None, false)
    else if !confirmed then DeleteEffects(None, None, false)
    else
      var request := Some(CommentDeleteUrl(commentId));
      match outcome
      case Ok(_) => DeleteEffects(None, request, true)
      case Err(m) => DeleteEffects(Some(DeleteErrorPrefix + m), request, false)
  }

  /** A request is sent exactly for a signed-in user who confirmed; the
      thread is refreshed exactly when it succeeded; otherwise an alert says
      why, except after a declined confirmation, which does nothing. */
  lemma DeleteEffectsProperties(user: Option<User>, confirmed: bool, commentId: string, outcome: Result<()>)
    ensures var e := DeleteEffectsOf(user, confirmed, commentId, outcome);
      && (e.request.Some? <==> user.Some? && confirmed)
      && (e.request.Some? ==> e.request.value == CommentDeleteUrl(commentId))
      && (e.refresh <==> user.Some? && confirmed && outcome.Ok?)
      && (user.None? ==> e.alert == Some(SignInToDelete))
      && (user.Some? && !confirmed ==> e == DeleteEffects(None, None, false))
      && (e.request.Some? ==> (e.alert.None? <==> outcome.Ok?))
  {
  }

  /** A rendered comment: its indentation depth, the "reply" class, the left
      margin in pixels, which controls it shows and its rendered replies. */
  datatype Node = Node(commentId: string, depth: nat, isReply: bool, marginPx: nat,
                       showReply: bool, showDelete: bool, showForm: bool, children: seq<Node>)

  /** `renderComment(comment, depth)`. */
  function Render(c: Comment, depth: nat, user: Option<User>, replyingTo: Option<string>): (n: Node)
    ensures n.commentId == c.id && n.depth == depth && |n.children| == |c.replies|
    ensures n.isReply <==> depth > 0
    ensures n.marginPx == depth * 20
    ensures n.showReply <==> user.Some?
    ensures n.showDelete <==> user.Some? && c.author == user.value.id
    ensures n.showForm <==> user.Some? && replyingTo == Some(c.id)
    decreases c
  {
    Node(c.id, depth, depth > 0, depth * 20, user.Some?, user.Some? && c.author == user.value.id,
         user.Some? && replyingTo == Some(c.id),
         seq(|c.replies|, i requires 0 <= i < |c.replies| => Render(c.replies[i], depth + 1, user, replyingTo)))
  }

  /** Every node sits one level below its parent, indented by 20 pixels a
      level, and only the top level lacks the "reply" class. */
  predicate WellIndented(n: Node, depth: nat)
    decreases n
  {
    && n.depth == depth && n.marginPx == 20 * depth && (n.isReply <==> depth > 0)
    && forall i :: 0 <= i < |n.children| ==> WellIndented(n.children[i], depth + 1)
  }

  /** Nothing in the tree offers a control: no reply button, no delete
      button, no reply box. */
  predicate NoControls(n: Node)
    decreases n
  {
    && !n.showReply && !n.showDelete && !n.showForm
    && forall i :: 0 <= i < |n.children| ==> NoControls(n.children[i])
  }

  lemma {:induction false} RenderWellIndented(c: Comment, depth: nat, user: Option<User>, replyingTo: Option<string>)
    ensures WellIndented(Render(c, depth, user, replyingTo), depth)
    decreases c
  {
    var n := Render(c, depth, user, replyingTo);
    forall i | 0 <= i < |n.children|
      ensures WellIndented(n.children[i], depth + 1)
    {
      RenderWellIndented(c.replies[i], depth + 1, user, replyingTo);
    }
  }

  /** Signed out, the whole thread is read-only, replies included. */
  lemma {:induction false} SignedOutThreadIsReadOnly(c: Comment, depth: nat, replyingTo: Option<string>)
    ensures NoControls(Render(c, depth, None, replyingTo))
    decreases c
  {
    var n := Render(c, depth, None, replyingTo);
    forall i | 0 <= i < |n.children|
      ensures NoControls(n.children[i])
    {
      SignedOutThreadIsReadOnly(c.replies[i], depth + 1, replyingTo);
    }
  }

  /** What the thread shows: the error, else the loading text, else the
      empty text, else the rendered top-level comments. */
  datatype View = ErrorView(message: string) | Loading | NoComments | Thread(nodes: seq<Node>)

  function ViewOf(error: Option<string>, loading: bool, comments: seq<Comment>, user: Option<User>,
                  replyingTo: Option<string>): (v: View)
    ensures v.ErrorView? <==> Truthy(error)
    ensures v.ErrorView? ==> v.message == error.value
    ensures v.Loading? <==> !Truthy(error) && loading
    ensures v.NoComments? <==> !Truthy(error) && !loading && comments == []
    ensures v.Thread? ==> |v.nodes| == |comments|
    ensures v.Thread? ==>
      forall i :: 0 <= i < |comments| ==> WellIndented(v.nodes[i], 0) && v.nodes[i].commentId == comments[i].id
    ensures v.Thread? ==> forall i :: 0 <= i < |comments| ==> v.nodes[i] == Render(comments[i], 0, user, replyingTo)
  {
    if Truthy(error) then ErrorView(error.value)
    else if loading then Loading
    else if comments == [] then NoComments
    else
      var nodes := seq(|comments|, i requires 0 <= i < |comments| => Render(comments[i], 0, user, replyingTo));
      assert forall i :: 0 <= i < |comments| ==> WellIndented(nodes[i], 0) by {
        forall i | 0 <= i < |comments|
          ensures WellIndented(nodes[i], 0)
        {
          RenderWellIndented(comments[i], 0, user, replyingTo);
        }
      }
      Thread(nodes)
  }

  class Thread {
    var comments: seq<Comment>
    var replyingTo: Option<string>
    var loading: bool
    var error: Option<string>
    const postId: string
    const user: Option<User>

    constructor (postId: string, user: Option<User>)
      ensures this.postId == postId && this.user == user
      ensures comments == [] && replyingTo == None && loading && error == None
    {
      this.postId := postId;
      this.user := user;
      comments := [];
      replyingTo := None;
      loading := true;
      error := None;
    }

    function CurrentView(): View
      reads this
    {
      ViewOf(error, loading, comments, user, replyingTo)
    }

    /** The start of `fetchComments`: loading on, error cleared, and the
        request for the post's comments. */
    method BeginLoad() returns (url: string)
      modifies this
      ensures url == CommentsUrl(postId)
      ensures loading && error == None
      ensures CurrentView() == Loading
      ensures comments == old(comments) && replyingTo == old(replyingTo)
    {
      loading := true;
      error := None;
      url := CommentsUrl(postId);
    }

    /** The end of `fetchComments` (`Err`: the thrown message): the
        comments are stored or the error is set, and loading always ends. */
    method FinishLoad(outcome: Result<seq<Comment>>)
      modifies this
      ensures !loading && replyingTo == old(replyingTo)
      ensures outcome.Ok? ==> comments == outcome.value && error == old(error)
      ensures outcome.Err? ==> comments == old(comments) && error == Some(LoadErrorPrefix + outcome.message)
      ensures outcome.Err? ==> CurrentView() == ErrorView(LoadErrorPrefix + outcome.message)
      ensures CurrentView() != Loading
    {
      match outcome {
        case Ok(cs) => comments := cs;
        case Err(m) => error := Some(LoadErrorPrefix + m);
      }
      loading := false;
    }

    method HandleReplyClick(commentId: string)
      modifies this
      ensures replyingTo == ReplyToggle(old(replyingTo), commentId)
      ensures comments == old(comments) && loading == old(loading) && error == old(error)
    {
      replyingTo := ReplyToggle(replyingTo, commentId);
    }

    /** `handleReplySubmitted`: the reply box closes. */
    method HandleReplySubmitted()
      modifies this
      ensures replyingTo == None
      ensures comments == old(comments) && loading == old(loading) && error == old(error)
    {
      replyingTo := None;
    }
  }
}
