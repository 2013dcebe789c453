/** POST /api/comments: a signed-in caller adds a comment to a post,
    optionally as a reply to another comment. Post ids are stored with their
    `posts:` table prefix; a parent id becomes a `comments` record id. */
module CommentsRoute {
  import opened Common
  import opened Identity
  import opened Store

  const PostsPrefix: string := "posts:"
  const CommentsPrefix: string := "comments:"

  /** "Please sign in". */
  const PleaseSignIn: string := "لطفاً وارد شوید"
  /** "Post or content is empty". */
  const PostOrContentEmpty: string := "پست یا محتوا خالیه"
  /** "Server error". */
  const ServerFault: string := "خطا تو سرور"

  /** `id.startsWith(prefix) ? id : prefix + id`. */
  function WithPrefix(prefix: string, id: string): (r: string)
    ensures StartsWith(r, prefix)
    ensures StartsWith(id, prefix) ==> r == id
    ensures !StartsWith(id, prefix) ==> r == prefix + id
  {
    if StartsWith(id, prefix) then id else prefix + id
  }

  /** Prefixing twice is prefixing once, and the bare and the prefixed form
      of an id are stored alike. */
  lemma WithPrefixIdempotent(prefix: string, id: string)
    ensures WithPrefix(prefix, WithPrefix(prefix, id)) == WithPrefix(prefix, id)
    ensures WithPrefix(prefix, prefix + id) == prefix + id
    ensures !StartsWith(id, prefix) ==> WithPrefix(prefix, id) == WithPrefix(prefix, prefix + id)
  {
    assert (prefix + id)[..|prefix|] == prefix;
  }

  /** The `comments` record a truthy `parentId` refers to: the text after
      the first colon of its prefixed form, up to any second colon. */
  function ParentRecord(parentId: string): (r: RecordId)
    ensures r.table == "comments"
    ensures Some(r.id) == SplitSecond(WithPrefix(CommentsPrefix, parentId))
  {
    var full := WithPrefix(CommentsPrefix, parentId);
    assert full[8] == ':';
    match SplitSecond(full)
    case Some(seg) => RecordId("comments", seg)
  }

  /** A bare comment id and its prefixed form name the same comment;
      with a second colon only the first segment is kept. */
  lemma ParentRecordOfBareId(id: string)
    requires ':' !in id
    ensures ParentRecord(id) == RecordId("comments", id)
    ensures ParentRecord(CommentsPrefix + id) == RecordId("comments", id)
  {
    assert CommentsPrefix == "comments" + ":";
    assert !StartsWith(id, CommentsPrefix) by {
      assert |id| >= 9 ==> id[..9][8] == id[8];
    }
    assert (CommentsPrefix + id)[..|CommentsPrefix|] == CommentsPrefix;
    SplitSecondOfKey("comments", id, "");
    assert "comments" + ":" + id + "" == CommentsPrefix + id;
  }

  lemma ParentRecordKeepsFirstSegment(id: string, rest: string)
    requires ':' !in id
    ensures ParentRecord(CommentsPrefix + id + ":" + rest) == RecordId("comments", id)
  {
    var full := CommentsPrefix + id + ":" + rest;
    assert full[..|CommentsPrefix|] == CommentsPrefix;
    SplitSecondOfKey("comments", id, ":" + rest);
    assert "comments" + ":" + id + (":" + rest) == full;
  }

  /** The body of the request, as far as it is read. */
  datatype CommentBody = CommentBody(postId: Option<string>, content: Option<string>, parentId: Option<string>)

  /** The record handed to `db.create('comments', ...)`; `parentId` `None` is `null`. */
  datatype NewComment = NewComment(postId: string, content: string, author: string, createdAt: int,
                                   parentId: Option<RecordId>)

  datatype CommentReply<T> = CommentReply(response: Response<T>, created: Option<NewComment>)

  /** POST for the caller, the parsed body (`Err`: not JSON), the time and
      the store's create operation (`Err`: it threw). */
  function CommentReplyOf<T>(caller: Option<User>, body: Result<CommentBody>, now: int,
                             create: NewComment -> Result<T>): (r: CommentReply<T>)
    ensures r.response.status in {201, 400, 401, 500}
    ensures r.created.Some? ==> caller.Some? && r.created.value.author == caller.value.id
    ensures r.created.Some? ==> StartsWith(r.created.value.postId, PostsPrefix)
    ensures r.response.status == 201 ==> r.created.Some?
  {
    if caller.None? then CommentReply(ClientError(401, PleaseSignIn), None)
    else if body.Err? then CommentReply(ServerError(ServerFault, body.message), None)
    else
      var b := body.value;
      if !Truthy(b.postId) || !Truthy(b.content) then CommentReply(ClientError(400, PostOrContentEmpty), None)
      else
        var parent := if Truthy(b.parentId) then Some(ParentRecord(b.parentId.value)) else None;
        var record := NewComment(WithPrefix(PostsPrefix, b.postId.value), b.content.value,
                                 caller.value.id, now, parent);
        match create(record)
        case Err(m) => CommentReply(ServerError(ServerFault, m), Some(record))
        case Ok(c) => CommentReply(Response(201, Data(c)), Some(record))
  }

  /** No caller: 401, nothing created. */
  lemma CommentNeedsCaller<T>(body: Result<CommentBody>, now: int, create: NewComment -> Result<T>)
    ensures CommentReplyOf(None, body, now, create) == CommentReply(ClientError(401, PleaseSignIn), None)
  {
  }

  /** A falsy post id or content: 400, nothing created. */
  lemma CommentNeedsPostAndContent<T>(caller: User, b: CommentBody, now: int, create: NewComment -> Result<T>)
    requires !Truthy(b.postId) || !Truthy(b.content)
    ensures CommentReplyOf(Some(caller), Ok(b), now, create) == CommentReply(ClientError(400, PostOrContentEmpty), None)
  {
  }

  /** A valid request stores the comment under the caller, against the
      post's prefixed id, with a parent record exactly when a truthy
      `parentId` was given; nothing checks that the parent exists or
      belongs to the same post. A stored comment answers 201. */
  lemma CommentRecord<T>(caller: User, b: CommentBody, now: int, create: NewComment -> Result<T>)
    requires Truthy(b.postId) && Truthy(b.content)
    ensures var r := CommentReplyOf(Some(caller), Ok(b), now, create);
      && r.created.Some?
      && r.created.value.author == caller.id
      && r.created.value.content == b.content.value
      && r.created.value.createdAt == now
      && StartsWith(r.created.value.postId, PostsPrefix)
      && r.created.value.postId == WithPrefix(PostsPrefix, b.postId.value)
      && (r.created.value.parentId.None? <==> !Truthy(b.parentId))
      && (Truthy(b.parentId) ==> r.created.value.parentId == Some(ParentRecord(b.parentId.value)))
      && (r.response.status == 201 <==> create(r.created.value).Ok?)
  {
  }
}
