/** GET /api/user-posts: the signed-in caller's own posts, newest first,
    each with its author's name. */
module UserPostsRoute {
  import opened Common
  import opened Identity
  import opened Store

  /** "User not authenticated". */
  const NotAuthenticated: string := "کاربر احراز هویت نشده"
  /** "Error fetching the posts". */
  const ListError: string := "خطا در دریافت پست‌ها"

  /** The answer, the `author` parameter bound into the query (`None` when
      the store is not reached) and the authors looked up. */
  datatype UserPostsReply = UserPostsReply(response: Response<seq<EnrichedPost>>, author: Option<string>,
                                           lookedUp: seq<string>)

  /** GET for the caller, the store's answer to the author query (`Err`:
      connecting or querying threw) and the profile lookup. */
  function UserPostsReplyOf(caller: Option<User>, result: Result<QueryResult<Post>>,
                            lookup: string -> Option<Profile>): (r: UserPostsReply)
    ensures r.response.status in {200, 401, 500}
    ensures r.author.Some? <==> caller.Some?
    ensures r.author.Some? ==> r.author.value == caller.value.id
  {
    match caller
    case None => UserPostsReply(ClientError(401, NotAuthenticated), None, [])
    case Some(u) =>
      match result
      case Err(m) => UserPostsReply(ServerError(ListError, m), Some(u.id), [])
      case Ok(r) =>
        var posts := Rows(r);
        UserPostsReply(Response(200, Data(Enrich(posts, AuthorName, lookup))), Some(u.id), Authors(posts))
  }

  /** No caller: 401 and no query. */
  lemma UserPostsNeedCaller(result: Result<QueryResult<Post>>, lookup: string -> Option<Profile>)
    ensures UserPostsReplyOf(None, result, lookup) == UserPostsReply(ClientError(401, NotAuthenticated), None, [])
  {
  }

  /** The query is filtered by the caller's own id; the posts keep the
      store's order, and each author name follows the first name, full
      name, email, placeholder chain. */
  lemma UserPostsOfCaller(caller: User, result: Result<QueryResult<Post>>, lookup: string -> Option<Profile>)
    ensures var r := UserPostsReplyOf(Some(caller), result, lookup);
      && r.author == Some(caller.id)
      && (result.Err? ==> r.response == ServerError(ListError, result.message) && r.lookedUp == [])
      && (result.Ok? ==>
            var posts := Rows(result.value);
            && r.response.status == 200 && r.response.body.Data?
            && |r.response.body.value| == |posts| == |r.lookedUp|
            && forall i :: 0 <= i < |posts| ==>
                 && r.response.body.value[i].post == posts[i]
                 && r.lookedUp[i] == posts[i].author
                 && (lookup(posts[i].author).None? ==> r.response.body.value[i].authorName == UnknownEmail)
                 && (lookup(posts[i].author).Some? ==>
                       var p := lookup(posts[i].author).value;
                       r.response.body.value[i].authorName
                         == FirstTruthy([p.firstName, p.fullName, PrimaryEmail(p)], UnknownEmail)))
  {
    if result.Ok? {
      var posts := Rows(result.value);
      forall i | 0 <= i < |posts| && lookup(posts[i].author).Some? {
        AuthorNameIsFirstTruthy(lookup(posts[i].author).value);
      }
    }
  }
}
