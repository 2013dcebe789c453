/** GET /api/favorites/user: the posts the signed-in caller has marked as
    favorite, optionally narrowed by a text query, each with its author's
    name and the time it was favorited. */
module FavoritesUserRoute {
  import opened Common
  import opened Identity
  import opened Store

  const PostsPrefix: string := "posts:"
  const PleaseSignIn: string := "Please sign in to view favorites"
  const FavoritesError: string := "Error fetching user favorites"

  /** A favorite's `postId`, stored either as text or as a record id. */
  datatype PostRef = Text(s: string) | Ref(r: RecordId)

  datatype Favorite = Favorite(postId: PostRef, createdAt: int)

  /** `typeof postId === 'string' ? postId : postId.toString()`. */
  function RefString(p: PostRef): (r: string)
    ensures p.Text? ==> r == p.s
    ensures p.Ref? ==> r == KeyString(p.r) && StartsWith(r, p.r.table + ":")
  {
    match p
    case Text(s) => s
    case Ref(r) => KeyString(r)
  }

  /** `searchParams.get('q')?.trim() || ''`. */
  function QueryOf(q: Option<string>): (r: string)
    ensures q.None? ==> r == ""
    ensures q.Some? ==> r == Trim(q.value)
  {
    match q
    case None => ""
    case Some(s) => Trim(s)
  }

  /** One favorite's post as a `posts` record id: a leading `posts:` is
      removed once (`replace` drops the first occurrence, which is the
      leading one). */
  function PostRecord(f: Favorite): (r: RecordId)
    ensures r.table == "posts"
    ensures StartsWith(RefString(f.postId), PostsPrefix) ==> PostsPrefix + r.id == RefString(f.postId)
    ensures !StartsWith(RefString(f.postId), PostsPrefix) ==> r.id == RefString(f.postId)
  {
    var s := RefString(f.postId);
    RecordId("posts", if StartsWith(s, PostsPrefix) then s[|PostsPrefix|..] else s)
  }

  /** The `favorites.map(...)`: one record id per favorite, in order. */
  function PostRecords(favorites: seq<Favorite>): (r: seq<RecordId>)
    ensures |r| == |favorites|
    ensures forall i :: 0 <= i < |r| ==> r[i] == PostRecord(favorites[i])
  {
    seq(|favorites|, i requires 0 <= i < |favorites| => PostRecord(favorites[i]))
  }

  /** A favorite that refers to post `id` by record, by prefixed text or by
      bare text yields the record `posts:id` (for an `id` that does not
      itself begin with `posts:`). */
  lemma PostRecordRoundTrip(id: string, createdAt: int)
    requires !StartsWith(id, PostsPrefix)
    ensures PostRecord(Favorite(Ref(RecordId("posts", id)), createdAt)) == RecordId("posts", id)
    ensures PostRecord(Favorite(Text(PostsPrefix + id), createdAt)) == RecordId("posts", id)
    ensures PostRecord(Favorite(Text(id), createdAt)) == RecordId("posts", id)
  {
    assert KeyString(RecordId("posts", id)) == PostsPrefix + id;
    assert (PostsPrefix + id)[..|PostsPrefix|] == PostsPrefix;
    assert (PostsPrefix + id)[|PostsPrefix|..] == id;
  }

  /** `favorites.find(fav => String(fav.postId) === id)?.created_at`. */
  function FavoritedAt(favorites: seq<Favorite>, id: string): (r: Option<int>)
    ensures r.Some? ==> exists f :: f in favorites && RefString(f.postId) == id && f.createdAt == r.value
  {
    if favorites == [] then None
    else if RefString(favorites[0].postId) == id then Some(favorites[0].createdAt)
    else FavoritedAt(favorites[1..], id)
  }

  /** The time of the first favorite of post `id`, and `None` exactly when
      no favorite refers to it. */
  lemma {:induction false} FavoritedAtFindsFirst(favorites: seq<Favorite>, id: string)
    ensures FavoritedAt(favorites, id).None? <==> forall i :: 0 <= i < |favorites| ==> RefString(favorites[i].postId) != id
    ensures FavoritedAt(favorites, id).Some? ==>
      exists i :: 0 <= i < |favorites| && RefString(favorites[i].postId) == id
        && (forall j :: 0 <= j < i ==> RefString(favorites[j].postId) != id)
        && FavoritedAt(favorites, id).value == favorites[i].createdAt
  {
    if favorites != [] && RefString(favorites[0].postId) != id {
      var tail := favorites[1..];
      FavoritedAtFindsFirst(tail, id);
      assert forall i :: 1 <= i < |favorites| ==> favorites[i] == tail[i - 1];
      if FavoritedAt(tail, id).Some? {
        var k :| 0 <= k < |tail| && RefString(tail[k].postId) == id
          && (forall j :: 0 <= j < k ==> RefString(tail[j].postId) != id)
          && FavoritedAt(tail, id).value == tail[k].createdAt;
        assert RefString(favorites[k + 1].postId) == id;
        assert forall j :: 0 <= j < k + 1 ==> RefString(favorites[j].postId) != id by {
          forall j | 0 <= j < k + 1 ensures RefString(favorites[j].postId) != id {
            if j > 0 { assert favorites[j] == tail[j - 1]; }
          }
        }
      } else {
        forall i | 0 <= i < |favorites| ensures RefString(favorites[i].postId) != id {
          if i > 0 { assert favorites[i] == tail[i - 1]; }
        }
      }
    }
  }

  /** The posts query the handler issues. */
  datatype PostsQuery = InIds(ids: seq<RecordId>) | InIdsMatching(ids: seq<RecordId>, query: string)

  datatype FavoritePost = FavoritePost(post: Post, authorName: string, favoritedAt: Option<int>)

  /** The answer, the user id the favorites query was bound to, the posts
      query (`None`: not issued) and the authors looked up. */
  datatype FavoritesReply = FavoritesReply(response: Response<seq<FavoritePost>>, favoritesOf: Option<string>,
                                           postsQuery: Option<PostsQuery>, lookedUp: seq<string>)

  function Enriched(posts: seq<Post>, favorites: seq<Favorite>, lookup: string -> Option<Profile>): (r: seq<FavoritePost>)
    ensures |r| == |posts|
    ensures forall i :: 0 <= i < |r| ==>
      r[i] == FavoritePost(posts[i], AuthorName(lookup(posts[i].author)), FavoritedAt(favorites, posts[i].id))
  {
    seq(|posts|, i requires 0 <= i < |posts| =>
      FavoritePost(posts[i], AuthorName(lookup(posts[i].author)), FavoritedAt(favorites, posts[i].id)))
  }

  /** GET for the caller, the raw `q` parameter, the store's answers to the
      favorites query and to the posts query (`Err`: connecting or the query
      threw) and the profile lookup. */
  function FavoritesReplyOf(caller: Option<User>, q: Option<string>,
                            favoritesQ: Result<QueryResult<Favorite>>, postsQ: Result<QueryResult<Post>>,
                            lookup: string -> Option<Profile>): (r: FavoritesReply)
    ensures r.response.status in {200, 401, 500}
    ensures r.favoritesOf.Some? <==> caller.Some?
    ensures r.favoritesOf.Some? ==> r.favoritesOf.value == caller.value.id
    ensures r.postsQuery.Some? ==> r.favoritesOf.Some? && r.postsQuery.value.ids != []
  {
    if caller.None? then FavoritesReply(ClientError(401, PleaseSignIn), None, None, [])
    else
      var query := QueryOf(q);
      var who := Some(caller.value.id);
      match favoritesQ
      case Err(m) => FavoritesReply(ServerError(FavoritesError, m), who, None, [])
      case Ok(fq) =>
        var favorites := FirstStatementRows(fq);
        var ids := PostRecords(favorites);
        if |ids| == 0 then FavoritesReply(Response(200, Data([])), who, None, [])
        else
          var pq := if query != "" then InIdsMatching(ids, query) else InIds(ids);
          match postsQ
          case Err(m) => FavoritesReply(ServerError(FavoritesError, m), who, Some(pq), [])
          case Ok(r) =>
            var posts := FirstStatementRows(r);
            FavoritesReply(Response(200, Data(Enriched(posts, favorites, lookup))), who, Some(pq), Authors(posts))
  }

  /** No caller: 401 and no query at all. */
  lemma FavoritesNeedCaller(q: Option<string>, favoritesQ: Result<QueryResult<Favorite>>,
                            postsQ: Result<QueryResult<Post>>, lookup: string -> Option<Profile>)
    ensures FavoritesReplyOf(None, q, favoritesQ, postsQ, lookup)
         == FavoritesReply(ClientError(401, PleaseSignIn), None, None, [])
  {
  }

  /** No favorites: `[]` with 200, and the posts table is not queried. */
  lemma NoFavoritesShortCircuit(caller: User, q: Option<string>, fq: QueryResult<Favorite>,
                                postsQ: Result<QueryResult<Post>>, lookup: string -> Option<Profile>)
    requires FirstStatementRows(fq) == []
    ensures FavoritesReplyOf(Some(caller), q, Ok(fq), postsQ, lookup)
         == FavoritesReply(Response(200, Data([])), Some(caller.id), None, [])
  {
  }

  /** With favorites, the posts query asks for exactly their record ids, in
      order, and carries a text match iff the trimmed query is non-empty;
      each returned post keeps its place, gets its author's name and the
      `created_at` of its first favorite, whether or not the lookup failed. */
  lemma FavoritesQueryAndEnrichment(caller: User, q: Option<string>, fq: QueryResult<Favorite>,
                                    postsQ: Result<QueryResult<Post>>, lookup: string -> Option<Profile>)
    requires FirstStatementRows(fq) != []
    ensures var favorites := FirstStatementRows(fq);
      var r := FavoritesReplyOf(Some(caller), q, Ok(fq), postsQ, lookup);
      && r.favoritesOf == Some(caller.id)
      && r.postsQuery.Some?
      && r.postsQuery.value.ids == PostRecords(favorites)
      && (r.postsQuery.value.InIdsMatching? <==> QueryOf(q) != "")
      && (r.postsQuery.value.InIdsMatching? ==> r.postsQuery.value.query == QueryOf(q))
      && (postsQ.Err? ==> r.response == ServerError(FavoritesError, postsQ.message))
      && (postsQ.Ok? ==>
            var posts := FirstStatementRows(postsQ.value);
            && r.response.status == 200 && r.response.body.Data?
            && |r.response.body.value| == |posts|
            && forall i :: 0 <= i < |posts| ==>
                 && r.response.body.value[i].post == posts[i]
                 && r.response.body.value[i].authorName == AuthorName(lookup(posts[i].author))
                 && r.response.body.value[i].favoritedAt == FavoritedAt(favorites, posts[i].id))
  {
  }
}
