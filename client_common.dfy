/** What the client views share: the post as the views hold it, the like
    and favorite statuses keyed by post id, the request paths built from a
    record key, the delete-by-id list update, the controls a signed-in user
    sees, and the optimistic count adjustment after a like or favorite
    toggle. */
module ClientCommon {
  import opened Common
  import opened Identity

  /** A post as the views receive it. `id` is the record key `posts:...`. */
  datatype ClientPost = ClientPost(id: string, title: string, content: string, author: string,
                                   authorName: string, createdAt: int)

  datatype LikeStatus = LikeStatus(likesCount: int, userLiked: bool)

  datatype FavoriteStatus = FavoriteStatus(favoritesCount: int, userFavorited: bool)

  /** A favorite-status response: an ok one carries the status, any other
      carries the error body the route sends. */
  datatype FavoriteResponse = FavoriteOk(status: FavoriteStatus) | FavoriteFailed(error: string)

  /** `${id.split(':')[1]}`: the segment after the table prefix, or the
      text "undefined" when the id has no colon. */
  function UrlSegment(id: string): (r: string)
    ensures SplitSecond(id).Some? ==> r == SplitSecond(id).value
    ensures SplitSecond(id).None? ==> r == "undefined"
  {
    match SplitSecond(id)
    case Some(seg) => seg
    case None => "undefined"
  }

  /** The request path for a record key is built from the bare id. */
  lemma UrlSegmentOfKey(table: string, id: string)
    requires ':' !in table && ':' !in id
    ensures UrlSegment(table + ":" + id) == id
  {
    SplitSecondOfKey(table, id, "");
    assert table + ":" + id + "" == table + ":" + id;
  }

  /** The like route for a post. An id without a colon asks for
      `/api/likes/undefined`. */
  function LikeUrl(id: string): (r: string)
    ensures ':' !in id ==> r == "/api/likes/undefined"
    ensures SplitSecond(id).Some? ==> r == "/api/likes/" + SplitSecond(id).value
  {
    "/api/likes/" + UrlSegment(id)
  }

  /** The favorite route for a post, by the same rule. */
  function FavoriteUrl(id: string): (r: string)
    ensures ':' !in id ==> r == "/api/favorites/undefined"
    ensures SplitSecond(id).Some? ==> r == "/api/favorites/" + SplitSecond(id).value
  {
    "/api/favorites/" + UrlSegment(id)
  }

  /** The delete route for a post, by the same rule. */
  function DeleteUrl(id: string): (r: string)
    ensures ':' !in id ==> r == "/api/posts/undefined/delete"
    ensures SplitSecond(id).Some? ==> r == "/api/posts/" + SplitSecond(id).value + "/delete"
  {
    "/api/posts/" + UrlSegment(id) + "/delete"
  }

  /** For a record key `table:id` every request names the bare id. */
  lemma RequestUrlsOfKey(table: string, id: string)
    requires ':' !in table && ':' !in id
    ensures LikeUrl(table + ":" + id) == "/api/likes/" + id
    ensures FavoriteUrl(table + ":" + id) == "/api/favorites/" + id
    ensures DeleteUrl(table + ":" + id) == "/api/posts/" + id + "/delete"
  {
    UrlSegmentOfKey(table, id);
  }

  /** `truncateContent(content, maxLength)` of the post cards: the content
      itself when it fits, else its first `maxLength` characters and "...". */
  function TruncateContent(content: string, maxLength: nat): (r: string)
    ensures |content| <= maxLength ==> r == content
    ensures |content| > maxLength ==> r == content[..maxLength] + "..."
    ensures |r| <= maxLength + 3
    ensures var n := if |content| < maxLength then |content| else maxLength;
      n <= |r| && r[..n] == content[..n]
  {
    if |content| <= maxLength then content else content[..maxLength] + "..."
  }

  /** The cards call it with the default length, 100. */
  const CardContentLength: nat := 100

  /** Truncating a card's text a second time changes nothing. */
  lemma TruncateIdempotent(content: string, maxLength: nat)
    ensures TruncateContent(TruncateContent(content, maxLength), maxLength) == TruncateContent(content, maxLength)
  {
    var r := TruncateContent(content, maxLength);
    if |content| > maxLength {
      assert r[..maxLength] == content[..maxLength];
    }
  }

  /** `statuses[id]?.likesCount || 0`. */
  function LikesOf(statuses: map<string, LikeStatus>, id: string): (n: int)
    ensures id !in statuses ==> n == 0
    ensures id in statuses ==> n == statuses[id].likesCount
  {
    if id in statuses then statuses[id].likesCount else 0
  }

  /** `posts.filter(post => post.id !== id)`. */
  function WithoutId(posts: seq<ClientPost>, id: string): (r: seq<ClientPost>)
    ensures forall p :: p in r <==> p in posts && p.id != id
    ensures IsSubsequence(r, posts)
    ensures forall p :: multiset(r)[p] == if p.id != id then multiset(posts)[p] else 0
  {
    if posts == [] then []
    else
      var rest := WithoutId(posts[1..], id);
      assert posts == [posts[0]] + posts[1..];
      if posts[0].id != id then
        assert ([posts[0]] + rest)[1..] == rest;
        [posts[0]] + rest
      else rest
  }

  /** Deleting twice is deleting once, and posts with other ids keep their
      relative order. */
  lemma WithoutIdIdempotent(posts: seq<ClientPost>, id: string)
    ensures WithoutId(WithoutId(posts, id), id) == WithoutId(posts, id)
  {
    WithoutIdKeeps(WithoutId(posts, id), id);
  }

  lemma {:induction false} WithoutIdKeeps(posts: seq<ClientPost>, id: string)
    requires forall p :: p in posts ==> p.id != id
    ensures WithoutId(posts, id) == posts
  {
    if posts != [] {
      assert posts[0] in posts;
      assert forall p :: p in posts[1..] ==> p in posts;
      WithoutIdKeeps(posts[1..], id);
      assert posts == [posts[0]] + posts[1..];
    }
  }

  /** The edit control: only the post's author sees it. */
  predicate CanEdit(user: Option<User>, author: string)
    ensures CanEdit(user, author) ==> user.Some? && CanDelete(user, author)
  {
    user.Some? && author == user.value.id
  }

  /** The delete control of the top and recent cards: the author or an admin. */
  predicate CanDelete(user: Option<User>, author: string)
    ensures CanDelete(user, author) ==> user.Some?
    ensures user.Some? && IsAdmin(user.value) ==> CanDelete(user, author)
  {
    user.Some? && (author == user.value.id || IsAdmin(user.value))
  }

  /** Who sees which control: nobody when signed out; whoever may edit may
      delete; an admin may delete any post, and a non-admin only their own. */
  lemma Visibility(user: Option<User>, author: string)
    ensures user.None? ==> !CanEdit(user, author) && !CanDelete(user, author)
    ensures CanEdit(user, author) ==> CanDelete(user, author)
    ensures user.Some? && IsAdmin(user.value) ==> CanDelete(user, author)
    ensures user.Some? && !IsAdmin(user.value) ==> (CanDelete(user, author) <==> CanEdit(user, author))
  {
  }

  /** The like-status update after a toggle: one more like when `liked`,
      one fewer otherwise, and `userLiked` set to `liked`. `None` when the
      post has no status yet: the source's update then reads a property of
      `undefined` and throws. */
  function AdjustLike(prev: map<string, LikeStatus>, postId: string, liked: bool): (r: Option<map<string, LikeStatus>>)
    ensures r.None? <==> postId !in prev
    ensures r.Some? ==> r.value.Keys == prev.Keys
    ensures r.Some? ==> r.value[postId] == LikeStatus(prev[postId].likesCount + (if liked then 1 else -1), liked)
    ensures r.Some? ==> forall k :: k in prev && k != postId ==> r.value[k] == prev[k]
  {
    if postId in prev then
      Some(prev[postId := LikeStatus(prev[postId].likesCount + (if liked then 1 else -1), liked)])
    else None
  }

  /** The same rule for favorites. */
  function AdjustFavorite(prev: map<string, FavoriteStatus>, postId: string, favorited: bool)
    : (r: Option<map<string, FavoriteStatus>>)
    ensures r.None? <==> postId !in prev
    ensures r.Some? ==> r.value.Keys == prev.Keys
    ensures r.Some? ==> r.value[postId] == FavoriteStatus(prev[postId].favoritesCount + (if favorited then 1 else -1), favorited)
    ensures r.Some? ==> forall k :: k in prev && k != postId ==> r.value[k] == prev[k]
  {
    if postId in prev then
      Some(prev[postId := FavoriteStatus(prev[postId].favoritesCount + (if favorited then 1 else -1), favorited)])
    else None
  }

  /** A like followed by an unlike restores the count, and leaves the post
      marked as not liked. */
  lemma LikeThenUnlike(prev: map<string, LikeStatus>, postId: string)
    requires postId in prev
    ensures var once := AdjustLike(prev, postId, true).value;
      AdjustLike(once, postId, false) == Some(prev[postId := LikeStatus(prev[postId].likesCount, false)])
  {
    var once := AdjustLike(prev, postId, true).value;
    var twice := AdjustLike(once, postId, false).value;
    assert twice == prev[postId := LikeStatus(prev[postId].likesCount, false)];
  }

  /** The favorite toggle, the other way round. */
  lemma UnfavoriteThenFavorite(prev: map<string, FavoriteStatus>, postId: string)
    requires postId in prev
    ensures var once := AdjustFavorite(prev, postId, false).value;
      AdjustFavorite(once, postId, true) == Some(prev[postId := FavoriteStatus(prev[postId].favoritesCount, true)])
  {
    var once := AdjustFavorite(prev, postId, false).value;
    var twice := AdjustFavorite(once, postId, true).value;
    assert twice == prev[postId := FavoriteStatus(prev[postId].favoritesCount, true)];
  }

  /** The ids of a list of posts. */
  function Ids(posts: seq<ClientPost>): set<string> {
    set p | p in posts :: p.id
  }

  /** One more post adds its id. */
  lemma IdsOfPrefix(posts: seq<ClientPost>, i: nat)
    requires i < |posts|
    ensures Ids(posts[..i + 1]) == Ids(posts[..i]) + {posts[i].id}
  {
    assert posts[..i + 1] == posts[..i] + [posts[i]];
  }

  /** The status-fetching loop: for each post, the like status the like
      route answers for it is stored under its id when the answer was ok
      (`None`: not ok, or the request threw). */
  method CollectLikeStatuses(posts: seq<ClientPost>, likeFetch: string -> Option<LikeStatus>)
    returns (statuses: map<string, LikeStatus>)
    ensures forall k :: k in statuses <==> k in Ids(posts) && likeFetch(LikeUrl(k)).Some?
    ensures forall k :: k in statuses ==> statuses[k] == likeFetch(LikeUrl(k)).value
  {
    statuses := map[];
    assert posts[..|posts|] == posts;
    for i := 0 to |posts|
      invariant forall k :: k in statuses <==> k in Ids(posts[..i]) && likeFetch(LikeUrl(k)).Some?
      invariant forall k :: k in statuses ==> statuses[k] == likeFetch(LikeUrl(k)).value
    {
      IdsOfPrefix(posts, i);
      var id := posts[i].id;
      var answer := likeFetch(LikeUrl(id));
      if answer.Some? {
        statuses := statuses[id := answer.value];
      }
    }
  }

  /** The favorite-status loop: an ok answer's status is stored under the
      post's id, and nothing is stored for any other answer. */
  method CollectFavoriteStatuses(posts: seq<ClientPost>, favoriteFetch: string -> FavoriteResponse)
    returns (statuses: map<string, FavoriteStatus>)
    ensures forall k :: k in statuses <==> k in Ids(posts) && favoriteFetch(FavoriteUrl(k)).FavoriteOk?
    ensures forall k :: k in statuses ==> statuses[k] == favoriteFetch(FavoriteUrl(k)).status
  {
    statuses := map[];
    assert posts[..|posts|] == posts;
    for i := 0 to |posts|
      invariant forall k :: k in statuses <==> k in Ids(posts[..i]) && favoriteFetch(FavoriteUrl(k)).FavoriteOk?
      invariant forall k :: k in statuses ==> statuses[k] == favoriteFetch(FavoriteUrl(k)).status
    {
      IdsOfPrefix(posts, i);
      var id := posts[i].id;
      var answer := favoriteFetch(FavoriteUrl(id));
      if answer.FavoriteOk? {
        statuses := statuses[id := answer.status];
      }
    }
  }
}
