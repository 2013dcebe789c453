/** The "Recent Posts" cards: the four newest posts, their like and
    favorite statuses, the optimistic count updates after a toggle, and
    deletion. The status loop of the source gates the favorite status on the
    like request's answer; that loop is modelled as written next to the
    corrected one the view uses. */
module RecentPostsView {
  import opened Common
  import opened Identity
  import opened ClientCommon
  import JsNumber
  import PostsRoute

  const RecentUrl: string := "/api/posts?limit=4"
  const FetchFallback: string := "Error fetching recent posts"
  const SignInToDelete: string := "Please sign in to delete a post"
  const DeleteFallback: string := "Error deleting post"
  const SignInToLike: string := "Please sign in to like a post"
  const LikeFallback: string := "Error liking post"
  const SignInToFavorite: string := "Please sign in to add to favorites"
  const FavoriteFallback: string := "Error adding to favorites"

  /** The list request asks the posts route for the four newest posts. */
  lemma RecentUrlAsksForFour()
    ensures RecentUrl == "/api/posts?limit=" + JsNumber.Decimal(4)
    ensures PostsRoute.LimitOf(Some(JsNumber.Decimal(4))) == 4
    ensures PostsRoute.ListSql(PostsRoute.LimitOf(Some("4"))) == PostsRoute.BaseSql + " LIMIT 4"
  {
    assert JsNumber.Decimal(4) == "4";
    PostsRoute.DecimalLimitParameter(4);
  }

  /** What `await favoriteRes.json()` yields: the status of an ok answer,
      the error body of any other. */
  datatype FavoriteBody = StatusBody(status: FavoriteStatus) | ErrorBody(error: string)

  function BodyOf(answer: FavoriteResponse): (b: FavoriteBody)
    ensures b.StatusBody? <==> answer.FavoriteOk?
    ensures answer.FavoriteOk? ==> b.status == answer.status
    ensures answer.FavoriteFailed? ==> b.error == answer.error
  {
    match answer
    case FavoriteOk(s) => StatusBody(s)
    case FavoriteFailed(e) => ErrorBody(e)
  }

  /** The map the source's loop fills, as written: a post's favorite body
      is stored exactly when its like request was ok, whatever the favorite
      request answered. */
  ghost predicate FilledAsWritten(posts: seq<ClientPost>, likeFetch: string -> Option<LikeStatus>,
                            favoriteFetch: string -> FavoriteResponse, m: map<string, FavoriteBody>)
  {
    && (forall k :: k in m <==> k in Ids(posts) && likeFetch(LikeUrl(k)).Some?)
    && (forall k :: k in m ==> m[k] == BodyOf(favoriteFetch(FavoriteUrl(k))))
  }

  /** The favorite half of the source's status loop, as written. */
  method CollectFavoriteBodiesAsWritten(posts: seq<ClientPost>, likeFetch: string -> Option<LikeStatus>,
                                        favoriteFetch: string -> FavoriteResponse)
    returns (bodies: map<string, FavoriteBody>)
    ensures FilledAsWritten(posts, likeFetch, favoriteFetch, bodies)
  {
    bodies := map[];
    assert posts[..|posts|] == posts;
    for i := 0 to |posts|
      invariant forall k :: k in bodies <==> k in Ids(posts[..i]) && likeFetch(LikeUrl(k)).Some?
      invariant forall k :: k in bodies ==> bodies[k] == BodyOf(favoriteFetch(FavoriteUrl(k)))
    {
      IdsOfPrefix(posts, i);
      var id := posts[i].id;
      var likeAnswer := likeFetch(LikeUrl(id));
      var favoriteAnswer := favoriteFetch(FavoriteUrl(id));
      if likeAnswer.Some? {
        bodies := bodies[id := BodyOf(favoriteAnswer)];
      }
    }
  }

  /** The two ways the as-written gate goes wrong for a single post: with
      the like request ok and the favorite request failing, the error body
      is stored as the post's favorite status; with the like request failing
      and the favorite request ok, the real status is dropped. */
  lemma FavoriteGateCounterexamples(p: ClientPost, likeFetch: string -> Option<LikeStatus>,
                                    favoriteFetch: string -> FavoriteResponse, m: map<string, FavoriteBody>)
    requires FilledAsWritten([p], likeFetch, favoriteFetch, m)
    ensures likeFetch(LikeUrl(p.id)).Some? && favoriteFetch(FavoriteUrl(p.id)).FavoriteFailed? ==>
      p.id in m && m[p.id] == ErrorBody(favoriteFetch(FavoriteUrl(p.id)).error)
    ensures likeFetch(LikeUrl(p.id)).None? && favoriteFetch(FavoriteUrl(p.id)).FavoriteOk? ==> p.id !in m
  {
    if likeFetch(LikeUrl(p.id)).Some? {
      assert [p][0].id == p.id;
    }
  }

  /** The corrected gate stores a status exactly for the ok favorite
      answers, independently of the like answers: it agrees with the
      as-written map exactly on the posts where the two answers are both ok. */
  lemma CorrectedGateAgreesWhenBothOk(posts: seq<ClientPost>, likeFetch: string -> Option<LikeStatus>,
                                      favoriteFetch: string -> FavoriteResponse,
                                      m: map<string, FavoriteBody>, statuses: map<string, FavoriteStatus>, k: string)
    requires FilledAsWritten(posts, likeFetch, favoriteFetch, m)
    requires forall k :: k in statuses <==> k in Ids(posts) && favoriteFetch(FavoriteUrl(k)).FavoriteOk?
    requires forall k :: k in statuses ==> statuses[k] == favoriteFetch(FavoriteUrl(k)).status
    requires likeFetch(LikeUrl(k)).Some? && favoriteFetch(FavoriteUrl(k)).FavoriteOk?
    ensures k in m <==> k in statuses
    ensures k in statuses ==> m[k] == StatusBody(statuses[k])
  {
  }

  class RecentPosts {
    var posts: seq<ClientPost>
    var error: Option<string>
    var likeStatuses: map<string, LikeStatus>
    var favoriteStatuses: map<string, FavoriteStatus>
    var user: Option<User>

    constructor (user: Option<User>)
      ensures this.user == user
      ensures posts == [] && error == None && likeStatuses == map[] && favoriteStatuses == map[]
    {
      this.user := user;
      posts := [];
      error := None;
      likeStatuses := map[];
      favoriteStatuses := map[];
    }

    /** `fetchRecentPosts` once the list request settles (`Err`: the thrown
        message), with the favorite statuses gated on the favorite answer. */
    method ApplyFetch(outcome: Result<seq<ClientPost>>, likeFetch: string -> Option<LikeStatus>,
                      favoriteFetch: string -> FavoriteResponse)
      modifies this
      ensures user == old(user)
      ensures outcome.Err? ==> error == Some(OrDefault(outcome.message, FetchFallback))
      ensures outcome.Err? ==> posts == old(posts) && likeStatuses == old(likeStatuses)
      ensures outcome.Err? ==> favoriteStatuses == old(favoriteStatuses)
      ensures outcome.Ok? ==> posts == outcome.value && error == None
      ensures outcome.Ok? ==> forall k :: k in likeStatuses <==> k in Ids(posts) && likeFetch(LikeUrl(k)).Some?
      ensures outcome.Ok? ==> forall k :: k in likeStatuses ==> likeStatuses[k] == likeFetch(LikeUrl(k)).value
      ensures outcome.Ok? ==> forall k :: k in favoriteStatuses <==> k in Ids(posts) && favoriteFetch(FavoriteUrl(k)).FavoriteOk?
      ensures outcome.Ok? ==> forall k :: k in favoriteStatuses ==>
        favoriteStatuses[k] == favoriteFetch(FavoriteUrl(k)).status
    {
      match outcome
      case Err(m) =>
        error := Some(OrDefault(m, FetchFallback));
      case Ok(fetched) =>
        posts := fetched;
        error := None;
        likeStatuses := CollectLikeStatuses(fetched, likeFetch);
        favoriteStatuses := CollectFavoriteStatuses(fetched, favoriteFetch);
    }

    /** `handleDelete(id)` and the delete request's outcome. */
    method HandleDelete(id: string, outcome: Result<()>) returns (request: Option<string>)
      modifies this
      ensures user == old(user) && likeStatuses == old(likeStatuses) && favoriteStatuses == old(favoriteStatuses)
      ensures old(user).None? ==> request == None && error == Some(SignInToDelete) && posts == old(posts)
      ensures old(user).Some? ==> request == Some(DeleteUrl(id))
      ensures old(user).Some? && outcome.Ok? ==> posts == WithoutId(old(posts), id) && error == None
      ensures old(user).Some? && outcome.Err? ==>
        posts == old(posts) && error == Some(OrDefault(outcome.message, DeleteFallback))
    {
      if user.None? {
        error := Some(SignInToDelete);
        return None;
      }
      request := Some(DeleteUrl(id));
      match outcome
      case Ok(_) =>
        posts := WithoutId(posts, id);
        error := None;
      case Err(m) =>
        error := Some(OrDefault(m, DeleteFallback));
    }

    /** `handleLike(postId)`: the count moves by one in the direction of
        `liked` and the error is cleared. */
    method HandleLike(postId: string, outcome: Result<bool>) returns (request: Option<string>)
      modifies this
      ensures user == old(user) && posts == old(posts) && favoriteStatuses == old(favoriteStatuses)
      ensures old(user).None? ==> request == None && error == Some(SignInToLike)
      ensures old(user).None? ==> likeStatuses == old(likeStatuses)
      ensures old(user).Some? ==> request == Some(LikeUrl(postId))
      ensures old(user).Some? && outcome.Ok? && postId in old(likeStatuses) ==>
        likeStatuses == AdjustLike(old(likeStatuses), postId, outcome.value).value
      ensures old(user).Some? && outcome.Ok? && postId !in old(likeStatuses) ==> likeStatuses == old(likeStatuses)
      ensures old(user).Some? && outcome.Ok? ==> error == None
      ensures old(user).Some? && outcome.Err? ==>
        likeStatuses == old(likeStatuses) && error == Some(OrDefault(outcome.message, LikeFallback))
    {
      if user.None? {
        error := Some(SignInToLike);
        return None;
      }
      request := Some(LikeUrl(postId));
      match outcome
      case Ok(liked) =>
        var adjusted := AdjustLike(likeStatuses, postId, liked);
        if adjusted.Some? {
          likeStatuses := adjusted.value;
        }
        error := None;
      case Err(m) =>
        error := Some(OrDefault(m, LikeFallback));
    }

    /** `handleFavorite(postId)`: the same rule with `favorited`. */
    method HandleFavorite(postId: string, outcome: Result<bool>) returns (request: Option<string>)
      modifies this
      ensures user == old(user) && posts == old(posts) && likeStatuses == old(likeStatuses)
      ensures old(user).None? ==> request == None && error == Some(SignInToFavorite)
      ensures old(user).None? ==> favoriteStatuses == old(favoriteStatuses)
      ensures old(user).Some? ==> request == Some(FavoriteUrl(postId))
      ensures old(user).Some? && outcome.Ok? && postId in old(favoriteStatuses) ==>
        favoriteStatuses == AdjustFavorite(old(favoriteStatuses), postId, outcome.value).value
      ensures old(user).Some? && outcome.Ok? && postId !in old(favoriteStatuses) ==>
        favoriteStatuses == old(favoriteStatuses)
      ensures old(user).Some? && outcome.Ok? ==> error == None
      ensures old(user).Some? && outcome.Err? ==>
        favoriteStatuses == old(favoriteStatuses) && error == Some(OrDefault(outcome.message, FavoriteFallback))
    {
      if user.None? {
        error := Some(SignInToFavorite);
        return None;
      }
      request := Some(FavoriteUrl(postId));
      match outcome
      case Ok(favorited) =>
        var adjusted := AdjustFavorite(favoriteStatuses, postId, favorited);
        if adjusted.Some? {
          favoriteStatuses := adjusted.value;
        }
        error := None;
      case Err(m) =>
        error := Some(OrDefault(m, FavoriteFallback));
    }
  }
}
