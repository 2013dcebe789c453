/** The "Top Posts" cards: the answer of the top-posts route with a rank
    label per card, the like and favorite statuses fetched per post, the
    optimistic count updates after a toggle, and deletion. */
module TopPostsView {
  import opened Common
  import opened Identity
  import opened Store
  import opened ClientCommon
  import TopPostsRoute

  const FetchFallback: string := "Error to Catch Top Post`s"
  /** "Please sign in to delete the post". */
  const SignInToDelete: string := "لطفاً برای حذف پست وارد شوید"
  /** "Error deleting the post". */
  const DeleteFallback: string := "خطا در حذف پست"
  /** "Please sign in to like". */
  const SignInToLike: string := "لطفاً برای لایک کردن وارد شوید"
  /** "Error liking the post". */
  const LikeFallback: string := "خطا در لایک کردن پست"
  /** "Please sign in to add to favorites". */
  const SignInToFavorite: string := "لطفاً برای افزودن به علاقه‌مندی‌ها وارد شوید"
  /** "Error adding to favorites". */
  const FavoriteFallback: string := "خطا در افزودن به علاقه‌مندی‌ها"

  /** `getRankLabel(index)`. */
  function RankLabel(index: int): (r: string)
    ensures index == 0 ==> r == "1th Post"
    ensures index == 1 ==> r == "2nd Post"
    ensures index == 2 ==> r == "3rd Post"
    ensures r != "" <==> 0 <= index < 3
  {
    match index
    case 0 => "1th Post"
    case 1 => "2nd Post"
    case 2 => "3rd Post"
    case _ => ""
  }

  /** Every card of a top-posts answer gets a rank label, since the route
      answers at most three posts. */
  lemma EveryTopCardIsRanked(likesQ: Result<QueryResult<TopPostsRoute.Like>>, postsQ: Result<QueryResult<Post>>,
                             lookup: string -> Option<Profile>, i: int)
    requires likesQ.Ok? && postsQ.Ok?
    requires 0 <= i < |TopPostsRoute.TopPostsReply(likesQ, postsQ, lookup).response.body.value|
    ensures RankLabel(i) != ""
  {
    TopPostsRoute.TopPostsProperties(likesQ, postsQ, lookup);
  }

  class TopPosts {
    var posts: seq<ClientPost>
    var error: Option<string>
    var likeStatuses: map<string, LikeStatus>
    var favoriteStatuses: map<string, FavoriteStatus>
    var user: Option<User>

    constructor (user: Option<User>)
      ensures this.user == user
      ensures posts == [] && error == None && likeStatuses == map[] && favoriteStatuses == map[]
    {
      this.user := user;
      posts := [];
      error := None;
      likeStatuses := map[];
      favoriteStatuses := map[];
    }

    /** `fetchTopPosts` once the request settles (`Err`: the thrown message).
        The statuses are fetched only for a non-empty answer: each post's
        entry is the status its like or favorite request answered, and a
        request that is not ok, or throws, stores nothing for that post. */
    method ApplyFetch(outcome: Result<seq<ClientPost>>, likeFetch: string -> Option<LikeStatus>,
                      favoriteFetch: string -> FavoriteResponse)
      modifies this
      ensures user == old(user)
      ensures outcome.Err? ==> error == Some(OrDefault(outcome.message, FetchFallback))
      ensures outcome.Err? ==> posts == old(posts) && likeStatuses == old(likeStatuses)
      ensures outcome.Err? ==> favoriteStatuses == old(favoriteStatuses)
      ensures outcome.Ok? ==> posts == outcome.value && error == None
      ensures outcome.Ok? && outcome.value == [] ==>
        likeStatuses == old(likeStatuses) && favoriteStatuses == old(favoriteStatuses)
      ensures outcome.Ok? && outcome.value != [] ==> forall k :: k in likeStatuses <==> k in Ids(posts) && likeFetch(LikeUrl(k)).Some?
      ensures outcome.Ok? && outcome.value != [] ==> forall k :: k in favoriteStatuses <==> k in Ids(posts) && favoriteFetch(FavoriteUrl(k)).FavoriteOk?
      ensures outcome.Ok? && outcome.value != [] ==> forall k :: k in likeStatuses ==> likeStatuses[k] == likeFetch(LikeUrl(k)).value
      ensures outcome.Ok? && outcome.value != [] ==>
        forall k :: k in favoriteStatuses ==> favoriteStatuses[k] == favoriteFetch(FavoriteUrl(k)).status
    {
      match outcome
      case Err(m) =>
        error := Some(OrDefault(m, FetchFallback));
      case Ok(fetched) =>
        posts := fetched;
        error := None;
        if fetched != [] {
          likeStatuses := CollectLikeStatuses(fetched, likeFetch);
          favoriteStatuses := CollectFavoriteStatuses(fetched, favoriteFetch);
        }
    }

    /** `handleDelete(id)` and the delete request's outcome (`Err`: the
        thrown message). Signed out, only the error is set and no request is
        sent; after a successful delete exactly the posts with that id are
        gone. */
    method HandleDelete(id: string, outcome: Result<()>) returns (request: Option<string>)
      modifies this
      ensures user == old(user) && likeStatuses == old(likeStatuses) && favoriteStatuses == old(favoriteStatuses)
      ensures old(user).None? ==> request == None && error == Some(SignInToDelete) && posts == old(posts)
      ensures old(user).Some? ==> request == Some(DeleteUrl(id))
      ensures old(user).Some? && outcome.Ok? ==> posts == WithoutId(old(posts), id) && error == None
      ensures old(user).Some? && outcome.Err? ==>
        posts == old(posts) && error == Some(OrDefault(outcome.message, DeleteFallback))
    {
      if user.None? {
        error := Some(SignInToDelete);
        return None;
      }
      request := Some(DeleteUrl(id));
      match outcome
      case Ok(_) =>
        posts := WithoutId(posts, id);
        error := None;
      case Err(m) =>
        error := Some(OrDefault(m, DeleteFallback));
    }

    /** `handleLike(postId)` and the like request's outcome (`Ok(liked)`).
        The count moves by one in the direction of `liked`; a post without
        a status keeps none. */
    method HandleLike(postId: string, outcome: Result<bool>) returns (request: Option<string>)
      modifies this
      ensures user == old(user) && posts == old(posts) && favoriteStatuses == old(favoriteStatuses)
      ensures old(user).None? ==> request == None && error == Some(SignInToLike)
      ensures old(user).None? ==> likeStatuses == old(likeStatuses)
      ensures old(user).Some? ==> request == Some(LikeUrl(postId))
      ensures old(user).Some? && outcome.Ok? && postId in old(likeStatuses) ==>
        likeStatuses == AdjustLike(old(likeStatuses), postId, outcome.value).value
      ensures old(user).Some? && outcome.Ok? && postId !in old(likeStatuses) ==> likeStatuses == old(likeStatuses)
      ensures old(user).Some? && outcome.Err? ==>
        likeStatuses == old(likeStatuses) && error == Some(OrDefault(outcome.message, LikeFallback))
    {
      if user.None? {
        error := Some(SignInToLike);
        return None;
      }
      request := Some(LikeUrl(postId));
      match outcome
      case Ok(liked) =>
        var adjusted := AdjustLike(likeStatuses, postId, liked);
        if adjusted.Some? {
          likeStatuses := adjusted.value;
        }
      case Err(m) =>
        error := Some(OrDefault(m, LikeFallback));
    }

    /** `handleFavorite(postId)`: the same rule with `favorited`, and the
        error cleared on success. */
    method HandleFavorite(postId: string, outcome: Result<bool>) returns (request: Option<string>)
      modifies this
      ensures user == old(user) && posts == old(posts) && likeStatuses == old(likeStatuses)
      ensures old(user).None? ==> request == None && error == Some(SignInToFavorite)
      ensures old(user).None? ==> favoriteStatuses == old(favoriteStatuses)
      ensures old(user).Some? ==> request == Some(FavoriteUrl(postId))
      ensures old(user).Some? && outcome.Ok? && postId in old(favoriteStatuses) ==>
        favoriteStatuses == AdjustFavorite(old(favoriteStatuses), postId, outcome.value).value
      ensures old(user).Some? && outcome.Ok? && postId !in old(favoriteStatuses) ==>
        favoriteStatuses == old(favoriteStatuses)
      ensures old(user).Some? && outcome.Ok? ==> error == None
      ensures old(user).Some? && outcome.Err? ==>
        favoriteStatuses == old(favoriteStatuses) && error == Some(OrDefault(outcome.message, FavoriteFallback))
    {
      if user.None? {
        error := Some(SignInToFavorite);
        return None;
      }
      request := Some(FavoriteUrl(postId));
      match outcome
      case Ok(favorited) =>
        var adjusted := AdjustFavorite(favoriteStatuses, postId, favorited);
        if adjusted.Some? {
          favoriteStatuses := adjusted.value;
        }
        error := None;
      case Err(m) =>
        error := Some(OrDefault(m, FavoriteFallback));
    }
  }
}
