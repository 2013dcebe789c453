/** The favorites page (`/favorites`): the signed-in user's favorite
    posts, or those matching `q`; choosing a filter sorts the current posts
    once, into the list on screen. */
module FavoritesPage {
  import opened Common
  import opened ClientCommon
  import opened Feed

  const SignInFirst: string := "Please sign in to view your favorites"

  /** The favorites request, with `?q=` only for a non-empty query. */
  function FavoritesUrl(query: string): (url: string)
    ensures query != "" ==> url == "/api/favorites/user?q=" + query
    ensures query == "" ==> url == "/api/favorites/user"
  {
    if query != "" then "/api/favorites/user?q=" + query else "/api/favorites/user"
  }

  /** Distinct queries ask for distinct favorites lists: the query reads
      back from the text after `?q=`. */
  lemma FavoritesUrlDeterminesQuery(q1: string, q2: string)
    ensures FavoritesUrl(q1) == FavoritesUrl(q2) ==> q1 == q2
    ensures q1 != "" ==> FavoritesUrl(q1)[|"/api/favorites/user?q="|..] == q1
  {
    var prefix := "/api/favorites/user?q=";
    if q1 != "" {
      assert FavoritesUrl(q1)[|prefix|..] == q1;
    }
    if q2 != "" {
      assert FavoritesUrl(q2)[|prefix|..] == q2;
    }
  }

  class Favorites {
    var posts: seq<ClientPost>
    var filteredPosts: seq<ClientPost>
    var likeStatuses: map<string, LikeStatus>
    var error: Option<string>

    constructor ()
      ensures posts == [] && filteredPosts == [] && likeStatuses == map[] && error == None
    {
      posts := [];
      filteredPosts := [];
      likeStatuses := map[];
      error := None;
    }

    /** The fetch effect's start: signed out, the error is set and nothing
        is requested; signed in, the favorites request is made and nothing
        changes yet. */
    method Load(signedIn: bool, query: string) returns (request: Option<string>)
      modifies this
      ensures request.None? <==> !signedIn
      ensures request.Some? ==> request.value == FavoritesUrl(query)
      ensures !signedIn ==> error == Some(SignInFirst)
      ensures signedIn ==> error == old(error)
      ensures posts == old(posts) && filteredPosts == old(filteredPosts) && likeStatuses == old(likeStatuses)
    {
      if !signedIn {
        error := Some(SignInFirst);
        return None;
      }
      request := Some(FavoritesUrl(query));
    }

    /** The request settles (`Err`: the thrown message): the posts are shown
        as fetched and their like statuses stored, or the error is set. */
    method ApplyFetch(outcome: Result<seq<ClientPost>>, likeFetch: string -> Option<LikeStatus>)
      modifies this
      ensures outcome.Ok? ==> posts == outcome.value && filteredPosts == outcome.value && error == None
      ensures outcome.Ok? ==> forall k :: k in likeStatuses <==> k in Ids(posts) && likeFetch(LikeUrl(k)).Some?
      ensures outcome.Ok? ==> forall k :: k in likeStatuses ==> likeStatuses[k] == likeFetch(LikeUrl(k)).value
      ensures outcome.Err? ==> error == Some(OrDefault(outcome.message, FetchFallback))
      ensures outcome.Err? ==> posts == old(posts) && filteredPosts == old(filteredPosts)
      ensures outcome.Err? ==> likeStatuses == old(likeStatuses)
    {
      match outcome
      case Err(m) =>
        error := Some(OrDefault(m, FetchFallback));
      case Ok(fetched) =>
        posts := fetched;
        filteredPosts := fetched;
        likeStatuses := CollectLikeStatuses(fetched, likeFetch);
        error := None;
    }

    /** `handleFilterChange`: the list on screen becomes the current posts
        sorted by `filter`; the posts themselves are untouched. */
    method HandleFilterChange(filter: FilterType)
      modifies this
      ensures SortedFor(filter, likeStatuses, filteredPosts)
      ensures multiset(filteredPosts) == multiset(posts)
      ensures posts == old(posts) && likeStatuses == old(likeStatuses) && error == old(error)
    {
      filteredPosts := SortedCopy(posts, filter, likeStatuses);
    }
  }
}
