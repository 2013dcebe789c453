/** The home page (`/`): a signed-in user's own posts, or the search
    results for `q`. Its list state, re-sorted by the chosen filter whenever
    the posts, the like statuses or the filter change, is `Feed.SortedFeed`. */
module HomePage {
  import opened Common

  /** The list the page fetches: nothing when signed out, the search route
      for a non-empty query, else the caller's own posts. */
  function FeedUrl(signedIn: bool, query: string): (url: Option<string>)
    ensures url.None? <==> !signedIn
    ensures signedIn && query != "" ==> url == Some("/api/posts/search?q=" + query)
    ensures signedIn && query == "" ==> url == Some("/api/user-posts")
  {
    if !signedIn then None
    else if query != "" then Some("/api/posts/search?q=" + query)
    else Some("/api/user-posts")
  }

  /** Signed in, distinct queries ask for distinct lists, and a search never
      asks for the caller's own posts. */
  lemma FeedUrlDeterminesQuery(q1: string, q2: string)
    ensures FeedUrl(true, q1) == FeedUrl(true, q2) ==> q1 == q2
    ensures q1 != "" ==> FeedUrl(true, q1) != Some("/api/user-posts")
  {
    var prefix := "/api/posts/search?q=";
    if q1 != "" {
      assert FeedUrl(true, q1).value[|prefix|..] == q1;
    }
    if q2 != "" {
      assert FeedUrl(true, q2).value[|prefix|..] == q2;
    }
  }
}
