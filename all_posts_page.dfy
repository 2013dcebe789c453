/** The all-posts page (`/all-posts`): every post, or the search results
    for `q`, with the list state of `Feed.SortedFeed`; the list is told
    whether the viewer is an admin. */
module AllPostsPage {
  import opened Common
  import opened Identity

  /** The list the page fetches, signed in or not: the search route for a
      non-empty query, else all posts. */
  function FeedUrl(query: string): (url: string)
    ensures query != "" ==> url == "/api/posts/search?q=" + query
    ensures query == "" ==> url == "/api/posts"
  {
    if query != "" then "/api/posts/search?q=" + query else "/api/posts"
  }

  /** Distinct queries ask for distinct lists: the query reads back from
      the text after `?q=`. */
  lemma FeedUrlDeterminesQuery(q1: string, q2: string)
    ensures FeedUrl(q1) == FeedUrl(q2) ==> q1 == q2
    ensures q1 != "" ==> FeedUrl(q1)[|"/api/posts/search?q="|..] == q1
  {
    var prefix := "/api/posts/search?q=";
    if q1 != "" {
      assert FeedUrl(q1)[|prefix|..] == q1;
    }
    if q2 != "" {
      assert FeedUrl(q2)[|prefix|..] == q2;
    }
  }

  /** `user?.publicMetadata?.role === 'admin'`. */
  function IsAdminFlag(user: Option<User>): (b: bool)
    ensures b <==> user.Some? && user.value.role == Some("admin")
  {
    user.Some? && IsAdmin(user.value)
  }
}
