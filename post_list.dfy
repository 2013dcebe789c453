/** The post list component the pages embed: it fetches its own list for a
    signed-in user (all posts, the search results or the default list),
    deletes a post, and offers edit and delete on the viewer's own posts
    only. It reads just its `searchQuery` and `allPosts` properties. */
module PostList {
  import opened Common
  import opened Identity
  import opened ClientCommon
  import HomePage
  import AllPostsPage

  const FetchFallback: string := "Failed to fetch posts"
  const DeleteFallback: string := "Failed to delete post"

  /** The properties the component reads; `allPosts` defaults to false. */
  datatype Props = Props(searchQuery: string, allPosts: bool)

  /** The reassigned `let url`: `allPosts` wins over a non-empty query. */
  function ListUrl(props: Props): (url: string)
    ensures props.allPosts ==> url == "/api/posts?all=true"
    ensures !props.allPosts && props.searchQuery != "" ==> url == "/api/posts/search?q=" + props.searchQuery
    ensures !props.allPosts && props.searchQuery == "" ==> url == "/api/posts"
  {
    var url := "/api/posts";
    if props.allPosts then "/api/posts?all=true"
    else if props.searchQuery != "" then "/api/posts/search?q=" + props.searchQuery
    else url
  }

  /** The heading above the list. */
  function Heading(props: Props): (r: string)
    ensures r == "All Posts" <==> props.allPosts
    ensures !props.allPosts ==> r == "Your Posts"
  {
    if props.allPosts then "All Posts" else "Your Posts"
  }

  /** The edit link of a post, by its bare id. */
  function EditUrl(id: string): (r: string)
    ensures ':' !in id ==> r == "/edit-post/undefined"
    ensures SplitSecond(id).Some? ==> r == "/edit-post/" + SplitSecond(id).value
  {
    "/edit-post/" + UrlSegment(id)
  }

  /** Edit and delete are offered on exactly the viewer's own posts; being
      an admin changes nothing here. */
  lemma ControlsAreOwnerOnly(user: Option<User>, author: string, role: Option<string>)
    ensures CanEdit(user, author) <==> user.Some? && user.value.id == author
    ensures user.Some? ==> (CanEdit(user, author) <==> CanEdit(Some(User(user.value.id, role)), author))
  {
  }

  /** The home and all-posts pages pass the list they sorted, which the
      component does not read: what it shows is fetched by itself. For an
      empty query on the home page that is every post rather than the
      caller's own; for the all-posts page the request is the page's own. */
  lemma PagesListTheirOwnFetch(query: string)
    ensures ListUrl(Props("", false)) == "/api/posts" && HomePage.FeedUrl(true, "") == Some("/api/user-posts")
    ensures ListUrl(Props(query, false)) == AllPostsPage.FeedUrl(query)
    ensures query != "" ==> Some(ListUrl(Props(query, false))) == HomePage.FeedUrl(true, query)
  {
  }

  class List {
    var posts: seq<ClientPost>
    var error: Option<string>
    const props: Props
    const user: Option<User>

    constructor (props: Props, user: Option<User>)
      ensures this.props == props && this.user == user
      ensures posts == [] && error == None
    {
      this.props := props;
      this.user := user;
      posts := [];
      error := None;
    }

    /** `fetchPosts`: signed out nothing is requested and nothing changes;
        signed in, `ListUrl` is requested and its outcome (`Err`: the thrown
        message) is stored. */
    method Fetch(outcome: Result<seq<ClientPost>>) returns (request: Option<string>)
      modifies this
      ensures request.Some? <==> user.Some?
      ensures request.Some? ==> request.value == ListUrl(props)
      ensures user.None? ==> posts == old(posts) && error == old(error)
      ensures user.Some? && outcome.Ok? ==> posts == outcome.value && error == None
      ensures user.Some? && outcome.Err? ==>
        posts == old(posts) && error == Some(OrDefault(outcome.message, FetchFallback))
    {
      if user.None? {
        return None;
      }
      request := Some(ListUrl(props));
      match outcome {
        case Ok(fetched) =>
          posts := fetched;
          error := None;
        case Err(m) =>
          error := Some(OrDefault(m, FetchFallback));
      }
    }

    /** `handleDelete(id)`: the request goes out by the segment after the
        first colon; on success exactly the posts with that id leave the
        list. */
    method HandleDelete(id: string, outcome: Result<()>) returns (request: string)
      modifies this
      ensures request == DeleteUrl(id)
      ensures outcome.Ok? ==> posts == WithoutId(old(posts), id) && error == None
      ensures outcome.Err? ==> posts == old(posts) && error == Some(OrDefault(outcome.message, DeleteFallback))
    {
      request := DeleteUrl(id);
      match outcome {
        case Ok(_) =>
          posts := WithoutId(posts, id);
          error := None;
        case Err(m) =>
          error := Some(OrDefault(m, DeleteFallback));
      }
    }
  }
}
