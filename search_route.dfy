/** GET /api/posts/search: for a signed-in caller, the posts whose title
    or content matches the trimmed `q` parameter, newest first, each named
    by its author's first email address. */
module SearchRoute {
  import opened Common
  import opened Identity
  import opened Store

  const NotAuthenticated: string := "User not authenticated"
  const QueryRequired: string := "Search query is required"
  const SearchError: string := "Failed to search posts"

  /** `searchParams.get('q')?.trim()`. */
  function TrimmedQuery(q: Option<string>): (r: Option<string>)
    ensures r.None? <==> q.None?
    ensures r.Some? ==> r.value == Trim(q.value)
  {
    match q
    case None => None
    case Some(s) => Some(Trim(s))
  }

  /** The answer, the `query` parameter bound into the statement (`None`
      when the store is not reached) and the authors looked up. */
  datatype SearchReply = SearchReply(response: Response<seq<EnrichedPost>>, bound: Option<string>,
                                     lookedUp: seq<string>)

  /** GET for the caller, the raw `q` parameter, the store's answer to the
      search (`Err`: connecting or querying threw) and the profile lookup. */
  function SearchReplyOf(caller: Option<User>, q: Option<string>, result: Result<QueryResult<Post>>,
                         lookup: string -> Option<Profile>): (r: SearchReply)
    ensures r.response.status in {200, 400, 401, 500}
    ensures r.bound.Some? ==> caller.Some? && Some(r.bound.value) == TrimmedQuery(q) && r.bound.value != ""
    ensures r.lookedUp != [] ==> r.response.status == 200
  {
    if caller.None? then SearchReply(ClientError(401, NotAuthenticated), None, [])
    else
      var query := TrimmedQuery(q);
      if !Truthy(query) then SearchReply(ClientError(400, QueryRequired), None, [])
      else match result
        case Err(m) => SearchReply(ServerError(SearchError, m), Some(query.value), [])
        case Ok(r) =>
          var posts := Rows(r);
          SearchReply(Response(200, Data(Enrich(posts, EmailName, lookup))), Some(query.value), Authors(posts))
  }

  /** No caller: 401 whatever the query, and the store is not reached. */
  lemma SearchNeedsCaller(q: Option<string>, result: Result<QueryResult<Post>>, lookup: string -> Option<Profile>)
    ensures SearchReplyOf(None, q, result, lookup) == SearchReply(ClientError(401, NotAuthenticated), None, [])
  {
  }

  /** A missing, empty or all-white-space query is rejected with 400 before
      the store is reached, and only such a query is. */
  lemma BlankQueryRejected(caller: User, q: Option<string>, result: Result<QueryResult<Post>>,
                           lookup: string -> Option<Profile>)
    ensures var r := SearchReplyOf(Some(caller), q, result, lookup);
      (r.response == ClientError(400, QueryRequired)) <==> (q.None? || IsBlank(q.value))
    ensures var r := SearchReplyOf(Some(caller), q, result, lookup);
      (q.None? || IsBlank(q.value)) ==> r.bound.None? && r.lookedUp == []
  {
    if q.Some? {
      TrimEmptyIffBlank(q.value);
    }
  }

  /** A searchable query binds exactly its trimmed text; the posts keep the
      store's order and each is named by its first email address, or
      "Unknown email" when there is none or the lookup fails. */
  lemma SearchBindsTrimmedQuery(caller: User, s: string, result: Result<QueryResult<Post>>,
                                lookup: string -> Option<Profile>)
    requires !IsBlank(s)
    ensures var r := SearchReplyOf(Some(caller), Some(s), result, lookup);
      && r.bound == Some(Trim(s)) && Trim(s) != ""
      && (result.Err? ==> r.response == ServerError(SearchError, result.message))
      && (result.Ok? ==>
            var posts := Rows(result.value);
            && r.response.status == 200 && r.response.body.Data?
            && |r.response.body.value| == |posts|
            && forall i :: 0 <= i < |posts| ==>
                 && r.response.body.value[i].post == posts[i]
                 && (var p := lookup(posts[i].author);
                     r.response.body.value[i].authorName ==
                       if p.Some? && Truthy(PrimaryEmail(p.value)) then p.value.emails[0] else UnknownEmailSearch))
  {
    TrimEmptyIffBlank(s);
  }
}
