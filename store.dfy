/** The record store as the route handlers see it: record keys, the post
    record, the shapes a query result arrives in, the JSON responses the
    handlers send, and the per-post author-name enrichment. */
module Store {
  import opened Common
  import opened Identity

  /** A record id `table:id`. */
  datatype RecordId = RecordId(table: string, id: string)

  /** `recordId.toString()` for identifiers that need no escaping. */
  function KeyString(r: RecordId): string {
    r.table + ":" + r.id
  }

  /** A post as read from the store. Timestamps are milliseconds; a string
      field the record lacks is "", since the code only tests such fields for
      truthiness. */
  datatype Post = Post(id: string, title: string, content: string, author: string,
                       createdAt: int, imageUrl: Option<string>, updatedAt: Option<int>)

  /** The value `db.query` resolves to, as the handlers distinguish it. */
  datatype QueryResult<T> =
    | StatementRows(first: seq<T>)  // an array whose first element is an array: that statement's rows
    | FlatRows(items: seq<T>)       // an array whose first element is not an array
    | ResultObject(result: seq<T>)  // not an array, but `[0].result` holds rows
    | Unrecognised                  // anything else

  /** The shape rule of the posts, search, user-posts and top-posts routes:
      `Array.isArray(r) ? (Array.isArray(r[0]) ? r[0] : r) : r[0]?.result ... : []`. */
  function Rows<T>(q: QueryResult<T>): (r: seq<T>)
    ensures q.StatementRows? ==> r == q.first
    ensures q.FlatRows? ==> r == q.items
    ensures q.ResultObject? ==> r == q.result
    ensures q.Unrecognised? ==> r == []
  {
    match q
    case StatementRows(first) => first
    case FlatRows(items) => items
    case ResultObject(result) => result
    case Unrecognised => []
  }

  /** The shape rule of the favorites route: `Array.isArray(r[0]) ? r[0] : []`. */
  function FirstStatementRows<T>(q: QueryResult<T>): (r: seq<T>)
    ensures q.StatementRows? ==> r == q.first
    ensures !q.StatementRows? ==> r == []
  {
    if q.StatementRows? then q.first else []
  }

  /** The favorites rule is the stricter one: whatever rows it finds, the
      other routes' rule finds too, and the two differ only on the shapes it
      does not recognise, for which it finds none. */
  lemma ShapeRulesAgree<T>(q: QueryResult<T>)
    ensures FirstStatementRows(q) == [] || FirstStatementRows(q) == Rows(q)
    ensures FirstStatementRows(q) != Rows(q) ==> FirstStatementRows(q) == [] && (q.FlatRows? || q.ResultObject?)
  {
  }

  datatype Body<T> = Data(value: T) | Failure(error: string, details: Option<string>)

  /** `NextResponse.json(body, { status })`. */
  datatype Response<T> = Response(status: int, body: Body<T>)

  /** The response of a handler's outer `catch`: status 500 with the thrown message as `details`. */
  function ServerError<T>(message: string, details: string): Response<T> {
    Response(500, Failure(message, Some(details)))
  }

  function ClientError<T>(status: int, message: string): Response<T> {
    Response(status, Failure(message, None))
  }

  datatype EnrichedPost = EnrichedPost(post: Post, authorName: string)

  /** The `Promise.all(posts.map(...))` enrichment, taken in order: each post
      gets the name `name` derives from the lookup of its author. */
  function Enrich(posts: seq<Post>, name: Option<Profile> -> string,
                  lookup: string -> Option<Profile>): (r: seq<EnrichedPost>)
    ensures |r| == |posts|
    ensures forall i :: 0 <= i < |r| ==> r[i].post == posts[i] && r[i].authorName == name(lookup(posts[i].author))
  {
    seq(|posts|, i requires 0 <= i < |posts| => EnrichedPost(posts[i], name(lookup(posts[i].author))))
  }

  /** The authors looked up, one per post, in order. */
  function Authors(posts: seq<Post>): (r: seq<string>)
    ensures |r| == |posts| && forall i :: 0 <= i < |r| ==> r[i] == posts[i].author
  {
    seq(|posts|, i requires 0 <= i < |posts| => posts[i].author)
  }
}
