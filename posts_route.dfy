/** /api/posts. GET lists every post, newest first, optionally limited by
    the `limit` search parameter, each with its author's name. POST creates
    a post for the signed-in caller from a title, a content and an optional
    image URL. */
module PostsRoute {
  import opened Common
  import opened Identity
  import opened Store
  import opened JsNumber

  const BaseSql: string := "SELECT * FROM posts ORDER BY created_at DESC"

  /** "Error fetching the posts". */
  const ListError: string := "خطا در دریافت پست‌ها"
  /** "User not authenticated". */
  const NotAuthenticated: string := "کاربر احراز هویت نشده"
  /** "Title and content are required". */
  const TitleAndContentRequired: string := "عنوان و محتوا الزامی است"
  /** "Error creating the post". */
  const CreateError: string := "خطا در ایجاد پست"

  /** `parseInt(param || '0') || 0`: the parsed number, with NaN (and a
      missing or empty parameter) read as 0. */
  function LimitOf(param: Option<string>): (limit: int)
    ensures !Truthy(param) ==> limit == 0
    ensures Truthy(param) && ParseInt(param.value).None? ==> limit == 0
    ensures Truthy(param) && ParseInt(param.value).Some? ==> limit == ParseInt(param.value).value
  {
    var text := if Truthy(param) then param.value else "0";
    assert Decimal(0) == "0";
    ParseIntOfDecimal(0);
    match ParseInt(text)
    case None => 0
    case Some(n) => n
  }

  /** The statement GET runs: the base query, with ` LIMIT n` appended when
      the limit is positive. */
  function ListSql(limit: int): (sql: string)
    ensures limit <= 0 ==> sql == BaseSql
    ensures limit > 0 ==> sql == BaseSql + " LIMIT " + Decimal(limit)
  {
    if limit > 0 then BaseSql + " LIMIT " + Decimal(limit) else BaseSql
  }

  /** The limit clause carries the parsed limit: the text after ` LIMIT `
      reads back as the limit, and the statement is the bare ordered query
      exactly when the limit is not positive. */
  lemma ListSqlLimit(param: Option<string>)
    ensures var limit := LimitOf(param);
      && (ListSql(limit) == BaseSql <==> limit <= 0)
      && (limit > 0 ==> ParseInt(ListSql(limit)[|BaseSql + " LIMIT "|..]) == Some(limit))
  {
    var limit := LimitOf(param);
    if limit > 0 {
      var sql := ListSql(limit);
      assert sql[|BaseSql + " LIMIT "|..] == Decimal(limit);
      ParseIntOfDecimal(limit);
      assert |sql| > |BaseSql|;
    }
  }

  /** A positive decimal limit parameter round-trips into the statement. */
  lemma DecimalLimitParameter(n: nat)
    requires n > 0
    ensures LimitOf(Some(Decimal(n))) == n
    ensures ListSql(LimitOf(Some(Decimal(n)))) == BaseSql + " LIMIT " + Decimal(n)
  {
    ParseIntOfDecimal(n);
  }

  /** GET's answer, the statement it ran and the authors it looked up. */
  datatype ListReply = ListReply(response: Response<seq<EnrichedPost>>, sql: string, lookedUp: seq<string>)

  /** GET for the `limit` parameter, the store's answer to the statement
      (`Err`: connecting or querying threw) and the profile lookup. */
  function ListReplyOf(param: Option<string>, result: Result<QueryResult<Post>>,
                       lookup: string -> Option<Profile>): (r: ListReply)
    ensures r.sql == ListSql(LimitOf(param))
    ensures result.Err? ==> r.response == ServerError(ListError, result.message) && r.lookedUp == []
    ensures result.Ok? ==>
      var posts := Rows(result.value);
      && r.response.status == 200 && r.response.body.Data?
      && |r.response.body.value| == |posts| == |r.lookedUp|
      && forall i :: 0 <= i < |posts| ==>
           && r.response.body.value[i] == EnrichedPost(posts[i], AuthorName(lookup(posts[i].author)))
           && r.lookedUp[i] == posts[i].author
  {
    var sql := ListSql(LimitOf(param));
    match result
    case Err(m) => ListReply(ServerError(ListError, m), sql, [])
    case Ok(q) =>
      var posts := Rows(q);
      ListReply(Response(200, Data(Enrich(posts, AuthorName, lookup))), sql, Authors(posts))
  }

  /** The body of a POST request, as far as it is read. */
  datatype CreateBody = CreateBody(title: Option<string>, content: Option<string>, imageUrl: Option<string>)

  /** The record handed to `db.create('posts', ...)`; `imageUrl` `None` is `null`. */
  datatype NewPost = NewPost(title: string, content: string, imageUrl: Option<string>,
                             author: string, createdAt: int)

  /** POST's answer and the record it asked the store to create, if any. */
  datatype CreateReply = CreateReply(response: Response<Post>, created: Option<NewPost>)

  /** POST for the caller, the parsed body (`Err`: the body is not JSON),
      the time and the store's create operation (`Err`: it threw). */
  function CreateReplyOf(caller: Option<User>, body: Result<CreateBody>, now: int,
                         create: NewPost -> Result<Post>): (r: CreateReply)
    ensures r.response.status in {201, 400, 401, 500}
    ensures r.created.Some? ==> caller.Some? && r.created.value.author == caller.value.id
    ensures r.response.status == 201 ==> r.created.Some?
  {
    if caller.None? then CreateReply(ClientError(401, NotAuthenticated), None)
    else if body.Err? then CreateReply(ServerError(CreateError, body.message), None)
    else
      var b := body.value;
      if !Truthy(b.title) || !Truthy(b.content) then CreateReply(ClientError(400, TitleAndContentRequired), None)
      else
        var record := NewPost(b.title.value, b.content.value,
                              if Truthy(b.imageUrl) then b.imageUrl else None,
                              caller.value.id, now);
        match create(record)
        case Err(m) => CreateReply(ServerError(CreateError, m), Some(record))
        case Ok(p) => CreateReply(Response(201, Data(p)), Some(record))
  }

  /** Without a caller the answer is 401, whatever the body, and nothing is created. */
  lemma CreateNeedsCaller(body: Result<CreateBody>, now: int, create: NewPost -> Result<Post>)
    ensures CreateReplyOf(None, body, now, create) == CreateReply(ClientError(401, NotAuthenticated), None)
  {
  }

  /** A caller with a falsy title or content gets 400 and nothing is created. */
  lemma CreateNeedsTitleAndContent(caller: User, b: CreateBody, now: int, create: NewPost -> Result<Post>)
    requires !Truthy(b.title) || !Truthy(b.content)
    ensures CreateReplyOf(Some(caller), Ok(b), now, create) == CreateReply(ClientError(400, TitleAndContentRequired), None)
  {
  }

  /** A valid request creates exactly one record: authored by the caller,
      with the given title and content, an image URL only when one was
      supplied, stamped with the current time; the store's success is 201. */
  lemma CreateRecord(caller: User, b: CreateBody, now: int, create: NewPost -> Result<Post>)
    requires Truthy(b.title) && Truthy(b.content)
    ensures var r := CreateReplyOf(Some(caller), Ok(b), now, create);
      && r.created.Some?
      && r.created.value.author == caller.id
      && r.created.value.title == b.title.value && r.created.value.content == b.content.value
      && r.created.value.createdAt == now
      && (r.created.value.imageUrl.Some? <==> Truthy(b.imageUrl))
      && (r.created.value.imageUrl.Some? ==> r.created.value.imageUrl == b.imageUrl)
      && (create(r.created.value).Ok? ==> r.response == Response(201, Data(create(r.created.value).value)))
      && (create(r.created.value).Err? ==> r.response == ServerError(CreateError, create(r.created.value).message))
  {
  }

  /** A created post answers 201 and nothing else does; 401 and 400 never
      reach the store. */
  lemma CreateStatuses(caller: Option<User>, body: Result<CreateBody>, now: int, create: NewPost -> Result<Post>)
    ensures var r := CreateReplyOf(caller, body, now, create);
      && (r.response.status == 201 <==> r.created.Some? && create(r.created.value).Ok?)
      && (r.response.status in {400, 401} ==> r.created.None?)
  {
  }
}
