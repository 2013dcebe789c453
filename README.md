# Blog platform: ranking, request guards and client list logic

A model of the logic in a Next.js blog platform. Posts, comments, likes and
favorites live in a SurrealDB store, and sign-in is handled by Clerk. The
model covers three parts of the application.

- **The top-posts ranker** of `GET /api/posts/top`. It counts the like
  records per post and attaches the counts to the posts. It sorts by likes,
  most first, and then by creation time, oldest first. It keeps the first
  three posts, drops those without an id, a title or an author, and names
  each author.
- **The guards and the id handling of the API routes**:
  - `/api/posts`: listing with an optional `LIMIT`, and creating a post.
  - `/api/posts/search`.
  - `/api/user-posts`.
  - `/api/comments`: the `posts:` prefix and the parent `comments` record.
  - `/api/favorites/user`: stripping the `posts:` prefix, short-circuiting
    on no favorites, and finding `favorited_at`.

  Authentication is always checked before the input. The author name falls
  back from the first name to the full name, then to the first email
  address, then to a placeholder.
- **The list logic of the views**:
  - the three sort modes of the home, all-posts and favorites pages;
  - the top and recent post cards: truncation, rank labels, optimistic
    like and favorite counts, deletion and control visibility;
  - the comment thread: the reply box toggle, the delete guard, nested
    rendering and the order of the render states;
  - the comment form's validation and state changes;
  - the post list component;
  - the admin panel's access gate.

The store and the identity provider are inputs to the model, and so is every
`fetch`:
- A store query's answer is a `Result<QueryResult<T>>`. `Err` stands for a
  thrown query or connection. The shape variants are those the routes
  normalise.
- A profile lookup is a function `string -> Option<Profile>`. `None` means
  the lookup threw.
- A create operation is a function from the record to a `Result`.
- A client-side request is an outcome parameter, and the URL it goes to is
  returned.

Each route handler is a function from its inputs to the response (a status
and a body). The same function also returns what the handler sent to the
store: the SQL, the bound parameters, the created record and the authors it
looked up.

The views are classes whose fields are the component's state. Their methods
are the handlers, and each method states the whole new state. The place
where the status dictionaries are filled in a loop is a `for` loop with
invariants. The sort that happens in place on a copied array is an
insertion sort on an `array`. It is proved to sort by the chosen key and to
permute its input.

`GET /api/posts/search` answers an empty or all-blank query with 400
(app/api/posts/search/route.ts:24-26).

## Model

| member | source | states |
|---|---|---|
| Common.FirstTruthy | app/api/posts/route.ts:42-46 | a chain of JavaScript or-operators gives the first truthy candidate, and the fallback when none is truthy |
| Common.Trim | app/api/posts/search/route.ts:22 | the result is the slice of the input left after dropping leading and trailing JavaScript whitespace, and it neither starts nor ends with whitespace |
| Common.TrimEmptyIffBlank | components/CommentForm.tsx:24 | `!content.trim()` holds exactly for text made only of whitespace |
| Common.SplitSecond | app/components/TopPosts.tsx:96 | `split(':')[1]` is undefined exactly when there is no colon; otherwise it is the colon-free text after the first colon, up to the next colon or the end |
| Common.SplitSecondOfKey | app/components/TopPosts.tsx:96 | on a record key `table:id`, with or without more `:`-separated text, the second element is `id` |
| Common.CleanId | components/CommentList.tsx:37 | the or-fallback on `split(':')[1]` gives the second element when it is non-empty, and the whole string when there is no colon or the second element is empty |
| Common.CleanIdOfKey | components/CommentList.tsx:37 | a record key `table:id` gives its bare id |
| TopPostsRoute.CountLikes | app/api/posts/top/route.ts:26-29 | the map the `forEach` builds has a key exactly for each post id that some like record has, and each value is the number of like records for that key |
| TopPostsRoute.CountsOfCounts | app/api/posts/top/route.ts:26-29 | the counting map's keys are the liked post ids, each key's value is its like count, and a post not in the map has no likes |
| TopPostsRoute.AttachCounts | app/api/posts/top/route.ts:72-75 | one ranked post per post, in order, with the post's fields unchanged |
| TopPostsRoute.AttachedCountIsLikeCount | app/api/posts/top/route.ts:72-75 | each post's attached `likesCount` is the number of its like records, and 0 when it has none |
| TopPostsRoute.RankBefore | app/api/posts/top/route.ts:78-84 | the comparator lets a post go ahead of another only if it has at least as many likes, and always when it has more; on equal likes the older post goes first |
| TopPostsRoute.RankBeforeTotal | app/api/posts/top/route.ts:78-84 | every pair of posts is ordered one way or the other, and both ways exactly when they tie on likes and on `created_at` |
| TopPostsRoute.Insert | app/api/posts/top/route.ts:78-84 | inserting into a ranked list keeps it ranked (likes non-increasing, then `created_at` non-decreasing) and adds exactly that element |
| TopPostsRoute.SortByRank | app/api/posts/top/route.ts:78-84 | the result is ranked and is a permutation of the input |
| TopPostsRoute.TakeTop | app/api/posts/top/route.ts:85 | the result is the prefix of length `min(3, n)` |
| TopPostsRoute.KeepDisplayable | app/api/posts/top/route.ts:89-91 | an element is kept exactly when it has a truthy id, title and author; the kept elements are a subsequence of the input, and a ranked input stays ranked; each kept record appears as many times as in the input, and each dropped one not at all |
| TopPostsRoute.HasDisplayFields | app/api/posts/top/route.ts:89-91 | a post is kept exactly when its id, title and author are all truthy |
| TopPostsRoute.RankedPosts | app/api/posts/top/route.ts:72-91 | the ranking chain ends with at most three posts, still ranked, each with an id, a title and an author |
| TopPostsRoute.EnrichTop | app/api/posts/top/route.ts:98-116 | one entry per ranked post, in order, carrying the post, its like count and its author's name |
| TopPostsRoute.Get | app/api/posts/top/route.ts:5-126 | the handler, which runs the counting loop and then the ranking chain, answers what `TopPostsReply` describes |
| TopPostsRoute.RankedReply | app/api/posts/top/route.ts:93-118 | the successful answer is 200 with the enriched posts (or `[]`), after one author lookup per surviving post, in order |
| TopPostsRoute.TopPostsReply | app/api/posts/top/route.ts:5-126 | the answer is 500 exactly when a query threw, with no author looked up; otherwise it is 200 with data |
| TopPostsRoute.TopFailureIs500 | app/api/posts/top/route.ts:120-125 | a thrown query gives 500 with the error message as details, and no author is looked up |
| TopPostsRoute.TopPostsProperties | app/api/posts/top/route.ts:72-116 | a successful answer has at most 3 posts, all displayable and ranked, and is a subsequence of the first three ranked posts; each post has its own like count and its author's name; each author is looked up once per post, in order; when no post is left the answer is `[]` with no lookups |
| TopPostsRoute.RankedPostsProperties | app/api/posts/top/route.ts:72-91 | the posts that survive ranking, truncation and the field filter are at most 3 and ranked; they form a subsequence of the first three ranked posts; each has an id, a title and an author, and the number of its own like records; every displayable post of the first three survives, as many times as it appears there |
| TopPostsRoute.RankingExample | app/api/posts/top/route.ts:78-84 | posts with 2 likes at t1, 2 likes at t0 and 5 likes at t2 (t0 < t1 < t2) are ranked as the 5-like post, then the t0 post, then the t1 post |
| Identity.AuthorName | app/api/posts/route.ts:36-54 | the author name is never empty, and a failed lookup gives the placeholder "ایمیل نامشخص" |
| Identity.AuthorNameIsFirstTruthy | app/api/posts/route.ts:42-46 | the name is the first truthy value among the first name, the full name and the first email address, else the placeholder |
| Identity.EmailName | app/api/posts/search/route.ts:45-59 | the search route names an author by the first email address, or "Unknown email" when there is none or the lookup failed |
| Identity.PrimaryEmail | app/api/posts/route.ts:44 | the first email address, present exactly when the profile has one |
| Identity.IsAdmin | app/admin/page.tsx:16 | a user is an admin only when their role is present and is exactly `admin`; a user without a role never is |
| Store.Enrich | app/api/posts/route.ts:36-54 | one enriched post per post, in order, each named from the lookup of its own author |
| Store.Authors | app/api/posts/route.ts:38 | the authors looked up are the posts' authors, one per post, in order |
| Store.Rows | app/api/posts/route.ts:29-34 | the rows of a statement array, the array itself when it is flat, the `result` of an object answer, and none for any other shape |
| Store.FirstStatementRows | app/api/favorites/user/route.ts:42 | the rows of a statement array, and none for any other shape |
| Store.ShapeRulesAgree | app/api/favorites/user/route.ts:42-70 | the favorites rule finds either no rows or the same rows as the other routes' rule, and differs from it only on flat and object answers, where it finds none |
| JsNumber.ParseInt | app/api/posts/route.ts:19 | `parseInt` is NaN exactly when no digit follows the white space, the sign and any `0x` prefix |
| JsNumber.Decimal | app/api/posts/route.ts:25 | the decimal spelling is non-empty, all digits, with no leading zero |
| JsNumber.ParseIntOfDecimal | app/api/posts/route.ts:19-25 | `parseInt` reads back every decimal spelling the statement writes |
| JsNumber.ParseIntSkipsSpaceAndTail | app/api/posts/route.ts:19 | `parseInt(" 12px")` is 12 |
| JsNumber.ParseIntSign | app/api/posts/route.ts:19 | `parseInt("-7")` is -7 |
| JsNumber.ParseIntHex | app/api/posts/route.ts:19 | `parseInt("0x1A")` is 26 |
| JsNumber.ParseIntNaN | app/api/posts/route.ts:19 | text without leading digits, and the empty text, give NaN |
| PostsRoute.LimitOf | app/api/posts/route.ts:19 | a missing or empty parameter, and one that parses to NaN, give 0; otherwise the limit is the parsed number |
| PostsRoute.ListSql | app/api/posts/route.ts:23-26 | ` LIMIT n` is appended exactly when the limit is positive |
| PostsRoute.ListSqlLimit | app/api/posts/route.ts:19-26 | the statement is the bare ordered query exactly when the limit is not positive, and otherwise the text after ` LIMIT ` parses back to the limit |
| PostsRoute.DecimalLimitParameter | app/api/posts/route.ts:19-26 | a positive decimal `limit` parameter ends up in the statement unchanged |
| PostsRoute.ListReplyOf | app/api/posts/route.ts:17-64 | the statement follows the limit; a thrown query gives 500 with no lookups; otherwise the answer is 200 with every row, in order, each with its author's name, and one lookup per row |
| PostsRoute.CreateNeedsCaller | app/api/posts/route.ts:69-72 | with no caller the answer is 401 whatever the body, and nothing is created |
| PostsRoute.CreateNeedsTitleAndContent | app/api/posts/route.ts:75-77 | a falsy title or content gives 400 and nothing is created |
| PostsRoute.CreateRecord | app/api/posts/route.ts:80-91 | a valid request creates one record with the caller as author, the given title and content, the current time, and an image URL only when a truthy one was given; the store's success gives 201 and its failure gives 500 |
| PostsRoute.CreateStatuses | app/api/posts/route.ts:66-92 | 201 is answered exactly when a record was created successfully; 400 and 401 never reach the store |
| PostsRoute.CreateReplyOf | app/api/posts/route.ts:66-92 | the answer is 201, 400, 401 or 500; a record is created only for a caller and is authored by them; 201 only after a record was handed to the store |
| SearchRoute.TrimmedQuery | app/api/posts/search/route.ts:22 | the query is the trimmed parameter, and absent when the parameter is absent |
| SearchRoute.SearchNeedsCaller | app/api/posts/search/route.ts:16-19 | with no caller the answer is 401 whatever the query, and the store is not reached |
| SearchRoute.BlankQueryRejected | app/api/posts/search/route.ts:22-26 | for a signed-in caller, the answer is 400 with nothing bound exactly when the query is missing, empty or all white space |
| SearchRoute.SearchBindsTrimmedQuery | app/api/posts/search/route.ts:35-68 | a searchable query binds exactly its trimmed text; the rows keep their order and get email names; a thrown query gives 500 |
| SearchRoute.SearchReplyOf | app/api/posts/search/route.ts:14-70 | the answer is 200, 400, 401 or 500; a query is bound only for a caller, and it is the non-empty trimmed parameter; authors are looked up only for a 200 answer |
| UserPostsRoute.UserPostsNeedCaller | app/api/user-posts/route.ts:17-20 | with no caller the answer is 401 and nothing is queried |
| UserPostsRoute.UserPostsOfCaller | app/api/user-posts/route.ts:24-60 | the query is bound to the caller's own id; the rows keep their order and get the fallback author name; a thrown query gives 500 |
| UserPostsRoute.UserPostsReplyOf | app/api/user-posts/route.ts:14-60 | the answer is 200, 401 or 500; the author query is issued exactly for a caller, and it is bound to the caller's own id |
| CommentsRoute.WithPrefix | app/api/comments/route.ts:18 | the result starts with the prefix, and an id that already has it is unchanged |
| CommentsRoute.WithPrefixIdempotent | app/api/comments/route.ts:18-21 | prefixing twice is prefixing once, and the bare and the prefixed form of an id are stored alike |
| CommentsRoute.ParentRecord | app/api/comments/route.ts:19-23 | the parent is a `comments` record named by the second `:` segment of the prefixed id |
| CommentsRoute.ParentRecordOfBareId | app/api/comments/route.ts:19-23 | a bare comment id and its `comments:` form give the same record |
| CommentsRoute.ParentRecordKeepsFirstSegment | app/api/comments/route.ts:21 | with a second colon, only the segment after the first colon is kept |
| CommentsRoute.CommentNeedsCaller | app/api/comments/route.ts:8-11 | with no caller the answer is 401 and nothing is created |
| CommentsRoute.CommentNeedsPostAndContent | app/api/comments/route.ts:13-16 | a falsy post id or content gives 400 and nothing is created |
| CommentsRoute.CommentRecord | app/api/comments/route.ts:18-37 | a valid request stores the comment under the caller, with the content, the time and the prefixed post id; it has a parent record exactly when a truthy `parentId` was given; 201 is answered exactly when the store succeeds |
| CommentsRoute.CommentReplyOf | app/api/comments/route.ts:5-37 | the answer is 201, 400, 401 or 500; a comment is created only for a caller, authored by them, on a `posts:`-prefixed post id; 201 only after a record was handed to the store |
| FavoritesUserRoute.QueryOf | app/api/favorites/user/route.ts:32 | the query is the trimmed parameter, or "" when it is absent |
| FavoritesUserRoute.RefString | app/api/favorites/user/route.ts:47 | a text `postId` is used as it is; a record id becomes its `table:id` key |
| FavoritesUserRoute.PostRecord | app/api/favorites/user/route.ts:46-50 | each favorite names a `posts` record, with a leading `posts:` stripped |
| FavoritesUserRoute.PostRecords | app/api/favorites/user/route.ts:46-50 | one record id per favorite, in order |
| FavoritesUserRoute.PostRecordRoundTrip | app/api/favorites/user/route.ts:46-50 | a favorite that refers to a post by record id, by prefixed text or by bare text names the same record |
| FavoritesUserRoute.FavoritedAt | app/api/favorites/user/route.ts:87-96 | a found time is the `created_at` of a favorite that refers to the post |
| FavoritesUserRoute.FavoritedAtFindsFirst | app/api/favorites/user/route.ts:87-96 | `favorited_at` is absent exactly when no favorite matches the post id; otherwise it is the `created_at` of the first match |
| FavoritesUserRoute.Enriched | app/api/favorites/user/route.ts:75-98 | one entry per post, in order, with the author name and the `favorited_at` the lookup finds |
| FavoritesUserRoute.FavoritesNeedCaller | app/api/favorites/user/route.ts:26-29 | with no caller the answer is 401 and nothing is queried |
| FavoritesUserRoute.NoFavoritesShortCircuit | app/api/favorites/user/route.ts:53-55 | with no favorites the answer is `[]` with 200, and the posts table is not queried |
| FavoritesUserRoute.FavoritesQueryAndEnrichment | app/api/favorites/user/route.ts:37-108 | the posts query asks for exactly the favorites' record ids, with the text match only for a non-empty query; the answer is enriched per post; a thrown query gives 500 |
| FavoritesUserRoute.FavoritesReplyOf | app/api/favorites/user/route.ts:24-109 | the answer is 200, 401 or 500; the favorites query is issued exactly for a caller and bound to their id; the posts query is issued only with a non-empty list of ids |
| ClientCommon.UrlSegment | app/components/TopPosts.tsx:154 | the request path uses the segment after the first colon, or "undefined" when the id has no colon |
| ClientCommon.UrlSegmentOfKey | app/components/TopPosts.tsx:154 | a record key `table:id` gives its bare id |
| ClientCommon.LikeUrl | app/components/TopPosts.tsx:96-99 | the like route of the id's second segment, and `/api/likes/undefined` for an id without a colon |
| ClientCommon.FavoriteUrl | app/components/TopPosts.tsx:113 | the favorite route of the id's second segment, and `/api/favorites/undefined` for an id without a colon |
| ClientCommon.DeleteUrl | app/components/TopPosts.tsx:154-156 | the delete route of the id's second segment, and `/api/posts/undefined/delete` for an id without a colon |
| ClientCommon.RequestUrlsOfKey | app/components/TopPosts.tsx:96-113 | for a record key `table:id`, the like, favorite and delete requests all name the bare id |
| ClientCommon.TruncateContent | app/components/TopPosts.tsx:39-42 | text that fits is unchanged; longer text becomes its first `maxLength` characters and "..."; the result is a prefix-preserving text of at most `maxLength + 3` characters |
| ClientCommon.TruncateIdempotent | app/components/RecentPosts.tsx:183-186 | truncating a card's text a second time changes nothing |
| ClientCommon.LikesOf | app/page.tsx:94 | a missing like status counts 0 |
| ClientCommon.WithoutId | app/components/TopPosts.tsx:165 | after a delete, exactly the posts with another id remain, in their order, each as many times as before, and none with the id |
| ClientCommon.WithoutIdIdempotent | app/components/RecentPosts.tsx:106 | deleting twice is deleting once |
| ClientCommon.WithoutIdKeeps | components/PostList.tsx:76 | a list without the id is unchanged by the filter |
| ClientCommon.CanEdit | app/components/TopPosts.tsx:328-331 | the edit control is shown only to a signed-in user, and whoever sees it also sees the delete control |
| ClientCommon.CanDelete | app/components/TopPosts.tsx:336 | the delete control is shown only to a signed-in user, and always to an admin |
| ClientCommon.Visibility | app/components/TopPosts.tsx:326-340 | signed out there are no controls; whoever may edit may delete; an admin may delete any post, and a non-admin only their own |
| ClientCommon.AdjustLike | app/components/TopPosts.tsx:192-198 | after a like toggle the post's count moves by one in the direction of `liked`, `userLiked` is `liked`, and the other keys are unchanged |
| ClientCommon.AdjustFavorite | app/components/TopPosts.tsx:225-233 | the same rule for favorites |
| ClientCommon.LikeThenUnlike | app/components/RecentPosts.tsx:132-140 | liking and then unliking restores the count and leaves the post not liked |
| ClientCommon.UnfavoriteThenFavorite | app/components/RecentPosts.tsx:166-174 | unfavoriting and then favoriting restores the count and leaves the post favorited |
| ClientCommon.CollectLikeStatuses | app/page.tsx:59-69 | the loop stores, under each post's id, the status its like request returned, and only for ok answers |
| ClientCommon.CollectFavoriteStatuses | app/components/TopPosts.tsx:111-118 | the loop stores, under each post's id, the status its favorite request returned, and only for ok answers |
| Feed.SortedForMeaning | app/page.tsx:86-96 | the sort key orders oldest first, newest first, or by like count with the most first |
| Feed.SortKey | app/page.tsx:86-96 | the ascending key for each comparator: `created_at` for oldest, minus `created_at` for newest, minus the like count (0 without a status) for most liked |
| Feed.SortedCopy | app/page.tsx:83-96 | the copy is sorted by the filter's key and is a permutation of the posts |
| Feed.InsertAt | app/page.tsx:88-94 | one step of the in-place sort extends the sorted prefix by one, permutes the array and leaves the rest alone |
| Feed.ShiftLarger | app/page.tsx:88-94 | inside one insertion step, every post before place `i` whose key is larger than that of `a[i]` moves one place right; the shifting stops at the first post whose key is not larger; nothing else moves |
| Feed.SortedFeed.constructor | app/page.tsx:33-37 | the initial state has nothing fetched and the filter "newest" |
| Feed.SortedFeed.Resort | app/page.tsx:82-99 | `filteredPosts` becomes the posts sorted by the current filter; nothing else changes |
| Feed.SortedFeed.ApplyFetch | app/page.tsx:48-76 | a fetched list is stored, re-sorted and has its like statuses; a failure sets the error with "Error fetching posts" as the fallback |
| Feed.SortedFeed.HandleFilterChange | app/page.tsx:101-104 | the filter changes and the list on screen is re-sorted by it |
| Feed.SortedFeed.HandleLikeChange | app/page.tsx:107-113 | only `postId`'s like status is replaced, then the list is re-sorted |
| HomePage.FeedUrl | app/page.tsx:40-46 | signed out there is no request; otherwise the search route for a non-empty query, else the caller's own posts |
| HomePage.FeedUrlDeterminesQuery | app/page.tsx:40-46 | signed in, two queries give the same request only when they are equal, and a search never requests the caller's own posts |
| AllPostsPage.FeedUrl | app/all-posts/page.tsx:44 | the search route for a non-empty query, else all posts |
| AllPostsPage.FeedUrlDeterminesQuery | app/all-posts/page.tsx:44 | two queries give the same request only when they are equal; the text after `?q=` is the query |
| AllPostsPage.IsAdminFlag | app/all-posts/page.tsx:129 | the flag holds exactly for a signed-in user whose role is `admin` |
| FavoritesPage.FavoritesUrl | app/favorites/page.tsx:44-46 | the favorites route, with `?q=` and the query only for a non-empty query |
| FavoritesPage.FavoritesUrlDeterminesQuery | app/favorites/page.tsx:44-46 | two queries give the same favorites request only when they are equal; the text after `?q=` is the query |
| FavoritesPage.Favorites.Load | app/favorites/page.tsx:36-46 | signed out, the error is set and nothing is requested; signed in, the favorites URL is requested |
| FavoritesPage.Favorites.ApplyFetch | app/favorites/page.tsx:54-75 | the posts are shown unsorted with their like statuses, or the error is set |
| FavoritesPage.Favorites.HandleFilterChange | app/favorites/page.tsx:81-98 | the list on screen becomes the posts sorted by the filter, a permutation of them |
| TopPostsView.RankLabel | app/components/TopPosts.tsx:44-55 | index 0, 1 and 2 are "1th Post", "2nd Post" and "3rd Post", and every other index gets no label |
| TopPostsView.EveryTopCardIsRanked | app/components/TopPosts.tsx:258 | every card of a top-posts answer gets a label, since the route answers at most three posts |
| TopPostsView.TopPosts.ApplyFetch | app/components/TopPosts.tsx:60-136 | the fetched posts are stored and the error cleared; the statuses are fetched only for a non-empty answer; exactly the posts whose like (or favorite) request answered ok get an entry, and the entry is the status that request answered; a failure sets the error with "Error to Catch Top Post`s" as the fallback |
| TopPostsView.TopPosts.HandleDelete | app/components/TopPosts.tsx:147-171 | signed out, the error is set and no request is sent; a successful delete removes exactly the posts with that id and clears the error |
| TopPostsView.TopPosts.HandleLike | app/components/TopPosts.tsx:173-204 | signed out, the error is set with no request; otherwise the like count of the post moves by one in the direction of `liked`; a failure sets the error |
| TopPostsView.TopPosts.HandleFavorite | app/components/TopPosts.tsx:206-239 | the same for favorites, with the error cleared on success |
| RecentPostsView.RecentUrlAsksForFour | app/components/RecentPosts.tsx:41 | the list request's `limit=4` becomes ` LIMIT 4` on the posts route |
| RecentPostsView.BodyOf | app/components/RecentPosts.tsx:68 | the favorite body read is a status exactly for an ok answer |
| RecentPostsView.CollectFavoriteBodiesAsWritten | app/components/RecentPosts.tsx:55-71 | as written, a post's favorite body is stored exactly when its like request was ok, whatever the favorite request answered |
| RecentPostsView.FavoriteGateCounterexamples | app/components/RecentPosts.tsx:66-69 | with the like request ok and the favorite request failing, the error body is stored as the status; with the like request failing and the favorite request ok, the status is dropped |
| RecentPostsView.CorrectedGateAgreesWhenBothOk | app/components/RecentPosts.tsx:62-69 | where both requests are ok, the corrected map and the as-written map store the same status |
| RecentPostsView.RecentPosts.ApplyFetch | app/components/RecentPosts.tsx:38-83 | the posts are stored and the error cleared; like statuses are kept for ok like answers and favorite statuses for ok favorite answers (corrected gate); a failure sets the error with "Error fetching recent posts" as the fallback |
| RecentPostsView.RecentPosts.HandleDelete | app/components/RecentPosts.tsx:85-112 | signed out, the error is set and no request is sent; a successful delete removes exactly the posts with that id |
| RecentPostsView.RecentPosts.HandleLike | app/components/RecentPosts.tsx:114-146 | the post's like count moves by one in the direction of `liked` and the error is cleared; signed out, nothing is sent |
| RecentPostsView.RecentPosts.HandleFavorite | app/components/RecentPosts.tsx:148-180 | the same for favorites |
| CommentList.CommentsUrlOfKey | components/CommentList.tsx:37-38 | a post is requested by its bare id whether the thread got the key or the bare id, and the same holds for a comment's delete request |
| CommentList.CommentsUrl | components/CommentList.tsx:37-38 | the thread asks for the post by its second id segment, and by the id as given when it has no colon or an empty second segment |
| CommentList.CommentDeleteUrl | components/CommentList.tsx:76-77 | a comment is deleted by the same rule |
| CommentList.ReplyToggle | components/CommentList.tsx:57-59 | a click on the open reply box closes it, and a click on any other comment opens it there |
| CommentList.ToggleTwice | components/CommentList.tsx:57-59 | two clicks on the same comment restore the state exactly when the box was closed or already under that comment |
| CommentList.DeleteEffectsOf | components/CommentList.tsx:65-90 | the thread is refreshed only after a delete request was sent and raised no alert, and never without a request |
| CommentList.DeleteEffectsProperties | components/CommentList.tsx:65-90 | a request is sent exactly for a signed-in user who confirmed; the thread is refreshed exactly on success; signed out, the sign-in alert is shown; a declined confirmation does nothing; a failure alerts with the message |
| CommentList.Render | components/CommentList.tsx:96-135 | a node gets the "reply" class exactly below the top level and a margin of 20 px per level; the reply button shows exactly when signed in, the delete button exactly on the user's own comments, and the form exactly under the open comment; there is one child per reply |
| CommentList.RenderWellIndented | components/CommentList.tsx:128-131 | throughout the tree, each reply sits one level below its parent |
| CommentList.SignedOutThreadIsReadOnly | components/CommentList.tsx:108-119 | signed out, no node in the tree shows any control |
| CommentList.ViewOf | components/CommentList.tsx:137-149 | the error comes first, then loading, then the empty text, then the thread, whose nodes are exactly the top-level comments as `Render` draws them at depth 0, so its controls and indentation are those `Render` and `RenderWellIndented` state |
| CommentList.Thread.BeginLoad | components/CommentList.tsx:33-38 | loading starts, the error is cleared, and the post's comments are requested |
| CommentList.Thread.FinishLoad | components/CommentList.tsx:43-51 | the comments or the prefixed error are stored, and loading always ends |
| CommentList.Thread.HandleReplyClick | components/CommentList.tsx:57-59 | the reply box toggles as `ReplyToggle` says, and nothing else changes |
| CommentList.Thread.HandleReplySubmitted | components/CommentList.tsx:92-94 | the reply box closes |
| CommentForm.SentRequestIsStored | components/CommentForm.tsx:24-40 | a request the form lets through passes the route's content check and is stored with the text as typed, under the caller |
| CommentForm.Form.Type | components/CommentForm.tsx:62 | typing replaces the text and leaves the error and the submitting flag as they were |
| CommentForm.Form.BeginSubmit | components/CommentForm.tsx:18-41 | a request goes out exactly for a signed-in user with non-blank text, and carries the untrimmed text, the post id and the parent id; the sign-in check comes first; submitting starts and the error clears |
| CommentForm.SubmitError | components/CommentForm.tsx:43-52 | no message for an ok response; a response that is not ok shows its `error` text, or "خطا در ارسال کامنت" when it has none; a throw shows the thrown message |
| CommentForm.RejectionIsShown | components/CommentForm.tsx:43-46 | a rejected submission always shows a non-empty message, and the fallback never replaces an error text the route sent |
| CommentForm.Form.FinishSubmit | components/CommentForm.tsx:43-55 | on success the text is cleared, `onCommentAdded` is called if given, and `onReplySubmitted` only for a reply; otherwise the text is kept and the error is the one SubmitError gives; submitting ends either way |
| PostList.ListUrl | components/PostList.tsx:32-37 | `allPosts` wins, then a non-empty query picks the search route, else `/api/posts` |
| PostList.Heading | components/PostList.tsx:87 | the heading is "All Posts" exactly on the all-posts list, and "Your Posts" otherwise |
| PostList.EditUrl | components/PostList.tsx:111 | the edit link names the id's second segment, and `undefined` for an id without a colon |
| PostList.ControlsAreOwnerOnly | components/PostList.tsx:107 | edit and delete are offered on exactly the viewer's own posts, whatever the viewer's role |
| PostList.PagesListTheirOwnFetch | components/PostList.tsx:16-37 | the list ignores the posts the pages pass: on the home page with no query it shows `/api/posts` while the page sorted `/api/user-posts`; on the all-posts page it requests the page's own URL; so the sort the pages apply is never what the list shows, and the admin page's `isAllPosts` is not a property the component reads |
| PostList.List.Fetch | components/PostList.tsx:27-57 | signed out, nothing is requested or changed; signed in, `ListUrl` is requested and the posts or the error are stored |
| PostList.List.HandleDelete | components/PostList.tsx:59-82 | the request uses the bare id; a success removes exactly the posts with that id; a failure sets the error with "Failed to delete post" as the fallback |
| AdminPage.AdminPanel | app/admin/page.tsx:7-32 | with no caller, the sign-in error; for a role other than `admin`, the admin-only error; the panel exactly for an admin |
| AdminPage.AdminPanelList | app/admin/page.tsx:27-32 | an admin's panel lists through `/api/posts` (every post, no limit) under "Your Posts", with edit and delete only on the admin's own posts |
| AdminPage.RoleMustBeExact | app/admin/page.tsx:16-25 | only the exact role `admin` opens the panel |

## Findings

| source | as written | input that shows it | evidently intended | confidence | as-written member | corrected member |
|---|---|---|---|---|---|---|
| app/components/RecentPosts.tsx:67 | the favorite status is stored when `likeRes.ok` | the like request answers 200 and the favorite request answers 500 with `{error: 'Error fetching favorites', details}`; the error body is then stored as the post's favorite status (and with the answers reversed a real status is dropped) | gate on `favoriteRes.ok`, as TopPosts does at app/components/TopPosts.tsx:114 | not executed | RecentPostsView.CollectFavoriteBodiesAsWritten, RecentPostsView.FavoriteGateCounterexamples | ClientCommon.CollectFavoriteStatuses, used by RecentPostsView.RecentPosts.ApplyFetch |

## Left out

- Database connection, SurrealDB query semantics (`~`, `ORDER BY`, `LIMIT`, `IN`) and Clerk calls: these are inputs to the model, so query answers are given sequences and a profile lookup may fail.
- `fetch`, `Promise.all` and `response.json()`: each fan-out is a sequential loop over the fetched posts, and each request is an outcome parameter. A request that throws inside a loop counts as a not-ok answer. In the home, all-posts, favorites and recent views the source would instead abandon the whole fetch and set the error.
- `encodeURIComponent`: the query is placed in the URL as it is.
- Dates: timestamps are integers, and `toLocaleDateString` is not modelled.
- ClientCommon.TruncateContent: lengths and cuts count Unicode characters, not the UTF-16 code units of JavaScript `length` and `slice`. Text with characters above U+FFFF is therefore cut later than in the components, and the model never splits a surrogate pair as `slice` can.
- JavaScript numbers: the model uses mathematical integers. Floating-point rounding, exponent spellings beyond 1e21 and the sign of -0 from `parseInt` are not modelled. Every caller tests the limit for truthiness, where -0 and 0 agree.
- Ids are strings throughout. A `RecordId` compared with `===` against a string is not modelled.
- Feed.SortedCopy: the source's `Array.prototype.sort` is stable. The insertion sort never moves a post past an equal one, but the contract does not state stability as a property. It states the order and the permutation.
- TopPostsRoute.SortByRank: the same holds for the ranker. Posts with equal likes and equal `created_at` keep their input order in `Insert`, and with `slice(0, 3)` that order decides which of them survive. The contract states the ranking and the permutation, not stability.
- RecentPostsView.RecentPosts.ApplyFetch: the favorite statuses follow the corrected gate. A post's favorite answer is stored exactly when that answer is ok (ClientCommon.CollectFavoriteStatuses). The component as written stores the favorite answer's body whenever the like answer is ok. That behaviour is modelled separately by RecentPostsView.CollectFavoriteBodiesAsWritten (see "## Findings"), and the class does not follow it.
- TopPostsView.TopPosts.HandleLike: on success the source calls `fetchTopPosts`, which is not in scope in the handler. The model leaves `posts` and `error` unchanged there.
- TopPostsView.TopPosts.ApplyFetch: `likeData.likesCount || 0` is modelled as the status the like route returns. A missing count is not distinguished from 0.
- ClientCommon.AdjustLike, ClientCommon.AdjustFavorite: for a post with no status entry, the source's state updater reads a property of `undefined`. AdjustLike and AdjustFavorite return `None` for that case, and the views keep their statuses unchanged.
- The `isMounted` guard of TopPosts, `router.push` navigation, `alert`/`confirm` dialogs other than as effect values, and all markup.
- The comment-tree, like and favorite toggle, post delete and edit routes are not part of this model. Their handlers are not among the modelled sources, so the views' requests to them are outcome parameters.
- The `all=true` parameter of `/api/posts?all=true` is ignored by the posts route: LimitOf reads only `limit`.
- Missing record fields: a string field that a store record lacks is read as "". The handlers only test such fields for truthiness, where a missing field and "" agree.
- Store.KeyString: `RecordId.toString()` is modelled as `table:id`. That holds only for identifiers that need no escaping; the store's escaping of other identifiers, with angle brackets or backticks, is not modelled.
