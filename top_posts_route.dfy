/** GET /api/posts/top: count the like records per post, attach the counts
    to the posts, rank by likes (most first) and then by age (oldest first),
    keep the first three, drop records without id, title or author, and name
    each remaining post's author. */
module TopPostsRoute {
  import opened Common
  import opened Identity
  import opened Store

  datatype Like = Like(postId: string)

  /** A post with its `likesCount` attached. */
  datatype RankedPost = RankedPost(post: Post, likesCount: nat)

  /** One element of the response array. */
  datatype TopPost = TopPost(post: Post, likesCount: nat, authorName: string)

  /** The response, and the author ids the handler looked up, in order. */
  datatype TopReply = TopReply(response: Response<seq<TopPost>>, lookedUp: seq<string>)

  const TopCount: nat := 3

  /** "Error fetching the top posts". */
  const ErrorMessage: string := "خطا در دریافت پست‌های برتر"

  /** The number of like records whose `postId` is `id`. */
  function LikeCount(likes: seq<Like>, id: string): nat {
    if likes == [] then 0
    else LikeCount(likes[..|likes| - 1], id) + (if likes[|likes| - 1].postId == id then 1 else 0)
  }

  /** `likesCountMap` after `likes.forEach`: each like adds one to the entry of its post. */
  function CountsOf(likes: seq<Like>): map<string, nat> {
    if likes == [] then map[]
    else
      var m := CountsOf(likes[..|likes| - 1]);
      var k := likes[|likes| - 1].postId;
      m[k := (if k in m then m[k] else 0) + 1]
  }

  /** The map has an entry exactly for the liked posts, and each entry is the
      number of likes of that post. */
  lemma {:induction false} CountsOfCounts(likes: seq<Like>, k: string)
    ensures k in CountsOf(likes) <==> exists i :: 0 <= i < |likes| && likes[i].postId == k
    ensures k in CountsOf(likes) ==> CountsOf(likes)[k] == LikeCount(likes, k)
    ensures k !in CountsOf(likes) ==> LikeCount(likes, k) == 0
  {
    if likes != [] {
      var init := likes[..|likes| - 1];
      CountsOfCounts(init, k);
      if k in CountsOf(init) {
        var i :| 0 <= i < |init| && init[i].postId == k;
        assert likes[i].postId == k;
      }
      if exists i :: 0 <= i < |likes| && likes[i].postId == k {
        var i :| 0 <= i < |likes| && likes[i].postId == k;
        if i < |init| {
          assert init[i].postId == k;
        }
      }
    }
  }

  /** The `likes.forEach` loop that fills `likesCountMap` in place. */
  method CountLikes(likes: seq<Like>) returns (counts: map<string, nat>)
    ensures counts == CountsOf(likes)
    ensures forall k :: k in counts <==> exists i :: 0 <= i < |likes| && likes[i].postId == k
    ensures forall k :: k in counts ==> counts[k] == LikeCount(likes, k)
  {
    counts := map[];
    for i := 0 to |likes|
      invariant counts == CountsOf(likes[..i])
    {
      assert likes[..i + 1][..i] == likes[..i];
      var k := likes[i].postId;
      counts := counts[k := (if k in counts then counts[k] else 0) + 1];
    }
    assert likes[..|likes|] == likes;
    forall k
      ensures (k in counts <==> exists i :: 0 <= i < |likes| && likes[i].postId == k)
      ensures k in counts ==> counts[k] == LikeCount(likes, k)
    {
      CountsOfCounts(likes, k);
    }
  }

  /** `posts.map(post => ({ ...post, likesCount: likesCountMap[post.id] || 0 }))`. */
  function AttachCounts(posts: seq<Post>, counts: map<string, nat>): (r: seq<RankedPost>)
    ensures |r| == |posts|
    ensures forall i :: 0 <= i < |r| ==> r[i].post == posts[i]
  {
    seq(|posts|, i requires 0 <= i < |posts| =>
      RankedPost(posts[i], if posts[i].id in counts then counts[posts[i].id] else 0))
  }

  /** Each post carries the number of its like records, 0 when it has none,
      and is otherwise unchanged. */
  lemma AttachedCountIsLikeCount(likes: seq<Like>, posts: seq<Post>, i: int)
    requires 0 <= i < |posts|
    ensures AttachCounts(posts, CountsOf(likes))[i] == RankedPost(posts[i], LikeCount(likes, posts[i].id))
  {
    CountsOfCounts(likes, posts[i].id);
  }

  /** The comparator allows `a` ahead of `b`: more likes, or as many and not younger. */
  predicate RankBefore(a: RankedPost, b: RankedPost)
    ensures RankBefore(a, b) ==> a.likesCount >= b.likesCount
    ensures a.likesCount > b.likesCount ==> RankBefore(a, b)
  {
    a.likesCount > b.likesCount || (a.likesCount == b.likesCount && a.post.createdAt <= b.post.createdAt)
  }

  predicate SortedByRank(s: seq<RankedPost>) {
    forall i, j :: 0 <= i < j < |s| ==> RankBefore(s[i], s[j])
  }

  /** The comparator orders every pair, and two posts may each precede the
      other exactly when they tie on both keys. */
  lemma RankBeforeTotal(a: RankedPost, b: RankedPost)
    ensures RankBefore(a, b) || RankBefore(b, a)
    ensures RankBefore(a, b) && RankBefore(b, a) <==>
      a.likesCount == b.likesCount && a.post.createdAt == b.post.createdAt
  {
  }

  lemma RankTransitive(a: RankedPost, b: RankedPost, c: RankedPost)
    requires RankBefore(a, b) && RankBefore(b, c)
    ensures RankBefore(a, c)
  {
  }

  /** A post that may precede every element of a ranked list may head it. */
  lemma PrependSorted(x: RankedPost, s: seq<RankedPost>)
    requires SortedByRank(s)
    requires forall y :: y in s ==> RankBefore(x, y)
    ensures SortedByRank([x] + s)
  {
    var r := [x] + s;
    forall i, j | 0 <= i < j < |r| ensures RankBefore(r[i], r[j]) {
      if i == 0 {
        assert r[j] == s[j - 1] && s[j - 1] in s;
      } else {
        assert r[i] == s[i - 1] && r[j] == s[j - 1];
      }
    }
  }

  /** The head of a ranked list may precede each of its elements. */
  lemma HeadPrecedes(s: seq<RankedPost>)
    requires SortedByRank(s) && s != []
    ensures forall y :: y in s ==> RankBefore(s[0], y)
  {
    forall y | y in s ensures RankBefore(s[0], y) {
      var k :| 0 <= k < |s| && s[k] == y;
    }
  }

  /** `x` placed ahead of the first element it may precede. */
  function Insert(x: RankedPost, s: seq<RankedPost>): (r: seq<RankedPost>)
    requires SortedByRank(s)
    ensures SortedByRank(r)
    ensures multiset(r) == multiset(s) + multiset{x}
  {
    if s == [] then [x]
    else if RankBefore(x, s[0]) then
      HeadPrecedes(s);
      forall y | y in s ensures RankBefore(x, y) {
        RankTransitive(x, s[0], y);
      }
      PrependSorted(x, s);
      [x] + s
    else
      assert s == [s[0]] + s[1..];
      var rest := Insert(x, s[1..]);
      HeadPrecedes(s);
      forall y | y in rest ensures RankBefore(s[0], y) {
        assert y in multiset(rest);
        assert y == x || y in multiset(s[1..]);
      }
      PrependSorted(s[0], rest);
      [s[0]] + rest
  }

  /** The `.sort(...)` of lines 78-84: by likes descending, then `created_at` ascending. */
  function SortByRank(s: seq<RankedPost>): (r: seq<RankedPost>)
    ensures SortedByRank(r)
    ensures multiset(r) == multiset(s)
  {
    if s == [] then []
    else
      assert s == [s[0]] + s[1..];
      Insert(s[0], SortByRank(s[1..]))
  }

  /** `.slice(0, 3)`. */
  function TakeTop(s: seq<RankedPost>): (r: seq<RankedPost>)
    ensures |r| == if |s| < TopCount then |s| else TopCount
    ensures r == s[..|r|]
  {
    if |s| < TopCount then s else s[..TopCount]
  }

  /** `post.id && post.title && post.author`. */
  predicate HasDisplayFields(p: RankedPost)
    ensures HasDisplayFields(p) <==>
      Truthy(Some(p.post.id)) && Truthy(Some(p.post.title)) && Truthy(Some(p.post.author))
  {
    p.post.id != "" && p.post.title != "" && p.post.author != ""
  }

  /** The defensive `filter` of lines 89-91. */
  function KeepDisplayable(s: seq<RankedPost>): (r: seq<RankedPost>)
    ensures forall x :: x in r <==> x in s && HasDisplayFields(x)
    ensures IsSubsequence(r, s)
    ensures SortedByRank(s) ==> SortedByRank(r)
    ensures forall x :: multiset(r)[x] == if HasDisplayFields(x) then multiset(s)[x] else 0
  {
    if s == [] then []
    else
      var rest := KeepDisplayable(s[1..]);
      var r := if HasDisplayFields(s[0]) then [s[0]] + rest else rest;
      KeepStep(s, rest, r);
      r
  }

  /** One step of the filter: keeping or dropping the head carries each
      property of the filtered tail over to the whole list. */
  lemma KeepStep(s: seq<RankedPost>, rest: seq<RankedPost>, r: seq<RankedPost>)
    requires s != []
    requires forall x :: x in rest <==> x in s[1..] && HasDisplayFields(x)
    requires IsSubsequence(rest, s[1..])
    requires SortedByRank(s[1..]) ==> SortedByRank(rest)
    requires forall x :: multiset(rest)[x] == if HasDisplayFields(x) then multiset(s[1..])[x] else 0
    requires r == if HasDisplayFields(s[0]) then [s[0]] + rest else rest
    ensures forall x :: x in r <==> x in s && HasDisplayFields(x)
    ensures IsSubsequence(r, s)
    ensures SortedByRank(s) ==> SortedByRank(r)
    ensures forall x :: multiset(r)[x] == if HasDisplayFields(x) then multiset(s)[x] else 0
  {
    assert s == [s[0]] + s[1..];
    if HasDisplayFields(s[0]) {
      assert r[1..] == rest;
      if SortedByRank(s) {
        HeadPrecedes(s);
        assert forall y :: y in rest ==> y in s;
        PrependSorted(s[0], rest);
      }
    }
  }

  /** The posts that survive ranking, truncation and the field filter. */
  function RankedPosts(likes: seq<Like>, posts: seq<Post>): (r: seq<RankedPost>)
    ensures |r| <= TopCount
    ensures SortedByRank(r)
    ensures forall x :: x in r ==> HasDisplayFields(x)
  {
    var top := TakeTop(SortByRank(AttachCounts(posts, CountsOf(likes))));
    SubsequenceElements(KeepDisplayable(top), top);
    KeepDisplayable(top)
  }

  /** The enrichment of lines 98-116. */
  function EnrichTop(s: seq<RankedPost>, lookup: string -> Option<Profile>): (r: seq<TopPost>)
    ensures |r| == |s|
    ensures forall i :: 0 <= i < |r| ==>
      r[i] == TopPost(s[i].post, s[i].likesCount, AuthorName(lookup(s[i].post.author)))
  {
    seq(|s|, i requires 0 <= i < |s| =>
      TopPost(s[i].post, s[i].likesCount, AuthorName(lookup(s[i].post.author))))
  }

  /** What GET answers for the given like and post query results
      (`Err` is a query, or the connection, throwing). */
  function TopPostsReply(likesQ: Result<QueryResult<Like>>, postsQ: Result<QueryResult<Post>>,
                         lookup: string -> Option<Profile>): (r: TopReply)
    ensures r.response.status == 500 <==> likesQ.Err? || postsQ.Err?
    ensures r.response.status != 500 ==> r.response.status == 200 && r.response.body.Data?
    ensures likesQ.Err? || postsQ.Err? ==> r.lookedUp == []
  {
    if likesQ.Err? then TopReply(ServerError(ErrorMessage, likesQ.message), [])
    else if postsQ.Err? then TopReply(ServerError(ErrorMessage, postsQ.message), [])
    else
      var ranked := RankedPosts(Rows(likesQ.value), Rows(postsQ.value));
      if ranked == [] then TopReply(Response(200, Data([])), [])
      else
        var authors := seq(|ranked|, i requires 0 <= i < |ranked| => ranked[i].post.author);
        TopReply(Response(200, Data(EnrichTop(ranked, lookup))), authors)
  }

  /** The handler: the counting loop, then the pure ranking chain. */
  method Get(likesQ: Result<QueryResult<Like>>, postsQ: Result<QueryResult<Post>>,
             lookup: string -> Option<Profile>) returns (reply: TopReply)
    ensures reply == TopPostsReply(likesQ, postsQ, lookup)
  {
    if likesQ.Err? {
      return TopReply(ServerError(ErrorMessage, likesQ.message), []);
    }
    var likes := Rows(likesQ.value);
    var counts := CountLikes(likes);
    if postsQ.Err? {
      return TopReply(ServerError(ErrorMessage, postsQ.message), []);
    }
    var ranked := KeepDisplayable(TakeTop(SortByRank(AttachCounts(Rows(postsQ.value), counts))));
    reply := RankedReply(ranked, lookup);
  }

  /** The successful answer for the surviving posts, with one author lookup
      per post. */
  method RankedReply(ranked: seq<RankedPost>, lookup: string -> Option<Profile>) returns (reply: TopReply)
    ensures reply.response == Response(200, Data(if ranked == [] then [] else EnrichTop(ranked, lookup)))
    ensures |reply.lookedUp| == |ranked|
    ensures forall i :: 0 <= i < |ranked| ==> reply.lookedUp[i] == ranked[i].post.author
  {
    if ranked == [] {
      reply := TopReply(Response(200, Data([])), []);
    } else {
      var authors := seq(|ranked|, i requires 0 <= i < |ranked| => ranked[i].post.author);
      reply := TopReply(Response(200, Data(EnrichTop(ranked, lookup))), authors);
    }
  }

  /** A thrown query gives status 500 with the error message as `details`,
      and no author is looked up. */
  lemma TopFailureIs500(likesQ: Result<QueryResult<Like>>, postsQ: Result<QueryResult<Post>>,
                        lookup: string -> Option<Profile>)
    requires likesQ.Err? || postsQ.Err?
    ensures var r := TopPostsReply(likesQ, postsQ, lookup);
      && r.response.status == 500
      && r.response.body.Failure?
      && r.response.body.details == Some(if likesQ.Err? then likesQ.message else postsQ.message)
      && r.lookedUp == []
  {
  }

  /** The posts that survive: at most three, ranked, a subsequence of the
      first three ranked posts, each with id, title and author and with its
      own like count. */
  lemma RankedPostsProperties(likes: seq<Like>, posts: seq<Post>)
    ensures var sorted := SortByRank(AttachCounts(posts, CountsOf(likes)));
      var ranked := RankedPosts(likes, posts);
      && |ranked| <= TopCount
      && IsSubsequence(ranked, TakeTop(sorted))
      && SortedByRank(ranked)
      && (forall i :: 0 <= i < |ranked| ==>
            HasDisplayFields(ranked[i]) && ranked[i].likesCount == LikeCount(likes, ranked[i].post.id))
      && (forall x :: multiset(ranked)[x] == if HasDisplayFields(x) then multiset(TakeTop(sorted))[x] else 0)
  {
    var attached := AttachCounts(posts, CountsOf(likes));
    var sorted := SortByRank(attached);
    var top := TakeTop(sorted);
    var ranked := RankedPosts(likes, posts);
    SubsequenceElements(ranked, top);
    forall i | 0 <= i < |ranked|
      ensures HasDisplayFields(ranked[i])
      ensures ranked[i].likesCount == LikeCount(likes, ranked[i].post.id)
    {
      assert ranked[i] in ranked;
      RankedCarriesLikeCount(likes, posts, ranked[i]);
    }
  }

  /** Ranking and truncation only rearrange the attached posts, so each one
      left carries its like count. */
  lemma RankedCarriesLikeCount(likes: seq<Like>, posts: seq<Post>, x: RankedPost)
    requires x in TakeTop(SortByRank(AttachCounts(posts, CountsOf(likes))))
    ensures x.likesCount == LikeCount(likes, x.post.id)
  {
    var attached := AttachCounts(posts, CountsOf(likes));
    var sorted := SortByRank(attached);
    assert x in sorted;
    assert x in multiset(attached);
    var j :| 0 <= j < |attached| && attached[j] == x;
    AttachedCountIsLikeCount(likes, posts, j);
  }

  /** The properties of a successful answer: at most three posts, all with
      id, title and author, ranked, a subsequence of the first three ranked
      posts, each with its own like count and author name; when none is
      left the answer is `[]` and nobody is looked up. */
  lemma TopPostsProperties(likesQ: Result<QueryResult<Like>>, postsQ: Result<QueryResult<Post>>,
                           lookup: string -> Option<Profile>)
    requires likesQ.Ok? && postsQ.Ok?
    ensures var r := TopPostsReply(likesQ, postsQ, lookup);
      var likes := Rows(likesQ.value);
      var sorted := SortByRank(AttachCounts(Rows(postsQ.value), CountsOf(likes)));
      var ranked := RankedPosts(likes, Rows(postsQ.value));
      && r.response.status == 200
      && r.response.body.Data?
      && |r.response.body.value| <= TopCount
      && IsSubsequence(ranked, TakeTop(sorted))
      && SortedByRank(ranked)
      && |r.response.body.value| == |ranked| == |r.lookedUp|
      && (forall i :: 0 <= i < |ranked| ==>
            && HasDisplayFields(ranked[i])
            && ranked[i].likesCount == LikeCount(likes, ranked[i].post.id)
            && r.response.body.value[i] ==
                 TopPost(ranked[i].post, ranked[i].likesCount, AuthorName(lookup(ranked[i].post.author)))
            && r.lookedUp[i] == ranked[i].post.author)
      && (ranked == [] ==> r.response.body.value == [] && r.lookedUp == [])
  {
    RankedPostsProperties(Rows(likesQ.value), Rows(postsQ.value));
  }

  /** The ranking example: A (2 likes, t1), B (2 likes, t0), C (5 likes, t2)
      with t0 < t1 < t2 come out as C, B, A. */
  lemma RankingExample(a: Post, b: Post, c: Post)
    requires b.createdAt < a.createdAt < c.createdAt
    ensures var ra, rb, rc := RankedPost(a, 2), RankedPost(b, 2), RankedPost(c, 5);
      SortByRank([ra, rb, rc]) == [rc, rb, ra]
  {
    SortThreeReversed(RankedPost(a, 2), RankedPost(b, 2), RankedPost(c, 5));
  }

  /** Three posts each of which may not precede the ones after it come out
      in reverse. */
  lemma SortThreeReversed(x: RankedPost, y: RankedPost, z: RankedPost)
    requires !RankBefore(x, y) && !RankBefore(x, z) && !RankBefore(y, z)
    ensures SortByRank([x, y, z]) == [z, y, x]
  {
    assert [x, y, z][1..] == [y, z];
    assert [y, z][1..] == [z];
    assert [z][1..] == [];
    var one := SortByRank([z]);
    assert one == [z];
    var two := SortByRank([y, z]);
    InsertBehindOne(y, z);
    assert two == [z, y];
    InsertBehindTwo(x, z, y);
  }

  lemma InsertBehindOne(x: RankedPost, y: RankedPost)
    requires !RankBefore(x, y)
    ensures Insert(x, [y]) == [y, x]
  {
    assert [y][1..] == [];
  }

  lemma InsertBehindTwo(x: RankedPost, y: RankedPost, z: RankedPost)
    requires SortedByRank([y, z]) && !RankBefore(x, y) && !RankBefore(x, z)
    ensures Insert(x, [y, z]) == [y, z, x]
  {
    assert [y, z][1..] == [z];
    InsertBehindOne(x, z);
  }
}
