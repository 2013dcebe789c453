/** The re-sort the post pages apply to the posts they fetched: a copy of
    the list, sorted in place by creation time (oldest or newest first) or
    by like count (most first, a post without a status counting 0); and the
    page state that the home and all-posts pages keep around it. */
module Feed {
  import opened Common
  import opened ClientCommon

  datatype FilterType = Oldest | Newest | MostLiked

  /** The comparators `(a, b) => key(a) - key(b)` written as one ascending
      key: `a.created_at` for oldest first, `-b.created_at` (so newest first),
      and minus the like count for most liked. */
  function SortKey(filter: FilterType, statuses: map<string, LikeStatus>, p: ClientPost): (k: int)
    ensures filter == Oldest ==> k == p.createdAt
    ensures filter == Newest ==> k == -p.createdAt
    ensures filter == MostLiked ==> k == -LikesOf(statuses, p.id)
  {
    match filter
    case Oldest => p.createdAt
    case Newest => -p.createdAt
    case MostLiked => -LikesOf(statuses, p.id)
  }

  predicate SortedFor(filter: FilterType, statuses: map<string, LikeStatus>, s: seq<ClientPost>) {
    forall i, j :: 0 <= i < j < |s| ==> SortKey(filter, statuses, s[i]) <= SortKey(filter, statuses, s[j])
  }

  /** What each mode's order means for the posts. */
  lemma SortedForMeaning(filter: FilterType, statuses: map<string, LikeStatus>, s: seq<ClientPost>)
    requires SortedFor(filter, statuses, s)
    ensures filter == Oldest ==> forall i, j :: 0 <= i < j < |s| ==> s[i].createdAt <= s[j].createdAt
    ensures filter == Newest ==> forall i, j :: 0 <= i < j < |s| ==> s[i].createdAt >= s[j].createdAt
    ensures filter == MostLiked ==>
      forall i, j :: 0 <= i < j < |s| ==> LikesOf(statuses, s[i].id) >= LikesOf(statuses, s[j].id)
  {
  }

  /** `let sortedPosts = [...posts]; sortedPosts.sort(comparator)`: an
      insertion sort in place on a fresh array, which never moves a post past
      one with an equal key. */
  method SortedCopy(posts: seq<ClientPost>, filter: FilterType, statuses: map<string, LikeStatus>)
    returns (sorted: seq<ClientPost>)
    ensures SortedFor(filter, statuses, sorted)
    ensures multiset(sorted) == multiset(posts)
  {
    var a := new ClientPost[|posts|](i requires 0 <= i < |posts| => posts[i]);
    assert a[..] == posts;
    var i := 0;
    while i < a.Length
      invariant 0 <= i <= a.Length
      invariant SortedFor(filter, statuses, a[..i])
      invariant multiset(a[..]) == multiset(posts)
    {
      InsertAt(a, i, filter, statuses);
      i := i + 1;
    }
    assert a[..a.Length] == a[..];
    sorted := a[..];
  }

  /** One insertion step: the posts before `a[i]` with a larger key move
      one place right and `a[i]` drops into the gap, so that `a[..i + 1]`
      is sorted. */
  method InsertAt(a: array<ClientPost>, i: nat, filter: FilterType, statuses: map<string, LikeStatus>)
    requires i < a.Length
    requires SortedFor(filter, statuses, a[..i])
    modifies a
    ensures SortedFor(filter, statuses, a[..i + 1])
    ensures multiset(a[..]) == multiset(old(a[..]))
    ensures a[i + 1..] == old(a[i + 1..])
  {
    ghost var s := a[..];
    var x := a[i];
    var j := ShiftLarger(a, i, filter, statuses);
    a[j] := x;
    ShiftedInsert(a[..], s, i, j);
    ghost var front := s[..i];
    assert front[..j] == s[..j] && front[j..] == s[j..i];
    InsertedSorted(front, j, x, filter, statuses);
    assert a[..i + 1] == front[..j] + [x] + front[j..];
    InsertedPermutes(s, i, j);
  }

  /** The shift loop of one insertion step: from place `i` down, each post
      with a larger key than `a[i]` moves one place right; `j` is where the
      shifting stopped. */
  method ShiftLarger(a: array<ClientPost>, i: nat, filter: FilterType, statuses: map<string, LikeStatus>)
    returns (j: nat)
    requires i < a.Length
    modifies a
    ensures j <= i
    ensures forall q :: 0 <= q < j ==> a[q] == old(a[q])
    ensures forall q :: j < q <= i ==> a[q] == old(a[q - 1])
    ensures forall q :: i < q < a.Length ==> a[q] == old(a[q])
    ensures forall q :: j <= q < i ==> SortKey(filter, statuses, old(a[q])) > SortKey(filter, statuses, old(a[i]))
    ensures j > 0 ==> SortKey(filter, statuses, old(a[j - 1])) <= SortKey(filter, statuses, old(a[i]))
  {
    ghost var s := a[..];
    var k := SortKey(filter, statuses, a[i]);
    j := i;
    while j > 0 && SortKey(filter, statuses, a[j - 1]) > k
      invariant 0 <= j <= i
      invariant forall q :: 0 <= q < j ==> a[q] == s[q]
      invariant forall q :: j < q <= i ==> a[q] == s[q - 1]
      invariant forall q :: i < q < a.Length ==> a[q] == s[q]
      invariant forall q :: j <= q < i ==> SortKey(filter, statuses, s[q]) > k
    {
      a[j] := a[j - 1];
      j := j - 1;
    }
  }

  /** The array after the shift loop: `s[i]` moved down to place `j`, the
      posts between moved one place up, the rest in place. */
  lemma ShiftedInsert(t: seq<ClientPost>, s: seq<ClientPost>, i: nat, j: nat)
    requires j <= i < |s| == |t|
    requires t[j] == s[i]
    requires forall q :: 0 <= q < j ==> t[q] == s[q]
    requires forall q :: j < q <= i ==> t[q] == s[q - 1]
    requires forall q :: i < q < |t| ==> t[q] == s[q]
    ensures t == s[..j] + [s[i]] + s[j..i] + s[i + 1..]
  {
  }

  /** Putting `x` between the posts with keys up to its own and those with
      larger keys keeps a sorted list sorted. */
  lemma InsertedSorted(s: seq<ClientPost>, j: nat, x: ClientPost, filter: FilterType, statuses: map<string, LikeStatus>)
    requires j <= |s|
    requires SortedFor(filter, statuses, s)
    requires j > 0 ==> SortKey(filter, statuses, s[j - 1]) <= SortKey(filter, statuses, x)
    requires forall q :: j <= q < |s| ==> SortKey(filter, statuses, s[q]) > SortKey(filter, statuses, x)
    ensures SortedFor(filter, statuses, s[..j] + [x] + s[j..])
  {
  }

  lemma InsertedPermutes(s: seq<ClientPost>, i: nat, j: nat)
    requires j <= i < |s|
    ensures multiset(s[..j] + [s[i]] + s[j..i] + s[i + 1..]) == multiset(s)
  {
    assert s == s[..j] + s[j..i] + [s[i]] + s[i + 1..];
  }

  const FetchFallback: string := "Error fetching posts"

  /** The state the home and all-posts pages share, and its updates: the
      fetched posts, the sorted list on screen, the like statuses, the error
      and the filter. */
  class SortedFeed {
    var posts: seq<ClientPost>
    var filteredPosts: seq<ClientPost>
    var likeStatuses: map<string, LikeStatus>
    var error: Option<string>
    var currentFilter: FilterType

    /** The list on screen is the fetched list sorted by the current filter. */
    predicate Displayed()
      reads this
    {
      SortedFor(currentFilter, likeStatuses, filteredPosts) && multiset(filteredPosts) == multiset(posts)
    }

    /** The initial state: nothing fetched, filter "newest". */
    constructor ()
      ensures posts == [] && filteredPosts == [] && likeStatuses == map[] && error == None
      ensures currentFilter == Newest
      ensures Displayed()
    {
      posts := [];
      filteredPosts := [];
      likeStatuses := map[];
      error := None;
      currentFilter := Newest;
    }

    /** The re-sort effect: a sorted copy replaces `filteredPosts`; `posts`
        itself is not touched. */
    method Resort()
      modifies this
      ensures Displayed()
      ensures posts == old(posts) && likeStatuses == old(likeStatuses)
      ensures currentFilter == old(currentFilter) && error == old(error)
    {
      filteredPosts := SortedCopy(posts, currentFilter, likeStatuses);
    }

    /** The fetch effect once the list request settles (`Err`: the thrown
        message): the posts and their like statuses are stored and the
        error cleared, or the error is set. */
    method ApplyFetch(outcome: Result<seq<ClientPost>>, likeFetch: string -> Option<LikeStatus>)
      modifies this
      ensures Displayed() == (outcome.Ok? || old(Displayed()))
      ensures currentFilter == old(currentFilter)
      ensures outcome.Ok? ==> posts == outcome.value && error == None
      ensures outcome.Ok? ==> forall k :: k in likeStatuses <==> k in Ids(posts) && likeFetch(LikeUrl(k)).Some?
      ensures outcome.Ok? ==> forall k :: k in likeStatuses ==> likeStatuses[k] == likeFetch(LikeUrl(k)).value
      ensures outcome.Err? ==> error == Some(OrDefault(outcome.message, FetchFallback))
      ensures outcome.Err? ==> posts == old(posts) && filteredPosts == old(filteredPosts)
      ensures outcome.Err? ==> likeStatuses == old(likeStatuses)
    {
      match outcome
      case Err(m) =>
        error := Some(OrDefault(m, FetchFallback));
      case Ok(fetched) =>
        posts := fetched;
        filteredPosts := fetched;
        likeStatuses := CollectLikeStatuses(fetched, likeFetch);
        error := None;
        Resort();
    }

    /** `handleFilterChange`, followed by the re-sort it triggers. */
    method HandleFilterChange(filter: FilterType)
      modifies this
      ensures currentFilter == filter && Displayed()
      ensures posts == old(posts) && likeStatuses == old(likeStatuses) && error == old(error)
    {
      currentFilter := filter;
      Resort();
    }

    /** `handleLikeChange`: only the entry of `postId` is replaced; then the
        re-sort runs. */
    method HandleLikeChange(postId: string, status: LikeStatus)
      modifies this
      ensures likeStatuses == old(likeStatuses)[postId := status]
      ensures forall k :: k in old(likeStatuses) && k != postId ==> likeStatuses[k] == old(likeStatuses)[k]
      ensures Displayed()
      ensures posts == old(posts) && currentFilter == old(currentFilter) && error == old(error)
    {
      likeStatuses := likeStatuses[postId := status];
      Resort();
    }
  }
}
