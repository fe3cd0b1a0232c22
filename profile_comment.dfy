/** The profile page's list of the user's own comments
    (src/components/ProfileComment.tsx): the query it issues, the newest-first
    ordering of what comes back, the "more" flag and the page the scroll observer
    advances. `Array.prototype.sort` is stable, so comments with the same
    timestamp keep the order the server sent them in; the sort is modelled as a
    stable insertion sort and proved equal to any other ordering with those
    properties. */
module ProfileComment {
  import opened Wrappers
  import opened Entities
  import JsArray
  import Decimal
  import CommentApi

  const PAGE_SIZE := 5

  /** Newest first: no comment precedes a newer one. */
  predicate SortedDesc(s: seq<Comment>) {
    forall i, j :: 0 <= i < j < |s| ==> s[i].createdAt >= s[j].createdAt
  }

  /** The test "was created at `k`", one function term per instant. */
  function AtTime(k: int): Comment -> bool {
    (c: Comment) => c.createdAt == k
  }

  /** Same-instant comments appear in `a` in the same order as in `b`. */
  ghost predicate SameTies(a: seq<Comment>, b: seq<Comment>) {
    forall k :: JsArray.Filter(a, AtTime(k)) == JsArray.Filter(b, AtTime(k))
  }

  /** Puts `c` in front of the first comment not newer than it. */
  function Insert(c: Comment, t: seq<Comment>): (r: seq<Comment>)
    ensures |r| == |t| + 1
  {
    if t == [] || t[0].createdAt <= c.createdAt then [c] + t
    else [t[0]] + Insert(c, t[1..])
  }

  /** The comparator `(a, b) => b.createdAt - a.createdAt` under a stable sort. */
  function SortDesc(s: seq<Comment>): (r: seq<Comment>)
    ensures |r| == |s|
  {
    if s == [] then [] else Insert(s[0], SortDesc(s[1..]))
  }

  /** No comment of `s` is newer than `k`. */
  predicate NoneNewer(s: seq<Comment>, k: int) {
    forall i :: 0 <= i < |s| ==> s[i].createdAt <= k
  }

  /** A comment followed by a newest-first list not newer than it is newest first. */
  lemma ConsSorted(x: Comment, r: seq<Comment>)
    requires SortedDesc(r) && NoneNewer(r, x.createdAt)
    ensures SortedDesc([x] + r)
  {
    var s := [x] + r;
    forall i, j | 0 <= i < j < |s|
      ensures s[i].createdAt >= s[j].createdAt
    {
      assert s[j] == r[j - 1];
      if i > 0 {
        assert s[i] == r[i - 1];
      }
    }
  }

  lemma {:induction false} InsertNoneNewer(c: Comment, t: seq<Comment>, k: int)
    requires c.createdAt <= k && NoneNewer(t, k)
    ensures NoneNewer(Insert(c, t), k)
  {
    if t != [] && t[0].createdAt > c.createdAt {
      InsertNoneNewer(c, t[1..], k);
    }
  }

  lemma {:induction false} InsertSorted(c: Comment, t: seq<Comment>)
    requires SortedDesc(t)
    ensures SortedDesc(Insert(c, t))
  {
    if t == [] || t[0].createdAt <= c.createdAt {
      ConsSorted(c, t);
    } else {
      assert SortedDesc(t[1..]);
      InsertSorted(c, t[1..]);
      InsertNoneNewer(c, t[1..], t[0].createdAt);
      ConsSorted(t[0], Insert(c, t[1..]));
    }
  }

  lemma {:induction false} InsertPermutes(c: Comment, t: seq<Comment>)
    ensures multiset(Insert(c, t)) == multiset([c] + t)
  {
    if t != [] && t[0].createdAt > c.createdAt {
      InsertPermutes(c, t[1..]);
      assert t == [t[0]] + t[1..];
    }
  }

  /** The sort orders newest first and keeps exactly the comments it was given. */
  lemma {:induction false} SortDescSpec(s: seq<Comment>)
    ensures SortedDesc(SortDesc(s))
    ensures multiset(SortDesc(s)) == multiset(s)
  {
    if s != [] {
      SortDescSpec(s[1..]);
      InsertSorted(s[0], SortDesc(s[1..]));
      InsertPermutes(s[0], SortDesc(s[1..]));
      assert s == [s[0]] + s[1..];
    }
  }

  /** Inserting moves `c` only past strictly newer comments, so every
      same-instant group keeps its order. */
  /** Two comments from different instants never share a group, so their
      one-element groups can be written in either order. */
  lemma SwapSingles(x: Comment, y: Comment, k: int)
    requires x.createdAt != y.createdAt
    ensures JsArray.Filter([x], AtTime(k)) + JsArray.Filter([y], AtTime(k))
      == JsArray.Filter([y], AtTime(k)) + JsArray.Filter([x], AtTime(k))
  {
    if x.createdAt == k {
      assert JsArray.Filter([y], AtTime(k)) == [];
    } else {
      assert JsArray.Filter([x], AtTime(k)) == [];
    }
  }

  lemma {:induction false} InsertStable(c: Comment, t: seq<Comment>, k: int)
    ensures JsArray.Filter(Insert(c, t), AtTime(k)) == JsArray.Filter([c] + t, AtTime(k))
  {
    var p := AtTime(k);
    if t != [] && t[0].createdAt > c.createdAt {
      var t1 := t[1..];
      var fc, f0, f1 := JsArray.Filter([c], p), JsArray.Filter([t[0]], p), JsArray.Filter(t1, p);
      calc {
        JsArray.Filter(Insert(c, t), p);
        { JsArray.FilterAppend([t[0]], Insert(c, t1), p); }
        f0 + JsArray.Filter(Insert(c, t1), p);
        { InsertStable(c, t1, k); JsArray.FilterAppend([c], t1, p); }
        f0 + (fc + f1);
        { SwapSingles(t[0], c, k); }
        fc + (f0 + f1);
        { JsArray.FilterAppend([t[0]], t1, p); assert t == [t[0]] + t1; }
        fc + JsArray.Filter(t, p);
        { JsArray.FilterAppend([c], t, p); }
        JsArray.Filter([c] + t, p);
      }
    }
  }

  lemma {:induction false} SortDescStable(s: seq<Comment>, k: int)
    ensures JsArray.Filter(SortDesc(s), AtTime(k)) == JsArray.Filter(s, AtTime(k))
  {
    if s != [] {
      var p := AtTime(k);
      SortDescStable(s[1..], k);
      InsertStable(s[0], SortDesc(s[1..]), k);
      JsArray.FilterAppend([s[0]], SortDesc(s[1..]), p);
      JsArray.FilterAppend([s[0]], s[1..], p);
      assert s == [s[0]] + s[1..];
    }
  }

  /** The sort is stable: same-instant comments keep their server order. */
  lemma SortDescKeepsTies(s: seq<Comment>)
    ensures SameTies(SortDesc(s), s)
  {
    forall k {
      SortDescStable(s, k);
    }
  }

  /** The group of `s` at `k`, as `SameTies` compares it. */
  lemma TiesAt(a: seq<Comment>, b: seq<Comment>, k: int)
    requires SameTies(a, b)
    ensures JsArray.Filter(a, AtTime(k)) == JsArray.Filter(b, AtTime(k))
  {
  }

  /** The group of the first comment starts with it. */
  lemma GroupHead(s: seq<Comment>)
    requires s != []
    ensures var g := JsArray.Filter(s, AtTime(s[0].createdAt)); g != [] && g[0] == s[0]
  {
  }

  /** What a group holds comes from the list and has the group's instant. */
  lemma InGroup(s: seq<Comment>, k: int, x: Comment)
    requires x in JsArray.Filter(s, AtTime(k))
    ensures x in s && x.createdAt == k
  {
    var g := JsArray.Filter(s, AtTime(k));
    var i :| 0 <= i < |g| && g[i] == x;
    assert AtTime(k)(g[i]);
  }

  /** In a newest-first list nothing is newer than the head. */
  lemma HeadIsNewest(s: seq<Comment>, x: Comment)
    requires SortedDesc(s) && x in s
    ensures x.createdAt <= s[0].createdAt
  {
    var i :| 0 <= i < |s| && s[i] == x;
    if i > 0 {
      assert s[0].createdAt >= s[i].createdAt;
    }
  }

  /** Removing a leading comment leaves the other groups alone and drops the
      head of its own group. */
  lemma DropHead(s: seq<Comment>, k: int)
    requires s != []
    ensures s[0].createdAt != k ==> JsArray.Filter(s[1..], AtTime(k)) == JsArray.Filter(s, AtTime(k))
    ensures s[0].createdAt == k ==> JsArray.Filter(s, AtTime(k)) == [s[0]] + JsArray.Filter(s[1..], AtTime(k))
  {
  }

  lemma SortedTail(s: seq<Comment>)
    requires s != [] && SortedDesc(s)
    ensures SortedDesc(s[1..])
  {
    forall i, j | 0 <= i < j < |s[1..]|
      ensures s[1..][i].createdAt >= s[1..][j].createdAt
    {
      assert s[1..][i] == s[i + 1] && s[1..][j] == s[j + 1];
    }
  }

  /** With `a` non-empty, `b` is non-empty too and both start with the same comment. */
  lemma HeadMatches(a: seq<Comment>, b: seq<Comment>)
    requires a != [] && SortedDesc(a) && SortedDesc(b) && SameTies(a, b)
    ensures b != [] && a[0] == b[0]
  {
    var k := a[0].createdAt;
    GroupHead(a);
    TiesAt(a, b, k);
    assert a[0] in JsArray.Filter(b, AtTime(k));
    InGroup(b, k, a[0]);
    HeadIsNewest(b, a[0]);
    var k2 := b[0].createdAt;
    GroupHead(b);
    TiesAt(a, b, k2);
    assert b[0] in JsArray.Filter(a, AtTime(k2));
    InGroup(a, k2, b[0]);
    HeadIsNewest(a, b[0]);
    assert k == k2;
  }

  /** Two newest-first lists with the same same-instant groups are equal: the
      stable newest-first order is unique. */
  lemma {:induction false} SortedUnique(a: seq<Comment>, b: seq<Comment>)
    requires SortedDesc(a) && SortedDesc(b) && SameTies(a, b)
    ensures a == b
    decreases |a| + |b|
  {
    if a != [] {
      HeadMatches(a, b);
      TailTies(a, b);
      SortedTail(a);
      SortedTail(b);
      SortedUnique(a[1..], b[1..]);
      assert a == [a[0]] + a[1..] && b == [b[0]] + b[1..];
    } else if b != [] {
      TiesSymmetric(a, b);
      HeadMatches(b, a);
    }
  }

  lemma TiesSymmetric(a: seq<Comment>, b: seq<Comment>)
    requires SameTies(a, b)
    ensures SameTies(b, a)
  {
    forall k
      ensures JsArray.Filter(b, AtTime(k)) == JsArray.Filter(a, AtTime(k))
    {
      TiesAt(a, b, k);
    }
  }

  /** Lists with the same head and the same groups have tails with the same groups. */
  lemma TailTies(a: seq<Comment>, b: seq<Comment>)
    requires a != [] && b != [] && a[0] == b[0] && SameTies(a, b)
    ensures SameTies(a[1..], b[1..])
  {
    forall k
      ensures JsArray.Filter(a[1..], AtTime(k)) == JsArray.Filter(b[1..], AtTime(k))
    {
      DropHead(a, k);
      DropHead(b, k);
      TiesAt(a, b, k);
      if a[0].createdAt == k {
        var ga, gb := JsArray.Filter(a[1..], AtTime(k)), JsArray.Filter(b[1..], AtTime(k));
        assert ([a[0]] + ga)[1..] == ga && ([b[0]] + gb)[1..] == gb;
      }
    }
  }

  /** Any newest-first arrangement of the comments that keeps same-instant
      comments in server order is exactly what the sort produces. */
  lemma SortDescCharacterised(s: seq<Comment>, r: seq<Comment>)
    requires SortedDesc(r) && SameTies(r, s)
    ensures r == SortDesc(s)
  {
    SortDescSpec(s);
    SortDescKeepsTies(s);
    SortedUnique(r, SortDesc(s));
  }

  /** `sortedComments`: nothing until data arrives, then the page newest first. */
  function SortedComments(data: Option<CommentsResponse>): (r: seq<Comment>)
    ensures data.None? ==> r == []
    ensures data.Some? ==>
      (multiset(r) == multiset(data.value.data) && SortedDesc(r) && SameTies(r, data.value.data))
  {
    if data.None? then []
    else
      SortDescSpec(data.value.data);
      SortDescKeepsTies(data.value.data);
      SortDesc(data.value.data)
  }

  /** `hasMore`: only a response with a pagination block can have more pages. */
  function HasMore(page: int, data: Option<CommentsResponse>): (more: bool)
    ensures more <==>
      (data.Some? && data.value.pagination.Some? && page < data.value.pagination.value.pageCount)
  {
    match data
    case Some(CommentsResponse(_, Some(pagination))) => page < pagination.pageCount
    case _ => false
  }

  /** The query arguments: the user id as text (empty without a user), the page, five per page. */
  function QueryArgs(user: Option<User>, page: int): (args: CommentApi.ListArgs)
    ensures user.None? ==> args.owner == ""
    ensures user.Some? ==> Decimal.IntValue(args.owner) == Some(user.value.id)
    ensures args.page == Some(page) && args.pageSize == Some(PAGE_SIZE)
  {
    match user
    case Some(u) =>
      Decimal.IntValueRoundTrip(u.id);
      CommentApi.ListArgs(Decimal.IntToString(u.id), Some(page), Some(PAGE_SIZE))
    case None => CommentApi.ListArgs("", Some(page), Some(PAGE_SIZE))
  }

  /** The query is skipped when signed out or without a user. */
  predicate Skip(isAuthenticated: bool, user: Option<User>) {
    !isAuthenticated || user.None?
  }

  /** The call the page's query hook makes: none when skipped, otherwise the
      user's comments at the current page, five per page. */
  function Request<B>(isAuthenticated: bool, user: Option<User>, page: int): (call: Option<CommentApi.Call<B>>)
    ensures call.None? <==> Skip(isAuthenticated, user)
    ensures call.Some? ==>
      (call.value.GetUserComments?
       && Decimal.IntValue(call.value.args.owner) == Some(user.value.id)
       && call.value.args.page == Some(page) && call.value.args.pageSize == Some(PAGE_SIZE))
  {
    if Skip(isAuthenticated, user) then None
    else Some(CommentApi.GetUserComments(QueryArgs(user, page)))
  }

  /** The request the page issues once signed in names the user and the page,
      and reads back as the same query. */
  lemma QueryRequest<B>(u: User, page: int)
    ensures Request<B>(true, Some(u), page) == Some(CommentApi.GetUserComments(QueryArgs(Some(u), page)))
    ensures var call := CommentApi.GetUserComments(QueryArgs(Some(u), page));
      CommentApi.Decode<B>(CommentApi.Encode(call)) == Some(call)
  {
    Decimal.IntToStringChars(u.id);
    var args := QueryArgs(Some(u), page);
    assert '&' !in args.owner;
    CommentApi.GetUserCommentsRoundTrip<B>(args);
  }

  /** The scroll observer: one page more when the sentinel is visible, more
      pages exist and nothing is loading. */
  function ObserverNextPage(page: int, isIntersecting: bool, hasMore: bool, isFetching: bool): (next: int)
    ensures next == page || next == page + 1
    ensures next == page + 1 <==> isIntersecting && hasMore && !isFetching
  {
    if isIntersecting && hasMore && !isFetching then page + 1 else page
  }

  /** What the component shows, in the order its early returns test. */
  datatype Screen = LoginPrompt | Spinner | ErrorNotice | NoComments | CommentList(comments: seq<Comment>, endNotice: bool)

  function Render(isAuthenticated: bool, isLoading: bool, isError: bool, page: int,
                  data: Option<CommentsResponse>): (screen: Screen)
    ensures !isAuthenticated <==> screen == LoginPrompt
    ensures screen == Spinner <==> isAuthenticated && isLoading
    ensures screen == ErrorNotice <==> isAuthenticated && !isLoading && isError
    ensures screen.CommentList? <==> isAuthenticated && !isLoading && !isError && SortedComments(data) != []
    ensures screen.CommentList? ==>
      (screen.comments == SortedComments(data) && (screen.endNotice <==> !HasMore(page, data)))
    ensures screen == NoComments <==> isAuthenticated && !isLoading && !isError && SortedComments(data) == []
  {
    var sorted := SortedComments(data);
    if !isAuthenticated then LoginPrompt
    else if isLoading then Spinner
    else if isError then ErrorNotice
    else if |sorted| == 0 then NoComments
    else CommentList(sorted, !HasMore(page, data) && |sorted| > 0)
  }

  /** The component's page counter. */
  class ProfileCommentsView {
    var page: int

    constructor ()
      ensures page == 1
    {
      page := 1;
    }

    /** The observer callback. */
    method OnIntersect(isIntersecting: bool, data: Option<CommentsResponse>, isFetching: bool)
      modifies this
      ensures page == ObserverNextPage(old(page), isIntersecting, HasMore(old(page), data), isFetching)
    {
      if isIntersecting && HasMore(page, data) && !isFetching {
        page := page + 1;
      }
    }
  }
}
