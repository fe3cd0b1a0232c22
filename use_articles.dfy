/** The infinite-scroll accumulator of src/hooks/useArticles.ts: the current
    page and the accumulated article list, reset when the category changes,
    grown by merging each fetched page without repeating ids, and advanced one
    page at a time by `loadMore`. The fetch itself is an input: each handler
    receives the query result (`data`) and the `isFetching` flag. */
module UseArticles {
  import opened Wrappers
  import opened Entities
  import JsArray
  import ArticleApi

  const ARTICLES_PER_PAGE := 3

  /** Some article of `s` carries `id`. */
  predicate HasId(s: seq<Article>, id: int) {
    JsArray.Any(s, (a: Article) => a.id == id)
  }

  /** No two positions of `s` carry the same id. */
  predicate DistinctIds(s: seq<Article>) {
    forall i, j :: 0 <= i < j < |s| ==> s[i].id != s[j].id
  }

  /** The articles of a fetched page that are new to `prev`, in page order. */
  function NewArticles(prev: seq<Article>, fetched: seq<Article>): seq<Article> {
    JsArray.Filter(fetched, (n: Article) => !HasId(prev, n.id))
  }

  /** The merge the data effect applies: `prev` followed by the new articles. */
  function Merge(prev: seq<Article>, fetched: seq<Article>): seq<Article> {
    prev + NewArticles(prev, fetched)
  }

  /** The previous list stays an unchanged prefix, and what follows it is, in
      page order, exactly the fetched articles whose id was not there before. */
  lemma MergeShape(prev: seq<Article>, fetched: seq<Article>)
    ensures |Merge(prev, fetched)| >= |prev|
    ensures Merge(prev, fetched)[..|prev|] == prev
    ensures var added := Merge(prev, fetched)[|prev|..];
      JsArray.IsSubsequence(added, fetched)
      && (forall i :: 0 <= i < |added| ==> added[i] in fetched && !HasId(prev, added[i].id))
      && (forall i :: 0 <= i < |fetched| && !HasId(prev, fetched[i].id) ==> fetched[i] in added)
      && (forall x :: multiset(added)[x] == if HasId(prev, x.id) then 0 else multiset(fetched)[x])
  {
    var m := Merge(prev, fetched);
    assert m[..|prev|] == prev;
    assert m[|prev|..] == NewArticles(prev, fetched);
    JsArray.FilterIsSubsequence(fetched, (n: Article) => !HasId(prev, n.id));
    JsArray.FilterCount(fetched, (n: Article) => !HasId(prev, n.id));
  }

  /** A page whose ids are all known leaves the list as it was. */
  lemma MergeKnown(prev: seq<Article>, fetched: seq<Article>)
    requires forall i :: 0 <= i < |fetched| ==> HasId(prev, fetched[i].id)
    ensures Merge(prev, fetched) == prev
  {
    JsArray.FilterNonePass(fetched, (n: Article) => !HasId(prev, n.id));
  }

  /** After a merge every fetched id is present. */
  lemma MergeCovers(prev: seq<Article>, fetched: seq<Article>)
    ensures forall i :: 0 <= i < |fetched| ==> HasId(Merge(prev, fetched), fetched[i].id)
  {
    var m := Merge(prev, fetched);
    forall i | 0 <= i < |fetched|
      ensures HasId(m, fetched[i].id)
    {
      if HasId(prev, fetched[i].id) {
        var k :| 0 <= k < |prev| && prev[k].id == fetched[i].id;
        assert m[k] == prev[k];
      } else {
        var added := NewArticles(prev, fetched);
        assert fetched[i] in added;
        var k :| 0 <= k < |added| && added[k] == fetched[i];
        assert m[|prev| + k] == added[k];
      }
    }
  }

  /** Merging the same page twice is merging it once. */
  lemma MergeIdempotent(prev: seq<Article>, fetched: seq<Article>)
    ensures Merge(Merge(prev, fetched), fetched) == Merge(prev, fetched)
  {
    MergeCovers(prev, fetched);
    MergeKnown(Merge(prev, fetched), fetched);
  }

  /** A merge of an article list with a page of articles all new to it is their concatenation. */
  lemma MergeFresh(prev: seq<Article>, fetched: seq<Article>)
    requires forall i :: 0 <= i < |fetched| ==> !HasId(prev, fetched[i].id)
    ensures Merge(prev, fetched) == prev + fetched
  {
    JsArray.FilterAllPass(fetched, (n: Article) => !HasId(prev, n.id));
  }

  lemma {:induction false} FilterDistinct(s: seq<Article>, p: Article -> bool)
    requires DistinctIds(s)
    ensures DistinctIds(JsArray.Filter(s, p))
  {
    if s != [] {
      assert DistinctIds(s[1..]) by {
        forall i, j | 0 <= i < j < |s[1..]|
          ensures s[1..][i].id != s[1..][j].id
        {
          assert s[1..][i] == s[i + 1] && s[1..][j] == s[j + 1];
        }
      }
      FilterDistinct(s[1..], p);
      if p(s[0]) {
        var rest := JsArray.Filter(s[1..], p);
        forall i | 0 <= i < |rest|
          ensures rest[i].id != s[0].id
        {
          var k :| 0 <= k < |s[1..]| && s[1..][k] == rest[i];
          assert s[k + 1] == rest[i];
        }
        var r := [s[0]] + rest;
        forall i, j | 0 <= i < j < |r|
          ensures r[i].id != r[j].id
        {
          if i > 0 {
            assert r[i] == rest[i - 1] && r[j] == rest[j - 1];
          } else {
            assert r[j] == rest[j - 1];
          }
        }
      }
    }
  }

  /** Distinct ids before and within the page give distinct ids after. */
  lemma MergeDistinct(prev: seq<Article>, fetched: seq<Article>)
    requires DistinctIds(prev) && DistinctIds(fetched)
    ensures DistinctIds(Merge(prev, fetched))
  {
    var added := NewArticles(prev, fetched);
    FilterDistinct(fetched, (n: Article) => !HasId(prev, n.id));
    var m := Merge(prev, fetched);
    forall i, j | 0 <= i < j < |m|
      ensures m[i].id != m[j].id
    {
      if j < |prev| {
        assert m[i] == prev[i] && m[j] == prev[j];
      } else if i < |prev| {
        assert m[i] == prev[i] && m[j] == added[j - |prev|];
        assert !HasId(prev, added[j - |prev|].id);
      } else {
        assert m[i] == added[i - |prev|] && m[j] == added[j - |prev|];
      }
    }
  }

  /** Only ids already in the list are screened out: a page that repeats an id
      within itself keeps both copies. */
  lemma DuplicateWithinPageKept(a: Article)
    ensures Merge([], [a, a]) == [a, a]
  {
    MergeFresh([], [a, a]);
  }

  /** `loadMore`'s guard: not fetching, and the server's `page` and `pageCount`
      both truthy with `page < pageCount`. */
  predicate CanLoadMore(isFetching: bool, data: Option<ArticlesResponse>) {
    !isFetching && data.Some?
    && data.value.pagination.page != 0 && data.value.pagination.pageCount != 0
    && data.value.pagination.page < data.value.pagination.pageCount
  }

  /** The page after `loadMore`: one more exactly when the guard holds. */
  function NextPage(page: int, isFetching: bool, data: Option<ArticlesResponse>): (next: int)
    ensures next == page || next == page + 1
    ensures next == page + 1 <==> CanLoadMore(isFetching, data)
  {
    if CanLoadMore(isFetching, data) then page + 1 else page
  }

  /** While fetching, or with no data, the page never moves. */
  lemma NoAdvanceWithoutData(page: int, isFetching: bool, data: Option<ArticlesResponse>)
    requires isFetching || data.None?
    ensures NextPage(page, isFetching, data) == page
  {
  }

  /** `hasMore`: false without data, otherwise whether the current page is
      below the server's page count. */
  function HasMore(currentPage: int, data: Option<ArticlesResponse>): (more: bool)
    ensures data.None? ==> !more
    ensures data.Some? ==> (more <==> currentPage < data.value.pagination.pageCount)
  {
    data.Some? && currentPage < data.value.pagination.pageCount
  }

  /** `loadMore` is more cautious than `hasMore` suggests: it also needs the
      server's own page to be truthy and below the page count. With the server
      page equal to the current page (the usual case), the two agree apart from
      the fetching flag. */
  lemma LoadMoreAgreesWithHasMore(currentPage: int, isFetching: bool, data: Option<ArticlesResponse>)
    requires data.Some? && data.value.pagination.page == currentPage && currentPage >= 1
    ensures CanLoadMore(isFetching, data) <==> !isFetching && HasMore(currentPage, data)
  {
  }

  /** The hook's state: the current page, the selected category and the accumulated list. */
  class ArticleFeed {
    var categoryId: Option<int>
    var currentPage: int
    var articles: seq<Article>

    /** Mounting: page 1 and an empty list. */
    constructor (categoryId: Option<int>)
      ensures this.categoryId == categoryId && currentPage == 1 && articles == []
    {
      this.categoryId := categoryId;
      currentPage := 1;
      articles := [];
    }

    /** The arguments of the articles query: current page, three per page, and
        the category (`null` when none); no user filter. */
    function Query(): (args: ArticleApi.ArticlesArgs)
      reads this
      ensures args.page == Some(currentPage) && args.pageSize == Some(ARTICLES_PER_PAGE)
      ensures !ArticleApi.HasUserFilter(args)
      ensures args.categoryId.Defined? <==> categoryId.Some?
      ensures categoryId.Some? ==> args.categoryId.value == categoryId.value
    {
      ArticleApi.ArticlesArgs(Some(currentPage), Some(ARTICLES_PER_PAGE), None,
        match categoryId
        case Some(c) => Defined(c)
        case None => Null)
    }

    /** A new category prop; the reset effect runs only when it differs. */
    method SetCategory(c: Option<int>)
      modifies this
      ensures categoryId == c
      ensures c != old(categoryId) ==> currentPage == 1 && articles == []
      ensures c == old(categoryId) ==> currentPage == old(currentPage) && articles == old(articles)
    {
      if c != categoryId {
        categoryId := c;
        articles := [];
        currentPage := 1;
      }
    }

    /** The data effect: a present result is merged into the list. */
    method OnData(data: Option<ArticlesResponse>)
      modifies this
      ensures data.Some? ==> articles == Merge(old(articles), data.value.data)
      ensures data.None? ==> articles == old(articles)
      ensures currentPage == old(currentPage) && categoryId == old(categoryId)
    {
      if data.Some? {
        articles := Merge(articles, data.value.data);
      }
    }

    /** `loadMore`. */
    method LoadMore(isFetching: bool, data: Option<ArticlesResponse>)
      modifies this
      ensures currentPage == NextPage(old(currentPage), isFetching, data)
      ensures articles == old(articles) && categoryId == old(categoryId)
    {
      if CanLoadMore(isFetching, data) {
        currentPage := currentPage + 1;
      }
    }
  }
}
