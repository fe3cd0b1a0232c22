/** The rules of the articles listing page (src/pages/Articles/Articles.tsx):
    the title search, the infinite-scroll trigger, the category select and the
    end-of-list notice. */
module ArticlesPage {
  import opened Wrappers
  import opened Entities
  import JsArray
  import Text
  import Decimal
  import UseArticles

  /** An article is shown when its lower-cased title contains the lower-cased query. */
  predicate Matches(query: string, a: Article) {
    Text.Includes(Text.ToLowerCase(a.title), Text.ToLowerCase(query))
  }

  /** `filteredArticles`. */
  function FilteredArticles(articles: seq<Article>, query: string): seq<Article> {
    JsArray.Filter(articles, (a: Article) => Matches(query, a))
  }

  /** The filtered list keeps the page order, and an article is in it exactly
      when it is in the list and its title matches the query. */
  lemma FilteredSpec(articles: seq<Article>, query: string, a: Article)
    ensures JsArray.IsSubsequence(FilteredArticles(articles, query), articles)
    ensures a in FilteredArticles(articles, query) <==> a in articles && Matches(query, a)
    ensures multiset(FilteredArticles(articles, query))[a] == if Matches(query, a) then multiset(articles)[a] else 0
  {
    var r := FilteredArticles(articles, query);
    JsArray.FilterIsSubsequence(articles, (x: Article) => Matches(query, x));
    JsArray.FilterCount(articles, (x: Article) => Matches(query, x));
    if a in r {
      var i :| 0 <= i < |r| && r[i] == a;
    }
    if a in articles && Matches(query, a) {
      var i :| 0 <= i < |articles| && articles[i] == a;
    }
  }

  /** An empty query shows every article. */
  lemma EmptyQueryKeepsAll(articles: seq<Article>)
    ensures FilteredArticles(articles, "") == articles
  {
    forall i | 0 <= i < |articles|
      ensures Matches("", articles[i])
    {
      Text.IncludesEmpty(Text.ToLowerCase(articles[i].title));
    }
    JsArray.FilterAllPass(articles, (a: Article) => Matches("", a));
  }

  /** Letter case does not matter: an upper-case query finds a lower-case title. */
  lemma CaseInsensitiveExample(a: Article)
    requires a.title == "paris"
    ensures Matches("PARIS", a)
  {
    assert Text.ToLowerCase("PARIS") == "paris";
    Text.IncludesIffOccurs("paris", "paris");
    assert Text.OccursAt("paris", "paris", 0);
  }

  /** The observer callback calls `loadMore` when the sentinel is in view,
      nothing is fetching and there is more to load. */
  predicate ObserverLoads(isIntersecting: bool, isFetching: bool, hasMore: bool) {
    isIntersecting && !isFetching && hasMore
  }

  /** The notice "You've reached the end". */
  predicate ShowEndOfList(isFetching: bool, hasMore: bool, articleCount: int) {
    !isFetching && !hasMore && articleCount > 0
  }

  /** The page the feed is on after the sentinel reports: the observer's guard,
      then `loadMore`'s own guard. */
  function PageAfterObserver(currentPage: int, isIntersecting: bool, isFetching: bool,
                             data: Option<ArticlesResponse>): (page: int)
    ensures page == currentPage || page == currentPage + 1
    ensures page == currentPage + 1 <==>
      ObserverLoads(isIntersecting, isFetching, UseArticles.HasMore(currentPage, data))
      && UseArticles.CanLoadMore(isFetching, data)
  {
    if ObserverLoads(isIntersecting, isFetching, UseArticles.HasMore(currentPage, data)) then
      UseArticles.NextPage(currentPage, isFetching, data)
    else currentPage
  }

  /** While the end-of-list notice shows, the observer never advances the page. */
  lemma EndOfListStopsLoading(currentPage: int, isIntersecting: bool, isFetching: bool,
                              data: Option<ArticlesResponse>, articleCount: int)
    requires ShowEndOfList(isFetching, UseArticles.HasMore(currentPage, data), articleCount)
    ensures PageAfterObserver(currentPage, isIntersecting, isFetching, data) == currentPage
  {
  }

  /** The select's value: `selectedCategory || ""`, so no category and category 0
      both show the empty option. */
  function SelectValue(selected: Option<int>): (v: string)
    ensures v == "" <==> selected.None? || selected.value == 0
  {
    if selected.Some? && selected.value != 0 then Decimal.IntToString(selected.value) else ""
  }

  /** The select's `onChange`: the empty option gives `null`, any other option its
      number. Option values are "" or the text of a category id. */
  function CategoryFromSelect(value: string): (c: Option<int>)
    requires value == "" || Decimal.IntValue(value).Some?
    ensures value == "" ==> c.None?
    ensures value != "" ==> c == Decimal.IntValue(value)
  {
    if value == "" then None else Decimal.IntValue(value)
  }

  /** Choosing a non-zero category and reading the select back gives that category. */
  lemma SelectRoundTrip(selected: Option<int>)
    requires selected.None? || selected.value != 0
    ensures CategoryFromSelect(SelectValue(selected)) == selected
  {
    if selected.Some? {
      Decimal.IntValueRoundTrip(selected.value);
    }
  }

  /** The hint under "No articles found": one for a search that matched
      nothing, another for an empty category. */
  datatype EmptyHint = NoHint | AdjustSearch | NothingInCategory

  /** What the page shows, in the order its early returns test: the spinner
      only while the first page loads, then the error notice, then the grid of
      matching articles with its empty-state hint and end-of-list notice. */
  datatype Screen = Spinner | ErrorNotice | Listing(shown: seq<Article>, hint: EmptyHint, endNotice: bool)

  function Render(isLoading: bool, isError: bool, isFetching: bool, hasMore: bool,
                  articles: seq<Article>, query: string): (screen: Screen)
    ensures screen == Spinner <==> isLoading && articles == []
    ensures screen == ErrorNotice <==> !(isLoading && articles == []) && isError
    ensures screen.Listing? ==> screen.shown == FilteredArticles(articles, query)
    ensures screen.Listing? ==> (screen.hint == NoHint <==> screen.shown != [])
    ensures screen.Listing? ==> (screen.hint == AdjustSearch <==> screen.shown == [] && query != "")
    ensures screen.Listing? ==> (screen.endNotice <==> ShowEndOfList(isFetching, hasMore, |articles|))
  {
    if isLoading && |articles| == 0 then Spinner
    else if isError then ErrorNotice
    else
      var shown := FilteredArticles(articles, query);
      var hint := if |shown| > 0 then NoHint else if query != "" then AdjustSearch else NothingInCategory;
      Listing(shown, hint, ShowEndOfList(isFetching, hasMore, |articles|))
  }

  /** Once some articles have arrived, a later fetch never blanks the page: with
      no error and an empty search box every accumulated article is on screen. */
  lemma LoadedFeedStaysVisible(isLoading: bool, isFetching: bool, hasMore: bool, articles: seq<Article>)
    requires articles != []
    ensures Render(isLoading, false, isFetching, hasMore, articles, "")
      == Listing(articles, NoHint, !isFetching && !hasMore)
  {
    EmptyQueryKeepsAll(articles);
  }

  /** The page's state: the selected category and the search text, with the
      feed of `useArticles` driven by the selected category. */
  class ArticlesView {
    var selectedCategory: Option<int>
    var searchQuery: string
    const feed: UseArticles.ArticleFeed

    constructor ()
      ensures selectedCategory.None? && searchQuery == ""
      ensures fresh(feed) && feed.categoryId.None? && feed.currentPage == 1 && feed.articles == []
    {
      selectedCategory := None;
      searchQuery := "";
      feed := new UseArticles.ArticleFeed(None);
    }

    /** The search box's `onChange`. */
    method OnSearchChange(value: string)
      modifies this
      ensures searchQuery == value && selectedCategory == old(selectedCategory)
    {
      searchQuery := value;
    }

    /** The select's `onChange`, followed by the hook seeing the new category. */
    method OnCategoryChange(value: string)
      requires value == "" || Decimal.IntValue(value).Some?
      modifies this, feed
      ensures selectedCategory == CategoryFromSelect(value) && searchQuery == old(searchQuery)
      ensures feed.categoryId == selectedCategory
      ensures selectedCategory != old(feed.categoryId) ==> feed.currentPage == 1 && feed.articles == []
      ensures selectedCategory == old(feed.categoryId) ==>
        feed.currentPage == old(feed.currentPage) && feed.articles == old(feed.articles)
    {
      selectedCategory := CategoryFromSelect(value);
      feed.SetCategory(selectedCategory);
    }
  }
}
