/** The article endpoints (src/services/articleApi.ts): each call becomes a
    method, a URL and a body. `Decode` reads a request back into the call that
    produced it; `RoundTrip` shows that nothing but the defaults is lost. */
module ArticleApi {
  import opened Wrappers
  import opened Http
  import Url
  import Decimal

  const DEFAULT_PAGE := 1
  const DEFAULT_PAGE_SIZE := 10
  const USER_FILTER := "filters[user][id][$eq]"
  const CATEGORY_FILTER := "filters[category][id][$eq]"

  /** The argument object of `getArticles`; every field may be omitted, and
      `categoryId` may also be `null`. */
  datatype ArticlesArgs = ArticlesArgs(
    page: Option<int>, pageSize: Option<int>, userId: Option<int>, categoryId: Nullable<int>)

  /** `userId` is used only when it is truthy: present and not 0. */
  predicate HasUserFilter(args: ArticlesArgs) {
    args.userId.Some? && args.userId.value != 0
  }

  /** The query parameters `getArticles` writes, in order: the base three, the
      owner filter when `userId` is truthy, the category filter when `categoryId`
      is neither `null` nor omitted. */
  function ArticlesParams(args: ArticlesArgs): seq<Url.Param> {
    BaseParams(args.page.GetOr(DEFAULT_PAGE), args.pageSize.GetOr(DEFAULT_PAGE_SIZE))
    + UserParams(args) + CategoryParams(args)
  }

  function BaseParams(page: int, pageSize: int): seq<Url.Param> {
    [("populate", "*"),
     ("pagination[page]", Decimal.IntToString(page)),
     ("pagination[pageSize]", Decimal.IntToString(pageSize))]
  }

  function UserParams(args: ArticlesArgs): seq<Url.Param> {
    if HasUserFilter(args) then [(USER_FILTER, Decimal.IntToString(args.userId.value))] else []
  }

  function CategoryParams(args: ArticlesArgs): seq<Url.Param> {
    if args.categoryId.Defined? then [(CATEGORY_FILTER, Decimal.IntToString(args.categoryId.value))] else []
  }

  /** The fixed part of the `getArticles` template, written as the
      concatenation of its literal parts and interpolations. */
  function BaseQuery(page: int, pageSize: int): string {
    PATH + "?" + "populate" + "=" + "*"
      + "&" + "pagination[page]" + "=" + Decimal.IntToString(page)
      + "&" + "pagination[pageSize]" + "=" + Decimal.IntToString(pageSize)
  }

  lemma BaseQueryIsBuild(page: int, pageSize: int)
    ensures BaseQuery(page, pageSize) == Url.Build(PATH, BaseParams(page, pageSize))
  {
    var p1, p2 := Decimal.IntToString(page), Decimal.IntToString(pageSize);
    Url.BuildOne(PATH, "populate", "*");
    Url.BuildAppend(PATH, [("populate", "*")], "pagination[page]", p1);
    assert [("populate", "*")] + [("pagination[page]", p1)] == [("populate", "*"), ("pagination[page]", p1)];
    Url.BuildAppend(PATH, [("populate", "*"), ("pagination[page]", p1)], "pagination[pageSize]", p2);
    assert [("populate", "*"), ("pagination[page]", p1)] + [("pagination[pageSize]", p2)] == BaseParams(page, pageSize);
  }

  /** The `getArticles` query: the template URL with page and page size, then
      each filter segment that applies. */
  method GetArticlesQuery(args: ArticlesArgs) returns (url: string)
    ensures url == Url.Build(PATH, ArticlesParams(args))
  {
    var page := args.page.GetOr(DEFAULT_PAGE);
    var pageSize := args.pageSize.GetOr(DEFAULT_PAGE_SIZE);
    url := BaseQuery(page, pageSize);
    BaseQueryIsBuild(page, pageSize);
    ghost var ps := BaseParams(page, pageSize);
    if args.userId.Some? && args.userId.value != 0 {
      Url.BuildAppend(PATH, ps, USER_FILTER, Decimal.IntToString(args.userId.value));
      url := url + "&" + USER_FILTER + "=" + Decimal.IntToString(args.userId.value);
      ps := ps + [(USER_FILTER, Decimal.IntToString(args.userId.value))];
    }
    if args.categoryId != Null && args.categoryId != Undefined {
      Url.BuildAppend(PATH, ps, CATEGORY_FILTER, Decimal.IntToString(args.categoryId.value));
      url := url + "&" + CATEGORY_FILTER + "=" + Decimal.IntToString(args.categoryId.value);
      ps := ps + [(CATEGORY_FILTER, Decimal.IntToString(args.categoryId.value))];
    }
    assert ps == ArticlesParams(args);
  }

  /** The endpoints of the article service, with their arguments. */
  datatype Call<B> =
    | GetArticles(args: ArticlesArgs)
    | GetArticle(documentId: string)
    | CreateArticle(article: B)
    | UpdateArticle(id: string, data: B)
    | DeleteArticle(id: string)

  const COLLECTION := "articles"
  const PATH := "/" + COLLECTION

  /** `/articles/<documentId>`. */
  function ArticlePath(documentId: string): string {
    PATH + "/" + documentId
  }

  /** The request each endpoint declaration builds. */
  function Encode<B>(c: Call<B>): Request<B> {
    match c
    case GetArticles(args) => Get(Url.Build(PATH, ArticlesParams(args)))
    case GetArticle(documentId) => Get(ArticlePath(documentId))
    case CreateArticle(article) => Request(POST, PATH, Payload(article))
    case UpdateArticle(id, data) => Request(PUT, ArticlePath(id), DataEnvelope(data))
    case DeleteArticle(id) => Request(DELETE, ArticlePath(id), NoBody)
  }

  /** Takes a leading `key=<integer>` pair, if there is one. */
  function TakeIntParam(ps: seq<Url.Param>, key: string): (Option<int>, seq<Url.Param>) {
    if ps != [] && ps[0].0 == key && Decimal.IntValue(ps[0].1).Some? then
      (Decimal.IntValue(ps[0].1), ps[1..])
    else (None, ps)
  }

  function DecodeArticlesParams(ps: seq<Url.Param>): Option<ArticlesArgs> {
    if |ps| < 3 || ps[0] != ("populate", "*") || ps[1].0 != "pagination[page]"
      || ps[2].0 != "pagination[pageSize]" then None
    else
      var page :- Decimal.IntValue(ps[1].1);
      var pageSize :- Decimal.IntValue(ps[2].1);
      var filters :- DecodeFilters(ps[3..]);
      Some(ArticlesArgs(Some(page), Some(pageSize), filters.0, filters.1))
  }

  /** The optional owner filter, then the optional category filter, and nothing else. */
  function DecodeFilters(ps: seq<Url.Param>): Option<(Option<int>, Nullable<int>)> {
    var (user, rest) := TakeIntParam(ps, USER_FILTER);
    var (category, rest') := TakeIntParam(rest, CATEGORY_FILTER);
    if rest' != [] then None
    else Some((user, if category.Some? then Defined(category.value) else Undefined))
  }

  /** The call a request stands for, read from its method, URL and body. */
  function Decode<B>(r: Request<B>): Option<Call<B>> {
    match r.body
    case NoBody => DecodeBodiless(r.verb, r.url)
    case Payload(article) =>
      if r.verb == POST && r.url == PATH then Some(CreateArticle(article)) else None
    case DataEnvelope(data) =>
      match Url.ResourceId(r.url, COLLECTION)
      case Some(id) => if r.verb == PUT then Some(UpdateArticle(id, data)) else None
      case None => None
  }

  function DecodeBodiless<B>(verb: Method, url: string): Option<Call<B>> {
    var (path, params) := Url.Parse(url);
    if verb == GET && path == PATH then
      match DecodeArticlesParams(params)
      case Some(args) => Some(GetArticles(args))
      case None => None
    else
      match Url.ResourceId(url, COLLECTION)
      case Some(id) =>
        if verb == GET then Some(GetArticle(id))
        else if verb == DELETE then Some(DeleteArticle(id))
        else None
      case None => None
  }

  /** What the request keeps of a call: defaults filled in, a falsy `userId`
      dropped, and `null` and omitted `categoryId` made the same. */
  function Canonical<B>(c: Call<B>): Call<B> {
    match c
    case GetArticles(args) => GetArticles(CanonicalArgs(args))
    case _ => c
  }

  function CanonicalArgs(args: ArticlesArgs): ArticlesArgs {
    ArticlesArgs(
      Some(args.page.GetOr(DEFAULT_PAGE)),
      Some(args.pageSize.GetOr(DEFAULT_PAGE_SIZE)),
      if HasUserFilter(args) then args.userId else None,
      if args.categoryId.Defined? then args.categoryId else Undefined)
  }

  predicate SafeIds<B>(c: Call<B>) {
    match c
    case GetArticle(documentId) => Url.SafeSegment(documentId)
    case UpdateArticle(id, _) => Url.SafeSegment(id)
    case DeleteArticle(id) => Url.SafeSegment(id)
    case _ => true
  }

  /** The URL of one article is that article's id under the collection. */
  lemma ResourceUrl(id: string)
    requires Url.SafeSegment(id)
    ensures Url.Parse(ArticlePath(id)).0 != PATH
    ensures Url.ResourceId(ArticlePath(id), COLLECTION) == Some(id)
  {
    Url.ResourceIdOf(COLLECTION, id);
  }

  /** A `key=<integer>` pair with a safe key is safe. */
  lemma IntParamSafe(key: string, n: int)
    requires '&' !in key && '=' !in key
    ensures Url.SafeParams([(key, Decimal.IntToString(n))])
  {
    Decimal.IntToStringChars(n);
  }

  /** None of the keys `getArticles` writes contains `&` or `=`. */
  lemma KeysSafe()
    ensures Url.SafeParams([("populate", "*")])
    ensures '&' !in "pagination[page]" && '=' !in "pagination[page]"
    ensures '&' !in "pagination[pageSize]" && '=' !in "pagination[pageSize]"
    ensures '&' !in USER_FILTER && '=' !in USER_FILTER
    ensures '&' !in CATEGORY_FILTER && '=' !in CATEGORY_FILTER
  {
    PageKeysSafe();
    FilterKeysSafe();
  }

  lemma PageKeysSafe()
    ensures '&' !in "pagination[page]" && '=' !in "pagination[page]"
    ensures '&' !in "pagination[pageSize]" && '=' !in "pagination[pageSize]"
  {
  }

  lemma FilterKeysSafe()
    ensures '&' !in USER_FILTER && '=' !in USER_FILTER
    ensures '&' !in CATEGORY_FILTER && '=' !in CATEGORY_FILTER
  {
    UserFilterSafe();
    CategoryFilterSafe();
  }

  lemma UserFilterSafe()
    ensures '&' !in USER_FILTER && '=' !in USER_FILTER
  {
  }

  lemma CategoryFilterSafe()
    ensures '&' !in CATEGORY_FILTER && '=' !in CATEGORY_FILTER
  {
  }

  lemma BaseParamsSafe(page: int, pageSize: int)
    ensures Url.SafeParams(BaseParams(page, pageSize))
  {
    KeysSafe();
    var p1, p2 := Decimal.IntToString(page), Decimal.IntToString(pageSize);
    IntParamSafe("pagination[page]", page);
    IntParamSafe("pagination[pageSize]", pageSize);
    Url.SafeParamsAppend([("populate", "*")], [("pagination[page]", p1)]);
    assert [("populate", "*")] + [("pagination[page]", p1)] == [("populate", "*"), ("pagination[page]", p1)];
    Url.SafeParamsAppend([("populate", "*"), ("pagination[page]", p1)], [("pagination[pageSize]", p2)]);
    assert [("populate", "*"), ("pagination[page]", p1)] + [("pagination[pageSize]", p2)] == BaseParams(page, pageSize);
  }

  lemma ArticlesParamsSafe(args: ArticlesArgs)
    ensures Url.SafeParams(ArticlesParams(args))
  {
    var base := BaseParams(args.page.GetOr(DEFAULT_PAGE), args.pageSize.GetOr(DEFAULT_PAGE_SIZE));
    BaseParamsSafe(args.page.GetOr(DEFAULT_PAGE), args.pageSize.GetOr(DEFAULT_PAGE_SIZE));
    FilterKeysSafe();
    if HasUserFilter(args) {
      IntParamSafe(USER_FILTER, args.userId.value);
    }
    if args.categoryId.Defined? {
      IntParamSafe(CATEGORY_FILTER, args.categoryId.value);
    }
    Url.SafeParamsAppend(base, UserParams(args));
    Url.SafeParamsAppend(base + UserParams(args), CategoryParams(args));
  }

  lemma TakeFilters(args: ArticlesArgs)
    ensures TakeIntParam(UserParams(args) + CategoryParams(args), USER_FILTER)
      == (CanonicalArgs(args).userId, CategoryParams(args))
    ensures TakeIntParam(CategoryParams(args), CATEGORY_FILTER)
      == (if args.categoryId.Defined? then Some(args.categoryId.value) else None, [])
  {
    if HasUserFilter(args) {
      Decimal.IntValueRoundTrip(args.userId.value);
      assert (UserParams(args) + CategoryParams(args))[1..] == CategoryParams(args);
    } else {
      assert UserParams(args) + CategoryParams(args) == CategoryParams(args);
    }
    if args.categoryId.Defined? {
      Decimal.IntValueRoundTrip(args.categoryId.value);
      assert CategoryParams(args)[1..] == [];
    }
  }

  lemma DecodeArticlesParamsOf(args: ArticlesArgs)
    ensures DecodeArticlesParams(ArticlesParams(args)) == Some(CanonicalArgs(args))
  {
    var page := args.page.GetOr(DEFAULT_PAGE);
    var pageSize := args.pageSize.GetOr(DEFAULT_PAGE_SIZE);
    Decimal.IntValueRoundTrip(page);
    Decimal.IntValueRoundTrip(pageSize);
    var ps := ArticlesParams(args);
    assert ps[3..] == UserParams(args) + CategoryParams(args);
    DecodeFiltersOf(args);
  }

  lemma DecodeFiltersOf(args: ArticlesArgs)
    ensures DecodeFilters(UserParams(args) + CategoryParams(args))
      == Some((CanonicalArgs(args).userId, CanonicalArgs(args).categoryId))
  {
    TakeFilters(args);
  }

  /** A `GET` of the collection path is decoded from its parameters alone. */
  lemma DecodeListRequest<B>(url: string)
    requires Url.Parse(url).0 == PATH
    ensures Decode<B>(Get(url)) ==
      match DecodeArticlesParams(Url.Parse(url).1)
      case Some(args) => Some(GetArticles(args))
      case None => None
  {
  }

  lemma GetArticlesRoundTrip<B>(args: ArticlesArgs)
    ensures Decode<B>(Encode(GetArticles(args))) == Some(GetArticles(CanonicalArgs(args)))
  {
    var url := Url.Build(PATH, ArticlesParams(args));
    ArticlesParamsSafe(args);
    Url.ParseBuild(PATH, ArticlesParams(args));
    assert Encode<B>(GetArticles(args)) == Get(url);
    DecodeListRequest<B>(url);
    DecodeArticlesParamsOf(args);
  }

  lemma ResourceRoundTrip<B>(c: Call<B>)
    requires c.GetArticle? || c.UpdateArticle? || c.DeleteArticle?
    requires SafeIds(c)
    ensures Decode(Encode(c)) == Some(c)
  {
    match c
    case GetArticle(id) => ResourceUrl(id);
    case UpdateArticle(id, _) => ResourceUrl(id);
    case DeleteArticle(id) => ResourceUrl(id);
  }

  /** Decoding an encoded call gives the call back, up to the defaults and
      falsy filters the builder drops; re-encoding that canonical call yields
      the very same request. */
  lemma RoundTrip<B>(c: Call<B>)
    requires SafeIds(c)
    ensures Decode(Encode(c)) == Some(Canonical(c))
    ensures Encode(Canonical(c)) == Encode(c)
  {
    match c
    case GetArticles(args) =>
      GetArticlesRoundTrip<B>(args);
      CanonicalSameUrl<B>(args);
    case CreateArticle(_) =>
    case _ => ResourceRoundTrip(c);
  }

  lemma CanonicalSameUrl<B>(args: ArticlesArgs)
    ensures Encode<B>(GetArticles(CanonicalArgs(args))) == Encode<B>(GetArticles(args))
  {
    assert ArticlesParams(CanonicalArgs(args)) == ArticlesParams(args);
  }

  /** Reading, updating and deleting one article address the same URL. */
  lemma SameResourceUrl<B>(id: string, data: B)
    ensures Encode<B>(GetArticle(id)).url == Encode(UpdateArticle(id, data)).url == Encode<B>(DeleteArticle(id)).url == ArticlePath(id)
  {
  }
}
