/** The comment endpoints (src/services/commentApi.ts). Both list queries are
    one template URL: an owner filter, a populate directive and the page. */
module CommentApi {
  import opened Wrappers
  import opened Http
  import Url
  import Decimal

  const DEFAULT_PAGE := 1
  const DEFAULT_PAGE_SIZE := 10
  const COLLECTION := "comments"
  const PATH := "/" + COLLECTION
  const ARTICLE_FILTER := "filters[article][documentId][$eq]"
  const USER_FILTER := "filters[user][id][$eq]"

  /** `{articleId, page?, pageSize?}` or `{userId, page?, pageSize?}`: the owner
      is the article's document id or the user id, as a string. */
  datatype ListArgs = ListArgs(owner: string, page: Option<int>, pageSize: Option<int>)

  datatype Call<B> =
    | GetComments(args: ListArgs)
    | CreateComment(comment: B)
    | UpdateComment(id: string, data: B)
    | DeleteComment(id: string)
    | GetUserComments(args: ListArgs)

  /** The template `/comments?<filter>=<owner>&<populate>=*&pagination[page]=<page>&pagination[pageSize]=<pageSize>`,
      written as the concatenation of its parts. */
  function ListUrl(filter: string, populate: string, args: ListArgs): string {
    PATH + "?" + filter + "=" + args.owner
      + "&" + populate + "=" + "*"
      + "&" + "pagination[page]" + "=" + Decimal.IntToString(args.page.GetOr(DEFAULT_PAGE))
      + "&" + "pagination[pageSize]" + "=" + Decimal.IntToString(args.pageSize.GetOr(DEFAULT_PAGE_SIZE))
  }

  /** The pairs of a list query, in the order the template writes them. */
  function ListParams(filter: string, populate: string, args: ListArgs): seq<Url.Param> {
    [(filter, args.owner), (populate, "*"),
     ("pagination[page]", Decimal.IntToString(args.page.GetOr(DEFAULT_PAGE))),
     ("pagination[pageSize]", Decimal.IntToString(args.pageSize.GetOr(DEFAULT_PAGE_SIZE)))]
  }

  /** `/comments/<id>`. */
  function CommentPath(id: string): string {
    PATH + "/" + id
  }

  function Encode<B>(c: Call<B>): Request<B> {
    match c
    case GetComments(args) => Get(ListUrl(ARTICLE_FILTER, "populate", args))
    case CreateComment(comment) => Request(POST, PATH, Payload(comment))
    case UpdateComment(id, data) => Request(PUT, CommentPath(id), DataEnvelope(data))
    case DeleteComment(id) => Request(DELETE, CommentPath(id), NoBody)
    case GetUserComments(args) => Get(ListUrl(USER_FILTER, "populate[article]", args))
  }

  /** Reads the four pairs of a list query back: the owner, then the page and size. */
  function DecodeList(ps: seq<Url.Param>, filter: string, populate: string): Option<ListArgs> {
    if |ps| != 4 || ps[0].0 != filter || ps[1] != (populate, "*")
      || ps[2].0 != "pagination[page]" || ps[3].0 != "pagination[pageSize]" then None
    else
      var page :- Decimal.IntValue(ps[2].1);
      var pageSize :- Decimal.IntValue(ps[3].1);
      Some(ListArgs(ps[0].1, Some(page), Some(pageSize)))
  }

  /** The call a request stands for, read from its method, URL and body. */
  function Decode<B>(r: Request<B>): Option<Call<B>> {
    match r.body
    case NoBody => DecodeBodiless(r.verb, r.url)
    case Payload(comment) =>
      if r.verb == POST && r.url == PATH then Some(CreateComment(comment)) else None
    case DataEnvelope(data) =>
      match Url.ResourceId(r.url, COLLECTION)
      case Some(id) => if r.verb == PUT then Some(UpdateComment(id, data)) else None
      case None => None
  }

  function DecodeBodiless<B>(verb: Method, url: string): Option<Call<B>> {
    var (path, params) := Url.Parse(url);
    if verb == GET && path == PATH then DecodeQuery(params)
    else
      match Url.ResourceId(url, COLLECTION)
      case Some(id) => if verb == DELETE then Some(DeleteComment(id)) else None
      case None => None
  }

  /** A list query is a thread query when its owner key is the article filter,
      and a user query when it is the user filter. */
  function DecodeQuery<B>(params: seq<Url.Param>): Option<Call<B>> {
    match DecodeList(params, ARTICLE_FILTER, "populate")
    case Some(args) => Some(GetComments(args))
    case None =>
      match DecodeList(params, USER_FILTER, "populate[article]")
      case Some(args) => Some(GetUserComments(args))
      case None => None
  }

  /** The defaults filled in. */
  function CanonicalArgs(args: ListArgs): ListArgs {
    ListArgs(args.owner, Some(args.page.GetOr(DEFAULT_PAGE)), Some(args.pageSize.GetOr(DEFAULT_PAGE_SIZE)))
  }

  function Canonical<B>(c: Call<B>): Call<B> {
    match c
    case GetComments(args) => GetComments(CanonicalArgs(args))
    case GetUserComments(args) => GetUserComments(CanonicalArgs(args))
    case _ => c
  }

  /** Owners must not contain `&` (nothing is percent-encoded), ids must be one path segment. */
  predicate SafeIds<B>(c: Call<B>) {
    match c
    case GetComments(args) => '&' !in args.owner
    case GetUserComments(args) => '&' !in args.owner
    case UpdateComment(id, _) => Url.SafeSegment(id)
    case DeleteComment(id) => Url.SafeSegment(id)
    case _ => true
  }

  /** The template is the URL that `Url.Build` writes for the list pairs. */
  lemma ListUrlIsBuild(filter: string, populate: string, args: ListArgs)
    ensures ListUrl(filter, populate, args) == Url.Build(PATH, ListParams(filter, populate, args))
  {
    var page := Decimal.IntToString(args.page.GetOr(DEFAULT_PAGE));
    var pageSize := Decimal.IntToString(args.pageSize.GetOr(DEFAULT_PAGE_SIZE));
    var p0, p1, p2 := (filter, args.owner), (populate, "*"), ("pagination[page]", page);
    Url.BuildOne(PATH, filter, args.owner);
    Url.BuildAppend(PATH, [p0], populate, "*");
    assert [p0] + [p1] == [p0, p1];
    Url.BuildAppend(PATH, [p0, p1], "pagination[page]", page);
    assert [p0, p1] + [p2] == [p0, p1, p2];
    Url.BuildAppend(PATH, [p0, p1, p2], "pagination[pageSize]", pageSize);
    assert [p0, p1, p2] + [("pagination[pageSize]", pageSize)] == ListParams(filter, populate, args);
  }

  lemma ListParamsSafe(filter: string, populate: string, args: ListArgs)
    requires '&' !in filter && '=' !in filter && '&' !in populate && '=' !in populate
    requires '&' !in args.owner
    ensures Url.SafeParams(ListParams(filter, populate, args))
  {
    Decimal.IntToStringChars(args.page.GetOr(DEFAULT_PAGE));
    Decimal.IntToStringChars(args.pageSize.GetOr(DEFAULT_PAGE_SIZE));
  }

  /** A list URL parses back into `/comments` and its four pairs. */
  lemma ParseListUrl(filter: string, populate: string, args: ListArgs)
    requires '&' !in filter && '=' !in filter && '&' !in populate && '=' !in populate
    requires '&' !in args.owner
    ensures Url.Parse(ListUrl(filter, populate, args)) == (PATH, ListParams(filter, populate, args))
  {
    ListUrlIsBuild(filter, populate, args);
    ListParamsSafe(filter, populate, args);
    Url.ParseBuild(PATH, ListParams(filter, populate, args));
  }

  lemma DecodeListOf(filter: string, populate: string, args: ListArgs)
    ensures DecodeList(ListParams(filter, populate, args), filter, populate) == Some(CanonicalArgs(args))
  {
    Decimal.IntValueRoundTrip(args.page.GetOr(DEFAULT_PAGE));
    Decimal.IntValueRoundTrip(args.pageSize.GetOr(DEFAULT_PAGE_SIZE));
  }

  lemma ArticleFilterSafe()
    ensures '&' !in ARTICLE_FILTER && '=' !in ARTICLE_FILTER
  {
  }

  lemma UserFilterSafe()
    ensures '&' !in USER_FILTER && '=' !in USER_FILTER
  {
  }

  lemma PopulateKeysSafe()
    ensures '&' !in "populate" && '=' !in "populate"
    ensures '&' !in "populate[article]" && '=' !in "populate[article]"
  {
  }

  /** A thread query never reads as a user query and the other way round. */
  lemma OwnerKeysDiffer(ps: seq<Url.Param>)
    requires |ps| == 4
    ensures ps[0].0 == USER_FILTER ==> DecodeList(ps, ARTICLE_FILTER, "populate") == None
    ensures ARTICLE_FILTER != USER_FILTER
  {
    assert |ARTICLE_FILTER| != |USER_FILTER|;
  }

  /** A `GET` of the collection path is decoded from its parameters alone. */
  lemma DecodeListRequest<B>(url: string)
    requires Url.Parse(url).0 == PATH
    ensures Decode<B>(Get(url)) == DecodeQuery(Url.Parse(url).1)
  {
  }

  lemma DecodeThreadQuery<B>(args: ListArgs)
    ensures DecodeQuery<B>(ListParams(ARTICLE_FILTER, "populate", args)) == Some(GetComments(CanonicalArgs(args)))
  {
    DecodeListOf(ARTICLE_FILTER, "populate", args);
  }

  lemma DecodeUserQuery<B>(args: ListArgs)
    ensures DecodeQuery<B>(ListParams(USER_FILTER, "populate[article]", args)) == Some(GetUserComments(CanonicalArgs(args)))
  {
    DecodeListOf(USER_FILTER, "populate[article]", args);
    OwnerKeysDiffer(ListParams(USER_FILTER, "populate[article]", args));
  }

  lemma GetCommentsRoundTrip<B>(args: ListArgs)
    requires '&' !in args.owner
    ensures Decode<B>(Encode(GetComments(args))) == Some(GetComments(CanonicalArgs(args)))
  {
    ArticleFilterSafe();
    PopulateKeysSafe();
    ParseListUrl(ARTICLE_FILTER, "populate", args);
    var url := ListUrl(ARTICLE_FILTER, "populate", args);
    assert Encode<B>(GetComments(args)) == Get(url);
    DecodeListRequest<B>(url);
    DecodeThreadQuery<B>(args);
  }

  lemma GetUserCommentsRoundTrip<B>(args: ListArgs)
    requires '&' !in args.owner
    ensures Decode<B>(Encode(GetUserComments(args))) == Some(GetUserComments(CanonicalArgs(args)))
  {
    UserFilterSafe();
    PopulateKeysSafe();
    ParseListUrl(USER_FILTER, "populate[article]", args);
    var url := ListUrl(USER_FILTER, "populate[article]", args);
    assert Encode<B>(GetUserComments(args)) == Get(url);
    DecodeListRequest<B>(url);
    DecodeUserQuery<B>(args);
  }

  /** The URL of one comment is that comment's id under the collection. */
  lemma ResourceUrl(id: string)
    requires Url.SafeSegment(id)
    ensures Url.Parse(CommentPath(id)).0 != PATH
    ensures Url.ResourceId(CommentPath(id), COLLECTION) == Some(id)
  {
    Url.ResourceIdOf(COLLECTION, id);
  }

  /** Decoding an encoded call gives it back with its defaults filled in, and
      re-encoding that canonical call gives the same request. */
  lemma RoundTrip<B>(c: Call<B>)
    requires SafeIds(c)
    ensures Decode(Encode(c)) == Some(Canonical(c))
    ensures Encode(Canonical(c)) == Encode(c)
  {
    match c
    case GetComments(args) =>
      GetCommentsRoundTrip<B>(args);
      CanonicalSameUrl(ARTICLE_FILTER, "populate", args);
    case GetUserComments(args) =>
      GetUserCommentsRoundTrip<B>(args);
      CanonicalSameUrl(USER_FILTER, "populate[article]", args);
    case CreateComment(_) =>
    case _ => ResourceRoundTrip(c);
  }

  /** Filling in the defaults does not change the URL. */
  lemma CanonicalSameUrl(filter: string, populate: string, args: ListArgs)
    ensures ListUrl(filter, populate, CanonicalArgs(args)) == ListUrl(filter, populate, args)
  {
  }

  lemma ResourceRoundTrip<B>(c: Call<B>)
    requires c.UpdateComment? || c.DeleteComment?
    requires SafeIds(c)
    ensures Decode(Encode(c)) == Some(c)
  {
    match c
    case UpdateComment(id, _) => ResourceUrl(id);
    case DeleteComment(id) => ResourceUrl(id);
  }

  /** Updating and deleting one comment address the same URL. */
  lemma SameResourceUrl<B>(id: string, data: B)
    ensures Encode(UpdateComment(id, data)).url == Encode<B>(DeleteComment(id)).url == CommentPath(id)
  {
  }
}
