/** The category endpoints (src/services/categoryApi.ts). */
module CategoryApi {
  import opened Wrappers
  import opened Http
  import Url

  datatype Call<B> =
    | GetCategories
    | GetCategory(documentId: string)
    | CreateCategory(category: B)
    | UpdateCategory(id: string, data: B)
    | DeleteCategory(id: string)

  const COLLECTION := "categories"
  const PATH := "/" + COLLECTION

  /** `/categories/<documentId>`. */
  function CategoryPath(documentId: string): string {
    PATH + "/" + documentId
  }

  function Encode<B>(c: Call<B>): Request<B> {
    match c
    case GetCategories => Get(PATH)
    case GetCategory(documentId) => Get(CategoryPath(documentId))
    case CreateCategory(category) => Request(POST, PATH, Payload(category))
    case UpdateCategory(id, data) => Request(PUT, CategoryPath(id), DataEnvelope(data))
    case DeleteCategory(id) => Request(DELETE, CategoryPath(id), NoBody)
  }

  /** The call a request stands for, read from its method, URL and body. */
  function Decode<B>(r: Request<B>): Option<Call<B>> {
    match r.body
    case NoBody => DecodeBodiless(r.verb, r.url)
    case Payload(category) =>
      if r.verb == POST && r.url == PATH then Some(CreateCategory(category)) else None
    case DataEnvelope(data) =>
      match Url.ResourceId(r.url, COLLECTION)
      case Some(id) => if r.verb == PUT then Some(UpdateCategory(id, data)) else None
      case None => None
  }

  function DecodeBodiless<B>(verb: Method, url: string): Option<Call<B>> {
    if verb == GET && url == PATH then Some(GetCategories)
    else
      match Url.ResourceId(url, COLLECTION)
      case Some(id) =>
        if verb == GET then Some(GetCategory(id))
        else if verb == DELETE then Some(DeleteCategory(id))
        else None
      case None => None
  }

  predicate SafeIds<B>(c: Call<B>) {
    match c
    case GetCategory(documentId) => Url.SafeSegment(documentId)
    case UpdateCategory(id, _) => Url.SafeSegment(id)
    case DeleteCategory(id) => Url.SafeSegment(id)
    case _ => true
  }

  /** The URL of one category is that category's id under the collection. */
  lemma ResourceUrl(id: string)
    requires Url.SafeSegment(id)
    ensures Url.ResourceId(CategoryPath(id), COLLECTION) == Some(id)
    ensures CategoryPath(id) != PATH
  {
    Url.ResourceIdOf(COLLECTION, id);
  }

  lemma ResourceRoundTrip<B>(c: Call<B>)
    requires c.GetCategory? || c.UpdateCategory? || c.DeleteCategory?
    requires SafeIds(c)
    ensures Decode(Encode(c)) == Some(c)
  {
    match c
    case GetCategory(id) => ResourceUrl(id);
    case UpdateCategory(id, _) => ResourceUrl(id);
    case DeleteCategory(id) => ResourceUrl(id);
  }

  /** Every call is read back unchanged from the request it builds: no endpoint
      of this service drops or defaults anything. */
  lemma RoundTrip<B>(c: Call<B>)
    requires SafeIds(c)
    ensures Decode(Encode(c)) == Some(c)
  {
    match c
    case GetCategories =>
    case CreateCategory(_) =>
    case _ => ResourceRoundTrip(c);
  }

  /** Encoding is injective on calls with safe ids: different calls never share a request. */
  lemma EncodeInjective<B>(c: Call<B>, d: Call<B>)
    requires SafeIds(c) && SafeIds(d)
    ensures Encode(c) == Encode(d) <==> c == d
  {
    if Encode(c) == Encode(d) {
      RoundTrip(c);
      RoundTrip(d);
    }
  }
}
