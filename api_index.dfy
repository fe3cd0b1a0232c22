/** The shared request layer of src/api/index.ts: the bearer header every
    request carries, and the wrapper that signs the user out when the backend
    answers 401. */
module ApiIndex {
  import opened Wrappers
  import opened AuthSlice
  import Json
  import Text

  const AUTHORIZATION := "Authorization"
  const BEARER := "Bearer "

  /** The token `prepareHeaders` picks, as written: the store's token when
      truthy, else the stored `authToken` text itself, unparsed. */
  function ChooseTokenAsWritten(storeToken: Option<string>, stored: Option<string>): (t: Option<string>)
    ensures Truthy(storeToken) ==> t == storeToken
    ensures !Truthy(storeToken) ==> t == stored
  {
    if Truthy(storeToken) then storeToken else stored
  }

  /** The token as evidently intended: the store's token when truthy, else the
      stored `authToken` read back through `JSON.parse` (absent when it does not
      parse or is `null`). */
  function ChooseToken(storeToken: Option<string>, stored: Option<string>): (t: Option<string>)
    ensures Truthy(storeToken) ==> t == storeToken
    ensures !Truthy(storeToken) && stored.Some? && Json.ParseToken(stored.value).Some? ==>
      t == Json.ParseToken(stored.value).value
    ensures !Truthy(storeToken) && (stored.None? || Json.ParseToken(stored.value).None?) ==> t.None?
  {
    if Truthy(storeToken) then storeToken
    else if stored.Some? then
      match Json.ParseToken(stored.value)
      case Some(t) => t
      case None => None
    else None
  }

  /** When the store is signed out but storage still holds a token written by
      `setCredentials`, the as-written choice sends the JSON-quoted text, which
      differs from the token; the corrected choice sends the token itself. */
  lemma FallbackSendsQuotedToken(jwt: string)
    ensures ChooseTokenAsWritten(None, Some(Json.Quote(jwt))) == Some(Json.Quote(jwt))
    ensures Json.Quote(jwt) != jwt
    ensures Json.Quote(jwt) != ""
    ensures ChooseToken(None, Some(Json.Quote(jwt))) == Some(jwt)
  {
    Json.ParseTokenRoundTrip(jwt);
    assert |Json.Quote(jwt)| > |jwt| by {
      assert Json.Quote(jwt) == "\"" + Json.Escape(jwt) + "\"";
      EscapeLength(jwt);
    }
  }

  lemma {:induction false} EscapeLength(s: string)
    ensures |Json.Escape(s)| >= |s|
  {
    if s != [] {
      EscapeLength(s[1..]);
      assert Json.Escape(s) == Json.EscapeChar(s[0]) + Json.Escape(s[1..]);
    }
  }

  /** The headers that result when storage holds the quoted token `jwt` and
      the store is signed out, as after a reload whose `authUser` entry was
      missing: the as-written header carries the quotes, the corrected one does
      not. */
  lemma QuotedTokenHeader(jwt: string)
    requires jwt != ""
    ensures AuthorizationValue(ChooseTokenAsWritten(None, Some(Json.Quote(jwt)))) == Some(BEARER + Json.Quote(jwt))
    ensures AuthorizationValue(ChooseToken(None, Some(Json.Quote(jwt)))) == Some(BEARER + jwt)
    ensures BEARER + Json.Quote(jwt) != BEARER + jwt
  {
    FallbackSendsQuotedToken(jwt);
  }

  /** For the token `abc` storage holds the five characters `"abc"`. */
  lemma QuotedTokenExample()
    ensures Json.Quote("abc") == ['"', 'a', 'b', 'c', '"']
  {
  }

  /** The value of the `Authorization` header for a chosen token, or none when
      the token is falsy. */
  function AuthorizationValue(token: Option<string>): (v: Option<string>)
    ensures v.Some? <==> Truthy(token)
    ensures v.Some? ==> Text.StartsWith(v.value, BEARER) && v.value[|BEARER|..] == token.value
  {
    if Truthy(token) then Some(BEARER + token.value) else None
  }

  /** Distinct tokens give distinct headers. */
  lemma AuthorizationInjective(a: Option<string>, b: Option<string>)
    requires Truthy(a) && Truthy(b)
    ensures AuthorizationValue(a) == AuthorizationValue(b) <==> a == b
  {
  }

  /** The request headers object. */
  class Headers {
    var entries: map<string, string>

    constructor (entries: map<string, string>)
      ensures this.entries == entries
    {
      this.entries := entries;
    }

    method Set(name: string, value: string)
      modifies this
      ensures entries == old(entries)[name := value]
    {
      entries := entries[name := value];
    }
  }

  /** `prepareHeaders` as written: sets `Authorization: Bearer <token>` when
      the token of `ChooseTokenAsWritten` is truthy, and leaves the headers alone
      otherwise. A stored `"abc"` is sent as `Bearer "abc"`, a stored `null` as
      `Bearer null`. */
  method PrepareHeaders(headers: Headers, storeToken: Option<string>, stored: Option<string>)
    modifies headers
    ensures AuthorizationValue(ChooseTokenAsWritten(storeToken, stored)).Some? ==>
      headers.entries == old(headers.entries)[AUTHORIZATION := AuthorizationValue(ChooseTokenAsWritten(storeToken, stored)).value]
    ensures AuthorizationValue(ChooseTokenAsWritten(storeToken, stored)).None? ==>
      headers.entries == old(headers.entries)
  {
    var authToken := ChooseTokenAsWritten(storeToken, stored);
    if authToken.Some? && authToken.value != "" {
      headers.Set(AUTHORIZATION, BEARER + authToken.value);
    }
  }

  /** `prepareHeaders` as evidently intended: the same, over the token of
      `ChooseToken`, so a stored token is sent without its JSON quotes and a
      stored `null` sends no header. */
  method PrepareHeadersCorrected(headers: Headers, storeToken: Option<string>, stored: Option<string>)
    modifies headers
    ensures AuthorizationValue(ChooseToken(storeToken, stored)).Some? ==>
      headers.entries == old(headers.entries)[AUTHORIZATION := AuthorizationValue(ChooseToken(storeToken, stored)).value]
    ensures AuthorizationValue(ChooseToken(storeToken, stored)).None? ==>
      headers.entries == old(headers.entries)
  {
    var authToken := ChooseToken(storeToken, stored);
    if authToken.Some? && authToken.value != "" {
      headers.Set(AUTHORIZATION, BEARER + authToken.value);
    }
  }

  /** A stored `null` with the store signed out: as written the header is
      `Bearer null`; corrected, there is no header. */
  lemma StoredNullHeader()
    ensures AuthorizationValue(ChooseTokenAsWritten(None, Some("null"))) == Some(BEARER + "null")
    ensures AuthorizationValue(ChooseToken(None, Some("null"))).None?
  {
  }

  /** The `status` of a failed query: an HTTP status code, or one of the
      transport-level failures, which carry a string status. */
  datatype ErrorStatus = HttpStatus(code: int) | FetchError | ParsingError | TimeoutError | CustomError

  datatype QueryResult<D> = Success(data: D) | Failure(status: ErrorStatus)

  datatype Action = Logout

  /** Whether a result is the 401 that ends the session. */
  predicate IsUnauthorized<D>(result: QueryResult<D>) {
    result.Failure? && result.status == HttpStatus(401)
  }

  /** The actions `baseQueryWithReauth` dispatches: `logout` once for a 401,
      nothing for a success or any other failure. */
  function ReauthActions<D>(result: QueryResult<D>): (actions: seq<Action>)
    ensures |actions| <= 1
    ensures actions == [Logout] <==> IsUnauthorized(result)
    ensures actions == [] <==> !IsUnauthorized(result)
  {
    if result.Failure? && result.status.HttpStatus? && result.status.code == 401 then [Logout] else []
  }

  /** `baseQueryWithReauth` once the underlying query has answered: a 401 signs
      the store out (state and storage); the result is handed back unchanged. */
  method BaseQueryWithReauth<D>(result: QueryResult<D>, auth: AuthStore) returns (r: QueryResult<D>)
    modifies auth, auth.storage
    ensures r == result
    ensures IsUnauthorized(result) ==>
      auth.State() == SIGNED_OUT
      && auth.storage.items == old(auth.storage.items) - {TOKEN_KEY} - {USER_KEY}
    ensures !IsUnauthorized(result) ==>
      auth.State() == old(auth.State()) && auth.storage.items == old(auth.storage.items)
  {
    var actions := ReauthActions(result);
    if actions == [Logout] {
      auth.Logout();
    }
    r := result;
  }
}
