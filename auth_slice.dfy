/** The session store of src/store/modules/authSlice.ts: the signed-in user and
    bearer token, written through to browser storage under two keys and read
    back from it when the application starts. */
module AuthSlice {
  import opened Wrappers
  import opened Entities
  import Json

  const TOKEN_KEY := "authToken"
  const USER_KEY := "authUser"

  /** `{user, token}`; `None` is `null`. */
  datatype AuthState = AuthState(user: Option<User>, token: Option<string>)

  const SIGNED_OUT := AuthState(None, None)

  /** JavaScript truthiness of a token: present and not the empty string. */
  predicate Truthy(token: Option<string>) {
    token.Some? && token.value != ""
  }

  /** Key/value browser storage. Values are the serialised text. */
  class Storage {
    var items: map<string, string>

    constructor (items: map<string, string>)
      ensures this.items == items
    {
      this.items := items;
    }

    method SetItem(key: string, value: string)
      modifies this
      ensures items == old(items)[key := value]
    {
      items := items[key := value];
    }

    method RemoveItem(key: string)
      modifies this
      ensures items == old(items) - {key}
    {
      items := items - {key};
    }
  }

  /** `loadAuthState`: both keys must be present and both values must parse;
      otherwise (a missing key, or `JSON.parse` throwing) the state is signed out. */
  function LoadAuthState(items: map<string, string>): (st: AuthState)
    ensures TOKEN_KEY !in items || USER_KEY !in items ==> st == SIGNED_OUT
    ensures (TOKEN_KEY in items && USER_KEY in items
      && Json.ParseUser(items[USER_KEY]).Some? && Json.ParseToken(items[TOKEN_KEY]).Some?) ==>
      st == AuthState(Json.ParseUser(items[USER_KEY]).value, Json.ParseToken(items[TOKEN_KEY]).value)
    ensures (TOKEN_KEY in items && USER_KEY in items
      && (Json.ParseUser(items[USER_KEY]).None? || Json.ParseToken(items[TOKEN_KEY]).None?)) ==>
      st == SIGNED_OUT
  {
    if TOKEN_KEY !in items || USER_KEY !in items then SIGNED_OUT
    else
      match (Json.ParseUser(items[USER_KEY]), Json.ParseToken(items[TOKEN_KEY]))
      case (Some(user), Some(token)) => AuthState(user, token)
      case _ => SIGNED_OUT
  }

  /** The storage `setCredentials` leaves behind. */
  function WriteCredentials(items: map<string, string>, response: LoginResponse): map<string, string> {
    items[TOKEN_KEY := Json.Quote(response.jwt)][USER_KEY := Json.StringifyUser(response.user)]
  }

  /** Reloading after `setCredentials` gives back exactly the user and token it set. */
  lemma ReloadAfterSetCredentials(items: map<string, string>, response: LoginResponse)
    ensures LoadAuthState(WriteCredentials(items, response)) == AuthState(Some(response.user), Some(response.jwt))
  {
    var written := WriteCredentials(items, response);
    assert TOKEN_KEY != USER_KEY by {
      assert |TOKEN_KEY| != |USER_KEY|;
    }
    assert written[TOKEN_KEY] == Json.Quote(response.jwt);
    Json.ParseUserRoundTrip(response.user);
    Json.ParseTokenRoundTrip(response.jwt);
  }

  /** Reloading after `logout` gives the signed-out state, whatever else is stored. */
  lemma ReloadAfterLogout(items: map<string, string>)
    ensures LoadAuthState(items - {TOKEN_KEY} - {USER_KEY}) == SIGNED_OUT
  {
  }

  /** The `auth` slice: its state, and the storage it writes through to. */
  class AuthStore {
    var user: Option<User>
    var token: Option<string>
    const storage: Storage

    /** The initial state is whatever `loadAuthState` reads from storage. */
    constructor (storage: Storage)
      ensures this.storage == storage
      ensures AuthState(user, token) == LoadAuthState(storage.items)
    {
      this.storage := storage;
      var st := LoadAuthState(storage.items);
      user := st.user;
      token := st.token;
    }

    function State(): AuthState
      reads this
    {
      AuthState(user, token)
    }

    /** `setCredentials`: the state takes the response's user and token, and both
        are written to storage as JSON. */
    method SetCredentials(response: LoginResponse)
      modifies this, storage
      ensures user == Some(response.user) && token == Some(response.jwt)
      ensures storage.items == WriteCredentials(old(storage.items), response)
      ensures LoadAuthState(storage.items) == State()
    {
      user := Some(response.user);
      token := Some(response.jwt);
      storage.SetItem(TOKEN_KEY, Json.Quote(response.jwt));
      storage.SetItem(USER_KEY, Json.StringifyUser(response.user));
      ReloadAfterSetCredentials(old(storage.items), response);
    }

    /** `logout`: the state is cleared and both keys are removed. */
    method Logout()
      modifies this, storage
      ensures State() == SIGNED_OUT
      ensures storage.items == old(storage.items) - {TOKEN_KEY} - {USER_KEY}
      ensures LoadAuthState(storage.items) == State()
    {
      user := None;
      token := None;
      storage.RemoveItem(TOKEN_KEY);
      storage.RemoveItem(USER_KEY);
      ReloadAfterLogout(old(storage.items));
    }
  }
}
