/** The route guard of src/store/modules/RequireAuth.tsx. */
module RequireAuth {
  import opened Wrappers
  import opened Entities
  import opened AuthSlice

  const LOGIN_PATH := "/login"

  /** What the guard renders: the protected child routes, or a redirect that
      records where the visitor came from and replaces the history entry.
      `Location` is the router's current location. */
  datatype Rendered<Location> =
    | Outlet
    | Navigate(to: string, from: Location, replace: bool)

  /** The guard admits exactly when the token is truthy and a user is present;
      otherwise it redirects to the login page with `{from: location}` and `replace`. */
  function Guard<Location>(token: Option<string>, user: Option<User>, location: Location): (r: Rendered<Location>)
    ensures r.Outlet? <==> Truthy(token) && user.Some?
    ensures !r.Outlet? ==> r == Navigate(LOGIN_PATH, location, true)
  {
    if Truthy(token) && user.Some? then Outlet else Navigate(LOGIN_PATH, location, true)
  }

  /** After `setCredentials` with a non-empty token the guard admits; after
      `logout` it redirects. */
  lemma GuardFollowsSession<Location>(response: LoginResponse, location: Location)
    ensures response.jwt != "" ==> Guard(Some(response.jwt), Some(response.user), location).Outlet?
    ensures Guard(SIGNED_OUT.token, SIGNED_OUT.user, location) == Navigate(LOGIN_PATH, location, true)
  {
  }

  /** A token alone is not enough: with no user the guard redirects. */
  lemma TokenWithoutUser<Location>(token: string, location: Location)
    ensures Guard(Some(token), None, location) == Navigate(LOGIN_PATH, location, true)
  {
  }
}
