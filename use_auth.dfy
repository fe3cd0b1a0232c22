/** The `useAuth` hook of src/hooks/useAuth.ts: the stored user and token, and
    whether the visitor counts as authenticated. */
module UseAuth {
  import opened Wrappers
  import opened Entities
  import opened AuthSlice
  import RequireAuth

  datatype AuthView = AuthView(currentUser: Option<User>, currentToken: Option<string>, isAuthenticated: bool)

  /** `isAuthenticated` is `!!token`: it looks at the token only. */
  function UseAuth(state: AuthState): (v: AuthView)
    ensures v.currentUser == state.user && v.currentToken == state.token
    ensures v.isAuthenticated <==> Truthy(state.token)
  {
    AuthView(state.user, state.token, Truthy(state.token))
  }

  /** An empty token is not authenticated; a non-empty token is, even with no user. */
  lemma TokenDecides(user: Option<User>, token: string)
    ensures !UseAuth(AuthState(user, Some(""))).isAuthenticated
    ensures token != "" ==> UseAuth(AuthState(None, Some(token))).isAuthenticated
  {
  }

  /** Whoever the route guard admits is authenticated, but not conversely: a
      token without a user is authenticated and still redirected. */
  lemma GuardImpliesAuthenticated<Location>(state: AuthState, location: Location)
    ensures RequireAuth.Guard(state.token, state.user, location).Outlet? ==> UseAuth(state).isAuthenticated
    ensures state.user.None? && Truthy(state.token) ==>
      UseAuth(state).isAuthenticated && !RequireAuth.Guard(state.token, state.user, location).Outlet?
  {
  }
}
