/** The two route guards. Each reads the first authentication state only and
    decides from its `isAuthenticated` flag alone; a refusal navigates. */
module Guards {
  import opened Wrappers
  import opened Models
  import opened Effects

  /** Whether the route may be entered, and the navigation done on refusal. */
  datatype GuardResult = GuardResult(allow: bool, effects: seq<Effect>)

  /** The protected pages: allowed when signed in; otherwise refused, with a
      navigation to the login page remembering `url` as the return address. */
  function AuthGuard(state: AuthState, url: string): (r: GuardResult)
    ensures r.allow == state.isAuthenticated
    ensures r.allow ==> r.effects == []
    ensures !r.allow ==> r.effects == [Navigated(["auth/login"], Some(url))]
  {
    if state.isAuthenticated then GuardResult(true, [])
    else GuardResult(false, [Navigated(["auth/login"], Some(url))])
  }

  /** The login page: allowed when signed out; otherwise refused, with a
      navigation to the home page. */
  function LoginGuard(state: AuthState): (r: GuardResult)
    ensures r.allow == !state.isAuthenticated
    ensures r.allow ==> r.effects == []
    ensures !r.allow ==> r.effects == [Navigated(["/home"], None)]
  {
    if state.isAuthenticated then GuardResult(false, [Navigated(["/home"], None)])
    else GuardResult(true, [])
  }

  /** In any state exactly one of the two guards lets the user through, and
      each navigates at most once. */
  lemma GuardsAreComplementary(state: AuthState, url: string)
    ensures AuthGuard(state, url).allow != LoginGuard(state).allow
    ensures |AuthGuard(state, url).effects| + |LoginGuard(state).effects| == 1
  {
  }

  /** Neither guard looks at the user or the token. */
  lemma GuardsReadOnlyTheFlag(s1: AuthState, s2: AuthState, url: string)
    requires s1.isAuthenticated == s2.isAuthenticated
    ensures AuthGuard(s1, url) == AuthGuard(s2, url)
    ensures LoginGuard(s1) == LoginGuard(s2)
  {
  }
}
