/**
 * The route guard: from the authentication state it decides what to render
 * (the loading screen, the protected children, or nothing) and whether its
 * effect navigates to the sign-in page.
 */
module ProtectedRoute {
  import opened Wrappers
  import Auth

  const AuthRoute: string := "/auth"

  datatype View = LoadingScreen | Children | Nothing

  /** What the component returns for the current state. */
  function Render(a: Auth.AuthState): (v: View)
    ensures v == LoadingScreen <==> a.isLoading
    ensures v == Children <==> !a.isLoading && a.user.Some?
  {
    if a.isLoading then LoadingScreen
    else if a.user.Some? then Children
    else Nothing
  }

  /** Where the effect navigates after that render, if anywhere. */
  function Redirect(a: Auth.AuthState): (r: Option<string>)
    ensures r.Some? ==> r.value == AuthRoute
    ensures r.Some? <==> !a.isLoading && a.user.None?
  {
    if !a.isLoading && a.user.None? then Some(AuthRoute) else None
  }

  /** While loading: the loading screen, no children and no redirect. */
  lemma LoadingShowsOnlyLoadingScreen(a: Auth.AuthState)
    requires a.isLoading
    ensures Render(a) == LoadingScreen && Redirect(a).None?
  {
  }

  /** Loaded and signed out: nothing rendered and a redirect to the sign-in page. */
  lemma SignedOutRedirects(a: Auth.AuthState)
    requires !a.isLoading && a.user.None?
    ensures Render(a) == Nothing && Redirect(a) == Some(AuthRoute)
  {
  }

  /** A signed-in user is never redirected, and the children are never shown together with a redirect. */
  lemma SignedInNeverRedirects(a: Auth.AuthState)
    ensures a.user.Some? ==> Redirect(a).None?
    ensures Render(a) == Children ==> Redirect(a).None?
  {
  }

  /** Every state ends in exactly one of: loading, the children, or a redirect. */
  lemma ExactlyOneOutcome(a: Auth.AuthState)
    ensures (Render(a) == LoadingScreen) || (Render(a) == Children) || Redirect(a).Some?
    ensures Redirect(a).Some? ==> Render(a) == Nothing
  {
  }

  /** A SIGNED_OUT event on a loaded page sends the visitor to the sign-in page. */
  lemma SignOutEventRedirects(a: Auth.AuthState, s: Option<Auth.Session>)
    requires !a.isLoading
    ensures Redirect(Auth.OnAuthEvent(a, "SIGNED_OUT", s)) == Some(AuthRoute)
  {
  }
}
