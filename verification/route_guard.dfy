/** The route guard (src/components/ProtectedRoute.tsx). */
module RouteGuard {

  /** What the guard renders: a spinner, a redirect, or the guarded page. */
  datatype Outcome = Spinner | Redirect(to: string) | Render

  const SignInPath := "/auth"

  /** The guard's decision: a spinner while the session is loading; otherwise a redirect
      to the sign-in page for a visitor without a session on a path that is not listed as
      public; otherwise the page. `allowedRoutes` is empty unless the caller passes one. */
  function Decide(loading: bool, signedIn: bool, path: string, allowedRoutes: seq<string>): (o: Outcome)
    ensures loading ==> o == Spinner
    ensures !loading ==> (o == Redirect(SignInPath) <==> !signedIn && path !in allowedRoutes)
    ensures !loading ==> (o == Render <==> signedIn || path in allowedRoutes)
    ensures o.Redirect? ==> o.to == SignInPath
  {
    if loading then Spinner
    else if !signedIn && path !in allowedRoutes then Redirect(SignInPath)
    else Render
  }

  /** With the default empty list every page needs a session once loading is over. */
  lemma DefaultNeedsSession(signedIn: bool, path: string)
    ensures Decide(false, signedIn, path, []) == (if signedIn then Render else Redirect(SignInPath))
  {
  }

  /** Listing more public paths never turns a rendered page into a redirect. */
  lemma MorePublicPathsRenderMore(loading: bool, signedIn: bool, path: string, a: seq<string>, b: seq<string>)
    requires forall p :: p in a ==> p in b
    ensures Decide(loading, signedIn, path, a) == Render ==> Decide(loading, signedIn, path, b) == Render
  {
  }
}
