/** The route guard of the tourist app
    (tourist-app/src/components/ProtectedRoute.tsx): what a protected page
    renders, decided from the authentication context. */
module ProtectedRoute {
  import opened Wrappers

  /** The two context fields the guard reads. */
  datatype AuthView = AuthView(isAuthenticated: bool, isLoading: bool)

  /** The four renderings, three of them distinct: a redirect to /login that
      carries the current location as `from`, the spinner, or the page. */
  datatype Rendering = RedirectToLogin(from: string) | Spinner | Children

  /** The guard: no context or, once loaded, no authentication redirects;
      loading shows the spinner whatever the authentication says; otherwise
      the page renders. */
  function Guard(context: Option<AuthView>, location: string): (r: Rendering)
    ensures r.Children? <==> context.Some? && !context.value.isLoading && context.value.isAuthenticated
    ensures r.Spinner? <==> context.Some? && context.value.isLoading
    ensures r.RedirectToLogin? <==> context.None? || (!context.value.isLoading && !context.value.isAuthenticated)
    ensures r.RedirectToLogin? ==> r.from == location
  {
    if context.None? then RedirectToLogin(location)
    else if context.value.isLoading then Spinner
    else if !context.value.isAuthenticated then RedirectToLogin(location)
    else Children
  }
}
