/** The route guard (app/middleware/auth.ts): where, if anywhere, a navigation is sent instead. */
module AuthMiddleware {
  import opened Wrappers

  const LoginPath := "/"
  const DashboardPath := "/dashboard"

  /** `Some(target)` is `navigateTo(target)`; `None` lets the navigation through. */
  function Redirect(isAuthenticated: bool, path: string): (target: Option<string>)
    ensures !isAuthenticated && path != LoginPath ==> target == Some(LoginPath)
    ensures !isAuthenticated && path == LoginPath ==> target == None
    ensures isAuthenticated && path == LoginPath ==> target == Some(DashboardPath)
    ensures isAuthenticated && path != LoginPath ==> target == None
  {
    if !isAuthenticated && path != LoginPath then Some(LoginPath)
    else if isAuthenticated && path == LoginPath then Some(DashboardPath)
    else None
  }

  /** A navigation passes exactly when signed-in users go elsewhere than the login page and signed-out users go to it. */
  lemma PassesIff(isAuthenticated: bool, path: string)
    ensures Redirect(isAuthenticated, path).None? <==> (isAuthenticated <==> path != LoginPath)
  {
  }

  /** A redirect never points back at the requested path. */
  lemma NoSelfRedirect(isAuthenticated: bool, path: string)
    ensures Redirect(isAuthenticated, path) != Some(path)
  {
  }

  /** Following a redirect reaches a path the guard lets through: redirects cannot chain or loop. */
  lemma RedirectSettles(isAuthenticated: bool, path: string)
    ensures var target := Redirect(isAuthenticated, path);
      target.Some? ==> Redirect(isAuthenticated, target.value).None?
  {
  }
}
