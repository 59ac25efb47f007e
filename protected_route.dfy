/** The route guard: a decision, for one navigation, between a waiting view,
    a redirect and rendering the child routes. */
module ProtectedRoute {
  import Collections
  import Auth

  datatype Decision =
    | ShowLoading
    /** `<Navigate to=... replace />`; `from` is the requested location carried in the state. */
    | Redirect(to: string, from: Collections.Option<string>, replace: bool)
    | RenderChildren

  /** `allowedRoles.some(role => hasRole(role))`. */
  function SomeRoleHeld(user: Collections.Option<Auth.User>, allowedRoles: seq<Auth.Role>): (r: bool)
    ensures r <==> user.Some? && user.value.role in allowedRoles
  {
    Collections.Any(allowedRoles, (role: Auth.Role) => Auth.HasRole(user, Auth.One(role)))
  }

  /** `ProtectedRoute({ allowedRoles })` given the session and the current location. */
  function Decide(isLoading: bool, user: Collections.Option<Auth.User>,
                  allowedRoles: Collections.Option<seq<Auth.Role>>, location: string): (d: Decision)
    ensures d == ShowLoading <==> isLoading
    ensures d == Redirect("/login", Collections.Some(location), true) <==> !isLoading && user.None?
    ensures d == RenderChildren <==>
      !isLoading && user.Some? &&
      (allowedRoles.None? || allowedRoles.value == [] || user.value.role in allowedRoles.value)
    ensures d.Redirect? ==> d.replace && (d.to == "/login" || d == Redirect("/dashboard", Collections.None, true))
  {
    if isLoading then ShowLoading
    else if !Auth.IsAuthenticated(user) then Redirect("/login", Collections.Some(location), true)
    else if allowedRoles.Some? && |allowedRoles.value| > 0 && !SomeRoleHeld(user, allowedRoles.value)
    then Redirect("/dashboard", Collections.None, true)
    else RenderChildren
  }

  /** The guard restated as a table over the session: it agrees with `Decide` on every input. */
  lemma DecisionTable(isLoading: bool, user: Collections.Option<Auth.User>,
                      allowedRoles: Collections.Option<seq<Auth.Role>>, location: string)
    ensures isLoading ==> Decide(isLoading, user, allowedRoles, location) == ShowLoading
    ensures !isLoading && user.None? ==>
      Decide(isLoading, user, allowedRoles, location) == Redirect("/login", Collections.Some(location), true)
    ensures !isLoading && user.Some? && (allowedRoles.None? || allowedRoles.value == []) ==>
      Decide(isLoading, user, allowedRoles, location) == RenderChildren
    ensures !isLoading && user.Some? && allowedRoles.Some? && allowedRoles.value != [] ==>
      Decide(isLoading, user, allowedRoles, location)
        == if user.value.role in allowedRoles.value then RenderChildren else Redirect("/dashboard", Collections.None, true)
  {
  }

  /** An authenticated user is never sent to the login page. */
  lemma AuthenticatedNeverToLogin(isLoading: bool, user: Collections.Option<Auth.User>,
                                  allowedRoles: Collections.Option<seq<Auth.Role>>, location: string)
    requires user.Some?
    ensures !Decide(isLoading, user, allowedRoles, location).Redirect?
         || Decide(isLoading, user, allowedRoles, location).to == "/dashboard"
  {
  }

  /** Content behind a role restriction renders only for a listed role. */
  lemma RenderedMeansAllowed(isLoading: bool, user: Collections.Option<Auth.User>,
                             allowedRoles: seq<Auth.Role>, location: string)
    requires Decide(isLoading, user, Collections.Some(allowedRoles), location) == RenderChildren
    ensures !isLoading && user.Some?
    ensures allowedRoles != [] ==> user.value.role in allowedRoles
  {
  }

  /** A viewer on an admin-only route is redirected to the dashboard, never shown the content. */
  lemma ViewerKeptOutOfAdmin(u: Auth.User, location: string)
    requires u.role == Auth.Viewer
    ensures Decide(false, Collections.Some(u), Collections.Some([Auth.Admin]), location)
         == Redirect("/dashboard", Collections.None, true)
  {
  }

  /** Admins get no blanket pass: an admin is redirected from a route whose
      allowed roles do not list Admin. */
  lemma AdminNotPrivileged(u: Auth.User, location: string)
    requires u.role == Auth.Admin
    ensures Decide(false, Collections.Some(u), Collections.Some([Auth.Owner]), location)
         == Redirect("/dashboard", Collections.None, true)
  {
  }
}
