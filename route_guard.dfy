/**
 * The client-side route guard (frontend/src/components/auth/ProtectedRoute.tsx):
 * what a protected page shows for the current authentication state and the
 * roles the route admits.
 */
module RouteGuard {
  import opened Wrappers
  import Strings

  /** What the guard renders. */
  datatype GuardView =
    | LoadingSpinner     // authentication is still being checked
    | RedirectToLogin    // `<Navigate to="/login">`, remembering where the user was going
    | RedirectHome       // `<Navigate to="/">`
    | ShowChildren       // the protected page itself

  /** The route restricts roles: `roles && roles.length > 0`. */
  predicate Restricted(roles: Option<seq<string>>) {
    roles.Some? && |roles.value| > 0
  }

  /** The user's role is set and listed among the admitted roles. */
  predicate RoleAdmitted(userRole: Option<string>, roles: seq<string>) {
    Strings.Truthy(userRole) && userRole.value in roles
  }

  /** `ProtectedRoute({ children, roles })` given `useAuth()`'s state. */
  function Guard(isLoading: bool, isAuthenticated: bool, userRole: Option<string>, roles: Option<seq<string>>)
    : (v: GuardView)
    ensures v == LoadingSpinner <==> isLoading
    ensures v == RedirectToLogin <==> !isLoading && !isAuthenticated
    ensures v == ShowChildren <==>
      !isLoading && isAuthenticated && (!Restricted(roles) || RoleAdmitted(userRole, roles.value))
    ensures v == RedirectHome <==>
      !isLoading && isAuthenticated && Restricted(roles) && !RoleAdmitted(userRole, roles.value)
  {
    if isLoading then LoadingSpinner
    else if !isAuthenticated then RedirectToLogin
    else if roles.Some? && |roles.value| > 0 && (!Strings.Truthy(userRole) || userRole.value !in roles.value) then
      RedirectHome
    else ShowChildren
  }

  /** Without roles (the checkout route) or with an empty list, every signed-in user gets the page. */
  lemma UnrestrictedShowsEveryUser(userRole: Option<string>, roles: Option<seq<string>>)
    requires roles.None? || roles.value == []
    ensures Guard(false, true, userRole, roles) == ShowChildren
  {
  }

  /** Seller routes (`roles={['seller']}`) send any other role, or no role, home. */
  lemma SellerRoutes(userRole: Option<string>)
    ensures Guard(false, true, userRole, Some(["seller"])) == ShowChildren <==> userRole == Some("seller")
  {
  }

  /** An empty role is never admitted, even when "" is listed. */
  lemma EmptyRoleNeverAdmitted(roles: seq<string>)
    requires |roles| > 0
    ensures Guard(false, true, Some(""), Some(roles)) == RedirectHome
  {
  }

  /** Admitting more roles never hides a page that was shown. */
  lemma MoreRolesAdmitMore(isLoading: bool, isAuthenticated: bool, userRole: Option<string>,
                           roles: seq<string>, more: seq<string>)
    requires |roles| > 0
    requires forall r :: r in roles ==> r in more
    requires Guard(isLoading, isAuthenticated, userRole, Some(roles)) == ShowChildren
    ensures Guard(isLoading, isAuthenticated, userRole, Some(more)) == ShowChildren
  {
  }

  /** Until authentication has been checked nothing protected is shown, whatever the other state is. */
  lemma LoadingShowsNothing(isAuthenticated: bool, userRole: Option<string>, roles: Option<seq<string>>)
    ensures Guard(true, isAuthenticated, userRole, roles) != ShowChildren
  {
  }
}
