/**
 * The route guard (src/components/ProtectedRoute.tsx): from the provider's
 * `isLoading` flag, its current identity and an optional list of allowed roles,
 * choose the loading placeholder, a history-replacing redirect, or the
 * protected subtree.
 */
module Guard {
  import opened Collections
  import opened Auth

  datatype Outcome = LoadingPlaceholder | Redirect(to: string, replace: bool) | RenderOutlet

  /**
   * `isAuthenticated` is `!!user` in the provider, so it is derived from `user`
   * here rather than passed separately.
   */
  function Decide(isLoading: bool, user: Option<User>, allowedRoles: Option<seq<Role>>): (r: Outcome)
    ensures isLoading ==> r == LoadingPlaceholder
    ensures !isLoading && user.None? ==> r == Redirect("/login", true)
    ensures !isLoading && user.Some? && allowedRoles.Some? && user.value.role !in allowedRoles.value ==> r == Redirect("/", true)
    ensures r == RenderOutlet <==>
      !isLoading && user.Some? && (allowedRoles.None? || user.value.role in allowedRoles.value)
    ensures r.Redirect? ==> r.replace
  {
    if isLoading then LoadingPlaceholder
    else if user.None? then Redirect("/login", true)
    else if allowedRoles.Some? && user.value.role !in allowedRoles.value then Redirect("/", true)
    else RenderOutlet
  }

  /** The role list every route of the application passes: none (src/App.tsx:35). */
  const AppRouteRoles: Option<seq<Role>> := None

  /** With no role list every signed-in user reaches the subtree, whatever the role. */
  lemma AppRoutesAdmitEveryRole(u: User)
    ensures Decide(false, Some(u), AppRouteRoles) == RenderOutlet
  {
  }

  /** An empty role list is still a list: it turns every signed-in user away to the home route. */
  lemma EmptyRoleListRedirectsEveryone(u: User)
    ensures Decide(false, Some(u), Some([])) == Redirect("/", true)
  {
  }

  /** An owner-only route never renders for a trainer. */
  lemma OwnerOnlyRouteRejectsTrainer(u: User)
    requires u.role == TrainerRole
    ensures Decide(false, Some(u), Some([OwnerRole])) == Redirect("/", true)
  {
  }

  /**
   * Signing in with the seeded owner credentials, when that username is held by
   * one row only, yields an owner identity that passes an owner-only guard.
   */
  lemma {:induction false} SeededOwnerReachesOwnerRoute(users: Table, id: string)
    requires id in users && users[id] == Row("the gym", "surender9818", users[id].name, OwnerRole)
    requires UniqueUsername(users, "the gym")
    ensures LoginResult(users, "the gym", "surender9818", false).Some?
    ensures LoginResult(users, "the gym", "surender9818", false).value.role == OwnerRole
    ensures Decide(false, LoginResult(users, "the gym", "surender9818", false), Some([OwnerRole])) == RenderOutlet
  {
    LoginSucceeds(users, id, "the gym", "surender9818");
  }
}
