/** The route guard: a spinner while the session loads, a redirect to the
    sign-in page without a user, a refusal when the route lists roles and
    the user's role is not among them, and the guarded page otherwise. */
module ProtectedRoute {
  import opened Optional
  import opened Accounts

  datatype Outcome = Spinner | RedirectToLogin | AccessDenied | RenderChildren

  /** `roles` is `None` when the route gives no `roles` prop. */
  function Guard(loading: bool, user: Option<User>, roles: Option<seq<Role>>): (o: Outcome)
    ensures o == Spinner <==> loading
    ensures o == RedirectToLogin <==> !loading && user.None?
    ensures o == AccessDenied <==> !loading && user.Some? && roles.Some? && user.value.role !in roles.value
    ensures o == RenderChildren <==> !loading && user.Some? && (roles.None? || user.value.role in roles.value)
  {
    if loading then Spinner
    else if user.None? then RedirectToLogin
    else if roles.Some? && user.value.role !in roles.value then AccessDenied
    else RenderChildren
  }

  /** An empty role list (which is still a list) shuts out every user,
      whereas no list at all admits every signed-in user; and admitting more
      roles never shuts out a user who was admitted. */
  lemma GuardRoleLists(user: User, roles: seq<Role>, more: seq<Role>)
    ensures Guard(false, Some(user), Some([])) == AccessDenied
    ensures Guard(false, Some(user), None) == RenderChildren
    ensures Guard(false, Some(user), Some(roles)) == RenderChildren ==> Guard(false, Some(user), Some(roles + more)) == RenderChildren
  {
  }
}
