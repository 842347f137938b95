/** The route guard: while the session is loading it shows a loading view,
    without a signed-in user it redirects to the login page, with a role
    outside the allowed list it redirects to the unauthorized page, and
    otherwise it renders the protected page. */
module AuthGuard {
  import opened Common
  import opened Store

  datatype View = Loading | RedirectLogin | RedirectUnauthorized | RenderChildren

  /** The signed-in user as the session hook gives it; its role may be
      absent, since the hook's mapping sets only the id and the email. */
  datatype SessionUser = SessionUser(id: string, role: Option<Role>)

  /** The role list holds the user's role; a user without a role is in no
      list. */
  predicate Admitted(u: SessionUser, roles: seq<Role>)
  {
    u.role.Some? && u.role.value in roles
  }

  /** The guard's decision. `allowedRoles` is `None` when the route gives no
      list; a given list, even an empty one, is checked. */
  function Guard(isLoading: bool, user: Option<SessionUser>, allowedRoles: Option<seq<Role>>): (v: View)
    ensures isLoading ==> v == Loading
    ensures !isLoading && user.None? ==> v == RedirectLogin
    ensures v == RedirectUnauthorized <==>
              !isLoading && user.Some? && allowedRoles.Some? && !Admitted(user.value, allowedRoles.value)
    ensures v == RenderChildren <==>
              !isLoading && user.Some? && (allowedRoles.None? || Admitted(user.value, allowedRoles.value))
  {
    if isLoading then Loading
    else if user.None? then RedirectLogin
    else if allowedRoles.Some? && !Admitted(user.value, allowedRoles.value) then RedirectUnauthorized
    else RenderChildren
  }

  /** Every route of the application wraps its page without a role list, so
      any signed-in user, with or without a role, reaches every page once
      loading ends. */
  lemma NoRoleListAdmitsEveryone(user: SessionUser)
    ensures Guard(false, Some(user), None) == RenderChildren
    ensures Guard(true, Some(user), None) == Loading
    ensures Guard(false, None, None) == RedirectLogin
  {
  }

  /** An empty role list is present, so it turns every signed-in user away. */
  lemma EmptyRoleListAdmitsNoOne(user: SessionUser)
    ensures Guard(false, Some(user), Some([])) == RedirectUnauthorized
  {
  }

  /** A signed-in user whose role is not known yet is turned away by every
      role list, even one naming all three roles. */
  lemma RolelessUserTurnedAway(id: string, roles: seq<Role>)
    ensures Guard(false, Some(SessionUser(id, None)), Some(roles)) == RedirectUnauthorized
  {
  }

  /** Widening the role list never takes access away. */
  lemma WiderListKeepsAccess(user: Option<SessionUser>, narrow: seq<Role>, wide: seq<Role>)
    requires forall r :: r in narrow ==> r in wide
    ensures Guard(false, user, Some(narrow)) == RenderChildren ==> Guard(false, user, Some(wide)) == RenderChildren
  {
  }

  /** The decision depends on the user only through their presence and role. */
  lemma OnlyRoleMatters(a: SessionUser, b: SessionUser, isLoading: bool, allowedRoles: Option<seq<Role>>)
    requires a.role == b.role
    ensures Guard(isLoading, Some(a), allowedRoles) == Guard(isLoading, Some(b), allowedRoles)
  {
  }
}
