/**
 * The server-side guards around pages and actions (lib/auth/role-guards.tsx): send a
 * visitor without a session to the login page, send a user whose role is not allowed
 * to the fallback path, and otherwise render the guarded content.
 */
module RoleGuards {
  import opened Wrappers
  import opened Roles
  import opened UseRole

  const LoginPath: string := "/login"
  const DefaultFallbackPath: string := "/"

  datatype GuardOutcome = Redirect(path: string) | RenderChildren

  /**
   * `RoleGuard`. The role is the one `getProfileRole` finds for the user; an omitted
   * `fallbackPath` is "/".
   */
  function RoleGuard(user: Option<SessionUser>, roles: map<string, AppRole>, lookupFails: bool,
                     allowedRoles: seq<AppRole>, fallbackPath: Option<string>): (o: GuardOutcome)
    ensures user.None? ==> o == Redirect(LoginPath)
    ensures user.Some? ==> (o == RenderChildren <==> ProfileRole(roles, user.value.id, lookupFails) in allowedRoles)
    ensures user.Some? && o.Redirect? ==> o.path == if fallbackPath.Some? then fallbackPath.value else DefaultFallbackPath
  {
    if user.None? then Redirect(LoginPath)
    else if ProfileRole(roles, user.value.id, lookupFails) !in allowedRoles then
      Redirect(if fallbackPath.Some? then fallbackPath.value else DefaultFallbackPath)
    else RenderChildren
  }

  /** `AdminOnly`: the guard allowing the admin role only, with the default fallback. */
  function AdminOnly(user: Option<SessionUser>, roles: map<string, AppRole>, lookupFails: bool): (o: GuardOutcome)
    ensures user.None? ==> o == Redirect(LoginPath)
    ensures user.Some? ==> (o == RenderChildren <==> ProfileRole(roles, user.value.id, lookupFails) == Admin)
  {
    RoleGuard(user, roles, lookupFails, [Admin], None)
  }

  /** `WriteAccess`: the guard allowing admins and data-entry users, with the default fallback. */
  function WriteAccess(user: Option<SessionUser>, roles: map<string, AppRole>, lookupFails: bool): (o: GuardOutcome)
    ensures user.None? ==> o == Redirect(LoginPath)
    ensures user.Some? ==> (o == RenderChildren <==> ProfileRole(roles, user.value.id, lookupFails) in {Admin, DataEntry})
  {
    RoleGuard(user, roles, lookupFails, [Admin, DataEntry], None)
  }

  /** An empty list of allowed roles turns every signed-in user away. */
  lemma NoRolesAdmitsNobody(user: SessionUser, roles: map<string, AppRole>, lookupFails: bool, fallbackPath: Option<string>)
    ensures RoleGuard(Some(user), roles, lookupFails, [], fallbackPath).Redirect?
  {
  }

  /** `AdminOnly` renders for exactly the users whose stored profile role is admin. */
  lemma AdminOnlyAdmits(user: Option<SessionUser>, roles: map<string, AppRole>, lookupFails: bool)
    ensures AdminOnly(user, roles, lookupFails) == RenderChildren
        <==> user.Some? && !lookupFails && user.value.id in roles && roles[user.value.id] == Admin
    ensures user.Some? && AdminOnly(user, roles, lookupFails) != RenderChildren
        ==> AdminOnly(user, roles, lookupFails) == Redirect(DefaultFallbackPath)
  {
    if user.Some? {
      AdminOnlyFromProfile(roles, user.value.id, lookupFails);
    }
  }

  /** `WriteAccess` renders for admins and data-entry users and sends viewers to "/". */
  lemma WriteAccessAdmits(user: Option<SessionUser>, roles: map<string, AppRole>, lookupFails: bool)
    ensures WriteAccess(user, roles, lookupFails) == RenderChildren
        <==> user.Some? && ProfileRole(roles, user.value.id, lookupFails) != Viewer
    ensures user.Some? && ProfileRole(roles, user.value.id, lookupFails) == Viewer
        ==> WriteAccess(user, roles, lookupFails) == Redirect(DefaultFallbackPath)
  {
  }

  /** A failed role look-up keeps a signed-in user out of both guards. */
  lemma LookupFailureDenies(user: SessionUser, roles: map<string, AppRole>)
    ensures AdminOnly(Some(user), roles, true) == Redirect(DefaultFallbackPath)
    ensures WriteAccess(Some(user), roles, true) == Redirect(DefaultFallbackPath)
  {
  }

  /** Whatever `AdminOnly` lets through, `WriteAccess` lets through too. */
  lemma AdminOnlyNarrower(user: Option<SessionUser>, roles: map<string, AppRole>, lookupFails: bool)
    ensures AdminOnly(user, roles, lookupFails) == RenderChildren ==> WriteAccess(user, roles, lookupFails) == RenderChildren
  {
  }

  /**
   * The server guards and the client hook agree: for a signed-in user, resolved with the
   * same profile data, `AdminOnly` renders iff `isAdmin` and `WriteAccess` iff `isDataEntry`.
   */
  lemma GuardsAgreeWithFlags(user: SessionUser, roles: map<string, AppRole>, lookupFails: bool)
    ensures AdminOnly(Some(user), roles, lookupFails) == RenderChildren
        <==> Flags(Some(ProfileRole(roles, user.id, lookupFails))).isAdmin
    ensures WriteAccess(Some(user), roles, lookupFails) == RenderChildren
        <==> Flags(Some(ProfileRole(roles, user.id, lookupFails))).isDataEntry
  {
    FlagsMeaning(Some(ProfileRole(roles, user.id, lookupFails)));
  }
}
