/**
 * The client hook that resolves the signed-in user's role (hooks/use-role.ts): two
 * pieces of component state, `role` and `loading`, set by `fetchRole`, and three
 * flags derived from `role`.
 */
module UseRole {
  import opened Wrappers
  import opened Roles

  /** The three derived flags. */
  datatype RoleFlags = RoleFlags(isAdmin: bool, isDataEntry: bool, isViewer: bool)

  /**
   * The flags for a role, or for no role yet. Admin implies write access, the viewer
   * flag excludes the other two, and a resolved role sets exactly one of write access
   * and viewer.
   */
  function Flags(role: Option<AppRole>): (f: RoleFlags)
    ensures f.isAdmin ==> f.isDataEntry
    ensures !(f.isViewer && f.isDataEntry) && !(f.isViewer && f.isAdmin)
    ensures role.None? ==> f == RoleFlags(false, false, false)
    ensures role.Some? ==> f.isDataEntry != f.isViewer
  {
    match role
    case None => RoleFlags(false, false, false)
    case Some(r) => RoleFlags(r == Admin, r == DataEntry || r == Admin, r == Viewer)
  }

  /** Each flag against the role it stands for. */
  lemma FlagsMeaning(role: Option<AppRole>)
    ensures Flags(role).isAdmin <==> role == Some(Admin)
    ensures Flags(role).isDataEntry <==> role == Some(Admin) || role == Some(DataEntry)
    ensures Flags(role).isViewer <==> role == Some(Viewer)
  {
  }

  /** What the hook returns. */
  datatype HookValue = HookValue(role: Option<AppRole>, flags: RoleFlags, loading: bool)

  class RoleState {
    var role: Option<AppRole>
    var loading: bool

    /** No role and still loading until `fetchRole` finishes. */
    constructor()
      ensures role == None && loading
    {
      role := None;
      loading := true;
    }

    function Value(): (v: HookValue)
      reads this
      ensures v.role == role && v.loading == loading
      ensures v.flags == Flags(role)
      ensures v.flags.isAdmin ==> v.flags.isDataEntry
    {
      HookValue(role, Flags(role), loading)
    }

    /**
     * `fetchRole`: no role when nobody is signed in; otherwise the stored role, or
     * viewer when the profile query fails or finds nothing. Loading ends on every path.
     */
    method FetchRole(user: Option<SessionUser>, roles: map<string, AppRole>, lookupFails: bool)
      modifies this
      ensures !loading
      ensures user.None? ==> role == None
      ensures user.Some? ==> role == Some(ProfileRole(roles, user.value.id, lookupFails))
    {
      if user.None? {
        role := None;
        loading := false;
        return;
      }
      if !lookupFails && user.value.id in roles {
        role := Some(roles[user.value.id]);
      } else {
        role := Some(Viewer);
      }
      loading := false;
    }
  }

  /** Signed out: no role, no flag, and loading over. */
  method ResolveSignedOut(roles: map<string, AppRole>, lookupFails: bool) returns (v: HookValue)
    ensures v == HookValue(None, RoleFlags(false, false, false), false)
  {
    var state := new RoleState();
    state.FetchRole(None, roles, lookupFails);
    v := state.Value();
  }

  /** A failed profile query resolves to the viewer role: read access only. */
  method ResolveAfterLookupError(user: SessionUser, roles: map<string, AppRole>) returns (v: HookValue)
    ensures v == HookValue(Some(Viewer), RoleFlags(false, false, true), false)
  {
    var state := new RoleState();
    state.FetchRole(Some(user), roles, true);
    v := state.Value();
  }

  /** A signed-in user's flags follow the stored role exactly. */
  method ResolveStoredRole(user: SessionUser, roles: map<string, AppRole>) returns (v: HookValue)
    requires user.id in roles
    ensures v.role == Some(roles[user.id]) && !v.loading
    ensures v.flags.isAdmin <==> roles[user.id] == Admin
    ensures v.flags.isDataEntry <==> roles[user.id] != Viewer
  {
    var state := new RoleState();
    state.FetchRole(Some(user), roles, false);
    v := state.Value();
  }
}
