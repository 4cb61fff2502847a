/**
 * Roles and the role look-up shared by the server-side guards, the user actions and
 * the client hook (types/app.ts, lib/supabase/server.ts). The `profiles` table is a
 * map from user id to the stored role; a failing query is a flag.
 */
module Roles {
  import opened Wrappers

  datatype AppRole = Admin | DataEntry | Viewer {
    /** The role's text in the `profiles.role` column. */
    function Name(): (s: string)
      ensures s != []
    {
      match this
      case Admin => "admin"
      case DataEntry => "data_entry"
      case Viewer => "viewer"
    }
  }

  lemma NameInjective(a: AppRole, b: AppRole)
    ensures a.Name() == b.Name() <==> a == b
  {
  }

  /** The signed-in user as the auth service reports it. */
  datatype SessionUser = SessionUser(id: string, email: Option<string>)

  /**
   * `getProfileRole`: the role stored in the user's profile; "viewer" when the query
   * fails or finds no profile.
   */
  function ProfileRole(roles: map<string, AppRole>, userId: string, lookupFails: bool): (r: AppRole)
    ensures lookupFails || userId !in roles ==> r == Viewer
    ensures !lookupFails && userId in roles ==> r == roles[userId]
  {
    if lookupFails || userId !in roles then Viewer else roles[userId]
  }

  /** The look-up grants admin only to a user whose stored profile says admin. */
  lemma AdminOnlyFromProfile(roles: map<string, AppRole>, userId: string, lookupFails: bool)
    ensures ProfileRole(roles, userId, lookupFails) == Admin
        <==> !lookupFails && userId in roles && roles[userId] == Admin
  {
  }

  /** A failed or empty look-up never yields more than the least privileged role. */
  lemma FailureIsViewer(roles: map<string, AppRole>, userId: string)
    ensures ProfileRole(roles, userId, true) == Viewer
    ensures ProfileRole(roles - {userId}, userId, false) == Viewer
  {
  }
}
