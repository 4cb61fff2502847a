/**
 * The administration actions on user accounts (lib/actions/users.ts). Both actions
 * first require a signed-in caller whose profile role is admin. `fetchManagedUsers`
 * merges the profiles with the auth service's user list; `createManagedUser` creates
 * an auth user, gives its profile the requested role, removes the user again when that
 * fails, and records the creation in the user audit log.
 */
module Users {
  import opened Wrappers
  import opened Text
  import opened Roles

  const UnauthorizedMessage: string := "Unauthorized"
  const ForbiddenMessage: string := "Forbidden: Admin access only"
  const ProfilesErrorPrefix: string := "Failed to fetch profiles: "
  const AuthUsersErrorPrefix: string := "Failed to fetch auth users: "
  const NoUserMessage: string := "Failed to create user object"
  const ProfileSetupPrefix: string := "Profile setup failed: "
  const UserCreatedAction: string := "user_created"

  /**
   * The check that opens both actions: a caller must be signed in, and the role that
   * `getProfileRole` finds for them must be admin.
   */
  function RequireAdmin(caller: Option<SessionUser>, roles: map<string, AppRole>, lookupFails: bool)
    : (r: Result<SessionUser, string>)
    ensures r.Success? <==> caller.Some? && !lookupFails && caller.value.id in roles && roles[caller.value.id] == Admin
    ensures r.Success? ==> r.value == caller.value
    ensures caller.None? ==> r == Failure(UnauthorizedMessage)
    ensures caller.Some? && r.Failure? ==> r == Failure(ForbiddenMessage)
  {
    AdminOnlyFromProfile(roles, if caller.Some? then caller.value.id else "", lookupFails);
    if caller.None? then Failure(UnauthorizedMessage)
    else if ProfileRole(roles, caller.value.id, lookupFails) != Admin then Failure(ForbiddenMessage)
    else Success(caller.value)
  }

  /** A signed-in caller without a profile row is refused: the look-up falls back to viewer. */
  lemma MissingProfileForbidden(caller: SessionUser, roles: map<string, AppRole>, lookupFails: bool)
    requires caller.id !in roles
    ensures RequireAdmin(Some(caller), roles, lookupFails) == Failure(ForbiddenMessage)
  {
  }

  // ---------------------------------------------------------------------------
  // fetchManagedUsers

  /** A row of the `profiles` table. */
  datatype Profile = Profile(id: string, role: AppRole, fullName: Option<string>,
                             createdAt: Option<string>, createdBy: Option<string>)

  /** A user as the auth service lists it. */
  datatype AuthUser = AuthUser(id: string, email: Option<string>, createdAt: Option<string>,
                               lastSignInAt: Option<string>)

  datatype UserStatus = Active | Invited

  datatype ManagedUser = ManagedUser(id: string, email: Option<string>, role: AppRole,
                                     fullName: Option<string>, createdAt: string, status: UserStatus)

  /** The index of the first user with the id, or the length of the list when none has it. */
  function FindIndex(users: seq<AuthUser>, id: string): (k: nat)
    ensures k <= |users|
    ensures k < |users| ==> users[k].id == id
    ensures forall j :: 0 <= j < k ==> users[j].id != id
  {
    if |users| == 0 then 0
    else if users[0].id == id then 0
    else 1 + FindIndex(users[1..], id)
  }

  /** `authUsers.find((u) => u.id === id)` */
  function Find(users: seq<AuthUser>, id: string): (r: Option<AuthUser>)
    ensures r.None? <==> forall u :: u in users ==> u.id != id
    ensures r.Some? ==> r.value in users && r.value.id == id
  {
    var k := FindIndex(users, id);
    if k < |users| then Some(users[k]) else None
  }

  /** The found user is the first one with the id. */
  lemma FindFirst(users: seq<AuthUser>, id: string, k: nat)
    requires k < |users| && users[k].id == id
    requires forall j :: 0 <= j < k ==> users[j].id != id
    ensures Find(users, id) == Some(users[k])
  {
    var i := FindIndex(users, id);
    if i < k {
      assert users[i].id == id;
    }
  }

  /** One entry of the merged list, for the profile `p`; `now` is the current time as ISO text. */
  function MergeUser(p: Profile, authUsers: seq<AuthUser>, now: string): (u: ManagedUser)
    ensures u.id == p.id && u.role == p.role && u.fullName == p.fullName
    ensures Truthy(p.createdAt) ==> u.createdAt == p.createdAt.value
  {
    var a := Find(authUsers, p.id);
    ManagedUser(
      p.id,
      if a.Some? then a.value.email else None,
      p.role,
      p.fullName,
      if Truthy(p.createdAt) then p.createdAt.value
      else if a.Some? && Truthy(a.value.createdAt) then a.value.createdAt.value
      else now,
      if a.Some? && Truthy(a.value.lastSignInAt) then Active else Invited)
  }

  /**
   * With `authUsers[k]` the first auth user carrying the profile's id: the email comes
   * from it, the status is active exactly when it has signed in, and its creation time
   * stands in for a missing one in the profile.
   */
  lemma MergeWithMatch(p: Profile, authUsers: seq<AuthUser>, now: string, k: nat)
    requires k < |authUsers| && authUsers[k].id == p.id
    requires forall j :: 0 <= j < k ==> authUsers[j].id != p.id
    ensures MergeUser(p, authUsers, now).email == authUsers[k].email
    ensures MergeUser(p, authUsers, now).status == Active <==> Truthy(authUsers[k].lastSignInAt)
    ensures !Truthy(p.createdAt) && Truthy(authUsers[k].createdAt)
        ==> MergeUser(p, authUsers, now).createdAt == authUsers[k].createdAt.value
    ensures !Truthy(p.createdAt) && !Truthy(authUsers[k].createdAt) ==> MergeUser(p, authUsers, now).createdAt == now
  {
    FindFirst(authUsers, p.id, k);
  }

  /** A profile with no auth user is invited, has no email, and falls back to `now` for its creation time. */
  lemma MergeWithoutMatch(p: Profile, authUsers: seq<AuthUser>, now: string)
    requires forall u :: u in authUsers ==> u.id != p.id
    ensures MergeUser(p, authUsers, now).status == Invited
    ensures MergeUser(p, authUsers, now).email == None
    ensures MergeUser(p, authUsers, now).createdAt == if Truthy(p.createdAt) then p.createdAt.value else now
  {
  }

  /** Later auth users with the same id do not change the merge once a first one exists. */
  lemma LaterDuplicatesIgnored(p: Profile, authUsers: seq<AuthUser>, extra: seq<AuthUser>, now: string)
    requires exists u :: u in authUsers && u.id == p.id
    ensures MergeUser(p, authUsers + extra, now) == MergeUser(p, authUsers, now)
  {
    assert Find(authUsers, p.id).Some?;
    var k := FindIndex(authUsers, p.id);
    assert (authUsers + extra)[k] == authUsers[k];
    FindFirst(authUsers + extra, p.id, k);
  }

  /** `profiles.map(...)`: one entry per profile, in the profiles' order. */
  function MergeUsers(profiles: seq<Profile>, authUsers: seq<AuthUser>, now: string): (r: seq<ManagedUser>)
    ensures |r| == |profiles|
    ensures forall i :: 0 <= i < |r| ==>
              r[i].id == profiles[i].id && r[i].role == profiles[i].role && r[i].fullName == profiles[i].fullName
    ensures forall i :: 0 <= i < |r| ==> r[i] == MergeUser(profiles[i], authUsers, now)
  {
    seq(|profiles|, i requires 0 <= i < |profiles| => MergeUser(profiles[i], authUsers, now))
  }

  /**
   * `fetchManagedUsers`: the admin check, then the profiles query, then the auth user
   * list; the first failure ends the action with its message.
   */
  function FetchManagedUsers(caller: Option<SessionUser>, roles: map<string, AppRole>, lookupFails: bool,
                             profiles: Result<seq<Profile>, string>, authUsers: Result<seq<AuthUser>, string>,
                             now: string): (r: Result<seq<ManagedUser>, string>)
    ensures r.Success? <==> RequireAdmin(caller, roles, lookupFails).Success? && profiles.Success? && authUsers.Success?
    ensures RequireAdmin(caller, roles, lookupFails).Failure? ==> r == Failure(RequireAdmin(caller, roles, lookupFails).error)
    ensures RequireAdmin(caller, roles, lookupFails).Success? && profiles.Failure?
        ==> r == Failure(ProfilesErrorPrefix + profiles.error)
    ensures RequireAdmin(caller, roles, lookupFails).Success? && profiles.Success? && authUsers.Failure?
        ==> r == Failure(AuthUsersErrorPrefix + authUsers.error)
    ensures r.Success? ==> |r.value| == |profiles.value|
                           && forall i :: 0 <= i < |r.value| ==> r.value[i] == MergeUser(profiles.value[i], authUsers.value, now)
  {
    var auth := RequireAdmin(caller, roles, lookupFails);
    if auth.Failure? then Failure(auth.error)
    else if profiles.Failure? then Failure(ProfilesErrorPrefix + profiles.error)
    else if authUsers.Failure? then Failure(AuthUsersErrorPrefix + authUsers.error)
    else Success(MergeUsers(profiles.value, authUsers.value, now))
  }

  /** A listed user is active only if some auth user with its id has signed in. */
  lemma ActiveHasSignedIn(profiles: seq<Profile>, authUsers: seq<AuthUser>, now: string, i: nat)
    requires i < |profiles|
    requires MergeUsers(profiles, authUsers, now)[i].status == Active
    ensures exists u :: u in authUsers && u.id == profiles[i].id && Truthy(u.lastSignInAt)
  {
    var a := Find(authUsers, profiles[i].id);
    assert a.Some? && a.value in authUsers;
  }

  // ---------------------------------------------------------------------------
  // createManagedUser

  /**
   * The password generated when none is given: a random base-36 part, "!", and a second
   * random part in capitals. The two random parts are parameters.
   */
  function GeneratedPassword(r1: string, r2: string): (p: string)
    ensures |p| == |r1| + 1 + |r2| && p[|r1|] == '!'
    ensures p[..|r1|] == r1 && p[|r1| + 1..] == ToUpper(r2)
    ensures forall i :: |r1| < i < |p| ==> !IsLower(p[i])
  {
    r1 + "!" + ToUpper(r2)
  }

  /** `data.password || generated`: the given password unless it is missing or empty. */
  function ChoosePassword(given: Option<string>, r1: string, r2: string): (p: string)
    ensures p != ""
    ensures Truthy(given) ==> p == given.value
    ensures !Truthy(given) ==> p == GeneratedPassword(r1, r2)
  {
    if Truthy(given) then given.value else GeneratedPassword(r1, r2)
  }

  /** An account of the auth service. */
  datatype Account = Account(id: string, email: string, password: string, fullName: string, emailConfirmed: bool)

  /** A row of the `user_audit` table. */
  datatype UserAuditEntry = UserAuditEntry(adminId: string, targetUserId: string, action: string,
                                           email: string, role: AppRole, createdByName: Option<string>)

  datatype Credentials = Credentials(email: string, password: string)

  /** What the auth service answers to `createUser`: the new id, an error, or no user. */
  datatype CreateReply = NewUser(id: string) | CreateError(message: string) | NoUser

  /**
   * The auth accounts, the profiles and the user audit log. Every account has exactly
   * one profile, created with it by the backend's trigger and removed with it.
   */
  class AccountStore {
    var accounts: map<string, Account>
    var profiles: map<string, Profile>
    var userAudit: seq<UserAuditEntry>

    ghost predicate Valid()
      reads this
    {
      accounts.Keys == profiles.Keys
      && (forall id :: id in accounts ==> accounts[id].id == id)
      && (forall id :: id in profiles ==> profiles[id].id == id)
    }

    /** The `profiles.role` column that `getProfileRole` reads. */
    function RoleTable(): (t: map<string, AppRole>)
      reads this
      ensures t.Keys == profiles.Keys
      ensures forall id :: id in t ==> t[id] == profiles[id].role
    {
      map id | id in profiles :: profiles[id].role
    }

    constructor()
      ensures Valid()
      ensures accounts == map[] && profiles == map[] && userAudit == []
    {
      accounts := map[];
      profiles := map[];
      userAudit := [];
    }

    /** `auth.admin.createUser` together with the trigger that gives the new user a profile. */
    method CreateAuthUser(account: Account, profile: Profile)
      requires Valid() && account.id !in accounts && profile.id == account.id
      modifies this
      ensures Valid()
      ensures accounts == old(accounts)[account.id := account] && profiles == old(profiles)[account.id := profile]
      ensures userAudit == old(userAudit)
    {
      accounts := accounts[account.id := account];
      profiles := profiles[account.id := profile];
    }

    /** `auth.admin.deleteUser`: the account goes, and its profile with it (the delete cascades). */
    method DeleteAuthUser(id: string)
      requires Valid()
      modifies this
      ensures Valid()
      ensures accounts == old(accounts) - {id} && profiles == old(profiles) - {id}
      ensures userAudit == old(userAudit)
    {
      accounts := accounts - {id};
      profiles := profiles - {id};
    }

    /** The profile update: role, full name and creator; the rest of the row is kept. */
    method SetUpProfile(id: string, role: AppRole, fullName: string, createdBy: string)
      requires Valid() && id in profiles
      modifies this
      ensures Valid()
      ensures profiles == old(profiles)[id := old(profiles[id]).(role := role, fullName := Some(fullName),
                                                                   createdBy := Some(createdBy))]
      ensures accounts == old(accounts) && userAudit == old(userAudit)
    {
      profiles := profiles[id := profiles[id].(role := role, fullName := Some(fullName), createdBy := Some(createdBy))];
    }

    /**
     * `createManagedUser`. `lookupFails` is a failure of the caller's role look-up;
     * `r1` and `r2` are the random parts of a generated password; `reply` is the auth
     * service's answer, whose id is fresh; `triggerRole` and `now` are what the trigger
     * writes into the new profile; `updateFault` is a failure of the profile update,
     * `deleteFails` a failure of the clean-up after it, and `auditFails` a failure of
     * the audit insert, which the action ignores.
     */
    method CreateManagedUser(caller: Option<SessionUser>, lookupFails: bool,
                             email: string, role: AppRole, fullName: string, password: Option<string>,
                             r1: string, r2: string, reply: CreateReply, triggerRole: AppRole, now: string,
                             updateFault: Option<string>, deleteFails: bool, auditFails: bool)
      returns (r: Result<Credentials, string>)
      requires Valid()
      requires reply.NewUser? ==> reply.id !in accounts
      modifies this
      ensures Valid()
      ensures r.Success? <==> RequireAdmin(caller, old(RoleTable()), lookupFails).Success?
                              && reply.NewUser? && updateFault.None?
      ensures RequireAdmin(caller, old(RoleTable()), lookupFails).Failure?
          ==> r == Failure(RequireAdmin(caller, old(RoleTable()), lookupFails).error)
      ensures RequireAdmin(caller, old(RoleTable()), lookupFails).Success? ==>
        match reply
        case CreateError(message) => r == Failure(message)
        case NoUser => r == Failure(NoUserMessage)
        case NewUser(_) => updateFault.Some? ==> r == Failure(ProfileSetupPrefix + updateFault.value)
      ensures r.Success? ==>
        r.value == Credentials(email, ChoosePassword(password, r1, r2))
        && accounts == old(accounts)[reply.id := Account(reply.id, email, r.value.password, fullName, true)]
        && profiles == old(profiles)[reply.id := Profile(reply.id, role, Some(fullName), Some(now), Some(caller.value.id))]
        && userAudit == old(userAudit)
           + (if auditFails then []
              else [UserAuditEntry(caller.value.id, reply.id, UserCreatedAction, email, role, caller.value.email)])
      ensures r.Success? ==> ProfileRole(RoleTable(), reply.id, false) == role
      // The clean-up: a failed action leaves no new account behind, unless deleting it failed too.
      ensures r.Failure? && !(reply.NewUser? && updateFault.Some? && deleteFails)
          ==> accounts == old(accounts) && profiles == old(profiles)
      ensures r.Failure? ==> userAudit == old(userAudit)
      ensures RequireAdmin(caller, old(RoleTable()), lookupFails).Success?
              && reply.NewUser? && updateFault.Some? && deleteFails
          ==> accounts.Keys == old(accounts.Keys) + {reply.id}
    {
      var auth := RequireAdmin(caller, RoleTable(), lookupFails);
      if auth.Failure? {
        return Failure(auth.error);
      }
      var admin := auth.value;
      var pw := ChoosePassword(password, r1, r2);
      match reply
      case CreateError(message) =>
        return Failure(message);
      case NoUser =>
        return Failure(NoUserMessage);
      case NewUser(id) =>
        CreateAuthUser(Account(id, email, pw, fullName, true), Profile(id, triggerRole, None, Some(now), None));
        if updateFault.Some? {
          if !deleteFails {
            DeleteAuthUser(id);
            AddThenRemove(old(accounts), id, Account(id, email, pw, fullName, true));
            AddThenRemove(old(profiles), id, Profile(id, triggerRole, None, Some(now), None));
          }
          return Failure(ProfileSetupPrefix + updateFault.value);
        }
        SetUpProfile(id, role, fullName, admin.id);
        if !auditFails {
          userAudit := userAudit + [UserAuditEntry(admin.id, id, UserCreatedAction, email, role, admin.email)];
        }
        r := Success(Credentials(email, pw));
    }
  }

  lemma AddThenRemove<K, V>(m: map<K, V>, k: K, v: V)
    requires k !in m
    ensures m[k := v] - {k} == m
  {
  }

  /** The credentials shown after creating a user with a chosen password are that password. */
  lemma ChosenPasswordEchoed(given: string, r1: string, r2: string)
    requires given != ""
    ensures ChoosePassword(Some(given), r1, r2) == given
  {
  }
}
