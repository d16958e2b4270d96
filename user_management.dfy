/** The user management panel's `fetchUsers`: profiles (scoped to the
    viewer's institution for admins and supervisors) joined with their role
    from `user_roles`, defaulting to `user`, then filtered by what the viewer
    may manage; and the predicate that shows the edit and delete controls. */
module UserManagement {
  import opened Common
  import opened Tables

  /** A query's answer: its rows, or its error message. */
  datatype Query<T> = Rows(rows: seq<T>) | QueryError(message: string)

  datatype UserWithRole = UserWithRole(profile: Profile, role: Role)

  /** The panel's answer: the users to show, or the message of the error toast. */
  datatype Fetched = Fetched(users: seq<UserWithRole>) | Failed(message: string)

  /** `new Map(roles.map(r => [r.user_id, r.role]))`: entries are set in order, so a later one overwrites. */
  function RoleMap(roles: seq<UserRoleRow>): (m: map<string, Role>)
    ensures forall uid :: uid in m <==> exists i :: 0 <= i < |roles| && roles[i].userId == uid
    decreases |roles|
  {
    if roles == [] then map[]
    else
      var last := roles[|roles| - 1];
      RoleMap(roles[..|roles| - 1])[last.userId := last.role]
  }

  /** For duplicate user ids the last entry wins. */
  lemma {:induction false} LastEntryWins(roles: seq<UserRoleRow>, i: nat)
    requires i < |roles|
    requires forall j :: i < j < |roles| ==> roles[j].userId != roles[i].userId
    ensures roles[i].userId in RoleMap(roles) && RoleMap(roles)[roles[i].userId] == roles[i].role
    decreases |roles|
  {
    if i < |roles| - 1 {
      var init := roles[..|roles| - 1];
      LastEntryWins(init, i);
      assert init[i] == roles[i];
    }
  }

  /** `rolesMap.get(p.id) || 'user'`. */
  function EffectiveRole(m: map<string, Role>, id: string): Role {
    if id in m then m[id] else User
  }

  function Join(profiles: seq<Profile>, m: map<string, Role>): (r: seq<UserWithRole>)
    ensures |r| == |profiles|
    ensures forall i :: 0 <= i < |profiles| ==> r[i] == UserWithRole(profiles[i], EffectiveRole(m, profiles[i].id))
  {
    seq(|profiles|, i requires 0 <= i < |profiles| => UserWithRole(profiles[i], EffectiveRole(m, profiles[i].id)))
  }

  /** A profile without a role row is shown as a `user`. */
  lemma NoRoleRowMeansUser(roles: seq<UserRoleRow>, id: string)
    requires forall i :: 0 <= i < |roles| ==> roles[i].userId != id
    ensures EffectiveRole(RoleMap(roles), id) == User
  {
  }

  /** Whether the profiles query is restricted to the viewer's institution. */
  predicate Scoped(isAdmin: bool, isSupervisor: bool, institution: Option<string>) {
    (isAdmin || isSupervisor) && institution.Some? && institution.value != ""
  }

  function ScopeProfiles(profiles: seq<Profile>, isAdmin: bool, isSupervisor: bool, institution: Option<string>): (r: seq<Profile>)
    ensures Scoped(isAdmin, isSupervisor, institution) ==>
              forall p :: p in r <==> p in profiles && p.institutionId == institution
    ensures !Scoped(isAdmin, isSupervisor, institution) ==> r == profiles
  {
    if Scoped(isAdmin, isSupervisor, institution) then Filter(profiles, (p: Profile) => p.institutionId == institution)
    else profiles
  }

  function ViewerFilter(users: seq<UserWithRole>, isAdmin: bool, isSupervisor: bool): (r: seq<UserWithRole>)
    ensures isAdmin ==> forall u :: u in r <==> u in users && u.role == User
    ensures !isAdmin && isSupervisor ==> forall u :: u in r <==> u in users && u.role == Admin
    ensures !isAdmin && !isSupervisor ==> r == users
  {
    if isAdmin then Filter(users, (u: UserWithRole) => u.role == User)
    else if isSupervisor then Filter(users, (u: UserWithRole) => u.role == Admin)
    else users
  }

  function FetchUsers(profiles: Query<Profile>, roles: Query<UserRoleRow>,
                      isAdmin: bool, isSupervisor: bool, institution: Option<string>): (r: Fetched)
    // The profiles query's error is reported first, then the roles query's.
    ensures profiles.QueryError? ==> r == Failed(profiles.message)
    ensures profiles.Rows? && roles.QueryError? ==> r == Failed(roles.message)
    ensures r.Fetched? <==> profiles.Rows? && roles.Rows?
    ensures r.Fetched? ==>
              && (forall u :: u in r.users ==>
                    u.profile in profiles.rows && u.role == EffectiveRole(RoleMap(roles.rows), u.profile.id))
              && (Scoped(isAdmin, isSupervisor, institution) ==>
                    forall u :: u in r.users ==> u.profile.institutionId == institution)
              && (isAdmin ==> forall u :: u in r.users ==> u.role == User)
              && (!isAdmin && isSupervisor ==> forall u :: u in r.users ==> u.role == Admin)
              && (!isAdmin && !isSupervisor ==> r.users == Join(profiles.rows, RoleMap(roles.rows)))
  {
    match profiles
    case QueryError(message) => Failed(message)
    case Rows(ps) =>
      match roles
      case QueryError(message) => Failed(message)
      case Rows(rs) =>
        var joined := Join(ScopeProfiles(ps, isAdmin, isSupervisor, institution), RoleMap(rs));
        Fetched(ViewerFilter(joined, isAdmin, isSupervisor))
  }

  /** The listed users are an order-preserving subsequence of the joined profiles. */
  lemma ViewerFilterKeepsOrder(joined: seq<UserWithRole>, isAdmin: bool, isSupervisor: bool)
    ensures IsSubsequence(ViewerFilter(joined, isAdmin, isSupervisor), joined)
  {
    if isAdmin {
      FilterIsSubsequence(joined, (u: UserWithRole) => u.role == User);
    } else if isSupervisor {
      FilterIsSubsequence(joined, (u: UserWithRole) => u.role == Admin);
    } else {
      SubsequenceReflexive(joined);
    }
  }

  /** The edit and delete controls: a superuser manages everyone, a supervisor admins, an admin users. */
  predicate CanEdit(isSuperuser: bool, isSupervisor: bool, isAdmin: bool, userRole: Role)
    ensures isSuperuser ==> CanEdit(isSuperuser, isSupervisor, isAdmin, userRole)
    // Below a superuser, only admins (edited by supervisors) and users (edited by admins) can be edited.
    ensures !isSuperuser && CanEdit(isSuperuser, isSupervisor, isAdmin, userRole) ==>
              (userRole == Admin && isSupervisor) || (userRole == User && isAdmin)
    ensures !isSuperuser && !isSupervisor && !isAdmin ==> !CanEdit(isSuperuser, isSupervisor, isAdmin, userRole)
  {
    isSuperuser || (isSupervisor && userRole == Admin) || (isAdmin && userRole == User)
  }

  /** Every user the panel lists to an admin or a supervisor shows the edit controls. */
  lemma ListedUsersAreEditable(ps: seq<Profile>, rs: seq<UserRoleRow>, isSuperuser: bool, isAdmin: bool,
                               isSupervisor: bool, institution: Option<string>)
    requires isAdmin || isSupervisor
    ensures forall u :: u in FetchUsers(Rows(ps), Rows(rs), isAdmin, isSupervisor, institution).users ==>
              CanEdit(isSuperuser, isSupervisor, isAdmin, u.role)
  {
  }
}
