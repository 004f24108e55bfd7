/** Users, roles and direct permissions of agent/auth/store.py, and the invariants that protect the Owner. */
module AuthRoles {
  import opened Options
  import opened AuthTables

  type Users = map<Id, User>

  datatype Delegation = Delegation(permission: Permission, enabled: bool)

  predicate NameTaken(users: Users, username: Label) {
    exists u :: u in users && users[u].username == username
  }

  predicate OwnerAssigned(users: Users) {
    exists u :: u in users && Owner in users[u].roles
  }

  // A failed INSERT leaves the table as it was.
  function InsertUser(users: Users, id: Id, user: User): (Outcome<Id>, Users) {
    if id in users || NameTaken(users, user.username) then (Err(UsernameTaken), users)
    else (Ok(id), users[id := user])
  }

  function OwnerInitialized(users: Users, id: Id, username: Label): (Outcome<Id>, Users) {
    if OwnerAssigned(users) then (Err(OwnerExists), users)
    else InsertUser(users, id, User(username, Active, {Owner}, {}))
  }

  // The checks shared by creating a user and by replacing the roles of one.
  function RoleError(roleKeys: set<RoleKey>): Option<AuthError> {
    if roleKeys == {} then Some(RoleRequired)
    else if Owner in roleKeys then Some(OwnerNotAssignable)
    else if exists r :: r in roleKeys && r.UnknownRole? then Some(UnknownRoles)
    else None
  }

  function UserCreated(users: Users, id: Id, username: Label, roleKeys: set<RoleKey>, status: Status)
    : (Outcome<Id>, Users)
  {
    if RoleError(roleKeys).Some? then (Err(RoleError(roleKeys).value), users)
    else InsertUser(users, id, User(username, status, roleKeys, {}))
  }

  // Replacing the roles takes the admin delegation away from a user who is no administrator any more.
  function WithRoles(user: User, roleKeys: set<RoleKey>): User {
    user.(roles := roleKeys, grants := if Admin in roleKeys then user.grants else user.grants - {AdminManage})
  }

  function DelegationError(user: User, permission: Permission): Option<AuthError> {
    if permission.UnknownPermission? then Some(PermissionUnknown)
    else if permission == AdminManage && Admin !in user.roles then Some(NotAdmin)
    else None
  }

  function Granted(user: User, d: Delegation): Outcome<User> {
    if DelegationError(user, d.permission).Some? then Err(DelegationError(user, d.permission).value)
    else Ok(WithGrant(user, d))
  }

  function WithGrant(user: User, d: Delegation): User {
    user.(grants := if d.enabled then user.grants + {d.permission} else user.grants - {d.permission})
  }

  // The row after the UPDATE of the status and the replacement of the roles.
  function Edited(user: User, status: Option<Status>, roleKeys: Option<set<RoleKey>>): User {
    var statusSet := if status.Some? then user.(status := status.value) else user;
    if roleKeys.Some? then WithRoles(statusSet, roleKeys.value) else statusSet
  }

  function RowUpdated(user: User, status: Option<Status>, roleKeys: Option<set<RoleKey>>,
                      delegation: Option<Delegation>): Outcome<User>
  {
    if Owner in user.roles && (status.Some? || roleKeys.Some?) then Err(OwnerProtected)
    else if roleKeys.Some? && RoleError(roleKeys.value).Some? then Err(RoleError(roleKeys.value).value)
    else if delegation.Some? then Granted(Edited(user, status, roleKeys), delegation.value)
    else Ok(Edited(user, status, roleKeys))
  }

  // One transaction: an error in any part undoes all of it.
  function Commit(users: Users, id: Id, row: Outcome<User>): (Outcome<Id>, Users) {
    if row.Ok? then (Ok(id), users[id := row.value]) else (Err(row.error), users)
  }

  function UserUpdated(users: Users, id: Id, status: Option<Status>, roleKeys: Option<set<RoleKey>>,
                       delegation: Option<Delegation>): (Outcome<Id>, Users)
  {
    if id !in users then (Err(UserNotFound), users)
    else Commit(users, id, RowUpdated(users[id], status, roleKeys, delegation))
  }

  function PermissionSet(users: Users, id: Id, d: Delegation): (Outcome<Id>, Users) {
    if id !in users then (Err(UserNotFound), users) else Commit(users, id, Granted(users[id], d))
  }

  /** `set_user_permission` looks at the user before its transaction opens: what it saw is `read`, what it writes to is
      `now`. */
  function LateGranted(read: Users, now: Users, id: Id, d: Delegation): (Outcome<Id>, Users) {
    if id !in read then (Err(UserNotFound), now)
    else if DelegationError(read[id], d.permission).Some? then (Err(DelegationError(read[id], d.permission).value), now)
    else if id in now then (Ok(id), now[id := WithGrant(now[id], d)])
    else if d.enabled then (Err(IntegrityError), now)
    else (Ok(id), now)
  }

  // ----- invariants -----

  // A user has a role; the Owner has no other and is active; only administrators hold the admin delegation.
  predicate UserSound(user: User) {
    && user.roles != {}
    && (Owner in user.roles ==> user.roles == {Owner} && user.status == Active)
    && (AdminManage in user.grants ==> Admin in user.roles)
  }

  predicate IsOwner(users: Users, id: Id) {
    id in users && Owner in users[id].roles && users[id].status == Active
  }

  predicate OwnerUnique(users: Users) {
    forall u, v :: u in users && v in users && Owner in users[u].roles && Owner in users[v].roles ==> u == v
  }

  predicate RolesSound(users: Users) {
    OwnerUnique(users) && forall u :: u in users ==> UserSound(users[u])
  }

  // No user is lost and the owner, if there is one, stays the owner.
  ghost predicate OwnerKept(before: Users, after: Users) {
    forall u :: IsOwner(before, u) ==> IsOwner(after, u)
  }

  lemma InsertSound(users: Users, id: Id, user: User)
    requires RolesSound(users) && UserSound(user) && (Owner in user.roles ==> !OwnerAssigned(users))
    ensures RolesSound(InsertUser(users, id, user).1) && OwnerKept(users, InsertUser(users, id, user).1)
  {}

  /** Initialising the owner keeps the owner unique, whenever it is called. */
  lemma InitializeSound(users: Users, id: Id, username: Label)
    requires RolesSound(users)
    ensures RolesSound(OwnerInitialized(users, id, username).1)
    ensures OwnerKept(users, OwnerInitialized(users, id, username).1)
    ensures OwnerInitialized(users, id, username).0.Ok? ==> IsOwner(OwnerInitialized(users, id, username).1, id)
    ensures OwnerInitialized(users, id, username).0 == Err(OwnerExists) <==> exists u :: IsOwner(users, u)
  {
    if OwnerAssigned(users) {
      var u :| u in users && Owner in users[u].roles;
      assert UserSound(users[u]) && IsOwner(users, u);
    } else {
      InsertSound(users, id, User(username, Active, {Owner}, {}));
    }
  }

  lemma CreateSound(users: Users, id: Id, username: Label, roleKeys: set<RoleKey>, status: Status)
    requires RolesSound(users)
    ensures RolesSound(UserCreated(users, id, username, roleKeys, status).1)
    ensures OwnerKept(users, UserCreated(users, id, username, roleKeys, status).1)
    ensures UserCreated(users, id, username, roleKeys, status).0.Ok? <==>
      && id !in users && !NameTaken(users, username)
      && roleKeys != {} && forall r :: r in roleKeys ==> r != Owner && !r.UnknownRole?
    ensures UserCreated(users, id, username, roleKeys, status).0.Ok? ==>
      && id !in users && Owner !in roleKeys
      && UserCreated(users, id, username, roleKeys, status).1 == users[id := User(username, status, roleKeys, {})]
    ensures UserCreated(users, id, username, roleKeys, status).0.Err? ==>
      UserCreated(users, id, username, roleKeys, status).1 == users
  {
    RolesAssignable(roleKeys);
    if RoleError(roleKeys).None? {
      InsertSound(users, id, User(username, status, roleKeys, {}));
    }
  }

  // A change of one row is sound when the row stays sound and keeps or lacks the owner role as before.
  lemma CommitSound(users: Users, id: Id, row: Outcome<User>)
    requires RolesSound(users) && id in users
    requires row.Ok? ==> UserSound(row.value) && (Owner in row.value.roles <==> Owner in users[id].roles)
    ensures RolesSound(Commit(users, id, row).1) && OwnerKept(users, Commit(users, id, row).1)
  {}

  lemma GrantedSound(user: User, d: Delegation)
    requires UserSound(user) && Granted(user, d).Ok?
    ensures UserSound(Granted(user, d).value) && Granted(user, d).value.roles == user.roles
  {}

  /** Whatever combination of status, roles and delegation one update carries. */
  lemma UpdateSound(users: Users, id: Id, status: Option<Status>, roleKeys: Option<set<RoleKey>>,
                    delegation: Option<Delegation>)
    requires RolesSound(users)
    ensures RolesSound(UserUpdated(users, id, status, roleKeys, delegation).1)
    ensures OwnerKept(users, UserUpdated(users, id, status, roleKeys, delegation).1)
  {
    if id in users && RowUpdated(users[id], status, roleKeys, delegation).Ok? {
      var edited := Edited(users[id], status, roleKeys);
      assert UserSound(edited) && (Owner in edited.roles <==> Owner in users[id].roles);
      if delegation.Some? {
        GrantedSound(edited, delegation.value);
      }
    }
    if id in users {
      CommitSound(users, id, RowUpdated(users[id], status, roleKeys, delegation));
    }
  }

  lemma PermissionSound(users: Users, id: Id, d: Delegation)
    requires RolesSound(users)
    ensures RolesSound(PermissionSet(users, id, d).1) && OwnerKept(users, PermissionSet(users, id, d).1)
  {
    if id in users {
      if Granted(users[id], d).Ok? {
        GrantedSound(users[id], d);
      }
      CommitSound(users, id, Granted(users[id], d));
    }
  }

  // The user lost the admin role after the look at it.
  predicate DemotedMeanwhile(read: Users, now: Users, id: Id) {
    id in read && Admin in read[id].roles && id in now && Admin !in now[id].roles
  }

  /** With anything in between, a direct grant keeps the invariants unless it delegates to a user who has lost the admin
      role in between, and then it never does. With nothing in between it is the grant in one step. */
  lemma LateGrantSoundIff(read: Users, now: Users, id: Id, d: Delegation)
    requires RolesSound(now)
    ensures RolesSound(LateGranted(read, now, id, d).1) <==>
      !(d == Delegation(AdminManage, true) && DemotedMeanwhile(read, now, id))
    ensures OwnerKept(now, LateGranted(read, now, id, d).1)
    ensures LateGranted(now, now, id, d) == PermissionSet(now, id, d)
  {
    var after := LateGranted(read, now, id, d).1;
    if d == Delegation(AdminManage, true) && DemotedMeanwhile(read, now, id) {
      assert !UserSound(after[id]);
    } else if id in now {
      assert UserSound(now[id]) && UserSound(after[id]);
    }
  }

  /** One update in between is enough. */
  lemma LateGrantToFormerAdmin(users: Users, id: Id, roleKeys: set<RoleKey>)
    requires RolesSound(users) && id in users && Admin in users[id].roles
    requires Admin !in roleKeys && Permitted(users[id], None, Some(roleKeys), None)
    ensures
      var demoted := UserUpdated(users, id, None, Some(roleKeys), None).1;
      var (outcome, after) := LateGranted(users, demoted, id, Delegation(AdminManage, true));
      outcome.Ok? && !RolesSound(after)
  {
    var demoted := UserUpdated(users, id, None, Some(roleKeys), None).1;
    UpdateSound(users, id, None, Some(roleKeys), None);
    UpdateOutcome(users, id, None, Some(roleKeys), None);
    LateGrantSoundIff(users, demoted, id, Delegation(AdminManage, true));
  }

  // ----- what a successful change does, and when it succeeds -----

  // Whether a permission is held after an update: the delegation decides about its own permission; the admin
  // delegation is lost with the admin role; all else stays.
  predicate HoldsAfter(user: User, roleKeys: Option<set<RoleKey>>, delegation: Option<Delegation>, p: Permission) {
    if delegation.Some? && delegation.value.permission == p then delegation.value.enabled
    else p in user.grants && !(p == AdminManage && roleKeys.Some? && Admin !in roleKeys.value)
  }

  // Every known error condition of an update, read off the request and the row before it.
  predicate Permitted(user: User, status: Option<Status>, roleKeys: Option<set<RoleKey>>,
                      delegation: Option<Delegation>)
  {
    && (status.Some? || roleKeys.Some? ==> Owner !in user.roles)
    && (roleKeys.Some? ==> roleKeys.value != {} && forall r :: r in roleKeys.value ==> r != Owner && !r.UnknownRole?)
    && (delegation.Some? ==>
          && !delegation.value.permission.UnknownPermission?
          && (delegation.value.permission == AdminManage ==>
                Admin in (if roleKeys.Some? then roleKeys.value else user.roles)))
  }

  // What the update names is set, and everything else is as it was.
  ghost predicate UpdateDone(before: Users, after: Users, id: Id, status: Option<Status>,
                             roleKeys: Option<set<RoleKey>>, delegation: Option<Delegation>)
    requires id in before
  {
    && after.Keys == before.Keys && (forall u :: u in before && u != id ==> after[u] == before[u])
    && after[id].username == before[id].username
    && after[id].status == (if status.Some? then status.value else before[id].status)
    && after[id].roles == (if roleKeys.Some? then roleKeys.value else before[id].roles)
    && forall p :: p in after[id].grants <==> HoldsAfter(before[id], roleKeys, delegation, p)
  }

  /** An update succeeds exactly when the request is permitted, the delegation being judged by the new roles. It then
      sets what the request names and leaves the rest of the row, and every other user, as they were. */
  lemma UpdateOutcome(users: Users, id: Id, status: Option<Status>, roleKeys: Option<set<RoleKey>>,
                      delegation: Option<Delegation>)
    ensures
      var (outcome, after) := UserUpdated(users, id, status, roleKeys, delegation);
      && (outcome.Ok? <==> id in users && Permitted(users[id], status, roleKeys, delegation))
      && (outcome.Err? ==> after == users)
      && (outcome.Ok? ==> UpdateDone(users, after, id, status, roleKeys, delegation))
  {
    if id in users {
      RowOutcome(users[id], status, roleKeys, delegation);
    }
  }

  lemma RowOutcome(user: User, status: Option<Status>, roleKeys: Option<set<RoleKey>>, delegation: Option<Delegation>)
    ensures
      var row := RowUpdated(user, status, roleKeys, delegation);
      && (row.Ok? <==> Permitted(user, status, roleKeys, delegation))
      && (row.Ok? ==>
            && row.value.username == user.username
            && row.value.status == (if status.Some? then status.value else user.status)
            && row.value.roles == (if roleKeys.Some? then roleKeys.value else user.roles)
            && forall p :: p in row.value.grants <==> HoldsAfter(user, roleKeys, delegation, p))
  {
    if roleKeys.Some? {
      RolesAssignable(roleKeys.value);
    }
  }

  lemma RolesAssignable(roleKeys: set<RoleKey>)
    ensures RoleError(roleKeys).None? <==>
      roleKeys != {} && forall r :: r in roleKeys ==> r != Owner && !r.UnknownRole?
  {}

  /** A direct grant is an update of nothing else. */
  lemma PermissionOutcome(users: Users, id: Id, d: Delegation)
    ensures
      var (outcome, after) := PermissionSet(users, id, d);
      && (outcome.Ok? <==> id in users && Permitted(users[id], None, None, Some(d)))
      && (outcome.Err? ==> after == users)
      && (outcome.Ok? ==> UpdateDone(users, after, id, None, None, Some(d)))
  {
    UpdateOutcome(users, id, None, None, Some(d));
    if id in users {
      assert Edited(users[id], None, None) == users[id];
      assert PermissionSet(users, id, d) == UserUpdated(users, id, None, None, Some(d));
    }
  }
}
