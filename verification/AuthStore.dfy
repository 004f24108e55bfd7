/** The multi-statement transactions of SQLiteAuthStore and of the conversation service. A method works on a copy of
    the tables and assigns it at the end: an error on the way leaves the tables as they were. */
module AuthStore {
  import opened Options
  import opened AuthTables
  import opened AuthRoles
  import opened AuthIdentities
  import opened AuthDeletion
  import opened AuthChats
  import opened AuthRuns

  // ----- DELETE statements on tables that others refer to: a row still in use stops the statement -----

  function DeleteCalls(t: Tables, user: Id): Outcome<Tables> {
    var kept := CallsWithout(t.chats, t.ledger.toolCalls, user);
    if exists k :: k in t.ledger.confirmations
                   && t.ledger.confirmations[k].record in t.ledger.toolCalls - kept.Keys
    then Err(IntegrityError)
    else Ok(t.(ledger := t.ledger.(toolCalls := kept)))
  }

  function DeleteSessions(t: Tables, user: Id): Outcome<Tables> {
    if exists k :: k in t.chats.routes && OwnsSession(t.chats, user, t.chats.routes[k]) then Err(IntegrityError)
    else Ok(t.(chats := t.chats.(sessions := OthersOnly(t.chats.sessions, user))))
  }

  // Roles, grants, notification endpoints and e-mail challenges are deleted along; any other row naming the user
  // stops the statement.
  function DeleteUserRow(t: Tables, user: Id): Outcome<Tables> {
    if NamedIn(t.logins.authSessions, user) || NamedIn(t.logins.linkTokens, user) || NamedInBindings(t.bindings, user)
       || NamedInChats(t.chats, user) || NamedInLedger(t.ledger, user)
       || exists k :: k in t.turnRuns && t.turnRuns[k].actor == user
    then Err(IntegrityError)
    else Ok(t.(users := t.users - {user},
               logins := t.logins.(endpoints := OthersOnly(t.logins.endpoints, user),
                                   challenges := OthersOnly(t.logins.challenges, user))))
  }

  // The confirmations of the deleted calls are gone before them.
  lemma CallsDeletable(t: Tables, confirmations: map<Id, Confirmation>, user: Id)
    requires t.ledger.confirmations == ConfirmationsWithout(t.chats, Ledger(t.ledger.toolCalls, confirmations), user)
    ensures DeleteCalls(t, user)
         == Ok(t.(ledger := t.ledger.(toolCalls := CallsWithout(t.chats, t.ledger.toolCalls, user))))
  {}

  // The user's own routes are gone before the sessions; a route of someone else is in the way.
  lemma SessionsDeletable(t: Tables, routes: map<RouteKey, Id>, user: Id)
    requires t.chats.routes == RoutesWithout(routes, user)
    ensures DeleteSessions(t, user)
         == if RoutedByOther(Chats(t.chats.sessions, routes), user) then Err(IntegrityError)
            else Ok(t.(chats := ChatsWithout(Chats(t.chats.sessions, routes), user)))
  {
    if RoutedByOther(Chats(t.chats.sessions, routes), user) {
      var k :| k in routes && k.owner != user && OwnsSession(Chats(t.chats.sessions, routes), user, routes[k]);
      assert k in t.chats.routes && OwnsSession(t.chats, user, t.chats.routes[k]);
    }
  }

  // The tables after the statements on the audit trail, the ledger, turn runs, routes and sessions.
  function ActivityDeleted(t: Tables, user: Id): Tables {
    t.(audit := AuditWithout(t.chats, t.audit, user), ledger := LedgerWithout(t.chats, t.ledger, user),
       turnRuns := TurnsWithout(t.chats, t.turnRuns, user), chats := ChatsWithout(t.chats, user))
  }

  method DeleteActivity(t: Tables, user: Id) returns (r: Outcome<Tables>)
    ensures r == if RoutedByOther(t.chats, user) then Err(IntegrityError) else Ok(ActivityDeleted(t, user))
  {
    var work := t.(audit := AuditWithout(t.chats, t.audit, user));
    work := work.(ledger := work.ledger.(confirmations := ConfirmationsWithout(work.chats, work.ledger, user)));
    CallsDeletable(work, t.ledger.confirmations, user);
    work := DeleteCalls(work, user).value;
    work := work.(turnRuns := TurnsWithout(work.chats, work.turnRuns, user));
    work := work.(chats := work.chats.(routes := RoutesWithout(work.chats.routes, user)));
    SessionsDeletable(work, t.chats.routes, user);
    work :- DeleteSessions(work, user);
    return Ok(work);
  }

  // Nothing names the user any more but the rows that are deleted along.
  predicate OnlyLogins(t: Tables, user: Id) {
    && !HasAccount(t.bindings, user) && !NamedInChats(t.chats, user) && !NamedInLedger(t.ledger, user)
    && forall k :: k in t.turnRuns ==> t.turnRuns[k].actor != user
  }

  lemma ActivityGone(t: Tables, user: Id)
    requires !HasAccount(t.bindings, user)
    ensures OnlyLogins(ActivityDeleted(t, user), user)
  {}

  lemma UserRowDeletable(t: Tables, user: Id)
    requires OnlyLogins(t, user)
    requires !NamedIn(t.logins.authSessions, user) && !NamedIn(t.logins.linkTokens, user)
    requires !NamedInBindings(t.bindings, user)
    ensures DeleteUserRow(t, user).Ok?
  {}

  method DeleteLoginsAndUser(t: Tables, user: Id) returns (work: Tables)
    requires OnlyLogins(t, user)
    ensures work == t.(users := t.users - {user}, bindings := UserForgotten(t.bindings, user),
                       logins := LoginsWithout(t.logins, user))
  {
    work := t.(bindings := UserForgotten(t.bindings, user));
    work := work.(logins := work.logins.(linkTokens := OthersOnly(work.logins.linkTokens, user)));
    work := work.(logins := work.logins.(authSessions := OthersOnly(work.logins.authSessions, user)));
    UserRowDeletable(work, user);
    work := DeleteUserRow(work, user).value;
  }

  /** The transaction on any tables: its statements run in an order that no foreign key ever stops, unless another
      user's route leads to a session of this user. */
  method DeleteRows(t: Tables, user: Id, expected: Label) returns (r: Outcome<User>, after: Tables)
    ensures (r, after) == UserDeleted(t, user, expected)
  {
    if user !in t.users {
      return Err(UserNotFound), t;
    }
    var target := t.users[user];
    if target.username != expected {
      return Err(ConfirmationMismatch), t;
    }
    if Owner in target.roles {
      return Err(OwnerUndeletable), t;
    }
    if target.status != Disabled {
      return Err(NotDisabled), t;
    }
    if HasAccount(t.bindings, user) {
      return Err(HasChannelAccount), t;
    }
    ActivityGone(t, user);
    var work := DeleteActivity(t, user);
    if work.Err? {
      return Err(work.error), t;
    }
    after := DeleteLoginsAndUser(work.value, user);
    return Ok(target), after;
  }

  // ----- operations that write one group of tables -----

  predicate WritesUsers(op: Op) {
    op.InitializeOwner? || op.CreateUser? || op.UpdateUser? || op.SetUserPermission?
  }

  lemma UsersStepOnly(t: Tables, op: Op)
    requires StoreSound(t) && WritesUsers(op)
    ensures Step(t, op) == t.(users := UsersStep(t.users, op))
    ensures StoreSound(Step(t, op)) && OwnerKept(t.users, Step(t, op).users)
  {
    StepSound(t, op);
  }

  predicate WritesBindings(op: Op) {
    op.LinkIdentity? || op.ConsumeRequest? || op.CreateAccount? || op.DeleteAccount?
  }

  lemma BindingsStepOnly(t: Tables, op: Op)
    requires StoreSound(t) && WritesBindings(op)
    ensures Step(t, op) == t.(bindings := BindingsStep(t.bindings, t.users.Keys, op))
    ensures StoreSound(Step(t, op)) && NeverMoved(t.bindings.identities, Step(t, op).bindings.identities)
  {
    StepSound(t, op);
  }

  // The two transactions of a rotation, when both go through.
  function RotationSteps(t: Tables, k: RouteKey, session: Id): Tables {
    Step(Step(t, CreateSession(session, k.owner)), UpsertRoute(k, session))
  }

  lemma RotationSound(t: Tables, k: RouteKey, session: Id)
    requires StoreSound(t) && session !in t.chats.sessions && k.owner in t.users
    ensures RotationSteps(t, k, session)
         == t.(chats := Chats(t.chats.sessions[session := k.owner], t.chats.routes[k := session]))
    ensures StoreSound(RotationSteps(t, k, session))
  {
    StepSound(t, CreateSession(session, k.owner));
    CreationOnly(t, session, k.owner);
    var created := t.(chats := t.chats.(sessions := t.chats.sessions[session := k.owner]));
    StepSound(created, UpsertRoute(k, session));
    RoutingOnly(created, k, session);
  }

  lemma CreationOnly(t: Tables, session: Id, owner: Id)
    requires session !in t.chats.sessions && owner in t.users
    ensures Step(t, CreateSession(session, owner))
         == t.(chats := t.chats.(sessions := t.chats.sessions[session := owner]))
  {}

  lemma RoutingOnly(t: Tables, k: RouteKey, session: Id)
    requires session in t.chats.sessions && k.owner in t.users
    ensures Step(t, UpsertRoute(k, session)) == t.(chats := t.chats.(routes := t.chats.routes[k := session]))
  {}

  // What the user says about each identity row after an account is gone.
  predicate AccountGone(before: Bindings, after: Bindings, k: AccountKey)
    requires k in before.accounts
  {
    && after.accounts == before.accounts - {k} && after.requests == before.requests
    && forall i :: i in before.identities ==>
         && (i in after.identities <==>
               i.channel != k.channel || i.tenant != before.accounts[k].accountKey
               || before.identities[i].user != k.owner)
         && (i in after.identities ==> after.identities[i] == before.identities[i])
  }

  lemma DeletedAccountGone(b: Bindings, k: AccountKey)
    requires k in b.accounts
    ensures AccountGone(b, AccountDeleted(b, k), k)
  {
    forall i | i in b.identities {
      AccountDeletedForgets(b, k, i);
    }
  }

  class AuthStore {
    var tables: Tables

    constructor ()
      ensures tables == EMPTY && StoreSound(tables)
    {
      tables := EMPTY;
      EmptySound();
    }

    /** Succeeds at most once in the life of the store: afterwards there is an Owner for good. */
    method InitializeOwner(id: Id, username: Label) returns (r: Outcome<Id>)
      requires StoreSound(tables)
      modifies this
      ensures StoreSound(tables) && tables == Step(old(tables), Op.InitializeOwner(id, username))
      ensures r == OwnerInitialized(old(tables.users), id, username).0 && (r.Err? ==> tables == old(tables))
      ensures r == Err(OwnerExists) <==> exists u :: IsOwner(old(tables.users), u)
      ensures r.Ok? ==> IsOwner(tables.users, id)
      ensures OwnerKept(old(tables.users), tables.users)
    {
      InitializeSound(tables.users, id, username);
      UsersStepOnly(tables, Op.InitializeOwner(id, username));
      var users := tables.users;
      if exists u :: u in users && Owner in users[u].roles {
        return Err(OwnerExists);
      }
      if id in users || NameTaken(users, username) {
        return Err(UsernameTaken);
      }
      tables := tables.(users := users[id := User(username, Active, {Owner}, {})]);
      return Ok(id);
    }

    /** The new user has the roles asked for, which are known, at least one and never the owner's. */
    method CreateUser(id: Id, username: Label, roleKeys: set<RoleKey>, status: Status) returns (r: Outcome<Id>)
      requires StoreSound(tables)
      modifies this
      ensures StoreSound(tables) && tables == Step(old(tables), Op.CreateUser(id, username, roleKeys, status))
      ensures r == UserCreated(old(tables.users), id, username, roleKeys, status).0 && (r.Err? ==> tables == old(tables))
      ensures r.Ok? <==>
        && id !in old(tables.users) && !NameTaken(old(tables.users), username)
        && roleKeys != {} && forall role :: role in roleKeys ==> role != Owner && !role.UnknownRole?
      ensures r.Ok? ==> tables.users == old(tables.users)[id := User(username, status, roleKeys, {})]
      ensures OwnerKept(old(tables.users), tables.users)
    {
      AuthRoles.CreateSound(tables.users, id, username, roleKeys, status);
      UsersStepOnly(tables, Op.CreateUser(id, username, roleKeys, status));
      if roleKeys == {} {
        return Err(RoleRequired);
      }
      if Owner in roleKeys {
        return Err(OwnerNotAssignable);
      }
      if exists role :: role in roleKeys && role.UnknownRole? {
        return Err(UnknownRoles);
      }
      if id in tables.users || NameTaken(tables.users, username) {
        return Err(UsernameTaken);
      }
      tables := tables.(users := tables.users[id := User(username, status, roleKeys, {})]);
      return Ok(id);
    }

    // The INSERT or DELETE of a direct grant with its checks.
    method Delegate(row: User, d: Delegation) returns (r: Outcome<User>)
      ensures r == Granted(row, d)
    {
      if d.permission.UnknownPermission? {
        return Err(PermissionUnknown);
      }
      if d.permission == AdminManage && Admin !in row.roles {
        return Err(NotAdmin);
      }
      var grants := if d.enabled then row.grants + {d.permission} else row.grants - {d.permission};
      return Ok(row.(grants := grants));
    }

    /** Sets what is asked for, all of it or nothing: the delegation is judged by the new roles. */
    method UpdateUser(id: Id, status: Option<Status>, roleKeys: Option<set<RoleKey>>, delegation: Option<Delegation>)
      returns (r: Outcome<Id>)
      requires StoreSound(tables)
      modifies this
      ensures StoreSound(tables) && tables == Step(old(tables), Op.UpdateUser(id, status, roleKeys, delegation))
      ensures r == UserUpdated(old(tables.users), id, status, roleKeys, delegation).0
      ensures r.Err? ==> tables == old(tables)
      ensures r.Ok? <==> id in old(tables.users) && Permitted(old(tables.users)[id], status, roleKeys, delegation)
      ensures r.Ok? ==> UpdateDone(old(tables.users), tables.users, id, status, roleKeys, delegation)
      ensures OwnerKept(old(tables.users), tables.users)
    {
      UpdateOutcome(tables.users, id, status, roleKeys, delegation);
      UsersStepOnly(tables, Op.UpdateUser(id, status, roleKeys, delegation));
      if id !in tables.users {
        return Err(UserNotFound);
      }
      var row := tables.users[id];
      if Owner in row.roles && (status.Some? || roleKeys.Some?) {
        return Err(OwnerProtected);
      }
      if status.Some? {
        row := row.(status := status.value);
      }
      if roleKeys.Some? {
        var error := RoleError(roleKeys.value);
        if error.Some? {
          return Err(error.value);
        }
        row := row.(roles := roleKeys.value);
        if Admin !in roleKeys.value {
          row := row.(grants := row.grants - {AdminManage});
        }
      }
      if delegation.Some? {
        row :- Delegate(row, delegation.value);
      }
      tables := tables.(users := tables.users[id := row]);
      return Ok(id);
    }

    method SetUserPermission(id: Id, d: Delegation) returns (r: Outcome<Id>)
      requires StoreSound(tables)
      modifies this
      ensures StoreSound(tables) && tables == Step(old(tables), Op.SetUserPermission(id, d))
      ensures r == PermissionSet(old(tables.users), id, d).0 && (r.Err? ==> tables == old(tables))
      ensures r.Ok? <==> id in old(tables.users) && Permitted(old(tables.users)[id], None, None, Some(d))
      ensures r.Ok? ==> UpdateDone(old(tables.users), tables.users, id, None, None, Some(d))
    {
      PermissionOutcome(tables.users, id, d);
      UsersStepOnly(tables, Op.SetUserPermission(id, d));
      if id !in tables.users {
        return Err(UserNotFound);
      }
      var row :- Delegate(tables.users[id], d);
      tables := tables.(users := tables.users[id := row]);
      return Ok(id);
    }

    /** Succeeds exactly when none of the five reported reasons stands against it, and then no row names the user. */
    method DeleteUser(user: Id, expected: Label) returns (r: Outcome<User>)
      requires StoreSound(tables)
      modifies this
      ensures (r, tables) == UserDeleted(old(tables), user, expected)
      ensures StoreSound(tables) && tables == Step(old(tables), Op.DeleteUser(user, expected))
      ensures r.Ok? ==> !Referenced(tables, user)
      ensures r.Ok? <==>
        && user in old(tables.users) && old(tables.users)[user].username == expected
        && Owner !in old(tables.users)[user].roles && old(tables.users)[user].status == Disabled
        && !HasAccount(old(tables.bindings), user)
    {
      StepSound(tables, Op.DeleteUser(user, expected));
      DeletionSucceedsIff(tables, user, expected);
      if UserDeleted(tables, user, expected).0.Ok? {
        DeletionForgets(tables, user, expected);
      }
      var after;
      r, after := DeleteRows(tables, user, expected);
      tables := after;
    }

    /** The identity becomes the user's and nothing else changes; QQ bindings are never taken from anyone. */
    method LinkExternalIdentity(k: IdentityKey, user: Id, id: Id, now: int) returns (r: Outcome<()>)
      requires StoreSound(tables)
      modifies this
      ensures StoreSound(tables) && tables == Step(old(tables), LinkIdentity(k, user, id, now))
      ensures r == Linked(old(tables.bindings), old(tables.users).Keys, k, user, id, now).0
      ensures r.Err? ==> tables == old(tables)
      ensures r.Ok? <==>
        user in old(tables.users)
        && (k.channel == Qq ==> !ActiveForOther(old(tables.bindings).identities, k, user)
                                && !BoundElsewhere(old(tables.bindings).identities, user, k))
      ensures r.Ok? ==> ActiveFor(tables.bindings.identities, k, user)
                        && OnlyRow(old(tables.bindings).identities, tables.bindings.identities, k)
      ensures NeverMoved(old(tables.bindings).identities, tables.bindings.identities)
    {
      LinkSound(tables.bindings, tables.users.Keys, k, user, id, now);
      LinkOutcome(tables.bindings, tables.users.Keys, k, user, id, now);
      BindingsStepOnly(tables, LinkIdentity(k, user, id, now));
      var identities := tables.bindings.identities;
      if k.channel == Qq {
        if ActiveForOther(identities, k, user) {
          return Err(IdentityAlreadyBound);
        }
        if BoundElsewhere(identities, user, k) {
          return Err(UserAlreadyBound);
        }
      }
      var after := TryUpsert(identities, tables.users.Keys, k, user, id, now);
      if after.Err? {
        return Err(IntegrityAs(k));
      }
      tables := tables.(bindings := tables.bindings.(identities := after.value));
      return Ok(());
    }

    /** Answers yes exactly when the request is open, in time, and nothing stands against the binding, which then is
        the user's; no active binding of any channel is taken from anyone. */
    method ConsumeExternalAuthorizationRequest(request: Id, user: Id, id: Id, now: int) returns (r: Outcome<bool>)
      requires StoreSound(tables)
      modifies this
      ensures StoreSound(tables) && tables == Step(old(tables), ConsumeRequest(request, user, id, now))
      ensures r == RequestConsumed(old(tables.bindings), old(tables.users).Keys, request, user, id, now).0
      ensures r.Err? ==> tables == old(tables)
      ensures r == Ok(true) <==>
        && request in old(tables.bindings).requests
        && old(tables.bindings).requests[request].status == RequestPending
        && now < old(tables.bindings).requests[request].expires && user in old(tables.users)
        && !ActiveForOther(old(tables.bindings).identities, old(tables.bindings).requests[request].identity, user)
        && (old(tables.bindings).requests[request].identity.channel == Qq ==>
              !BoundElsewhere(old(tables.bindings).identities, user, old(tables.bindings).requests[request].identity))
      ensures r == Ok(true) ==>
        ActiveFor(tables.bindings.identities, old(tables.bindings).requests[request].identity, user)
      ensures r != Ok(true) ==> tables.bindings.identities == old(tables.bindings).identities
      ensures forall k, u :: ActiveFor(old(tables.bindings).identities, k, u) ==>
        ActiveFor(tables.bindings.identities, k, u)
    {
      ConsumeSound(tables.bindings, tables.users.Keys, request, user, id, now);
      ConsumeSucceedsIff(tables.bindings, tables.users.Keys, request, user, id, now);
      BindingsStepOnly(tables, ConsumeRequest(request, user, id, now));
      var b := tables.bindings;
      if request !in b.requests || b.requests[request].status != RequestPending || b.requests[request].expires <= now {
        return Ok(false);
      }
      var row := b.requests[request];
      if ActiveForOther(b.identities, row.identity, user) {
        tables := tables.(bindings := b.(requests := b.requests[request := row.(status := Conflict)]));
        return Ok(false);
      }
      if row.identity.channel == Qq && BoundElsewhere(b.identities, user, row.identity) {
        return Err(UserAlreadyBound);
      }
      var after := TryUpsert(b.identities, tables.users.Keys, row.identity, user, id, now);
      if after.Err? {
        return Err(IntegrityAs(row.identity));
      }
      b := b.(identities := after.value);
      b := b.(requests := b.requests[request := row.(status := Consumed, user := Some(user))]);
      tables := tables.(bindings := b);
      return Ok(true);
    }

    /** The account and its active identity come together or not at all. */
    method CreateChannelAccount(k: AccountKey, account: Account, id: Id, now: int) returns (r: Outcome<()>)
      requires StoreSound(tables)
      modifies this
      ensures StoreSound(tables) && tables == Step(old(tables), CreateAccount(k, account, id, now))
      ensures r == AccountCreated(old(tables.bindings), old(tables.users).Keys, k, account, id, now).0
      ensures r.Err? ==> tables == old(tables)
      ensures r.Ok? <==>
        && k.owner in old(tables.users) && !AccountClash(old(tables.bindings), k, account)
        && IdentityOf(k, account) !in old(tables.bindings).identities
        && (k.channel == Qq ==> !BoundElsewhere(old(tables.bindings).identities, k.owner, IdentityOf(k, account)))
      ensures r.Ok? ==>
        && tables.bindings.accounts == old(tables.bindings).accounts[k := account]
        && ActiveFor(tables.bindings.identities, IdentityOf(k, account), k.owner)
        && OnlyRow(old(tables.bindings).identities, tables.bindings.identities, IdentityOf(k, account))
    {
      AccountOutcome(tables.bindings, tables.users.Keys, k, account, id, now);
      AccountSucceedsIff(tables.bindings, tables.users.Keys, k, account, id, now);
      BindingsStepOnly(tables, CreateAccount(k, account, id, now));
      var b := tables.bindings;
      if k.owner !in tables.users || AccountClash(b, k, account) || IdentityOf(k, account) in b.identities {
        return Err(AccountConflict);
      }
      b := b.(accounts := b.accounts[k := account]);
      var after := TryUpsert(b.identities, tables.users.Keys, IdentityOf(k, account), k.owner, id, now);
      if after.Err? {
        return Err(AccountConflict);
      }
      tables := tables.(bindings := b.(identities := after.value));
      return Ok(());
    }

    /** The account goes with exactly the user's identities of that account. */
    method DeleteChannelAccountForUser(k: AccountKey) returns (r: Option<Account>)
      requires StoreSound(tables)
      modifies this
      ensures StoreSound(tables) && tables == Step(old(tables), Op.DeleteAccount(k))
      ensures tables == old(tables).(bindings := AccountDeleted(old(tables.bindings), k))
      ensures r == if k in old(tables.bindings.accounts) then Some(old(tables.bindings.accounts)[k]) else None
      ensures r.None? ==> tables == old(tables)
      ensures r.Some? ==> AccountGone(old(tables.bindings), tables.bindings, k)
    {
      BindingsStepOnly(tables, Op.DeleteAccount(k));
      if k in tables.bindings.accounts {
        DeletedAccountGone(tables.bindings, k);
      }
      var b := tables.bindings;
      if k !in b.accounts {
        return None;
      }
      var account := b.accounts[k];
      b := b.(identities := map i | i in b.identities
                                    && !(i.channel == k.channel && i.tenant == account.accountKey
                                         && b.identities[i].user == k.owner)
                            :: b.identities[i]);
      b := b.(accounts := b.accounts - {k});
      tables := tables.(bindings := b);
      return Some(account);
    }

    /** Answers the session of a conversation, creating one when there is no route yet. */
    method ResolveConversation(k: RouteKey, newSession: Id) returns (r: Outcome<Id>)
      requires StoreSound(tables)
      modifies this
      ensures StoreSound(tables)
      ensures (r, tables.chats) == Resolved(old(tables.chats), old(tables.users).Keys, k, newSession)
      ensures tables == if r.Ok? && k !in old(tables.chats).routes then RotationSteps(old(tables), k, newSession)
                        else old(tables)
      ensures r.Ok? <==> k in old(tables.chats).routes
                         || (newSession !in old(tables.chats).sessions && k.owner in old(tables.users))
      ensures r.Ok? ==>
        && r.value in tables.chats.sessions && tables.chats.sessions[r.value] == k.owner
        && k in tables.chats.routes && tables.chats.routes[k] == r.value
    {
      var c := tables.chats;
      if newSession !in c.sessions && k.owner in tables.users {
        RotationSound(tables, k, newSession);
      }
      ResolveSound(c, tables.users.Keys, k, newSession);
      if k in c.routes {
        return Ok(c.routes[k]);
      }
      if newSession in c.sessions || k.owner !in tables.users {
        return Err(IntegrityError);
      }
      c := c.(sessions := c.sessions[newSession := k.owner]);
      c := c.(routes := c.routes[k := newSession]);
      tables := tables.(chats := c);
      return Ok(newSession);
    }
  }
}
