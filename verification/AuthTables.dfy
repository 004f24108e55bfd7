/** The tables of the auth database (agent/auth/schema.py) with their foreign keys. */
module AuthTables {
  import opened Options

  // Generated keys and texts that the store only compares for equality.
  type Id = nat
  type Label = nat

  datatype Status = Active | Disabled
  datatype RoleKey = Owner | Admin | Developer | Viewer | Auditor | UnknownRole(name: Label)
  // `Listed` stands for the other rows of the permissions table.
  datatype Permission = AdminManage | Listed(name: Label) | UnknownPermission(name: Label)
  datatype Channel = Qq | OtherChannel(name: Label)

  // A row of users with the user's rows of user_roles and of user_permissions.
  datatype User = User(username: Label, status: Status, roles: set<RoleKey>, grants: set<Permission>)

  // The unique key of an external identity; `tenant` is the account key of the channel.
  datatype IdentityKey = IdentityKey(channel: Channel, tenant: Label, external: Label)
  datatype Identity = Identity(id: Id, user: Id, status: Status, linkedAt: int)

  // The unique key (channel, owner) of a channel account and its other columns.
  datatype AccountKey = AccountKey(channel: Channel, owner: Id)
  datatype Account = Account(accountKey: Label, externalAccount: Label, externalUser: Label)

  datatype RequestStatus = RequestPending | Consumed | Conflict
  datatype AuthRequest = AuthRequest(identity: IdentityKey, status: RequestStatus, expires: int, user: Option<Id>)

  datatype RouteKey = RouteKey(conversation: Label, owner: Id)

  // A turn run, tool call or audit event happens in a session that need not be indexed.
  datatype TurnRun = TurnRun(session: Id, actor: Id)
  datatype ToolCallRecord = ToolCallRecord(session: Id, actor: Id, confirmation: Option<ConfirmationStatus>)
  datatype ConfirmationStatus = Pending | Approved | Denied | Expired | Cancelled
  datatype Confirmation = Confirmation(
    record: Id, actor: Id, status: ConfirmationStatus, expires: int, decidedAt: Option<int>, decider: Option<Id>)

  // `subject` is the resource id of an event whose resource type is "user".
  datatype AuditEvent = AuditEvent(actor: Option<Id>, subject: Option<Id>, session: Id)

  // Tables whose rows only matter for the user they belong to.
  datatype Logins = Logins(
    authSessions: map<Id, Id>, endpoints: map<Id, Id>, challenges: map<Id, Id>, linkTokens: map<Id, Id>)

  datatype Bindings = Bindings(
    requests: map<Id, AuthRequest>, identities: map<IdentityKey, Identity>, accounts: map<AccountKey, Account>)

  // session_index maps a session to its owner, channel_conversations a route to its current session.
  datatype Chats = Chats(sessions: map<Id, Id>, routes: map<RouteKey, Id>)

  datatype Ledger = Ledger(toolCalls: map<Id, ToolCallRecord>, confirmations: map<Id, Confirmation>)

  datatype Tables = Tables(
    users: map<Id, User>,
    logins: Logins,
    bindings: Bindings,
    chats: Chats,
    turnRuns: map<Id, TurnRun>,
    ledger: Ledger,
    audit: map<Id, AuditEvent>,
    settingsUpdatedBy: Option<Id>)

  datatype AuthError =
    | UserNotFound | UsernameTaken | OwnerExists | RoleRequired | OwnerNotAssignable | UnknownRoles
    | OwnerProtected | NotAdmin | PermissionUnknown
    | ConfirmationMismatch | OwnerUndeletable | NotDisabled | HasChannelAccount
    | IdentityAlreadyBound | UserAlreadyBound | AccountConflict | ConfirmationNotFound | IntegrityError

  // An error raised inside a transaction leaves it at once.
  datatype Outcome<+T> = Ok(value: T) | Err(error: AuthError) {
    predicate IsFailure() {
      Err?
    }

    function PropagateFailure<U>(): Outcome<U>
      requires IsFailure()
    {
      Err(error)
    }

    function Extract(): T
      requires !IsFailure()
    {
      value
    }
  }

  // ----- foreign keys -----

  // Every row names an existing parent.
  predicate PointsInto<K(!new)>(m: map<K, Id>, parents: set<Id>) {
    forall k :: k in m ==> m[k] in parents
  }

  predicate LoginRefs(l: Logins, users: set<Id>) {
    && PointsInto(l.authSessions, users)
    && PointsInto(l.endpoints, users)
    && PointsInto(l.challenges, users)
    && PointsInto(l.linkTokens, users)
  }

  predicate BindingRefs(b: Bindings, users: set<Id>) {
    && (forall k :: k in b.requests && b.requests[k].user.Some? ==> b.requests[k].user.value in users)
    && (forall k :: k in b.identities ==> b.identities[k].user in users)
    && (forall k :: k in b.accounts ==> k.owner in users)
  }

  predicate ChatRefs(c: Chats, users: set<Id>) {
    && PointsInto(c.sessions, users)
    && PointsInto(c.routes, c.sessions.Keys)
    && (forall k :: k in c.routes ==> k.owner in users)
  }

  predicate TurnRefs(turnRuns: map<Id, TurnRun>, users: set<Id>) {
    forall k :: k in turnRuns ==> turnRuns[k].actor in users
  }

  predicate LedgerRefs(l: Ledger, users: set<Id>) {
    && (forall k :: k in l.toolCalls ==> l.toolCalls[k].actor in users)
    && (forall k :: k in l.confirmations ==>
          && l.confirmations[k].record in l.toolCalls
          && l.confirmations[k].actor in users
          && (l.confirmations[k].decider.Some? ==> l.confirmations[k].decider.value in users))
  }

  // No foreign key dangles.
  predicate Closed(t: Tables) {
    && LoginRefs(t.logins, t.users.Keys)
    && BindingRefs(t.bindings, t.users.Keys)
    && ChatRefs(t.chats, t.users.Keys)
    && TurnRefs(t.turnRuns, t.users.Keys)
    && LedgerRefs(t.ledger, t.users.Keys)
  }

  // Foreign keys stay closed when users are only added.
  lemma ClosedUnderMoreUsers(t: Tables, users: map<Id, User>)
    requires Closed(t) && t.users.Keys <= users.Keys
    ensures Closed(t.(users := users))
  {}
}
