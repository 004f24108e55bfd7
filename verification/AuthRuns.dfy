/** All operations of the auth store together: what every reachable state of the database satisfies. */
module AuthRuns {
  import opened Options
  import opened AuthTables
  import opened AuthRoles
  import opened AuthIdentities
  import opened AuthDeletion
  import opened AuthChats
  import opened Confirmations

  datatype LoginTable = AuthSessions | Endpoints | Challenges | LinkTokens

  datatype Op =
    | InitializeOwner(id: Id, username: Label)
    | CreateUser(id: Id, username: Label, roleKeys: set<RoleKey>, status: Status)
    | UpdateUser(user: Id, newStatus: Option<Status>, newRoles: Option<set<RoleKey>>, delegation: Option<Delegation>)
    | SetUserPermission(user: Id, grant: Delegation)
    | DeleteUser(user: Id, expected: Label)
    | InsertLogin(table: LoginTable, id: Id, user: Id)
    | LinkIdentity(k: IdentityKey, user: Id, id: Id, now: int)
    | CreateRequest(request: Id, k: IdentityKey, expires: int)
    | ConsumeRequest(request: Id, user: Id, id: Id, now: int)
    | CreateAccount(accountKey: AccountKey, account: Account, id: Id, now: int)
    | DeleteAccount(accountKey: AccountKey)
    | UnlinkIdentity(k: IdentityKey)
    | UnlinkForUser(id: Id, user: Id)
    | CreateSession(session: Id, owner: Id)
    | DeleteSession(session: Id)
    | UpsertRoute(route: RouteKey, session: Id)
    | RecordTurn(turn: Id, session: Id, actor: Id)
    | RecordCall(record: Id, session: Id, actor: Id)
    | RequestConfirmation(id: Id, record: Id, actor: Id, expires: int)
    | DecideConfirmation(id: Id, decider: Id, approved: bool, manageAny: bool, now: int)
    | EndConfirmation(id: Id, final: ConfirmationStatus, now: int)
    | RecordAudit(id: Id, event: AuditEvent)
    | SetRegistration(actor: Id)

  // A row naming a user who does not exist is refused; an existing key is refused too.
  function Inserted(m: map<Id, Id>, users: set<Id>, id: Id, user: Id): map<Id, Id> {
    if user !in users || id in m then m else m[id := user]
  }

  function LoginInserted(l: Logins, users: set<Id>, table: LoginTable, id: Id, user: Id): Logins {
    match table
    case AuthSessions => l.(authSessions := Inserted(l.authSessions, users, id, user))
    case Endpoints => l.(endpoints := Inserted(l.endpoints, users, id, user))
    case Challenges => l.(challenges := Inserted(l.challenges, users, id, user))
    case LinkTokens => l.(linkTokens := Inserted(l.linkTokens, users, id, user))
  }

  function RequestCreated(b: Bindings, request: Id, k: IdentityKey, expires: int): Bindings {
    if request in b.requests then b
    else b.(requests := b.requests[request := AuthRequest(k, RequestPending, expires, None)])
  }

  function TurnRecorded(turnRuns: map<Id, TurnRun>, users: set<Id>, turn: Id, session: Id, actor: Id): map<Id, TurnRun> {
    if actor !in users then turnRuns else turnRuns[turn := TurnRun(session, actor)]
  }

  function UsersStep(users: Users, op: Op): Users {
    match op
    case InitializeOwner(id, username) => OwnerInitialized(users, id, username).1
    case CreateUser(id, username, roleKeys, status) => UserCreated(users, id, username, roleKeys, status).1
    case UpdateUser(user, status, roleKeys, delegation) => UserUpdated(users, user, status, roleKeys, delegation).1
    case SetUserPermission(user, d) => PermissionSet(users, user, d).1
    case _ => users
  }

  function BindingsStep(b: Bindings, users: set<Id>, op: Op): Bindings {
    match op
    case LinkIdentity(k, user, id, now) => Linked(b, users, k, user, id, now).1
    case CreateRequest(request, k, expires) => RequestCreated(b, request, k, expires)
    case ConsumeRequest(request, user, id, now) => RequestConsumed(b, users, request, user, id, now).1
    case CreateAccount(k, account, id, now) => AccountCreated(b, users, k, account, id, now).1
    case DeleteAccount(k) => AccountDeleted(b, k)
    case UnlinkIdentity(k) => b.(identities := Unlinked(b.identities, k))
    case UnlinkForUser(id, user) => b.(identities := UnlinkedForUser(b.identities, id, user))
    case _ => b
  }

  function ChatsStep(c: Chats, users: set<Id>, op: Op): Chats {
    match op
    case CreateSession(session, owner) => SessionCreated(c, users, session, owner).1
    case DeleteSession(session) => SessionDeleted(c, session)
    case UpsertRoute(k, session) => RouteUpserted(c, users, k, session).1
    case _ => c
  }

  function LedgerStep(l: Ledger, users: set<Id>, op: Op): Ledger {
    match op
    case RecordCall(record, session, actor) => CallRecorded(l, users, record, session, actor).1
    case RequestConfirmation(id, record, actor, expires) => ConfirmationCreated(l, users, id, record, actor, expires).1
    case DecideConfirmation(id, decider, approved, manageAny, now) =>
      Decided(l, users, id, decider, approved, manageAny, now).1
    case EndConfirmation(id, final, now) => Ended(l, id, final, now).1
    case _ => l
  }

  function LoginsStep(l: Logins, users: set<Id>, op: Op): Logins {
    if op.InsertLogin? then LoginInserted(l, users, op.table, op.id, op.user) else l
  }

  function TurnsStep(turnRuns: map<Id, TurnRun>, users: set<Id>, op: Op): map<Id, TurnRun> {
    if op.RecordTurn? then TurnRecorded(turnRuns, users, op.turn, op.session, op.actor) else turnRuns
  }

  // Apart from a deletion every operation writes one group of tables.
  function WriteStep(t: Tables, op: Op): Tables {
    var users := t.users.Keys;
    Tables(UsersStep(t.users, op), LoginsStep(t.logins, users, op), BindingsStep(t.bindings, users, op),
           ChatsStep(t.chats, users, op), TurnsStep(t.turnRuns, users, op), LedgerStep(t.ledger, users, op),
           if op.RecordAudit? then t.audit[op.id := op.event] else t.audit,
           if op.SetRegistration? then Some(op.actor) else t.settingsUpdatedBy)
  }

  // Each operation is one transaction.
  function Step(t: Tables, op: Op): Tables {
    if op.DeleteUser? then UserDeleted(t, op.user, op.expected).1 else WriteStep(t, op)
  }

  /** What the callers of the store make sure of: the conversation service routes only to the session it created for
      the actor, only the Owner changes the settings, a tool call is recorded under a new id and asks once, and a
      blocked call ends expired or cancelled. */
  predicate Disciplined(t: Tables, op: Op) {
    match op
    case UpsertRoute(route, session) => session in t.chats.sessions ==> t.chats.sessions[session] == route.owner
    case SetRegistration(actor) => IsOwner(t.users, actor)
    case RecordCall(record, _, _) => record !in t.ledger.toolCalls
    case RequestConfirmation(_, record, _, _) =>
      forall k :: k in t.ledger.confirmations ==> t.ledger.confirmations[k].record != record
    case EndConfirmation(_, final, _) => final in {Expired, Cancelled}
    case _ => true
  }

  // Operations nobody performs are skipped.
  function Try(t: Tables, op: Op): Tables {
    if Disciplined(t, op) then Step(t, op) else t
  }

  function After(t: Tables, ops: seq<Op>): Tables
    decreases |ops|
  {
    if ops == [] then t else After(Try(t, ops[0]), ops[1..])
  }

  /** What holds in every reachable state: no foreign key dangles, the Owner is unique and protected, delegates are
      administrators, active QQ bindings are one-to-one, routes lead to sessions of their owner, the settings name the
      Owner or nobody, and confirmations agree with their records and were approved in time. */
  predicate StoreSound(t: Tables) {
    && Closed(t) && RolesSound(t.users) && OneToOne(t.bindings.identities) && RoutesOwn(t.chats)
    && SettingsByOwner(t) && RecordsAgree(t.ledger) && ApprovedInTime(t.ledger)
  }

  const EMPTY := Tables(map[], Logins(map[], map[], map[], map[]), Bindings(map[], map[], map[]), Chats(map[], map[]),
                        map[], Ledger(map[], map[]), map[], None)

  lemma EmptySound()
    ensures StoreSound(EMPTY)
  {}

  // ----- one group at a time -----

  lemma UsersStepSound(users: Users, op: Op)
    requires RolesSound(users)
    ensures RolesSound(UsersStep(users, op)) && OwnerKept(users, UsersStep(users, op))
    ensures users.Keys <= UsersStep(users, op).Keys
  {
    match op
    case InitializeOwner(id, username) => InitializeSound(users, id, username);
    case CreateUser(id, username, roleKeys, status) => AuthRoles.CreateSound(users, id, username, roleKeys, status);
    case UpdateUser(user, status, roleKeys, delegation) => UpdateSound(users, user, status, roleKeys, delegation);
    case SetUserPermission(user, d) => PermissionSound(users, user, d);
    case _ =>
  }

  lemma BindingsStepSound(b: Bindings, users: set<Id>, op: Op)
    requires OneToOne(b.identities)
    ensures OneToOne(BindingsStep(b, users, op).identities)
    ensures NeverMoved(b.identities, BindingsStep(b, users, op).identities)
  {
    if op.LinkIdentity? {
      LinkSound(b, users, op.k, op.user, op.id, op.now);
    } else if op.ConsumeRequest? {
      ConsumeSound(b, users, op.request, op.user, op.id, op.now);
    } else if op.CreateAccount? {
      AccountSound(b, users, op.accountKey, op.account, op.id, op.now);
    } else {
      OthersShrink(b, users, op);
      ShrunkSound(b.identities, BindingsStep(b, users, op).identities);
    }
  }

  // Every other operation at most takes bindings away.
  lemma OthersShrink(b: Bindings, users: set<Id>, op: Op)
    requires !op.LinkIdentity? && !op.ConsumeRequest? && !op.CreateAccount?
    ensures Shrunk(b.identities, BindingsStep(b, users, op).identities)
  {}

  lemma BindingsStepClosed(b: Bindings, users: set<Id>, op: Op)
    requires BindingRefs(b, users)
    ensures BindingRefs(BindingsStep(b, users, op), users)
  {}

  lemma ChatsStepSound(c: Chats, users: set<Id>, op: Op)
    requires ChatsSound(c, users)
    requires op.UpsertRoute? && op.session in c.sessions ==> c.sessions[op.session] == op.route.owner
    ensures ChatsSound(ChatsStep(c, users, op), users) && OwnersKept(c, ChatsStep(c, users, op))
  {
    match op
    case CreateSession(session, owner) => AuthChats.CreateSound(c, users, session, owner);
    case DeleteSession(session) => DeleteSound(c, users, session);
    case UpsertRoute(k, session) => UpsertSoundIff(c, users, k, session);
    case _ =>
  }

  lemma LedgerStepClosed(l: Ledger, users: set<Id>, op: Op)
    requires LedgerRefs(l, users)
    ensures LedgerRefs(LedgerStep(l, users, op), users)
  {}

  lemma LedgerStepAgrees(t: Tables, op: Op)
    requires RecordsAgree(t.ledger) && ApprovedInTime(t.ledger) && Disciplined(t, op)
    ensures RecordsAgree(LedgerStep(t.ledger, t.users.Keys, op)) && ApprovedInTime(LedgerStep(t.ledger, t.users.Keys, op))
  {
    match op
    case RecordCall(record, session, actor) =>
    case RequestConfirmation(id, record, actor, expires) =>
      RequestAgrees(t.ledger, t.users.Keys, id, record, actor, expires);
    case DecideConfirmation(id, decider, approved, manageAny, now) =>
      DecisionAgrees(t.ledger, t.users.Keys, id, decider, approved, manageAny, now);
    case EndConfirmation(id, final, now) => EndAgrees(t.ledger, id, final, now);
    case _ =>
  }

  lemma RequestAgrees(l: Ledger, users: set<Id>, id: Id, record: Id, actor: Id, expires: int)
    requires RecordsAgree(l) && ApprovedInTime(l)
    requires forall k :: k in l.confirmations ==> l.confirmations[k].record != record
    ensures
      var after := ConfirmationCreated(l, users, id, record, actor, expires).1;
      RecordsAgree(after) && ApprovedInTime(after)
  {}

  lemma DecisionAgrees(l: Ledger, users: set<Id>, id: Id, decider: Id, approved: bool, manageAny: bool, now: int)
    requires RecordsAgree(l) && ApprovedInTime(l)
    ensures
      var after := Decided(l, users, id, decider, approved, manageAny, now).1;
      RecordsAgree(after) && ApprovedInTime(after)
  {
    if id in l.confirmations && l.confirmations[id].status == Pending {
      WrittenAgrees(l, id, Verdict(l.confirmations[id], approved, now), now, Some(decider));
    }
  }

  lemma EndAgrees(l: Ledger, id: Id, final: ConfirmationStatus, now: int)
    requires RecordsAgree(l) && ApprovedInTime(l) && final in {Expired, Cancelled}
    ensures RecordsAgree(Ended(l, id, final, now).1) && ApprovedInTime(Ended(l, id, final, now).1)
  {
    if id in l.confirmations && l.confirmations[id].status == Pending {
      WrittenAgrees(l, id, final, now, l.confirmations[id].decider);
    }
  }

  lemma LoginsStepClosed(l: Logins, users: set<Id>, op: Op)
    requires LoginRefs(l, users)
    ensures LoginRefs(LoginsStep(l, users, op), users)
  {}

  // Every group keeps its foreign keys against the users there were, and users are only added.
  lemma WriteStepClosed(t: Tables, op: Op)
    requires StoreSound(t) && Disciplined(t, op)
    ensures Closed(WriteStep(t, op))
  {
    var users := t.users.Keys;
    UsersStepSound(t.users, op);
    LoginsStepClosed(t.logins, users, op);
    BindingsStepClosed(t.bindings, users, op);
    ChatsStepSound(t.chats, users, op);
    LedgerStepClosed(t.ledger, users, op);
    ClosedUnderMoreUsers(WriteStep(t, op).(users := t.users), UsersStep(t.users, op));
  }

  // ----- all together -----

  lemma DeletionKeepsAgreement(c: Chats, l: Ledger, user: Id)
    requires RecordsAgree(l) && ApprovedInTime(l)
    ensures RecordsAgree(LedgerWithout(c, l, user)) && ApprovedInTime(LedgerWithout(c, l, user))
  {}

  lemma DeleteStepSound(t: Tables, user: Id, expected: Label)
    requires StoreSound(t)
    ensures StoreSound(UserDeleted(t, user, expected).1)
    ensures OwnerKept(t.users, UserDeleted(t, user, expected).1.users)
    ensures NeverMoved(t.bindings.identities, UserDeleted(t, user, expected).1.bindings.identities)
    ensures OwnersKept(t.chats, UserDeleted(t, user, expected).1.chats)
  {
    DeletionKeepsClosed(t, user, expected);
    DeletionKeepsAgreement(t.chats, t.ledger, user);
    ShrunkSound(t.bindings.identities, UserForgotten(t.bindings, user).identities);
  }

  /** No operation takes the Owner away or deactivates it, moves an active QQ binding to another user, or gives an
      indexed session another owner; every operation keeps the invariants. */
  lemma StepSound(t: Tables, op: Op)
    requires StoreSound(t) && Disciplined(t, op)
    ensures StoreSound(Step(t, op))
    ensures OwnerKept(t.users, Step(t, op).users)
    ensures NeverMoved(t.bindings.identities, Step(t, op).bindings.identities)
    ensures OwnersKept(t.chats, Step(t, op).chats)
  {
    if op.DeleteUser? {
      DeleteStepSound(t, op.user, op.expected);
    } else {
      WriteStepClosed(t, op);
      UsersStepSound(t.users, op);
      BindingsStepSound(t.bindings, t.users.Keys, op);
      ChatsStepSound(t.chats, t.users.Keys, op);
      LedgerStepAgrees(t, op);
    }
  }

  /** Every reachable state is sound, and an Owner stays the active Owner for good. */
  lemma {:induction false} RunSound(t: Tables, ops: seq<Op>)
    requires StoreSound(t)
    ensures StoreSound(After(t, ops)) && OwnerKept(t.users, After(t, ops).users)
    decreases |ops|
  {
    if ops != [] {
      if Disciplined(t, ops[0]) {
        StepSound(t, ops[0]);
      }
      RunSound(Try(t, ops[0]), ops[1..]);
    }
  }

  /** The two transactions of a rotation: whatever happens after the session was created for the actor, short of
      creating the generated session id again, the route that follows stays within the discipline. */
  lemma {:induction false} RotationDisciplined(t: Tables, ops: seq<Op>, route: RouteKey, session: Id)
    requires StoreSound(t)
    requires session in t.chats.sessions ==> t.chats.sessions[session] == route.owner
    requires forall op :: op in ops && op.CreateSession? ==> op.session != session
    ensures Disciplined(After(t, ops), UpsertRoute(route, session))
    decreases |ops|
  {
    if ops != [] {
      var op := ops[0];
      assert op in ops;
      if Disciplined(t, op) {
        StepSound(t, op);
        NoNewSession(t, op, session);
      }
      RotationDisciplined(Try(t, op), ops[1..], route, session);
    }
  }

  // Only its creation brings a session into the index.
  lemma NoNewSession(t: Tables, op: Op, session: Id)
    requires op.CreateSession? ==> op.session != session
    ensures session in Step(t, op).chats.sessions ==> session in t.chats.sessions
  {}

  /** A request that is consumed or in conflict stays as it is in every run, short of creating its generated token
      again: it can only go with its user, and consuming it never succeeds. */
  lemma {:induction false} ConsumedForever(t: Tables, ops: seq<Op>, request: Id, user: Id, id: Id, now: int)
    requires request in t.bindings.requests ==> t.bindings.requests[request].status != RequestPending
    requires forall op :: op in ops && op.CreateRequest? ==> op.request != request
    ensures
      var after := After(t, ops);
      && (request in after.bindings.requests ==>
            request in t.bindings.requests && after.bindings.requests[request] == t.bindings.requests[request])
      && RequestConsumed(after.bindings, after.users.Keys, request, user, id, now) == (Ok(false), after.bindings)
    decreases |ops|
  {
    if ops != [] {
      assert ops[0] in ops;
      RequestStays(t, ops[0], request);
      ConsumedForever(Try(t, ops[0]), ops[1..], request, user, id, now);
    }
  }

  lemma RequestStays(t: Tables, op: Op, request: Id)
    requires request in t.bindings.requests ==> t.bindings.requests[request].status != RequestPending
    requires op.CreateRequest? ==> op.request != request
    ensures request in Try(t, op).bindings.requests ==>
      request in t.bindings.requests && Try(t, op).bindings.requests[request] == t.bindings.requests[request]
  {
    RequestStaysInStep(t.bindings, t.users.Keys, op, request);
  }

  lemma RequestStaysInStep(b: Bindings, users: set<Id>, op: Op, request: Id)
    requires request in b.requests ==> b.requests[request].status != RequestPending
    requires op.CreateRequest? ==> op.request != request
    ensures request in BindingsStep(b, users, op).requests ==>
      request in b.requests && BindingsStep(b, users, op).requests[request] == b.requests[request]
  {}
}
