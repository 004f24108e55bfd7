/** Permanent deletion of a user (agent/auth/store.py): what goes, what stays, and the foreign keys. */
module AuthDeletion {
  import opened Options
  import opened AuthTables
  import AuthRoles
  import AuthIdentities

  // ----- which rows concern a user -----

  // The session is indexed for the user.
  predicate OwnsSession(c: Chats, user: Id, session: Id) {
    session in c.sessions && c.sessions[session] == user
  }

  predicate ConcernsTurn(c: Chats, user: Id, row: TurnRun) {
    row.actor == user || OwnsSession(c, user, row.session)
  }

  predicate ConcernsCall(c: Chats, user: Id, row: ToolCallRecord) {
    row.actor == user || OwnsSession(c, user, row.session)
  }

  predicate ConcernsConfirmation(c: Chats, l: Ledger, user: Id, row: Confirmation) {
    || row.actor == user
    || row.decider == Some(user)
    || (row.record in l.toolCalls && ConcernsCall(c, user, l.toolCalls[row.record]))
  }

  predicate ConcernsAudit(c: Chats, user: Id, row: AuditEvent) {
    row.actor == Some(user) || row.subject == Some(user) || OwnsSession(c, user, row.session)
  }

  // ----- the tables without these rows -----

  function OthersOnly(m: map<Id, Id>, user: Id): map<Id, Id> {
    map k | k in m && m[k] != user :: m[k]
  }

  function LoginsWithout(l: Logins, user: Id): Logins {
    Logins(OthersOnly(l.authSessions, user), OthersOnly(l.endpoints, user), OthersOnly(l.challenges, user),
           OthersOnly(l.linkTokens, user))
  }

  function RoutesWithout(routes: map<RouteKey, Id>, user: Id): map<RouteKey, Id> {
    map k | k in routes && k.owner != user :: routes[k]
  }

  function ChatsWithout(c: Chats, user: Id): Chats {
    Chats(OthersOnly(c.sessions, user), RoutesWithout(c.routes, user))
  }

  function CallsWithout(c: Chats, toolCalls: map<Id, ToolCallRecord>, user: Id): map<Id, ToolCallRecord> {
    map k | k in toolCalls && !ConcernsCall(c, user, toolCalls[k]) :: toolCalls[k]
  }

  function ConfirmationsWithout(c: Chats, l: Ledger, user: Id): map<Id, Confirmation> {
    map k | k in l.confirmations && !ConcernsConfirmation(c, l, user, l.confirmations[k]) :: l.confirmations[k]
  }

  function LedgerWithout(c: Chats, l: Ledger, user: Id): Ledger {
    Ledger(CallsWithout(c, l.toolCalls, user), ConfirmationsWithout(c, l, user))
  }

  function TurnsWithout(c: Chats, turnRuns: map<Id, TurnRun>, user: Id): map<Id, TurnRun> {
    map k | k in turnRuns && !ConcernsTurn(c, user, turnRuns[k]) :: turnRuns[k]
  }

  function AuditWithout(c: Chats, audit: map<Id, AuditEvent>, user: Id): map<Id, AuditEvent> {
    map k | k in audit && !ConcernsAudit(c, user, audit[k]) :: audit[k]
  }

  /** Every table without the rows that concern the user; the settings row is left alone. */
  function Without(t: Tables, user: Id): Tables {
    Tables(t.users - {user}, LoginsWithout(t.logins, user), AuthIdentities.UserForgotten(t.bindings, user),
           ChatsWithout(t.chats, user), TurnsWithout(t.chats, t.turnRuns, user), LedgerWithout(t.chats, t.ledger, user),
           AuditWithout(t.chats, t.audit, user), t.settingsUpdatedBy)
  }

  // ----- when a deletion succeeds -----

  predicate HasAccount(b: Bindings, user: Id) {
    exists k :: k in b.accounts && k.owner == user
  }

  // Another user's route leads to a session of this user.
  predicate RoutedByOther(c: Chats, user: Id) {
    exists k :: k in c.routes && k.owner != user && OwnsSession(c, user, c.routes[k])
  }

  function Refusal(t: Tables, user: Id, expected: Label): Option<AuthError> {
    if user !in t.users then Some(UserNotFound)
    else if t.users[user].username != expected then Some(ConfirmationMismatch)
    else if Owner in t.users[user].roles then Some(OwnerUndeletable)
    else if t.users[user].status != Disabled then Some(NotDisabled)
    else if HasAccount(t.bindings, user) then Some(HasChannelAccount)
    else None
  }

  function UserDeleted(t: Tables, user: Id, expected: Label): (Outcome<User>, Tables) {
    if Refusal(t, user, expected).Some? then (Err(Refusal(t, user, expected).value), t)
    else if RoutedByOther(t.chats, user) then (Err(IntegrityError), t)
    else (Ok(t.users[user]), Without(t, user))
  }

  // ----- the properties -----

  predicate NamedIn(m: map<Id, Id>, user: Id) {
    exists k :: k in m && m[k] == user
  }

  predicate NamedInBindings(b: Bindings, user: Id) {
    || (exists k :: k in b.requests && b.requests[k].user == Some(user))
    || (exists k :: k in b.identities && b.identities[k].user == user)
    || HasAccount(b, user)
  }

  predicate NamedInChats(c: Chats, user: Id) {
    NamedIn(c.sessions, user) || exists k :: k in c.routes && k.owner == user
  }

  predicate NamedInLedger(l: Ledger, user: Id) {
    || (exists k :: k in l.toolCalls && l.toolCalls[k].actor == user)
    || (exists k :: k in l.confirmations && (l.confirmations[k].actor == user || l.confirmations[k].decider == Some(user)))
  }

  // Some row names the user: in a column with a foreign key, in the audit trail or in the settings.
  predicate Referenced(t: Tables, user: Id) {
    || user in t.users
    || NamedIn(t.logins.authSessions, user) || NamedIn(t.logins.endpoints, user)
    || NamedIn(t.logins.challenges, user) || NamedIn(t.logins.linkTokens, user)
    || NamedInBindings(t.bindings, user)
    || NamedInChats(t.chats, user)
    || (exists k :: k in t.turnRuns && t.turnRuns[k].actor == user)
    || NamedInLedger(t.ledger, user)
    || (exists k :: k in t.audit && (t.audit[k].actor == Some(user) || t.audit[k].subject == Some(user)))
    || t.settingsUpdatedBy == Some(user)
  }

  // Some row belongs to the session.
  predicate SessionReferenced(t: Tables, session: Id) {
    || session in t.chats.sessions
    || (exists k :: k in t.chats.routes && t.chats.routes[k] == session)
    || (exists k :: k in t.turnRuns && t.turnRuns[k].session == session)
    || (exists k :: k in t.ledger.toolCalls && t.ledger.toolCalls[k].session == session)
    || (exists k :: k in t.ledger.confirmations && t.ledger.confirmations[k].record in t.ledger.toolCalls
                    && t.ledger.toolCalls[t.ledger.confirmations[k].record].session == session)
    || (exists k :: k in t.audit && t.audit[k].session == session)
  }

  // The settings were last changed by the Owner, as the only route to them makes sure.
  predicate SettingsByOwner(t: Tables) {
    t.settingsUpdatedBy.Some? ==> AuthRoles.IsOwner(t.users, t.settingsUpdatedBy.value)
  }

  /** After a successful deletion no row of any table names the user, and none belongs to a session that was the
      user's. */
  lemma DeletionForgets(t: Tables, user: Id, expected: Label)
    requires UserDeleted(t, user, expected).0.Ok? && SettingsByOwner(t)
    ensures !Referenced(UserDeleted(t, user, expected).1, user)
    ensures forall s :: OwnsSession(t.chats, user, s) ==> !SessionReferenced(UserDeleted(t, user, expected).1, s)
  {
    DeletionForgetsIff(t, user, expected);
    forall s | OwnsSession(t.chats, user, s) ensures !SessionReferenced(Without(t, user), s) {
      SessionForgotten(t, user, s);
    }
  }

  /** The store method alone takes any actor for the settings, and their row has no foreign key: whatever wrote it, a
      deletion leaves the user named exactly when that row names the user. */
  lemma DeletionForgetsIff(t: Tables, user: Id, expected: Label)
    requires UserDeleted(t, user, expected).0.Ok?
    ensures Referenced(UserDeleted(t, user, expected).1, user) <==> t.settingsUpdatedBy == Some(user)
  {
    OnlySettingsLeft(t, user);
  }

  lemma OnlySettingsLeft(t: Tables, user: Id)
    requires !HasAccount(t.bindings, user)
    ensures Referenced(Without(t, user), user) <==> t.settingsUpdatedBy == Some(user)
  {}

  lemma SessionForgotten(t: Tables, user: Id, session: Id)
    requires OwnsSession(t.chats, user, session) && !RoutedByOther(t.chats, user)
    ensures !SessionReferenced(Without(t, user), session)
  {
    var c := ChatsWithout(t.chats, user);
    forall k | k in c.routes ensures c.routes[k] != session {
      assert k in t.chats.routes && k.owner != user;
    }
  }

  lemma BindingsClosed(b: Bindings, users: set<Id>, user: Id)
    requires BindingRefs(b, users) && !HasAccount(b, user)
    ensures BindingRefs(AuthIdentities.UserForgotten(b, user), users - {user})
  {}

  lemma ChatsClosed(c: Chats, users: set<Id>, user: Id)
    requires ChatRefs(c, users) && !RoutedByOther(c, user)
    ensures ChatRefs(ChatsWithout(c, user), users - {user})
  {}

  lemma LedgerClosed(c: Chats, l: Ledger, users: set<Id>, user: Id)
    requires LedgerRefs(l, users)
    ensures LedgerRefs(LedgerWithout(c, l, user), users - {user})
  {}

  /** No foreign key dangles afterwards. */
  lemma DeletionKeepsClosed(t: Tables, user: Id, expected: Label)
    requires Closed(t)
    ensures Closed(UserDeleted(t, user, expected).1)
  {
    if UserDeleted(t, user, expected).0.Ok? {
      BindingsClosed(t.bindings, t.users.Keys, user);
      ChatsClosed(t.chats, t.users.Keys, user);
      LedgerClosed(t.chats, t.ledger, t.users.Keys, user);
      assert (t.users - {user}).Keys == t.users.Keys - {user};
    }
  }

  // Exactly the rows in `gone` are missing; the others are as they were.
  predicate OthersKept<K(!new), V(!new, ==)>(before: map<K, V>, after: map<K, V>, gone: set<K>) {
    && after.Keys == before.Keys - gone
    && forall k :: k in after ==> after[k] == before[k]
  }

  /** Nothing else is lost, changed or added: a row goes exactly when it names the user, belongs to a session of the
      user, or confirms a call that does. */
  lemma DeletionKeepsOthers(t: Tables, user: Id, expected: Label)
    requires UserDeleted(t, user, expected).0.Ok?
    ensures
      var s := UserDeleted(t, user, expected).1;
      && OthersKept(t.users, s.users, {user})
      && OthersKept(t.chats.sessions, s.chats.sessions, RowsNaming(t.chats.sessions, user))
      && OthersKept(t.chats.routes, s.chats.routes, set k | k in t.chats.routes && k.owner == user)
      && OthersKept(t.bindings.identities, s.bindings.identities,
                    set k | k in t.bindings.identities && t.bindings.identities[k].user == user)
      && OthersKept(t.turnRuns, s.turnRuns,
                    set k | k in t.turnRuns && (t.turnRuns[k].actor == user
                                                || OwnsSession(t.chats, user, t.turnRuns[k].session)))
      && OthersKept(t.ledger.toolCalls, s.ledger.toolCalls,
                    set k | k in t.ledger.toolCalls && ConcernsCall(t.chats, user, t.ledger.toolCalls[k]))
      && OthersKept(t.ledger.confirmations, s.ledger.confirmations,
                    set k | k in t.ledger.confirmations
                            && ConcernsConfirmation(t.chats, t.ledger, user, t.ledger.confirmations[k]))
      && OthersKept(t.audit, s.audit, set k | k in t.audit && ConcernsAudit(t.chats, user, t.audit[k]))
      && OthersKept(t.bindings.requests, s.bindings.requests,
                    set k | k in t.bindings.requests && t.bindings.requests[k].user == Some(user))
      && s.bindings.accounts == t.bindings.accounts && s.settingsUpdatedBy == t.settingsUpdatedBy
  {}

  // The rows of the user in a table that maps rows to users.
  function RowsNaming(m: map<Id, Id>, user: Id): set<Id> {
    set k | k in m && m[k] == user
  }

  /** The same for sign-in sessions, notification endpoints, e-mail challenges and link tokens. */
  lemma DeletionKeepsOtherLogins(t: Tables, user: Id, expected: Label)
    requires UserDeleted(t, user, expected).0.Ok?
    ensures
      var l, s := t.logins, UserDeleted(t, user, expected).1.logins;
      && OthersKept(l.authSessions, s.authSessions, RowsNaming(l.authSessions, user))
      && OthersKept(l.endpoints, s.endpoints, RowsNaming(l.endpoints, user))
      && OthersKept(l.challenges, s.challenges, RowsNaming(l.challenges, user))
      && OthersKept(l.linkTokens, s.linkTokens, RowsNaming(l.linkTokens, user))
  {
    NamedRowsGo(t.logins.authSessions, user);
    NamedRowsGo(t.logins.endpoints, user);
    NamedRowsGo(t.logins.challenges, user);
    NamedRowsGo(t.logins.linkTokens, user);
  }

  lemma NamedRowsGo(m: map<Id, Id>, user: Id)
    ensures OthersKept(m, OthersOnly(m, user), RowsNaming(m, user))
  {}

  /** The service routes a conversation only to a session of the route's owner. */
  predicate RoutesOwn(c: Chats) {
    forall k :: k in c.routes && c.routes[k] in c.sessions ==> c.sessions[c.routes[k]] == k.owner
  }

  /** Under that discipline the statements of a deletion never run into a foreign key: it is refused exactly for one
      of the five reasons the service reports. */
  lemma DeletionSucceedsIff(t: Tables, user: Id, expected: Label)
    requires RoutesOwn(t.chats)
    ensures UserDeleted(t, user, expected).0.Ok? <==>
      && user in t.users && t.users[user].username == expected && Owner !in t.users[user].roles
      && t.users[user].status == Disabled && !HasAccount(t.bindings, user)
  {
    assert !RoutedByOther(t.chats, user);
  }

  /** A settings row that names the deleted user keeps doing so; under the discipline of its only caller it cannot. */
  lemma SettingsKeepDeletedUser(t: Tables, user: Id, expected: Label)
    requires UserDeleted(t, user, expected).0.Ok?
    ensures UserDeleted(t, user, expected).1.settingsUpdatedBy == t.settingsUpdatedBy
    ensures user !in UserDeleted(t, user, expected).1.users
    ensures t.settingsUpdatedBy == Some(user) ==> !SettingsByOwner(t)
  {}
}
