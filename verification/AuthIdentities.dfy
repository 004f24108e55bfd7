/** External identities, channel accounts and authorization requests of agent/auth/store.py. */
module AuthIdentities {
  import opened Options
  import opened AuthTables

  type Identities = map<IdentityKey, Identity>

  predicate ActiveQq(identities: Identities, k: IdentityKey) {
    k in identities && k.channel == Qq && identities[k].status == Active
  }

  // The user has an active QQ binding to another identity than `k`.
  predicate BoundElsewhere(identities: Identities, user: Id, k: IdentityKey) {
    exists other :: other in identities && other != k && ActiveQq(identities, other) && identities[other].user == user
  }

  /** What the partial unique index on active QQ rows demands: a user has at most one. */
  predicate OneToOne(identities: Identities) {
    forall k, l :: k in identities && l in identities && ActiveQq(identities, k) && ActiveQq(identities, l) && k != l ==>
      identities[k].user != identities[l].user
  }

  predicate ActiveFor(identities: Identities, k: IdentityKey, user: Id) {
    k in identities && identities[k].status == Active && identities[k].user == user
  }

  predicate ActiveForOther(identities: Identities, k: IdentityKey, user: Id) {
    k in identities && identities[k].status == Active && identities[k].user != user
  }

  // The INSERT .. ON CONFLICT DO UPDATE statement: an existing row keeps its id and linking time.
  function Upserted(identities: Identities, k: IdentityKey, user: Id, id: Id, now: int): Identities {
    if k in identities then identities[k := identities[k].(user := user, status := Active)]
    else identities[k := Identity(id, user, Active, now)]
  }

  // The statement with its constraints: the foreign key to users and the partial unique index.
  function TryUpsert(identities: Identities, users: set<Id>, k: IdentityKey, user: Id, id: Id, now: int)
    : Outcome<Identities>
  {
    var after := Upserted(identities, k, user, id, now);
    if user !in users || !OneToOne(after) then Err(IntegrityError) else Ok(after)
  }

  // A constraint violation on the QQ channel is reported as a conflict.
  function IntegrityAs(k: IdentityKey): AuthError {
    if k.channel == Qq then UserAlreadyBound else IntegrityError
  }

  function Linked(b: Bindings, users: set<Id>, k: IdentityKey, user: Id, id: Id, now: int): (Outcome<()>, Bindings) {
    if k.channel == Qq && ActiveForOther(b.identities, k, user) then (Err(IdentityAlreadyBound), b)
    else if k.channel == Qq && BoundElsewhere(b.identities, user, k) then (Err(UserAlreadyBound), b)
    else
      var after := TryUpsert(b.identities, users, k, user, id, now);
      if after.Err? then (Err(IntegrityAs(k)), b) else (Ok(()), b.(identities := after.value))
  }

  // Whether the request was consumed; an expired or unknown request and a conflict both answer no.
  function RequestConsumed(b: Bindings, users: set<Id>, request: Id, user: Id, id: Id, now: int)
    : (Outcome<bool>, Bindings)
  {
    if request !in b.requests || b.requests[request].status != RequestPending || b.requests[request].expires <= now
    then (Ok(false), b)
    else
      var row := b.requests[request];
      var k := row.identity;
      if ActiveForOther(b.identities, k, user)
      then (Ok(false), b.(requests := b.requests[request := row.(status := Conflict)]))
      else if k.channel == Qq && BoundElsewhere(b.identities, user, k) then (Err(UserAlreadyBound), b)
      else
        var after := TryUpsert(b.identities, users, k, user, id, now);
        if after.Err? then (Err(IntegrityAs(k)), b)
        else (Ok(true), b.(identities := after.value,
                           requests := b.requests[request := row.(status := Consumed, user := Some(user))]))
  }

  // The unique constraints of channel_accounts.
  predicate AccountClash(b: Bindings, k: AccountKey, account: Account) {
    || k in b.accounts
    || exists other :: other in b.accounts && other.channel == k.channel
                       && (b.accounts[other].accountKey == account.accountKey
                           || b.accounts[other].externalAccount == account.externalAccount
                           || b.accounts[other].externalUser == account.externalUser)
  }

  function IdentityOf(k: AccountKey, account: Account): IdentityKey {
    IdentityKey(k.channel, account.accountKey, account.externalUser)
  }

  // The account and its identity are plain inserts in one transaction.
  function AccountCreated(b: Bindings, users: set<Id>, k: AccountKey, account: Account, id: Id, now: int)
    : (Outcome<()>, Bindings)
  {
    var identity := IdentityOf(k, account);
    if k.owner !in users || AccountClash(b, k, account) || identity in b.identities then (Err(AccountConflict), b)
    else
      var after := TryUpsert(b.identities, users, identity, k.owner, id, now);
      if after.Err? then (Err(AccountConflict), b)
      else (Ok(()), b.(accounts := b.accounts[k := account], identities := after.value))
  }

  function AccountDeleted(b: Bindings, k: AccountKey): Bindings {
    if k !in b.accounts then b
    else
      var tenant := b.accounts[k].accountKey;
      b.(accounts := b.accounts - {k},
         identities := map i | i in b.identities
                               && !(i.channel == k.channel && i.tenant == tenant && b.identities[i].user == k.owner)
                       :: b.identities[i])
  }

  function Unlinked(identities: Identities, k: IdentityKey): Identities {
    if k in identities then identities[k := identities[k].(status := Disabled)] else identities
  }

  function UnlinkedForUser(identities: Identities, id: Id, user: Id): Identities {
    map i | i in identities ::
      if identities[i].id == id && identities[i].user == user then identities[i].(status := Disabled)
      else identities[i]
  }

  function UserForgotten(b: Bindings, user: Id): Bindings {
    Bindings(
      map r | r in b.requests && b.requests[r].user != Some(user) :: b.requests[r],
      map i | i in b.identities && b.identities[i].user != user :: b.identities[i],
      b.accounts)
  }

  // ----- invariants -----

  // No active QQ binding of `before` belongs to another user in `after`.
  predicate NeverMoved(before: Identities, after: Identities) {
    forall k :: k in before && ActiveQq(before, k) && ActiveQq(after, k) ==> after[k].user == before[k].user
  }

  // The statement only takes bindings away.
  predicate Shrunk(before: Identities, after: Identities) {
    forall k :: k in after ==> k in before && after[k].user == before[k].user
                               && (after[k].status == Active ==> before[k].status == Active)
  }

  lemma ShrunkSound(before: Identities, after: Identities)
    requires OneToOne(before) && Shrunk(before, after)
    ensures OneToOne(after) && NeverMoved(before, after)
  {}

  /** The guard on the user's other bindings is exactly what the unique index asks for: past it the index is
      never violated, and without it it always is. */
  lemma GuardsMatchIndex(identities: Identities, k: IdentityKey, user: Id, id: Id, now: int)
    requires OneToOne(identities) && k.channel == Qq
    ensures OneToOne(Upserted(identities, k, user, id, now)) <==> !BoundElsewhere(identities, user, k)
  {
    var after := Upserted(identities, k, user, id, now);
    if BoundElsewhere(identities, user, k) {
      var other :| other in identities && other != k && ActiveQq(identities, other) && identities[other].user == user;
      assert ActiveQq(after, other) && ActiveQq(after, k);
    }
  }

  // Another channel never touches the QQ rows.
  lemma OtherChannelSound(identities: Identities, k: IdentityKey, user: Id, id: Id, now: int)
    requires OneToOne(identities) && k.channel != Qq
    ensures OneToOne(Upserted(identities, k, user, id, now))
    ensures NeverMoved(identities, Upserted(identities, k, user, id, now))
  {}

  lemma UpsertSound(identities: Identities, k: IdentityKey, user: Id, id: Id, now: int)
    requires OneToOne(identities) && !ActiveForOther(identities, k, user) && !BoundElsewhere(identities, user, k)
    ensures OneToOne(Upserted(identities, k, user, id, now))
    ensures NeverMoved(identities, Upserted(identities, k, user, id, now))
  {
    if k.channel == Qq {
      GuardsMatchIndex(identities, k, user, id, now);
    } else {
      OtherChannelSound(identities, k, user, id, now);
    }
  }

  /** Linking keeps the bindings one-to-one and moves none; it fails only for the reported reasons. */
  lemma LinkSound(b: Bindings, users: set<Id>, k: IdentityKey, user: Id, id: Id, now: int)
    requires OneToOne(b.identities)
    ensures OneToOne(Linked(b, users, k, user, id, now).1.identities)
    ensures NeverMoved(b.identities, Linked(b, users, k, user, id, now).1.identities)
    ensures Linked(b, users, k, user, id, now).0.Ok? <==>
      user in users && (k.channel == Qq ==> !ActiveForOther(b.identities, k, user) && !BoundElsewhere(b.identities, user, k))
  {
    if k.channel == Qq {
      GuardsMatchIndex(b.identities, k, user, id, now);
    } else {
      OtherChannelSound(b.identities, k, user, id, now);
    }
  }

  /** Consuming a request moves no active binding of any channel. */
  lemma ConsumeSound(b: Bindings, users: set<Id>, request: Id, user: Id, id: Id, now: int)
    requires OneToOne(b.identities)
    ensures OneToOne(RequestConsumed(b, users, request, user, id, now).1.identities)
    ensures NeverMoved(b.identities, RequestConsumed(b, users, request, user, id, now).1.identities)
    ensures forall k, u :: ActiveFor(b.identities, k, u) ==>
      ActiveFor(RequestConsumed(b, users, request, user, id, now).1.identities, k, u)
    ensures RequestConsumed(b, users, request, user, id, now).0 == Ok(true) ==>
      ActiveFor(RequestConsumed(b, users, request, user, id, now).1.identities, b.requests[request].identity, user)
  {
    if request in b.requests {
      var k := b.requests[request].identity;
      if k.channel == Qq {
        GuardsMatchIndex(b.identities, k, user, id, now);
      } else {
        OtherChannelSound(b.identities, k, user, id, now);
      }
    }
  }

  lemma AccountSound(b: Bindings, users: set<Id>, k: AccountKey, account: Account, id: Id, now: int)
    requires OneToOne(b.identities)
    ensures OneToOne(AccountCreated(b, users, k, account, id, now).1.identities)
    ensures NeverMoved(b.identities, AccountCreated(b, users, k, account, id, now).1.identities)
  {}

  /** On every other channel linking does move an active binding: the guard is written for QQ only. */
  lemma OtherChannelMoves(b: Bindings, users: set<Id>, k: IdentityKey, from: Id, to: Id, id: Id, now: int)
    requires OneToOne(b.identities) && k.channel != Qq && to in users && from != to && ActiveFor(b.identities, k, from)
    ensures ActiveFor(Linked(b, users, k, to, id, now).1.identities, k, to)
  {
    LinkSound(b, users, k, to, id, now);
  }

  /** Linking takes an active binding from someone exactly when the channel is not QQ, the user exists and the identity
      is active for another. */
  lemma LinkTakesIff(b: Bindings, users: set<Id>, k: IdentityKey, user: Id, id: Id, now: int)
    requires OneToOne(b.identities)
    ensures
      var after := Linked(b, users, k, user, id, now).1.identities;
      (exists j, u :: ActiveFor(b.identities, j, u) && !ActiveFor(after, j, u)) <==>
        k.channel != Qq && user in users && ActiveForOther(b.identities, k, user)
  {
    LinkSound(b, users, k, user, id, now);
    LinkOutcome(b, users, k, user, id, now);
    if k.channel != Qq && user in users && ActiveForOther(b.identities, k, user) {
      var from := b.identities[k].user;
      assert ActiveFor(b.identities, k, from);
      assert !ActiveFor(Linked(b, users, k, user, id, now).1.identities, k, from);
    }
  }

  // Only the row of `k` may differ.
  predicate OnlyRow(before: Identities, after: Identities, k: IdentityKey) {
    && (forall j :: j in before && j != k ==> j in after && after[j] == before[j])
    && (forall j :: j in after && j != k ==> j in before)
  }

  /** After linking, the identity is active for the user and no other row, request or account has changed; an error
      changes nothing. */
  lemma LinkOutcome(b: Bindings, users: set<Id>, k: IdentityKey, user: Id, id: Id, now: int)
    ensures
      var (outcome, after) := Linked(b, users, k, user, id, now);
      && (outcome.Err? ==> after == b)
      && (outcome.Ok? ==> ActiveFor(after.identities, k, user) && OnlyRow(b.identities, after.identities, k)
                          && after.requests == b.requests && after.accounts == b.accounts)
  {}

  /** A request is consumed exactly when it is pending and in time, its identity is nobody else's, the user has no
      other QQ binding and exists. */
  lemma ConsumeSucceedsIff(b: Bindings, users: set<Id>, request: Id, user: Id, id: Id, now: int)
    requires OneToOne(b.identities)
    ensures
      var (outcome, after) := RequestConsumed(b, users, request, user, id, now);
      && (outcome == Ok(true) <==>
            && request in b.requests && b.requests[request].status == RequestPending
            && now < b.requests[request].expires && user in users
            && !ActiveForOther(b.identities, b.requests[request].identity, user)
            && (b.requests[request].identity.channel == Qq ==>
                  !BoundElsewhere(b.identities, user, b.requests[request].identity)))
      && (outcome == Ok(true) ==>
            && ActiveFor(after.identities, b.requests[request].identity, user)
            && OnlyRow(b.identities, after.identities, b.requests[request].identity)
            && after.accounts == b.accounts
            && after.requests == b.requests[request := b.requests[request].(status := Consumed, user := Some(user))])
      && (outcome != Ok(true) ==> after.identities == b.identities && after.accounts == b.accounts)
      && (outcome.Err? ==> after == b)
  {
    if request in b.requests {
      ConsumeUpsert(b, users, b.requests[request].identity, user, id, now);
    }
  }

  // When nothing stands against it, the upsert goes through if the user exists.
  lemma ConsumeUpsert(b: Bindings, users: set<Id>, k: IdentityKey, user: Id, id: Id, now: int)
    requires OneToOne(b.identities)
    ensures (k.channel == Qq ==> !BoundElsewhere(b.identities, user, k)) ==>
      (TryUpsert(b.identities, users, k, user, id, now).Ok? <==> user in users)
  {
    if k.channel == Qq {
      GuardsMatchIndex(b.identities, k, user, id, now);
    } else {
      OtherChannelSound(b.identities, k, user, id, now);
    }
  }

  /** A request is consumed once: consumed or in conflict it stays so, and every later attempt answers no. */
  lemma ConsumedOnce(b: Bindings, users: set<Id>, request: Id, user: Id, id: Id, now: int, other: Id, later: int)
    requires request in b.requests && b.requests[request].status == RequestPending
    ensures
      var (outcome, after) := RequestConsumed(b, users, request, user, id, now);
      after != b ==> RequestConsumed(after, users, request, other, id, later) == (Ok(false), after)
  {}

  /** A new account comes with its active identity; an error leaves neither. */
  lemma AccountOutcome(b: Bindings, users: set<Id>, k: AccountKey, account: Account, id: Id, now: int)
    ensures
      var (outcome, after) := AccountCreated(b, users, k, account, id, now);
      && (outcome.Err? ==> after == b)
      && (outcome.Ok? ==> after.accounts == b.accounts[k := account] && after.requests == b.requests
                          && ActiveFor(after.identities, IdentityOf(k, account), k.owner)
                          && OnlyRow(b.identities, after.identities, IdentityOf(k, account)))
  {}

  /** It fails exactly for a missing user, a taken account or identity, or another QQ binding of the user. */
  lemma AccountSucceedsIff(b: Bindings, users: set<Id>, k: AccountKey, account: Account, id: Id, now: int)
    requires OneToOne(b.identities)
    ensures AccountCreated(b, users, k, account, id, now).0.Ok? <==>
      && k.owner in users && !AccountClash(b, k, account) && IdentityOf(k, account) !in b.identities
      && (k.channel == Qq ==> !BoundElsewhere(b.identities, k.owner, IdentityOf(k, account)))
  {
    if k.channel == Qq {
      GuardsMatchIndex(b.identities, IdentityOf(k, account), k.owner, id, now);
    } else {
      OtherChannelSound(b.identities, IdentityOf(k, account), k.owner, id, now);
    }
  }

  /** Deleting the account of a user takes the user's identities of that account along and nothing else. */
  lemma AccountDeletedForgets(b: Bindings, k: AccountKey, i: IdentityKey)
    requires k in b.accounts && i in b.identities
    ensures
      var after := AccountDeleted(b, k);
      && k !in after.accounts
      && (i in after.identities <==>
            i.channel != k.channel || i.tenant != b.accounts[k].accountKey || b.identities[i].user != k.owner)
      && (i in after.identities ==> after.identities[i] == b.identities[i])
  {}

  // ----- migration -----

  predicate Newer(a: Identity, b: Identity) {
    a.linkedAt > b.linkedAt || (a.linkedAt == b.linkedAt && a.id > b.id)
  }

  predicate SortsBefore(a: Identity, b: Identity) {
    a.user < b.user || (a.user == b.user && Newer(a, b))
  }

  /** `rows` answers the query for the active QQ rows by user, newest first. */
  ghost predicate Answers(rows: seq<IdentityKey>, identities: Identities) {
    && (forall i :: 0 <= i < |rows| ==> rows[i] in identities && ActiveQq(identities, rows[i]))
    && (forall k :: ActiveQq(identities, k) ==> exists i :: 0 <= i < |rows| && rows[i] == k)
    && (forall i, j :: 0 <= i < j < |rows| ==> SortsBefore(identities[rows[i]], identities[rows[j]]))
  }

  // Another active QQ row of the same user was linked later.
  ghost predicate Superseded(identities: Identities, k: IdentityKey) {
    ActiveQq(identities, k) && exists l :: ActiveQq(identities, l) && identities[l].user == identities[k].user
                                           && Newer(identities[l], identities[k])
  }

  // One of the first `i` rows is of the user.
  ghost predicate MetUser(identities: Identities, rows: seq<IdentityKey>, i: nat, user: Id) {
    exists j :: 0 <= j < i && j < |rows| && rows[j] in identities && identities[rows[j]].user == user
  }

  lemma MetUserNext(identities: Identities, rows: seq<IdentityKey>, i: nat, user: Id)
    requires i < |rows| && rows[i] in identities
    ensures MetUser(identities, rows, i + 1, user) <==>
      MetUser(identities, rows, i, user) || identities[rows[i]].user == user
  {}

  // The users of the first `i` rows have been seen and the superseded ones of these rows collected.
  ghost predicate Scanned(identities: Identities, rows: seq<IdentityKey>, i: nat, seen: set<Id>,
                          later: set<IdentityKey>)
  {
    && i <= |rows|
    && (forall u :: u in seen <==> MetUser(identities, rows, i, u))
    && (forall k :: k in later <==> k in rows[..i] && Superseded(identities, k))
  }

  lemma NewerComesFirst(identities: Identities, rows: seq<IdentityKey>, i: nat, j: nat)
    requires Answers(rows, identities) && i < |rows| && j < |rows|
    requires identities[rows[i]].user == identities[rows[j]].user
    requires Newer(identities[rows[i]], identities[rows[j]])
    ensures i < j
  {}

  // A row is superseded exactly when its user was met before.
  lemma FirstIsNewest(identities: Identities, rows: seq<IdentityKey>, i: nat, seen: set<Id>, later: set<IdentityKey>)
    requires Answers(rows, identities) && Scanned(identities, rows, i, seen, later) && i < |rows|
    ensures Superseded(identities, rows[i]) <==> identities[rows[i]].user in seen
  {
    var k := rows[i];
    if identities[k].user in seen {
      var j :| 0 <= j < i && j < |rows| && rows[j] in identities && identities[rows[j]].user == identities[k].user;
      assert SortsBefore(identities[rows[j]], identities[k]);
      assert ActiveQq(identities, rows[j]);
    }
    if Superseded(identities, k) {
      var l :| ActiveQq(identities, l) && identities[l].user == identities[k].user
               && Newer(identities[l], identities[k]);
      var j :| 0 <= j < |rows| && rows[j] == l;
      NewerComesFirst(identities, rows, j, i);
    }
  }

  lemma ScanStep(identities: Identities, rows: seq<IdentityKey>, i: nat, seen: set<Id>, later: set<IdentityKey>)
    requires Answers(rows, identities) && Scanned(identities, rows, i, seen, later) && i < |rows|
    ensures identities[rows[i]].user in seen ==> Scanned(identities, rows, i + 1, seen, later + {rows[i]})
    ensures identities[rows[i]].user !in seen ==>
      Scanned(identities, rows, i + 1, seen + {identities[rows[i]].user}, later)
  {
    FirstIsNewest(identities, rows, i, seen, later);
    if identities[rows[i]].user in seen {
      ScanOld(identities, rows, i, seen, later);
    } else {
      ScanNew(identities, rows, i, seen, later);
    }
  }

  lemma TakeNext<T>(s: seq<T>, i: nat)
    requires i < |s|
    ensures forall x :: x in s[..i + 1] <==> x in s[..i] || x == s[i]
  {
    assert s[..i + 1] == s[..i] + [s[i]];
  }

  // A further row of a user met before.
  lemma ScanOld(identities: Identities, rows: seq<IdentityKey>, i: nat, seen: set<Id>, later: set<IdentityKey>)
    requires Scanned(identities, rows, i, seen, later) && i < |rows| && rows[i] in identities
    requires identities[rows[i]].user in seen && Superseded(identities, rows[i])
    ensures Scanned(identities, rows, i + 1, seen, later + {rows[i]})
  {
    TakeNext(rows, i);
    forall u ensures MetUser(identities, rows, i + 1, u) <==> u in seen {
      MetUserNext(identities, rows, i, u);
    }
  }

  // The first row of a user.
  lemma ScanNew(identities: Identities, rows: seq<IdentityKey>, i: nat, seen: set<Id>, later: set<IdentityKey>)
    requires Scanned(identities, rows, i, seen, later) && i < |rows| && rows[i] in identities
    requires !Superseded(identities, rows[i])
    ensures Scanned(identities, rows, i + 1, seen + {identities[rows[i]].user}, later)
  {
    TakeNext(rows, i);
    var user := identities[rows[i]].user;
    forall u ensures MetUser(identities, rows, i + 1, u) <==> u in seen + {user} {
      MetUserNext(identities, rows, i, u);
    }
  }

  method FindDuplicates(identities: Identities, rows: seq<IdentityKey>) returns (later: set<IdentityKey>)
    requires Answers(rows, identities)
    ensures forall k :: k in later <==> Superseded(identities, k)
  {
    assert rows[..|rows|] == rows;
    var seen: set<Id> := {};
    later := {};
    for i := 0 to |rows|
      invariant Scanned(identities, rows, i, seen, later)
    {
      ScanStep(identities, rows, i, seen, later);
      var user := identities[rows[i]].user;
      if user in seen {
        later := later + {rows[i]};
      } else {
        seen := seen + {user};
      }
    }
  }

  // Of two active QQ rows of one user the query puts one first, and that one supersedes the other.
  lemma OneIsSuperseded(identities: Identities, rows: seq<IdentityKey>, k: IdentityKey, l: IdentityKey)
    requires Answers(rows, identities) && ActiveQq(identities, k) && ActiveQq(identities, l)
    requires k != l && identities[k].user == identities[l].user
    ensures Superseded(identities, k) || Superseded(identities, l)
  {
    var i :| 0 <= i < |rows| && rows[i] == k;
    var j :| 0 <= j < |rows| && rows[j] == l;
    if i < j {
      assert SortsBefore(identities[rows[i]], identities[rows[j]]);
    } else {
      assert SortsBefore(identities[rows[j]], identities[rows[i]]);
    }
  }

  function Disable(identities: Identities, rows: set<IdentityKey>): Identities {
    map k | k in identities :: if k in rows then identities[k].(status := Disabled) else identities[k]
  }

  /** The migration disables every active QQ row that a later one of the same user supersedes and touches nothing
      else; what remains is one-to-one. */
  method MigrateSingleActiveQqIdentity(identities: Identities, rows: seq<IdentityKey>) returns (after: Identities)
    requires Answers(rows, identities)
    ensures after.Keys == identities.Keys
    ensures forall k :: k in identities ==>
      after[k] == if Superseded(identities, k) then identities[k].(status := Disabled) else identities[k]
    ensures OneToOne(after) && NeverMoved(identities, after)
  {
    var later := FindDuplicates(identities, rows);
    after := Disable(identities, later);
    forall k, l | k in after && l in after && ActiveQq(after, k) && ActiveQq(after, l) && k != l
      ensures after[k].user != after[l].user
    {
      if identities[k].user == identities[l].user {
        OneIsSuperseded(identities, rows, k, l);
      }
    }
  }

  /** The migration leaves no user without a binding who had one. */
  lemma NewestSurvives(identities: Identities, rows: seq<IdentityKey>, i: nat)
    requires Answers(rows, identities) && i < |rows|
    ensures exists l :: ActiveQq(identities, l) && identities[l].user == identities[rows[i]].user
                        && !Superseded(identities, l)
  {
    var k := rows[i];
    if Superseded(identities, k) {
      var l :| ActiveQq(identities, l) && identities[l].user == identities[k].user
               && Newer(identities[l], identities[k]);
      var j :| 0 <= j < |rows| && rows[j] == l;
      NewerComesFirst(identities, rows, j, i);
      NewestSurvives(identities, rows, j);
    }
  }
}
