/** Session ownership and conversation routes (agent/auth/store.py, agent/channels/conversation.py). */
module AuthChats {
  import opened AuthTables
  import AuthDeletion

  function SessionCreated(c: Chats, users: set<Id>, session: Id, owner: Id): (Outcome<()>, Chats) {
    if session in c.sessions || owner !in users then (Err(IntegrityError), c)
    else (Ok(()), c.(sessions := c.sessions[session := owner]))
  }

  // Routes to the session go first.
  function SessionDeleted(c: Chats, session: Id): Chats {
    Chats(c.sessions - {session}, map k | k in c.routes && c.routes[k] != session :: c.routes[k])
  }

  function RouteUpserted(c: Chats, users: set<Id>, k: RouteKey, session: Id): (Outcome<()>, Chats) {
    if k.owner !in users || session !in c.sessions then (Err(IntegrityError), c)
    else (Ok(()), c.(routes := c.routes[k := session]))
  }

  // A new session for the actor and the route to it, in two transactions.
  function Rotated(c: Chats, users: set<Id>, k: RouteKey, session: Id): (Outcome<Id>, Chats) {
    var (created, withSession) := SessionCreated(c, users, session, k.owner);
    if created.Err? then (Err(created.error), withSession)
    else
      var (routed, after) := RouteUpserted(withSession, users, k, session);
      if routed.Err? then (Err(routed.error), after) else (Ok(session), after)
  }

  function Resolved(c: Chats, users: set<Id>, k: RouteKey, session: Id): (Outcome<Id>, Chats) {
    if k in c.routes then (Ok(c.routes[k]), c) else Rotated(c, users, k, session)
  }

  // A session with an owner keeps that owner for as long as it is indexed.
  predicate OwnersKept(before: Chats, after: Chats) {
    forall s :: s in before.sessions && s in after.sessions ==> after.sessions[s] == before.sessions[s]
  }

  predicate ChatsSound(c: Chats, users: set<Id>) {
    ChatRefs(c, users) && AuthDeletion.RoutesOwn(c)
  }

  lemma CreateSound(c: Chats, users: set<Id>, session: Id, owner: Id)
    requires ChatsSound(c, users)
    ensures ChatsSound(SessionCreated(c, users, session, owner).1, users)
    ensures OwnersKept(c, SessionCreated(c, users, session, owner).1)
  {}

  lemma DeleteSound(c: Chats, users: set<Id>, session: Id)
    requires ChatsSound(c, users)
    ensures ChatsSound(SessionDeleted(c, session), users) && OwnersKept(c, SessionDeleted(c, session))
  {}

  /** A route may be pointed at a session exactly when the session belongs to the route's owner. */
  lemma UpsertSoundIff(c: Chats, users: set<Id>, k: RouteKey, session: Id)
    requires ChatsSound(c, users)
    ensures ChatsSound(RouteUpserted(c, users, k, session).1, users) <==>
      (k.owner in users && session in c.sessions ==> c.sessions[session] == k.owner)
  {
    var after := RouteUpserted(c, users, k, session).1;
    if k.owner in users && session in c.sessions {
      assert after.routes[k] == session;
    }
  }

  /** Resolving a conversation answers a session of the actor, old or new, and keeps every route sound. */
  lemma ResolveSound(c: Chats, users: set<Id>, k: RouteKey, session: Id)
    requires ChatsSound(c, users)
    ensures ChatsSound(Resolved(c, users, k, session).1, users)
    ensures Resolved(c, users, k, session).0.Ok? ==>
      var found := Resolved(c, users, k, session).0.value;
      var after := Resolved(c, users, k, session).1;
      && found in after.sessions && after.sessions[found] == k.owner
      && k in after.routes && after.routes[k] == found
    ensures k in c.routes ==> Resolved(c, users, k, session) == (Ok(c.routes[k]), c)
    ensures k !in c.routes && k.owner in users && session !in c.sessions ==>
      Resolved(c, users, k, session).0 == Ok(session)
  {
    if k !in c.routes {
      CreateSound(c, users, session, k.owner);
    }
  }
}
