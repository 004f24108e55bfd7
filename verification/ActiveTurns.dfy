/** The registry of active turns of agent/app/runtime.py. Each step is what one thread does under the lock, or one
    signal it raises after leaving it; the steps of all threads interleave freely. */
module ActiveTurns {
  import opened Options

  // Turn ids are generated; a token and a completion event belong to each turn.
  type TurnId = nat
  datatype TurnKey = TurnKey(actor: nat, session: nat)

  // The fields behind the lock, the raised tokens and events, and what threads still hold in local variables:
  // turns a cancel request has looked up, and the rest of the snapshot a shutdown works through.
  datatype Registry = Registry(
    active: map<TurnKey, TurnId>, accepting: bool, shutdownComplete: bool,
    cancelled: set<TurnId>, completed: set<TurnId>,
    lookedUp: set<TurnId>, toCancel: set<TurnId>, toComplete: set<TurnId>)

  // What became of every registered turn; `finished` are those whose own unregister has run.
  datatype History = History(
    registered: map<TurnId, TurnKey>, replaced: set<TurnId>, left: set<TurnId>, shutDown: set<TurnId>,
    finished: set<TurnId>)

  datatype Event =
    | Register(key: TurnKey, turn: TurnId)
    | Unregister(key: TurnKey, turn: TurnId)
    | LookUp(key: TurnKey, anyone: bool, found: TurnKey)
    | Cancel(turn: TurnId)
    | BeginShutdown
    | ShutdownCancel(turn: TurnId)
    | ShutdownComplete(turn: TurnId)
    | Startup

  datatype State = State(r: Registry, h: History)

  // The key a cancel request acts on: its own, or, for someone who may stop any turn, one with the same session.
  predicate Finds(r: Registry, key: TurnKey, anyone: bool, found: TurnKey) {
    found in r.active && (found == key || (key !in r.active && anyone && found.session == key.session))
  }

  // A turn registers once, under a new id, and unregisters once, with the key it registered under.
  predicate Enabled(s: State, e: Event) {
    match e
    case Register(_, turn) => turn !in s.h.registered
    case Unregister(key, turn) => turn in s.h.registered && s.h.registered[turn] == key && turn !in s.h.finished
    case LookUp(key, anyone, found) => Finds(s.r, key, anyone, found)
    case Cancel(turn) => turn in s.r.lookedUp
    case ShutdownCancel(turn) => turn in s.r.toCancel
    case ShutdownComplete(turn) => turn in s.r.toComplete && turn !in s.r.toCancel
    case _ => true
  }

  function Occupants(active: map<TurnKey, TurnId>, key: TurnKey): set<TurnId> {
    if key in active then {active[key]} else {}
  }

  function Registered(s: State, key: TurnKey, turn: TurnId): State {
    if !s.r.accepting then s
    else
      var previous := Occupants(s.r.active, key);
      State(s.r.(active := s.r.active[key := turn], cancelled := s.r.cancelled + previous),
            s.h.(registered := s.h.registered[turn := key], replaced := s.h.replaced + previous))
  }

  function Unregistered(s: State, key: TurnKey, turn: TurnId): State {
    if key in s.r.active && s.r.active[key] == turn
    then State(s.r.(active := s.r.active - {key}, completed := s.r.completed + {turn}),
               s.h.(left := s.h.left + {turn}, finished := s.h.finished + {turn}))
    else s.(h := s.h.(finished := s.h.finished + {turn}))
  }

  function ShutdownBegun(s: State): State {
    if s.r.shutdownComplete then s
    else
      var turns := s.r.active.Values;
      State(s.r.(active := map[], accepting := false, shutdownComplete := true,
                 toCancel := s.r.toCancel + turns, toComplete := s.r.toComplete + turns),
            s.h.(shutDown := s.h.shutDown + turns))
  }

  function Step(s: State, e: Event): State
    requires Enabled(s, e)
  {
    match e
    case Register(key, turn) => Registered(s, key, turn)
    case Unregister(key, turn) => Unregistered(s, key, turn)
    case LookUp(_, _, found) => s.(r := s.r.(lookedUp := s.r.lookedUp + {s.r.active[found]}))
    case Cancel(turn) => s.(r := s.r.(cancelled := s.r.cancelled + {turn}, lookedUp := s.r.lookedUp - {turn}))
    case BeginShutdown => ShutdownBegun(s)
    case ShutdownCancel(turn) =>
      s.(r := s.r.(cancelled := s.r.cancelled + {turn}, toCancel := s.r.toCancel - {turn}))
    case ShutdownComplete(turn) =>
      s.(r := s.r.(completed := s.r.completed + {turn}, toComplete := s.r.toComplete - {turn}))
    case Startup => s.(r := s.r.(accepting := true, shutdownComplete := false))
  }

  // Events that cannot happen are skipped.
  function Try(s: State, e: Event): State {
    if Enabled(s, e) then Step(s, e) else s
  }

  function After(s: State, events: seq<Event>): State
    decreases |events|
  {
    if events == [] then s else After(Try(s, events[0]), events[1..])
  }

  const FRESH := State(Registry(map[], true, false, {}, {}, {}, {}, {}), History(map[], {}, {}, {}, {}))

  // ----- what every reachable state satisfies -----

  predicate IsCurrent(s: State, turn: TurnId) {
    turn in s.h.registered && s.h.registered[turn] in s.r.active && s.r.active[s.h.registered[turn]] == turn
  }

  /** A registered turn that has not unregistered is the current one of its key, or its token is cancelled, or a
      shutdown is about to cancel it. */
  predicate NobodyForgotten(s: State) {
    forall t :: t in s.h.registered && t !in s.h.finished ==>
      IsCurrent(s, t) || t in s.r.cancelled || t in s.r.toCancel
  }

  /** Every registered turn is current, or went in exactly one of three ways. */
  predicate Accounted(s: State) {
    && (forall k :: k in s.r.active ==> IsCurrent(s, s.r.active[k]) && s.h.registered[s.r.active[k]] == k)
    && (forall t :: t in s.h.registered ==>
          IsCurrent(s, t) || t in s.h.replaced || t in s.h.left || t in s.h.shutDown)
    && s.h.replaced + s.h.left + s.h.shutDown <= s.h.registered.Keys
    && s.h.replaced !! s.h.left !! s.h.shutDown
    && (forall t :: t in s.h.replaced + s.h.left + s.h.shutDown ==> !IsCurrent(s, t))
  }

  /** The completion event is set exactly for turns that left by their own unregister, and for those a shutdown
      removed, once it gets to them; in particular never for a replaced turn. */
  predicate CompletedExactly(s: State) {
    s.r.completed == s.h.left + (s.h.shutDown - s.r.toComplete) && s.r.toComplete <= s.h.shutDown
  }

  /** Between a shutdown and the next startup nothing is active. */
  predicate ClosedWhenShut(s: State) {
    s.r.accepting == !s.r.shutdownComplete && (s.r.shutdownComplete ==> s.r.active == map[])
  }

  predicate Sound(s: State) {
    NobodyForgotten(s) && Accounted(s) && CompletedExactly(s) && ClosedWhenShut(s)
  }

  lemma FreshSound()
    ensures Sound(FRESH)
  {}

  lemma RegisterSound(s: State, key: TurnKey, turn: TurnId)
    requires Sound(s) && turn !in s.h.registered
    ensures Sound(Registered(s, key, turn))
  {}

  lemma UnregisterSound(s: State, key: TurnKey, turn: TurnId)
    requires Sound(s) && turn in s.h.registered && s.h.registered[turn] == key
    ensures Sound(Unregistered(s, key, turn))
  {}

  lemma ShutdownSound(s: State)
    requires Sound(s)
    ensures Sound(ShutdownBegun(s))
  {}

  lemma StepSound(s: State, e: Event)
    requires Sound(s) && Enabled(s, e)
    ensures Sound(Step(s, e))
  {
    match e
    case Register(key, turn) => RegisterSound(s, key, turn);
    case Unregister(key, turn) => UnregisterSound(s, key, turn);
    case BeginShutdown => ShutdownSound(s);
    case _ =>
  }

  lemma {:induction false} RunSound(s: State, events: seq<Event>)
    requires Sound(s)
    ensures Sound(After(s, events))
    decreases |events|
  {
    if events != [] {
      if Enabled(s, events[0]) {
        StepSound(s, events[0]);
      }
      RunSound(Try(s, events[0]), events[1..]);
    }
  }

  // ----- consequences for whole runs -----

  /** A current turn only loses its place to a newer turn of its own key, to its own unregister or to a shutdown:
      the late unregister of an older turn never evicts it. */
  lemma EvictedOnlyBy(s: State, e: Event, turn: TurnId)
    requires Sound(s) && Enabled(s, e) && IsCurrent(s, turn) && !IsCurrent(Step(s, e), turn)
    ensures e.BeginShutdown? || e == Unregister(s.h.registered[turn], turn)
            || (e.Register? && e.key == s.h.registered[turn])
  {}

  /** Nothing registers from a shutdown to the next startup. */
  lemma {:induction false} NothingRegistersWhenShut(s: State, events: seq<Event>)
    requires Sound(s) && s.r.shutdownComplete && Startup !in events
    ensures After(s, events).h.registered == s.h.registered && After(s, events).r.active == map[]
    decreases |events|
  {
    if events != [] {
      assert events[0] in events;
      if Enabled(s, events[0]) {
        StepSound(s, events[0]);
      }
      NothingRegistersWhenShut(Try(s, events[0]), events[1..]);
    }
  }

  /** Whoever waits for the completion of a turn that a newer one has replaced waits in vain, whatever happens. */
  lemma {:induction false} ReplacedNeverCompletes(s: State, events: seq<Event>, turn: TurnId)
    requires Sound(s) && turn in s.h.replaced
    ensures turn !in After(s, events).r.completed
    decreases |events|
  {
    if events != [] {
      if Enabled(s, events[0]) {
        StepSound(s, events[0]);
      }
      assert turn in Try(s, events[0]).h.replaced;
      ReplacedNeverCompletes(Try(s, events[0]), events[1..], turn);
    }
  }

  // ----- the runtime, one thread at a time -----

  ghost predicate Reaches(s: State, t: State) {
    exists events :: After(s, events) == t
  }

  lemma {:induction false} AfterOneMore(s: State, events: seq<Event>, e: Event)
    ensures After(s, events + [e]) == Try(After(s, events), e)
    decreases |events|
  {
    if events == [] {
      assert [e][1..] == [];
      assert After(Try(s, e), []) == Try(s, e);
      assert [] + [e] == [e];
    } else {
      AfterOneMore(Try(s, events[0]), events[1..], e);
      assert (events + [e])[1..] == events[1..] + [e];
    }
  }

  lemma ReachesStep(s: State, t: State, e: Event)
    requires Reaches(s, t)
    ensures Reaches(s, Try(t, e))
  {
    var events :| After(s, events) == t;
    AfterOneMore(s, events, e);
  }

  lemma ReachesItself(s: State)
    ensures Reaches(s, s)
  {
    assert After(s, []) == s;
  }

  lemma ReachedSound(s: State, t: State)
    requires Reaches(s, t) && Sound(s)
    ensures Sound(t)
  {
    var events :| After(s, events) == t;
    RunSound(s, events);
  }

  // The two signals a shutdown raises for one turn.
  function Signalled(s: State, turn: TurnId): State {
    s.(r := s.r.(cancelled := s.r.cancelled + {turn}, completed := s.r.completed + {turn},
                 toCancel := s.r.toCancel - {turn}, toComplete := s.r.toComplete - {turn}))
  }

  lemma SignalReaches(before: State, s: State, turn: TurnId)
    requires Reaches(before, s) && turn in s.r.toCancel && turn in s.r.toComplete
    ensures Reaches(before, Signalled(s, turn))
  {
    ReachesStep(before, s, ShutdownCancel(turn));
    ReachesStep(before, Try(s, ShutdownCancel(turn)), ShutdownComplete(turn));
  }

  class WebRuntime {
    var active: map<TurnKey, TurnId>
    var accepting: bool
    var shutdownComplete: bool
    var cancelled: set<TurnId>
    var completed: set<TurnId>
    ghost var history: History

    constructor ()
      ensures Now() == FRESH
    {
      active, accepting, shutdownComplete := map[], true, false;
      cancelled, completed := {}, {};
      history := FRESH.h;
    }

    // No other thread is inside a method.
    ghost function Now(): State
      reads this
    {
      State(Registry(active, accepting, shutdownComplete, cancelled, completed, {}, {}, {}), history)
    }

    method RegisterTurn(key: TurnKey, turn: TurnId) returns (accepted: bool)
      requires Sound(Now()) && turn !in history.registered
      modifies this
      ensures accepted == old(accepting) && Now() == Registered(old(Now()), key, turn) && Sound(Now())
    {
      RegisterSound(Now(), key, turn);
      if !accepting {
        return false;
      }
      ghost var replaced := Occupants(active, key);
      if key in active {
        cancelled := cancelled + {active[key]};
      }
      active := active[key := turn];
      history := history.(registered := history.registered[turn := key], replaced := history.replaced + replaced);
      return true;
    }

    method UnregisterTurn(key: TurnKey, turn: TurnId)
      requires Sound(Now()) && Enabled(Now(), Unregister(key, turn))
      modifies this
      ensures Now() == Unregistered(old(Now()), key, turn) && Sound(Now())
    {
      UnregisterSound(Now(), key, turn);
      if key in active && active[key] == turn {
        active := active - {key};
        completed := completed + {turn};
        history := history.(left := history.left + {turn});
      }
      history := history.(finished := history.finished + {turn});
    }

    /** Cancels the turn of the key, or for someone who may stop any turn one with the same session; answers none
        exactly when there is no such turn. */
    method CancelSession(key: TurnKey, anyone: bool) returns (turn: Option<TurnId>)
      modifies this
      ensures turn.None? ==> Now() == old(Now()) && forall found :: !Finds(old(Now().r), key, anyone, found)
      ensures turn.Some? ==>
        && (exists found :: Finds(old(Now().r), key, anyone, found) && old(active)[found] == turn.value)
        && Now() == old(Now()).(r := old(Now()).r.(cancelled := old(cancelled) + {turn.value}))
    {
      var found := key;
      if key !in active {
        if !anyone || !exists k :: k in active && k.session == key.session {
          return None;
        }
        found :| found in active && found.session == key.session;
      }
      assert Finds(Now().r, key, anyone, found);
      cancelled := cancelled + {active[found]};
      return Some(active[found]);
    }

    method StartUp()
      modifies this
      ensures Now() == Step(old(Now()), Startup)
    {
      accepting, shutdownComplete := true, false;
    }

    /** Removes every active turn, cancels its token and sets its completion event; a second call does nothing. */
    method Shutdown()
      requires Sound(Now())
      modifies this
      ensures old(shutdownComplete) ==> Now() == old(Now())
      ensures !old(shutdownComplete) ==>
        && active == map[] && !accepting && shutdownComplete
        && cancelled == old(cancelled) + old(active.Values) && completed == old(completed) + old(active.Values)
      ensures Reaches(old(Now()), Now()) && Sound(Now())
    {
      ghost var before := Now();
      ReachesItself(before);
      if shutdownComplete {
        return;
      }
      var turns := active.Values;
      accepting, active, shutdownComplete := false, map[], true;
      history := history.(shutDown := history.shutDown + turns);
      ReachesStep(before, before, BeginShutdown);
      assert Shutting(turns) == Try(before, BeginShutdown);
      SignalAll(turns, before);
      ReachedSound(before, Now());
    }

    // Raises the token and the completion event of every turn of the snapshot.
    method SignalAll(turns: set<TurnId>, ghost before: State)
      requires Reaches(before, Shutting(turns))
      modifies this`cancelled, this`completed
      ensures cancelled == old(cancelled) + turns && completed == old(completed) + turns
      ensures Reaches(before, Now())
    {
      var rest := turns;
      while rest != {}
        invariant rest <= turns && Reaches(before, Shutting(rest))
        invariant cancelled == old(cancelled) + (turns - rest) && completed == old(completed) + (turns - rest)
        decreases |rest|
      {
        var turn :| turn in rest;
        SignalReaches(before, Shutting(rest), turn);
        cancelled := cancelled + {turn};
        completed := completed + {turn};
        rest := rest - {turn};
      }
    }

    // The state in the middle of a shutdown.
    ghost function Shutting(rest: set<TurnId>): State
      reads this
    {
      State(Registry(active, accepting, shutdownComplete, cancelled, completed, {}, rest, rest), history)
    }
  }
}
