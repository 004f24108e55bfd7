/** Tool confirmations: a blocked tool call, its canceller, its timeout and any number of deciders race for one row
    (agent/auth/confirmation.py and the confirmation methods of agent/auth/store.py). */
module Confirmations {
  import opened Options
  import opened AuthTables
  import AuthDeletion

  // ----- the store methods, each one atomic step -----

  function CallRecorded(l: Ledger, users: set<Id>, id: Id, session: Id, actor: Id): (Outcome<()>, Ledger) {
    if actor !in users then (Err(IntegrityError), l)
    else (Ok(()), l.(toolCalls := l.toolCalls[id := ToolCallRecord(session, actor, None)]))
  }

  // An UPDATE of a record that is not there changes nothing.
  function WithRecordStatus(l: Ledger, record: Id, status: ConfirmationStatus): Ledger {
    if record !in l.toolCalls then l
    else l.(toolCalls := l.toolCalls[record := l.toolCalls[record].(confirmation := Some(status))])
  }

  function ConfirmationCreated(l: Ledger, users: set<Id>, id: Id, record: Id, actor: Id, expires: int)
    : (Outcome<()>, Ledger)
  {
    if id in l.confirmations || record !in l.toolCalls || actor !in users then (Err(IntegrityError), l)
    else
      var row := Confirmation(record, actor, Pending, expires, None, None);
      (Ok(()), WithRecordStatus(l.(confirmations := l.confirmations[id := row]), record, Pending))
  }

  // The UPDATE of the row and of its record; it does not ask for the status again.
  function Written(l: Ledger, id: Id, status: ConfirmationStatus, now: int, decider: Option<Id>): Ledger
    requires id in l.confirmations
  {
    var row := l.confirmations[id].(status := status, decidedAt := Some(now), decider := decider);
    WithRecordStatus(l.(confirmations := l.confirmations[id := row]), row.record, status)
  }

  // What a decider settles a pending row to.
  function Verdict(row: Confirmation, approved: bool, now: int): ConfirmationStatus {
    if row.expires <= now then Expired else if approved then Approved else Denied
  }

  function Decided(l: Ledger, users: set<Id>, id: Id, decider: Id, approved: bool, manageAny: bool, now: int)
    : (Outcome<ConfirmationStatus>, Ledger)
  {
    if id !in l.confirmations || (!manageAny && l.confirmations[id].actor != decider)
    then (Err(ConfirmationNotFound), l)
    else
      var row := l.confirmations[id];
      if row.status != Pending then (Ok(row.status), l)
      else if decider !in users then (Err(IntegrityError), l)
      else (Ok(Verdict(row, approved, now)), Written(l, id, Verdict(row, approved, now), now, Some(decider)))
  }

  function Ended(l: Ledger, id: Id, status: ConfirmationStatus, now: int): (ConfirmationStatus, Ledger) {
    if id !in l.confirmations then (status, l)
    else if l.confirmations[id].status != Pending then (l.confirmations[id].status, l)
    else (status, Written(l, id, status, now, l.confirmations[id].decider))
  }

  /** Who may decide, and what each decision of a pending row stores: "approved" exactly for an approval in time, and
      what the decider is told is what the row and its record show. */
  lemma DecisionMeans(l: Ledger, users: set<Id>, id: Id, decider: Id, approved: bool, manageAny: bool, now: int)
    requires id in l.confirmations && l.confirmations[id].status == Pending && decider in users
    ensures
      var row := l.confirmations[id];
      var (outcome, after) := Decided(l, users, id, decider, approved, manageAny, now);
      && (outcome.Ok? <==> manageAny || decider == row.actor)
      && (outcome.Err? ==> after == l)
      && (outcome == Ok(Approved) <==> outcome.Ok? && approved && now < row.expires)
      && (outcome == Ok(Denied) <==> outcome.Ok? && !approved && now < row.expires)
      && (outcome == Ok(Expired) <==> outcome.Ok? && row.expires <= now)
      && (outcome.Ok? ==>
            && after.confirmations[id]
               == row.(status := outcome.value, decidedAt := Some(now), decider := Some(decider))
            && (row.record in l.toolCalls ==>
                  after.toolCalls[row.record].confirmation == Some(outcome.value)))
  {}

  /** A cancelled or timed-out call settles its pending row; a settled one it only reads. */
  lemma EndMeans(l: Ledger, id: Id, status: ConfirmationStatus, now: int)
    requires id in l.confirmations
    ensures
      var (final, after) := Ended(l, id, status, now);
      && final == after.confirmations[id].status
      && (l.confirmations[id].status == Pending ==> final == status)
      && (l.confirmations[id].status != Pending ==> after == l)
  {}

  // ----- the broker as a step system -----

  datatype Reader = BlockedCall | Decider
  // A final status handed to someone.
  datatype Report = Report(id: Id, reader: Reader, status: ConfirmationStatus)

  datatype Event =
    | AddUser(user: Id)
    | Record(record: Id, session: Id, actor: Id)
    | Request(id: Id, record: Id, actor: Id, expires: int)
    | Decide(id: Id, decider: Id, approved: bool, manageAny: bool, now: int)
    | Poll(id: Id)
    | Cancel(id: Id, now: int)
    | Timeout(id: Id, now: int)
    | DeleteUser(chats: Chats, user: Id)

  // `waiting` are the calls blocked in request, `known` all requests so far, `orphaned` those whose row was deleted
  // under a blocked call.
  datatype State = State(users: set<Id>, ledger: Ledger, waiting: set<Id>, known: set<Id>, orphaned: set<Id>,
                         reports: seq<Report>)

  // Generated ids are new; a tool call asks once; only a blocked call polls, is cancelled or times out.
  predicate Enabled(s: State, e: Event) {
    match e
    case Record(record, _, _) => record !in s.ledger.toolCalls
    case Request(id, record, _, _) =>
      id !in s.known && record in s.ledger.toolCalls
      && forall k :: k in s.ledger.confirmations ==> s.ledger.confirmations[k].record != record
    case Poll(id) => id in s.waiting
    case Cancel(id, _) => id in s.waiting
    case Timeout(id, _) => id in s.waiting
    case _ => true
  }

  // The blocked call returns with the status.
  function Returned(s: State, id: Id, status: ConfirmationStatus, l: Ledger): State {
    s.(ledger := l, waiting := s.waiting - {id}, reports := s.reports + [Report(id, BlockedCall, status)])
  }

  function AfterRequest(s: State, id: Id, record: Id, actor: Id, expires: int): State {
    var (outcome, l) := ConfirmationCreated(s.ledger, s.users, id, record, actor, expires);
    if outcome.Err? then s.(ledger := l, known := s.known + {id})
    else s.(ledger := l, waiting := s.waiting + {id}, known := s.known + {id})
  }

  function AfterDecide(s: State, id: Id, decider: Id, approved: bool, manageAny: bool, now: int): State {
    var (outcome, l) := Decided(s.ledger, s.users, id, decider, approved, manageAny, now);
    if outcome.Err? then s.(ledger := l)
    else s.(ledger := l, reports := s.reports + [Report(id, Decider, outcome.value)])
  }

  // A missing row reads as pending.
  function AfterPoll(s: State, id: Id): State {
    if id in s.ledger.confirmations && s.ledger.confirmations[id].status != Pending
    then Returned(s, id, s.ledger.confirmations[id].status, s.ledger)
    else s
  }

  function AfterEnd(s: State, id: Id, status: ConfirmationStatus, now: int): State {
    var (final, l) := Ended(s.ledger, id, status, now);
    Returned(s, id, final, l)
  }

  // The deletion of a user takes confirmations along, also under a blocked call.
  function AfterDeletion(s: State, chats: Chats, user: Id): State {
    var l := AuthDeletion.LedgerWithout(chats, s.ledger, user);
    s.(users := s.users - {user}, ledger := l,
       orphaned := s.orphaned + (s.waiting * (s.ledger.confirmations.Keys - l.confirmations.Keys)))
  }

  function Step(s: State, e: Event): State {
    match e
    case AddUser(user) => s.(users := s.users + {user})
    case Record(record, session, actor) => s.(ledger := CallRecorded(s.ledger, s.users, record, session, actor).1)
    case Request(id, record, actor, expires) => AfterRequest(s, id, record, actor, expires)
    case Decide(id, decider, approved, manageAny, now) => AfterDecide(s, id, decider, approved, manageAny, now)
    case Poll(id) => AfterPoll(s, id)
    case Cancel(id, now) => AfterEnd(s, id, Cancelled, now)
    case Timeout(id, now) => AfterEnd(s, id, Expired, now)
    case DeleteUser(chats, user) => AfterDeletion(s, chats, user)
  }

  // Events that cannot happen are skipped.
  function Try(s: State, e: Event): State {
    if Enabled(s, e) then Step(s, e) else s
  }

  // The state after a run of events in any interleaving.
  function After(s: State, events: seq<Event>): State
    decreases |events|
  {
    if events == [] then s else After(Try(s, events[0]), events[1..])
  }

  predicate Initial(s: State) {
    s.ledger.confirmations == map[] && s.waiting == {} && s.known == {} && s.orphaned == {} && s.reports == []
  }

  // ----- what every reachable state satisfies -----

  predicate Bookkeeping(s: State) {
    && s.ledger.confirmations.Keys <= s.known && s.waiting <= s.known && s.orphaned <= s.known
    && (forall i :: 0 <= i < |s.reports| ==> s.reports[i].id in s.known)
    && (forall id :: id in s.waiting && id !in s.orphaned ==> id in s.ledger.confirmations)
    && (forall id :: id in s.orphaned ==> id !in s.ledger.confirmations)
  }

  /** A confirmation and its own record show the same status, and no two share a record. */
  predicate RecordsAgree(l: Ledger) {
    && (forall k :: k in l.confirmations ==>
          && l.confirmations[k].record in l.toolCalls
          && l.toolCalls[l.confirmations[k].record].confirmation == Some(l.confirmations[k].status))
    && (forall k, j :: k in l.confirmations && j in l.confirmations && k != j ==>
          l.confirmations[k].record != l.confirmations[j].record)
  }

  /** Approved rows were decided before they expired; `now` is the clock reading that is compared with the expiry. */
  predicate ApprovedInTime(l: Ledger) {
    forall k :: k in l.confirmations && l.confirmations[k].status == Approved ==>
      l.confirmations[k].decidedAt.Some? && l.confirmations[k].decidedAt.value < l.confirmations[k].expires
  }

  /** Everyone was told what the row says, and nobody is told anything while it is pending. */
  predicate ReportsStored(s: State) {
    forall i :: 0 <= i < |s.reports| && s.reports[i].id in s.ledger.confirmations ==>
      s.reports[i].status == s.ledger.confirmations[s.reports[i].id].status && s.reports[i].status != Pending
  }

  /** Everyone was told the same about a confirmation that was not deleted under its blocked call. */
  predicate ReportsAgree(s: State) {
    forall i, j :: 0 <= i < |s.reports| && 0 <= j < |s.reports| && s.reports[i].id == s.reports[j].id
                   && s.reports[i].id !in s.orphaned ==>
      s.reports[i].status == s.reports[j].status
  }

  // Someone was handed this status.
  predicate WasTold(s: State, id: Id, status: ConfirmationStatus) {
    exists i :: 0 <= i < |s.reports| && s.reports[i].id == id && s.reports[i].status == status
  }

  /** Whatever a settled row says, someone was told. */
  predicate SettledTold(s: State) {
    forall k :: k in s.ledger.confirmations && s.ledger.confirmations[k].status != Pending ==>
      WasTold(s, k, s.ledger.confirmations[k].status)
  }

  // What does not depend on the records and the clock.
  predicate Reported(s: State) {
    Bookkeeping(s) && ReportsStored(s) && SettledTold(s)
  }

  predicate Sound(s: State) {
    Reported(s) && ReportsAgree(s) && RecordsAgree(s.ledger) && ApprovedInTime(s.ledger)
  }

  // The ledger changes at most one row, and that one only while it is pending.
  predicate Settles(before: Ledger, after: Ledger, id: Id) {
    && after.confirmations.Keys == before.confirmations.Keys
    && (forall k :: k in before.confirmations && k != id ==> after.confirmations[k] == before.confirmations[k])
    && (id in before.confirmations && after.confirmations[id] != before.confirmations[id] ==>
          before.confirmations[id].status == Pending)
  }

  /** The unguarded UPDATE settles a row exactly when the row is still pending, or already is what is written. */
  lemma WrittenSettlesIff(l: Ledger, id: Id, status: ConfirmationStatus, now: int, decider: Option<Id>)
    requires id in l.confirmations
    ensures Settles(l, Written(l, id, status, now, decider), id) <==>
      l.confirmations[id].status == Pending
      || l.confirmations[id] == l.confirmations[id].(status := status, decidedAt := Some(now), decider := decider)
  {}

  lemma WrittenAgrees(l: Ledger, id: Id, status: ConfirmationStatus, now: int, decider: Option<Id>)
    requires RecordsAgree(l) && ApprovedInTime(l) && id in l.confirmations && l.confirmations[id].status == Pending
    requires status == Approved ==> now < l.confirmations[id].expires
    ensures RecordsAgree(Written(l, id, status, now, decider)) && ApprovedInTime(Written(l, id, status, now, decider))
    ensures Settles(l, Written(l, id, status, now, decider), id)
  {}

  // No status changes but that of one row, which was pending or keeps its status.
  predicate SettlesStatus(before: Ledger, after: Ledger, id: Id) {
    && after.confirmations.Keys == before.confirmations.Keys
    && (forall k :: k in before.confirmations && k != id ==>
          after.confirmations[k].status == before.confirmations[k].status)
    && (id in before.confirmations && after.confirmations[id].status != before.confirmations[id].status ==>
          before.confirmations[id].status == Pending)
  }

  // Someone is handed the status that the row has then.
  function WithReport(s: State, after: Ledger, report: Report): State {
    s.(ledger := after, reports := s.reports + [report])
  }

  // Settling a row and saying so contradicts nothing that was said before.
  lemma ReportReported(s: State, after: Ledger, report: Report)
    requires Reported(s) && SettlesStatus(s.ledger, after, report.id) && report.id in after.confirmations
    requires report.status == after.confirmations[report.id].status != Pending
    ensures Reported(WithReport(s, after, report))
  {
    var t := WithReport(s, after, report);
    assert t.reports[|s.reports|] == report;
    forall k | k in t.ledger.confirmations && t.ledger.confirmations[k].status != Pending
      ensures WasTold(t, k, t.ledger.confirmations[k].status)
    {
      if k != report.id {
        ToldStays(s, t, k, t.ledger.confirmations[k].status);
      }
    }
  }

  lemma ToldStays(s: State, t: State, id: Id, status: ConfirmationStatus)
    requires WasTold(s, id, status) && s.reports <= t.reports
    ensures WasTold(t, id, status)
  {
    var i :| 0 <= i < |s.reports| && s.reports[i].id == id && s.reports[i].status == status;
    assert t.reports[i] == s.reports[i];
  }

  // What settles no row says nothing wrong about the settled ones.
  lemma ToldKept(s: State, t: State)
    requires SettledTold(s) && s.reports <= t.reports
    requires forall k :: k in t.ledger.confirmations && t.ledger.confirmations[k].status != Pending ==>
      k in s.ledger.confirmations && s.ledger.confirmations[k].status == t.ledger.confirmations[k].status
    ensures SettledTold(t)
  {
    forall k | k in t.ledger.confirmations && t.ledger.confirmations[k].status != Pending
      ensures WasTold(t, k, t.ledger.confirmations[k].status)
    {
      ToldStays(s, t, k, t.ledger.confirmations[k].status);
    }
  }

  lemma RequestReported(s: State, id: Id, record: Id, actor: Id, expires: int)
    requires Reported(s) && id !in s.known
    ensures Reported(AfterRequest(s, id, record, actor, expires))
  {
    ToldKept(s, AfterRequest(s, id, record, actor, expires));
  }

  lemma LeaveReported(s: State, id: Id)
    requires Reported(s)
    ensures Reported(s.(waiting := s.waiting - {id}))
  {
    ToldKept(s, s.(waiting := s.waiting - {id}));
  }

  lemma DeletionReported(s: State, chats: Chats, user: Id)
    requires Reported(s)
    ensures Reported(AfterDeletion(s, chats, user))
  {
    ToldKept(s, AfterDeletion(s, chats, user));
  }

  lemma SameRowsReported(s: State, t: State)
    requires Reported(s) && t.ledger.confirmations == s.ledger.confirmations
    requires t == s.(users := t.users, ledger := t.ledger)
    ensures Reported(t)
  {
    ToldKept(s, t);
  }

  // A report about a row that is gone.
  lemma GoneReported(s: State, report: Report)
    requires Reported(s) && report.id in s.known && report.id !in s.ledger.confirmations
    ensures Reported(WithReport(s, s.ledger, report))
  {
    ToldKept(s, WithReport(s, s.ledger, report));
  }

  lemma ReportAgrees(s: State, after: Ledger, report: Report)
    requires Reported(s) && ReportsAgree(s) && SettlesStatus(s.ledger, after, report.id)
    requires report.id in after.confirmations && report.status == after.confirmations[report.id].status
    ensures ReportsAgree(WithReport(s, after, report))
  {
    forall i | 0 <= i < |s.reports| && s.reports[i].id == report.id ensures s.reports[i].status == report.status {
      assert s.reports[i].id in s.ledger.confirmations;
    }
  }

  lemma ReportSound(s: State, after: Ledger, report: Report)
    requires Sound(s) && Settles(s.ledger, after, report.id) && RecordsAgree(after) && ApprovedInTime(after)
    requires report.id in after.confirmations && report.status == after.confirmations[report.id].status != Pending
    ensures Sound(WithReport(s, after, report))
  {
    ReportReported(s, after, report);
    ReportAgrees(s, after, report);
  }

  lemma RequestSound(s: State, id: Id, record: Id, actor: Id, expires: int)
    requires Sound(s) && Enabled(s, Request(id, record, actor, expires))
    ensures Sound(AfterRequest(s, id, record, actor, expires))
  {
    RequestReported(s, id, record, actor, expires);
    RequestRecords(s, id, record, actor, expires);
  }

  lemma RequestRecords(s: State, id: Id, record: Id, actor: Id, expires: int)
    requires Sound(s) && Enabled(s, Request(id, record, actor, expires))
    ensures
      var l := AfterRequest(s, id, record, actor, expires).ledger;
      RecordsAgree(l) && ApprovedInTime(l)
  {}

  lemma DecideSound(s: State, id: Id, decider: Id, approved: bool, manageAny: bool, now: int)
    requires Sound(s)
    ensures Sound(AfterDecide(s, id, decider, approved, manageAny, now))
  {
    var (outcome, l) := Decided(s.ledger, s.users, id, decider, approved, manageAny, now);
    if outcome.Ok? {
      if s.ledger.confirmations[id].status == Pending {
        WrittenAgrees(s.ledger, id, outcome.value, now, Some(decider));
      }
      ReportSound(s, l, Report(id, Decider, outcome.value));
    }
  }

  lemma LeaveSound(s: State, id: Id)
    requires Sound(s)
    ensures Sound(s.(waiting := s.waiting - {id}))
  {
    LeaveReported(s, id);
  }

  lemma PollSound(s: State, id: Id)
    requires Sound(s)
    ensures Sound(AfterPoll(s, id))
  {
    if id in s.ledger.confirmations && s.ledger.confirmations[id].status != Pending {
      var report := Report(id, BlockedCall, s.ledger.confirmations[id].status);
      ReportSound(s, s.ledger, report);
      LeaveSound(WithReport(s, s.ledger, report), id);
    }
  }

  lemma EndSound(s: State, id: Id, status: ConfirmationStatus, now: int)
    requires Sound(s) && id in s.waiting && status in {Expired, Cancelled}
    ensures Sound(AfterEnd(s, id, status, now))
  {
    var (final, l) := Ended(s.ledger, id, status, now);
    var report := Report(id, BlockedCall, final);
    if id in s.ledger.confirmations {
      if s.ledger.confirmations[id].status == Pending {
        WrittenAgrees(s.ledger, id, status, now, s.ledger.confirmations[id].decider);
      }
      ReportSound(s, l, report);
    } else {
      OrphanReportSound(s, report);
    }
    LeaveSound(WithReport(s, l, report), id);
  }

  lemma OrphanReportSound(s: State, report: Report)
    requires Sound(s) && report.id in s.orphaned
    ensures Sound(WithReport(s, s.ledger, report))
  {
    GoneReported(s, report);
  }

  lemma DeletionSound(s: State, chats: Chats, user: Id)
    requires Sound(s)
    ensures Sound(AfterDeletion(s, chats, user))
  {
    DeletionReported(s, chats, user);
  }

  // What leaves the rows alone says nothing new.
  lemma SameRowsSound(s: State, t: State)
    requires Sound(s) && t.ledger.confirmations == s.ledger.confirmations && RecordsAgree(t.ledger)
    requires t == s.(users := t.users, ledger := t.ledger)
    ensures Sound(t)
  {
    SameRowsReported(s, t);
  }

  lemma StepSound(s: State, e: Event)
    requires Sound(s) && Enabled(s, e)
    ensures Sound(Step(s, e))
  {
    match e
    case AddUser(user) => SameRowsSound(s, Step(s, e));
    case Record(record, session, actor) => SameRowsSound(s, Step(s, e));
    case Request(id, record, actor, expires) => RequestSound(s, id, record, actor, expires);
    case Decide(id, decider, approved, manageAny, now) => DecideSound(s, id, decider, approved, manageAny, now);
    case Poll(id) => PollSound(s, id);
    case Cancel(id, now) => EndSound(s, id, Cancelled, now);
    case Timeout(id, now) => EndSound(s, id, Expired, now);
    case DeleteUser(chats, user) => DeletionSound(s, chats, user);
  }

  /** In every run, whatever the interleaving: the blocked call and every decider of a confirmation are told the same
      final status, it is the one stored in its row and on its tool-call record, and an approval was in time. What was
      told stays told. */
  lemma {:induction false} RunSound(s: State, events: seq<Event>)
    requires Sound(s)
    ensures Sound(After(s, events)) && s.reports <= After(s, events).reports
    decreases |events|
  {
    if events != [] {
      if Enabled(s, events[0]) {
        StepSound(s, events[0]);
      }
      ReportsOnlyGrow(s, events[0]);
      RunSound(Try(s, events[0]), events[1..]);
    }
  }

  // Nobody unhears an answer.
  lemma ReportsOnlyGrow(s: State, e: Event)
    ensures s.reports <= Try(s, e).reports
  {}

  lemma InitialSound(s: State)
    requires Initial(s)
    ensures Sound(s)
  {}

  /** A settled row never changes again: it only ever disappears, and then for good. */
  lemma {:induction false} SettledForever(s: State, events: seq<Event>, id: Id)
    requires Sound(s)
    requires id in s.known && (id in s.ledger.confirmations ==> s.ledger.confirmations[id].status != Pending)
    ensures id in After(s, events).ledger.confirmations ==>
      id in s.ledger.confirmations && After(s, events).ledger.confirmations[id] == s.ledger.confirmations[id]
    decreases |events|
  {
    if events != [] {
      if Enabled(s, events[0]) {
        StepSound(s, events[0]);
        SettledStep(s, events[0], id);
      }
      SettledForever(Try(s, events[0]), events[1..], id);
    }
  }

  lemma SettledStep(s: State, e: Event, id: Id)
    requires Sound(s) && Enabled(s, e)
    requires id in s.known && (id in s.ledger.confirmations ==> s.ledger.confirmations[id].status != Pending)
    ensures id in Step(s, e).known
    ensures id in Step(s, e).ledger.confirmations ==>
      id in s.ledger.confirmations && Step(s, e).ledger.confirmations[id] == s.ledger.confirmations[id]
  {}

  // ----- the blocked call -----

  // An event of anyone but the call blocked on `id`.
  predicate ByOthers(e: Event, id: Id) {
    match e
    case Poll(k) => k != id
    case Cancel(k, _) => k != id
    case Timeout(k, _) => k != id
    case _ => true
  }

  // One round of the polling loop: what others did before the cancel check, whether the turn was cancelled, and what
  // others did before the poll.
  datatype Beat = Beat(early: seq<Event>, cancelled: bool, now: int, others: seq<Event>)

  predicate AllByOthers(events: seq<Event>, id: Id) {
    forall e :: e in events ==> ByOthers(e, id)
  }

  lemma {:induction false} StillWaiting(s: State, events: seq<Event>, id: Id)
    requires id in s.waiting && AllByOthers(events, id)
    ensures id in After(s, events).waiting
    decreases |events|
  {
    if events != [] {
      assert events[0] in events;
      StillWaiting(Try(s, events[0]), events[1..], id);
    }
  }

  // The status was handed to the blocked call, which waits no more.
  predicate CallReturned(s: State, id: Id, status: ConfirmationStatus) {
    && id !in s.waiting && |s.reports| > 0 && s.reports[|s.reports| - 1] == Report(id, BlockedCall, status)
    && (id in s.ledger.confirmations ==> status == s.ledger.confirmations[id].status)
  }

  // What others do while the call is blocked.
  lemma {:induction false} OthersAct(s: State, events: seq<Event>, id: Id)
    requires Sound(s) && id in s.waiting && AllByOthers(events, id)
    ensures Sound(After(s, events)) && id in After(s, events).waiting
  {
    StillWaiting(s, events, id);
    RunSound(s, events);
  }

  // What happens in the first `n` rounds, each of which ends with a poll.
  function Rounds(beats: seq<Beat>, id: Id, n: nat): seq<Event>
    requires n <= |beats|
  {
    if n == 0 then []
    else Rounds(beats, id, n - 1) + (beats[n - 1].early + beats[n - 1].others + [Poll(id)])
  }

  // The first `n` rounds pass without a cancellation, and without an answer.
  predicate StillBlocked(before: State, id: Id, beats: seq<Beat>, n: nat)
    requires n <= |beats|
  {
    && (forall i :: 0 <= i < n ==> !beats[i].cancelled)
    && id in After(before, Rounds(beats, id, n)).waiting
  }

  // The run that ends the wait: a cancel at the check of a round, the poll that ends a round, or the timeout after all
  // of them, and in front of it everything that others do until then.
  ghost predicate EndsWait(before: State, id: Id, beats: seq<Beat>, last: seq<Event>, deadline: int, run: seq<Event>) {
    || (exists n :: 0 <= n < |beats| && StillBlocked(before, id, beats, n) && beats[n].cancelled
                    && run == Rounds(beats, id, n) + (beats[n].early + [Cancel(id, beats[n].now)]))
    || (exists n :: 0 <= n < |beats| && StillBlocked(before, id, beats, n) && !beats[n].cancelled
                    && run == Rounds(beats, id, n + 1))
    || (StillBlocked(before, id, beats, |beats|) && run == Rounds(beats, id, |beats|) + (last + [Timeout(id, deadline)]))
  }

  lemma {:induction false} AfterAppend(s: State, a: seq<Event>, b: seq<Event>)
    ensures After(s, a + b) == After(After(s, a), b)
    decreases |a|
  {
    if a == [] {
      assert a + b == b;
    } else {
      AfterAppend(Try(s, a[0]), a[1..], b);
      assert (a + b)[1..] == a[1..] + b;
    }
  }

  // A run, what others do, and one event.
  lemma {:induction false} AfterOne(s: State, a: seq<Event>, b: seq<Event>, e: Event)
    ensures After(s, a + (b + [e])) == Try(After(After(s, a), b), e)
  {
    AfterAppend(s, a, b + [e]);
    AfterAppend(After(s, a), b, [e]);
    assert [e][1..] == [];
    assert After(Try(After(After(s, a), b), e), []) == Try(After(After(s, a), b), e);
  }

  lemma {:induction false} AfterRound(s: State, beats: seq<Beat>, id: Id, n: nat)
    requires n < |beats|
    ensures After(s, Rounds(beats, id, n + 1))
         == Try(After(After(After(s, Rounds(beats, id, n)), beats[n].early), beats[n].others), Poll(id))
  {
    var others := beats[n].early + beats[n].others;
    AfterOne(s, Rounds(beats, id, n), others, Poll(id));
    AfterAppend(After(s, Rounds(beats, id, n)), beats[n].early, beats[n].others);
  }

  // Cancelling or timing out answers the blocked call.
  lemma {:induction false} EndReturns(s: State, id: Id, status: ConfirmationStatus, now: int)
    requires Sound(s) && id in s.waiting && status in {Expired, Cancelled}
    ensures
      var after, final := AfterEnd(s, id, status, now), Ended(s.ledger, id, status, now).0;
      Sound(after) && CallReturned(after, id, final) && final != Pending
  {
    EndSound(s, id, status, now);
    if id in s.ledger.confirmations {
      EndMeans(s.ledger, id, status, now);
    }
  }

  // So does a poll that finds the row settled.
  lemma {:induction false} PollReturns(s: State, id: Id)
    requires Sound(s) && id in s.waiting
    requires id in s.ledger.confirmations && s.ledger.confirmations[id].status != Pending
    ensures Sound(AfterPoll(s, id)) && CallReturned(AfterPoll(s, id), id, s.ledger.confirmations[id].status)
  {
    PollSound(s, id);
  }

  // The wait is over: the call was answered, and this is the state at the end of the run that ended it.
  ghost predicate WaitEnded(before: State, id: Id, beats: seq<Beat>, last: seq<Event>, deadline: int, run: seq<Event>,
                            after: State, status: ConfirmationStatus)
  {
    && Sound(after) && CallReturned(after, id, status) && status != Pending
    && EndsWait(before, id, beats, last, deadline, run) && after == After(before, run)
  }

  // The first `n` rounds have passed.
  ghost predicate Passed(before: State, id: Id, beats: seq<Beat>, n: nat, s: State) {
    && n <= |beats| && StillBlocked(before, id, beats, n)
    && Sound(s) && s == After(before, Rounds(beats, id, n))
  }

  lemma {:induction false} CancelEnds(before: State, id: Id, beats: seq<Beat>, last: seq<Event>, deadline: int, n: nat, s: State)
    requires n < |beats| && Passed(before, id, beats, n, s) && AllByOthers(beats[n].early, id) && beats[n].cancelled
    ensures
      var early := After(s, beats[n].early);
      WaitEnded(before, id, beats, last, deadline, Rounds(beats, id, n) + (beats[n].early + [Cancel(id, beats[n].now)]),
                AfterEnd(early, id, Cancelled, beats[n].now), Ended(early.ledger, id, Cancelled, beats[n].now).0)
  {
    OthersAct(s, beats[n].early, id);
    AfterOne(before, Rounds(beats, id, n), beats[n].early, Cancel(id, beats[n].now));
    EndReturns(After(s, beats[n].early), id, Cancelled, beats[n].now);
  }

  lemma {:induction false} TimeoutEnds(before: State, id: Id, beats: seq<Beat>, last: seq<Event>, deadline: int, s: State)
    requires Passed(before, id, beats, |beats|, s) && AllByOthers(last, id)
    ensures
      var late := After(s, last);
      WaitEnded(before, id, beats, last, deadline, Rounds(beats, id, |beats|) + (last + [Timeout(id, deadline)]),
                AfterEnd(late, id, Expired, deadline), Ended(late.ledger, id, Expired, deadline).0)
  {
    OthersAct(s, last, id);
    AfterOne(before, Rounds(beats, id, |beats|), last, Timeout(id, deadline));
    EndReturns(After(s, last), id, Expired, deadline);
  }

  // The state in which a round polls.
  function BeforePoll(s: State, beat: Beat): State {
    After(After(s, beat.early), beat.others)
  }

  predicate Settled(s: State, id: Id) {
    id in s.ledger.confirmations && s.ledger.confirmations[id].status != Pending
  }

  // A poll ends the wait when it finds the row settled, and otherwise the round has passed.
  lemma {:induction false} PollEnds(before: State, id: Id, beats: seq<Beat>, last: seq<Event>, deadline: int, n: nat, s: State)
    requires n < |beats| && Passed(before, id, beats, n, s) && !beats[n].cancelled
    requires AllByOthers(beats[n].early, id) && AllByOthers(beats[n].others, id)
    ensures
      var polled := BeforePoll(s, beats[n]);
      if Settled(polled, id)
      then WaitEnded(before, id, beats, last, deadline, Rounds(beats, id, n + 1), AfterPoll(polled, id),
                     polled.ledger.confirmations[id].status)
      else Passed(before, id, beats, n + 1, polled)
  {
    OthersAct(s, beats[n].early, id);
    OthersAct(After(s, beats[n].early), beats[n].others, id);
    AfterRound(before, beats, id, n);
    var polled := BeforePoll(s, beats[n]);
    if Settled(polled, id) {
      PollReturns(polled, id);
    }
  }

  /** The loop of `request`: before each of its cancel checks, its polls and its timeout others act in any way, `last`
      being what they do after the last poll; it returns a final status, the stored one unless the row is gone. The
      state it leaves is that of the run: all that others did, and the one event that ended the wait. */
  method AwaitDecision(before: State, id: Id, beats: seq<Beat>, last: seq<Event>, deadline: int)
    returns (status: ConfirmationStatus, after: State, ghost run: seq<Event>)
    requires Sound(before) && id in before.waiting && AllByOthers(last, id)
    requires forall b :: b in beats ==> AllByOthers(b.early, id) && AllByOthers(b.others, id)
    ensures Sound(after) && CallReturned(after, id, status) && status != Pending
    ensures EndsWait(before, id, beats, last, deadline, run) && after == After(before, run)
  {
    after := before;
    for i := 0 to |beats|
      invariant Passed(before, id, beats, i, after)
    {
      var beat := beats[i];
      if beat.cancelled {
        CancelEnds(before, id, beats, last, deadline, i, after);
        run := Rounds(beats, id, i) + (beat.early + [Cancel(id, beat.now)]);
        after := After(after, beat.early);
        status := Ended(after.ledger, id, Cancelled, beat.now).0;
        after := AfterEnd(after, id, Cancelled, beat.now);
        return;
      }
      PollEnds(before, id, beats, last, deadline, i, after);
      after := After(after, beat.early);
      after := After(after, beat.others);
      if id in after.ledger.confirmations && after.ledger.confirmations[id].status != Pending {
        run := Rounds(beats, id, i + 1);
        status := after.ledger.confirmations[id].status;
        after := AfterPoll(after, id);
        return;
      }
    }
    TimeoutEnds(before, id, beats, last, deadline, after);
    run := Rounds(beats, id, |beats|) + (last + [Timeout(id, deadline)]);
    after := After(after, last);
    status := Ended(after.ledger, id, Expired, deadline).0;
    after := AfterEnd(after, id, Expired, deadline);
  }

  // ----- where agreement ends -----

  // The deletion of the user takes the confirmation, whoever decides about it.
  predicate GoesWith(chats: Chats, l: Ledger, user: Id, row: Confirmation) {
    row.actor == user || (row.record in l.toolCalls && AuthDeletion.ConcernsCall(chats, user, l.toolCalls[row.record]))
  }

  lemma DeletedAfterDecision(s: State, id: Id, e: Event, chats: Chats, user: Id)
    requires id in s.waiting && id in s.ledger.confirmations && e.Decide? && e.id == id
    requires GoesWith(chats, s.ledger, user, s.ledger.confirmations[id])
    ensures id !in AfterDeletion(Step(s, e), chats, user).ledger.confirmations
    ensures id in AfterDeletion(Step(s, e), chats, user).waiting
  {}

  /** Deleting a user takes the row away under a blocked call: the call times out although a decider was told that it
      had approved. */
  lemma OrphanDisagrees(s: State, id: Id, decider: Id, now: int, chats: Chats, user: Id, later: int)
    requires Sound(s) && id in s.waiting && id in s.ledger.confirmations && decider in s.users
    requires s.ledger.confirmations[id].status == Pending && now < s.ledger.confirmations[id].expires
    requires GoesWith(chats, s.ledger, user, s.ledger.confirmations[id])
    ensures
      var end := After(s, [Decide(id, decider, true, true, now), DeleteUser(chats, user), Timeout(id, later)]);
      end.reports == s.reports + [Report(id, Decider, Approved), Report(id, BlockedCall, Expired)]
  {
    var approve, delete, expire := Decide(id, decider, true, true, now), DeleteUser(chats, user), Timeout(id, later);
    var approved := Step(s, approve);
    DeletedAfterDecision(s, id, approve, chats, user);
    var deleted := AfterDeletion(approved, chats, user);
    assert approved.reports == s.reports + [Report(id, Decider, Approved)];
    AfterThree(s, approve, delete, expire);
    assert AfterEnd(deleted, id, Expired, later).reports == deleted.reports + [Report(id, BlockedCall, Expired)];
  }

  lemma AfterThree(s: State, a: Event, b: Event, c: Event)
    ensures After(s, [a, b, c]) == Try(Try(Try(s, a), b), c)
  {
    assert [a, b, c][1..] == [b, c] && [b, c][1..] == [c] && [c][1..] == [];
    assert After(Try(Try(s, a), b), [c]) == Try(Try(Try(s, a), b), c);
    assert After(Try(s, a), [b, c]) == After(Try(Try(s, a), b), [c]);
  }

  // Everyone who was told anything about the confirmation was told the same.
  predicate SameTold(s: State, id: Id) {
    forall i, j :: 0 <= i < |s.reports| && 0 <= j < |s.reports| && s.reports[i].id == id && s.reports[j].id == id ==>
      s.reports[i].status == s.reports[j].status
  }

  lemma {:induction false} QuietWithoutRow(s: State, events: seq<Event>, id: Id)
    requires id in s.known && id !in s.ledger.confirmations && AllByOthers(events, id)
    ensures id !in After(s, events).ledger.confirmations
    ensures s.reports <= After(s, events).reports
    ensures forall i :: |s.reports| <= i < |After(s, events).reports| ==> After(s, events).reports[i].id != id
    decreases |events|
  {
    if events != [] {
      assert events[0] in events;
      var t := Try(s, events[0]);
      assert s.reports <= t.reports && forall i :: |s.reports| <= i < |t.reports| ==> t.reports[i].id != id;
      QuietWithoutRow(t, events[1..], id);
    }
  }

  /** A deletion that takes the row away under a blocked call, whatever others do before the call ends: everyone is
      told the same exactly when the row was still pending at the deletion, or said what the call ends with. */
  lemma OrphanAgreesIff(s: State, chats: Chats, user: Id, id: Id, events: seq<Event>, status: ConfirmationStatus,
                        now: int)
    requires Sound(s) && id in s.waiting && id in s.ledger.confirmations
    requires AuthDeletion.ConcernsConfirmation(chats, s.ledger, user, s.ledger.confirmations[id])
    requires AllByOthers(events, id)
    ensures
      var before := After(AfterDeletion(s, chats, user), events);
      SameTold(AfterEnd(before, id, status, now), id) <==>
        s.ledger.confirmations[id].status == Pending || s.ledger.confirmations[id].status == status
  {
    var gone := AfterDeletion(s, chats, user);
    QuietWithoutRow(gone, events, id);
    var before := After(gone, events);
    var end := AfterEnd(before, id, status, now);
    assert end.reports == before.reports + [Report(id, BlockedCall, status)];
    EndAgreesIff(s, end, id, status);
  }

  // The reports about `id` in `end` are those in `s` and a last one.
  lemma EndAgreesIff(s: State, end: State, id: Id, status: ConfirmationStatus)
    requires Reported(s) && id in s.ledger.confirmations
    requires |end.reports| > |s.reports| && s.reports <= end.reports
    requires forall i :: |s.reports| <= i < |end.reports| - 1 ==> end.reports[i].id != id
    requires end.reports[|end.reports| - 1] == Report(id, BlockedCall, status)
    ensures SameTold(end, id) <==>
      s.ledger.confirmations[id].status == Pending || s.ledger.confirmations[id].status == status
  {
    var row, last := s.ledger.confirmations[id], |end.reports| - 1;
    assert forall i :: 0 <= i < |s.reports| ==> end.reports[i] == s.reports[i];
    if row.status != Pending {
      assert WasTold(s, id, row.status);
      var i :| 0 <= i < |s.reports| && s.reports[i].id == id && s.reports[i].status == row.status;
      assert end.reports[i].status == row.status;
      assert SameTold(end, id) ==> end.reports[i].status == end.reports[last].status;
    }
  }
}
