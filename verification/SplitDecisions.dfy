/** Decisions, cancellations and timeouts whose reading and writing are two steps: the UPDATE of agent/auth/store.py
    does not ask for the status again, so anything may happen to the row in between. What each half says and keeps. */
module SplitDecisions {
  import opened Options
  import opened AuthTables
  import opened Confirmations

  // A call of the store between its SELECT, which found the row pending, and its UPDATE.
  datatype Flight = Flight(id: Id, record: Id, reader: Reader, decider: Option<Id>, verdict: ConfirmationStatus,
                           now: int)

  // `gone` keeps what a row said when it was deleted, and then what was answered without it.
  datatype Split = Split(s: State, inFlight: map<nat, Flight>, gone: map<Id, ConfirmationStatus>)

  // Any step of the broker, or one half of a decision or of the end of a blocked call. A token names the call.
  datatype Half =
    | Whole(e: Event)
    | ReadDecision(token: nat, id: Id, decider: Id, approved: bool, manageAny: bool, now: int)
    | ReadEnd(token: nat, id: Id, cancelled: bool, now: int)
    | Write(token: nat)

  // The status the store has for the confirmation, or had last.
  function LastWord(x: Split, id: Id): ConfirmationStatus {
    if id in x.s.ledger.confirmations then x.s.ledger.confirmations[id].status
    else if id in x.gone then x.gone[id]
    else Pending
  }

  // Who was answered in the step from `s` to `t`.
  function Answered(s: State, t: State): Option<Report> {
    if |t.reports| > |s.reports| then Some(t.reports[|t.reports| - 1]) else None
  }

  function Gone(x: Split, t: State): map<Id, ConfirmationStatus> {
    map id | id in x.s.known && id !in t.ledger.confirmations ::
      match Answered(x.s, t)
      case Some(report) => if report.id == id then report.status else LastWord(x, id)
      case None => LastWord(x, id)
  }

  function Moved(x: Split, t: State, inFlight: map<nat, Flight>): Split {
    Split(t, inFlight, Gone(x, t))
  }

  // A tool call that still has a call in flight does not ask again.
  predicate Possible(x: Split, e: Event) {
    Enabled(x.s, e) && (e.Request? ==> forall token :: token in x.inFlight ==> x.inFlight[token].record != e.record)
  }

  function AfterWhole(x: Split, e: Event): Split {
    Moved(x, if Possible(x, e) then Step(x.s, e) else x.s, x.inFlight)
  }

  // A settled row answers at once; a pending one is written later.
  function AfterReadDecision(x: Split, token: nat, id: Id, decider: Id, approved: bool, manageAny: bool, now: int): Split
  {
    var rows := x.s.ledger.confirmations;
    if token in x.inFlight || id !in rows || (!manageAny && rows[id].actor != decider) then x
    else if rows[id].status != Pending
    then Moved(x, WithReport(x.s, x.s.ledger, Report(id, Decider, rows[id].status)), x.inFlight)
    else
      var f := Flight(id, rows[id].record, Decider, Some(decider), Verdict(rows[id], approved, now), now);
      Moved(x, x.s, x.inFlight[token := f])
  }

  function Final(cancelled: bool): ConfirmationStatus {
    if cancelled then Cancelled else Expired
  }

  // The blocked call has left its loop. A missing row leaves it with its own answer.
  function AfterReadEnd(x: Split, token: nat, id: Id, cancelled: bool, now: int): Split {
    var rows := x.s.ledger.confirmations;
    if token in x.inFlight || id !in x.s.waiting then x
    else
      var left := x.s.(waiting := x.s.waiting - {id});
      if id !in rows
      then Moved(x, WithReport(left, left.ledger, Report(id, BlockedCall, Final(cancelled))), x.inFlight)
      else if rows[id].status != Pending
      then Moved(x, WithReport(left, left.ledger, Report(id, BlockedCall, rows[id].status)), x.inFlight)
      else Moved(x, left, x.inFlight[token := Flight(id, rows[id].record, BlockedCall, None, Final(cancelled), now)])
  }

  // An end leaves the decider alone. The UPDATE of a row that is gone changes nothing but its record.
  function LedgerWritten(l: Ledger, f: Flight): Ledger {
    if f.id !in l.confirmations then WithRecordStatus(l, f.record, f.verdict)
    else Written(l, f.id, f.verdict, f.now, if f.decider.Some? then f.decider else l.confirmations[f.id].decider)
  }

  // The foreign key of a decider who was deleted in between refuses the UPDATE.
  predicate Refused(s: State, f: Flight) {
    f.id in s.ledger.confirmations && f.decider.Some? && f.decider.value !in s.users
  }

  function AfterWrite(x: Split, token: nat): Split {
    if token !in x.inFlight then x
    else
      var f := x.inFlight[token];
      Moved(x,
            if Refused(x.s, f) then x.s
            else WithReport(x.s, LedgerWritten(x.s.ledger, f), Report(f.id, f.reader, f.verdict)),
            x.inFlight - {token})
  }

  function HalfStep(x: Split, h: Half): Split {
    match h
    case Whole(e) => AfterWhole(x, e)
    case ReadDecision(token, id, decider, approved, manageAny, now) =>
      AfterReadDecision(x, token, id, decider, approved, manageAny, now)
    case ReadEnd(token, id, cancelled, now) => AfterReadEnd(x, token, id, cancelled, now)
    case Write(token) => AfterWrite(x, token)
  }

  function AfterHalves(x: Split, halves: seq<Half>): Split
    decreases |halves|
  {
    if halves == [] then x else AfterHalves(HalfStep(x, halves[0]), halves[1..])
  }

  // ----- what goes wrong -----

  // The store has, or last had, another final status.
  predicate SettledOtherwise(x: Split, id: Id, status: ConfirmationStatus) {
    LastWord(x, id) !in {Pending, status}
  }

  // A call that ends without its row answers by itself.
  predicate EndsOtherwise(x: Split, id: Id, status: ConfirmationStatus) {
    id in x.s.waiting && id !in x.s.ledger.confirmations && SettledOtherwise(x, id, status)
  }

  // A write that comes after another decision or end, or a call that ends without its row against its last status.
  predicate Conflicts(x: Split, h: Half) {
    match h
    case Write(token) =>
      token in x.inFlight && !Refused(x.s, x.inFlight[token])
      && SettledOtherwise(x, x.inFlight[token].id, x.inFlight[token].verdict)
    case ReadEnd(token, id, cancelled, _) => token !in x.inFlight && EndsOtherwise(x, id, Final(cancelled))
    case Whole(Cancel(id, _)) => EndsOtherwise(x, id, Cancelled)
    case Whole(Timeout(id, _)) => EndsOtherwise(x, id, Expired)
    case _ => false
  }

  predicate NoConflict(x: Split, halves: seq<Half>)
    decreases |halves|
  {
    halves == [] || (!Conflicts(x, halves[0]) && NoConflict(HalfStep(x, halves[0]), halves[1..]))
  }

  // Everyone who was told anything about the same confirmation was told the same.
  predicate Consistent(s: State) {
    forall i, j :: 0 <= i < |s.reports| && 0 <= j < |s.reports| && s.reports[i].id == s.reports[j].id ==>
      s.reports[i].status == s.reports[j].status
  }

  // ----- what every run keeps, and what a run without conflict keeps -----

  predicate Framed(x: Split) {
    && x.s.ledger.confirmations.Keys <= x.s.known && x.gone.Keys <= x.s.known && x.s.waiting <= x.s.known
    && forall token :: token in x.inFlight ==>
         x.inFlight[token].id in x.s.known && x.inFlight[token].verdict != Pending
  }

  /** Everyone was told the last word of the store, and a last word that is final was told to someone. */
  predicate Heard(x: Split) {
    && (forall i :: 0 <= i < |x.s.reports| ==>
          x.s.reports[i].id in x.s.known && x.s.reports[i].status == LastWord(x, x.s.reports[i].id) != Pending)
    && (forall id :: id in x.s.known && LastWord(x, id) != Pending ==> WasTold(x.s, id, LastWord(x, id)))
  }

  predicate Spoken(x: Split) {
    Framed(x) && Heard(x)
  }

  // A call in flight still writes to the record of its row, which no other row has, and approves in time.
  predicate Aimed(l: Ledger, f: Flight) {
    && (f.id in l.confirmations ==>
          l.confirmations[f.id].record == f.record && (f.verdict == Approved ==> f.now < l.confirmations[f.id].expires))
    && (forall id :: id in l.confirmations && l.confirmations[id].record == f.record ==> id == f.id)
  }

  predicate Stored(x: Split) {
    && RecordsAgree(x.s.ledger) && ApprovedInTime(x.s.ledger)
    && forall token :: token in x.inFlight ==> Aimed(x.s.ledger, x.inFlight[token])
  }

  lemma InitialSpoken(s: State)
    requires Initial(s)
    ensures Spoken(Split(s, map[], map[])) && Stored(Split(s, map[], map[]))
  {}

  // ----- one step -----

  // Without a conflict nobody hears anything else.
  lemma CleanStep(x: Split, h: Half)
    requires Spoken(x) && !Conflicts(x, h)
    ensures Spoken(HalfStep(x, h))
  {
    HalfSpeaks(x, h);
    match Answered(x.s, HalfStep(x, h).s)
    case None => QuietHeard(x, HalfStep(x, h));
    case Some(report) => SaysHeard(x, HalfStep(x, h), report);
  }

  // With one, someone does.
  lemma ConflictStep(x: Split, h: Half)
    requires Spoken(x) && Conflicts(x, h)
    ensures !Consistent(HalfStep(x, h).s)
  {
    HalfSpeaks(x, h);
    SaysOtherwise(x, HalfStep(x, h), Answered(x.s, HalfStep(x, h).s).value);
  }

  lemma SpokenConsistent(x: Split)
    requires Heard(x)
    ensures Consistent(x.s)
  {}

  // Nothing is said, and no status changes.
  predicate Quiet(x: Split, y: Split) {
    && y.s.reports == x.s.reports && x.s.known <= y.s.known
    && (forall id :: id in y.s.known ==> LastWord(y, id) == if id in x.s.known then LastWord(x, id) else Pending)
  }

  // Someone is answered, and that is the last word now.
  predicate Says(x: Split, y: Split, report: Report) {
    && y.s.reports == x.s.reports + [report] && y.s.known == x.s.known
    && report.id in x.s.known && report.status != Pending
    && (forall id :: id in y.s.known ==>
          LastWord(y, id) == if id == report.id then report.status else LastWord(x, id))
  }

  lemma QuietHeard(x: Split, y: Split)
    requires Heard(x) && Quiet(x, y)
    ensures Heard(y)
  {
    forall id | id in y.s.known && LastWord(y, id) != Pending ensures WasTold(y.s, id, LastWord(y, id)) {
      ToldStays(x.s, y.s, id, LastWord(x, id));
    }
  }

  lemma SaysHeard(x: Split, y: Split, report: Report)
    requires Heard(x) && Says(x, y, report) && !SettledOtherwise(x, report.id, report.status)
    ensures Heard(y)
  {
    assert y.s.reports[|x.s.reports|] == report;
    forall id | id in y.s.known && LastWord(y, id) != Pending ensures WasTold(y.s, id, LastWord(y, id)) {
      if id != report.id {
        ToldStays(x.s, y.s, id, LastWord(x, id));
      }
    }
  }

  lemma SaysOtherwise(x: Split, y: Split, report: Report)
    requires Heard(x) && Says(x, y, report) && SettledOtherwise(x, report.id, report.status)
    ensures !Consistent(y.s)
  {
    ToldStays(x.s, y.s, report.id, LastWord(x, report.id));
    assert y.s.reports[|x.s.reports|] == report;
  }

  // A step is quiet, or says one thing that conflicts exactly when the step does.
  predicate Speaks(x: Split, h: Half) {
    var y := HalfStep(x, h);
    && Framed(y)
    && match Answered(x.s, y.s)
       case None => Quiet(x, y) && !Conflicts(x, h)
       case Some(report) =>
         Says(x, y, report) && (Conflicts(x, h) <==> SettledOtherwise(x, report.id, report.status))
  }

  // The rows stay with their statuses or go; a new row is pending.
  predicate KeepsStatuses(x: Split, t: State) {
    && t.ledger.confirmations.Keys <= t.known && t.waiting <= t.known && x.s.known <= t.known
    && forall id :: id in t.ledger.confirmations ==>
         if id in x.s.known
         then id in x.s.ledger.confirmations
              && t.ledger.confirmations[id].status == x.s.ledger.confirmations[id].status
         else t.ledger.confirmations[id].status == Pending
  }

  lemma MovedQuiet(x: Split, t: State, inFlight: map<nat, Flight>)
    requires Framed(x) && KeepsStatuses(x, t) && t.reports == x.s.reports
    requires forall token :: token in inFlight ==> inFlight[token].id in t.known && inFlight[token].verdict != Pending
    ensures Framed(Moved(x, t, inFlight)) && Quiet(x, Moved(x, t, inFlight))
  {}

  // Only the status of this row may differ.
  predicate SetsStatus(before: Ledger, after: Ledger, id: Id, status: ConfirmationStatus) {
    && after.confirmations.Keys == before.confirmations.Keys
    && forall k :: k in after.confirmations ==>
         after.confirmations[k].status == if k == id then status else before.confirmations[k].status
  }

  lemma MovedSays(x: Split, t: State, inFlight: map<nat, Flight>, report: Report)
    requires Framed(x) && t.reports == x.s.reports + [report] && report.id in x.s.known && report.status != Pending
    requires t.known == x.s.known && t.waiting <= x.s.waiting && inFlight.Items <= x.inFlight.Items
    requires SetsStatus(x.s.ledger, t.ledger, report.id, report.status)
    ensures Framed(Moved(x, t, inFlight)) && Says(x, Moved(x, t, inFlight), report)
  {
    var y := Moved(x, t, inFlight);
    assert Answered(x.s, t) == Some(report);
    forall token | token in inFlight ensures inFlight[token].id in x.s.known && inFlight[token].verdict != Pending {
      assert (token, inFlight[token]) in inFlight.Items;
    }
  }

  lemma WriteSpeaks(x: Split, token: nat)
    requires Framed(x)
    ensures Speaks(x, Write(token))
  {
    if token in x.inFlight {
      var f, rest := x.inFlight[token], x.inFlight - {token};
      if Refused(x.s, f) {
        MovedQuiet(x, x.s, rest);
      } else {
        var report := Report(f.id, f.reader, f.verdict);
        MovedSays(x, WithReport(x.s, LedgerWritten(x.s.ledger, f), report), rest, report);
      }
    }
  }

  lemma ReadEndSpeaks(x: Split, token: nat, id: Id, cancelled: bool, now: int)
    requires Framed(x)
    ensures Speaks(x, ReadEnd(token, id, cancelled, now))
  {
    var rows := x.s.ledger.confirmations;
    if token !in x.inFlight && id in x.s.waiting {
      var left := x.s.(waiting := x.s.waiting - {id});
      if id in rows && rows[id].status == Pending {
        var f := Flight(id, rows[id].record, BlockedCall, None, Final(cancelled), now);
        MovedQuiet(x, left, x.inFlight[token := f]);
      } else {
        var report := Report(id, BlockedCall, if id in rows then rows[id].status else Final(cancelled));
        MovedSays(x, WithReport(left, left.ledger, report), x.inFlight, report);
      }
    }
  }

  lemma ReadDecisionSpeaks(x: Split, token: nat, id: Id, decider: Id, approved: bool, manageAny: bool, now: int)
    requires Framed(x)
    ensures Speaks(x, ReadDecision(token, id, decider, approved, manageAny, now))
  {
    var rows := x.s.ledger.confirmations;
    if token !in x.inFlight && id in rows && (manageAny || rows[id].actor == decider) {
      if rows[id].status == Pending {
        var f := Flight(id, rows[id].record, Decider, Some(decider), Verdict(rows[id], approved, now), now);
        MovedQuiet(x, x.s, x.inFlight[token := f]);
      } else {
        var report := Report(id, Decider, rows[id].status);
        MovedSays(x, WithReport(x.s, x.s.ledger, report), x.inFlight, report);
      }
    }
  }

  lemma EndedStatuses(l: Ledger, id: Id, status: ConfirmationStatus, now: int)
    requires id in l.confirmations
    ensures SetsStatus(l, Ended(l, id, status, now).1, id, Ended(l, id, status, now).0)
  {}

  lemma DecidedStatuses(l: Ledger, users: set<Id>, id: Id, decider: Id, approved: bool, manageAny: bool, now: int)
    ensures
      var (outcome, after) := Decided(l, users, id, decider, approved, manageAny, now);
      outcome.Ok? ==> SetsStatus(l, after, id, outcome.value)
  {}

  lemma DecideSpeaks(x: Split, id: Id, decider: Id, approved: bool, manageAny: bool, now: int)
    requires Framed(x)
    ensures Speaks(x, Whole(Decide(id, decider, approved, manageAny, now)))
  {
    var (outcome, l) := Decided(x.s.ledger, x.s.users, id, decider, approved, manageAny, now);
    if outcome.Ok? {
      var report := Report(id, Decider, outcome.value);
      DecidedStatuses(x.s.ledger, x.s.users, id, decider, approved, manageAny, now);
      MovedSays(x, WithReport(x.s, l, report), x.inFlight, report);
    } else {
      MovedQuiet(x, x.s, x.inFlight);
    }
  }

  lemma EndSpeaks(x: Split, e: Event)
    requires Framed(x) && (e.Cancel? || e.Timeout?)
    ensures Speaks(x, Whole(e))
  {
    if e.id !in x.s.waiting {
      MovedQuiet(x, x.s, x.inFlight);
    } else if e.id in x.s.ledger.confirmations {
      EndWithRow(x, e);
    } else {
      var final := Final(e.Cancel?);
      MovedSays(x, Returned(x.s, e.id, final, x.s.ledger), x.inFlight, Report(e.id, BlockedCall, final));
    }
  }

  lemma EndWithRow(x: Split, e: Event)
    requires Framed(x) && (e.Cancel? || e.Timeout?) && e.id in x.s.waiting && e.id in x.s.ledger.confirmations
    ensures Speaks(x, Whole(e))
  {
    var (final, l) := Ended(x.s.ledger, e.id, Final(e.Cancel?), e.now);
    EndedStatuses(x.s.ledger, e.id, Final(e.Cancel?), e.now);
    assert AfterWhole(x, e) == Moved(x, Returned(x.s, e.id, final, l), x.inFlight);
    MovedSays(x, Returned(x.s, e.id, final, l), x.inFlight, Report(e.id, BlockedCall, final));
  }

  lemma PollSpeaks(x: Split, id: Id)
    requires Framed(x)
    ensures Speaks(x, Whole(Poll(id)))
  {
    var l := x.s.ledger;
    if id in x.s.waiting && id in l.confirmations && l.confirmations[id].status != Pending {
      var status := l.confirmations[id].status;
      MovedSays(x, Returned(x.s, id, status, l), x.inFlight, Report(id, BlockedCall, status));
    } else {
      MovedQuiet(x, x.s, x.inFlight);
    }
  }

  lemma WholeSpeaks(x: Split, e: Event)
    requires Framed(x)
    ensures Speaks(x, Whole(e))
  {
    match e
    case Decide(id, decider, approved, manageAny, now) => DecideSpeaks(x, id, decider, approved, manageAny, now);
    case Poll(id) => PollSpeaks(x, id);
    case Cancel(id, now) => EndSpeaks(x, e);
    case Timeout(id, now) => EndSpeaks(x, e);
    case _ => MovedQuiet(x, if Possible(x, e) then Step(x.s, e) else x.s, x.inFlight);
  }

  lemma HalfSpeaks(x: Split, h: Half)
    requires Framed(x)
    ensures Speaks(x, h)
  {
    match h
    case Whole(e) => WholeSpeaks(x, e);
    case ReadDecision(token, id, decider, approved, manageAny, now) =>
      ReadDecisionSpeaks(x, token, id, decider, approved, manageAny, now);
    case ReadEnd(token, id, cancelled, now) => ReadEndSpeaks(x, token, id, cancelled, now);
    case Write(token) => WriteSpeaks(x, token);
  }

  // Nobody unhears an answer.
  lemma {:induction false} ReportsStay(x: Split, halves: seq<Half>)
    ensures x.s.reports <= AfterHalves(x, halves).s.reports
    decreases |halves|
  {
    if halves != [] {
      ReportsGrow(x, halves[0]);
      ReportsStay(HalfStep(x, halves[0]), halves[1..]);
    }
  }

  lemma ReportsGrow(x: Split, h: Half)
    ensures x.s.reports <= HalfStep(x, h).s.reports
  {}

  lemma StaysInconsistent(s: State, t: State)
    requires !Consistent(s) && s.reports <= t.reports
    ensures !Consistent(t)
  {
    var i, j :| 0 <= i < |s.reports| && 0 <= j < |s.reports| && s.reports[i].id == s.reports[j].id
                && s.reports[i].status != s.reports[j].status;
    assert t.reports[i] == s.reports[i] && t.reports[j] == s.reports[j];
  }

  // ----- records in one step -----

  // The rows stay, with their records and expiry times, or go.
  predicate KeepsRecords(before: Ledger, after: Ledger) {
    && forall id :: id in after.confirmations ==>
         && id in before.confirmations
         && after.confirmations[id].record == before.confirmations[id].record
         && after.confirmations[id].expires == before.confirmations[id].expires
  }

  lemma LedgerAgrees(l: Ledger, f: Flight)
    requires RecordsAgree(l) && ApprovedInTime(l) && Aimed(l, f)
    ensures
      var after := LedgerWritten(l, f);
      RecordsAgree(after) && ApprovedInTime(after) && KeepsRecords(l, after)
  {}

  lemma MovedStored(x: Split, t: State, inFlight: map<nat, Flight>)
    requires Stored(x) && RecordsAgree(t.ledger) && ApprovedInTime(t.ledger)
    requires KeepsRecords(x.s.ledger, t.ledger) && inFlight.Items <= x.inFlight.Items
    ensures Stored(Moved(x, t, inFlight))
  {
    forall token | token in inFlight ensures Aimed(t.ledger, inFlight[token]) {
      assert (token, inFlight[token]) in inFlight.Items;
      assert Aimed(x.s.ledger, x.inFlight[token]);
    }
  }

  lemma WriteStored(x: Split, token: nat)
    requires Stored(x)
    ensures Stored(AfterWrite(x, token))
  {
    if token in x.inFlight {
      var f, rest := x.inFlight[token], x.inFlight - {token};
      if Refused(x.s, f) {
        MovedStored(x, x.s, rest);
      } else {
        LedgerAgrees(x.s.ledger, f);
        MovedStored(x, WithReport(x.s, LedgerWritten(x.s.ledger, f), Report(f.id, f.reader, f.verdict)), rest);
      }
    }
  }

  // A read changes no row, and a new call in flight aims at its row.
  lemma ReadStored(x: Split, h: Half)
    requires Stored(x) && (h.ReadDecision? || h.ReadEnd?)
    ensures Stored(HalfStep(x, h))
  {
    var y := HalfStep(x, h);
    assert y.s.ledger == x.s.ledger;
    forall token | token in y.inFlight ensures Aimed(y.s.ledger, y.inFlight[token]) {
      assert token in x.inFlight ==> y.inFlight[token] == x.inFlight[token];
    }
  }

  lemma WholeStored(x: Split, e: Event)
    requires Framed(x) && Stored(x)
    ensures Stored(AfterWhole(x, e))
  {
    match e
    case Request(id, record, actor, expires) => RequestStored(x, e);
    case Decide(id, decider, approved, manageAny, now) => DecideStored(x, id, decider, approved, manageAny, now);
    case Cancel(id, now) => EndStored(x, id, Cancelled, now);
    case Timeout(id, now) => EndStored(x, id, Expired, now);
    case _ => OtherStored(x, e);
  }

  lemma OtherStored(x: Split, e: Event)
    requires Framed(x) && Stored(x) && (e.AddUser? || e.Record? || e.Poll? || e.DeleteUser?)
    ensures Stored(AfterWhole(x, e))
  {
    MovedStored(x, if Possible(x, e) then Step(x.s, e) else x.s, x.inFlight);
  }

  // A decision in one step is a write of its own.
  lemma DecideStored(x: Split, id: Id, decider: Id, approved: bool, manageAny: bool, now: int)
    requires Stored(x)
    ensures Stored(AfterWhole(x, Decide(id, decider, approved, manageAny, now)))
  {
    DecidedAgrees(x.s.ledger, x.s.users, id, decider, approved, manageAny, now);
    MovedStored(x, AfterDecide(x.s, id, decider, approved, manageAny, now), x.inFlight);
  }

  lemma DecidedAgrees(l: Ledger, users: set<Id>, id: Id, decider: Id, approved: bool, manageAny: bool, now: int)
    requires RecordsAgree(l) && ApprovedInTime(l)
    ensures
      var after := Decided(l, users, id, decider, approved, manageAny, now).1;
      RecordsAgree(after) && ApprovedInTime(after) && KeepsRecords(l, after)
  {
    if id in l.confirmations {
      var row := l.confirmations[id];
      LedgerAgrees(l, Flight(id, row.record, Decider, Some(decider), Verdict(row, approved, now), now));
    }
  }

  lemma EndStored(x: Split, id: Id, status: ConfirmationStatus, now: int)
    requires Stored(x) && status in {Expired, Cancelled}
    ensures Stored(Moved(x, if id in x.s.waiting then AfterEnd(x.s, id, status, now) else x.s, x.inFlight))
  {
    var l := x.s.ledger;
    if id in l.confirmations {
      LedgerAgrees(l, Flight(id, l.confirmations[id].record, BlockedCall, None, status, now));
    }
    MovedStored(x, if id in x.s.waiting then AfterEnd(x.s, id, status, now) else x.s, x.inFlight);
  }

  lemma RequestStored(x: Split, e: Event)
    requires Framed(x) && Stored(x) && e.Request?
    ensures Stored(AfterWhole(x, e))
  {
    if Possible(x, e) {
      var (outcome, l) := ConfirmationCreated(x.s.ledger, x.s.users, e.id, e.record, e.actor, e.expires);
      if outcome.Ok? {
        RequestAgrees(x.s.ledger, x.s.users, e);
        forall token | token in x.inFlight ensures Aimed(l, x.inFlight[token]) {
          assert Aimed(x.s.ledger, x.inFlight[token]);
        }
      } else {
        MovedStored(x, Step(x.s, e), x.inFlight);
      }
    } else {
      MovedStored(x, x.s, x.inFlight);
    }
  }

  lemma RequestAgrees(l: Ledger, users: set<Id>, e: Event)
    requires RecordsAgree(l) && ApprovedInTime(l) && e.Request?
    requires forall k :: k in l.confirmations ==> l.confirmations[k].record != e.record
    ensures
      var after := ConfirmationCreated(l, users, e.id, e.record, e.actor, e.expires).1;
      RecordsAgree(after) && ApprovedInTime(after)
  {}

  lemma HalfStored(x: Split, h: Half)
    requires Framed(x) && Stored(x)
    ensures Stored(HalfStep(x, h))
  {
    match h
    case Whole(e) => WholeStored(x, e);
    case Write(token) => WriteStored(x, token);
    case _ => ReadStored(x, h);
  }
}
