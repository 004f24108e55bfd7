/** Extending a compaction record through growing prefixes (agent/context/planner.py, lines 296-302
    and 349-358). The language model is any sequence of replies, each of which may be a failure. */
module CompactionRun {
  import opened Options
  import opened Turns
  import opened TurnTrimming
  import opened Compaction
  import opened TailSelection

  // The n-th call to the model gets the n-th reply; None is a failed call or an unusable answer.
  type Replies = nat -> Option<string>

  // The calls from number `from` on, up to number `to`, are all answered.
  ghost predicate NoFailure(replies: Replies, from: nat, to: nat) {
    forall k: nat :: from <= k < to ==> replies(k).Some?
  }

  lemma {:induction false} OneMoreCall(replies: Replies, from: nat, at: nat)
    requires from <= at && NoFailure(replies, from, at)
    ensures NoFailure(replies, from, at + 1) <==> replies(at).Some?
  {}

  lemma CallsInARow(replies: Replies, from: nat, middle: nat, to: nat)
    requires from <= middle <= to
    ensures NoFailure(replies, from, to) <==> NoFailure(replies, from, middle) && NoFailure(replies, middle, to)
  {}

  // The record, if any, validates against the turns.
  predicate GoodRecord(record: Option<CompactionRecord>, turns: seq<TurnGroup>) {
    record.Some? ==> Valid(record.value, turns)
  }

  // Everything before position `n` is covered by the record.
  predicate CoversUpTo(record: Option<CompactionRecord>, turns: seq<TurnGroup>, n: nat) {
    n <= |turns| && (n > 0 ==> turns[n - 1].turnIndex <= Completed(record))
  }

  // With nothing compacted yet every turn is new; otherwise the record ends at one of the turns.
  lemma {:induction false} NothingCompleted(turns: seq<TurnGroup>)
    requires Increasing(turns)
    ensures Cut(turns, 0) == 0
  {}

  // One call on the prefix of length `end` sends exactly the turns from `from` on.
  lemma {:induction false} SentIsDelta(turns: seq<TurnGroup>, from: nat, end: nat, previous: Option<CompactionRecord>)
    requires Increasing(turns) && from < end <= |turns| && from == Cut(turns, Completed(previous))
    ensures NewTurns(turns[..end], previous) == turns[from..end]
  {
    IncreasingSlice(turns, end);
    if previous.None? {
      NothingCompleted(turns);
    } else {
      CutBounds(turns, previous.value.endIndex);
      CutIs(turns[..end], previous.value.endIndex, from);
      CutSplits(turns[..end], previous.value.endIndex);
    }
  }

  lemma {:induction false} CutBounds(turns: seq<TurnGroup>, end: int)
    ensures var n := Cut(turns, end);
      (n > 0 ==> turns[n - 1].turnIndex <= end) && (n < |turns| ==> end < turns[n].turnIndex)
  {
    if turns != [] && turns[0].turnIndex <= end {
      CutBounds(turns[1..], end);
    }
  }

  // The record made from a prefix is valid for the whole list and has moved on from the previous one.
  lemma {:induction false} PrefixRecord(session: string, turns: seq<TurnGroup>, n: nat, end: nat,
                                        previous: Option<CompactionRecord>, evidence: string)
    requires Increasing(turns) && n <= |turns| && Cut(turns[..n], Completed(previous)) < end <= n
    ensures var r := RecordOf(session, turns[..n][..end], previous, evidence);
      Valid(r, turns) && Cut(turns[..n], r.endIndex) == end && Completed(previous) < r.endIndex
  {
    var source := turns[..n];
    var r := RecordOf(session, source[..end], previous, evidence);
    assert source[..end] == turns[..end];
    assert r.endIndex == turns[end - 1].turnIndex;
    PrefixRecordValid(turns, end, r);
    IncreasingSlice(turns, n);
    CutIs(source, r.endIndex, end);
    var from := Cut(source, Completed(previous));
    CutBounds(source, Completed(previous));
    assert source[from].turnIndex <= source[end - 1].turnIndex;
  }

  // Where a run on `source` stands: covered up to `at`, with the payloads of the calls made so far.
  ghost predicate Progress(source: seq<TurnGroup>, from: nat, at: nat, rest: seq<seq<TurnGroup>>,
                           sent: seq<seq<TurnGroup>>, record: Option<CompactionRecord>)
  {
    && from <= at <= |source| && Growing(source, at, rest, |source|)
    && at == Cut(source, Completed(record))
    && Flatten(sent) == source[from..at] && AllDeltas(sent) && Packed(sent)
    && (sent != [] && at < |source| ==> !IsDelta(sent[|sent| - 1] + [source[at]]))
  }

  predicate AllDeltas(sent: seq<seq<TurnGroup>>) {
    forall k :: 0 <= k < |sent| ==> IsDelta(sent[k])
  }

  // No payload could have taken the first turn of the next one too.
  predicate Packed(sent: seq<seq<TurnGroup>>) {
    forall k :: 0 <= k < |sent| - 1 && sent[k + 1] != [] ==> !IsDelta(sent[k] + [sent[k + 1][0]])
  }

  // A delta that is as long as the limits allow comes next.
  lemma {:induction false} PackedStep(source: seq<TurnGroup>, at: nat, end: nat, sent: seq<seq<TurnGroup>>)
    requires at < end <= |source| && IsFullDelta(source, at, end) && Packed(sent)
    requires sent != [] ==> !IsDelta(sent[|sent| - 1] + [source[at]])
    ensures Packed(sent + [source[at..end]])
    ensures end < |source| ==> !IsDelta(source[at..end] + [source[end]])
  {
    var all := sent + [source[at..end]];
    if end < |source| {
      assert source[at..end + 1] == source[at..end] + [source[end]];
    }
    forall k | 0 <= k < |all| - 1 && all[k + 1] != [] ensures !IsDelta(all[k] + [all[k + 1][0]]) {
      assert k + 1 < |sent| ==> all[k + 1] == sent[k + 1];
    }
  }

  // A call sends the next delta; when it succeeds the run has advanced past it.
  lemma {:induction false} ProgressStep(source: seq<TurnGroup>, from: nat, at: nat, rest: seq<seq<TurnGroup>>,
                                        sent: seq<seq<TurnGroup>>, record: Option<CompactionRecord>)
    requires Increasing(source) && Progress(source, from, at, rest, sent, record) && rest != []
    ensures var end := |rest[0]|;
      && at < end <= |source| && rest[0] == source[..end]
      && NewTurns(rest[0], record) == source[at..end]
      && Flatten(sent + [source[at..end]]) == source[from..end] && AllDeltas(sent + [source[at..end]])
      && source[from..end] <= source[from..]
      && Growing(source, end, rest[1..], |source|)
  {
    var end := |rest[0]|;
    SentIsDelta(source, at, end, record);
    FlattenAppend(sent, [source[at..end]]);
    assert Flatten([source[at..end]]) == source[at..end];
    Adjacent(source, from, at, end);
  }

  lemma {:induction false} Adjacent<T>(s: seq<T>, from: nat, at: nat, end: nat)
    requires from <= at <= end <= |s|
    ensures s[from..end] == s[from..at] + s[at..end] && s[from..end] <= s[from..]
  {}

  lemma {:induction false} ProgressDone(turns: seq<TurnGroup>, n: nat, from: nat, at: nat,
                                        sent: seq<seq<TurnGroup>>, record: Option<CompactionRecord>)
    requires n <= |turns| && Progress(turns[..n], from, at, [], sent, record)
    ensures Flatten(sent) == turns[..n][from..] && CoversUpTo(record, turns, n)
  {
    CutBounds(turns[..n], Completed(record));
  }

  // The record is unchanged, or a valid one that covers more.
  predicate Extends(extended: Option<CompactionRecord>, record: Option<CompactionRecord>, turns: seq<TurnGroup>) {
    && GoodRecord(extended, turns)
    && (extended == record || (extended.Some? && Completed(extended) > Completed(record)))
  }

  // What the store holds once `extended` has been saved in place of `record`.
  function Saved(records: map<string, CompactionRecord>, session: string,
                 record: Option<CompactionRecord>, extended: Option<CompactionRecord>): map<string, CompactionRecord>
  {
    if extended == record || extended.None? then records else records[session := extended.value]
  }

  lemma SaveAgain(records: map<string, CompactionRecord>, session: string, record: Option<CompactionRecord>,
                  before: Option<CompactionRecord>, after: CompactionRecord, turns: seq<TurnGroup>)
    requires after.sessionId == session && Extends(before, record, turns) && Valid(after, turns)
    requires Completed(before) < after.endIndex
    ensures Extends(Some(after), record, turns)
    ensures Saved(records, session, record, before)[after.sessionId := after]
         == Saved(records, session, record, Some(after))
  {}

  // One run: the first `n` turns are to be covered, the calls are numbered from `calls` on, and the store holds `before`.
  datatype Job = Job(session: string, turns: seq<TurnGroup>, n: nat, record: Option<CompactionRecord>,
                     replies: Replies, calls: nat, before: map<string, CompactionRecord>)
  {
    function Source(): seq<TurnGroup>
      requires n <= |turns|
    {
      turns[..n]
    }

    // Where the uncovered turns begin.
    function From(): nat
      requires n <= |turns|
    {
      Cut(Source(), Completed(record))
    }
  }

  // After `answered` calls the record is the one that the last answer made.
  ghost predicate MadeBy(job: Job, extended: Option<CompactionRecord>, answered: nat) {
    if answered == 0 then extended == job.record
    else extended.Some? && extended.value.sessionId == job.session
         && job.replies(job.calls + answered - 1) == Some(extended.value.evidence)
  }

  // The calls so far were answered, and the record is the one the last answer made.
  ghost predicate Answered(job: Job, sent: seq<seq<TurnGroup>>, extended: Option<CompactionRecord>) {
    NoFailure(job.replies, job.calls, job.calls + |sent|) && MadeBy(job, extended, |sent|)
  }

  // The record has only grown, and is the one in the store.
  ghost predicate Grown(job: Job, extended: Option<CompactionRecord>, records: map<string, CompactionRecord>) {
    && Extends(extended, job.record, job.turns)
    && records == Saved(job.before, job.session, job.record, extended)
  }

  // What the loop has sent, made and saved so far.
  ghost predicate Running(job: Job, at: nat, rest: seq<seq<TurnGroup>>, sent: seq<seq<TurnGroup>>,
                          extended: Option<CompactionRecord>, records: map<string, CompactionRecord>)
  {
    && job.n <= |job.turns| && Progress(job.Source(), job.From(), at, rest, sent, extended)
    && Grown(job, extended, records) && Answered(job, sent, extended)
  }

  lemma {:induction false} RunStarts(job: Job, rest: seq<seq<TurnGroup>>)
    requires job.n <= |job.turns| && GoodRecord(job.record, job.turns)
    requires Growing(job.Source(), job.From(), rest, job.n)
    ensures Running(job, job.From(), rest, [], job.record, job.before)
  {
    assert job.Source()[job.From()..job.From()] == [];
  }

  lemma {:induction false} AnsweredStep(job: Job, sent: seq<seq<TurnGroup>>, extended: Option<CompactionRecord>, payload: seq<TurnGroup>,
                     made: CompactionRecord)
    requires Answered(job, sent, extended) && made.sessionId == job.session
    requires job.replies(job.calls + |sent|) == Some(made.evidence)
    ensures Answered(job, sent + [payload], Some(made))
  {
    OneMoreCall(job.replies, job.calls, job.calls + |sent|);
    assert job.calls + |sent + [payload]| == job.calls + |sent| + 1;
  }

  // A record that covers the next prefix takes the run past it.
  lemma {:induction false} NextProgress(source: seq<TurnGroup>, from: nat, at: nat, rest: seq<seq<TurnGroup>>,
                                        sent: seq<seq<TurnGroup>>, extended: Option<CompactionRecord>,
                                        made: CompactionRecord)
    requires Increasing(source) && Progress(source, from, at, rest, sent, extended) && rest != []
    requires Cut(source, made.endIndex) == |rest[0]|
    ensures Progress(source, from, |rest[0]|, rest[1..], sent + [NewTurns(rest[0], extended)], Some(made))
  {
    ProgressStep(source, from, at, rest, sent, extended);
    PackedStep(source, at, |rest[0]|, sent);
  }

  // The record made from the next prefix covers it.
  lemma {:induction false} ProgressMade(job: Job, at: nat, rest: seq<seq<TurnGroup>>, sent: seq<seq<TurnGroup>>,
                     extended: Option<CompactionRecord>, made: CompactionRecord)
    requires Increasing(job.turns) && rest != [] && job.n <= |job.turns|
    requires Progress(job.Source(), job.From(), at, rest, sent, extended)
    requires rest[0] != [] && made == RecordOf(job.session, rest[0], extended, made.evidence)
    ensures Progress(job.Source(), job.From(), |rest[0]|, rest[1..], sent + [NewTurns(rest[0], extended)], Some(made))
    ensures Valid(made, job.turns) && Completed(extended) < made.endIndex
  {
    var source, end := job.Source(), |rest[0]|;
    IncreasingSlice(job.turns, job.n);
    NextPrefix(source, at, rest);
    PrefixRecord(job.session, job.turns, job.n, end, extended, made.evidence);
    NextProgress(source, job.From(), at, rest, sent, extended, made);
  }

  lemma {:induction false} NextPrefix(source: seq<TurnGroup>, at: nat, rest: seq<seq<TurnGroup>>)
    requires Growing(source, at, rest, |source|) && rest != []
    ensures at < |rest[0]| <= |source| && rest[0] == source[..|rest[0]|]
  {}

  // One answered call: the next prefix is covered and its record saved.
  lemma {:induction false} RunningStep(job: Job, at: nat, rest: seq<seq<TurnGroup>>, sent: seq<seq<TurnGroup>>,
                    extended: Option<CompactionRecord>, records: map<string, CompactionRecord>, made: CompactionRecord)
    requires Increasing(job.turns) && rest != [] && Running(job, at, rest, sent, extended, records)
    requires rest[0] != [] && made == RecordOf(job.session, rest[0], extended, made.evidence)
    requires job.replies(job.calls + |sent|) == Some(made.evidence)
    ensures Running(job, |rest[0]|, rest[1..], sent + [NewTurns(rest[0], extended)], Some(made),
                    records[made.sessionId := made])
  {
    ProgressMade(job, at, rest, sent, extended, made);
    SaveAgain(job.before, job.session, job.record, extended, made, job.turns);
    AnsweredStep(job, sent, extended, NewTurns(rest[0], extended), made);
  }

  // The calls were all answered, or the last one failed and the others were answered.
  ghost predicate CallsJustify(ok: bool, replies: Replies, calls: nat, next: nat) {
    && calls <= next && (ok <==> NoFailure(replies, calls, next))
    && (!ok ==> next > calls && NoFailure(replies, calls, next - 1))
  }

  lemma JustifyOnward(ok: bool, replies: Replies, calls: nat, middle: nat, next: nat)
    requires CallsJustify(true, replies, calls, middle) && CallsJustify(ok, replies, middle, next)
    ensures CallsJustify(ok, replies, calls, next)
  {
    CallsInARow(replies, calls, middle, next);
    if !ok {
      CallsInARow(replies, calls, middle, next - 1);
    }
  }

  // The payloads are deltas that make up the uncovered turns in order, all of them in a run without failure.
  ghost predicate SentInOrder(job: Job, sent: seq<seq<TurnGroup>>, ok: bool)
    requires job.n <= |job.turns|
  {
    var uncovered := job.Source()[job.From()..];
    AllDeltas(sent) && Packed(sent) && Flatten(sent) <= uncovered && (ok ==> Flatten(sent) == uncovered)
  }

  // What the answered calls have sent is covered, by the record the last answer made, and that is saved.
  ghost predicate Kept(job: Job, answered: seq<seq<TurnGroup>>, extended: Option<CompactionRecord>,
                       records: map<string, CompactionRecord>)
    requires job.n <= |job.turns|
  {
    && Grown(job, extended, records) && MadeBy(job, extended, |answered|)
    && Cut(job.Source(), Completed(extended)) == job.From() + |Flatten(answered)|
  }

  // The payloads of the answered calls: all, or all but the last, which failed.
  function AnsweredOf(ok: bool, sent: seq<seq<TurnGroup>>): seq<seq<TurnGroup>> {
    if ok || sent == [] then sent else sent[..|sent| - 1]
  }

  // What a run has done.
  ghost predicate Ran(job: Job, sent: seq<seq<TurnGroup>>, extended: Option<CompactionRecord>, ok: bool, next: nat,
                      records: map<string, CompactionRecord>)
    requires job.n <= |job.turns|
  {
    && next == job.calls + |sent| && CallsJustify(ok, job.replies, job.calls, next)
    && SentInOrder(job, sent, ok) && (ok ==> CoversUpTo(extended, job.turns, job.n))
    && Kept(job, AnsweredOf(ok, sent), extended, records)
  }

  lemma {:induction false} RunFails(job: Job, at: nat, rest: seq<seq<TurnGroup>>, sent: seq<seq<TurnGroup>>,
                 extended: Option<CompactionRecord>, records: map<string, CompactionRecord>)
    requires Increasing(job.turns) && rest != [] && Running(job, at, rest, sent, extended, records)
    requires job.replies(job.calls + |sent|).None?
    ensures Ran(job, sent + [NewTurns(rest[0], extended)], extended, false, job.calls + |sent| + 1, records)
  {
    var payload := NewTurns(rest[0], extended);
    IncreasingSlice(job.turns, job.n);
    SentNext(job, at, rest, sent, extended);
    OneMoreCall(job.replies, job.calls, job.calls + |sent|);
    assert AnsweredOf(false, sent + [payload]) == sent;
  }

  lemma {:induction false} SentNext(job: Job, at: nat, rest: seq<seq<TurnGroup>>, sent: seq<seq<TurnGroup>>,
                                    extended: Option<CompactionRecord>)
    requires job.n <= |job.turns| && Increasing(job.Source()) && rest != []
    requires Progress(job.Source(), job.From(), at, rest, sent, extended)
    ensures SentInOrder(job, sent + [NewTurns(rest[0], extended)], false)
  {
    ProgressStep(job.Source(), job.From(), at, rest, sent, extended);
    PackedStep(job.Source(), at, |rest[0]|, sent);
  }

  lemma {:induction false} RunEnds(job: Job, at: nat, sent: seq<seq<TurnGroup>>, extended: Option<CompactionRecord>,
                records: map<string, CompactionRecord>)
    requires Running(job, at, [], sent, extended, records)
    ensures Ran(job, sent, extended, true, job.calls + |sent|, records)
  {
    ProgressDone(job.turns, job.n, job.From(), at, sent, extended);
  }

  method CallOnce(session: string, prefix: seq<TurnGroup>, previous: Option<CompactionRecord>, reply: Option<string>)
    returns (made: Option<CompactionRecord>, payload: seq<TurnGroup>)
    requires prefix != []
    ensures payload == NewTurns(prefix, previous)
    ensures made == if reply.Some? then Some(RecordOf(session, prefix, previous, reply.value)) else None
  {
    made, payload := Compact(session, prefix, previous, reply);
  }

  /** Compacts the first `n` turns, one delta per call: each uncovered turn is sent exactly once and in
      order, and the record always stays valid. The run ends early only when a call fails, and then what the calls
      before it have covered is kept. */
  method CompactThrough(session: string, turns: seq<TurnGroup>, n: nat, record: Option<CompactionRecord>,
                        store: CompactionStore, replies: Replies, calls: nat)
    returns (extended: Option<CompactionRecord>, ok: bool, next: nat, sent: seq<seq<TurnGroup>>)
    requires Increasing(turns) && n <= |turns| && GoodRecord(record, turns)
    modifies store
    ensures Ran(Job(session, turns, n, record, replies, calls, old(store.records)), sent, extended, ok, next,
                store.records)
  {
    var rest := IncrementalCompactionPrefixes(turns[..n], record);
    extended, ok, next, sent := record, true, calls, [];
    ghost var job := Job(session, turns, n, record, replies, calls, store.records);
    ghost var at: nat := job.From();
    RunStarts(job, rest);
    while rest != []
      invariant Running(job, at, rest, sent, extended, store.records) && next == calls + |sent|
      decreases |rest|
    {
      RestStarts(job, at, rest, sent, extended, store.records);
      var made, payload := CallOnce(session, rest[0], extended, replies(next));
      next := next + 1;
      if made.None? {
        RunFails(job, at, rest, sent, extended, store.records);
        ok, sent := false, sent + [payload];
        return;
      }
      RunningStep(job, at, rest, sent, extended, store.records, made.value);
      at, sent := |rest[0]|, sent + [payload];
      store.Save(made.value);
      extended, rest := made, rest[1..];
    }
    RunEnds(job, at, sent, extended, store.records);
  }

  lemma {:induction false} RestStarts(job: Job, at: nat, rest: seq<seq<TurnGroup>>, sent: seq<seq<TurnGroup>>,
                   extended: Option<CompactionRecord>, records: map<string, CompactionRecord>)
    requires Running(job, at, rest, sent, extended, records) && rest != []
    ensures rest[0] != []
  {}
}
