/** Compaction records: digest, validation, storage and the bookkeeping of one compactor call
    (agent/context/compaction.py, agent/context/turn_document.py). */
module Compaction {
  import opened Options
  import opened Messages
  import opened Turns
  import opened TurnTrimming

  // What the digest reads of a message: not its name.
  datatype MessageView = MessageView(role: Role, content: string, toolCallId: string, calls: seq<ToolCall>)
  datatype TurnView = TurnView(turnId: string, turnIndex: int, messages: seq<MessageView>)

  // SHA-256 of the serialised views, taken to be free of collisions.
  datatype Digest = Sha256(views: seq<TurnView>)

  // `evidence` is the rendered text of the record, whatever the language model put into it.
  datatype CompactionRecord = CompactionRecord(
    sessionId: string, startIndex: int, endIndex: int, digest: Digest, evidence: string)

  function View(m: Message): MessageView {
    MessageView(m.role, m.content, m.toolCallId, m.calls)
  }

  function ViewOf(turn: TurnGroup): TurnView {
    TurnView(turn.turnId, turn.turnIndex,
             seq(|turn.messages|, i requires 0 <= i < |turn.messages| => View(turn.messages[i])))
  }

  function Views(turns: seq<TurnGroup>): (r: seq<TurnView>)
    ensures |r| == |turns| && forall i :: 0 <= i < |r| ==> r[i] == ViewOf(turns[i])
  {
    seq(|turns|, i requires 0 <= i < |turns| => ViewOf(turns[i]))
  }

  function TurnSourceDigest(turns: seq<TurnGroup>): Digest {
    Sha256(Views(turns))
  }

  // An index of 0 counts as absent.
  function EndIndex(turns: seq<TurnGroup>): int
    requires turns != []
  {
    var last := turns[|turns| - 1].turnIndex;
    if last != 0 then last else |turns|
  }

  predicate ValidateCompaction(record: CompactionRecord, source: seq<TurnGroup>) {
    source != [] && record.endIndex == EndIndex(source) && record.digest == TurnSourceDigest(source)
  }

  // The turns with an index up to `end`, and the turns after it.
  function UpTo(turns: seq<TurnGroup>, end: int): seq<TurnGroup> {
    if turns == [] then []
    else (if turns[0].turnIndex <= end then [turns[0]] else []) + UpTo(turns[1..], end)
  }

  function After(turns: seq<TurnGroup>, end: int): seq<TurnGroup> {
    if turns == [] then []
    else (if turns[0].turnIndex > end then [turns[0]] else []) + After(turns[1..], end)
  }

  // The record still represents the turns it covers.
  predicate Valid(record: CompactionRecord, turns: seq<TurnGroup>) {
    ValidateCompaction(record, UpTo(turns, record.endIndex))
  }

  class CompactionStore {
    var records: map<string, CompactionRecord>

    constructor ()
      ensures records == map[]
    {
      records := map[];
    }

    method Load(session: string) returns (r: Option<CompactionRecord>)
      ensures r == if session in records then Some(records[session]) else None
    {
      r := if session in records then Some(records[session]) else None;
    }

    method Save(record: CompactionRecord)
      modifies this
      ensures records == old(records)[record.sessionId := record]
    {
      records := records[record.sessionId := record];
    }

    method Delete(session: string)
      modifies this
      ensures records == old(records) - {session}
    {
      records := records - {session};
    }
  }

  // What one compactor call sends as new turns.
  function NewTurns(turns: seq<TurnGroup>, previous: Option<CompactionRecord>): seq<TurnGroup> {
    if previous.None? then turns else After(turns, previous.value.endIndex)
  }

  // The record made from `turns` when the model answers with `evidence`.
  function RecordOf(session: string, turns: seq<TurnGroup>, previous: Option<CompactionRecord>, evidence: string)
    : CompactionRecord
    requires turns != []
  {
    var start := if previous.Some? then previous.value.startIndex
                 else if turns[0].turnIndex != 0 then turns[0].turnIndex else 1;
    CompactionRecord(session, start, EndIndex(turns), TurnSourceDigest(turns), evidence)
  }

  // The record, if any, validates, and covers all the turns.
  predicate CoversAll(record: Option<CompactionRecord>, turns: seq<TurnGroup>) {
    record.Some? ==> Valid(record.value, turns) && UpTo(turns, record.value.endIndex) == turns
  }

  // What the previous record covers and what is sent make up the turns.
  predicate MakesUp(previous: Option<CompactionRecord>, sent: seq<TurnGroup>, turns: seq<TurnGroup>) {
    if previous.Some? then UpTo(turns, previous.value.endIndex) + sent == turns else sent == turns
  }

  /** One compactor call. `reply` is the model's usable answer, None when the call or its parsing fails. */
  method Compact(session: string, turns: seq<TurnGroup>, previous: Option<CompactionRecord>, reply: Option<string>)
    returns (record: Option<CompactionRecord>, sent: seq<TurnGroup>)
    ensures turns == [] ==> record == None && sent == []
    ensures turns != [] ==> sent == NewTurns(turns, previous)
    ensures turns != [] ==>
      record == if reply.Some? then Some(RecordOf(session, turns, previous, reply.value)) else None
    ensures Increasing(turns) ==> CoversAll(record, turns) && MakesUp(previous, sent, turns)
  {
    if turns == [] {
      NewTurnsMakeUp([], previous);
      return None, [];
    }
    sent := NewTurns(turns, previous);
    if Increasing(turns) {
      NewTurnsMakeUp(turns, previous);
    }
    if reply.None? {
      return None, sent;
    }
    if Increasing(turns) {
      RecordOfAll(session, turns, previous, reply.value);
    }
    record := Some(RecordOf(session, turns, previous, reply.value));
  }

  // With increasing indices a record of all turns is valid and covers all of them.
  lemma {:induction false} RecordOfAll(session: string, turns: seq<TurnGroup>, previous: Option<CompactionRecord>,
                                       evidence: string)
    requires Increasing(turns) && turns != []
    ensures CoversAll(Some(RecordOf(session, turns, previous, evidence)), turns)
  {
    AllUpTo(turns, EndIndex(turns));
  }

  lemma {:induction false} AllUpTo(turns: seq<TurnGroup>, end: int)
    requires forall i :: 0 <= i < |turns| ==> turns[i].turnIndex <= end
    ensures UpTo(turns, end) == turns
  {
    if turns != [] {
      AllUpTo(turns[1..], end);
      assert turns == [turns[0]] + turns[1..];
    }
  }

  // The covered and the new turns make up all of them.
  lemma {:induction false} NewTurnsMakeUp(turns: seq<TurnGroup>, previous: Option<CompactionRecord>)
    requires Increasing(turns)
    ensures MakesUp(previous, NewTurns(turns, previous), turns)
  {
    if previous.Some? {
      UpToThenAfter(turns, previous.value.endIndex);
    }
  }

  lemma {:induction false} UpToThenAfter(turns: seq<TurnGroup>, end: int)
    requires Increasing(turns)
    ensures UpTo(turns, end) + After(turns, end) == turns
  {
    if turns != [] {
      if turns[0].turnIndex > end {
        NoneUpTo(turns, end);
      } else {
        UpToThenAfter(turns[1..], end);
        Regroup([turns[0]], UpTo(turns[1..], end), After(turns[1..], end));
        assert turns == [turns[0]] + turns[1..];
      }
    }
  }

  // ----- with increasing indices, coverage is a prefix -----

  // How many turns at the front have an index up to `end`.
  function Cut(turns: seq<TurnGroup>, end: int): (n: nat)
    ensures n <= |turns|
  {
    if turns == [] || turns[0].turnIndex > end then 0 else 1 + Cut(turns[1..], end)
  }

  lemma {:induction false} NoneUpTo(turns: seq<TurnGroup>, end: int)
    requires forall i :: 0 <= i < |turns| ==> turns[i].turnIndex > end
    ensures UpTo(turns, end) == [] && After(turns, end) == turns
  {
    if turns != [] {
      NoneUpTo(turns[1..], end);
      assert turns == [turns[0]] + turns[1..];
    }
  }

  lemma {:induction false} CutSplits(turns: seq<TurnGroup>, end: int)
    requires Increasing(turns)
    ensures UpTo(turns, end) == turns[..Cut(turns, end)]
    ensures After(turns, end) == turns[Cut(turns, end)..]
  {
    if turns == [] {
    } else if turns[0].turnIndex > end {
      NoneUpTo(turns, end);
    } else {
      var rest, n := turns[1..], Cut(turns[1..], end);
      CutSplits(rest, end);
      OneLonger(turns, n);
    }
  }

  lemma OneLonger<T>(turns: seq<T>, n: nat)
    requires n < |turns|
    ensures turns[..n + 1] == [turns[0]] + turns[1..][..n] && turns[n + 1..] == turns[1..][n..]
  {}

  lemma {:induction false} CutIs(turns: seq<TurnGroup>, end: int, n: nat)
    requires Increasing(turns) && n <= |turns|
    requires n > 0 ==> turns[n - 1].turnIndex <= end
    requires n < |turns| ==> end < turns[n].turnIndex
    ensures Cut(turns, end) == n
  {
    if n > 0 {
      assert turns[0].turnIndex <= turns[n - 1].turnIndex;
      CutIs(turns[1..], end, n - 1);
    }
  }

  lemma IncreasingSlice(turns: seq<TurnGroup>, n: nat)
    requires Increasing(turns) && n <= |turns|
    ensures Increasing(turns[..n]) && Increasing(turns[n..])
  {}

  // A record made from the first `n` turns is valid for the whole list.
  lemma {:induction false} PrefixRecordValid(turns: seq<TurnGroup>, n: nat, record: CompactionRecord)
    requires Increasing(turns) && 0 < n <= |turns|
    requires record.endIndex == turns[n - 1].turnIndex && record.digest == TurnSourceDigest(turns[..n])
    ensures Valid(record, turns)
  {
    CutIs(turns, record.endIndex, n);
    CutSplits(turns, record.endIndex);
  }

  /** A valid record stays valid when turns with higher indices are appended. */
  lemma {:induction false} RecordSurvivesAppend(record: CompactionRecord, turns: seq<TurnGroup>, more: seq<TurnGroup>)
    requires Increasing(turns + more) && Valid(record, turns)
    ensures Valid(record, turns + more)
  {
    var n := Cut(turns, record.endIndex);
    var all := turns + more;
    assert turns == all[..|turns|];
    IncreasingSlice(all, |turns|);
    CutSplits(turns, record.endIndex);
    assert turns[..n] != [] && record.endIndex == turns[n - 1].turnIndex;
    assert all[n - 1] == turns[n - 1] && all[..n] == turns[..n];
    PrefixRecordValid(all, n, record);
  }

  /** Exactly the covered turns that look the same to the digest keep a record valid: any change the
      digest sees is rejected, whatever else was saved or deleted in between. */
  lemma {:induction false} RecordRejectsChange(record: CompactionRecord, turns: seq<TurnGroup>, other: seq<TurnGroup>)
    requires Valid(record, turns)
    ensures Valid(record, other) <==>
      Views(UpTo(other, record.endIndex)) == Views(UpTo(turns, record.endIndex))
  {
    var a, b := UpTo(turns, record.endIndex), UpTo(other, record.endIndex);
    if Views(a) == Views(b) {
      var last := |a| - 1;
      assert Views(a)[last] == ViewOf(a[last]) && Views(b)[last] == ViewOf(b[last]);
    }
  }

  /** The digest does not see message names: renaming the speaker of a covered message keeps the
      record valid although the prompt would carry the name. */
  lemma {:induction false} NameChangeUnseen(record: CompactionRecord, turn: TurnGroup, m: Message, name: string)
    requires turn.messages == [m] && Valid(record, [turn])
    ensures Valid(record, [turn.(messages := [m.(name := name)])])
  {
    var renamed := turn.(messages := [m.(name := name)]);
    assert View(m) == View(m.(name := name));
    assert ViewOf(renamed).messages == ViewOf(turn).messages;
    assert UpTo([turn], record.endIndex) == [turn] && UpTo([renamed], record.endIndex) == [renamed];
    assert Views([turn]) == [ViewOf(turn)] == Views([renamed]);
  }

  // ----- indices that do not increase -----

  lemma {:induction false} AfterAppend(a: seq<TurnGroup>, b: seq<TurnGroup>, end: int)
    ensures After(a + b, end) == After(a, end) + After(b, end)
  {
    if a == [] {
      assert a + b == b;
    } else {
      var first := if a[0].turnIndex > end then [a[0]] else [];
      AfterAppend(a[1..], b, end);
      assert (a + b)[1..] == a[1..] + b;
      Regroup(first, After(a[1..], end), After(b, end));
    }
  }

  lemma {:induction false} AfterMeans(turns: seq<TurnGroup>, end: int)
    ensures |After(turns, end)| <= |turns|
    ensures forall t :: t in After(turns, end) ==> t.turnIndex > end
    ensures After(turns, end) == [] <==> forall i :: 0 <= i < |turns| ==> turns[i].turnIndex <= end
    ensures (forall i :: 0 <= i < |turns| ==> turns[i].turnIndex > end) ==> After(turns, end) == turns
  {
    if turns != [] {
      AfterMeans(turns[1..], end);
      assert turns == [turns[0]] + turns[1..];
    }
  }

  // When two lists leave exactly the second one, nothing of the first is left and all of the second.
  lemma LeavesSecond(a: seq<TurnGroup>, b: seq<TurnGroup>, end: int)
    requires After(a, end) + After(b, end) == b
    ensures After(a, end) == [] && forall i :: 0 <= i < |b| ==> b[i].turnIndex > end
  {
    AfterMeans(a, end);
    AfterMeans(b, end);
    forall i | 0 <= i < |b| ensures b[i].turnIndex > end {
      assert b[i] in After(a, end) + After(b, end);
    }
  }

  /** On any indices, one call sends exactly the turns of `b` and none of `a` before them if and only if the record's
      end separates the two: a turn of `b` with an index up to that end is never sent. */
  lemma SentExactlyIff(a: seq<TurnGroup>, b: seq<TurnGroup>, record: CompactionRecord)
    ensures NewTurns(a + b, Some(record)) == b <==>
      && (forall i :: 0 <= i < |a| ==> a[i].turnIndex <= record.endIndex)
      && (forall i :: 0 <= i < |b| ==> b[i].turnIndex > record.endIndex)
  {
    AfterAppend(a, b, record.endIndex);
    AfterMeans(a, record.endIndex);
    if NewTurns(a + b, Some(record)) == b {
      LeavesSecond(a, b, record.endIndex);
    } else {
      AfterMeans(b, record.endIndex);
    }
  }

  /** When a new turn repeats the index of the last covered one, its compaction sends nothing of it and the stored
      record no longer validates. */
  lemma RepeatedIndexLosesTurn(record: CompactionRecord, covered: seq<TurnGroup>, repeated: TurnGroup)
    requires Valid(record, covered) && repeated.turnIndex <= record.endIndex
    ensures NewTurns(covered + [repeated], Some(record)) == NewTurns(covered, Some(record))
    ensures !Valid(record, covered + [repeated])
  {
    AfterAppend(covered, [repeated], record.endIndex);
    UpToAppend(covered, [repeated], record.endIndex);
    assert [repeated][1..] == [];
    assert UpTo([repeated], record.endIndex) == [repeated] && After([repeated], record.endIndex) == [];
    assert |Views(UpTo(covered + [repeated], record.endIndex))| == |Views(UpTo(covered, record.endIndex))| + 1;
  }

  lemma {:induction false} UpToAppend(a: seq<TurnGroup>, b: seq<TurnGroup>, end: int)
    ensures UpTo(a + b, end) == UpTo(a, end) + UpTo(b, end)
  {
    if a == [] {
      assert a + b == b;
    } else {
      var first := if a[0].turnIndex <= end then [a[0]] else [];
      UpToAppend(a[1..], b, end);
      assert (a + b)[1..] == a[1..] + b;
      Regroup(first, UpTo(a[1..], end), UpTo(b, end));
    }
  }
}
