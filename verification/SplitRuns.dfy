/** Whole runs of decisions, cancellations and timeouts in two steps: exactly when everyone still hears the same, what
    is stored in any case, and the smallest runs that go wrong. */
module SplitRuns {
  import opened Options
  import opened AuthTables
  import opened Confirmations
  import opened SplitDecisions

  /** In any interleaving of the halves of decisions, cancellations and timeouts with polls, requests and user
      deletions, everyone is told the same about every confirmation if and only if no write meets a row settled to
      something else, and nothing is answered without a row against what the row said when it went. What everyone is
      told is then what the store says. */
  lemma {:induction false} ConsistentIff(x: Split, halves: seq<Half>)
    requires Spoken(x)
    ensures Consistent(AfterHalves(x, halves).s) <==> NoConflict(x, halves)
    ensures NoConflict(x, halves) ==> Spoken(AfterHalves(x, halves))
    decreases |halves|
  {
    if halves == [] {
      SpokenConsistent(x);
    } else {
      var next := HalfStep(x, halves[0]);
      if Conflicts(x, halves[0]) {
        ConflictStep(x, halves[0]);
        ReportsStay(next, halves[1..]);
        StaysInconsistent(next.s, AfterHalves(next, halves[1..]).s);
      } else {
        CleanStep(x, halves[0]);
        ConsistentIff(next, halves[1..]);
      }
    }
  }

  /** In every run, also one with conflicts, a row and its record show the same status, and approvals are in time. */
  lemma {:induction false} StoredAlways(x: Split, halves: seq<Half>)
    requires Framed(x) && Stored(x)
    ensures Stored(AfterHalves(x, halves))
    decreases |halves|
  {
    if halves != [] {
      HalfSpeaks(x, halves[0]);
      HalfStored(x, halves[0]);
      StoredAlways(HalfStep(x, halves[0]), halves[1..]);
    }
  }

  // ----- the smallest conflicts -----

  // Two calls in flight on the same pending row; both may write.
  predicate Overlap(x: Split, first: nat, second: nat) {
    && first in x.inFlight && second in x.inFlight && first != second
    && x.inFlight[first].id == x.inFlight[second].id && LastWord(x, x.inFlight[first].id) == Pending
    && !Refused(x.s, x.inFlight[first]) && !Refused(x.s, x.inFlight[second])
  }

  /** Two calls that both read the pending row, deciders or the blocked call, in either order: everyone is told the
      same exactly when they bring the same verdict. */
  lemma OverlapAgreesIff(x: Split, first: nat, second: nat)
    requires Spoken(x) && Overlap(x, first, second)
    ensures Consistent(AfterHalves(x, [Write(first), Write(second)]).s) <==>
      x.inFlight[first].verdict == x.inFlight[second].verdict
  {
    OverlapConflicts(x, first, second);
    ConsistentIff(x, [Write(first), Write(second)]);
  }

  // The tokens belong to no call in flight.
  predicate FreeTokens(x: Split, first: nat, second: nat) {
    first !in x.inFlight && second !in x.inFlight && first != second
  }

  /** Two deciders read the pending row: the first is told that it is approved, and the row ends up denied. */
  lemma SplitDecideDisagrees(x: Split, id: Id, actor: Id, manager: Id, t1: nat, t2: nat, now: int)
    requires FreeTokens(x, t1, t2) && id in x.s.ledger.confirmations && {actor, manager} <= x.s.users
    requires
      var row := x.s.ledger.confirmations[id];
      row.status == Pending && row.actor == actor && now < row.expires
    ensures
      var end := AfterHalves(x, [ReadDecision(t1, id, actor, true, false, now),
                                 ReadDecision(t2, id, manager, false, true, now), Write(t1), Write(t2)]);
      && end.s.reports == x.s.reports + [Report(id, Decider, Approved), Report(id, Decider, Denied)]
      && id in end.s.ledger.confirmations && end.s.ledger.confirmations[id].status == Denied
  {
    var first, second := ReadDecision(t1, id, actor, true, false, now), ReadDecision(t2, id, manager, false, true, now);
    AfterFour(x, first, second, Write(t1), Write(t2));
    TwoWrites(HalfStep(HalfStep(x, first), second), t1, t2);
  }

  /** A blocked call reads the pending row before it ends, then a decider approves and is told so: the call is told
      that it was cancelled or has expired, and the row says so under the name of the decider. */
  lemma LateEndOverwrites(x: Split, id: Id, actor: Id, t1: nat, t2: nat, cancelled: bool, now: int)
    requires FreeTokens(x, t1, t2) && id in x.s.ledger.confirmations && actor in x.s.users && id in x.s.waiting
    requires
      var row := x.s.ledger.confirmations[id];
      row.status == Pending && row.actor == actor && now < row.expires
    ensures
      var end := AfterHalves(x, [ReadEnd(t1, id, cancelled, now), ReadDecision(t2, id, actor, true, false, now),
                                 Write(t2), Write(t1)]);
      && end.s.reports == x.s.reports + [Report(id, Decider, Approved), Report(id, BlockedCall, Final(cancelled))]
      && id in end.s.ledger.confirmations
      && end.s.ledger.confirmations[id].status == Final(cancelled)
      && end.s.ledger.confirmations[id].decider == Some(actor)
  {
    var first, second := ReadEnd(t1, id, cancelled, now), ReadDecision(t2, id, actor, true, false, now);
    AfterFour(x, first, second, Write(t2), Write(t1));
    TwoWrites(HalfStep(HalfStep(x, first), second), t2, t1);
  }

  lemma {:induction false} OverlapConflicts(x: Split, first: nat, second: nat)
    requires Framed(x) && Overlap(x, first, second)
    ensures NoConflict(x, [Write(first), Write(second)]) <==>
      x.inFlight[first].verdict == x.inFlight[second].verdict
  {
    var halves, next := [Write(first), Write(second)], AfterWrite(x, first);
    WriteSpeaks(x, first);
    assert halves[1..] == [Write(second)] && [Write(second)][1..] == [];
    assert NoConflict(next, [Write(second)]) <==> !Conflicts(next, Write(second));
  }

  // Both are told what they bring, and the row keeps the second verdict, and the last decider.
  lemma TwoWrites(x: Split, first: nat, second: nat)
    requires Overlap(x, first, second) && x.inFlight[first].id in x.s.ledger.confirmations
    ensures
      var f, g, end := x.inFlight[first], x.inFlight[second], AfterWrite(AfterWrite(x, first), second);
      && end.s.reports == x.s.reports + [Report(f.id, f.reader, f.verdict), Report(g.id, g.reader, g.verdict)]
      && f.id in end.s.ledger.confirmations && end.s.ledger.confirmations[f.id].status == g.verdict
      && (g.decider.Some? ==> end.s.ledger.confirmations[f.id].decider == g.decider)
      && (g.decider.None? && f.decider.Some? ==> end.s.ledger.confirmations[f.id].decider == f.decider)
  {}

  lemma AfterFour(x: Split, a: Half, b: Half, c: Half, d: Half)
    ensures AfterHalves(x, [a, b, c, d]) == HalfStep(HalfStep(HalfStep(HalfStep(x, a), b), c), d)
  {
    var y := HalfStep(HalfStep(x, a), b);
    assert [a, b, c, d][1..] == [b, c, d] && [b, c, d][1..] == [c, d] && [c, d][1..] == [d] && [d][1..] == [];
    assert AfterHalves(HalfStep(HalfStep(y, c), d), []) == HalfStep(HalfStep(y, c), d);
    assert AfterHalves(HalfStep(y, c), [d]) == HalfStep(HalfStep(y, c), d);
    assert AfterHalves(y, [c, d]) == HalfStep(HalfStep(y, c), d);
    assert AfterHalves(HalfStep(x, a), [b, c, d]) == AfterHalves(y, [c, d]);
  }
}
