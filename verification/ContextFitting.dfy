/** fit_messages of agent/core/context.py: drop old turns, shorten tool results, drop old tool blocks. */
module ContextFitting {
  import opened Options
  import opened Messages
  import opened Sanitiser
  import opened SanitiserLaws
  import opened TurnTrimming
  import opened ToolTruncation
  import opened BlockDropping

  // The last turn, and everything before it. Without a user message there is no last turn.
  function LastTurn(ms: seq<Message>): seq<Message> {
    var turns := Conversation(ms);
    if turns == [] then [] else turns[|turns| - 1]
  }

  function BeforeLast(ms: seq<Message>): seq<Message> {
    var turns := Conversation(ms);
    Prefix(ms) + (if turns == [] then [] else Flatten(turns[..|turns| - 1]))
  }

  function DropBlocks(ms: seq<Message>, budget: nat): seq<Message> {
    BeforeLast(ms) + Flatten(KeptUnits(Tokens(BeforeLast(ms)), Units(LastTurn(ms)), budget))
  }

  // What the block-dropping loop keeps true of the rest of the last turn.
  predicate LastUnits(front: seq<Message>, units: seq<seq<Message>>) {
    AreUnits(units) && if units == [] then NoUser(front) else IsTurn(Flatten(units))
  }

  lemma FlattenLast(turns: seq<seq<Message>>)
    requires turns != []
    ensures Flatten(turns) == Flatten(turns[..|turns| - 1]) + turns[|turns| - 1]
  {
    var n := |turns| - 1;
    assert turns == turns[..n] + [turns[n]];
    FlattenAppend(turns[..n], [turns[n]]);
    assert Flatten([turns[n]]) == turns[n];
  }

  lemma LastTurnLossless(ms: seq<Message>)
    ensures BeforeLast(ms) + LastTurn(ms) == ms
    ensures if LastTurn(ms) == [] then NoUser(BeforeLast(ms)) else IsTurn(LastTurn(ms))
  {
    var turns := Conversation(ms);
    ConversationLossless(ms);
    if turns != [] {
      var n := |turns| - 1;
      FlattenLast(turns);
      Regroup(Prefix(ms), Flatten(turns[..n]), turns[n]);
      assert IsTurn(turns[n]);
    }
  }

  lemma SplitAtLastTurn(ms: seq<Message>)
    ensures BeforeLast(ms) + Flatten(Units(LastTurn(ms))) == ms
    ensures LastUnits(BeforeLast(ms), Units(LastTurn(ms)))
  {
    LastTurnLossless(ms);
    UnitsAreUnits(LastTurn(ms));
    UnitsLossless(LastTurn(ms));
  }

  lemma LastRange(front: seq<Message>, turn: seq<Message>)
    requires IsTurn(turn)
    ensures var ranges := ConversationTurnRanges(front + turn);
      ranges != [] && ranges[|ranges| - 1] == (|front|, |front + turn|)
  {
    UserStartsAppend(front, turn, 0);
    TurnStarts(turn, |front|);
  }

  // ----- removing a block keeps the last turn a turn -----

  lemma {:induction false} RemoveOldestKept(units: seq<seq<Message>>)
    ensures forall m :: m in Flatten(RemoveOldest(units)) ==> m in Flatten(units)
  {
    if units != [] && !Complete(units[0]) {
      RemoveOldestKept(units[1..]);
    }
  }

  lemma NoUserIn(a: seq<Message>, b: seq<Message>)
    requires NoUser(b) && forall m :: m in a ==> m in b
    ensures NoUser(a)
  {
    forall i | 0 <= i < |a| ensures !a[i].role.User? {
      assert a[i] in b;
    }
  }

  lemma RemoveOldestLastUnits(front: seq<Message>, units: seq<seq<Message>>)
    requires LastUnits(front, units) && units != []
    ensures LastUnits(front, RemoveOldest(units)) && RemoveOldest(units) != []
  {
    var rest := units[1..];
    assert Flatten(units)[0] == units[0][0];
    assert units[0] == [units[0][0]];
    assert Flatten(units)[1..] == Flatten(rest);
    RemoveOldestAreUnits(units);
    RemoveOldestKept(rest);
    NoUserIn(Flatten(RemoveOldest(rest)), Flatten(rest));
    assert RemoveOldest(units) == [units[0]] + RemoveOldest(rest);
    assert Flatten(RemoveOldest(units)) == units[0] + Flatten(RemoveOldest(rest));
  }

  // ----- the loop -----

  ghost predicate Dropping(fitted: seq<Message>, front: seq<Message>, units: seq<seq<Message>>,
                           budget: nat, goal: seq<Message>)
  {
    && fitted == front + Flatten(units) && LastUnits(front, units)
    && goal == front + Flatten(KeptUnits(Tokens(front), units, budget))
  }

  // The ranges the loop body looks at, in terms of units.
  lemma LastRangeBlocks(front: seq<Message>, units: seq<seq<Message>>)
    requires LastUnits(front, units)
    ensures var fitted := front + Flatten(units);
      var ranges := ConversationTurnRanges(fitted);
      && (units == [] ==> ranges == [])
      && (units != [] ==>
            && ranges != [] && ranges[|ranges| - 1] == (|front|, |fitted|)
            && Units(fitted[|front|..|fitted|]) == units)
  {
    var fitted := front + Flatten(units);
    if units == [] {
      NoUserStarts(front, 0);
      assert fitted == front;
    } else {
      LastRange(front, Flatten(units));
      assert fitted[|front|..|fitted|] == Flatten(units);
      UnitsOfFlatten(units);
    }
  }

  lemma DroppingStep(fitted: seq<Message>, front: seq<Message>, units: seq<seq<Message>>,
                     budget: nat, goal: seq<Message>, range: (nat, nat))
    requires Dropping(fitted, front, units, budget, goal) && Tokens(fitted) > budget
    requires |CompleteUnits(units)| > 1
    requires BlockRanges(units, |front|) != [] && range == BlockRanges(units, |front|)[0]
    ensures range.0 <= range.1 <= |fitted|
    ensures Dropping(fitted[..range.0] + fitted[range.1..], front, RemoveOldest(units), budget, goal)
  {
    TokensAppend(front, Flatten(units));
    CutOldest(front, units, range);
    RemoveOldestLastUnits(front, units);
    KeptAfterRemoval(Tokens(front), units, budget);
  }

  // Cutting the first range out behind `front` removes the oldest block.
  lemma CutOldest(front: seq<Message>, units: seq<seq<Message>>, range: (nat, nat))
    requires CompleteUnits(units) != []
    requires BlockRanges(units, |front|) != [] && range == BlockRanges(units, |front|)[0]
    ensures range.0 <= range.1 <= |front| + |Flatten(units)|
    ensures
      var fitted := front + Flatten(units);
      fitted[..range.0] + fitted[range.1..] == front + Flatten(RemoveOldest(units))
  {
    CutFirstRange(units, |front|);
    CutBehind(front, Flatten(units), range.0, range.1);
  }

  lemma KeptAfterRemoval(used: nat, units: seq<seq<Message>>, budget: nat)
    requires |CompleteUnits(units)| > 1 && used + Tokens(Flatten(units)) > budget
    ensures KeptUnits(used, units, budget) == KeptUnits(used, RemoveOldest(units), budget)
  {}

  lemma CutBehind<T>(front: seq<T>, back: seq<T>, from: nat, to: nat)
    requires |front| <= from <= to <= |front| + |back|
    ensures (front + back)[..from] + (front + back)[to..]
         == front + (back[..from - |front|] + back[to - |front|..])
  {
    assert (front + back)[..from] == front + back[..from - |front|];
    assert (front + back)[to..] == back[to - |front|..];
  }

  // The loop body's search: is there more than one complete block in the last turn, and which is the oldest?
  method OldestBlock(fitted: seq<Message>, ghost front: seq<Message>, ghost units: seq<seq<Message>>)
    returns (more: bool, block: (nat, nat))
    requires LastUnits(front, units) && fitted == front + Flatten(units)
    ensures more <==> |CompleteUnits(units)| > 1
    ensures more ==> BlockRanges(units, |front|) != [] && block == BlockRanges(units, |front|)[0]
  {
    more, block := false, (0, 0);
    var ranges := ConversationTurnRanges(fitted);
    LastRangeBlocks(front, units);
    if ranges != [] {
      var (start, end) := ranges[|ranges| - 1];
      var blocks := CompleteToolBlockRanges(fitted, start, end);
      RangeCount(units, |front|);
      if |blocks| > 1 {
        more, block := true, blocks[0];
      }
    }
  }

  method DropOldCompletedToolBlocks(messages: seq<Message>, budget: nat) returns (fitted: seq<Message>)
    ensures fitted == DropBlocks(messages, budget)
  {
    fitted := messages;
    ghost var front, units := BeforeLast(messages), Units(LastTurn(messages));
    ghost var goal := DropBlocks(messages, budget);
    SplitAtLastTurn(messages);
    while Tokens(fitted) > budget
      invariant Dropping(fitted, front, units, budget, goal)
      decreases |CompleteUnits(units)|
    {
      var more, block := OldestBlock(fitted, front, units);
      if !more {
        break;
      }
      DroppingStep(fitted, front, units, budget, goal, block);
      RemoveOldestSplits(units);
      fitted, units := fitted[..block.0] + fitted[block.1..], RemoveOldest(units);
    }
    TokensAppend(front, Flatten(units));
  }

  // ----- what dropping blocks keeps -----

  lemma {:induction false} RemoveOldestWellFormed(units: seq<seq<Message>>)
    requires AreUnits(units) && WellFormed(Flatten(units))
    ensures WellFormed(Flatten(RemoveOldest(units)))
  {
    if units != [] {
      var part, rest := units[0], Flatten(units[1..]);
      if StartsWithTool(rest) {
        LoneUnit(part, rest);
      }
      WellFormedSplit(part, rest);
      if !Complete(part) {
        RemoveOldestWellFormed(units[1..]);
        WellFormedAppend(part, Flatten(RemoveOldest(units[1..])));
      }
    }
  }

  // A unit in front of a tool result would have to be a caller, and a caller's unit ends before non-results.
  lemma LoneUnit(part: seq<Message>, rest: seq<Message>)
    requires IsUnit(part) && StartsWithTool(rest) && WellFormed(part + rest)
    ensures IsCaller(part[0])
  {
    HeadIsCaller(part + rest);
    if |part| == 1 {
      assert (part + rest)[1] == rest[0];
    }
  }

  lemma {:induction false} KeptUnitsWellFormed(used: nat, units: seq<seq<Message>>, budget: nat)
    requires AreUnits(units) && WellFormed(Flatten(units))
    ensures WellFormed(Flatten(KeptUnits(used, units, budget)))
    decreases |CompleteUnits(units)|
  {
    if |CompleteUnits(units)| > 1 && used + Tokens(Flatten(units)) > budget {
      RemoveOldestWellFormed(units);
      RemoveOldestAreUnits(units);
      RemoveOldestSplits(units);
      KeptUnitsWellFormed(used, RemoveOldest(units), budget);
    }
  }

  lemma DropBlocksWellFormed(ms: seq<Message>, budget: nat)
    requires WellFormed(ms)
    ensures WellFormed(DropBlocks(ms, budget))
  {
    var front, units := BeforeLast(ms), Units(LastTurn(ms));
    SplitAtLastTurn(ms);
    assert !StartsWithTool(Flatten(units));
    WellFormedSplit(front, Flatten(units));
    KeptUnitsWellFormed(Tokens(front), units, budget);
    WellFormedAppend(front, Flatten(KeptUnits(Tokens(front), units, budget)));
  }

  lemma {:induction false} KeptUnitsKept(used: nat, units: seq<seq<Message>>, budget: nat)
    ensures forall m :: m in Flatten(KeptUnits(used, units, budget)) ==> m in Flatten(units)
    decreases |CompleteUnits(units)|
  {
    if |CompleteUnits(units)| > 1 && used + Tokens(Flatten(units)) > budget {
      RemoveOldestKept(units);
      RemoveOldestSplits(units);
      KeptUnitsKept(used, RemoveOldest(units), budget);
    }
  }

  // Dropping blocks never makes a truncation candidate appear.
  lemma DropBlocksNoCandidate(ms: seq<Message>, budget: nat)
    requires LongestTool(ms).None?
    ensures LongestTool(DropBlocks(ms, budget)).None?
  {
    var front, units := BeforeLast(ms), Units(LastTurn(ms));
    SplitAtLastTurn(ms);
    KeptUnitsKept(Tokens(front), units, budget);
    var after := DropBlocks(ms, budget);
    forall i | 0 <= i < |after| ensures !Candidate(after[i]) {
      assert after[i] in front || after[i] in Flatten(units);
      assert after[i] in ms;
    }
  }

  // ----- the whole call -----

  datatype FitResult = Fitted(messages: seq<Message>) | ContextBudgetError

  // The tokens left for messages; `definitions` is the compact JSON of the tool definitions.
  function Available(limit: int, definitions: string): nat {
    var left := limit - TextTokens(definitions);
    if left > 1 then left else 1
  }

  // The call returns exactly when its first truncation pass stops.
  predicate FitReturns(messages: seq<Message>, limit: Option<int>, definitions: string) {
    limit.Some? ==>
      var available := Available(limit.value, definitions);
      CanSettle(TrimTurns(messages, available), available)
  }

  // What is returned when the first truncation pass stops after `rounds` steps: its result when that
  // fits. Otherwise nothing was long enough to shorten, and only block dropping can still help.
  function Outcome(trimmed: seq<Message>, rounds: nat, available: nat): FitResult {
    var dropped := DropBlocks(trimmed, available);
    if Tokens(Steps(trimmed, rounds)) <= available then Fitted(Steps(trimmed, rounds))
    else if rounds == 0 && Tokens(dropped) <= available then Fitted(dropped)
    else ContextBudgetError
  }

  method FitMessages(messages: seq<Message>, limit: Option<int>, definitions: string)
    returns (r: FitResult, ghost rounds: nat)
    requires FitReturns(messages, limit, definitions)
    ensures limit.None? ==> r == Fitted(messages)
    ensures limit.Some? ==>
      var available := Available(limit.value, definitions);
      var trimmed := TrimTurns(messages, available);
      && RunsFor(trimmed, rounds, available) && Stops(Steps(trimmed, rounds), available)
      && r == Outcome(trimmed, rounds, available)
    ensures r.Fitted? && WellFormed(messages) ==> WellFormed(r.messages)
  {
    rounds := 0;
    if limit.None? {
      return Fitted(messages), 0;
    }
    var available := Available(limit.value, definitions);
    var fitted := DropOldTurns(messages, available);
    ghost var trimmed := fitted;
    fitted, rounds := TruncateToolResults(fitted, available);
    ghost var shortened := fitted;
    FirstPass(trimmed, rounds, available);
    fitted := DropOldCompletedToolBlocks(fitted, available);
    SecondPass(shortened, available);
    ghost var again;
    fitted, again := TruncateToolResults(fitted, available);
    NoRounds(DropBlocks(shortened, available), again, available);
    FitWellFormed(messages, rounds, available);
    if Tokens(fitted) > available {
      return ContextBudgetError, rounds;
    }
    return Fitted(fitted), rounds;
  }

  // A first pass that ends over budget had nothing to shorten and did nothing.
  lemma FirstPass(trimmed: seq<Message>, rounds: nat, budget: nat)
    requires RunsFor(trimmed, rounds, budget) && Stops(Steps(trimmed, rounds), budget)
    ensures Tokens(Steps(trimmed, rounds)) > budget ==> rounds == 0 && LongestTool(trimmed).None?
  {
    if rounds > 0 && LongestTool(trimmed).Some? {
      StepsAboveFloor(trimmed, rounds);
    }
    assert rounds > 0 ==> !Stops(Steps(trimmed, 0), budget);
  }

  // Block dropping only acts when nothing can be shortened, so its result needs no second pass.
  lemma SecondPass(shortened: seq<Message>, budget: nat)
    requires Stops(shortened, budget)
    ensures Stops(DropBlocks(shortened, budget), budget)
    ensures Tokens(shortened) <= budget ==> DropBlocks(shortened, budget) == shortened
  {
    SplitAtLastTurn(shortened);
    TokensAppend(BeforeLast(shortened), Flatten(Units(LastTurn(shortened))));
    if Tokens(shortened) > budget {
      DropBlocksNoCandidate(shortened, budget);
    }
  }

  lemma NoRounds(ms: seq<Message>, rounds: nat, budget: nat)
    requires Stops(ms, budget) && RunsFor(ms, rounds, budget)
    ensures rounds == 0
  {
    assert Steps(ms, 0) == ms;
  }

  lemma FitWellFormed(messages: seq<Message>, rounds: nat, budget: nat)
    ensures WellFormed(messages) ==>
      WellFormed(DropBlocks(Steps(TrimTurns(messages, budget), rounds), budget))
  {
    if WellFormed(messages) {
      TrimTurnsWellFormed(messages, budget);
      StepsWellFormed(TrimTurns(messages, budget), rounds);
      DropBlocksWellFormed(Steps(TrimTurns(messages, budget), rounds), budget);
    }
  }

  // ----- an input without an answer -----

  // A prompt in the middle of a turn: the model has called one tool and its result is in.
  predicate MidTurn(system: Message, user: Message, caller: Message, result: Message) {
    && system.role.System? && user.role.User? && IsCaller(caller) && result.role.Tool?
    && CallIds(caller.calls) == [result.toolCallId]
  }

  lemma AnsweredCallWellFormed(caller: Message, result: Message)
    requires IsCaller(caller) && result.role.Tool? && CallIds(caller.calls) == [result.toolCallId]
    ensures WellFormed([caller, result])
  {
    var block := [caller, result];
    assert block[1..] == [result] && [result][1..] == [];
    assert ToolRun([result]) == 1;
    assert UnitLength(block) == 2 && block[..2] == block && block[2..] == [];
    assert ResultIds([result]) == [result.toolCallId];
    assert Answers(CallIds(caller.calls), [result]);
  }

  lemma LoneMessageInFront(m: Message, rest: seq<Message>)
    requires !m.role.Tool? && !IsCaller(m) && WellFormed(rest)
    ensures WellFormed([m] + rest)
  {
    var all := [m] + rest;
    assert all[..1] == [m] && all[1..] == rest;
  }

  lemma MidTurnWellFormed(system: Message, user: Message, caller: Message, result: Message)
    requires MidTurn(system, user, caller, result)
    ensures WellFormed([system, user, caller, result])
  {
    AnsweredCallWellFormed(caller, result);
    LoneMessageInFront(user, [caller, result]);
    LoneMessageInFront(system, [user] + [caller, result]);
    assert [system] + ([user] + [caller, result]) == [system, user, caller, result];
  }

  // Its only turn is never dropped.
  lemma MidTurnUntrimmed(system: Message, user: Message, caller: Message, result: Message, budget: nat)
    requires MidTurn(system, user, caller, result)
    ensures TrimTurns([system, user, caller, result], budget) == [system, user, caller, result]
  {
    var ms, turn := [system, user, caller, result], [user, caller, result];
    assert ms[1..] == turn && turn[1..] == [caller, result] && [caller, result][1..] == [result] && [result][1..] == [];
    assert FirstUser(turn) == 0 && FirstUser(ms) == 1;
    assert FirstUser([result]) == 1 && FirstUser([caller, result]) == 2 && TurnLength(turn) == 3;
    assert turn[..3] == turn && turn[3..] == [];
    assert Turns(turn) == [turn];
    assert Flatten([turn]) == turn;
    assert ms[..1] + turn == ms;
  }

  // What the truncation loop can make of it.
  lemma MidTurnFloor(system: Message, user: Message, caller: Message, result: Message)
    requires MidTurn(system, user, caller, result) && Candidate(result)
    ensures LongestTool([system, user, caller, result]).Some?
    ensures Floor([system, user, caller, result])
         == [system, user, caller, Shorten(result, TOOL_CONTENT_MIN_CHARS)]
  {
    var ms := [system, user, caller, result];
    assert Candidate(ms[3]);
    LastMaxUnique(ms, CappedLength, 3);
  }

  /** A well-formed prompt with one tool result, as it is fitted before every further call of a turn, does not come
      back exactly when it is over budget, the result is long, and even its 158 characters are too many. */
  lemma MidTurnEndlessIff(system: Message, user: Message, caller: Message, result: Message, limit: int,
                          definitions: string)
    requires MidTurn(system, user, caller, result)
    ensures
      var ms := [system, user, caller, result];
      var available := Available(limit, definitions);
      && WellFormed(ms)
      && (!FitReturns(ms, Some(limit), definitions) <==>
            && Candidate(result) && Tokens(ms) > available
            && Tokens([system, user, caller, Shorten(result, TOOL_CONTENT_MIN_CHARS)]) > available)
  {
    var ms, available := [system, user, caller, result], Available(limit, definitions);
    MidTurnWellFormed(system, user, caller, result);
    MidTurnUntrimmed(system, user, caller, result, available);
    if Candidate(result) {
      MidTurnFloor(system, user, caller, result);
    } else {
      MidTurnSettled(system, user, caller, result);
    }
  }

  /** So it is with a long result and fewer tokens than its four messages cost without any content. */
  lemma MidTurnEndless(system: Message, user: Message, caller: Message, result: Message, limit: int,
                       definitions: string)
    requires MidTurn(system, user, caller, result) && Candidate(result) && Available(limit, definitions) < 16
    ensures !FitReturns([system, user, caller, result], Some(limit), definitions)
  {
    MidTurnEndlessIff(system, user, caller, result, limit, definitions);
    CostPerMessage([system, user, caller, result]);
    CostPerMessage([system, user, caller, Shorten(result, TOOL_CONTENT_MIN_CHARS)]);
  }

  lemma MidTurnSettled(system: Message, user: Message, caller: Message, result: Message)
    requires MidTurn(system, user, caller, result) && !Candidate(result)
    ensures LongestTool([system, user, caller, result]).None?
  {}
}
