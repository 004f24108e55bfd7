/** The tool-result truncation loop of agent/core/context.py. It shortens the longest tool result
    until the budget is met, and does not stop on every input: HaltsIff says exactly when it does. */
module ToolTruncation {
  import opened Options
  import opened Messages
  import opened Sanitiser
  import opened SanitiserLaws

  const TOOL_CONTENT_MIN_CHARS := 128

  // All that matters of the marker is its length and that it has no CJK characters.
  type MarkerText = s: string | |s| == 30 && forall i :: 0 <= i < |s| ==> !IsCjk(s[i])
    witness "[truncated for context budget]"

  const MARKER: MarkerText

  // Every result the loop keeps shortening settles at the minimum plus the marker.
  const SETTLED_CHARS := 158

  predicate Candidate(m: Message) {
    m.role.Tool? && |m.content| > TOOL_CONTENT_MIN_CHARS
  }

  function Length(m: Message): nat {
    |m.content|
  }

  function CappedLength(m: Message): nat {
    if |m.content| > SETTLED_CHARS then SETTLED_CHARS else |m.content|
  }

  // Position of the candidate with the greatest key, the last one among equals.
  function LastMax(ms: seq<Message>, key: Message -> nat): (r: Option<nat>)
    ensures r.None? <==> forall i :: 0 <= i < |ms| ==> !Candidate(ms[i])
    ensures r.Some? ==> IsLastMax(ms, key, r.value)
  {
    if ms == [] then None
    else
      var n := |ms| - 1;
      var before := LastMax(ms[..n], key);
      if Candidate(ms[n]) && (before.None? || key(ms[before.value]) <= key(ms[n])) then Some(n)
      else before
  }

  predicate IsLastMax(ms: seq<Message>, key: Message -> nat, i: nat) {
    && i < |ms| && Candidate(ms[i])
    && forall j :: 0 <= j < |ms| && Candidate(ms[j]) ==>
         key(ms[j]) < key(ms[i]) || (key(ms[j]) == key(ms[i]) && j <= i)
  }

  function LongestTool(ms: seq<Message>): Option<nat> {
    LastMax(ms, Length)
  }

  function Cut(text: string, keep: nat, marker: string): string {
    (if keep <= |text| then text[..keep] else text) + marker
  }

  function Shorten(m: Message, keep: nat): Message {
    m.(content := Cut(m.content, keep, MARKER))
  }

  function Keep(length: nat): nat {
    if length / 2 > TOOL_CONTENT_MIN_CHARS then length / 2 else TOOL_CONTENT_MIN_CHARS
  }

  // The loop body; nothing happens without a candidate.
  function Step(ms: seq<Message>): (r: seq<Message>)
    ensures |r| == |ms|
  {
    var pick := LongestTool(ms);
    if pick.None? then ms
    else ms[pick.value := Shorten(ms[pick.value], Keep(|ms[pick.value].content|))]
  }

  function Steps(ms: seq<Message>, n: nat): (r: seq<Message>)
    ensures |r| == |ms|
    decreases n
  {
    if n == 0 then ms else Step(Steps(ms, n - 1))
  }

  // The loop leaves at this state: the guard fails or the body breaks.
  predicate Stops(ms: seq<Message>, budget: nat) {
    Tokens(ms) <= budget || LongestTool(ms).None?
  }

  ghost predicate Halts(ms: seq<Message>, budget: nat) {
    exists n: nat :: Stops(Steps(ms, n), budget)
  }

  // ----- the state every run settles in -----

  function LastPick(ms: seq<Message>): Option<nat> {
    LastMax(ms, CappedLength)
  }

  function Settle(m: Message, chosen: bool): Message {
    if m.role.Tool? && (|m.content| > SETTLED_CHARS || chosen) then Shorten(m, TOOL_CONTENT_MIN_CHARS) else m
  }

  // Every result over 158 characters, and the one picked last, cut to 128 characters and the marker.
  function Floor(ms: seq<Message>): (r: seq<Message>)
    ensures |r| == |ms|
  {
    var last := LastPick(ms);
    seq(|ms|, i requires 0 <= i < |ms| => Settle(ms[i], last == Some(i)))
  }

  // A check a caller can make before the call.
  predicate CanSettle(ms: seq<Message>, budget: nat) {
    Tokens(ms) <= budget || LongestTool(ms).None? || Tokens(Floor(ms)) <= budget
  }

  lemma LastMaxUnique(ms: seq<Message>, key: Message -> nat, i: nat)
    requires IsLastMax(ms, key, i)
    ensures LastMax(ms, key) == Some(i)
  {
    assert Candidate(ms[i]);
  }

  lemma MarkerLength()
    ensures |MARKER| == 30 && CjkCount(MARKER) == 0
  {
    NoCjk(MARKER);
  }

  lemma CutAgain(text: string, keep: nat, low: nat, marker: string)
    requires low <= keep <= |text|
    ensures Cut(Cut(text, keep, marker), low, marker) == Cut(text, low, marker)
  {
    assert (text[..keep] + marker)[..low] == text[..low];
  }

  // A round shortens a result over 158 characters, takes any other to 158, and leaves settled ones alone.
  lemma RoundLength(m: Message)
    requires Candidate(m)
    ensures var r := Shorten(m, Keep(|m.content|));
      && |r.content| >= SETTLED_CHARS
      && (|m.content| > SETTLED_CHARS ==> |r.content| < |m.content|)
      && (|m.content| <= SETTLED_CHARS ==> |r.content| == SETTLED_CHARS && Shorten(r, Keep(|r.content|)) == r)
  {
    MarkerLength();
    var keep := Keep(|m.content|);
    CutAgain(m.content, keep, TOOL_CONTENT_MIN_CHARS, MARKER);
    assert |m.content| <= SETTLED_CHARS ==> keep == TOOL_CONTENT_MIN_CHARS == Keep(SETTLED_CHARS);
  }

  // Shortening before settling changes nothing about where a result settles.
  lemma SettleAfterRound(m: Message)
    requires Candidate(m) && |m.content| > SETTLED_CHARS
    ensures var r := Shorten(m, Keep(|m.content|));
      && Shorten(r, TOOL_CONTENT_MIN_CHARS) == Shorten(m, TOOL_CONTENT_MIN_CHARS)
      && (|r.content| == SETTLED_CHARS ==> r == Shorten(m, TOOL_CONTENT_MIN_CHARS))
  {
    MarkerLength();
    CutAgain(m.content, Keep(|m.content|), TOOL_CONTENT_MIN_CHARS, MARKER);
  }

  // A step keeps the candidates and the candidate that is picked last, which is now at 158 or more.
  lemma StepKeepsPick(ms: seq<Message>)
    requires LongestTool(ms).Some?
    ensures LastPick(ms).Some? && LastPick(Step(ms)) == LastPick(ms)
    ensures |Step(ms)[LastPick(ms).value].content| >= SETTLED_CHARS
    ensures LongestTool(Step(ms)).Some?
  {
    var i := LongestTool(ms).value;
    RoundLength(ms[i]);
    assert Candidate(ms[i]);
    var last := LastPick(ms).value;
    assert Candidate(ms[last]);
    var after := Step(ms);
    assert forall j :: 0 <= j < |ms| && j != i ==> after[j] == ms[j];
    assert Candidate(after[i]);
    assert IsLastMax(after, CappedLength, last);
    LastMaxUnique(after, CappedLength, last);
  }

  // With no result over 158 characters the longest candidate is the one picked last.
  lemma LongestIsLast(ms: seq<Message>)
    requires LongestTool(ms).Some? && |ms[LongestTool(ms).value].content| <= SETTLED_CHARS
    ensures LastPick(ms) == LongestTool(ms)
    ensures forall j :: 0 <= j < |ms| && ms[j].role.Tool? ==> |ms[j].content| <= SETTLED_CHARS
  {
    var i := LongestTool(ms).value;
    forall j | 0 <= j < |ms| && ms[j].role.Tool? ensures |ms[j].content| <= SETTLED_CHARS {
      assert Candidate(ms[j]) ==> |ms[j].content| <= |ms[i].content|;
    }
    assert IsLastMax(ms, CappedLength, i);
    LastMaxUnique(ms, CappedLength, i);
  }

  // Then one step reaches the floor, and the floor does not move.
  lemma StepToFloor(ms: seq<Message>)
    requires LongestTool(ms).Some? && |ms[LongestTool(ms).value].content| <= SETTLED_CHARS
    ensures Step(ms) == Floor(ms)
    ensures Step(Step(ms)) == Step(ms)
  {
    LongestIsLast(ms);
    RoundLength(ms[LongestTool(ms).value]);
    SettledStays(ms);
  }

  // The result it settled is picked again and left as it is.
  lemma SettledStays(ms: seq<Message>)
    requires LongestTool(ms).Some? && |ms[LongestTool(ms).value].content| <= SETTLED_CHARS
    ensures Step(Step(ms)) == Step(ms)
  {
    var i, after := LongestTool(ms).value, Step(ms);
    RoundLength(ms[i]);
    assert forall j :: 0 <= j < |ms| && j != i ==> after[j] == ms[j];
    assert Candidate(after[i]);
    assert IsLastMax(after, Length, i);
    LastMaxUnique(after, Length, i);
    assert after[i := after[i]] == after;
  }

  lemma FloorPointwise(a: seq<Message>, b: seq<Message>, last: Option<nat>)
    requires |a| == |b| && LastPick(a) == LastPick(b) == last
    requires forall j :: 0 <= j < |a| ==> Settle(a[j], last == Some(j)) == Settle(b[j], last == Some(j))
    ensures Floor(a) == Floor(b)
  {}

  // Where the run settles never changes along the run.
  lemma FloorOfStep(ms: seq<Message>)
    requires LongestTool(ms).Some?
    ensures Floor(Step(ms)) == Floor(ms)
  {
    var i := LongestTool(ms).value;
    StepKeepsPick(ms);
    RoundLength(ms[i]);
    if |ms[i].content| > SETTLED_CHARS {
      SettleAfterRound(ms[i]);
    } else {
      LongestIsLast(ms);
    }
    FloorPointwise(Step(ms), ms, LastPick(ms));
  }

  // ----- cost -----

  lemma ShortenCost(m: Message)
    requires |m.content| >= SETTLED_CHARS
    ensures MessageTokens(Shorten(m, TOOL_CONTENT_MIN_CHARS)) <= MessageTokens(m)
  {
    var text, short := m.content, m.content[..TOOL_CONTENT_MIN_CHARS];
    NoCjk(MARKER);
    CjkCountAppend(short, MARKER);
    CjkCountAppend(short, text[TOOL_CONTENT_MIN_CHARS..]);
    assert text == short + text[TOOL_CONTENT_MIN_CHARS..];
    TextTokensMonotone(short + MARKER, text);
  }

  // Once the last pick has 158 characters or more, settling never costs tokens.
  lemma FloorCost(ms: seq<Message>)
    requires LastPick(ms).Some? && |ms[LastPick(ms).value].content| >= SETTLED_CHARS
    ensures Tokens(Floor(ms)) <= Tokens(ms)
  {
    forall j | 0 <= j < |ms| ensures MessageTokens(Floor(ms)[j]) <= MessageTokens(ms[j]) {
      if Floor(ms)[j] != ms[j] {
        ShortenCost(ms[j]);
      }
    }
    SumPointwise(Floor(ms), ms, MessageTokens);
  }

  // ----- termination -----

  function Excess(m: Message): nat {
    if Candidate(m) && |m.content| > SETTLED_CHARS then |m.content| - SETTLED_CHARS else 0
  }

  function TotalExcess(ms: seq<Message>): nat {
    Sum(ms, Excess)
  }

  lemma {:induction false} SumUpdate<T>(xs: seq<T>, i: nat, y: T, f: T -> nat)
    requires i < |xs|
    ensures Sum(xs[i := y], f) == Sum(xs, f) - f(xs[i]) + f(y)
  {
    if i > 0 {
      SumUpdate(xs[1..], i - 1, y, f);
      assert xs[i := y][1..] == xs[1..][i - 1 := y];
    } else {
      assert xs[i := y][1..] == xs[1..];
    }
  }

  lemma {:induction false} SumZero<T>(xs: seq<T>, f: T -> nat)
    requires forall i :: 0 <= i < |xs| ==> f(xs[i]) == 0
    ensures Sum(xs, f) == 0
  {
    if xs != [] {
      SumZero(xs[1..], f);
    }
  }

  lemma StepShrinks(ms: seq<Message>)
    requires LongestTool(ms).Some? && |ms[LongestTool(ms).value].content| > SETTLED_CHARS
    ensures TotalExcess(Step(ms)) < TotalExcess(ms)
  {
    var i := LongestTool(ms).value;
    assert Candidate(ms[i]);
    RoundLength(ms[i]);
    SumUpdate(ms, i, Step(ms)[i], Excess);
    assert Step(ms) == ms[i := Step(ms)[i]];
  }

  lemma NoExcess(ms: seq<Message>)
    requires LongestTool(ms).Some? && |ms[LongestTool(ms).value].content| <= SETTLED_CHARS
    ensures TotalExcess(ms) == 0
  {
    SumZero(ms, Excess);
  }

  lemma {:induction false} StepsAdd(ms: seq<Message>, n: nat)
    ensures Steps(Step(ms), n) == Steps(ms, n + 1)
    decreases n
  {
    if n > 0 {
      StepsAdd(ms, n - 1);
    }
  }

  // Every run reaches its floor.
  lemma {:induction false} ReachesFloor(ms: seq<Message>) returns (n: nat)
    requires LongestTool(ms).Some?
    ensures n > 0 && Steps(ms, n) == Floor(ms)
    decreases TotalExcess(ms)
  {
    assert Steps(ms, 1) == Step(Steps(ms, 0));
    if |ms[LongestTool(ms).value].content| > SETTLED_CHARS {
      StepShrinks(ms);
      StepKeepsPick(ms);
      FloorOfStep(ms);
      n := ReachesFloor(Step(ms));
      StepsAdd(ms, n);
      n := n + 1;
    } else {
      StepToFloor(ms);
      n := 1;
    }
  }

  // After at least one step the state costs at least the floor, which is the starting list's floor.
  lemma {:induction false} StepsAboveFloor(ms: seq<Message>, n: nat)
    requires LongestTool(ms).Some? && n > 0
    ensures LongestTool(Steps(ms, n)).Some?
    ensures Floor(Steps(ms, n)) == Floor(ms) && Tokens(Floor(ms)) <= Tokens(Steps(ms, n))
  {
    var before := Steps(ms, n - 1);
    if n > 1 {
      StepsAboveFloor(ms, n - 1);
    }
    StepKeepsPick(before);
    FloorOfStep(before);
    FloorCost(Step(before));
  }

  /** The loop stops exactly when the list fits, has no result over 128 characters, or its floor fits. */
  lemma HaltsIff(ms: seq<Message>, budget: nat)
    ensures Halts(ms, budget) <==> CanSettle(ms, budget)
  {
    if Tokens(ms) <= budget || LongestTool(ms).None? {
      assert Stops(Steps(ms, 0), budget);
    } else {
      var reached := ReachesFloor(ms);
      assert CanSettle(ms, budget) ==> Stops(Steps(ms, reached), budget);
      forall n: nat | Stops(Steps(ms, n), budget) ensures Tokens(Floor(ms)) <= budget {
        assert n > 0 by {
          assert Steps(ms, 0) == ms;
        }
        StepsAboveFloor(ms, n);
      }
    }
  }

  lemma {:induction false} CostPerMessage(ms: seq<Message>)
    ensures Tokens(ms) >= MESSAGE_TOKEN_OVERHEAD * |ms|
  {
    if ms != [] {
      CostPerMessage(ms[1..]);
    }
  }

  /** Under a budget below the fixed cost of its messages, a list with a result over 128 characters is never done. */
  lemma RunsForever(ms: seq<Message>, budget: nat)
    requires LongestTool(ms).Some? && budget < MESSAGE_TOKEN_OVERHEAD * |ms|
    ensures !Halts(ms, budget)
  {
    CostPerMessage(ms);
    CostPerMessage(Floor(ms));
    HaltsIff(ms, budget);
  }

  function Unsettled(ms: seq<Message>): nat {
    if Step(ms) == ms then 0 else 1
  }

  // While a list that can settle is over budget, every step makes progress.
  lemma StepProgress(ms: seq<Message>, budget: nat)
    requires CanSettle(ms, budget) && !Stops(ms, budget)
    ensures CanSettle(Step(ms), budget)
    ensures TotalExcess(Step(ms)) < TotalExcess(ms)
      || (TotalExcess(Step(ms)) == TotalExcess(ms) && Unsettled(Step(ms)) < Unsettled(ms))
  {
    FloorOfStep(ms);
    if |ms[LongestTool(ms).value].content| > SETTLED_CHARS {
      StepShrinks(ms);
    } else {
      LastStep(ms);
    }
  }

  // With no result over 158 characters one step settles the list.
  lemma LastStep(ms: seq<Message>)
    requires LongestTool(ms).Some? && |ms[LongestTool(ms).value].content| <= SETTLED_CHARS
    ensures Step(ms) == Floor(ms) && Unsettled(Step(ms)) == 0
    ensures TotalExcess(Step(ms)) == 0 == TotalExcess(ms)
  {
    StepToFloor(ms);
    NoExcess(ms);
    StepHasNoExcess(ms);
  }

  lemma StepHasNoExcess(ms: seq<Message>)
    requires LongestTool(ms).Some? && |ms[LongestTool(ms).value].content| <= SETTLED_CHARS
    ensures TotalExcess(Step(ms)) == 0
  {
    RoundLength(ms[LongestTool(ms).value]);
    LongestIsLast(ms);
    SumZero(Step(ms), Excess);
  }

  // No state of the run before step `n` lets the loop leave.
  ghost predicate RunsFor(ms: seq<Message>, n: nat, budget: nat) {
    forall k: nat :: k < n ==> !Stops(Steps(ms, k), budget)
  }

  // One more step of a run that is still over budget.
  lemma RunStep(ms: seq<Message>, n: nat, budget: nat)
    requires RunsFor(ms, n, budget) && CanSettle(Steps(ms, n), budget) && !Stops(Steps(ms, n), budget)
    ensures RunsFor(ms, n + 1, budget) && CanSettle(Steps(ms, n + 1), budget)
    ensures TotalExcess(Steps(ms, n + 1)) < TotalExcess(Steps(ms, n))
      || (TotalExcess(Steps(ms, n + 1)) == TotalExcess(Steps(ms, n))
          && Unsettled(Steps(ms, n + 1)) < Unsettled(Steps(ms, n)))
  {
    StepProgress(Steps(ms, n), budget);
  }

  method TruncateToolResults(messages: seq<Message>, budget: nat)
    returns (fitted: seq<Message>, ghost rounds: nat)
    requires CanSettle(messages, budget)
    ensures fitted == Steps(messages, rounds) && Stops(fitted, budget)
    ensures RunsFor(messages, rounds, budget)
  {
    fitted, rounds := messages, 0;
    while Tokens(fitted) > budget
      invariant fitted == Steps(messages, rounds)
      invariant RunsFor(messages, rounds, budget) && CanSettle(Steps(messages, rounds), budget)
      decreases TotalExcess(Steps(messages, rounds)), Unsettled(Steps(messages, rounds))
    {
      var pick := LongestTool(fitted);
      if pick.None? {
        break;
      }
      RunStep(messages, rounds, budget);
      var keep := Keep(|fitted[pick.value].content|);
      fitted, rounds := fitted[pick.value := Shorten(fitted[pick.value], keep)], rounds + 1;
    }
  }

  // ----- what a run never changes -----

  // Only contents of tool results over 128 characters change, and those stay over 128 characters.
  ghost predicate OnlyToolContents(before: seq<Message>, after: seq<Message>) {
    && |after| == |before|
    && forall i :: 0 <= i < |before| ==>
         after[i] == before[i] || (Candidate(before[i]) && Candidate(after[i]) &&
                                   after[i] == before[i].(content := after[i].content))
  }

  lemma {:induction false} StepsOnlyToolContents(ms: seq<Message>, n: nat)
    ensures OnlyToolContents(ms, Steps(ms, n))
    decreases n
  {
    if n > 0 {
      StepsOnlyToolContents(ms, n - 1);
      var before := Steps(ms, n - 1);
      if LongestTool(before).Some? {
        RoundLength(before[LongestTool(before).value]);
      }
    }
  }

  lemma StepsWellFormed(ms: seq<Message>, n: nat)
    requires WellFormed(ms)
    ensures WellFormed(Steps(ms, n))
  {
    StepsOnlyToolContents(ms, n);
    SameShapeWellFormed(ms, Steps(ms, n));
  }

  // A result of 158 characters that ends in the marker is left exactly as it is.
  lemma SettledIsFixed(text: string, m: Message)
    requires |text| == TOOL_CONTENT_MIN_CHARS && m.role.Tool? && m.content == text + MARKER
    ensures Candidate(m) && Shorten(m, Keep(|m.content|)) == m
  {
    assert m.content[..TOOL_CONTENT_MIN_CHARS] == text;
  }
}
