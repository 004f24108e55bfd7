/** Choosing the raw tail and the compaction deltas (agent/context/planner.py). */
module TailSelection {
  import opened Options
  import opened Messages
  import opened Sanitiser
  import opened SanitiserLaws
  import opened Turns
  import opened TurnTrimming
  import opened Compaction

  ghost function TurnCost(turns: seq<TurnGroup>, cap: nat): nat {
    Tokens(Sanitise(History(turns), cap))
  }

  // The latest `n` turns.
  function Latest<T>(turns: seq<T>, n: nat): seq<T>
    requires n <= |turns|
  {
    turns[|turns| - n..]
  }

  lemma SuffixTokens(tail: seq<Message>, whole: seq<Message>)
    requires IsSuffix(tail, whole)
    ensures Tokens(tail) <= Tokens(whole)
  {
    var front := whole[..|whole| - |tail|];
    assert whole == front + tail;
    TokensAppend(front, tail);
  }

  // Adding older turns never makes a tail cheaper, because sanitising the tail alone is a suffix.
  lemma OlderTurnsCost(older: seq<TurnGroup>, tail: seq<TurnGroup>, cap: nat)
    ensures TurnCost(tail, cap) <= TurnCost(older + tail, cap)
  {
    HistoryAppend(older, tail);
    SanitiseSuffix(History(older), History(tail), cap);
    SuffixTokens(Sanitise(History(tail), cap), Sanitise(History(older + tail), cap));
  }

  lemma LatestCost(turns: seq<TurnGroup>, k: nat, n: nat, cap: nat)
    requires k <= n <= |turns|
    ensures TurnCost(Latest(turns, k), cap) <= TurnCost(Latest(turns, n), cap)
  {
    var older := turns[|turns| - n..|turns| - k];
    assert Latest(turns, n) == older + Latest(turns, k);
    OlderTurnsCost(older, Latest(turns, k), cap);
  }

  method CostOf(turns: seq<TurnGroup>, cap: nat) returns (cost: nat)
    ensures cost == TurnCost(turns, cap)
  {
    var messages := HistoryToLlmDicts(History(turns), cap);
    cost := Tokens(messages);
  }

  /** The longest run of latest turns that fits; one turn over budget when even the last does not fit
      and at least one is preferred. */
  method SelectRecentTurns(turns: seq<TurnGroup>, budget: nat, minRecentTurns: nat, cap: nat)
    returns (recent: seq<TurnGroup>)
    ensures |recent| <= |turns| && recent == Latest(turns, |recent|)
    ensures TurnCost(recent, cap) <= budget || (|recent| == 1 && minRecentTurns > 0)
    ensures LongerAreOver(turns, |recent|, budget, cap)
    ensures turns != [] && minRecentTurns > 0 ==> recent != []
  {
    recent := [];
    EmptyCost(cap);
    var n := 0;
    while n < |turns|
      invariant n <= |turns| && recent == Latest(turns, n) && TurnCost(recent, cap) <= budget
    {
      var candidate := [turns[|turns| - n - 1]] + recent;
      assert candidate == Latest(turns, n + 1);
      var cost := CostOf(candidate, cap);
      if cost > budget {
        TooOld(turns, n, budget, cap);
        if recent == [] && minRecentTurns > 0 {
          recent := candidate;
        }
        return;
      }
      recent, n := candidate, n + 1;
    }
  }

  // Every run of more than `n` latest turns costs more than `budget`.
  ghost predicate LongerAreOver(turns: seq<TurnGroup>, n: nat, budget: int, cap: nat) {
    forall k :: n < k <= |turns| ==> TurnCost(Latest(turns, k), cap) > budget
  }

  lemma EmptyCost(cap: nat)
    ensures TurnCost([], cap) == 0
  {
    assert Bodies([]) == [];
  }

  // When one turn more is over budget, so is every longer run.
  lemma TooOld(turns: seq<TurnGroup>, n: nat, budget: nat, cap: nat)
    requires n < |turns| && TurnCost(Latest(turns, n + 1), cap) > budget
    ensures LongerAreOver(turns, n, budget, cap)
  {
    forall k | n < k <= |turns| ensures TurnCost(Latest(turns, k), cap) > budget {
      LatestCost(turns, n + 1, k, cap);
    }
  }

  // ----- the base state: everything but retrieval -----

  // What is sent besides the raw tail: the fixed messages, the record's evidence, the tool definitions.
  function FrameTokens(fixed: seq<Message>, evidence: Message, definitions: string): nat {
    Tokens(fixed) + MessageTokens(evidence) + TextTokens(definitions)
  }

  ghost function BaseTokens(fixed: seq<Message>, evidence: Message, recent: seq<TurnGroup>, cap: nat,
                            definitions: string): nat
  {
    FrameTokens(fixed, evidence, definitions) + TurnCost(recent, cap)
  }

  // The evidence goes behind the first fixed message, the raw tail to the end; the cost is the sum of the parts.
  lemma BaseTokensSum(fixed: seq<Message>, evidence: Message, tail: seq<Message>, definitions: string)
    requires fixed != []
    ensures Tokens([fixed[0], evidence] + fixed[1..] + tail) + TextTokens(definitions)
         == FrameTokens(fixed, evidence, definitions) + Tokens(tail)
  {
    TokensAppend([fixed[0], evidence] + fixed[1..], tail);
    TokensAppend([fixed[0], evidence], fixed[1..]);
    assert [fixed[0], evidence] == [fixed[0]] + [evidence];
    TokensAppend([fixed[0]], [evidence]);
    TokensAppend([fixed[0]], fixed[1..]);
    assert fixed == [fixed[0]] + fixed[1..];
    TokensOfOne(evidence);
  }

  lemma TokensOfOne(m: Message)
    ensures Tokens([m]) == MessageTokens(m)
  {
    assert Sum([m][1..], MessageTokens) == 0;
  }

  method CompactedBaseTokens(recent: seq<TurnGroup>, fixed: seq<Message>, evidence: Message, cap: nat,
                             definitions: string) returns (tokens: nat)
    requires fixed != []
    ensures tokens == BaseTokens(fixed, evidence, recent, cap, definitions)
  {
    var messages := HistoryToLlmDicts(History(recent), cap);
    BaseTokensSum(fixed, evidence, messages, definitions);
    tokens := EstimateLlmTokens([fixed[0], evidence] + fixed[1..] + messages, definitions);
  }

  /** Pops the oldest raw turns until the base state fits: the longest fitting run of latest turns.
      A tail that does not fit as it is comes back strictly shorter. */
  method FitRecentAfterCompaction(recent: seq<TurnGroup>, fixed: seq<Message>, evidence: Message,
                                  limit: nat, cap: nat, definitions: string)
    returns (fitted: seq<TurnGroup>)
    requires fixed != []
    ensures |fitted| <= |recent| && fitted == Latest(recent, |fitted|)
    ensures fitted == [] || BaseTokens(fixed, evidence, fitted, cap, definitions) <= limit
    ensures LongerAreOver(recent, |fitted|, limit - FrameTokens(fixed, evidence, definitions), cap)
  {
    fitted := recent;
    ghost var room := limit - FrameTokens(fixed, evidence, definitions);
    while fitted != []
      invariant Popped(recent, fitted, room, cap)
      decreases |fitted|
    {
      var tokens := CompactedBaseTokens(fitted, fixed, evidence, cap, definitions);
      if tokens <= limit {
        break;
      }
      PopOne(recent, fitted, room, cap);
      fitted := fitted[1..];
    }
  }

  // `tail` is what remains of `turns` after popping runs that were all over `budget`.
  ghost predicate Popped(turns: seq<TurnGroup>, tail: seq<TurnGroup>, budget: int, cap: nat) {
    |tail| <= |turns| && tail == Latest(turns, |tail|) && LongerAreOver(turns, |tail|, budget, cap)
  }

  lemma PopOne(turns: seq<TurnGroup>, tail: seq<TurnGroup>, budget: int, cap: nat)
    requires Popped(turns, tail, budget, cap) && tail != [] && TurnCost(tail, cap) > budget
    ensures Popped(turns, tail[1..], budget, cap)
  {}

  // ----- compaction deltas -----

  const MAX_DELTA_TURNS := 32
  const MAX_DELTA_CHARS := 60000

  function Chars(messages: seq<Message>): nat {
    Sum(messages, ContentLength)
  }

  function ContentLength(m: Message): nat {
    |m.content|
  }

  function TurnChars(turn: TurnGroup): nat {
    Chars(turn.messages)
  }

  function DeltaChars(delta: seq<TurnGroup>): nat {
    Sum(delta, TurnChars)
  }

  // One delta: 1 to 32 turns, and at most 60000 characters unless it is a single turn.
  predicate IsDelta(delta: seq<TurnGroup>) {
    && 1 <= |delta| <= MAX_DELTA_TURNS
    && (|delta| == 1 || DeltaChars(delta) <= MAX_DELTA_CHARS)
  }

  // A delta that is as long as the limits allow.
  predicate IsFullDelta(turns: seq<TurnGroup>, from: nat, end: nat)
    requires from <= end <= |turns|
  {
    IsDelta(turns[from..end]) && (end < |turns| ==> !IsDelta(turns[from..end + 1]))
  }

  function Completed(previous: Option<CompactionRecord>): int {
    if previous.Some? then previous.value.endIndex else 0
  }

  // Prefixes of `turns` that grow from length `from` to length `to`, one delta at a time.
  predicate Growing(turns: seq<TurnGroup>, from: nat, prefixes: seq<seq<TurnGroup>>, to: nat)
    decreases |prefixes|
  {
    if prefixes == [] then from == to
    else
      var end := |prefixes[0]|;
      && from < end <= |turns| && prefixes[0] == turns[..end] && IsFullDelta(turns, from, end)
      && Growing(turns, end, prefixes[1..], to)
  }

  lemma {:induction false} GrowingSnoc(turns: seq<TurnGroup>, from: nat, prefixes: seq<seq<TurnGroup>>,
                                       to: nat, end: nat)
    requires Growing(turns, from, prefixes, to) && to < end <= |turns| && IsFullDelta(turns, to, end)
    ensures Growing(turns, from, prefixes + [turns[..end]], end)
    decreases |prefixes|
  {
    var all := prefixes + [turns[..end]];
    if prefixes == [] {
      assert all[1..] == [];
    } else {
      GrowingSnoc(turns, |prefixes[0]|, prefixes[1..], to, end);
      assert all[1..] == prefixes[1..] + [turns[..end]];
    }
  }

  // What each prefix adds to the one before it.
  function Deltas(from: nat, prefixes: seq<seq<TurnGroup>>): seq<seq<TurnGroup>>
    decreases |prefixes|
  {
    if prefixes == [] then []
    else
      var p := prefixes[0];
      [if from <= |p| then p[from..] else []] + Deltas(|p|, prefixes[1..])
  }

  /** The prefixes end with the whole list, and their deltas partition what was not yet covered, in order. */
  lemma {:induction false} DeltasPartition(turns: seq<TurnGroup>, from: nat, prefixes: seq<seq<TurnGroup>>)
    requires from <= |turns| && Growing(turns, from, prefixes, |turns|)
    ensures Flatten(Deltas(from, prefixes)) == turns[from..]
    ensures forall k :: 0 <= k < |Deltas(from, prefixes)| ==> IsDelta(Deltas(from, prefixes)[k])
    ensures prefixes != [] ==> prefixes[|prefixes| - 1] == turns
    ensures prefixes == [] <==> from == |turns|
    decreases |prefixes|
  {
    if prefixes != [] {
      var end, rest := |prefixes[0]|, prefixes[1..];
      DeltasPartition(turns, end, rest);
      CutOff(turns, from, end);
      assert prefixes[0][from..] == turns[from..end];
      assert Deltas(from, prefixes) == [turns[from..end]] + Deltas(end, rest);
      assert rest == [] ==> prefixes[0] == turns;
    }
  }

  lemma CutOff<T>(s: seq<T>, from: nat, end: nat)
    requires from <= end <= |s|
    ensures s[..end][from..] == s[from..end] && s[from..] == s[from..end] + s[end..]
  {}

  lemma DeltaCharsSnoc(delta: seq<TurnGroup>, turn: TurnGroup)
    ensures DeltaChars(delta + [turn]) == DeltaChars(delta) + TurnChars(turn)
  {
    SumAppend(delta, [turn], TurnChars);
    assert Sum([turn], TurnChars) == TurnChars(turn) + Sum([turn][1..], TurnChars);
  }

  // The inner loop: how far one delta reaches from `cursor`. It is as long as the limits allow.
  method DeltaEnd(turns: seq<TurnGroup>, cursor: nat) returns (end: nat)
    requires cursor < |turns|
    ensures cursor < end <= |turns| && IsFullDelta(turns, cursor, end)
  {
    end := cursor;
    var characters := 0;
    while end < |turns| && end - cursor < MAX_DELTA_TURNS
      invariant cursor <= end <= |turns| && end - cursor <= MAX_DELTA_TURNS
      invariant end > cursor ==> IsDelta(turns[cursor..end])
      invariant characters == DeltaChars(turns[cursor..end])
    {
      var turnChars := TurnChars(turns[end]);
      assert turns[cursor..end + 1] == turns[cursor..end] + [turns[end]];
      DeltaCharsSnoc(turns[cursor..end], turns[end]);
      if end > cursor && characters + turnChars > MAX_DELTA_CHARS {
        break;
      }
      characters := characters + turnChars;
      end := end + 1;
    }
  }

  // Growing prefixes, each adding one delta, as long as the limits allow, to what is already covered.
  method IncrementalCompactionPrefixes(turns: seq<TurnGroup>, previous: Option<CompactionRecord>)
    returns (prefixes: seq<seq<TurnGroup>>)
    ensures Growing(turns, Cut(turns, Completed(previous)), prefixes, |turns|)
  {
    var start := FirstAfter(turns, Completed(previous));
    var cursor := start;
    prefixes := [];
    while cursor < |turns|
      invariant cursor <= |turns| && Growing(turns, start, prefixes, cursor)
      decreases |turns| - cursor
    {
      var end := DeltaEnd(turns, cursor);
      GrowingSnoc(turns, start, prefixes, cursor, end);
      prefixes, cursor := prefixes + [turns[..end]], end;
    }
  }

  method FirstAfter(turns: seq<TurnGroup>, completed: int) returns (start: nat)
    ensures start == Cut(turns, completed)
  {
    start := 0;
    while start < |turns| && turns[start].turnIndex <= completed
      invariant start <= |turns|
      invariant start + Cut(turns[start..], completed) == Cut(turns, completed)
    {
      assert turns[start..][1..] == turns[start + 1..];
      start := start + 1;
    }
  }
}
