/** History sanitising of agent/core/context.py: stored messages become well-formed
    tool-call blocks. `cap` is the builder's positive max_message_chars. */
module Sanitiser {
  import opened Options
  import opened Messages

  const TRUNCATED := "[truncated]"

  predicate Distinct(ids: seq<string>) {
    forall i, j :: 0 <= i < j < |ids| ==> ids[i] != ids[j]
  }

  function IdText(id: CallId): string {
    match id
    case Text(text) => text
    case _ => ""
  }

  function RawIds(calls: seq<ToolCall>): seq<string> {
    seq(|calls|, i requires 0 <= i < |calls| => IdText(calls[i].id))
  }

  // The call ids of a usable block, or [] when any id is unusable or repeated.
  function CallIds(calls: seq<ToolCall>): (ids: seq<string>)
    ensures Distinct(ids) && "" !in ids
  {
    var ids := RawIds(calls);
    if "" in ids || !Distinct(ids) then [] else ids
  }

  method ToolCallIds(calls: seq<ToolCall>) returns (ids: seq<string>)
    ensures ids == CallIds(calls)
  {
    ids := [];
    for i := 0 to |calls|
      invariant ids == RawIds(calls)[..i] && Distinct(ids) && "" !in ids
    {
      var raw := IdText(calls[i].id);
      assert RawIds(calls)[i] == raw && RawIds(calls)[..i + 1] == RawIds(calls)[..i] + [raw];
      if raw == "" || raw in ids {
        return [];
      }
      ids := ids + [raw];
    }
    assert ids == RawIds(calls);
  }

  function Truncate(content: string, cap: nat): string {
    if |content| <= cap then content else content[..cap] + TRUNCATED
  }

  // The chat dictionary of one message with a known role.
  function Chat(m: Message, cap: nat): Message {
    Message(m.role, Truncate(m.content, cap), m.name, m.toolCallId, m.calls, "", None)
  }

  function Chats(ms: seq<Message>, cap: nat): (r: seq<Message>)
    ensures |r| == |ms| && forall i :: 0 <= i < |ms| ==> r[i] == Chat(ms[i], cap)
  {
    seq(|ms|, i requires 0 <= i < |ms| => Chat(ms[i], cap))
  }

  // Unknown roles have no chat dictionary.
  function Convert(m: Message, cap: nat): seq<Message> {
    if m.role.Other? then [] else [Chat(m, cap)]
  }

  // How many messages at the front are tool results.
  function ToolRun(ms: seq<Message>): (n: nat)
    ensures n <= |ms|
    ensures forall i :: 0 <= i < n ==> ms[i].role.Tool?
    ensures n < |ms| ==> !ms[n].role.Tool?
  {
    if ms == [] || !ms[0].role.Tool? then 0 else 1 + ToolRun(ms[1..])
  }

  function ResultIds(results: seq<Message>): (r: seq<string>)
    ensures |r| == |results| && forall i :: 0 <= i < |r| ==> r[i] == results[i].toolCallId
  {
    seq(|results|, i requires 0 <= i < |results| => results[i].toolCallId)
  }

  function Elements<T(==)>(s: seq<T>): set<T> {
    set x | x in s
  }

  // The first result of each announced call that is not yet in `seen`.
  function FirstAnswers(ids: seq<string>, results: seq<Message>, seen: set<string>): seq<Message> {
    if results == [] then []
    else
      var id := results[0].toolCallId;
      if id in ids && id !in seen
      then [results[0]] + FirstAnswers(ids, results[1..], seen + {id})
      else FirstAnswers(ids, results[1..], seen)
  }

  // Exactly one result per announced call, and no other result.
  ghost predicate Answers(ids: seq<string>, results: seq<Message>) {
    && ids != []
    && Distinct(ids)
    && Distinct(ResultIds(results))
    && Elements(ResultIds(results)) == Elements(ids)
  }

  // What one caller and the tool results directly after it become.
  ghost function Block(caller: Message, results: seq<Message>, cap: nat): seq<Message> {
    var ids := CallIds(caller.calls);
    var answers := FirstAnswers(ids, results, {});
    if Answers(ids, answers) then [Chat(caller, cap)] + Chats(answers, cap) else []
  }

  // A caller and the results directly behind it are read as one unit, anything else alone.
  function UnitLength(ms: seq<Message>): (n: nat)
    requires ms != []
    ensures 1 <= n <= |ms|
  {
    if IsCaller(ms[0]) then 1 + ToolRun(ms[1..]) else 1
  }

  ghost function Emit(part: seq<Message>, cap: nat): seq<Message>
    requires part != []
  {
    if part[0].role.Tool? then []
    else if IsCaller(part[0]) then Block(part[0], part[1..], cap)
    else Convert(part[0], cap)
  }

  ghost function Sanitise(history: seq<Message>, cap: nat): seq<Message>
    decreases |history|
  {
    if history == [] then []
    else
      var n := UnitLength(history);
      Emit(history[..n], cap) + Sanitise(history[n..], cap)
  }

  ghost predicate WellFormedUnit(part: seq<Message>)
    requires part != []
  {
    !part[0].role.Tool? && (IsCaller(part[0]) ==> Answers(CallIds(part[0].calls), part[1..]))
  }

  // The shape a chat provider accepts: no orphan result, every caller fully answered.
  ghost predicate WellFormed(ms: seq<Message>)
    decreases |ms|
  {
    ms == [] ||
    var n := UnitLength(ms);
    WellFormedUnit(ms[..n]) && WellFormed(ms[n..])
  }

  // ----- the loop computes Sanitise -----

  lemma {:induction false} FirstAnswersSnoc(ids: seq<string>, results: seq<Message>, m: Message, seen: set<string>)
    ensures var answers := FirstAnswers(ids, results, seen);
      FirstAnswers(ids, results + [m], seen) ==
        if m.toolCallId in ids && m.toolCallId !in seen + Elements(ResultIds(answers))
        then answers + [m] else answers
  {
    if results == [] {
      assert results + [m] == [m];
      assert Elements(ResultIds([])) == {};
    } else {
      var id := results[0].toolCallId;
      assert (results + [m])[1..] == results[1..] + [m];
      if id in ids && id !in seen {
        FirstAnswersSnoc(ids, results[1..], m, seen + {id});
        var rest := FirstAnswers(ids, results[1..], seen + {id});
        ElementsCons(results[0], rest);
        assert seen + {id} + Elements(ResultIds(rest)) == seen + Elements(ResultIds([results[0]] + rest));
      } else {
        FirstAnswersSnoc(ids, results[1..], m, seen);
      }
    }
  }

  lemma ElementsCons(m: Message, rest: seq<Message>)
    ensures Elements(ResultIds([m] + rest)) == {m.toolCallId} + Elements(ResultIds(rest))
  {
    var all := ResultIds([m] + rest);
    assert all == [m.toolCallId] + ResultIds(rest);
  }

  lemma ElementsSnoc(rest: seq<Message>, m: Message)
    ensures Elements(ResultIds(rest + [m])) == Elements(ResultIds(rest)) + {m.toolCallId}
  {
    assert ResultIds(rest + [m]) == ResultIds(rest) + [m.toolCallId];
  }

  lemma {:induction false} FirstAnswersDistinct(ids: seq<string>, results: seq<Message>, seen: set<string>)
    ensures var got := ResultIds(FirstAnswers(ids, results, seen));
      Distinct(got) && Elements(got) <= Elements(ids) - seen
  {
    if results != [] {
      var id := results[0].toolCallId;
      if id in ids && id !in seen {
        FirstAnswersDistinct(ids, results[1..], seen + {id});
        var rest := FirstAnswers(ids, results[1..], seen + {id});
        assert ResultIds([results[0]] + rest) == [id] + ResultIds(rest);
        assert forall x :: x in ResultIds(rest) ==> x in Elements(ResultIds(rest));
      } else {
        FirstAnswersDistinct(ids, results[1..], seen);
      }
    }
  }

  // What the inner loop has built after looking at the results in `run`.
  ghost predicate Collected(block: seq<Message>, seen: set<string>, caller: Message, ids: seq<string>,
                            run: seq<Message>, cap: nat)
  {
    var answers := FirstAnswers(ids, run, {});
    block == [Chat(caller, cap)] + Chats(answers, cap) && seen == Elements(ResultIds(answers))
  }

  lemma CollectedSnoc(block: seq<Message>, seen: set<string>, caller: Message, ids: seq<string>,
                      run: seq<Message>, result: Message, cap: nat)
    requires Collected(block, seen, caller, ids, run, cap)
    ensures if result.toolCallId in ids && result.toolCallId !in seen
            then Collected(block + [Chat(result, cap)], seen + {result.toolCallId}, caller, ids, run + [result], cap)
            else Collected(block, seen, caller, ids, run + [result], cap)
  {
    FirstAnswersSnoc(ids, run, result, {});
    var answers := FirstAnswers(ids, run, {});
    assert {} + Elements(ResultIds(answers)) == seen;
    if result.toolCallId in ids && result.toolCallId !in seen {
      CollectedNew(block, seen, caller, answers, result, cap);
    }
  }

  // One more answer goes to the end of the block.
  lemma CollectedNew(block: seq<Message>, seen: set<string>, caller: Message, answers: seq<Message>, result: Message,
                     cap: nat)
    requires block == [Chat(caller, cap)] + Chats(answers, cap) && seen == Elements(ResultIds(answers))
    ensures block + [Chat(result, cap)] == [Chat(caller, cap)] + Chats(answers + [result], cap)
    ensures seen + {result.toolCallId} == Elements(ResultIds(answers + [result]))
  {
    ElementsSnoc(answers, result);
    ChatsSnoc(answers, result, cap);
  }

  lemma ChatsSnoc(ms: seq<Message>, m: Message, cap: nat)
    ensures Chats(ms + [m], cap) == Chats(ms, cap) + [Chat(m, cap)]
  {}

  // The inner loop: the block being built, the ids seen so far, and the first index after the run.
  method CollectAnswers(history: seq<Message>, index: nat, ids: seq<string>, cap: nat)
    returns (block: seq<Message>, seen: set<string>, cursor: nat)
    requires index < |history|
    ensures cursor == index + 1 + ToolRun(history[index + 1..])
    ensures Collected(block, seen, history[index], ids, history[index + 1..][..cursor - index - 1], cap)
  {
    block := [Chat(history[index], cap)];
    seen := {};
    cursor := index + 1;
    ghost var rest := history[index + 1..];
    while cursor < |history| && history[cursor].role.Tool?
      invariant index < cursor <= |history|
      invariant forall i :: 0 <= i < cursor - index - 1 ==> rest[i].role.Tool?
      invariant Collected(block, seen, history[index], ids, rest[..cursor - index - 1], cap)
    {
      var result := history[cursor];
      CollectedSnoc(block, seen, history[index], ids, rest[..cursor - index - 1], result, cap);
      assert rest[..cursor - index] == rest[..cursor - index - 1] + [result];
      if result.toolCallId in ids && result.toolCallId !in seen {
        block := block + [Chat(result, cap)];
        seen := seen + {result.toolCallId};
      }
      cursor := cursor + 1;
    }
    ToolRunIs(rest, cursor - index - 1);
  }

  // A complete collection is exactly what the unit emits.
  lemma CollectedEmits(block: seq<Message>, seen: set<string>, part: seq<Message>, cap: nat)
    requires part != [] && IsCaller(part[0])
    requires Collected(block, seen, part[0], CallIds(part[0].calls), part[1..], cap)
    ensures var ids := CallIds(part[0].calls);
      Emit(part, cap) == if ids != [] && seen == Elements(ids) then block else []
  {
    FirstAnswersDistinct(CallIds(part[0].calls), part[1..], {});
  }

  // One round of the outer loop: what is emitted, and where reading resumes.
  method SanitiseUnit(history: seq<Message>, index: nat, cap: nat) returns (piece: seq<Message>, next: nat)
    requires index < |history|
    ensures index < next <= |history|
    ensures Sanitise(history[index..], cap) == piece + Sanitise(history[next..], cap)
  {
    piece, next := [], index + 1;
    if IsCaller(history[index]) {
      var ids := ToolCallIds(history[index].calls);
      var seen;
      piece, seen, next := CollectAnswers(history, index, ids, cap);
      PartOf(history, index, next);
      CollectedEmits(piece, seen, history[index..][..next - index], cap);
      if ids == [] || seen != Elements(ids) {
        piece := [];
      }
    } else if !history[index].role.Tool? {
      piece := Convert(history[index], cap);
    }
    UnitRead(history, index, next, piece, cap);
  }

  // The unit at a position, its caller aside.
  lemma PartOf(history: seq<Message>, index: nat, next: nat)
    requires index < next <= |history|
    ensures history[index..][1..] == history[index + 1..]
    ensures history[index..][..next - index][1..] == history[index + 1..][..next - index - 1]
  {}

  lemma UnitRead(history: seq<Message>, index: nat, next: nat, piece: seq<Message>, cap: nat)
    requires index < next <= |history| && next - index == UnitLength(history[index..])
    requires piece == Emit(history[index..][..next - index], cap)
    ensures Sanitise(history[index..], cap) == piece + Sanitise(history[next..], cap)
  {
    FirstUnitRead(history[index..], cap);
    DropMore(history, index, next);
  }

  lemma DropMore<T>(s: seq<T>, from: nat, to: nat)
    requires from <= to <= |s|
    ensures s[from..][to - from..] == s[to..]
  {}

  lemma FirstUnitRead(rest: seq<Message>, cap: nat)
    requires rest != []
    ensures Sanitise(rest, cap) == Emit(rest[..UnitLength(rest)], cap) + Sanitise(rest[UnitLength(rest)..], cap)
  {}

  method HistoryToLlmDicts(history: seq<Message>, cap: nat) returns (converted: seq<Message>)
    ensures converted == Sanitise(history, cap)
  {
    converted := [];
    var index := 0;
    while index < |history|
      invariant 0 <= index <= |history|
      invariant converted + Sanitise(history[index..], cap) == Sanitise(history, cap)
    {
      var piece, next := SanitiseUnit(history, index, cap);
      converted, index := converted + piece, next;
    }
  }

  lemma {:induction false} ToolRunIs(ms: seq<Message>, n: nat)
    requires n <= |ms|
    requires forall i :: 0 <= i < n ==> ms[i].role.Tool?
    requires n < |ms| ==> !ms[n].role.Tool?
    ensures ToolRun(ms) == n
  {
    if n > 0 {
      ToolRunIs(ms[1..], n - 1);
    }
  }
}
