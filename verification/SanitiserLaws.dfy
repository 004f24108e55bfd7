/** What sanitising guarantees: well-formed tool blocks, concatenation laws, idempotence. */
module SanitiserLaws {
  import opened Messages
  import opened Sanitiser

  predicate StartsWithTool(ms: seq<Message>) {
    ms != [] && ms[0].role.Tool?
  }

  // ----- well-formedness is a grammar closed under concatenation and cutting -----

  lemma {:induction false} ToolRunAppend(a: seq<Message>, b: seq<Message>)
    requires !StartsWithTool(b)
    ensures ToolRun(a + b) == ToolRun(a)
  {
    ToolRunIs(a + b, ToolRun(a));
  }

  // Appending something that is not a tool result leaves the first unit as it was.
  lemma UnitAppend(a: seq<Message>, b: seq<Message>)
    requires a != [] && !StartsWithTool(b)
    ensures var n := UnitLength(a);
      UnitLength(a + b) == n && (a + b)[..n] == a[..n] && (a + b)[n..] == a[n..] + b
  {
    assert (a + b)[1..] == a[1..] + b;
    ToolRunAppend(a[1..], b);
  }

  lemma {:induction false} WellFormedAppend(a: seq<Message>, b: seq<Message>)
    requires WellFormed(a) && WellFormed(b)
    ensures WellFormed(a + b)
    decreases |a|
  {
    if a == [] {
      assert a + b == b;
    } else {
      UnitAppend(a, b);
      WellFormedAppend(a[UnitLength(a)..], b);
    }
  }

  // Cutting a well-formed list before any message that is not a tool result leaves two well-formed lists.
  lemma {:induction false} WellFormedSplit(a: seq<Message>, b: seq<Message>)
    requires WellFormed(a + b) && !StartsWithTool(b)
    ensures WellFormed(a) && WellFormed(b)
    decreases |a|
  {
    if a == [] {
      assert a + b == b;
    } else {
      UnitAppend(a, b);
      WellFormedSplit(a[UnitLength(a)..], b);
    }
  }

  // Roles, ids and calls decide the shape; contents do not matter.
  predicate SameShape(a: seq<Message>, b: seq<Message>) {
    |a| == |b| &&
    forall i :: 0 <= i < |a| ==>
      a[i].role == b[i].role && a[i].toolCallId == b[i].toolCallId && a[i].calls == b[i].calls && a[i].name == b[i].name
  }

  lemma {:induction false} SameShapeToolRun(a: seq<Message>, b: seq<Message>)
    requires SameShape(a, b)
    ensures ToolRun(a) == ToolRun(b)
  {
    if a != [] {
      SameShapeToolRun(a[1..], b[1..]);
    }
  }

  lemma {:induction false} SameShapeWellFormed(a: seq<Message>, b: seq<Message>)
    requires SameShape(a, b) && WellFormed(a)
    ensures WellFormed(b)
    decreases |a|
  {
    if a != [] {
      var n := UnitLength(a);
      SameShapeToolRun(a[1..], b[1..]);
      assert UnitLength(b) == n;
      assert ResultIds(a[..n][1..]) == ResultIds(b[..n][1..]);
      SameShapeWellFormed(a[n..], b[n..]);
    }
  }

  // Inside the first unit everything but the head is a tool result.
  lemma UnitTail(ms: seq<Message>, i: nat)
    requires ms != [] && 0 < i < UnitLength(ms)
    ensures IsCaller(ms[0]) && ms[i].role.Tool?
  {
    assert ms[1..][i - 1] == ms[i];
  }

  // A result inside the first unit answers the unit's caller.
  lemma UnitResult(ms: seq<Message>, i: nat)
    requires WellFormed(ms) && ms != [] && 0 < i < UnitLength(ms)
    ensures IsCaller(ms[0]) && ms[i].toolCallId in CallIds(ms[0].calls)
  {
    UnitTail(ms, i);
    var ids := ResultIds(ms[..UnitLength(ms)][1..]);
    assert ids[i - 1] in Elements(ids);
  }

  // A well-formed list starts with something other than a result, and only a caller is followed by one.
  lemma HeadIsCaller(ms: seq<Message>)
    requires WellFormed(ms) && ms != []
    ensures !ms[0].role.Tool?
    ensures |ms| > 1 && ms[1].role.Tool? ==> IsCaller(ms[0])
  {
    assert ms[1..] != [] && !IsCaller(ms[0]) ==> ms[1..][..UnitLength(ms[1..])][0] == ms[1];
  }

  lemma RunAnswersHead(ms: seq<Message>, k: nat)
    requires WellFormed(ms) && 0 < k < |ms| && forall j :: 0 < j <= k ==> ms[j].role.Tool?
    ensures IsCaller(ms[0]) && ms[k].toolCallId in CallIds(ms[0].calls)
  {
    HeadIsCaller(ms);
    ToolRunAtLeast(ms[1..], k);
    UnitResult(ms, k);
  }

  // Walking back over results reaches the message in front of their run.
  lemma {:induction false} RunStart(ms: seq<Message>, i: nat) returns (start: nat)
    requires i < |ms| && !ms[0].role.Tool?
    ensures start <= i && !ms[start].role.Tool?
    ensures forall j :: start < j <= i ==> ms[j].role.Tool?
  {
    if ms[i].role.Tool? {
      start := RunStart(ms, i - 1);
    } else {
      start := i;
    }
  }

  // The result at `i` sits in the unbroken run behind the message at `caller`, which announced its id.
  predicate AnswersCaller(ms: seq<Message>, caller: nat, i: nat) {
    && caller < i < |ms| && IsCaller(ms[caller]) && ms[i].toolCallId in CallIds(ms[caller].calls)
    && forall j :: caller < j <= i ==> ms[j].role.Tool?
  }

  /** No orphan result: every tool result answers a caller in front of its run. */
  lemma NoOrphanResult(ms: seq<Message>, i: nat)
    requires WellFormed(ms) && i < |ms| && ms[i].role.Tool?
    ensures exists caller: nat :: AnswersCaller(ms, caller, i)
  {
    HeadIsCaller(ms);
    var caller := RunStart(ms, i);
    RestWellFormed(ms, caller);
    RunAnswersCaller(ms, caller, i);
    assert AnswersCaller(ms, caller, i);
  }

  lemma RestWellFormed(ms: seq<Message>, at: nat)
    requires WellFormed(ms) && at < |ms| && !ms[at].role.Tool?
    ensures WellFormed(ms[at..])
  {
    var front, rest := ms[..at], ms[at..];
    assert ms == front + rest && rest[0] == ms[at];
    WellFormedSplit(front, rest);
  }

  lemma RunAnswersCaller(ms: seq<Message>, caller: nat, i: nat)
    requires caller < i < |ms| && WellFormed(ms[caller..]) && forall j :: caller < j <= i ==> ms[j].role.Tool?
    ensures IsCaller(ms[caller]) && ms[i].toolCallId in CallIds(ms[caller].calls)
  {
    var rest := ms[caller..];
    assert rest[0] == ms[caller] && rest[i - caller] == ms[i];
    forall j | 0 < j <= i - caller ensures rest[j].role.Tool? {
      assert rest[j] == ms[caller + j];
    }
    RunAnswersHead(rest, i - caller);
  }

  lemma {:induction false} ToolRunAtLeast(ms: seq<Message>, n: nat)
    requires n <= |ms| && forall i :: 0 <= i < n ==> ms[i].role.Tool?
    ensures n <= ToolRun(ms)
  {
    if n > 0 {
      ToolRunAtLeast(ms[1..], n - 1);
    }
  }

  // Every caller is followed directly by exactly one result per announced call.
  lemma CallerIsAnswered(ms: seq<Message>, i: nat)
    requires WellFormed(ms) && i < |ms| && IsCaller(ms[i])
    ensures Answers(CallIds(ms[i].calls), ms[i..][..UnitLength(ms[i..])][1..])
  {
    assert ms == ms[..i] + ms[i..];
    WellFormedSplit(ms[..i], ms[i..]);
  }

  // ----- sanitising produces the grammar -----

  lemma BlockWellFormed(caller: Message, results: seq<Message>, cap: nat)
    requires IsCaller(caller)
    requires forall m :: m in results ==> m.role.Tool?
    ensures WellFormed(Block(caller, results, cap))
  {
    var ids := CallIds(caller.calls);
    var answers := FirstAnswers(ids, results, {});
    if Answers(ids, answers) {
      AnswersAreResults(ids, results, {});
      var block := [Chat(caller, cap)] + Chats(answers, cap);
      assert block[1..] == Chats(answers, cap);
      ToolRunIs(block[1..], |answers|);
      assert block[..|block|] == block;
      assert ResultIds(Chats(answers, cap)) == ResultIds(answers);
      assert WellFormed(block[|block|..]);
    }
  }

  lemma {:induction false} AnswersAreResults(ids: seq<string>, results: seq<Message>, seen: set<string>)
    requires forall m :: m in results ==> m.role.Tool?
    ensures forall m :: m in FirstAnswers(ids, results, seen) ==> m.role.Tool?
  {
    if results != [] {
      AnswersAreResults(ids, results[1..], seen + {results[0].toolCallId});
      AnswersAreResults(ids, results[1..], seen);
    }
  }

  lemma UnitResults(ms: seq<Message>)
    requires ms != []
    ensures forall m :: m in ms[..UnitLength(ms)][1..] ==> m.role.Tool?
  {
    forall i | 0 < i < UnitLength(ms) ensures ms[i].role.Tool? {
      UnitTail(ms, i);
    }
  }

  lemma {:induction false} SanitiseWellFormed(history: seq<Message>, cap: nat)
    ensures WellFormed(Sanitise(history, cap))
    decreases |history|
  {
    if history != [] {
      var n := UnitLength(history);
      UnitResults(history);
      BlockOrOne(history[..n], cap);
      SanitiseWellFormed(history[n..], cap);
      WellFormedAppend(Emit(history[..n], cap), Sanitise(history[n..], cap));
    }
  }

  lemma BlockOrOne(part: seq<Message>, cap: nat)
    requires part != [] && forall m :: m in part[1..] ==> m.role.Tool?
    ensures WellFormed(Emit(part, cap))
  {
    if IsCaller(part[0]) {
      BlockWellFormed(part[0], part[1..], cap);
    } else if Emit(part, cap) != [] {
      assert WellFormed(Emit(part, cap)[1..]);
    }
  }

  // ----- concatenation -----

  lemma {:induction false} SanitiseConcat(a: seq<Message>, b: seq<Message>, cap: nat)
    requires !StartsWithTool(b)
    ensures Sanitise(a + b, cap) == Sanitise(a, cap) + Sanitise(b, cap)
    decreases |a|
  {
    if a == [] {
      assert a + b == b;
    } else {
      UnitAppend(a, b);
      var n := UnitLength(a);
      var part, rest := a[..n], a[n..];
      SanitiseConcat(rest, b, cap);
      Associate(Emit(part, cap), Sanitise(rest, cap), Sanitise(b, cap));
    }
  }

  lemma Associate(x: seq<Message>, y: seq<Message>, z: seq<Message>)
    ensures x + y + z == x + (y + z)
  {}

  predicate IsSuffix<T(==)>(tail: seq<T>, whole: seq<T>) {
    |tail| <= |whole| && whole[|whole| - |tail|..] == tail
  }

  lemma SuffixPrepend<T>(tail: seq<T>, whole: seq<T>, front: seq<T>)
    requires IsSuffix(tail, whole)
    ensures IsSuffix(tail, front + whole)
  {}

  lemma SanitiseSkipsTool(b: seq<Message>, cap: nat)
    requires StartsWithTool(b)
    ensures Sanitise(b, cap) == Sanitise(b[1..], cap)
  {
    assert UnitLength(b) == 1 && Emit(b[..1], cap) == [];
  }

  // Tool results at the front of a history never survive.
  lemma {:induction false} SanitiseDropsLeadingTools(b: seq<Message>, n: nat, cap: nat)
    requires n <= ToolRun(b)
    ensures Sanitise(b, cap) == Sanitise(b[n..], cap)
  {
    if n > 0 {
      SanitiseSkipsTool(b, cap);
      SanitiseDropsLeadingTools(b[1..], n - 1, cap);
      assert b[1..][n - 1..] == b[n..];
    } else {
      assert b[0..] == b;
    }
  }

  lemma DropFromConcat<T>(a: seq<T>, b: seq<T>, n: nat)
    requires n <= |a| + |b|
    ensures (a + b)[|a|..] == b
    ensures (a + b)[n..] == if n <= |a| then a[n..] + b else b[n - |a|..]
  {}

  lemma {:induction false} SanitiseSuffix(a: seq<Message>, b: seq<Message>, cap: nat)
    ensures IsSuffix(Sanitise(b, cap), Sanitise(a + b, cap))
    decreases |a|
  {
    if a == [] {
      assert a + b == b;
    } else {
      var whole := a + b;
      var n := UnitLength(whole);
      DropFromConcat(a, b, n);
      if n <= |a| {
        SanitiseSuffix(a[n..], b, cap);
      } else {
        EatenRun(whole, |a|);
        SanitiseDropsLeadingTools(b, n - |a|, cap);
      }
      SuffixPrepend(Sanitise(b, cap), Sanitise(whole[n..], cap), Emit(whole[..n], cap));
    }
  }

  // The part of the first unit from position k on is the start of a tool run.
  lemma EatenRun(whole: seq<Message>, k: nat)
    requires whole != [] && 0 < k < UnitLength(whole)
    ensures UnitLength(whole) - k <= ToolRun(whole[k..])
  {
    forall i | k <= i < UnitLength(whole) ensures whole[i].role.Tool? {
      UnitTail(whole, i);
    }
    ToolRunAtLeast(whole[k..], UnitLength(whole) - k);
  }

  // ----- idempotence -----

  lemma TruncateTwice(content: string, cap: nat)
    ensures Truncate(Truncate(content, cap), cap) == Truncate(content, cap)
  {
    if |content| > cap {
      assert (content[..cap] + TRUNCATED)[..cap] == content[..cap];
    }
  }

  // A chat dictionary with a known role that the length cap no longer changes.
  predicate Settled(m: Message, cap: nat) {
    !m.role.Other? && Chat(m, cap) == m
  }

  predicate AllSettled(ms: seq<Message>, cap: nat) {
    forall i :: 0 <= i < |ms| ==> Settled(ms[i], cap)
  }

  lemma {:induction false} FirstAnswersAll(ids: seq<string>, results: seq<Message>, seen: set<string>)
    requires Distinct(ResultIds(results)) && Elements(ResultIds(results)) <= Elements(ids) - seen
    ensures FirstAnswers(ids, results, seen) == results
  {
    if results != [] {
      var got := ResultIds(results);
      assert got[0] in Elements(got);
      assert ResultIds(results[1..]) == got[1..];
      forall x | x in got[1..] ensures x in Elements(ids) - (seen + {got[0]}) {
        assert x in Elements(got);
      }
      FirstAnswersAll(ids, results[1..], seen + {got[0]});
    }
  }

  lemma SettledChats(ms: seq<Message>, cap: nat)
    requires AllSettled(ms, cap)
    ensures Chats(ms, cap) == ms
  {}

  lemma EmitSettled(part: seq<Message>, cap: nat)
    requires part != [] && WellFormedUnit(part) && AllSettled(part, cap)
    requires !IsCaller(part[0]) ==> |part| == 1
    ensures Emit(part, cap) == part
  {
    if IsCaller(part[0]) {
      var results := part[1..];
      FirstAnswersAll(CallIds(part[0].calls), results, {});
      SettledChats(results, cap);
      assert Chat(part[0], cap) == part[0];
      assert part == [part[0]] + results;
    } else {
      assert part == [part[0]];
    }
  }

  lemma {:induction false} SanitiseSettled(ms: seq<Message>, cap: nat)
    requires WellFormed(ms) && AllSettled(ms, cap)
    ensures Sanitise(ms, cap) == ms
    decreases |ms|
  {
    if ms != [] {
      var n := UnitLength(ms);
      var part, rest := ms[..n], ms[n..];
      SettledSlices(ms, n, cap);
      assert part[0] == ms[0];
      EmitSettled(part, cap);
      SanitiseSettled(rest, cap);
      assert Sanitise(ms, cap) == part + rest;
    }
  }

  lemma SettledSlices(ms: seq<Message>, n: nat, cap: nat)
    requires n <= |ms| && AllSettled(ms, cap)
    ensures AllSettled(ms[..n], cap) && AllSettled(ms[n..], cap) && ms[..n] + ms[n..] == ms
  {}

  lemma EmitSettles(part: seq<Message>, cap: nat)
    requires part != [] && forall m :: m in part[1..] ==> m.role.Tool?
    ensures AllSettled(Emit(part, cap), cap)
  {
    AnswersAreResults(CallIds(part[0].calls), part[1..], {});
    var answers := FirstAnswers(CallIds(part[0].calls), part[1..], {});
    TruncateTwice(part[0].content, cap);
    forall i | 0 <= i < |answers| ensures Settled(Chats(answers, cap)[i], cap) {
      assert answers[i] in answers;
      TruncateTwice(answers[i].content, cap);
    }
  }

  lemma {:induction false} SanitiseSettles(history: seq<Message>, cap: nat)
    ensures AllSettled(Sanitise(history, cap), cap)
    decreases |history|
  {
    if history != [] {
      var n := UnitLength(history);
      UnitResults(history);
      EmitSettles(history[..n], cap);
      SanitiseSettles(history[n..], cap);
    }
  }

  lemma SanitiseIdempotent(history: seq<Message>, cap: nat)
    ensures Sanitise(Sanitise(history, cap), cap) == Sanitise(history, cap)
  {
    SanitiseWellFormed(history, cap);
    SanitiseSettles(history, cap);
    SanitiseSettled(Sanitise(history, cap), cap);
  }

  // ----- ordinary messages survive -----

  // Messages outside tool blocks that the chat protocol can carry.
  function Ordinary(ms: seq<Message>): seq<Message> {
    if ms == [] then []
    else (if ms[0].role.Tool? || ms[0].role.Other? || IsCaller(ms[0]) then [] else [ms[0]]) + Ordinary(ms[1..])
  }

  lemma {:induction false} OrdinaryAppend(a: seq<Message>, b: seq<Message>)
    ensures Ordinary(a + b) == Ordinary(a) + Ordinary(b)
  {
    if a == [] {
      assert a + b == b;
    } else {
      assert (a + b)[1..] == a[1..] + b;
      OrdinaryAppend(a[1..], b);
    }
  }

  lemma {:induction false} NoOrdinaryResults(results: seq<Message>)
    requires forall m :: m in results ==> m.role.Tool?
    ensures Ordinary(results) == []
  {
    if results != [] {
      NoOrdinaryResults(results[1..]);
    }
  }

  lemma EmitKeepsOrdinary(part: seq<Message>, cap: nat)
    requires part != [] && forall m :: m in part[1..] ==> m.role.Tool?
    ensures Ordinary(Emit(part, cap)) == Chats(Ordinary(part), cap)
  {
    NoOrdinaryResults(part[1..]);
    if IsCaller(part[0]) {
      var answers := FirstAnswers(CallIds(part[0].calls), part[1..], {});
      AnswersAreResults(CallIds(part[0].calls), part[1..], {});
      NoOrdinaryResults(Chats(answers, cap));
      OrdinaryAppend([Chat(part[0], cap)], Chats(answers, cap));
    }
  }

  lemma ChatsAppend(a: seq<Message>, b: seq<Message>, cap: nat)
    ensures Chats(a + b, cap) == Chats(a, cap) + Chats(b, cap)
  {}

  // Ordinary messages pass through the concatenation of one unit with what follows.
  lemma OrdinaryStep(part: seq<Message>, rest: seq<Message>, emitted: seq<Message>, after: seq<Message>, cap: nat)
    requires Ordinary(emitted) == Chats(Ordinary(part), cap)
    requires Ordinary(after) == Chats(Ordinary(rest), cap)
    ensures Ordinary(emitted + after) == Chats(Ordinary(part + rest), cap)
  {
    OrdinaryAppend(emitted, after);
    OrdinaryAppend(part, rest);
    ChatsAppend(Ordinary(part), Ordinary(rest), cap);
  }

  lemma {:induction false} SanitiseKeepsOrdinary(history: seq<Message>, cap: nat)
    ensures Ordinary(Sanitise(history, cap)) == Chats(Ordinary(history), cap)
    decreases |history|
  {
    if history != [] {
      var n := UnitLength(history);
      var part, rest := history[..n], history[n..];
      assert history == part + rest;
      UnitResults(history);
      EmitKeepsOrdinary(part, cap);
      SanitiseKeepsOrdinary(rest, cap);
      OrdinaryStep(part, rest, Emit(part, cap), Sanitise(rest, cap), cap);
    }
  }
}
