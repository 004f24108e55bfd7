/** What trimming does to a prompt that ends with the current user message (agent/core/context.py): the frame stays,
    and the only thing that can keep the truncation loop from stopping are tool results in front of every user message. */
module PromptShape {
  import opened Options
  import opened Messages
  import opened Sanitiser
  import opened SanitiserLaws
  import opened TurnTrimming
  import opened ToolTruncation
  import opened BlockDropping
  import opened ContextFitting
  import opened Turns

  // ----- the last turn is the current user message -----

  lemma UserIsLastTurn(body: seq<Message>, user: Message)
    requires user.role.User?
    ensures LastTurn(body + [user]) == [user] && BeforeLast(body + [user]) == body
    ensures Conversation(body + [user]) != []
  {
    var ms := body + [user];
    var front, last := BeforeLast(ms), LastTurn(ms);
    LastTurnLossless(ms);
    assert ms[|ms| - 1] == user;
    assert front + [] == front;
    OnlyOne(front, last, body, user);
  }

  lemma TurnEnd(turn: seq<Message>)
    requires IsTurn(turn) && |turn| > 1
    ensures !turn[|turn| - 1].role.User?
  {
    assert turn[1..][|turn| - 2] == turn[|turn| - 1];
  }

  // A turn at the end of a list that ends with a user message is that message.
  lemma OnlyOne(front: seq<Message>, last: seq<Message>, body: seq<Message>, user: Message)
    requires front + last == body + [user] && IsTurn(last) && user.role.User?
    ensures last == [user] && front == body
  {
    var ms := front + last;
    assert last[|last| - 1] == ms[|ms| - 1] == user;
    if |last| > 1 {
      TurnEnd(last);
      assert false;
    }
    assert front == ms[..|front|] && body == ms[..|body|];
  }

  // Over budget, trimming leaves nothing but what precedes the first user message, and the last turn.
  lemma {:induction false} TrimmedToLast(ms: seq<Message>, budget: nat)
    ensures
      var frame := Prefix(ms) + LastTurn(ms);
      TrimTurns(ms, budget) == frame || (Tokens(TrimTurns(ms, budget)) <= budget && Tokens(frame) <= budget)
  {
    var turns := Conversation(ms);
    if turns != [] {
      var k := TrimTurnsOptimal(ms, budget);
      var n := |turns| - 1;
      assert turns[n..] == [turns[n]] && Flatten([turns[n]]) == turns[n];
      if k < n {
        FlattenFrom(turns, k, n);
        TokensAppend(Prefix(ms), Flatten(turns[k..]));
        TokensAppend(Flatten(turns[k..n]), turns[n]);
        TokensAppend(Prefix(ms), turns[n]);
      }
    }
  }

  /** Over budget, trimming leaves nothing but what precedes the first user message, and the current one. */
  lemma TrimmedToFrame(body: seq<Message>, user: Message, budget: nat)
    requires user.role.User?
    ensures
      var ms := body + [user];
      || TrimTurns(ms, budget) == Prefix(ms) + [user]
      || (Tokens(TrimTurns(ms, budget)) <= budget && Tokens(Prefix(ms) + [user]) <= budget)
  {
    UserIsLastTurn(body, user);
    TrimmedToLast(body + [user], budget);
  }

  /** On every list of messages, in the middle of a turn or not: fitting comes back exactly when the first truncation
      pass stops on what precedes the first user message and the last turn. */
  lemma {:induction false} FitReturnsIff(ms: seq<Message>, limit: int, definitions: string)
    ensures FitReturns(ms, Some(limit), definitions) <==>
      CanSettle(Prefix(ms) + LastTurn(ms), Available(limit, definitions))
  {
    TrimmedToLast(ms, Available(limit, definitions));
  }

  lemma FlattenFrom<T>(parts: seq<seq<T>>, k: nat, n: nat)
    requires k <= n <= |parts|
    ensures Flatten(parts[k..]) == Flatten(parts[k..n]) + Flatten(parts[n..])
  {
    assert parts[k..] == parts[k..n] + parts[n..];
    FlattenAppend(parts[k..n], parts[n..]);
  }

  /** The first truncation pass over such a prompt stops exactly when it would on the frame and the user message. */
  lemma SettlesIff(body: seq<Message>, user: Message, budget: nat)
    requires user.role.User?
    ensures
      var ms := body + [user];
      CanSettle(TrimTurns(ms, budget), budget) <==> CanSettle(Prefix(ms) + [user], budget)
  {
    TrimmedToFrame(body, user, budget);
  }

  predicate NoCandidate(ms: seq<Message>) {
    forall i :: 0 <= i < |ms| ==> !Candidate(ms[i])
  }

  /** Without a long tool result in front of the first user message the pass always stops. */
  lemma SettlesWithoutStrays(body: seq<Message>, user: Message, budget: nat)
    requires user.role.User? && NoCandidate(Prefix(body + [user]))
    ensures CanSettle(TrimTurns(body + [user], budget), budget)
  {
    var frame := Prefix(body + [user]) + [user];
    SettlesIff(body, user, budget);
    assert NoCandidate(frame);
    assert LongestTool(frame).None?;
  }

  // ----- what precedes the first user message -----

  lemma {:induction false} PrefixAppend(a: seq<Message>, b: seq<Message>)
    ensures Prefix(a + b) == if NoUser(a) then a + Prefix(b) else Prefix(a)
  {
    if a == [] {
      assert a + b == b;
    } else {
      PrefixAppend(a[1..], b);
      assert (a + b)[1..] == a[1..] + b;
      PrefixCons(a[0], a[1..] + b);
      PrefixCons(a[0], a[1..]);
      assert a == [a[0]] + a[1..] && a + b == [a[0]] + (a[1..] + b);
      assert NoUser(a) <==> !a[0].role.User? && NoUser(a[1..]) by {
        NoUserCons(a[0], a[1..]);
      }
    }
  }

  lemma PrefixCons(m: Message, rest: seq<Message>)
    ensures Prefix([m] + rest) == if m.role.User? then [] else [m] + Prefix(rest)
  {
    assert ([m] + rest)[1..] == rest;
  }

  lemma NoUserCons(m: Message, rest: seq<Message>)
    ensures NoUser([m] + rest) <==> !m.role.User? && NoUser(rest)
  {
    var all := [m] + rest;
    assert forall i :: 0 <= i < |rest| ==> all[i + 1] == rest[i];
    assert all[0] == m;
  }

  // Every message of the second list is the chat form of one of the first.
  predicate From(ms: seq<Message>, cap: nat, sent: seq<Message>) {
    forall m :: m in sent ==> exists i :: 0 <= i < |ms| && m == Chat(ms[i], cap)
  }

  lemma EmitFrom(part: seq<Message>, cap: nat)
    requires part != []
    ensures From(part, cap, Emit(part, cap))
  {
    if IsCaller(part[0]) && !part[0].role.Tool? {
      var ids := CallIds(part[0].calls);
      var answers := FirstAnswers(ids, part[1..], {});
      FirstAnswersFrom(ids, part[1..], {});
      forall m | m in Chats(answers, cap) ensures exists i :: 0 <= i < |part| && m == Chat(part[i], cap) {
        var j :| 0 <= j < |answers| && m == Chat(answers[j], cap);
        assert answers[j] in part[1..];
        var i :| 0 <= i < |part[1..]| && part[1..][i] == answers[j];
        assert part[i + 1] == answers[j];
      }
    }
  }

  lemma {:induction false} FirstAnswersFrom(ids: seq<string>, results: seq<Message>, seen: set<string>)
    ensures forall m :: m in FirstAnswers(ids, results, seen) ==> m in results
  {
    if results != [] {
      var id := results[0].toolCallId;
      FirstAnswersFrom(ids, results[1..], seen);
      FirstAnswersFrom(ids, results[1..], seen + {id});
    }
  }

  // The sanitiser sends chat forms of messages it was given.
  lemma {:induction false} SanitiseFrom(history: seq<Message>, cap: nat)
    ensures From(history, cap, Sanitise(history, cap))
    decreases |history|
  {
    if history != [] {
      var n := UnitLength(history);
      EmitFrom(history[..n], cap);
      SanitiseFrom(history[n..], cap);
      FromParts(history, n, cap, Emit(history[..n], cap), Sanitise(history[n..], cap));
    }
  }

  lemma FromParts(ms: seq<Message>, n: nat, cap: nat, first: seq<Message>, second: seq<Message>)
    requires n <= |ms| && From(ms[..n], cap, first) && From(ms[n..], cap, second)
    ensures From(ms, cap, first + second)
  {
    forall m | m in first + second ensures exists i :: 0 <= i < |ms| && m == Chat(ms[i], cap) {
      if m in first {
        var i :| 0 <= i < |ms[..n]| && m == Chat(ms[..n][i], cap);
        assert ms[i] == ms[..n][i];
      } else {
        var i :| 0 <= i < |ms[n..]| && m == Chat(ms[n..][i], cap);
        assert ms[n + i] == ms[n..][i];
      }
    }
  }

  lemma LeadStaysLead(front: seq<Message>, cap: nat)
    requires NoUser(front)
    ensures NoUser(Sanitise(front, cap))
  {
    SanitiseFrom(front, cap);
    var sent := Sanitise(front, cap);
    forall i | 0 <= i < |sent| ensures !sent[i].role.User? {
      assert sent[i] in sent;
    }
  }

  /** Sanitising commutes with taking what precedes the first user message. */
  lemma PrefixOfSanitised(history: seq<Message>, cap: nat)
    ensures Prefix(Sanitise(history, cap)) == Sanitise(Prefix(history), cap)
  {
    var front, back := Prefix(history), history[FirstUser(history)..];
    assert history == front + back;
    FirstUserSplits(history);
    LeadStaysLead(front, cap);
    SanitiseConcat(front, back, cap);
    if back != [] {
      UserStaysFirst(back, cap);
    }
    PrefixAppend(Sanitise(front, cap), Sanitise(back, cap));
  }

  lemma UserStaysFirst(history: seq<Message>, cap: nat)
    requires StartsWithUser(history)
    ensures Prefix(Sanitise(history, cap)) == []
  {
    assert history[..1] == [history[0]];
    assert Sanitise(history, cap) == [Chat(history[0], cap)] + Sanitise(history[1..], cap);
  }

  // ----- turns -----

  // Once sent, no message in front of the turn's first user message is a long tool result. A turn that opens with
  // its user message has nothing in front of it.
  predicate NoStrayResult(turn: TurnGroup, cap: nat) {
    forall i :: 0 <= i < FirstUser(turn.messages) ==> !Candidate(Chat(turn.messages[i], cap))
  }

  predicate NoStrayResults(turns: seq<TurnGroup>, cap: nat) {
    forall i :: 0 <= i < |turns| ==> NoStrayResult(turns[i], cap)
  }

  predicate OpenWithUser(turns: seq<TurnGroup>) {
    forall i :: 0 <= i < |turns| ==> StartsWithUser(turns[i].messages)
  }

  lemma OpenedTurnsHaveNoStrays(turns: seq<TurnGroup>, cap: nat)
    requires OpenWithUser(turns)
    ensures NoStrayResults(turns, cap)
  {}

  predicate NoLongChat(ms: seq<Message>, cap: nat) {
    forall i :: 0 <= i < |ms| ==> !Candidate(Chat(ms[i], cap))
  }

  lemma {:induction false} HistoryPrefixHasNoStrays(turns: seq<TurnGroup>, cap: nat)
    requires NoStrayResults(turns, cap)
    ensures NoLongChat(Prefix(History(turns)), cap)
  {
    if turns == [] {
      assert History(turns) == [];
    } else {
      var first, rest := turns[0].messages, turns[1..];
      HistoryPrefixHasNoStrays(rest, cap);
      HistoryAppend([turns[0]], rest);
      HistoryOfOne(turns[0]);
      assert turns == [turns[0]] + rest;
      PrefixAppend(first, History(rest));
      assert NoStrayResult(turns[0], cap);
      if NoUser(first) {
        FirstUserSplits(first);
        assert FirstUser(first) == |first|;
        NoLongChatAppend(first, Prefix(History(rest)), cap);
      }
    }
  }

  lemma NoLongChatAppend(a: seq<Message>, b: seq<Message>, cap: nat)
    requires NoLongChat(a, cap) && NoLongChat(b, cap)
    ensures NoLongChat(a + b, cap)
  {}

  // What the history of such turns puts in front of the first user message holds no truncation candidate.
  lemma SentPrefixHasNoCandidate(turns: seq<TurnGroup>, cap: nat)
    requires NoStrayResults(turns, cap)
    ensures NoCandidate(Prefix(Sanitise(History(turns), cap)))
  {
    var lead := Prefix(History(turns));
    HistoryPrefixHasNoStrays(turns, cap);
    PrefixOfSanitised(History(turns), cap);
    SanitiseFrom(lead, cap);
    var sent := Sanitise(lead, cap);
    forall i | 0 <= i < |sent| ensures !Candidate(sent[i]) {
      assert sent[i] in sent;
    }
  }

  lemma NoCandidateAppend(a: seq<Message>, b: seq<Message>)
    requires NoCandidate(Prefix(a)) && NoCandidate(Prefix(b))
    ensures NoCandidate(Prefix(a + b))
  {
    PrefixAppend(a, b);
    if NoUser(a) {
      FirstUserSplits(a);
      assert Prefix(a) == a;
    }
  }

  // ----- the frame stays -----

  // The prompt opens and closes with these two messages.
  predicate Framed(ms: seq<Message>, first: Message, last: Message) {
    |ms| >= 2 && ms[0] == first && ms[|ms| - 1] == last
  }

  // Trimming keeps the prefix, some turns in between, and the last message.
  lemma TrimmedParts(body: seq<Message>, last: Message, budget: nat) returns (between: seq<Message>)
    requires last.role.User?
    ensures TrimTurns(body + [last], budget) == Prefix(body + [last]) + (between + [last])
  {
    var ms := body + [last];
    UserIsLastTurn(body, last);
    var turns := Conversation(ms);
    var k := TrimTurnsOptimal(ms, budget);
    var n := |turns| - 1;
    FlattenFrom(turns, k, n);
    assert turns[n..] == [turns[n]] && Flatten([turns[n]]) == turns[n];
    between := Flatten(turns[k..n]);
  }

  lemma TrimKeepsFrame(ms: seq<Message>, first: Message, last: Message, budget: nat)
    requires Framed(ms, first, last) && !first.role.User? && last.role.User?
    ensures Framed(TrimTurns(ms, budget), first, last)
  {
    var body := ms[..|ms| - 1];
    assert ms == body + [last];
    var between := TrimmedParts(body, last, budget);
    assert Prefix(ms)[0] == first;
  }

  lemma StepsKeepFrame(ms: seq<Message>, first: Message, last: Message, n: nat)
    requires Framed(ms, first, last) && !first.role.Tool? && !last.role.Tool?
    ensures Framed(Steps(ms, n), first, last)
  {
    StepsOnlyToolContents(ms, n);
  }

  // The last turn holds no tool block that could be dropped.
  lemma NothingToDrop(ms: seq<Message>, first: Message, last: Message, budget: nat)
    requires Framed(ms, first, last) && last.role.User?
    ensures DropBlocks(ms, budget) == ms
  {
    var body := ms[..|ms| - 1];
    assert ms == body + [last];
    UserIsLastTurn(body, last);
    assert [last][..1] == [last] && [last][1..] == [];
    assert Units([last]) == [[last]];
    assert CompleteUnits([[last]]) == [];
    assert Flatten([[last]]) == [last];
  }
}
