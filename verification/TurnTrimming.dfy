/** The turn-dropping loop of fit_messages (agent/core/context.py). */
module TurnTrimming {
  import opened Messages
  import opened Sanitiser
  import opened SanitiserLaws

  // How many messages precede the first user message.
  function FirstUser(ms: seq<Message>): (n: nat)
    ensures n <= |ms|
  {
    if ms == [] || ms[0].role.User? then 0 else 1 + FirstUser(ms[1..])
  }

  // The length of the turn at the front of `tail`.
  function TurnLength(tail: seq<Message>): (n: nat)
    requires tail != []
    ensures 1 <= n <= |tail|
  {
    1 + FirstUser(tail[1..])
  }

  // Positions of the user messages, when the list starts at position `at`.
  function UserStarts(ms: seq<Message>, at: nat): seq<nat> {
    if ms == [] then [] else (if ms[0].role.User? then [at] else []) + UserStarts(ms[1..], at + 1)
  }

  // Each conversation turn runs from a user message to the next one, or to the end.
  function ConversationTurnRanges(ms: seq<Message>): seq<(nat, nat)> {
    var starts := UserStarts(ms, 0);
    seq(|starts|, k requires 0 <= k < |starts| => (starts[k], if k + 1 < |starts| then starts[k + 1] else |ms|))
  }

  // The conversation part of a list, cut before every user message.
  function Turns(tail: seq<Message>): seq<seq<Message>>
    decreases |tail|
  {
    if tail == [] then [] else [tail[..TurnLength(tail)]] + Turns(tail[TurnLength(tail)..])
  }

  function Flatten<T>(parts: seq<seq<T>>): seq<T> {
    if parts == [] then [] else parts[0] + Flatten(parts[1..])
  }

  lemma {:induction false} FlattenAppend<T>(a: seq<seq<T>>, b: seq<seq<T>>)
    ensures Flatten(a + b) == Flatten(a) + Flatten(b)
  {
    if a == [] {
      assert a + b == b;
    } else {
      assert (a + b)[1..] == a[1..] + b;
      FlattenAppend(a[1..], b);
    }
  }

  function Prefix(ms: seq<Message>): seq<Message> {
    ms[..FirstUser(ms)]
  }

  function Conversation(ms: seq<Message>): seq<seq<Message>> {
    Turns(ms[FirstUser(ms)..])
  }

  // The turns kept when `used` tokens are already spent on the prefix.
  function KeptTurns(used: nat, turns: seq<seq<Message>>, budget: nat): seq<seq<Message>> {
    if |turns| <= 1 || used + Tokens(Flatten(turns)) <= budget then turns
    else KeptTurns(used, turns[1..], budget)
  }

  function TrimTurns(ms: seq<Message>, budget: nat): seq<Message> {
    Prefix(ms) + Flatten(KeptTurns(Tokens(Prefix(ms)), Conversation(ms), budget))
  }

  predicate StartsWithUser(tail: seq<Message>) {
    tail != [] && tail[0].role.User?
  }

  predicate NoUser(ms: seq<Message>) {
    forall i :: 0 <= i < |ms| ==> !ms[i].role.User?
  }

  lemma {:induction false} FirstUserSplits(ms: seq<Message>)
    ensures NoUser(Prefix(ms))
    ensures FirstUser(ms) < |ms| ==> ms[FirstUser(ms)].role.User?
  {
    if ms != [] && !ms[0].role.User? {
      FirstUserSplits(ms[1..]);
      assert Prefix(ms) == [ms[0]] + Prefix(ms[1..]);
    }
  }

  // One user message followed by other messages.
  predicate IsTurn(turn: seq<Message>) {
    StartsWithUser(turn) && NoUser(turn[1..])
  }

  predicate AreTurns(turns: seq<seq<Message>>) {
    forall k :: 0 <= k < |turns| ==> IsTurn(turns[k])
  }

  lemma FirstTurnIsTurn(tail: seq<Message>)
    requires StartsWithUser(tail)
    ensures IsTurn(tail[..TurnLength(tail)])
    ensures TurnLength(tail) < |tail| ==> StartsWithUser(tail[TurnLength(tail)..])
  {
    var n := TurnLength(tail);
    FirstUserSplits(tail[1..]);
    assert tail[..n][1..] == Prefix(tail[1..]);
    assert n < |tail| ==> tail[n] == tail[1..][n - 1];
  }

  // Cutting into turns loses nothing.
  lemma {:induction false} TurnsAreTurns(tail: seq<Message>)
    requires tail != [] ==> StartsWithUser(tail)
    ensures Flatten(Turns(tail)) == tail
    ensures AreTurns(Turns(tail))
    decreases |tail|
  {
    if tail != [] {
      var n := TurnLength(tail);
      var first, rest := tail[..n], tail[n..];
      FirstTurnIsTurn(tail);
      TurnsAreTurns(rest);
      ConsTurn(first, Turns(rest));
      assert tail == first + rest;
      assert Turns(tail) == [first] + Turns(rest);
    }
  }

  lemma ConsTurn(first: seq<Message>, turns: seq<seq<Message>>)
    requires IsTurn(first) && AreTurns(turns)
    ensures AreTurns([first] + turns) && Flatten([first] + turns) == first + Flatten(turns)
  {
    assert ([first] + turns)[1..] == turns;
  }

  lemma FlattenStart(turns: seq<seq<Message>>)
    requires AreTurns(turns)
    ensures if turns == [] then Flatten(turns) == [] else StartsWithUser(Flatten(turns))
  {}

  lemma {:induction false} UserStartsAppend(a: seq<Message>, b: seq<Message>, at: nat)
    ensures UserStarts(a + b, at) == UserStarts(a, at) + UserStarts(b, at + |a|)
  {
    if a == [] {
      assert a + b == b;
    } else {
      var first := if a[0].role.User? then [at] else [];
      assert (a + b)[1..] == a[1..] + b;
      UserStartsAppend(a[1..], b, at + 1);
      Regroup(first, UserStarts(a[1..], at + 1), UserStarts(b, at + |a|));
    }
  }

  lemma Regroup<T>(x: seq<T>, y: seq<T>, z: seq<T>)
    ensures x + (y + z) == (x + y) + z
  {}

  lemma {:induction false} NoUserStarts(ms: seq<Message>, at: nat)
    requires NoUser(ms)
    ensures UserStarts(ms, at) == []
  {
    if ms != [] {
      NoUserStarts(ms[1..], at + 1);
    }
  }

  lemma TurnStarts(turn: seq<Message>, at: nat)
    requires IsTurn(turn)
    ensures UserStarts(turn, at) == [at]
  {
    NoUserStarts(turn[1..], at + 1);
  }

  lemma TurnsStarts(turns: seq<seq<Message>>, at: nat)
    requires turns != [] && AreTurns(turns)
    ensures UserStarts(Flatten(turns), at) == [at] + UserStarts(Flatten(turns[1..]), at + |turns[0]|)
  {
    TurnStarts(turns[0], at);
    UserStartsAppend(turns[0], Flatten(turns[1..]), at);
  }

  // The ranges of a list whose turns start behind `front`.
  lemma FirstRange(front: seq<Message>, turns: seq<seq<Message>>)
    requires NoUser(front) && AreTurns(turns)
    ensures var ranges := ConversationTurnRanges(front + Flatten(turns));
      && (turns == [] ==> ranges == [])
      && (turns != [] ==>
            && ranges != [] && ranges[0] == (|front|, |front| + |turns[0]|)
            && (|ranges| == 1 <==> |turns| == 1))
  {
    UserStartsAppend(front, Flatten(turns), 0);
    NoUserStarts(front, 0);
    if turns != [] {
      TurnsStarts(turns, |front|);
      if |turns| > 1 {
        TurnsStarts(turns[1..], |front| + |turns[0]|);
      }
    }
  }

  lemma DropFirstTurn(front: seq<Message>, turns: seq<seq<Message>>)
    requires turns != []
    ensures var ms := front + Flatten(turns);
      ms[..|front|] + ms[|front| + |turns[0]|..] == front + Flatten(turns[1..])
  {
    CutOut(front, turns[0], Flatten(turns[1..]));
  }

  lemma CutOut<T>(a: seq<T>, b: seq<T>, c: seq<T>)
    ensures (a + (b + c))[..|a|] + (a + (b + c))[|a| + |b|..] == a + c
  {
    var s := a + (b + c);
    assert s[..|a|] == a;
    assert s[|a| + |b|..] == c;
  }

  method DropOldTurns(messages: seq<Message>, budget: nat) returns (fitted: seq<Message>)
    ensures fitted == TrimTurns(messages, budget)
  {
    fitted := messages;
    ghost var front, turns := Prefix(messages), Conversation(messages);
    ConversationLossless(messages);
    while Tokens(fitted) > budget
      invariant fitted == front + Flatten(turns) && NoUser(front) && AreTurns(turns)
      invariant TrimTurns(messages, budget) == front + Flatten(KeptTurns(Tokens(front), turns, budget))
      decreases |turns|
    {
      TokensAppend(front, Flatten(turns));
      var ranges := ConversationTurnRanges(fitted);
      FirstRange(front, turns);
      if |ranges| <= 1 {
        return;
      }
      var (start, end) := ranges[0];
      DropFirstTurn(front, turns);
      fitted := fitted[..start] + fitted[end..];
      turns := turns[1..];
    }
    TokensAppend(front, Flatten(turns));
  }

  // Cutting into prefix and turns loses nothing.
  lemma ConversationLossless(ms: seq<Message>)
    ensures Prefix(ms) + Flatten(Conversation(ms)) == ms
    ensures NoUser(Prefix(ms)) && AreTurns(Conversation(ms))
  {
    var n := FirstUser(ms);
    var tail := ms[n..];
    FirstUserSplits(ms);
    assert tail != [] ==> tail[0] == ms[n];
    TurnsAreTurns(tail);
    assert ms[..n] + tail == ms;
  }

  // ----- what the loop achieves -----

  lemma {:induction false} KeptTurnsLongest(used: nat, turns: seq<seq<Message>>, budget: nat) returns (k: nat)
    requires turns != []
    ensures k < |turns| && KeptTurns(used, turns, budget) == turns[k..]
    ensures k == |turns| - 1 || used + Tokens(Flatten(turns[k..])) <= budget
    ensures forall j :: 0 <= j < k ==> used + Tokens(Flatten(turns[j..])) > budget
  {
    assert turns[0..] == turns;
    if |turns| <= 1 || used + Tokens(Flatten(turns)) <= budget {
      k := 0;
    } else {
      var rest := turns[1..];
      k := KeptTurnsLongest(used, rest, budget);
      assert rest[k..] == turns[k + 1..];
      forall j | 0 < j <= k ensures used + Tokens(Flatten(turns[j..])) > budget {
        assert rest[j - 1..] == turns[j..];
      }
      k := k + 1;
    }
  }

  /** The pre-conversation prefix and the longest fitting run of latest turns are kept, never less
      than the last turn. */
  lemma TrimTurnsOptimal(ms: seq<Message>, budget: nat) returns (k: nat)
    requires Conversation(ms) != []
    ensures k < |Conversation(ms)|
    ensures TrimTurns(ms, budget) == Prefix(ms) + Flatten(Conversation(ms)[k..])
    ensures k == |Conversation(ms)| - 1 || Tokens(TrimTurns(ms, budget)) <= budget
    ensures forall j :: 0 <= j < k ==> Tokens(Prefix(ms) + Flatten(Conversation(ms)[j..])) > budget
  {
    var turns := Conversation(ms);
    k := KeptTurnsLongest(Tokens(Prefix(ms)), turns, budget);
    forall j | 0 <= j <= k
      ensures Tokens(Prefix(ms) + Flatten(turns[j..])) == Tokens(Prefix(ms)) + Tokens(Flatten(turns[j..]))
    {
      TokensAppend(Prefix(ms), Flatten(turns[j..]));
    }
  }

  lemma {:induction false} KeptTurnsWellFormed(used: nat, turns: seq<seq<Message>>, budget: nat)
    requires WellFormed(Flatten(turns))
    requires AreTurns(turns)
    ensures WellFormed(Flatten(KeptTurns(used, turns, budget)))
  {
    if |turns| > 1 {
      var rest := turns[1..];
      FlattenStart(rest);
      WellFormedSplit(turns[0], Flatten(rest));
      KeptTurnsWellFormed(used, rest, budget);
    }
  }

  lemma TrimTurnsWellFormed(ms: seq<Message>, budget: nat)
    requires WellFormed(ms)
    ensures WellFormed(TrimTurns(ms, budget))
  {
    ConversationLossless(ms);
    var front, turns := Prefix(ms), Conversation(ms);
    FlattenStart(turns);
    WellFormedSplit(front, Flatten(turns));
    KeptTurnsWellFormed(Tokens(front), turns, budget);
    WellFormedAppend(front, Flatten(KeptTurns(Tokens(front), turns, budget)));
  }
}
