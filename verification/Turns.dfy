/** Turn grouping and indexing of agent/core/turns.py. */
module Turns {
  import opened Options
  import opened Messages
  import opened TurnTrimming

  // An absent index (0 or none in the source) is replaced by the position of the group.
  datatype TurnGroup = TurnGroup(turnId: string, turnIndex: int, messages: seq<Message>)

  // `active` is the id of the legacy turn being extended, "" when there is none.
  datatype Grouping = Grouping(groups: seq<TurnGroup>, legacyCount: nat, active: string)

  function Digits(n: nat): string {
    if n < 10 then [(n as char) + '0'] else Digits(n / 10) + [(n % 10) as char + '0']
  }

  function LegacyId(n: nat): string {
    "legacy-turn-" + Digits(n)
  }

  // The message opens a new legacy turn.
  predicate OpensLegacy(g: Grouping, m: Message) {
    m.turnId == "" && (m.role.User? || g.active == "")
  }

  function TurnIdOf(g: Grouping, m: Message): string {
    if m.turnId != "" then m.turnId
    else if OpensLegacy(g, m) then LegacyId(g.legacyCount + 1)
    else g.active
  }

  function IndexOf(m: Message, position: nat): int {
    if m.turnIndex.Some? && m.turnIndex.value != 0 then m.turnIndex.value else position
  }

  function Add(groups: seq<TurnGroup>, id: string, m: Message): seq<TurnGroup> {
    var n := |groups|;
    if n > 0 && groups[n - 1].turnId == id
    then groups[n - 1 := groups[n - 1].(messages := groups[n - 1].messages + [m])]
    else groups + [TurnGroup(id, IndexOf(m, n + 1), [m])]
  }

  function GroupStep(g: Grouping, m: Message): Grouping {
    var id := TurnIdOf(g, m);
    Grouping(
      Add(g.groups, id, m),
      if OpensLegacy(g, m) then g.legacyCount + 1 else g.legacyCount,
      if m.turnId != "" then "" else id)
  }

  // The state after reading all messages.
  function GroupState(messages: seq<Message>): Grouping {
    if messages == [] then Grouping([], 0, "")
    else GroupStep(GroupState(messages[..|messages| - 1]), messages[|messages| - 1])
  }

  function Groups(messages: seq<Message>): seq<TurnGroup> {
    GroupState(messages).groups
  }

  method GroupMessagesByTurn(messages: seq<Message>) returns (groups: seq<TurnGroup>)
    ensures groups == Groups(messages)
  {
    groups := [];
    var legacyIndex, activeLegacyId := 0, "";
    for i := 0 to |messages|
      invariant Grouping(groups, legacyIndex, activeLegacyId) == GroupState(messages[..i])
    {
      GroupStateNext(messages, i);
      var message, turnId := messages[i], messages[i].turnId;
      if turnId == "" {
        if message.role.User? || activeLegacyId == "" {
          legacyIndex := legacyIndex + 1;
          activeLegacyId := LegacyId(legacyIndex);
        }
        turnId := activeLegacyId;
      } else {
        activeLegacyId := "";
      }
      groups := AddMessage(groups, turnId, message);
    }
    assert messages[..|messages|] == messages;
  }

  lemma GroupStateNext(messages: seq<Message>, i: nat)
    requires i < |messages|
    ensures GroupState(messages[..i + 1]) == GroupStep(GroupState(messages[..i]), messages[i])
  {
    assert messages[..i + 1][..i] == messages[..i];
  }

  // The end of the loop body: the message joins the last group or opens a new one.
  method AddMessage(groups: seq<TurnGroup>, turnId: string, message: Message) returns (after: seq<TurnGroup>)
    ensures after == Add(groups, turnId, message)
  {
    var n := |groups|;
    if n > 0 && groups[n - 1].turnId == turnId {
      after := groups[n - 1 := groups[n - 1].(messages := groups[n - 1].messages + [message])];
    } else {
      after := groups + [TurnGroup(turnId, IndexOf(message, n + 1), [message])];
    }
  }

  // ----- grouping is lossless -----

  function Bodies(groups: seq<TurnGroup>): (r: seq<seq<Message>>)
    ensures |r| == |groups| && forall i :: 0 <= i < |r| ==> r[i] == groups[i].messages
  {
    seq(|groups|, i requires 0 <= i < |groups| => groups[i].messages)
  }

  // All messages of a list of turns, in order.
  function History(groups: seq<TurnGroup>): seq<Message> {
    Flatten(Bodies(groups))
  }

  lemma HistoryAppend(a: seq<TurnGroup>, b: seq<TurnGroup>)
    ensures History(a + b) == History(a) + History(b)
  {
    assert Bodies(a + b) == Bodies(a) + Bodies(b);
    FlattenAppend(Bodies(a), Bodies(b));
  }

  lemma HistoryOfOne(g: TurnGroup)
    ensures History([g]) == g.messages
  {
    assert Bodies([g]) == [g.messages];
    assert Flatten([g.messages]) == g.messages + Flatten([]);
  }

  lemma AddHistory(groups: seq<TurnGroup>, id: string, m: Message)
    ensures History(Add(groups, id, m)) == History(groups) + [m]
  {
    var n := |groups|;
    if n > 0 && groups[n - 1].turnId == id {
      var front, last := groups[..n - 1], groups[n - 1];
      var grown := last.(messages := last.messages + [m]);
      assert groups == front + [last] && Add(groups, id, m) == front + [grown];
      HistoryAppend(front, [last]);
      HistoryAppend(front, [grown]);
      HistoryOfOne(last);
      HistoryOfOne(grown);
    } else {
      var added := TurnGroup(id, IndexOf(m, n + 1), [m]);
      HistoryAppend(groups, [added]);
      HistoryOfOne(added);
    }
  }

  /** Every message lands in exactly one group, in order; groups are never empty, neighbours differ. */
  lemma {:induction false} GroupingLossless(messages: seq<Message>)
    ensures History(Groups(messages)) == messages
    ensures forall i :: 0 <= i < |Groups(messages)| ==> Groups(messages)[i].messages != []
    ensures forall i :: 0 <= i < |Groups(messages)| - 1 ==>
      Groups(messages)[i].turnId != Groups(messages)[i + 1].turnId
  {
    if messages != [] {
      var n := |messages| - 1;
      GroupingLossless(messages[..n]);
      var before := GroupState(messages[..n]);
      AddHistory(before.groups, TurnIdOf(before, messages[n]), messages[n]);
      assert messages == messages[..n] + [messages[n]];
    }
  }

  // ----- turn indices -----

  function Larger(a: nat, b: nat): nat {
    if a < b then b else a
  }

  // The greatest positive explicit index, 0 when there is none.
  function MaxIndex(messages: seq<Message>): nat {
    if messages == [] then 0
    else
      var m := messages[0];
      Larger(if m.turnIndex.Some? && m.turnIndex.value > 0 then m.turnIndex.value else 0, MaxIndex(messages[1..]))
  }

  predicate HasUser(messages: seq<Message>) {
    exists i :: 0 <= i < |messages| && messages[i].role.User?
  }

  function UserFlag(g: TurnGroup): nat {
    if HasUser(g.messages) then 1 else 0
  }

  function UserGroups(groups: seq<TurnGroup>): nat {
    Sum(groups, UserFlag)
  }

  function NextTurnIndex(messages: seq<Message>): int {
    if MaxIndex(messages) > 0 then MaxIndex(messages) + 1 else UserGroups(Groups(messages)) + 1
  }

  predicate Increasing(groups: seq<TurnGroup>) {
    && (forall i :: 0 <= i < |groups| ==> groups[i].turnIndex > 0)
    && (forall i, j :: 0 <= i < j < |groups| ==> groups[i].turnIndex < groups[j].turnIndex)
  }

  // Turn indices are positive and strictly increasing, and the next one continues the sequence.
  predicate Indexed(messages: seq<Message>) {
    && Increasing(Groups(messages))
    && forall i :: 0 <= i < |Groups(messages)| ==> Groups(messages)[i].turnIndex < NextTurnIndex(messages)
  }

  lemma {:induction false} MaxIndexAppend(a: seq<Message>, b: seq<Message>)
    ensures MaxIndex(a + b) == Larger(MaxIndex(a), MaxIndex(b))
  {
    if a == [] {
      assert a + b == b;
    } else {
      assert (a + b)[1..] == a[1..] + b;
      MaxIndexAppend(a[1..], b);
    }
  }

  // Messages of one turn: the same id and the same index on every message.
  predicate OneTurn(turn: seq<Message>, id: string, index: int) {
    && turn != [] && id != ""
    && forall i :: 0 <= i < |turn| ==> turn[i].turnId == id && turn[i].turnIndex == Some(index)
  }

  lemma {:induction false} AppendTurnGroups(h: seq<Message>, turn: seq<Message>, id: string, index: int)
    requires OneTurn(turn, id, index) && index != 0
    requires forall i :: 0 <= i < |Groups(h)| ==> Groups(h)[i].turnId != id
    ensures Groups(h + turn) == Groups(h) + [TurnGroup(id, index, turn)]
  {
    var n := |turn| - 1;
    assert (h + turn)[..|h| + n] == h + turn[..n];
    if n == 0 {
      assert h + turn[..0] == h && turn == [turn[0]];
    } else {
      AppendTurnGroups(h, turn[..n], id, index);
      assert turn == turn[..n] + [turn[n]];
    }
  }

  /** A new turn that carries a fresh id and the next index keeps the history indexed. */
  lemma {:induction false} AppendTurnIndexed(h: seq<Message>, turn: seq<Message>, id: string)
    requires Indexed(h) && OneTurn(turn, id, NextTurnIndex(h))
    requires forall i :: 0 <= i < |Groups(h)| ==> Groups(h)[i].turnId != id
    ensures Indexed(h + turn)
    ensures Groups(h + turn) == Groups(h) + [TurnGroup(id, NextTurnIndex(h), turn)]
  {
    var index := NextTurnIndex(h);
    AppendTurnGroups(h, turn, id, index);
    MaxIndexAppend(h, turn);
    assert MaxIndex(turn) >= index;
  }

  // ----- histories without turn metadata -----

  predicate Legacy(messages: seq<Message>) {
    forall i :: 0 <= i < |messages| ==> messages[i].turnId == "" && messages[i].turnIndex == None
  }

  lemma {:induction false} DigitsInjective(a: nat, b: nat)
    requires Digits(a) == Digits(b)
    ensures a == b
  {
    var s, t := Digits(a), Digits(b);
    assert s[|s| - 1] == t[|t| - 1] && s[..|s| - 1] == t[..|t| - 1];
    if a >= 10 && b >= 10 {
      DigitsInjective(a / 10, b / 10);
    }
  }

  lemma LegacyIdInjective(a: nat, b: nat)
    requires LegacyId(a) == LegacyId(b)
    ensures a == b
  {
    var front := "legacy-turn-";
    assert LegacyId(a)[|front|..] == Digits(a) && LegacyId(b)[|front|..] == Digits(b);
    DigitsInjective(a, b);
  }

  // The k-th group of a legacy history has the k-th legacy id and index k; every group but possibly
  // the first holds the user message that opened it.
  predicate LegacyShape(g: Grouping, startsWithUser: bool) {
    && |g.groups| > 0 && g.legacyCount == |g.groups| && g.active == LegacyId(|g.groups|)
    && (forall i :: 0 <= i < |g.groups| ==>
          g.groups[i].turnId == LegacyId(i + 1) && g.groups[i].turnIndex == i + 1)
    && (HasUser(g.groups[0].messages) <==> startsWithUser)
    && (forall i :: 0 < i < |g.groups| ==> HasUser(g.groups[i].messages))
  }

  lemma HasUserSnoc(ms: seq<Message>, m: Message)
    ensures HasUser(ms + [m]) <==> HasUser(ms) || m.role.User?
  {
    var all := ms + [m];
    if HasUser(ms) {
      var i :| 0 <= i < |ms| && ms[i].role.User?;
      assert all[i].role.User?;
    }
    assert all[|ms|] == m;
  }

  lemma {:induction false} LegacyStep(g: Grouping, m: Message, startsWithUser: bool)
    requires LegacyShape(g, startsWithUser) && m.turnId == "" && m.turnIndex == None
    ensures LegacyShape(GroupStep(g, m), startsWithUser)
  {
    var n := |g.groups|;
    if m.role.User? {
      if LegacyId(n + 1) == LegacyId(n) {
        LegacyIdInjective(n + 1, n);
      }
      assert [m][0].role.User?;
    } else {
      HasUserSnoc(g.groups[n - 1].messages, m);
    }
  }

  lemma {:induction false} LegacyFirst(h: seq<Message>)
    requires Legacy(h) && |h| == 1
    ensures LegacyShape(GroupState(h), h[0].role.User?)
  {
    assert h[..0] == [];
    assert GroupState(h).groups == [TurnGroup(LegacyId(1), 1, [h[0]])];
    assert [h[0]] == [] + [h[0]];
    HasUserSnoc([], h[0]);
  }

  lemma {:induction false} LegacyGroups(h: seq<Message>)
    requires Legacy(h) && h != []
    ensures LegacyShape(GroupState(h), h[0].role.User?)
  {
    var n := |h| - 1;
    if n == 0 {
      LegacyFirst(h);
    } else {
      assert Legacy(h[..n]);
      LegacyGroups(h[..n]);
      LegacyGrows(h, GroupState(h[..n]), h[0].role.User?);
    }
  }

  lemma LegacyGrows(h: seq<Message>, before: Grouping, startsWithUser: bool)
    requires Legacy(h) && h != [] && before == GroupState(h[..|h| - 1]) && LegacyShape(before, startsWithUser)
    ensures LegacyShape(GroupState(h), startsWithUser)
  {
    LegacyStep(before, h[|h| - 1], startsWithUser);
  }

  lemma {:induction false} SumOnes<T>(xs: seq<T>, f: T -> nat)
    requires forall i :: 0 <= i < |xs| ==> f(xs[i]) == 1
    ensures Sum(xs, f) == |xs|
  {
    if xs != [] {
      SumOnes(xs[1..], f);
    }
  }

  lemma {:induction false} LegacyMaxIndex(h: seq<Message>)
    requires Legacy(h)
    ensures MaxIndex(h) == 0
  {
    if h != [] {
      LegacyMaxIndex(h[1..]);
    }
  }

  // Legacy groups are numbered by position; the next number counts those with a user message.
  lemma LegacyNextIndex(h: seq<Message>)
    requires Legacy(h) && h != []
    ensures Groups(h) != [] && forall i :: 0 <= i < |Groups(h)| ==> Groups(h)[i].turnIndex == i + 1
    ensures NextTurnIndex(h) == |Groups(h)| + if h[0].role.User? then 1 else 0
  {
    LegacyGroups(h);
    LegacyMaxIndex(h);
    var groups := Groups(h);
    LaterGroupsCount(groups);
  }

  lemma LaterGroupsCount(groups: seq<TurnGroup>)
    requires groups != [] && forall i :: 0 < i < |groups| ==> HasUser(groups[i].messages)
    ensures UserGroups(groups) == UserFlag(groups[0]) + |groups| - 1
  {
    SumOnes(groups[1..], UserFlag);
  }

  /** A history without turn metadata can be continued with a larger index exactly when it is empty or
      opens with a user message; otherwise the next index repeats the last group's. */
  lemma {:induction false} LegacyIndexedIff(h: seq<Message>)
    requires Legacy(h)
    ensures Indexed(h) <==> (h == [] || h[0].role.User?)
    ensures h != [] && !h[0].role.User? ==>
      NextTurnIndex(h) == Groups(h)[|Groups(h)| - 1].turnIndex
  {
    if h != [] {
      LegacyNextIndex(h);
      assert Groups(h)[|Groups(h)| - 1].turnIndex == |Groups(h)|;
    } else {
      assert Groups(h) == [];
    }
  }
}
