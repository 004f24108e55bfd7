/** Dropping the oldest completed tool blocks of the last turn (agent/core/context.py). */
module BlockDropping {
  import opened Messages
  import opened Sanitiser
  import opened SanitiserLaws
  import opened TurnTrimming

  function ShownId(id: CallId): string {
    match id
    case Missing => ""
    case Text(text) => text
    case NonText(shown) => shown
  }

  function AnnouncedIds(calls: seq<ToolCall>): set<string> {
    if calls == [] then {} else
    var id := ShownId(calls[0].id);
    (if id == "" then {} else {id}) + AnnouncedIds(calls[1..])
  }

  function SeenIds(results: seq<Message>): set<string> {
    if results == [] then {} else
    var n := |results| - 1;
    SeenIds(results[..n]) + (if results[n].toolCallId == "" then {} else {results[n].toolCallId})
  }

  // A caller together with its whole run of results, where the result ids are the announced ids.
  predicate Complete(part: seq<Message>) {
    && part != [] && IsCaller(part[0])
    && AnnouncedIds(part[0].calls) != {} && AnnouncedIds(part[0].calls) == SeenIds(part[1..])
  }

  // The messages of a turn, each caller joined with the results behind it.
  function Units(ms: seq<Message>): seq<seq<Message>>
    decreases |ms|
  {
    if ms == [] then [] else [ms[..UnitLength(ms)]] + Units(ms[UnitLength(ms)..])
  }

  // Positions of the units picked by `pick` when the first unit starts at `at`.
  function RangesOf(units: seq<seq<Message>>, at: nat, pick: seq<Message> -> bool): seq<(nat, nat)> {
    if units == [] then []
    else
      var end := at + |units[0]|;
      (if pick(units[0]) then [(at, end)] else []) + RangesOf(units[1..], end, pick)
  }

  function BlockRanges(units: seq<seq<Message>>, at: nat): seq<(nat, nat)> {
    RangesOf(units, at, Complete)
  }

  lemma SubSlice<T>(s: seq<T>, i: nat, n: nat, end: nat)
    requires 1 <= n && i + n <= end <= |s|
    ensures s[i..end][1..] == s[i + 1..end] && s[i..end][n..] == s[i + n..end]
    ensures s[i..end][..n][1..] == s[i + 1..i + n]
  {
    assert s[i..end][..n] == s[i..i + n];
  }

  // The range of the first unit of `rest`, when that unit is a complete block.
  function Found(rest: seq<Message>, at: nat): seq<(nat, nat)>
    requires rest != []
  {
    if Complete(rest[..UnitLength(rest)]) then [(at, at + UnitLength(rest))] else []
  }

  // One round of the outer loop: the end of the unit at `index`, and its range when it is a complete block.
  method ReadUnit(messages: seq<Message>, index: nat, end: nat) returns (next: nat, found: seq<(nat, nat)>)
    requires index < end <= |messages|
    ensures next == index + UnitLength(messages[index..end])
    ensures found == Found(messages[index..end], index)
  {
    next, found := index + 1, [];
    if IsCaller(messages[index]) {
      var seen;
      next, seen := ScanResults(messages, index + 1, end);
      SubSlice(messages, index, next - index, end);
      assert messages[index + 1..end][..next - index - 1] == messages[index + 1..next];
      var ids := AnnouncedIds(messages[index].calls);
      if ids != {} && ids == seen {
        found := [(index, next)];
      }
    }
  }

  // The inner loop: the end of the run of results, and the ids seen in it.
  method ScanResults(messages: seq<Message>, from: nat, end: nat) returns (cursor: nat, seen: set<string>)
    requires from <= end <= |messages|
    ensures cursor == from + ToolRun(messages[from..end])
    ensures seen == SeenIds(messages[from..end][..cursor - from])
  {
    cursor, seen := from, {};
    ghost var rest := messages[from..end];
    while cursor < end && messages[cursor].role.Tool?
      invariant from <= cursor <= end
      invariant forall i :: 0 <= i < cursor - from ==> rest[i].role.Tool?
      invariant seen == SeenIds(rest[..cursor - from])
    {
      SeenStep(rest, cursor - from);
      assert rest[cursor - from] == messages[cursor];
      if messages[cursor].toolCallId != "" {
        seen := seen + {messages[cursor].toolCallId};
      }
      cursor := cursor + 1;
    }
    ToolRunIs(rest, cursor - from);
  }

  lemma SeenStep(results: seq<Message>, n: nat)
    requires n < |results|
    ensures SeenIds(results[..n + 1]) ==
      SeenIds(results[..n]) + (if results[n].toolCallId == "" then {} else {results[n].toolCallId})
  {
    assert results[..n + 1][..n] == results[..n];
  }

  // ----- dropping, unit by unit -----

  function CompleteUnits(units: seq<seq<Message>>): seq<seq<Message>> {
    if units == [] then [] else (if Complete(units[0]) then [units[0]] else []) + CompleteUnits(units[1..])
  }

  function OtherUnits(units: seq<seq<Message>>): seq<seq<Message>> {
    if units == [] then [] else (if Complete(units[0]) then [] else [units[0]]) + OtherUnits(units[1..])
  }

  function RemoveOldest(units: seq<seq<Message>>): seq<seq<Message>> {
    if units == [] then []
    else if Complete(units[0]) then units[1..]
    else [units[0]] + RemoveOldest(units[1..])
  }

  // The units left when `used` tokens are already spent before the turn.
  function KeptUnits(used: nat, units: seq<seq<Message>>, budget: nat): seq<seq<Message>>
    decreases |CompleteUnits(units)|
  {
    if |CompleteUnits(units)| <= 1 || used + Tokens(Flatten(units)) <= budget then units
    else
      RemoveOldestSplits(units);
      KeptUnits(used, RemoveOldest(units), budget)
  }

  // Removing the oldest block shortens the list of complete blocks from the front and keeps the rest.
  lemma {:induction false} RemoveOldestSplits(units: seq<seq<Message>>)
    ensures OtherUnits(RemoveOldest(units)) == OtherUnits(units)
    ensures CompleteUnits(units) != [] ==> CompleteUnits(RemoveOldest(units)) == CompleteUnits(units)[1..]
    ensures CompleteUnits(units) == [] ==> RemoveOldest(units) == units
  {
    if units != [] && !Complete(units[0]) {
      RemoveOldestSplits(units[1..]);
    }
  }

  function RemoveOldestN(units: seq<seq<Message>>, n: nat): seq<seq<Message>>
    decreases n
  {
    if n == 0 then units else RemoveOldestN(RemoveOldest(units), n - 1)
  }

  /** Exactly the `k` oldest complete blocks go, for the least `k` that fits or leaves one block,
      and every other message of the turn stays in order. */
  lemma {:induction false} KeptUnitsOptimal(used: nat, units: seq<seq<Message>>, budget: nat)
    returns (k: nat, kept: seq<seq<Message>>)
    ensures kept == KeptUnits(used, units, budget) == RemoveOldestN(units, k)
    ensures OtherUnits(kept) == OtherUnits(units)
    ensures k <= |CompleteUnits(units)| && CompleteUnits(kept) == CompleteUnits(units)[k..]
    ensures used + Tokens(Flatten(kept)) <= budget || |CompleteUnits(kept)| <= 1
    ensures k > 0 ==> |CompleteUnits(kept)| >= 1
    ensures forall j: nat :: j < k ==> used + Tokens(Flatten(RemoveOldestN(units, j))) > budget
    decreases |CompleteUnits(units)|
  {
    kept := KeptUnits(used, units, budget);
    if |CompleteUnits(units)| <= 1 || used + Tokens(Flatten(units)) <= budget {
      k := 0;
    } else {
      RemoveOldestSplits(units);
      k, kept := KeptUnitsOptimal(used, RemoveOldest(units), budget);
      assert CompleteUnits(units)[1..][k..] == CompleteUnits(units)[k + 1..];
      forall j: nat | j < k + 1 ensures used + Tokens(Flatten(RemoveOldestN(units, j))) > budget {
        if j > 0 {
          assert RemoveOldestN(units, j) == RemoveOldestN(RemoveOldest(units), j - 1);
        }
      }
      k := k + 1;
    }
  }

  // ----- the index ranges name the units -----

  // A caller joined with results, or any single message.
  predicate IsUnit(part: seq<Message>) {
    && part != []
    && (if IsCaller(part[0]) then forall i :: 1 <= i < |part| ==> part[i].role.Tool? else |part| == 1)
  }

  // Reading the concatenation again gives the same units.
  predicate AreUnits(units: seq<seq<Message>>) {
    units == [] ||
    (&& IsUnit(units[0]) && AreUnits(units[1..])
     && (IsCaller(units[0][0]) ==> !StartsWithTool(Flatten(units[1..]))))
  }

  lemma FirstUnit(ms: seq<Message>)
    requires ms != []
    ensures IsUnit(ms[..UnitLength(ms)])
    ensures IsCaller(ms[0]) ==> !StartsWithTool(ms[UnitLength(ms)..])
  {
    var n := UnitLength(ms);
    forall i | 1 <= i < n ensures ms[i].role.Tool? {
      UnitTail(ms, i);
    }
    if IsCaller(ms[0]) && n < |ms| {
      assert ms[n] == ms[1..][n - 1];
    }
  }

  lemma {:induction false} UnitsLossless(ms: seq<Message>)
    ensures Flatten(Units(ms)) == ms
    decreases |ms|
  {
    if ms != [] {
      var n := UnitLength(ms);
      UnitsLossless(ms[n..]);
      assert Units(ms) == [ms[..n]] + Units(ms[n..]);
      assert ms == ms[..n] + ms[n..];
    }
  }

  lemma ConsAreUnits(part: seq<Message>, units: seq<seq<Message>>)
    requires IsUnit(part) && AreUnits(units)
    requires IsCaller(part[0]) ==> !StartsWithTool(Flatten(units))
    ensures AreUnits([part] + units)
  {
    assert ([part] + units)[1..] == units;
  }

  lemma {:induction false} UnitsAreUnits(ms: seq<Message>)
    ensures AreUnits(Units(ms))
    decreases |ms|
  {
    if ms != [] {
      var n := UnitLength(ms);
      FirstUnit(ms);
      UnitsAreUnits(ms[n..]);
      UnitsLossless(ms[n..]);
      ConsAreUnits(ms[..n], Units(ms[n..]));
    }
  }

  lemma UnitLengthOfUnit(part: seq<Message>, rest: seq<Message>)
    requires IsUnit(part) && (IsCaller(part[0]) ==> !StartsWithTool(rest))
    ensures UnitLength(part + rest) == |part|
  {
    if IsCaller(part[0]) {
      ToolRunIs(part[1..], |part| - 1);
      UnitAppend(part, rest);
    }
  }

  lemma FirstUnitOfFlatten(units: seq<seq<Message>>)
    requires units != [] && AreUnits(units)
    ensures Flatten(units) != [] && UnitLength(Flatten(units)) == |units[0]|
    ensures Flatten(units)[..|units[0]|] == units[0] && Flatten(units)[|units[0]|..] == Flatten(units[1..])
  {
    UnitLengthOfUnit(units[0], Flatten(units[1..]));
  }

  lemma {:induction false} UnitsOfFlatten(units: seq<seq<Message>>)
    requires AreUnits(units)
    ensures Units(Flatten(units)) == units
  {
    if units != [] {
      FirstUnitOfFlatten(units);
      UnitsOfFlatten(units[1..]);
    }
  }

  lemma {:induction false} RemoveOldestAreUnits(units: seq<seq<Message>>)
    requires AreUnits(units)
    ensures AreUnits(RemoveOldest(units))
    ensures !StartsWithTool(Flatten(units)) ==> !StartsWithTool(Flatten(RemoveOldest(units)))
  {
    if units != [] {
      RemoveOldestAreUnits(units[1..]);
    }
  }

  lemma CutBehindPart<T>(part: seq<T>, rest: seq<T>, from: nat, to: nat)
    requires from <= |rest| && to <= |rest|
    ensures (part + rest)[..|part| + from] == part + rest[..from] && (part + rest)[|part| + to..] == rest[to..]
  {}

  // The first range is the oldest complete block, and cutting it out removes that block.
  lemma {:induction false} CutFirstRange(units: seq<seq<Message>>, at: nat)
    requires CompleteUnits(units) != []
    ensures var ranges := BlockRanges(units, at);
      && |ranges| == |CompleteUnits(units)|
      && at <= ranges[0].0 <= ranges[0].1 <= at + |Flatten(units)|
      && Flatten(units)[..ranges[0].0 - at] + Flatten(units)[ranges[0].1 - at..] == Flatten(RemoveOldest(units))
  {
    RangeCount(units, at);
    var part, rest := units[0], units[1..];
    var end := at + |part|;
    if !Complete(part) {
      CutFirstRange(rest, end);
      var r := BlockRanges(rest, end)[0];
      CutBehindPart(part, Flatten(rest), r.0 - end, r.1 - end);
    }
  }

  lemma {:induction false} RangeCount(units: seq<seq<Message>>, at: nat)
    ensures |BlockRanges(units, at)| == |CompleteUnits(units)|
  {
    if units != [] {
      var end := at + |units[0]|;
      RangeCount(units[1..], end);
      assert BlockRanges(units, at) == (if Complete(units[0]) then [(at, end)] else []) + BlockRanges(units[1..], end);
    }
  }

  // The loop invariant: the units still to be read, and the ranges found so far.
  ghost predicate Scanned(messages: seq<Message>, index: nat, end: nat, units: seq<seq<Message>>,
                          blocks: seq<(nat, nat)>, all: seq<(nat, nat)>)
  {
    && index <= end <= |messages|
    && messages[index..end] == Flatten(units) && AreUnits(units)
    && blocks + RangesOf(units, index, Complete) == all
  }

  lemma ScannedStep(messages: seq<Message>, index: nat, end: nat, units: seq<seq<Message>>,
                    blocks: seq<(nat, nat)>, all: seq<(nat, nat)>)
    requires index < end && Scanned(messages, index, end, units, blocks, all)
    ensures units != []
    ensures var rest := messages[index..end];
      Scanned(messages, index + UnitLength(rest), end, units[1..], blocks + Found(rest, index), all)
  {
    FirstUnitOfFlatten(units);
    SubSlice(messages, index, |units[0]|, end);
    RangesStep(blocks, units, index, Complete);
  }

  lemma RangesStep(blocks: seq<(nat, nat)>, units: seq<seq<Message>>, at: nat, pick: seq<Message> -> bool)
    requires units != []
    ensures var end := at + |units[0]|;
      blocks + RangesOf(units, at, pick)
      == blocks + (if pick(units[0]) then [(at, end)] else []) + RangesOf(units[1..], end, pick)
  {}

  method CompleteToolBlockRanges(messages: seq<Message>, start: nat, end: nat) returns (blocks: seq<(nat, nat)>)
    requires start <= end <= |messages|
    ensures blocks == BlockRanges(Units(messages[start..end]), start)
  {
    blocks := [];
    var index := start;
    ghost var units := Units(messages[start..end]);
    ghost var all := BlockRanges(units, start);
    UnitsAreUnits(messages[start..end]);
    UnitsLossless(messages[start..end]);
    while index < end
      invariant Scanned(messages, index, end, units, blocks, all)
    {
      var next, found := ReadUnit(messages, index, end);
      ScannedStep(messages, index, end, units, blocks, all);
      blocks, units, index := blocks + found, units[1..], next;
    }
  }
}
