/** The context planner of agent/context/planner.py: full history when it fits, otherwise a compaction
    record plus a raw tail. */
module ContextPlanner {
  import opened Options
  import opened Messages
  import opened Sanitiser
  import opened Turns
  import opened Compaction
  import opened TailSelection
  import opened CompactionRun

  datatype CompactionConfig = CompactionConfig(
    enabled: bool, triggerRatio: real, recentKeepRatio: real, postMaxRatio: real,
    backgroundTriggerRatio: real, minRecentTurns: nat)

  predicate IsRatio(r: real) {
    0.0 <= r <= 1.0
  }

  // What loading a configuration accepts (agent/context/config.py).
  predicate ValidConfig(c: CompactionConfig) {
    && IsRatio(c.triggerRatio) && IsRatio(c.recentKeepRatio) && IsRatio(c.postMaxRatio)
    && IsRatio(c.backgroundTriggerRatio)
    && c.recentKeepRatio < c.triggerRatio && c.postMaxRatio < c.triggerRatio
    && c.recentKeepRatio <= c.postMaxRatio
    && c.postMaxRatio < c.backgroundTriggerRatio < c.triggerRatio
  }

  // The share of the limit a ratio stands for, at least 1.
  function Watermark(limit: nat, ratio: real): nat {
    var share := (limit as real * ratio).Floor;
    if share > 1 then share else 1
  }

  /** Room for the raw tail once the summary's reserve is set aside, and that reserve. `summary` is the
      cost of the current record's evidence message. */
  function PlannedRecentBudget(recentBudget: nat, postMax: nat, fixedTokens: nat, summary: Option<nat>): (nat, nat) {
    var grown := if summary.Some? then (summary.value * 6 + 4) / 5 else 0;
    var reserve := if grown > recentBudget then grown else recentBudget;
    var available := if postMax > fixedTokens + reserve then postMax - fixedTokens - reserve else 0;
    (if recentBudget < available then recentBudget else available, reserve)
  }

  lemma WatermarkMonotone(limit: nat, a: real, b: real)
    requires a <= b
    ensures Watermark(limit, a) <= Watermark(limit, b)
  {
    assert limit as real * (b - a) >= 0.0;
    assert limit as real * b == limit as real * a + limit as real * (b - a);
  }

  /** A tail within a positive planned budget and a summary within its reserve keep the base state
      under the low watermark, and so under the trigger. */
  lemma LowWatermark(c: CompactionConfig, limit: nat, fixed: seq<Message>, definitions: string,
                     previous: Option<nat>, evidence: Message, recent: seq<TurnGroup>, cap: nat)
    requires ValidConfig(c)
    requires var (budget, reserve) := PlannedRecentBudget(
      Watermark(limit, c.recentKeepRatio), Watermark(limit, c.postMaxRatio),
      Tokens(fixed) + TextTokens(definitions), previous);
      0 < budget && TurnCost(recent, cap) <= budget && MessageTokens(evidence) <= reserve
    ensures BaseTokens(fixed, evidence, recent, cap, definitions) <= Watermark(limit, c.postMaxRatio)
    ensures BaseTokens(fixed, evidence, recent, cap, definitions) <= Watermark(limit, c.triggerRatio)
  {
    WatermarkMonotone(limit, c.postMaxRatio, c.triggerRatio);
  }

  // Everything one plan is made from. `history` is the evidence message of a session history query.
  datatype Request = Request(
    session: string, turns: seq<TurnGroup>, system: Message, user: Message, history: Option<Message>,
    definitions: string, limit: nat, cap: nat, config: CompactionConfig, hits: set<string>)
  {
    function Fixed(): (r: seq<Message>)
      ensures r != [] && r[0] == system
    {
      [system] + (if history.Some? then [history.value] else []) + [user]
    }

    function Trigger(): nat {
      Watermark(limit, config.triggerRatio)
    }
  }

  function Evidence(record: CompactionRecord): Message {
    Plain(System, record.evidence)
  }

  ghost function Base(r: Request, record: CompactionRecord, recent: seq<TurnGroup>): nat {
    BaseTokens(r.Fixed(), Evidence(record), recent, r.cap, r.definitions)
  }

  // The raw tail is a run of latest turns.
  predicate IsTail(recent: seq<TurnGroup>, turns: seq<TurnGroup>) {
    |recent| <= |turns| && recent == Latest(turns, |recent|)
  }

  // Every turn in front of the tail is covered by the record.
  predicate NoGap(record: Option<CompactionRecord>, recent: seq<TurnGroup>, turns: seq<TurnGroup>) {
    IsTail(recent, turns) && CoversUpTo(record, turns, |turns| - |recent|)
  }

  /** Read turn by turn: covered by the record, or kept raw in the tail. */
  lemma {:induction false} NoGapMeans(record: Option<CompactionRecord>, recent: seq<TurnGroup>, turns: seq<TurnGroup>,
                                      i: nat)
    requires Increasing(turns) && NoGap(record, recent, turns) && i < |turns|
    ensures (record.Some? && turns[i].turnIndex <= record.value.endIndex) || turns[i] in recent
  {
    var n := |turns| - |recent|;
    if i < n {
      assert turns[i].turnIndex <= turns[n - 1].turnIndex;
    } else {
      assert recent[i - n] == turns[i];
    }
  }

  // ----- phases of planning -----

  // The stored records, when there is a store.
  function RecordsOf(store: CompactionStore?): Option<map<string, CompactionRecord>>
    reads if store == null then {} else {store}
  {
    if store == null then None else Some(store.records)
  }

  // The record of the session that is used: the stored one, if it still represents the turns.
  function Loaded(r: Request, records: Option<map<string, CompactionRecord>>): Option<CompactionRecord> {
    if records.Some? && r.config.enabled && r.session in records.value && Valid(records.value[r.session], r.turns)
    then Some(records.value[r.session])
    else None
  }

  // An outdated record is deleted.
  function AfterLoad(r: Request, records: map<string, CompactionRecord>): map<string, CompactionRecord> {
    if r.config.enabled && Loaded(r, Some(records)).None? then records - {r.session} else records
  }

  // What the store holds after a plan with this record.
  function StoredWith(r: Request, records: map<string, CompactionRecord>, record: Option<CompactionRecord>)
    : map<string, CompactionRecord>
  {
    Saved(AfterLoad(r, records), r.session, Loaded(r, Some(records)), record)
  }

  // The stored record, when it still represents the turns; an outdated one is deleted.
  method LoadRecord(r: Request, store: CompactionStore?) returns (record: Option<CompactionRecord>)
    modifies (if store == null then {} else {store})
    ensures record == Loaded(r, old(RecordsOf(store))) && GoodRecord(record, r.turns)
    ensures store != null ==> store.records == AfterLoad(r, old(store.records))
    ensures store != null && r.config.enabled && record.None? ==> r.session !in store.records
  {
    record := None;
    if store != null && r.config.enabled {
      record := store.Load(r.session);
      if record.Some? && !ValidateCompaction(record.value, UpTo(r.turns, record.value.endIndex)) {
        store.Delete(r.session);
        record := None;
      }
    }
  }

  // Whether the record and everything after it fit under the trigger as they are.
  method CanReuse(r: Request, record: CompactionRecord) returns (reuse: bool, tail: seq<TurnGroup>)
    ensures tail == After(r.turns, record.endIndex)
    ensures reuse <==> Base(r, record, tail) <= r.Trigger()
  {
    tail := After(r.turns, record.endIndex);
    var messages := HistoryToLlmDicts(History(tail), r.cap);
    var middle := if r.history.Some? then [r.history.value] else [];
    var front := [r.system, Evidence(record)] + middle;
    var tokens := EstimateLlmTokens(front + messages + [r.user], r.definitions);
    UserLast(front, messages, r.user);
    assert [r.Fixed()[0], Evidence(record)] + r.Fixed()[1..] == front + [r.user];
    BaseTokensSum(r.Fixed(), Evidence(record), messages, r.definitions);
    reuse := tokens <= r.Trigger();
  }

  // The order of the user message and the tail does not matter for the cost.
  lemma UserLast(front: seq<Message>, tail: seq<Message>, user: Message)
    ensures Tokens(front + tail + [user]) == Tokens(front + [user] + tail)
  {
    TokensAppend(front + tail, [user]);
    TokensAppend(front, tail);
    TokensAppend(front, [user]);
    TokensAppend(front + [user], tail);
  }

  // What comes after the last turn the record covers leaves no gap.
  lemma {:induction false} ReusedTail(record: CompactionRecord, turns: seq<TurnGroup>, n: nat)
    requires n <= |turns| && (n > 0 ==> turns[n - 1].turnIndex <= record.endIndex)
    ensures NoGap(Some(record), turns[n..], turns)
  {}

  // A shorter tail of a tail is a tail, and a record that covers everything before it leaves no gap.
  lemma LatestOfLatest(turns: seq<TurnGroup>, recent: seq<TurnGroup>, fitted: seq<TurnGroup>)
    requires IsTail(recent, turns) && IsTail(fitted, recent)
    ensures IsTail(fitted, turns)
  {}

  lemma {:induction false} StillNoGap(record: Option<CompactionRecord>, extended: Option<CompactionRecord>,
                                      recent: seq<TurnGroup>, turns: seq<TurnGroup>)
    requires NoGap(record, recent, turns) && Extends(extended, record, turns)
    ensures NoGap(extended, recent, turns)
  {}

  lemma SaveTwice(records: map<string, CompactionRecord>, session: string, first: Option<CompactionRecord>,
                  second: Option<CompactionRecord>, third: Option<CompactionRecord>, turns: seq<TurnGroup>)
    requires Extends(second, first, turns) && Extends(third, second, turns)
    ensures Extends(third, first, turns)
    ensures Saved(Saved(records, session, first, second), session, second, third) == Saved(records, session, first, third)
  {}

  // The longest run of latest turns of `recent` that fits under the trigger next to the record, or none.
  ghost predicate LongestFit(r: Request, record: CompactionRecord, recent: seq<TurnGroup>, tail: seq<TurnGroup>) {
    && IsTail(tail, recent) && (tail == [] || Base(r, record, tail) <= r.Trigger())
    && LongerAreOver(recent, |tail|, r.Trigger() - FrameTokens(r.Fixed(), Evidence(record), r.definitions), r.cap)
  }

  // Over the trigger the fitted tail is strictly shorter: the source's equal-length exit is never taken.
  method ShorterTail(r: Request, record: CompactionRecord, recent: seq<TurnGroup>) returns (tail: seq<TurnGroup>)
    requires IsTail(recent, r.turns) && recent != [] && Base(r, record, recent) > r.Trigger()
    ensures IsTail(tail, r.turns) && |tail| < |recent| && LongestFit(r, record, recent, tail)
  {
    tail := FitRecentAfterCompaction(recent, r.Fixed(), Evidence(record), r.Trigger(), r.cap, r.definitions);
    LatestOfLatest(r.turns, recent, tail);
  }

  // The record with the first `n` turns covered, unless a call fails.
  method CoverUpTo(r: Request, n: nat, record: Option<CompactionRecord>, store: CompactionStore, replies: Replies,
                   calls: nat)
    returns (extended: Option<CompactionRecord>, ok: bool, next: nat)
    requires Increasing(r.turns) && n <= |r.turns| && GoodRecord(record, r.turns)
    modifies store
    ensures Extends(extended, record, r.turns) && (ok ==> CoversUpTo(extended, r.turns, n))
    ensures CallsJustify(ok, replies, calls, next)
    ensures store.records == Saved(old(store.records), r.session, record, extended)
  {
    var sent;
    extended, ok, next, sent := CompactThrough(r.session, r.turns, n, record, store, replies, calls);
  }

  // The record with everything in front of the tail covered, unless a call fails.
  method CoverBefore(r: Request, record: CompactionRecord, tail: seq<TurnGroup>, store: CompactionStore,
                     replies: Replies, calls: nat)
    returns (extended: CompactionRecord, ok: bool, next: nat)
    requires Increasing(r.turns) && Valid(record, r.turns) && IsTail(tail, r.turns)
    modifies store
    ensures Extends(Some(extended), Some(record), r.turns) && (ok ==> NoGap(Some(extended), tail, r.turns))
    ensures CallsJustify(ok, replies, calls, next)
    ensures store.records == Saved(old(store.records), r.session, Some(record), Some(extended))
  {
    var more;
    more, ok, next := CoverUpTo(r, |r.turns| - |tail|, Some(record), store, replies, calls);
    extended := more.value;
  }

  // One round of the expansion loop: a shorter tail, and coverage of what left it. When a call fails
  // the tail stays as it was.
  method ExpandOnce(r: Request, record: CompactionRecord, recent: seq<TurnGroup>,
                    store: CompactionStore, replies: Replies, calls: nat)
    returns (extended: CompactionRecord, tail: seq<TurnGroup>, ok: bool, next: nat)
    requires Increasing(r.turns) && Valid(record, r.turns) && IsTail(recent, r.turns)
    requires recent != [] && Base(r, record, recent) > r.Trigger()
    modifies store
    ensures Extends(Some(extended), Some(record), r.turns) && IsTail(tail, r.turns)
    ensures if ok then |tail| < |recent| && LongestFit(r, record, recent, tail) && NoGap(Some(extended), tail, r.turns)
            else tail == recent
    ensures CallsJustify(ok, replies, calls, next)
    ensures store.records == Saved(old(store.records), r.session, Some(record), Some(extended))
  {
    tail := ShorterTail(r, record, recent);
    extended, ok, next := CoverBefore(r, record, tail, store, replies, calls);
    if !ok {
      tail := recent;
    }
  }

  // A round of the expansion loop made this tail the longest one that fits next to the record of that round.
  ghost predicate FittedOnce(r: Request, record: CompactionRecord, tail: seq<TurnGroup>) {
    exists before: CompactionRecord, longer: seq<TurnGroup> ::
      Extends(Some(before), Some(record), r.turns) && |tail| < |longer| && Base(r, before, longer) > r.Trigger()
      && LongestFit(r, before, longer, tail)
  }

  // What the expansion loop has made of the record and the tail it started with.
  ghost predicate Expanded(r: Request, record: CompactionRecord, recent: seq<TurnGroup>,
                           extended: CompactionRecord, tail: seq<TurnGroup>)
  {
    && Extends(Some(extended), Some(record), r.turns) && IsTail(tail, r.turns)
    && (NoGap(Some(record), recent, r.turns) ==> NoGap(Some(extended), tail, r.turns))
    && ((extended == record && tail == recent) || Base(r, record, recent) > r.Trigger())
    && (tail == recent || FittedOnce(r, record, tail))
  }

  lemma {:induction false} ExpandedStep(r: Request, record: CompactionRecord, recent: seq<TurnGroup>,
                     before: CompactionRecord, tail: seq<TurnGroup>,
                     after: CompactionRecord, shorter: seq<TurnGroup>, ok: bool)
    requires Expanded(r, record, recent, before, tail) && Base(r, before, tail) > r.Trigger()
    requires Extends(Some(after), Some(before), r.turns) && IsTail(shorter, r.turns)
    requires if ok then |shorter| < |tail| && LongestFit(r, before, tail, shorter) && NoGap(Some(after), shorter, r.turns)
             else shorter == tail
    ensures Expanded(r, record, recent, after, shorter)
  {
    if NoGap(Some(record), recent, r.turns) && !ok {
      StillNoGap(Some(before), Some(after), tail, r.turns);
    }
  }

  /** While the fresh base state exceeds the trigger, shorten the raw tail and compact what leaves it.
      The loop ends with a base state under the trigger, an empty tail, or a failed call. */
  method ExpandCoverage(r: Request, record: CompactionRecord, recent: seq<TurnGroup>,
                        store: CompactionStore, replies: Replies, calls: nat)
    returns (extended: CompactionRecord, tail: seq<TurnGroup>, ok: bool, next: nat)
    requires Increasing(r.turns) && Valid(record, r.turns) && IsTail(recent, r.turns)
    modifies store
    ensures Expanded(r, record, recent, extended, tail)
    ensures CallsJustify(ok, replies, calls, next)
    ensures ok ==> tail == [] || Base(r, extended, tail) <= r.Trigger()
    ensures store.records == Saved(old(store.records), r.session, Some(record), Some(extended))
  {
    extended, tail, ok, next := record, recent, true, calls;
    while ok
      invariant Expanded(r, record, recent, extended, tail) && CallsJustify(ok, replies, calls, next)
      invariant store.records == Saved(old(store.records), r.session, Some(record), Some(extended))
      decreases ok, |tail|
    {
      var tokens := CompactedBaseTokens(tail, r.Fixed(), Evidence(extended), r.cap, r.definitions);
      if tokens <= r.Trigger() || tail == [] {
        return;
      }
      ghost var before, longer, middle := extended, tail, next;
      extended, tail, ok, next := ExpandOnce(r, extended, tail, store, replies, next);
      JustifyOnward(ok, replies, calls, middle, next);
      ExpandedStep(r, record, recent, before, longer, extended, tail, ok);
      SaveTwice(old(store.records), r.session, Some(record), Some(before), Some(extended), r.turns);
    }
  }

  // ----- the whole plan -----

  // `compactionFailed`: some compactor call failed. `firstFailed`: already the first pass over the old turns did.
  datatype Plan = Plan(
    messages: seq<Message>, recent: seq<TurnGroup>, retrieved: seq<TurnGroup>,
    record: Option<CompactionRecord>, compactionFailed: bool, firstFailed: bool)

  // The turns retrieval may add: old ones only, in order.
  function Retrieved(older: seq<TurnGroup>, hits: set<string>): seq<TurnGroup> {
    if older == [] then []
    else (if older[0].turnId in hits then [older[0]] else []) + Retrieved(older[1..], hits)
  }

  // System message, record, history evidence, retrieved turns, raw tail, current user message.
  ghost function PlanMessages(r: Request, record: Option<CompactionRecord>,
                              retrieved: seq<TurnGroup>, recent: seq<TurnGroup>): seq<Message>
  {
    [r.system]
    + (if record.Some? then [Evidence(record.value)] else [])
    + (if r.history.Some? then [r.history.value] else [])
    + Sanitise(History(retrieved), r.cap)
    + Sanitise(History(recent), r.cap)
    + [r.user]
  }

  method Assemble(r: Request, record: Option<CompactionRecord>, recent: seq<TurnGroup>)
    returns (messages: seq<Message>, retrieved: seq<TurnGroup>)
    requires |recent| <= |r.turns|
    ensures retrieved == Retrieved(r.turns[..|r.turns| - |recent|], r.hits)
    ensures messages == PlanMessages(r, record, retrieved, recent)
  {
    retrieved := Retrieved(r.turns[..|r.turns| - |recent|], r.hits);
    var older := HistoryToLlmDicts(History(retrieved), r.cap);
    var tail := HistoryToLlmDicts(History(recent), r.cap);
    messages := [r.system]
      + (if record.Some? then [Evidence(record.value)] else [])
      + (if r.history.Some? then [r.history.value] else [])
      + older + tail + [r.user];
  }

  function FixedTokens(r: Request): nat {
    Tokens(r.Fixed()) + TextTokens(r.definitions)
  }

  // The share of the raw tail and the reserve of the summary.
  function Planned(r: Request, record: Option<CompactionRecord>): (nat, nat) {
    PlannedRecentBudget(Watermark(r.limit, r.config.recentKeepRatio), Watermark(r.limit, r.config.postMaxRatio),
                        FixedTokens(r), if record.Some? then Some(MessageTokens(Evidence(record.value))) else None)
  }

  // Tokens for the raw tail: the planned share, or whatever is left when nothing can be compacted.
  function TailBudget(r: Request, record: Option<CompactionRecord>, available: bool): nat {
    if available then Planned(r, record).0
    else if r.limit > FixedTokens(r) + 1 then r.limit - FixedTokens(r) else 1
  }

  // The tail is within a positive share, and the summary that was made within its reserve.
  ghost predicate WithinPlan(r: Request, record: Option<CompactionRecord>, made: CompactionRecord,
                             chosen: seq<TurnGroup>)
  {
    var (budget, reserve) := Planned(r, record);
    ValidConfig(r.config) && 0 < budget && TurnCost(chosen, r.cap) <= budget && MessageTokens(Evidence(made)) <= reserve
  }

  lemma WithinPlanFits(r: Request, record: Option<CompactionRecord>, made: CompactionRecord, chosen: seq<TurnGroup>)
    requires WithinPlan(r, record, made, chosen)
    ensures Base(r, made, chosen) <= r.Trigger()
  {
    LowWatermark(r.config, r.limit, r.Fixed(), r.definitions,
                 if record.Some? then Some(MessageTokens(Evidence(record.value))) else None,
                 Evidence(made), chosen, r.cap);
  }

  // Then the expansion loop has nothing to do.
  lemma NoExpansion(r: Request, record: Option<CompactionRecord>, made: CompactionRecord, chosen: seq<TurnGroup>,
                    extended: CompactionRecord, tail: seq<TurnGroup>)
    requires WithinPlan(r, record, made, chosen) && Expanded(r, made, chosen, extended, tail)
    ensures extended == made && tail == chosen
  {
    WithinPlanFits(r, record, made, chosen);
  }

  // The longest run of latest turns within a budget, or one turn when not even the last fits.
  ghost predicate LongestTail(recent: seq<TurnGroup>, r: Request, budget: nat) {
    && IsTail(recent, r.turns)
    && (TurnCost(recent, r.cap) <= budget || (|recent| == 1 && r.config.minRecentTurns > 0))
    && LongerAreOver(r.turns, |recent|, budget, r.cap)
  }

  // The model is only asked when the record ends before the last of the `n` turns.
  method CoverMissing(r: Request, n: nat, record: Option<CompactionRecord>, store: CompactionStore, replies: Replies)
    returns (extended: Option<CompactionRecord>, ok: bool, calls: nat)
    requires Increasing(r.turns) && n <= |r.turns| && GoodRecord(record, r.turns)
    modifies store
    ensures Extends(extended, record, r.turns) && (ok ==> CoversUpTo(extended, r.turns, n))
    ensures CallsJustify(ok, replies, 0, calls)
    ensures store.records == Saved(old(store.records), r.session, record, extended)
  {
    extended, ok, calls := record, true, 0;
    if n > 0 && (record.None? || record.value.endIndex < r.turns[n - 1].turnIndex) {
      extended, ok, calls := CoverUpTo(r, n, record, store, replies, 0);
    }
  }

  // The first pass: compact every old turn the record does not cover yet.
  method CoverOldTurns(r: Request, record: Option<CompactionRecord>, recent: seq<TurnGroup>,
                       store: CompactionStore, replies: Replies)
    returns (extended: Option<CompactionRecord>, ok: bool, calls: nat)
    requires Increasing(r.turns) && GoodRecord(record, r.turns) && IsTail(recent, r.turns)
    modifies store
    ensures Extends(extended, record, r.turns)
    ensures ok ==> NoGap(extended, recent, r.turns)
    ensures CallsJustify(ok, replies, 0, calls)
    ensures store.records == Saved(old(store.records), r.session, record, extended)
  {
    extended, ok, calls := CoverMissing(r, |r.turns| - |recent|, record, store, replies);
  }

  // What a plan guarantees about its record and tail.
  ghost predicate GoodPlan(r: Request, record: Option<CompactionRecord>, recent: seq<TurnGroup>,
                           failed: bool, firstFailed: bool)
  {
    && GoodRecord(record, r.turns) && IsTail(recent, r.turns)
    && (firstFailed ==> failed) && (!firstFailed ==> NoGap(record, recent, r.turns))
    && (record.Some? && !failed ==> recent == [] || Base(r, record.value, recent) <= r.Trigger())
  }

  // The tail was chosen as the longest within its budget, the old turns were covered by `made`, and expansion did the rest.
  ghost predicate FromChosen(r: Request, record: Option<CompactionRecord>, extended: Option<CompactionRecord>,
                             recent: seq<TurnGroup>, made: Option<CompactionRecord>, chosen: seq<TurnGroup>)
  {
    && LongestTail(chosen, r, TailBudget(r, record, true)) && Extends(made, record, r.turns)
    && (made.None? ==> extended.None? && recent == chosen)
    && (made.Some? ==> extended.Some? && Expanded(r, made.value, chosen, extended.value, recent))
  }

  // Choosing a fresh tail, covering the old turns, and expanding the coverage while over the trigger.
  // `made` and `chosen` are record and tail before the expansion, which does not happen when they are within the plan.
  method PlanFresh(r: Request, record: Option<CompactionRecord>, store: CompactionStore, replies: Replies)
    returns (extended: Option<CompactionRecord>, recent: seq<TurnGroup>, failed: bool, firstFailed: bool, next: nat,
             ghost made: Option<CompactionRecord>, ghost chosen: seq<TurnGroup>)
    requires Increasing(r.turns) && GoodRecord(record, r.turns)
    modifies store
    ensures GoodPlan(r, extended, recent, failed, firstFailed)
    ensures failed <==> !NoFailure(replies, 0, next)
    ensures FromChosen(r, record, extended, recent, made, chosen)
    ensures made.Some? && WithinPlan(r, record, made.value, chosen) ==> extended == made && recent == chosen
    ensures Extends(extended, record, r.turns)
    ensures store.records == Saved(old(store.records), r.session, record, extended)
  {
    recent := SelectRecentTurns(r.turns, TailBudget(r, record, true), r.config.minRecentTurns, r.cap);
    chosen := recent;
    var covered;
    extended, covered, next := CoverOldTurns(r, record, recent, store, replies);
    firstFailed, failed, made := !covered, !covered, extended;
    if extended.Some? {
      var wider, ok;
      ghost var middle := next;
      wider, recent, ok, next := ExpandCoverage(r, extended.value, recent, store, replies, next);
      CallsInARow(replies, 0, middle, next);
      SaveTwice(old(store.records), r.session, record, extended, Some(wider), r.turns);
      extended, failed := Some(wider), failed || !ok;
      if WithinPlan(r, record, made.value, chosen) {
        NoExpansion(r, record, made.value, chosen, wider, recent);
      }
    }
  }

  // The record with everything behind it raw fits under the trigger.
  ghost predicate Reusable(r: Request, record: Option<CompactionRecord>) {
    record.Some? && Base(r, record.value, After(r.turns, record.value.endIndex)) <= r.Trigger()
  }

  method TryReuse(r: Request, record: Option<CompactionRecord>) returns (reuse: bool, recent: seq<TurnGroup>)
    requires Increasing(r.turns) && GoodRecord(record, r.turns)
    ensures reuse <==> Reusable(r, record)
    ensures reuse ==> recent == After(r.turns, record.value.endIndex) && GoodPlan(r, record, recent, false, false)
  {
    reuse, recent := false, [];
    if record.Some? {
      reuse, recent := CanReuse(r, record.value);
      CutSplits(r.turns, record.value.endIndex);
      CutBounds(r.turns, record.value.endIndex);
      ReusedTail(record.value, r.turns, Cut(r.turns, record.value.endIndex));
    }
  }

  // Compaction is available when it is enabled, there is a store, and there is a model with a prompt.
  predicate CanCompact(r: Request, records: Option<map<string, CompactionRecord>>, modelReady: bool) {
    r.config.enabled && records.Some? && modelReady
  }

  // Record and tail of the plan on its three paths: the loaded record as it is, a fresh choice with coverage of
  // everything before it, or, where nothing can be compacted, the loaded record and the longest tail that fits.
  ghost predicate ByPath(r: Request, loaded: Option<CompactionRecord>, available: bool,
                         record: Option<CompactionRecord>, recent: seq<TurnGroup>, calls: nat)
  {
    if Reusable(r, loaded) then record == loaded && recent == After(r.turns, loaded.value.endIndex) && calls == 0
    else if available then exists made: Option<CompactionRecord>, chosen: seq<TurnGroup> ::
                             FromChosen(r, loaded, record, recent, made, chosen)
    else record == loaded && LongestTail(recent, r, TailBudget(r, loaded, false)) && calls == 0
  }

  // What holds of record and tail on every path; `calls` calls of the model were made.
  ghost predicate Chosen(r: Request, loaded: Option<CompactionRecord>, available: bool, replies: Replies,
                         record: Option<CompactionRecord>, recent: seq<TurnGroup>, failed: bool, firstFailed: bool,
                         calls: nat)
  {
    && GoodRecord(record, r.turns) && IsTail(recent, r.turns)
    && ByPath(r, loaded, available, record, recent, calls)
    && (failed <==> !NoFailure(replies, 0, calls))
    && (available ==> GoodPlan(r, record, recent, failed, firstFailed))
  }

  // Record and tail of the plan, on whichever of the three paths applies.
  method ChooseRecordAndTail(r: Request, store: CompactionStore?, replies: Replies, modelReady: bool)
    returns (record: Option<CompactionRecord>, recent: seq<TurnGroup>, failed: bool, firstFailed: bool,
             ghost calls: nat)
    requires Increasing(r.turns)
    modifies (if store == null then {} else {store})
    ensures
      var records := old(RecordsOf(store));
      Chosen(r, Loaded(r, records), CanCompact(r, records, modelReady), replies, record, recent, failed, firstFailed,
             calls)
    ensures store != null ==> store.records == StoredWith(r, old(store.records), record)
  {
    record := LoadRecord(r, store);
    var reuse;
    reuse, recent := TryReuse(r, record);
    failed, firstFailed, calls := false, false, 0;
    if reuse {
      return;
    }
    if r.config.enabled && store != null && modelReady {
      ghost var loaded := record;
      ghost var made, chosen;
      record, recent, failed, firstFailed, calls, made, chosen := PlanFresh(r, record, store, replies);
      assert FromChosen(r, loaded, record, recent, made, chosen);
    } else {
      recent := SelectRecentTurns(r.turns, TailBudget(r, record, false), r.config.minRecentTurns, r.cap);
    }
  }

  // A long plan: record and tail as chosen, the turns retrieved in front of the tail, and the messages in order.
  ghost predicate LongPlan(r: Request, loaded: Option<CompactionRecord>, available: bool, replies: Replies, plan: Plan,
                           calls: nat)
  {
    && Chosen(r, loaded, available, replies, plan.record, plan.recent, plan.compactionFailed, plan.firstFailed, calls)
    && plan.retrieved == Retrieved(r.turns[..|r.turns| - |plan.recent|], r.hits)
    && plan.messages == PlanMessages(r, plan.record, plan.retrieved, plan.recent)
  }

  // What this means for the reader of a plan: with compaction available nothing is left out unless a call has failed,
  // and no failure is reported when every call is answered.
  ghost predicate NothingLost(r: Request, available: bool, replies: Replies, plan: Plan) {
    && (available && !plan.compactionFailed ==> NoGap(plan.record, plan.recent, r.turns))
    && ((forall k: nat :: replies(k).Some?) ==> !plan.compactionFailed)
  }

  // A long plan that loses nothing.
  ghost predicate IsLong(r: Request, records: Option<map<string, CompactionRecord>>, modelReady: bool, replies: Replies,
                         plan: Plan, calls: nat)
  {
    && LongPlan(r, Loaded(r, records), CanCompact(r, records, modelReady), replies, plan, calls)
    && NothingLost(r, CanCompact(r, records, modelReady), replies, plan)
  }

  lemma ChosenIsLong(r: Request, records: Option<map<string, CompactionRecord>>, modelReady: bool, replies: Replies,
                     plan: Plan, calls: nat)
    requires Chosen(r, Loaded(r, records), CanCompact(r, records, modelReady), replies, plan.record, plan.recent,
                    plan.compactionFailed, plan.firstFailed, calls)
    requires plan.retrieved == Retrieved(r.turns[..|r.turns| - |plan.recent|], r.hits)
    requires plan.messages == PlanMessages(r, plan.record, plan.retrieved, plan.recent)
    ensures IsLong(r, records, modelReady, replies, plan, calls)
  {}

  lemma LongParts(r: Request, records: Option<map<string, CompactionRecord>>, modelReady: bool, replies: Replies,
                  plan: Plan, calls: nat)
    requires IsLong(r, records, modelReady, replies, plan, calls)
    ensures IsTail(plan.recent, r.turns)
    ensures plan.retrieved == Retrieved(r.turns[..|r.turns| - |plan.recent|], r.hits)
    ensures plan.messages == PlanMessages(r, plan.record, plan.retrieved, plan.recent)
  {}

  /** The plan for a history that does not fit: what it is made of, and that it covers every turn in front of its tail
      unless a call has failed. */
  method PlanLong(r: Request, store: CompactionStore?, replies: Replies, modelReady: bool)
    returns (plan: Plan, ghost calls: nat)
    requires Increasing(r.turns)
    modifies (if store == null then {} else {store})
    ensures IsLong(r, old(RecordsOf(store)), modelReady, replies, plan, calls)
    ensures store != null ==> store.records == StoredWith(r, old(store.records), plan.record)
  {
    ghost var records := RecordsOf(store);
    var record, recent, failed, firstFailed;
    record, recent, failed, firstFailed, calls := ChooseRecordAndTail(r, store, replies, modelReady);
    plan := PlanOf(r, record, recent, failed, firstFailed, records, modelReady, replies, calls);
  }

  // The plan with this record and tail.
  method PlanOf(r: Request, record: Option<CompactionRecord>, recent: seq<TurnGroup>, failed: bool, firstFailed: bool,
                ghost records: Option<map<string, CompactionRecord>>, ghost modelReady: bool, ghost replies: Replies,
                ghost calls: nat)
    returns (plan: Plan)
    requires Chosen(r, Loaded(r, records), CanCompact(r, records, modelReady), replies, record, recent, failed,
                    firstFailed, calls)
    ensures IsLong(r, records, modelReady, replies, plan, calls) && plan.record == record
  {
    var messages, retrieved := Assemble(r, record, recent);
    plan := Plan(messages, recent, retrieved, record, failed, firstFailed);
    ChosenIsLong(r, records, modelReady, replies, plan, calls);
  }
}
