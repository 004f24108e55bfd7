/** From a stored history to the messages of one model call (agent/core/context.py, `build`). */
module ContextBuilder {
  import opened Options
  import opened Messages
  import opened Sanitiser
  import opened SanitiserLaws
  import opened TurnTrimming
  import opened ToolTruncation
  import opened ContextFitting
  import opened Turns
  import opened Compaction
  import opened CompactionRun
  import opened ContextPlanner
  import opened PromptShape

  const DEFAULT_LIMIT := 131072

  // A message that is neither a tool result nor a caller is well-formed wherever it stands.
  predicate StandsAlone(m: Message) {
    !m.role.Tool? && !IsCaller(m)
  }

  lemma AloneWellFormed(m: Message)
    requires StandsAlone(m)
    ensures WellFormed([m])
  {
    assert [m][..UnitLength([m])] == [m] && [m][UnitLength([m])..] == [];
  }

  lemma AppendAlone(ms: seq<Message>, m: Message)
    requires StandsAlone(m) && WellFormed(ms)
    ensures WellFormed(ms + [m])
  {
    AloneWellFormed(m);
    WellFormedAppend(ms, [m]);
  }

  // The messages around the history are plain system and user messages.
  predicate PlainFrame(r: Request) {
    && r.system.role.System? && r.user.role.User?
    && (r.history.Some? ==> r.history.value.role.System?)
  }

  lemma FrontWellFormed(r: Request, record: Option<CompactionRecord>)
    requires PlainFrame(r)
    ensures WellFormed([r.system] + (if record.Some? then [Evidence(record.value)] else [])
                       + (if r.history.Some? then [r.history.value] else []))
  {
    AloneWellFormed(r.system);
    if record.Some? {
      AppendAlone([r.system], Evidence(record.value));
    }
    var front := [r.system] + (if record.Some? then [Evidence(record.value)] else []);
    if r.history.Some? {
      AppendAlone(front, r.history.value);
    } else {
      assert front + [] == front;
    }
  }

  // The plan for a long history is well-formed although it concatenates separately sanitised parts.
  lemma PlanWellFormed(r: Request, record: Option<CompactionRecord>,
                       retrieved: seq<TurnGroup>, recent: seq<TurnGroup>)
    requires PlainFrame(r)
    ensures WellFormed(PlanMessages(r, record, retrieved, recent))
  {
    FrontWellFormed(r, record);
    var front := [r.system] + (if record.Some? then [Evidence(record.value)] else [])
      + (if r.history.Some? then [r.history.value] else []);
    var older, tail := Sanitise(History(retrieved), r.cap), Sanitise(History(recent), r.cap);
    SanitiseWellFormed(History(retrieved), r.cap);
    SanitiseWellFormed(History(recent), r.cap);
    WellFormedAppend(front, older);
    WellFormedAppend(front + older, tail);
    AppendAlone(front + older + tail, r.user);
  }

  // The messages of a plan that keeps the complete history.
  ghost function FullMessages(r: Request): seq<Message> {
    [r.system] + (if r.history.Some? then [r.history.value] else [])
    + Sanitise(History(r.turns), r.cap) + [r.user]
  }

  lemma FullWellFormed(r: Request)
    requires PlainFrame(r)
    ensures WellFormed(FullMessages(r))
  {
    var front := [r.system] + (if r.history.Some? then [r.history.value] else []);
    FrontWellFormed(r, None);
    assert [r.system] + [] + (if r.history.Some? then [r.history.value] else []) == front;
    SanitiseWellFormed(History(r.turns), r.cap);
    WellFormedAppend(front, Sanitise(History(r.turns), r.cap));
    AppendAlone(front + Sanitise(History(r.turns), r.cap), r.user);
  }

  // The complete history is sent when that is enabled and it fits the safe limit, if there is one.
  ghost predicate FullFits(r: Request, limit: Option<nat>, fullHistory: bool) {
    fullHistory && (limit.None? ||
      Tokens(FullMessages(r)) + TextTokens(r.definitions) <= Watermark(limit.value, r.config.triggerRatio))
  }

  // The prompt is the complete history exactly when that fits, and that of a long plan otherwise.
  ghost predicate PlannedAs(r: Request, limit: Option<nat>, fullHistory: bool,
                            records: Option<map<string, CompactionRecord>>, modelReady: bool, replies: Replies,
                            messages: seq<Message>, plan: Option<Plan>, calls: nat)
  {
    && (plan.None? <==> FullFits(r, limit, fullHistory))
    && (plan.None? ==> messages == FullMessages(r) && calls == 0)
    && (plan.Some? ==>
          messages == plan.value.messages && IsLong(r, records, modelReady, replies, plan.value, calls))
  }

  // A long plan deletes an outdated record and saves the one it uses; the complete history leaves the store alone.
  function StoredAfter(r: Request, records: map<string, CompactionRecord>, plan: Option<Plan>)
    : map<string, CompactionRecord>
  {
    if plan.None? then records
    else StoredWith(r, records, plan.value.record)
  }

  // The prompt with the complete history, and whether that may be sent.
  method TryFull(r: Request, limit: Option<nat>, fullHistory: bool) returns (fits: bool, messages: seq<Message>)
    ensures messages == FullMessages(r) && (fits <==> FullFits(r, limit, fullHistory))
  {
    var full := HistoryToLlmDicts(History(r.turns), r.cap);
    messages := [r.system] + (if r.history.Some? then [r.history.value] else []) + full + [r.user];
    var tokens := EstimateLlmTokens(messages, r.definitions);
    fits := fullHistory && (limit.None? || tokens <= Watermark(limit.value, r.config.triggerRatio));
  }

  lemma FullIsPlanned(r: Request)
    ensures Planned(r, FullMessages(r)) && (PlainFrame(r) ==> WellFormed(FullMessages(r)))
  {
    PlannedFull(r);
    if PlainFrame(r) {
      FullWellFormed(r);
    }
  }

  // A long plan and its prompt.
  method PromptLong(r: Request, store: CompactionStore?, replies: Replies, modelReady: bool)
    returns (plan: Plan, ghost calls: nat)
    requires Increasing(r.turns)
    modifies (if store == null then {} else {store})
    ensures IsLong(r, old(RecordsOf(store)), modelReady, replies, plan, calls)
    ensures store != null ==> store.records == StoredAfter(r, old(store.records), Some(plan))
    ensures Planned(r, plan.messages) && (PlainFrame(r) ==> WellFormed(plan.messages))
  {
    ghost var records := RecordsOf(store);
    plan, calls := PlanLong(r, store, replies, modelReady);
    LongPrompt(r, records, modelReady, replies, plan, calls);
  }

  /** Complete history when it fits, the long plan otherwise. `limit` is None without a budget. */
  method PlanContext(r: Request, limit: Option<nat>, fullHistory: bool,
                     store: CompactionStore?, replies: Replies, modelReady: bool)
    returns (messages: seq<Message>, plan: Option<Plan>, ghost calls: nat)
    requires Increasing(r.turns) && r.limit == (if limit.Some? then limit.value else DEFAULT_LIMIT)
    modifies (if store == null then {} else {store})
    ensures PlannedAs(r, limit, fullHistory, old(RecordsOf(store)), modelReady, replies, messages, plan, calls)
    ensures store != null ==>
      store.records == StoredAfter(r, old(store.records), plan)
    ensures PlainFrame(r) ==> WellFormed(messages)
    ensures Planned(r, messages)
  {
    var fits;
    fits, messages := TryFull(r, limit, fullHistory);
    if fits {
      FullIsPlanned(r);
      return messages, None, 0;
    }
    var long;
    long, calls := PromptLong(r, store, replies, modelReady);
    messages, plan := long.messages, Some(long);
  }

  // ----- when there is an answer -----

  // What a prompt puts in front of the history.
  function Front(r: Request, record: Option<CompactionRecord>): seq<Message> {
    [r.system] + (if record.Some? then [Evidence(record.value)] else [])
    + (if r.history.Some? then [r.history.value] else [])
  }

  // The turns a prompt may hold.
  predicate TurnsOf(turns: seq<TurnGroup>, all: seq<TurnGroup>) {
    forall i :: 0 <= i < |turns| ==> turns[i] in all
  }

  lemma {:induction false} RetrievedTurns(older: seq<TurnGroup>, hits: set<string>)
    ensures TurnsOf(Retrieved(older, hits), older)
  {
    if older != [] {
      RetrievedTurns(older[1..], hits);
      var rest := Retrieved(older[1..], hits);
      forall i | 0 <= i < |rest| ensures rest[i] in older {
        assert rest[i] in older[1..];
      }
    }
  }

  lemma TurnsOfNoStrays(turns: seq<TurnGroup>, all: seq<TurnGroup>, cap: nat)
    requires TurnsOf(turns, all) && NoStrayResults(all, cap)
    ensures NoStrayResults(turns, cap)
  {}

  // The prompt of a plan, up to the current user message.
  lemma PlanBodyHasNoStrays(r: Request, record: Option<CompactionRecord>, retrieved: seq<TurnGroup>,
                            recent: seq<TurnGroup>) returns (body: seq<Message>)
    requires PlainFrame(r) && r.user.role.User?
    requires NoStrayResults(retrieved, r.cap) && NoStrayResults(recent, r.cap)
    ensures PlanMessages(r, record, retrieved, recent) == body + [r.user]
    ensures NoCandidate(Prefix(body + [r.user]))
  {
    var older, tail := Sanitise(History(retrieved), r.cap), Sanitise(History(recent), r.cap);
    SentPrefixHasNoCandidate(retrieved, r.cap);
    SentPrefixHasNoCandidate(recent, r.cap);
    assert NoCandidate(Front(r, record));
    NoCandidatePrefix(Front(r, record));
    NoCandidateAppend(Front(r, record), older);
    NoCandidateAppend(Front(r, record) + older, tail);
    body := Front(r, record) + older + tail;
    NoCandidatePrefix([r.user]);
    NoCandidateAppend(body, [r.user]);
  }

  lemma NoCandidatePrefix(ms: seq<Message>)
    requires NoCandidate(ms)
    ensures NoCandidate(Prefix(ms))
  {}

  // The same for the complete history, which is a plan without record and retrieval.
  lemma FullIsPlan(r: Request)
    ensures FullMessages(r) == PlanMessages(r, None, [], r.turns)
  {
    assert History([]) == [];
    assert Sanitise([], r.cap) == [];
  }

  // The messages are those of a plan over turns of the request.
  ghost predicate Planned(r: Request, messages: seq<Message>) {
    exists record: Option<CompactionRecord>, retrieved: seq<TurnGroup>, recent: seq<TurnGroup> ::
      && TurnsOf(retrieved, r.turns) && TurnsOf(recent, r.turns)
      && messages == PlanMessages(r, record, retrieved, recent)
  }

  lemma PlannedFull(r: Request)
    ensures Planned(r, FullMessages(r))
  {
    FullIsPlan(r);
    assert TurnsOf([], r.turns) && TurnsOf(r.turns, r.turns);
  }

  // The prompt of a long plan.
  lemma LongPrompt(r: Request, records: Option<map<string, CompactionRecord>>, modelReady: bool, replies: Replies,
                   plan: Plan, calls: nat)
    requires IsLong(r, records, modelReady, replies, plan, calls)
    ensures Planned(r, plan.messages) && (PlainFrame(r) ==> WellFormed(plan.messages))
  {
    LongParts(r, records, modelReady, replies, plan, calls);
    PlannedLong(r, plan);
    if PlainFrame(r) {
      PlanWellFormed(r, plan.record, plan.retrieved, plan.recent);
    }
  }

  lemma PlannedLong(r: Request, plan: Plan)
    requires IsTail(plan.recent, r.turns)
    requires plan.retrieved == Retrieved(r.turns[..|r.turns| - |plan.recent|], r.hits)
    requires plan.messages == PlanMessages(r, plan.record, plan.retrieved, plan.recent)
    ensures Planned(r, plan.messages)
  {
    var older := r.turns[..|r.turns| - |plan.recent|];
    RetrievedTurns(older, r.hits);
    forall i | 0 <= i < |plan.retrieved| ensures plan.retrieved[i] in r.turns {
      assert plan.retrieved[i] in older;
    }
    assert TurnsOf(plan.recent, r.turns);
  }

  lemma PlannedFramed(r: Request, messages: seq<Message>)
    requires Planned(r, messages)
    ensures Framed(messages, r.system, r.user)
  {}

  /** The first truncation pass over a planned prompt stops exactly when it stops on what the plan puts in front of
      the first user message, with the current one behind it. */
  lemma PlannedSettlesIff(r: Request, messages: seq<Message>, available: nat)
    requires PlainFrame(r) && Framed(messages, r.system, r.user)
    ensures CanSettle(TrimTurns(messages, available), available)
       <==> CanSettle(Prefix(messages) + [r.user], available)
  {
    var body := messages[..|messages| - 1];
    assert messages == body + [r.user];
    SettlesIff(body, r.user, available);
  }

  /** It always stops when no turn of the history has a long tool result in front of its user message. */
  lemma PlannedSettles(r: Request, messages: seq<Message>, available: nat)
    requires PlainFrame(r) && Planned(r, messages) && NoStrayResults(r.turns, r.cap)
    ensures CanSettle(TrimTurns(messages, available), available)
  {
    var record: Option<CompactionRecord>, retrieved: seq<TurnGroup>, recent: seq<TurnGroup> :|
      TurnsOf(retrieved, r.turns) && TurnsOf(recent, r.turns)
      && messages == PlanMessages(r, record, retrieved, recent);
    TurnsOfNoStrays(retrieved, r.turns, r.cap);
    TurnsOfNoStrays(recent, r.turns, r.cap);
    var body := PlanBodyHasNoStrays(r, record, retrieved, recent);
    SettlesWithoutStrays(body, r.user, available);
  }

  // ----- the whole build -----

  // `RunsForever` is the outcome on which the first truncation pass never stops.
  datatype BuildResult = Sent(messages: seq<Message>) | OverBudget | RunsForever

  // A fitted prompt still opens with the system message and closes with the current user message.
  lemma FittedFramed(messages: seq<Message>, first: Message, last: Message, rounds: nat, available: nat)
    requires Framed(messages, first, last) && first.role.System? && last.role.User?
    ensures
      var trimmed := TrimTurns(messages, available);
      && Framed(Steps(trimmed, rounds), first, last)
      && DropBlocks(trimmed, available) == trimmed
  {
    var trimmed := TrimTurns(messages, available);
    TrimKeepsFrame(messages, first, last, available);
    StepsKeepFrame(trimmed, first, last, rounds);
    NothingToDrop(trimmed, first, last, available);
  }

  // What is sent are well-formed tool blocks within the budget, between the system message and the user message.
  ghost predicate GoodAnswer(r: Request, limit: Option<nat>, result: BuildResult) {
    result.Sent? ==>
      && WellFormed(result.messages) && Framed(result.messages, r.system, r.user)
      && (limit.Some? ==> Tokens(result.messages) <= Available(limit.value, r.definitions))
  }

  // There is no answer exactly when the first pass runs forever, which is when what the prompt puts in front of its
  // first user message cannot be cut to fit.
  ghost predicate EndlessExactly(r: Request, limit: Option<nat>, planned: seq<Message>, result: BuildResult) {
    && (result.RunsForever? <==>
          limit.Some? && var available := Available(limit.value, r.definitions);
                         !Halts(TrimTurns(planned, available), available))
    && (result.RunsForever? <==>
          limit.Some? && !CanSettle(Prefix(planned) + [r.user], Available(limit.value, r.definitions)))
  }

  // The messages of the prompt after as many truncation rounds as it takes.
  ghost predicate CutToFit(planned: seq<Message>, available: nat, messages: seq<Message>) {
    exists rounds: nat ::
      && RunsFor(TrimTurns(planned, available), rounds, available)
      && Tokens(Steps(TrimTurns(planned, available), rounds)) <= available
      && messages == Steps(TrimTurns(planned, available), rounds)
  }

  // What the answer within a budget is, read off the planned prompt: the prompt itself when it fits, otherwise the
  // trimmed and truncated prompt, or an error exactly when what precedes the first user message holds nothing that
  // could be shortened and is too much already.
  ghost predicate AnswerWithin(planned: seq<Message>, user: Message, available: nat, result: BuildResult) {
    var frame := Prefix(planned) + [user];
    && (result.OverBudget? <==> NoCandidate(frame) && Tokens(frame) > available)
    && (Tokens(planned) <= available ==> result == Sent(planned))
    && (result.Sent? ==> CutToFit(planned, available, result.messages))
  }

  // Without a limit the planned prompt is sent.
  ghost predicate AnswerOf(r: Request, limit: Option<nat>, planned: seq<Message>, result: BuildResult) {
    if limit.None? then result == Sent(planned)
    else AnswerWithin(planned, r.user, Available(limit.value, r.definitions), result)
  }

  // Trimming a prompt that fits does nothing, and neither does truncating it.
  lemma {:induction false} FitsAsItIs(planned: seq<Message>, rounds: nat, available: nat)
    requires Tokens(planned) <= available && RunsFor(TrimTurns(planned, available), rounds, available)
    ensures Steps(TrimTurns(planned, available), rounds) == planned
  {
    var turns := Conversation(planned);
    ConversationLossless(planned);
    TokensAppend(Prefix(planned), Flatten(turns));
    assert KeptTurns(Tokens(Prefix(planned)), turns, available) == turns;
    NoRounds(planned, rounds, available);
  }

  lemma NothingToShorten(ms: seq<Message>, available: nat)
    requires NoCandidate(ms)
    ensures LongestTool(ms).None? && CanSettle(ms, available)
  {}

  // A prompt whose last turn is the user message has no blocks to drop, so it is fitted or refused as it is truncated.
  lemma {:induction false} NoBlocks(planned: seq<Message>, first: Message, user: Message, rounds: nat, available: nat)
    requires Framed(planned, first, user) && first.role.System? && user.role.User?
    ensures
      var trimmed := TrimTurns(planned, available);
      Outcome(trimmed, rounds, available)
      == if Tokens(Steps(trimmed, rounds)) <= available then Fitted(Steps(trimmed, rounds)) else ContextBudgetError
  {
    FittedFramed(planned, first, user, rounds, available);
    assert Steps(TrimTurns(planned, available), 0) == TrimTurns(planned, available);
  }

  // Truncation ends over budget exactly when what is left of the prompt is the frame, with nothing to shorten.
  lemma {:induction false} EndsOverBudget(body: seq<Message>, user: Message, rounds: nat, available: nat)
    requires user.role.User?
    requires
      var trimmed := TrimTurns(body + [user], available);
      RunsFor(trimmed, rounds, available) && Stops(Steps(trimmed, rounds), available)
    ensures
      var frame := Prefix(body + [user]) + [user];
      Tokens(Steps(TrimTurns(body + [user], available), rounds)) > available <==>
        NoCandidate(frame) && Tokens(frame) > available
  {
    var trimmed, frame := TrimTurns(body + [user], available), Prefix(body + [user]) + [user];
    TrimmedToFrame(body, user, available);
    FirstPass(trimmed, rounds, available);
    assert Steps(trimmed, 0) == trimmed;
    if NoCandidate(frame) && Tokens(frame) > available {
      assert trimmed == frame;
      NothingToShorten(trimmed, available);
      NoRounds(trimmed, rounds, available);
    } else if Tokens(trimmed) <= available {
      NoRounds(trimmed, rounds, available);
    }
  }

  function AnswerFor(fit: FitResult): BuildResult {
    match fit
    case Fitted(ms) => Sent(ms)
    case ContextBudgetError => OverBudget
  }

  // What the fitting makes of a prompt.
  lemma {:induction false} FitAnswers(planned: seq<Message>, first: Message, user: Message, rounds: nat, available: nat)
    requires Framed(planned, first, user) && first.role.System? && user.role.User?
    requires
      var trimmed := TrimTurns(planned, available);
      RunsFor(trimmed, rounds, available) && Stops(Steps(trimmed, rounds), available)
    ensures
      var result := AnswerFor(Outcome(TrimTurns(planned, available), rounds, available));
      && AnswerWithin(planned, user, available, result)
      && (result.Sent? ==> Framed(result.messages, first, user) && Tokens(result.messages) <= available)
  {
    var sent := Steps(TrimTurns(planned, available), rounds);
    NoBlocks(planned, first, user, rounds, available);
    FittedFramed(planned, first, user, rounds, available);
    FramedFits(planned, first, user, rounds, available);
    assert Tokens(sent) <= available ==> CutToFit(planned, available, sent);
  }

  // Too much after the last round means too much for good, and a prompt that fits is left alone.
  predicate FitsExactly(planned: seq<Message>, user: Message, available: nat, sent: seq<Message>) {
    var frame := Prefix(planned) + [user];
    && (Tokens(sent) > available <==> NoCandidate(frame) && Tokens(frame) > available)
    && (Tokens(planned) <= available ==> sent == planned)
  }

  lemma {:induction false} BodyFits(body: seq<Message>, user: Message, rounds: nat, available: nat)
    requires user.role.User?
    requires
      var trimmed := TrimTurns(body + [user], available);
      RunsFor(trimmed, rounds, available) && Stops(Steps(trimmed, rounds), available)
    ensures FitsExactly(body + [user], user, available, Steps(TrimTurns(body + [user], available), rounds))
  {
    EndsOverBudget(body, user, rounds, available);
    if Tokens(body + [user]) <= available {
      FitsAsItIs(body + [user], rounds, available);
    }
  }

  lemma {:induction false} FramedFits(planned: seq<Message>, first: Message, user: Message, rounds: nat, available: nat)
    requires Framed(planned, first, user) && user.role.User?
    requires
      var trimmed := TrimTurns(planned, available);
      RunsFor(trimmed, rounds, available) && Stops(Steps(trimmed, rounds), available)
    ensures FitsExactly(planned, user, available, Steps(TrimTurns(planned, available), rounds))
  {
    LastOff(planned, user);
    var body :| EndsWith(planned, body, user);
    BodyFits(body, user, rounds, available);
  }

  predicate EndsWith(ms: seq<Message>, body: seq<Message>, last: Message) {
    ms == body + [last]
  }

  lemma {:induction false} LastOff(ms: seq<Message>, last: Message)
    requires ms != [] && ms[|ms| - 1] == last
    ensures exists body: seq<Message> :: EndsWith(ms, body, last)
  {
    assert EndsWith(ms, ms[..|ms| - 1], last);
  }

  method FitPrompt(r: Request, limit: Option<nat>, planned: seq<Message>) returns (result: BuildResult)
    requires PlainFrame(r) && WellFormed(planned) && Planned(r, planned)
    ensures AnswerOf(r, limit, planned, result) && EndlessExactly(r, limit, planned, result)
    ensures GoodAnswer(r, limit, result)
    ensures NoStrayResults(r.turns, r.cap) || OpenWithUser(r.turns) ==> !result.RunsForever?
  {
    PlannedFramed(r, planned);
    if limit.None? {
      return Sent(planned);
    }
    var available := Available(limit.value, r.definitions);
    Settling(r, planned, available);
    if !FitReturns(planned, Some(limit.value), r.definitions) {
      Endless(r, limit.value, planned);
      return RunsForever;
    }
    var fit, rounds := FitMessages(planned, Some(limit.value), r.definitions);
    FitAnswers(planned, r.system, r.user, rounds, available);
    result := AnswerFor(fit);
  }

  // A prompt that is never cut to fit is over budget, but something in it could be shortened.
  lemma {:induction false} Endless(r: Request, limit: nat, planned: seq<Message>)
    requires !CanSettle(Prefix(planned) + [r.user], Available(limit, r.definitions))
    requires !FitReturns(planned, Some(limit), r.definitions)
    ensures AnswerOf(r, Some(limit), planned, RunsForever)
  {
    var frame, available := Prefix(planned) + [r.user], Available(limit, r.definitions);
    if NoCandidate(frame) {
      NothingToShorten(frame, available);
      assert false;
    }
    if Tokens(planned) <= available {
      FitsAsItIs(planned, 0, available);
    }
  }

  /** End to end: whatever history, budget, stored record and model replies, what is sent are well-formed tool blocks
      within the budget, between the system message and the current user message. There is no answer exactly when
      what precedes the first user message of the planned prompt is over budget and cannot be cut to fit; this never
      happens when no turn has a long tool result in front of its user message, in particular when every turn opens
      with its user message. */
  method Build(r: Request, limit: Option<nat>, fullHistory: bool,
               store: CompactionStore?, replies: Replies, modelReady: bool)
    returns (result: BuildResult, ghost planned: seq<Message>, ghost plan: Option<Plan>, ghost calls: nat)
    requires Increasing(r.turns) && r.limit == (if limit.Some? then limit.value else DEFAULT_LIMIT)
    requires PlainFrame(r)
    modifies (if store == null then {} else {store})
    ensures WellFormed(planned) && Planned(r, planned)
    ensures PlannedAs(r, limit, fullHistory, old(RecordsOf(store)), modelReady, replies, planned, plan, calls)
    ensures store != null ==> store.records == StoredAfter(r, old(store.records), plan)
    ensures AnswerOf(r, limit, planned, result) && EndlessExactly(r, limit, planned, result)
    ensures GoodAnswer(r, limit, result)
    ensures NoStrayResults(r.turns, r.cap) || OpenWithUser(r.turns) ==> !result.RunsForever?
  {
    var messages, made;
    messages, made, calls := PlanContext(r, limit, fullHistory, store, replies, modelReady);
    planned, plan := messages, made;
    result := FitPrompt(r, limit, messages);
  }

  // When the first pass over a planned prompt stops.
  lemma Settling(r: Request, messages: seq<Message>, available: nat)
    requires PlainFrame(r) && Planned(r, messages)
    ensures
      var settles := CanSettle(TrimTurns(messages, available), available);
      && (Halts(TrimTurns(messages, available), available) <==> settles)
      && (settles <==> CanSettle(Prefix(messages) + [r.user], available))
      && (NoStrayResults(r.turns, r.cap) || OpenWithUser(r.turns) ==> settles)
  {
    HaltsIff(TrimTurns(messages, available), available);
    PlannedFramed(r, messages);
    PlannedSettlesIff(r, messages, available);
    if OpenWithUser(r.turns) {
      OpenedTurnsHaveNoStrays(r.turns, r.cap);
    }
    if NoStrayResults(r.turns, r.cap) {
      PlannedSettles(r, messages, available);
    }
  }
}
