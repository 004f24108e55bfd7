# Verified models of the agent's context pipeline, auth store and runtime kernels

This project states in Dafny what three parts of the agent do and proves properties of them.

**Context pipeline.** A chat turn sends the session history to a language model within a token budget. The history is
grouped into turns (`Turns`), sanitised into tool-call blocks whose every call has exactly one answer (`Sanitiser`,
`SanitiserLaws`), and sent whole when it fits. Otherwise a plan is made (`ContextPlanner`): a stored compaction record
is reused, or the older turns are compacted in deltas by a language model that may fail at any call (`Compaction`,
`CompactionRun`), next to a raw tail of the latest turns (`TailSelection`). What comes out is trimmed once more, turn by
turn, then tool result by tool result, then tool block by tool block (`TurnTrimming`, `ToolTruncation`, `BlockDropping`,
`ContextFitting`). `PromptShape` says what that leaves of a prompt that ends with the current user message, and
`ContextBuilder` puts all of it together.

**Auth store.** Users, roles, grants, external identities, sessions, routes, tool calls and confirmations live in
tables with foreign keys (`AuthTables`). Each store method is one step. `AuthRoles`, `AuthIdentities`, `AuthChats`,
`AuthDeletion` and `Confirmations` say what each does to its tables and prove what it keeps; `AuthRuns` puts all
operations into one state machine and proves the invariants for every run; `AuthStore` holds the methods in their
imperative form, each a step of that machine. `Confirmations` also models the race of a blocked tool call, its
canceller, its timeout, any number of deciders and the deletion of users; `SplitDecisions` takes
decisions, cancellations and timeouts apart into their reading and their writing, and `SplitRuns` says what that comes
to in whole runs.

**Runtime kernels.** The registry of active turns (`ActiveTurns`), the derived full-text and vector index
(`SearchTexts`, `SearchIndex`) and the sliding-window rate limiter (`RateLimits`).

## What the proofs found

- The truncation loop of `_truncate_tool_results_to_budget` does not always stop. It stops exactly when the list fits,
  has no tool result over 128 characters, or fits once every result it would touch is cut down
  (`ToolTruncation.HaltsIff`). In the middle of a turn, with one tool result in, it runs forever exactly when the prompt
  is over budget with a long result and would be with 158 characters of it (`ContextFitting.MidTurnEndlessIff`); for
  every list what counts is its part before the first user message and its last turn (`PromptShape.FitReturnsIff`). The
  prompt that opens a turn always comes back when every stored turn opens with its user message
  (`ContextBuilder.Build`).
- In `fit_messages` the second truncation pass never changes anything, and blocks are only dropped when no tool result
  exceeds 128 characters (`ContextFitting.FitMessages`).
- In `_plan_long` the equal-length break of the expansion loop is unreachable (`ContextPlanner.ExpandOnce`).
- The compaction digest does not read message names (`Compaction.NameChangeUnseen`).
- A history without turn metadata that does not open with a user message gives its next turn an index that is already
  used (`Turns.LegacyIndexedIff`).
- A new turn that repeats an index is never sent to the compactor and invalidates the stored record
  (`Compaction.SentExactlyIff`, `Compaction.RepeatedIndexLosesTurn`).
- `auth_settings.updated_by_user_id` is no foreign key, and after a deletion it is the only column that can still name the
  user, exactly if it did before (`AuthDeletion.DeletionForgetsIff`); since only the Owner reaches the method that writes
  it, it never does (`AuthRuns.RunSound`).
- Linking an identity takes an active binding from another user on every channel but QQ
  (`AuthIdentities.OtherChannelMoves`), and in no other case (`AuthIdentities.LinkTakesIff`).
- `set_user_permission` looks at the roles before its transaction opens. If the user loses the admin role in between, it
  delegates to someone who is no administrator, and that is the only way it breaks an invariant
  (`AuthRoles.LateGrantSoundIff`, `AuthRoles.LateGrantToFormerAdmin`). In the repository only tests call the method; the
  product delegates through `update_user`, whose first statement opens its transaction.
- A confirmation row deleted under its blocked call makes the call answer "expired" after a decider was told
  "approved" (`Confirmations.OrphanDisagrees`), unless the row was still pending or said the same
  (`Confirmations.OrphanAgreesIff`).
- Decisions, cancellations and timeouts read the status before their transaction opens, and their UPDATE does not ask
  again. So a second decision can overwrite the first (`SplitRuns.SplitDecideDisagrees`), and a call can end as
  cancelled or expired over an approval that its decider was told (`SplitRuns.LateEndOverwrites`).
  `SplitRuns.ConsistentIff` says exactly in which runs everyone still hears the same; in every run a row and its
  record agree (`SplitRuns.StoredAlways`).
- The completion event of a turn that a newer one replaced is never set, so a session deletion that waits for it runs
  into its timeout (`ActiveTurns.ReplacedNeverCompletes`).
- Two versions of a search document can share a content hash and differ in their indexed text, which leaves the old
  text in the full-text table (`SearchTexts.OtherGapsOtherText`, `SearchTexts.MiddleGapOtherText`,
  `SearchIndex.ReindexedIff`) until the session is rebuilt (`SearchIndex.RebuildRepairs`), which nothing in the
  repository does.
- The rate limiter reads the clock before it takes its lock; a late call can be accepted into a full window
  (`RateLimits.LateCallOverfillsWindow`), but if calls are late by at most d, every window shorter by d still holds at
  most the limit (`RateLimits.SlidingWindowRateLimiter.WindowsBounded`).

## How things are modelled

- One `Message` type stands for the stored message and for the chat dictionary made from it; an empty text stands for an
  absent name, tool-call id or turn id.
- SHA-256 is free of collisions: a digest is the text or structure it is computed from.
- The language model is a function from the number of the call to an optional answer; the model that finds relevant turns
  is an arbitrary set of turn ids; an embedding provider is a function that may give no answer or one of the wrong
  length.
- Ratios and times are real numbers. A decision reads the clock twice, the second time cut to seconds; the model takes
  the reading that is compared with the expiry for both, while a stored `decided_at` can in fact reach the expiry.
- Generated ids, user names and channel texts are numbers, as they are only compared. The rows of `user_roles` and
  `user_permissions` are kept with the user's row.
- SQLite constraints are part of the statements: a statement that would violate a foreign key or a unique index fails
  and its transaction changes nothing.
- Where several threads act, each atomic action is a step and the theorems hold for every interleaving of steps. A store
  method is one step. Three methods read before their transaction opens and write what that calls for whatever has
  happened since: `set_user_permission`, `decide_tool_confirmation` and `expire_tool_confirmation` are modelled both as
  one step and as two with anything in between.

## Model

| member | source | states |
|---|---|---|
| Messages.EstimateLlmTokens | agent/core/context.py:648-675 | the estimate is the sum over the messages, each at least 4, plus the cost of the tool definitions |
| Sanitiser.ToolCallIds | agent/core/context.py:628-639 | the usable call ids, each once, in order, none empty |
| Sanitiser.CollectAnswers | agent/core/context.py:566-588 | the scan behind a caller stops at the first message that is not a result and keeps the first answer to each of its calls |
| Sanitiser.HistoryToLlmDicts | agent/core/context.py:556-595 | the index walk computes the block-by-block sanitiser |
| SanitiserLaws.SanitiseWellFormed | agent/core/context.py:556-595 | any history becomes well formed: no orphan result, every caller followed by exactly one result per call id |
| SanitiserLaws.NoOrphanResult | agent/core/context.py:556-595 | in a well-formed list every result stands in the run behind a caller that announced its id |
| SanitiserLaws.CallerIsAnswered | agent/core/context.py:556-595 | in a well-formed list the messages behind a caller answer each of its calls exactly once |
| SanitiserLaws.WellFormedAppend | agent/context/planner.py:446-463 | joining well-formed parts gives a well-formed list |
| SanitiserLaws.WellFormedSplit | agent/core/context.py:435-440 | cutting a well-formed list anywhere but before a result leaves two well-formed lists |
| SanitiserLaws.SanitiseConcat | agent/core/context.py:556-595 | sanitising distributes over concatenation unless the second part opens with a tool message |
| SanitiserLaws.SanitiseSuffix | agent/core/context.py:556-595 | for all A and B, sanitised B is a suffix of sanitised A + B |
| SanitiserLaws.SanitiseIdempotent | agent/core/context.py:538-603 | sanitising with its length cap twice is sanitising once |
| SanitiserLaws.SanitiseKeepsOrdinary | agent/core/context.py:538-603 | every message that is neither a result nor a caller is kept, in order |
| TurnTrimming.ConversationLossless | agent/core/context.py:690-695 | a list is its part before the first user message followed by its turns, each opening with a user message |
| TurnTrimming.DropOldTurns | agent/core/context.py:435-440 | the slice-deleting loop computes the turn trimmer |
| TurnTrimming.TrimTurnsOptimal | agent/core/context.py:435-440 | kept are the prefix and the longest fitting run of latest turns, never less than the last turn |
| TurnTrimming.TrimTurnsWellFormed | agent/core/context.py:435-440 | dropping old turns keeps the list well formed |
| ToolTruncation.RoundLength | agent/core/context.py:745-763 | a round turns a result of length n into one of max(128, n/2) + 30: shorter above 158, longer from 129 to 157, 158 at 158 |
| ToolTruncation.SettledIsFixed | agent/core/context.py:745-763 | a marked result of 158 characters is still a candidate and no round changes it |
| ToolTruncation.ReachesFloor | agent/core/context.py:745-763 | enough rounds bring every list to the one fixed list in which all touched results are cut down |
| ToolTruncation.StepsAboveFloor | agent/core/context.py:745-763 | after any round the list still costs at least as much as that fixed list |
| ToolTruncation.HaltsIff | agent/core/context.py:745-763 | the loop stops if and only if the list fits, has no candidate, or its fixed list fits |
| ToolTruncation.RunsForever | agent/core/context.py:745-763 | under a budget below the fixed cost of its messages, a list with any candidate keeps the loop running forever |
| ToolTruncation.TruncateToolResults | agent/core/context.py:745-763 | when it stops, the result is the list after that many rounds, and each of these rounds was needed |
| ToolTruncation.StepsOnlyToolContents | agent/core/context.py:745-763 | no round changes a role, an id, a call or anything but the content of tool results |
| ToolTruncation.StepsWellFormed | agent/core/context.py:745-763 | truncation keeps the list well formed |
| BlockDropping.CompleteToolBlockRanges | agent/core/context.py:715-742 | the scan finds exactly the ranges of callers whose announced ids are all answered |
| BlockDropping.KeptUnitsOptimal | agent/core/context.py:698-712 | exactly the k oldest complete blocks go, k least such that the list fits or one block is left; all else stays in order |
| ContextFitting.DropOldCompletedToolBlocks | agent/core/context.py:698-712 | the loop over ranges computes that on the last turn |
| ContextFitting.DropBlocksWellFormed | agent/core/context.py:698-712 | dropping blocks keeps the list well formed |
| ContextFitting.FitMessages | agent/core/context.py:417-450 | trimmed, then truncated, then, only if no result is over 128 characters, without old blocks; an error exactly when that is still over budget; well formed if the input was |
| ContextFitting.MidTurnEndlessIff | agent/core/context.py:417-450 | a well-formed prompt of system, user, caller and one result does not come back exactly when it is over budget, the result is long, and 158 characters of it are still too many |
| ContextFitting.MidTurnEndless | agent/core/context.py:745-763 | in particular not with fewer tokens than four empty messages cost |
| PromptShape.TrimmedToFrame | agent/core/context.py:435-440 | over budget, trimming leaves only what precedes the first user message, and the current user message |
| PromptShape.FitReturnsIff | agent/core/context.py:417-450 | on every list of messages, in the middle of a turn or not, fitting comes back exactly when truncation stops on what precedes the first user message and the last turn |
| PromptShape.SettlesIff | agent/core/context.py:417-450 | the first pass over such a prompt stops exactly when it would on that frame |
| PromptShape.PrefixOfSanitised | agent/core/context.py:556-595 | sanitising commutes with taking what precedes the first user message |
| PromptShape.SettlesWithoutStrays | agent/core/context.py:745-763 | without a long tool result in front of the first user message the pass always stops |
| Turns.GroupMessagesByTurn | agent/core/turns.py:17-47 | the loop with its legacy counter computes the grouping |
| Turns.GroupingLossless | agent/core/turns.py:17-47 | the groups concatenate to the history, none is empty, neighbours have different ids |
| Turns.AppendTurnIndexed | agent/core/turns.py:50-66 | a turn with a new id and the next index becomes a new last group and keeps the indices strictly increasing |
| Turns.LegacyIndexedIff | agent/core/turns.py:50-66 | a history without metadata can be continued with a larger index exactly when it is empty or opens with a user message; otherwise the index repeats |
| Compaction.Compact | agent/context/compaction.py:85-133 | only turns after the previous record are sent; the record covers exactly the turns given, or there is none; on increasing indices it validates, and covered and sent turns make up all |
| Compaction.PrefixRecordValid | agent/context/compaction.py:183-191 | a record of a prefix of the turns validates against all of them |
| Compaction.RecordSurvivesAppend | agent/context/planner.py:204-213 | a valid record stays valid when turns with higher indices are appended |
| Compaction.RecordRejectsChange | agent/context/turn_document.py:68-88 | a record stays valid if and only if the covered turns look the same to the digest |
| Compaction.NameChangeUnseen | agent/context/turn_document.py:68-88 | renaming the speaker of a covered message goes unnoticed |
| Compaction.SentExactlyIff | agent/context/compaction.py:96-106 | on any indices, a call sends exactly the later turns if and only if the record's end separates their indices from the earlier ones |
| Compaction.RepeatedIndexLosesTurn | agent/context/compaction.py:96-106 | a new turn that repeats an index up to the record's end is never sent, and the record stops validating |
| Compaction.CompactionStore.Save | agent/context/compaction.py:50-58 | replaces the record of its session and no other |
| Compaction.CompactionStore.Delete | agent/context/compaction.py:60-63 | removes the record of the session and no other |
| TailSelection.OlderTurnsCost | agent/context/planner.py:554-581 | more older turns never cost less |
| TailSelection.SelectRecentTurns | agent/context/planner.py:554-581 | the longest run of latest turns that fits, or one turn over budget when one is preferred; every longer run is over budget |
| TailSelection.FitRecentAfterCompaction | agent/context/planner.py:631-660 | the longest run of latest turns with which the base state fits, or none |
| TailSelection.CompactedBaseTokens | agent/context/planner.py:608-628 | the base state costs the fixed messages, the evidence, the definitions and the raw tail |
| TailSelection.DeltaEnd | agent/context/planner.py:676-700 | a delta has 1 to 32 turns and at most 60000 characters unless it is one turn, and is as long as that allows |
| TailSelection.IncrementalCompactionPrefixes | agent/context/planner.py:676-700 | the prefixes grow strictly from the covered turns to all turns, one delta at a time, each as long as the limits allow |
| TailSelection.DeltasPartition | agent/context/planner.py:676-700 | the deltas concatenate to the uncovered turns, and the last prefix is all turns |
| CompactionRun.CompactThrough | agent/context/planner.py:296-302 | each uncovered turn is sent once and in order, in deltas as long as the limits allow; the run ends early only when a call fails, and then what the answered calls have covered is kept, valid and saved, with the last answer as its evidence |
| ContextPlanner.LowWatermark | agent/context/planner.py:584-628 | a tail within a positive planned budget and a summary within its reserve keep the base state under the low watermark, hence under the trigger |
| ContextPlanner.PlanFresh | agent/context/planner.py:246-385 | the tail is the longest run of latest turns in its share; a failure is reported exactly when a call failed; record and tail of the plan are those from before the expansion loop whenever tail and summary keep to a positive planned budget and its reserve |
| ContextPlanner.NoGapMeans | agent/context/planner.py:198-385 | no gap means that each turn is covered by the record or kept raw |
| ContextPlanner.LoadRecord | agent/context/planner.py:198-213 | exactly a record that validates against the current turns is used; one that does not is deleted, and nothing else in the store changes |
| ContextPlanner.CanReuse | agent/context/planner.py:215-244 | a record is reused exactly when the base state with all turns after it is within the trigger |
| ContextPlanner.ExpandOnce | agent/context/planner.py:308-378 | over the trigger, a round ends with the longest fitting tail, which is strictly shorter, and no gap, or, exactly when one of its calls fails, with the tail as it was |
| ContextPlanner.ExpandCoverage | agent/context/planner.py:308-378 | the loop ends for every sequence of replies: within the trigger, with an empty tail, or exactly when a call fails; a shortened tail is the longest that fitted |
| ContextPlanner.CoverOldTurns | agent/context/planner.py:289-306 | the record covers every turn before the tail, unless one of the calls made fails |
| ContextPlanner.ChooseRecordAndTail | agent/context/planner.py:198-385 | which path is taken and what it gives: the stored record as it is exactly when it fits with everything after it, a fresh choice with coverage where compaction is available, else the longest tail that fits; a failure is reported exactly when a call failed, and what the store holds afterwards |
| ContextPlanner.PlanLong | agent/context/planner.py:156-478 | the record in a prompt is valid, with compaction available there is no gap unless a failure is reported, none is reported when every call is answered, and the messages are the stated parts in order |
| ContextBuilder.PlanWellFormed | agent/context/planner.py:446-463 | record, evidence, retrieved turns, raw tail and user message together are well formed |
| ContextBuilder.PlanContext | agent/context/planner.py:50-154 | the complete history exactly when it fits the trigger, the long plan with all it guarantees otherwise, and what the store holds afterwards |
| ContextBuilder.PlannedSettles | agent/core/context.py:417-450 | a planned prompt whose turns have no long tool result in front of their user message is always fitted or refused |
| ContextBuilder.EndsOverBudget | agent/core/context.py:417-450 | a prompt that ends with a user message stays over budget exactly when what precedes the first user message, with it, is over budget and holds nothing to shorten |
| ContextBuilder.Build | agent/core/context.py:111-186 | whatever history, budget, stored record and model answers: the prompt is that of the plan; without a limit or when it fits it is sent as it is; otherwise what is sent is trimmed and truncated just as far as needed, well formed, within the budget, and stands between system and user message; refused exactly when what precedes the first user message is too much with nothing to shorten in it; no answer exactly when that cannot be cut to fit, which never happens when every turn opens with its user message or has no long tool result before it |
| AuthRoles.InitializeSound | agent/auth/store.py:232-280 | initialising succeeds at most once: it is refused exactly when there is an owner, and makes its user the one active owner |
| AuthRoles.CreateSound | agent/auth/store.py:282-340 | a user is created exactly under a new id and name with at least one role, all known and none the owner's, and has exactly these; an error changes nothing |
| AuthRoles.UpdateSound | agent/auth/store.py:379-462 | no combination of status, roles and delegation disables or demotes the owner, leaves a user without role, or leaves a delegate who is no administrator |
| AuthRoles.UpdateOutcome | agent/auth/store.py:379-462 | an update succeeds exactly when the owner's status and roles are not touched, the roles are known, not empty and without owner, and a delegation is permitted under the new roles; it then sets what it names and nothing else |
| AuthRoles.PermissionSound | agent/auth/store.py:543-573 | the admin delegation only reaches administrators |
| AuthRoles.PermissionOutcome | agent/auth/store.py:543-573 | a direct grant succeeds exactly for a known permission that the roles allow, and changes that grant only |
| AuthRoles.LateGrantSoundIff | agent/auth/store.py:543-573 | with anything between the look at the roles and the INSERT, a direct grant keeps the invariants exactly when it does not delegate to a user who lost the admin role in between |
| AuthRoles.LateGrantToFormerAdmin | agent/auth/store.py:543-573 | an update that takes the admin role in between is enough to break them |
| AuthIdentities.GuardsMatchIndex | agent/auth/store.py:2654-2661 | the partial unique index is violated exactly when the user is bound to another QQ identity |
| AuthIdentities.LinkSound | agent/auth/store.py:807-877 | linking keeps QQ bindings one-to-one, moves none, and succeeds exactly when the user exists and neither conflict is there |
| AuthIdentities.LinkOutcome | agent/auth/store.py:807-877 | a linked identity is active for the user and nothing else has changed; an error changes nothing |
| AuthIdentities.ConsumeSound | agent/auth/store.py:1227-1318 | consuming a request moves no active binding of any channel and, on success, binds the identity of the request to the user |
| AuthIdentities.ConsumeSucceedsIff | agent/auth/store.py:1227-1318 | a request is consumed exactly when it is open, in time, the user exists and nothing stands against the binding; it then changes that identity and request only |
| AuthIdentities.ConsumedOnce | agent/auth/store.py:1227-1318 | after an attempt that settled the request the next attempt on the same tables answers no |
| AuthIdentities.AccountOutcome | agent/auth/store.py:879-936 | a new channel account comes with its active identity; an error leaves neither |
| AuthIdentities.AccountSucceedsIff | agent/auth/store.py:879-936 | an account is created exactly when the user exists, account and identity are free and the user has no other QQ binding |
| AuthIdentities.AccountDeletedForgets | agent/auth/store.py:1000-1033 | deleting an account takes exactly the user's identities of that account along |
| AuthIdentities.ShrunkSound | agent/auth/store.py:1067-1137 | operations that only take bindings away keep them one-to-one and move none |
| AuthIdentities.OtherChannelMoves | agent/auth/store.py:807-877 | on other channels linking takes an active binding from its user |
| AuthIdentities.LinkTakesIff | agent/auth/store.py:807-877 | linking takes an active binding from someone exactly when the channel is not QQ, the user exists and the identity is active for another |
| AuthIdentities.FindDuplicates | agent/auth/store.py:2632-2653 | the scan finds exactly the active QQ rows that a later row of the same user supersedes |
| AuthIdentities.MigrateSingleActiveQqIdentity | agent/auth/store.py:2632-2661 | exactly the superseded rows are disabled, nothing else changes, and what remains is one-to-one |
| AuthIdentities.NewestSurvives | agent/auth/store.py:2632-2661 | a user with an active QQ binding still has one after the migration |
| AuthChats.UpsertSoundIff | agent/auth/store.py:1351-1410 | a route may point to a session exactly when both have the same owner |
| AuthChats.ResolveSound | agent/channels/conversation.py:28-64 | a conversation resolves to a session of the actor: the routed one, or a new one with a route to it |
| AuthDeletion.DeletionForgets | agent/auth/store.py:464-541 | in every reachable state: afterwards no row of any table names the user, settings and audit trail included, and none belongs to a session that was the user's, confirmations on calls in these sessions and routes to them included |
| AuthDeletion.DeletionForgetsIff | agent/auth/schema.py:101-107 | in any state: afterwards the user is still named exactly if the settings row names the user |
| AuthDeletion.DeletionKeepsClosed | agent/auth/store.py:464-541 | afterwards no foreign key dangles |
| AuthDeletion.DeletionKeepsOthers | agent/auth/store.py:464-541 | every row that neither names the user nor belongs to one of the user's sessions is still there, unchanged, and no row is new: users, sessions, routes, identities, authorization requests, accounts, turns, calls, confirmations, audit trail, settings |
| AuthDeletion.DeletionKeepsOtherLogins | agent/auth/store.py:464-541 | the same for sign-in sessions, notification endpoints, e-mail challenges and link tokens |
| AuthDeletion.DeletionSucceedsIff | agent/auth/store.py:464-541 | where routes lead to sessions of their owner, it succeeds exactly when the user exists, the name matches, and the user is disabled, not the owner and without channel account |
| AuthDeletion.SettingsKeepDeletedUser | agent/auth/store.py:124-141 | a deletion leaves the settings row alone, which for a deletable user can only have been written by someone else than the Owner |
| AuthStore.DeleteActivity | agent/auth/store.py:489-531 | the statements on audit trail, confirmations, calls, turn runs, routes and sessions in this order meet no foreign key but a route of another user |
| AuthStore.DeleteRows | agent/auth/store.py:464-541 | on any tables: the statements in their order compute the tables without the user, or leave all tables as they were |
| AuthStore.AuthStore.InitializeOwner | agent/auth/store.py:232-280 | a step that keeps all invariants; refused exactly when there is an Owner already, and otherwise the user is the Owner for good |
| AuthStore.AuthStore.CreateUser | agent/auth/store.py:282-340 | a step that keeps all invariants; exact success condition; the user has exactly the roles asked for |
| AuthStore.AuthStore.SetUserPermission | agent/auth/store.py:543-573 | a step that keeps all invariants; exact success condition; changes one grant |
| AuthStore.AuthStore.UpdateUser | agent/auth/store.py:379-462 | a step that keeps all invariants and the Owner; exact success condition; sets what is asked for and nothing else, or nothing at all |
| AuthStore.AuthStore.DeleteUser | agent/auth/store.py:464-541 | a step that keeps all invariants; succeeds exactly when none of the five reported reasons stands against it, and then no row names the user |
| AuthStore.AuthStore.LinkExternalIdentity | agent/auth/store.py:807-877 | a step that keeps all invariants; exact success condition; the identity is the user's, no other row changes, no QQ binding moves |
| AuthStore.AuthStore.ConsumeExternalAuthorizationRequest | agent/auth/store.py:1227-1318 | a step that keeps all invariants; exact success condition; the identity is the user's, and no active binding of any channel is lost |
| AuthStore.AuthStore.CreateChannelAccount | agent/auth/store.py:879-936 | a step that keeps all invariants; exact success condition; account and active identity together or neither |
| AuthStore.AuthStore.DeleteChannelAccountForUser | agent/auth/store.py:1000-1033 | a step that keeps all invariants; exactly the account and the user's identities of it go, and the account is answered |
| AuthStore.AuthStore.ResolveConversation | agent/channels/conversation.py:28-64 | one or two steps that keep all invariants; the answered session is the actor's and routed; exact success condition |
| AuthRuns.StepSound | agent/auth/schema.py:74-363 | every operation keeps all invariants, the active owner, the user of every active QQ binding and the owner of every session |
| AuthRuns.RunSound | agent/auth/store.py:232-573 | in every run: no dangling foreign key, a unique and permanent owner, a role for everyone, delegates are administrators, QQ one-to-one, routes to own sessions, settings written by the Owner, confirmations in agreement with their records and approved in time |
| AuthRuns.RotationDisciplined | agent/channels/conversation.py:36-64 | whatever happens between the two transactions of a rotation, the route still leads to a session of its owner |
| AuthRuns.ConsumedForever | agent/auth/store.py:1227-1318 | a request that is consumed or in conflict stays so in every run and is never consumed again |
| Confirmations.WrittenAgrees | agent/auth/store.py:1943-1952 | settling a pending row keeps it and its record in agreement and changes no other row |
| Confirmations.DecisionMeans | agent/auth/store.py:1918-1954 | only the actor or a session manager decides; a pending row becomes approved, denied or expired exactly as approval and clock say, and that is told and shown on the record |
| Confirmations.EndMeans | agent/auth/store.py:1956-1979 | cancelling or timing out settles a pending row and only reads a settled one |
| Confirmations.StepSound | agent/auth/store.py:1918-1979 | every step keeps the agreement of rows, records and everything anyone was told |
| Confirmations.RunSound | agent/auth/confirmation.py:85-128 | in every interleaving the blocked call and every decider are told the stored final status, also shown on the record; approved means decided before expiry |
| Confirmations.SettledForever | agent/auth/store.py:1918-1979 | a confirmation leaves "pending" at most once; its final row never changes |
| Confirmations.AwaitDecision | agent/auth/confirmation.py:85-112 | the polling loop, with anything happening before each cancel check, each poll and the timeout: it runs until the first cancellation, the first poll that finds the row settled, or the timeout, and returns a final status, the stored one unless the row is gone |
| Confirmations.OrphanDisagrees | agent/auth/store.py:502-513 | deleting the row under a blocked call lets the call expire after a decider was told "approved" |
| Confirmations.OrphanAgreesIff | agent/auth/store.py:502-513 | whatever others do before the call ends: everyone is told the same exactly when the deleted row was pending or said what the call ends with |
| Confirmations.WrittenSettlesIff | agent/auth/store.py:1943-1949 | the unguarded UPDATE settles a row exactly when it is pending or already is what is written |
| SplitRuns.ConsistentIff | agent/auth/store.py:1918-1979 | with reading and writing as two steps for decisions, cancellations and timeouts alike, in every interleaving with requests, polls and user deletions: everyone is told the same if and only if no write meets a row settled to something else, and nothing is answered without a row against what the row said last; the store then says what everyone was told |
| SplitRuns.StoredAlways | agent/auth/store.py:1918-1979 | in every such run, whatever conflicts it has, each row and its record show the same status and approvals are in time |
| SplitRuns.OverlapAgreesIff | agent/auth/store.py:1918-1979 | two calls that both read the pending row leave everyone with the same answer exactly when they bring the same verdict |
| SplitRuns.LateEndOverwrites | agent/auth/store.py:1956-1979 | a cancellation or timeout that read the pending row overwrites an approval its decider was told, and keeps the name of the decider |
| SplitDecisions.ConflictStep | agent/auth/store.py:1943-1970 | each such step tells someone something else |
| SplitRuns.SplitDecideDisagrees | agent/auth/store.py:1943-1949 | the run of two deciders who both read the pending row and then write: the first is told "approved", the second "denied", and the row ends up denied |
| ActiveTurns.RunSound | agent/app/runtime.py:3130-3162 | in every run: each unfinished turn is current, cancelled or about to be cancelled; each other turn left in exactly one way; completion is set exactly for own unregister and shutdown; nothing is active while shut down |
| ActiveTurns.EvictedOnlyBy | agent/app/runtime.py:3141-3148 | a current turn loses its place only to a newer turn of its key, its own unregister or a shutdown |
| ActiveTurns.NothingRegistersWhenShut | agent/app/runtime.py:3130-3139 | nothing registers from a shutdown to the next startup |
| ActiveTurns.ReplacedNeverCompletes | agent/app/runtime.py:2778-2780 | the completion event of a replaced turn is never set |
| ActiveTurns.WebRuntime.RegisterTurn | agent/app/runtime.py:3130-3139 | refused while shut down; otherwise the older turn of the key is cancelled and replaced |
| ActiveTurns.WebRuntime.UnregisterTurn | agent/app/runtime.py:3141-3148 | removes and completes the turn only if it is still the current one |
| ActiveTurns.WebRuntime.CancelSession | agent/app/runtime.py:2808-2845 | cancels the turn of the key or, for someone who may stop any turn, one with the same session; none exactly if there is none |
| ActiveTurns.WebRuntime.Shutdown | agent/app/runtime.py:3150-3162 | every active turn is removed, cancelled and completed; a second call does nothing; it is a run of the steps |
| SearchTexts.SameHashSameText | agent/protocols/context.py:56-60 | versions with the same hash and the same empty parts have the same indexed text, unless only the assistant text is empty |
| SearchTexts.OtherGapsOtherText | agent/context/turn_document.py:45-51 | with different empty parts they need not |
| SearchTexts.MiddleGapOtherText | agent/context/turn_document.py:45-51 | with only the assistant text empty they need not |
| SearchIndex.RunSound | agent/context/index.py:99-150 | after every run of upserts, late vectors and deletions: one full-text row per document, none besides, and every vector computed for the current hash of its row |
| SearchIndex.ReindexedIff | agent/context/index.py:99-150 | a new version is indexed under its own text exactly when its hash or not its text changes |
| SearchIndex.IndexedWithoutGaps | agent/context/index.py:99-150 | without gaps a document is found under its current text |
| SearchIndex.RebuildMeans | agent/context/index.py:266-273 | what a rebuild makes of every row of both tables |
| SearchIndex.RebuildRepairs | agent/context/index.py:266-273 | a rebuild repairs every stale text of the session |
| SearchIndex.EmbedBatch | agent/context/index.py:243-264 | vectors for current documents take exactly these off the list of missing ones and change no text |
| SearchIndex.SearchIndex.Upsert | agent/context/index.py:99-150 | the loop computes the specified tables |
| SearchIndex.SearchIndex.UpsertVectors | agent/context/index.py:243-264 | lists of different lengths are rejected; a vector reaches its row only under the same hash |
| SearchIndex.SearchIndex.RebuildSession | agent/context/index.py:266-273 | afterwards the session's documents are exactly the last versions of the batch, without vectors, each that comes once findable under its current text whatever was stored; other documents and their rows stay |
| SearchIndex.SearchIndex.BackfillEmbeddings | agent/context/planner.py:480-495 | a backfill is degraded only when the provider fails on a batch of missing documents; otherwise it leaves nothing missing; texts and invariants stay |
| RateLimits.PrunedIsRecent | agent/channels/limits.py:21-23 | popping the front of an ordered deque leaves exactly the recent times |
| RateLimits.DecisionOfLog | agent/channels/limits.py:17-27 | for calls in any order, late by at most d: accepted only when the log has room in the window as seen d later, refused only when it is full as seen d earlier |
| RateLimits.AnswersOfLog | agent/channels/limits.py:17-27 | for every sequence of calls in the order of their times, every answer is that of a limiter that keeps all accepted times |
| RateLimits.InOrderNeverLate | agent/channels/limits.py:17-27 | calls are without lateness exactly when each is no earlier than the latest before it |
| RateLimits.NextSound | agent/channels/limits.py:17-27 | every call, in whatever order, keeps the deque an end of the log, all before it out of the window, and accepted times spaced by the window less the lateness |
| RateLimits.SpacedBounds | agent/channels/limits.py:17-27 | no half-open window of an accepted log holds more than the limit |
| RateLimits.SlidingWindowRateLimiter.Allow | agent/channels/limits.py:17-27 | for calls in any order: decides as the full log would, exactly so without lateness and otherwise up to it; only the history of this key changes |
| RateLimits.SlidingWindowRateLimiter.WindowsBounded | agent/channels/limits.py:17-27 | at any time every window of every key that is shorter by the lateness of its calls holds at most the limit; without lateness every whole window does |
| RateLimits.LateCallOverfillsWindow | agent/channels/limits.py:17-27 | with calls out of order a window can hold one more |

## Left out

- Language model, embedding, HTTP, mail, MCP, QQ and WeChat traffic; prompts, JSON parsing and evidence formatting: only whether a call answers, and the text it gives, matter here.
- Query rewriting, history queries and hybrid ranking: which turns are retrieved is arbitrary, and evidence for a history question is one more system message.
- Background compaction and its scheduling, logging, diagnostics, configuration loading.
- `_select_recent_history` in `agent/core/context.py`, which nothing calls.
- Message metadata and parent turn ids; session id checks and corrupt files in the compaction store.
- Rounding of floating-point ratios and times.
- Password, token and cookie handling; login only as the insertion of a session row; role permissions, which no modelled guard reads.
- WeChat delivery tables and channel event receipts: they name no user.
- `initialize_schema` apart from its QQ migration.
- The two database connections of `update_user` and the wake-up events of the confirmation broker: a user never becomes owner in between, and an event only shortens a wait.
- The look of `delete_channel_account_for_user` at the account before its transaction opens: what comes late only takes rows of that account and user away.
- `travel`, workflow and subagent code in `agent/app/runtime.py`.
- Entity and anchor columns, ranking and the order of missing documents in the search index.
- ContextFitting.FitMessages: is stated for the inputs on which its first truncation pass stops, which `ToolTruncation.HaltsIff` characterises; on the others the source does not return.
- ContextBuilder.Build: assumes turn indices increase strictly, which `Turns.AppendTurnIndexed` establishes for new turns, and that the system message, the evidence and the user message carry no tool calls.
- AuthRuns.RunSound: assumes what the callers of the store make sure of (`AuthRuns.Disciplined`): routes are upserted only by the conversation service, settings changed only by the Owner, a tool call is recorded under a new id and asks once, a blocked call ends expired or cancelled. `set_user_permission` is one step in these runs (`AuthRoles.LateGrantSoundIff` has the split), and so are decisions and ends (`SplitRuns.StoredAlways`).
- Confirmations.RunSound: agreement is claimed for a confirmation whose row was not deleted under its blocked call (`Confirmations.OrphanAgreesIff` has the others) and for decisions, cancellations and timeouts in one step (`SplitRuns.ConsistentIff` has the others); generated ids are new, and a tool call asks once.
