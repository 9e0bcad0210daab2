# Borealis Coder: a verified model of the agent core

Borealis Coder is an agent runtime. Under its I/O lies a deterministic core: transformations of
the conversation transcript, ledgers of requests and dollars shared by concurrent agents, retry
and fallback accounting, crash recovery, a rotating trace log and small concurrent protocols.
This project models that core in Dafny and proves what the runtime relies on it for.

`dafny verify dfyconfig.toml` checks everything.

## Layout

- `Wrappers`, `Sequences`, `Text`: optional values, facts about sequences, Python string operations.
- `Transcript`, `Pairing`, `Bundles`: messages and tool calls, the grammar of a well-formed conversation
  and its checker, the same in terms of single calls and results, and the bundles that compaction never
  splits.
- `Pruning`, `ProviderView`, `PruningTheorems`, `PruningMeaning`, `PruningLimits`: the provider view as a
  declarative function, the two-pass pruner that computes it, why everything it removes is justified, what
  it shows in terms of message fields, when a cached view can be extended, and exactly when it cannot.
- `Evidence`, `EvidenceLists`, `FailureEvidence`, `FileEvidence`, `EvidenceContinues`, `EvidenceMeaning`:
  the open failures and changed files extracted from a conversation, when saved evidence can be
  continued, and what the evidence says in terms of message fields.
- `Summary`, `Compaction`, `Adjustment`, `Chunks`: shrinking nine sections to fit, compacting a
  conversation, tightening its targets until the request fits, and cutting a transcript for a
  summarizer, for arbitrary size estimators.
- `Wire`: the Anthropic wire form.
- `Charges`, `RunBudget` (in `Budget.dfy`), `BudgetRuns`: usage records, the run budget as a mutable
  ledger, and all interleavings of the requests that share it.
- `Settlement`, `SettlementPolicy`, `SettlementTheorems`, `SettlementLimits`, `Retries`: retries within
  routes, routes within requests, which of them are tried, the two accumulators of usage that have to
  agree, exactly when they do not, and the adapters that make them agree.
- `ToolBatch`, `Recovery`, `SessionRuns`, `TurnLoop`: executing a tool batch, repairing an unfinished
  one, sessions that crash and restart, and the turn loop with verification and repair cycles.
- `TraceFiles`, `Repacking`, `Trace`: rotation and repacking of the trace log.
- `EventBus`, `EventRuns`: buffered events and flushes under concurrent emission.
- `WorkerPool`: admission of delegated agents and the bounded worker pool.

Code that loops or mutates is a method or a class here, proved against a function or predicate that
says what it computes; the theorems are about those functions. Concurrent code is a state machine
whose steps are the sections between two suspension points.

## Where the code falls short of a natural claim

- Pruning is not idempotent, and a cached view may disagree with a fresh one, when the placeholder of
  a superseded read parses as numbered source lines (a path with a line break, digits and a tab in it),
  or when a user or system message carries a tool call with a nonblank id. `PruningLimits` gives the
  inputs and the exact conditions.
- A failure with blank error text is saved as a bare label, which later successes of the same
  invocation do not clear. `FailureEvidence` gives the exact condition.
- A changed path that is blank, or a padded or different placeholder, is not carried faithfully by
  saved evidence. `FileEvidence` gives the exact condition.
- When an adapter records the charge of a stream that then ends without a response, and a retry
  succeeds, the settled bill lacks that charge; and when a stream fails after completing, the bill has
  what the error reports instead. `SettlementLimits` gives the inputs and the exact condition; adapters
  made of wire requests, as the ones in the repository are, meet it.
- The record count that trace maintenance reports can exceed what is on disk. `Trace` gives the exact
  condition.
- A closing request is protected exactly when its owner has a name. `BudgetRuns` gives the input.

## Model

| member | source | states |
|---|---|---|
| Transcript.ValidateToolCallOrder | src/borealis_coder/agent/compaction.py:450-495 | Accepts exactly the conversations of the declarative grammar: nonblank, globally unique call ids, each batch followed by a permutation of its results, no stray result |
| Transcript.CheckBatch | src/borealis_coder/agent/compaction.py:472-493 | A batch whose ids are nonblank and distinct is accepted exactly when its results answer each call once, under its name |
| Transcript.AnswersIffComplete | src/borealis_coder/agent/compaction.py:472-493 | Collecting ids in a set and finding none missing is the same as the results being a permutation of the calls |
| Pairing.GrammarIsPairing | src/borealis_coder/agent/compaction.py:450-495 | Well-formed is the same as: call ids nonblank and unique, every call with exactly one result under its id and name in the run that follows it, and every result with such a call |
| Transcript.GrammarSplits | src/borealis_coder/agent/compaction.py:497-545 | A well-formed conversation cut where no result follows leaves two well-formed ones |
| Transcript.GrammarJoins | src/borealis_coder/agent/runner.py:378-388 | Two well-formed conversations with disjoint call ids concatenate to a well-formed one |
| Transcript.GrammarIgnoresContents | src/borealis_coder/agent/compaction.py:1041-1064 | Rewriting contents and metadata cannot break a well-formed conversation |
| Bundles.BundleConversation | src/borealis_coder/agent/compaction.py:497-545 | Fails exactly on ill-formed conversations, otherwise returns a bundling: nonempty typed bundles, in order, whose messages are the conversation |
| Bundles.TakeBundle | src/borealis_coder/agent/compaction.py:504-544 | The bundle at a position has the kind its first message calls for and ends where no result is left behind |
| Bundles.BundlingUnique | src/borealis_coder/agent/compaction.py:497-545 | There is only one bundling of a conversation |
| Bundles.WhereBundlesBegin | src/borealis_coder/agent/compaction.py:497-545 | A bundle begins at every message but tool results and calls that directly follow a plain request of the user, and nowhere else |
| Bundles.SuffixIsGrammatical | src/borealis_coder/agent/compaction.py:1236-1240 | Every suffix and every prefix of the bundles is again a well-formed conversation |
| Bundles.BundleIsGrammatical | src/borealis_coder/agent/compaction.py:158-168 | Each bundle alone is a well-formed conversation |
| ProviderView.PruneProviderMessages | src/borealis_coder/agent/compaction.py:221-330 | The index-and-cursor passes compute the declarative view, and count what they replaced |
| ProviderView.FirstPass | src/borealis_coder/agent/compaction.py:232-266 | The dictionaries filled by the first pass hold the latest mutation, read and discovery positions of the whole conversation |
| ProviderView.IsSuperseded | src/borealis_coder/agent/compaction.py:276-291 | A read is found superseded exactly when a later message mutates its path or repeats or covers it |
| PruningMeaning.ReadShownUnlessSuperfluous | src/borealis_coder/agent/compaction.py:268-299 | By the fields of messages: a read of a path and hash is shown as their placeholder exactly when a later result changes the path or a later read of the same revision has the same text or all its numbered lines; otherwise in full |
| PruningMeaning.HiddenReadsAreReplaced | src/borealis_coder/agent/compaction.py:276-299 | Nothing is lost: a read whose text is hidden is followed by a change of its path, or by a read of the same revision, shown in full, with the same text or all its lines |
| PruningMeaning.DiscoveryShownUnlessRepeated | src/borealis_coder/agent/compaction.py:300-312 | By the fields of messages: a successful discovery output is shown as a placeholder exactly when a later one of the same tool and arguments succeeds; otherwise in full |
| PruningMeaning.OthersShownInFull | src/borealis_coder/agent/compaction.py:268-312 | All other messages are shown in full |
| PruningTheorems.ViewIsGrammatical | src/borealis_coder/agent/compaction.py:221-312 | The view of a well-formed conversation is well-formed |
| PruningTheorems.PrunedReadJustified | src/borealis_coder/agent/compaction.py:276-299 | Every pruned read has a later mutation of its path, or a later read of the same path and hash that is itself unpruned and is identical or covers its lines |
| PruningTheorems.PrunedOutputJustified | src/borealis_coder/agent/compaction.py:300-312 | Every pruned discovery output has a later one of the same tool and arguments that is not pruned at all |
| PruningTheorems.WindowsAreStable | src/borealis_coder/agent/compaction.py:232-238 | In a well-formed conversation, results resolve to the same calls in every window that starts at a boundary, unless a call outside a batch bears the id of a batch call |
| PruningTheorems.IncrementalPruningAgrees | src/borealis_coder/agent/runner.py:3025-3031 | Pruning a cached view cut anywhere plus new messages shows what pruning everything from scratch shows |
| PruningTheorems.CachedViewAgrees | src/borealis_coder/agent/runner.py:3025-3031 | The same for every well-formed conversation cut at a boundary whose foreign calls bear no batch id, given canonical paths and inert placeholders |
| PruningTheorems.PruningIdempotent | src/borealis_coder/agent/compaction.py:221-312 | Pruning the view again changes nothing, given canonical paths and inert placeholders |
| PruningLimits.IdempotentExactlyWhenInert | src/borealis_coder/agent/compaction.py:295-299 | Pruning reads of a path and hash is idempotent on all well-formed conversations exactly when their placeholder has no line interval |
| PruningLimits.NumberedPlaceholderBreaks | src/borealis_coder/agent/compaction.py:352-365 | A placeholder that parses as numbered lines makes a second pruning remove a read that nothing supersedes |
| PruningLimits.HarmlessExactlyWhenBlank | src/borealis_coder/agent/compaction.py:236-238 | A user or system message with tool calls, which the checker ignores, leaves cached and fresh views equal in every well-formed conversation around it exactly when all its call ids are blank |
| PruningLimits.ShadowedView | src/borealis_coder/agent/compaction.py:236-238 | Two equal searches and then a message whose call takes over the id of the first make the views disagree |
| Evidence.ExtractEvidence | src/borealis_coder/agent/compaction.py:632-884 | The extraction loop computes, for changed files and open failures, the folds over the events of the conversation |
| EvidenceMeaning.OpenFailuresOfMessages | src/borealis_coder/agent/compaction.py:747-757 | By the fields of messages: an entry is extracted exactly when the last result of some invocation is an error, and it is the label of the invocation with the end of that message; without any the list says so |
| EvidenceMeaning.EntriesStandInOrder | src/borealis_coder/agent/compaction.py:747-757 | Of two invocations whose last result is an error, the one that failed last stands later among the open failures |
| EvidenceMeaning.ChangedFilesOfMessages | src/borealis_coder/agent/compaction.py:715-724 | By the fields of messages: a path is extracted exactly when a path-changing tool succeeded on it or a result lists it in its metadata, stripped, and placeholders only if there is nothing else |
| Text.TailKeepsTheEnd | src/borealis_coder/agent/compaction.py:595-599 | A long diagnostic keeps its end, after a note |
| Evidence.Dedupe | src/borealis_coder/agent/compaction.py:584-592 | Keeps the first occurrence of each stripped nonblank item, in order |
| Evidence.Clear | src/borealis_coder/agent/compaction.py:748-753 | Removes exactly the entries that start with the label of the invocation |
| FailureEvidence.OpenFailuresAreLastErrors | src/borealis_coder/agent/compaction.py:747-757 | An entry is kept exactly for each invocation whose last outcome is an error, with the text of that error |
| FailureEvidence.OneEntryEach | src/borealis_coder/agent/compaction.py:747-757 | No invocation has two entries |
| FailureEvidence.FailuresRender | src/borealis_coder/agent/compaction.py:747-757 | The entries come in the order in which their invocations last failed |
| FailureEvidence.ContinuedFailuresAgree | src/borealis_coder/agent/compaction.py:640-641 | Continuing from saved failures agrees with starting over, whatever comes next among invocations with distinguishable labels, exactly when every saved open failure has nonblank text |
| FailureEvidence.BlankFailureIsStuck | src/borealis_coder/agent/compaction.py:584-592 | A failure with blank text is saved as a bare label, which a later success does not clear |
| FileEvidence.ContinuedPathsAgree | src/borealis_coder/agent/compaction.py:626-629 | Saved changed files can be continued exactly when the paths are plain: a path that is blank, padded around a placeholder, or another placeholder spoils some list |
| FileEvidence.PlainPathsAgree | src/borealis_coder/agent/compaction.py:723-724 | For plain paths, continuing from saved changed files agrees with starting over |
| EvidenceContinues.EventsSplit | src/borealis_coder/agent/compaction.py:683-690 | A well-formed conversation cut at a boundary contributes the events of its two parts |
| EvidenceContinues.SavedEvidenceContinues | src/borealis_coder/agent/compaction.py:1260-1263 | Evidence saved at a boundary and continued over the rest is the evidence of the whole conversation, for nonblank open failures and plain paths |
| Summary.ShrinkValueIndex | src/borealis_coder/agent/compaction.py:932-941 | Picks the recorded git state of the verification section, the last work not in progress, or else the first value |
| Summary.ShrinkSection | src/borealis_coder/agent/compaction.py:959-974 | Shrinks one section until the text fits or the section is at its floor; it ends for every estimator |
| Summary.RenderSummary | src/borealis_coder/agent/compaction.py:944-995 | Returns the first candidate of the shrink sequence that fits, and an error only if none does |
| Summary.SummaryFitsInOrder | src/borealis_coder/agent/compaction.py:944-995 | A returned summary meets the character, token and byte limits, has all nine sections, and a section changed only if every one before it in the order is at its floor |
| Summary.FailureMeansFloors | src/borealis_coder/agent/compaction.py:959-991 | Shrinking returns the first candidate that fits, and fails exactly when no candidate does from the given sections down to all their floors |
| Summary.CriticalSectionsGiveWayLast | src/borealis_coder/agent/compaction.py:944-995 | The objective changes only after all other sections are spent, the user's constraints only after all but the objective, and nothing else before the excerpts are spent |
| Summary.WhatIsLost | src/borealis_coder/agent/compaction.py:959-987 | What a section loses at a time: one of several values, half of a single long one, or, if it is not critical, all |
| Summary.EveryValueIsRendered | src/borealis_coder/agent/compaction.py:902-920 | Every value of every section is in the text as a bullet under the title of its section, and an empty section says that it is |
| Summary.EverySectionIsRendered | src/borealis_coder/agent/compaction.py:902-907 | Every section is in the rendered text under its heading |
| Compaction.ShrinkDiagnostics | src/borealis_coder/agent/compaction.py:1041-1064 | Shortens tool results by decreasing limits and stops at the first candidate that fits |
| Compaction.DiagnosticsShrinkInSteps | src/borealis_coder/agent/compaction.py:1041-1064 | Tool results are cut to 4000, 2000, 1000, 500 and 200 characters in turn, until the messages fit and no further |
| Compaction.WhatIsTrimmed | src/borealis_coder/agent/compaction.py:1053-1062 | A tool result that is too long is shown by its end, with a note and a mark; nothing else changes |
| Compaction.DiagnosticsKeepShape | src/borealis_coder/agent/compaction.py:1041-1064 | Shortening diagnostics changes only the contents of tool results |
| Compaction.RenderToFit | src/borealis_coder/agent/compaction.py:1295-1335 | The byte-refit loop ends, with a rendering whose whole result fits in bytes or with an error |
| Compaction.RoomForTokens | src/borealis_coder/agent/compaction.py:1279-1288 | A summary may have the tokens that the recent messages and its framing leave of the target, but at least one, within its own limit |
| Compaction.RoomForBytes | src/borealis_coder/agent/compaction.py:1289-1298 | Likewise for bytes |
| Compaction.NextLimitOfBytes | src/borealis_coder/agent/compaction.py:1316-1329 | The next byte limit is below the last one, and below the size of the rendering by at least what is too much |
| Compaction.RefittedFits | src/borealis_coder/agent/compaction.py:1301-1335 | A rendering that survives the byte-refit loop came from the renderer and fits the byte target |
| Compaction.CompactMessages | src/borealis_coder/agent/compaction.py:1210-1373 | Returns the input, or one summary followed by the most recent bundles for the largest number of bundles that works; fails exactly when ill-formed or when no number works |
| Compaction.HowManyMayBeKept | src/borealis_coder/agent/compaction.py:1225-1238 | Retained are at most as many bundles as are asked for, in bundles or else in messages, and never all of several |
| Compaction.WhenNothingIsCompacted | src/borealis_coder/agent/compaction.py:1226-1235 | The input is returned exactly if compaction is not forced, few bundles exist and everything fits both targets |
| Compaction.ResultIsWithinTargets | src/borealis_coder/agent/compaction.py:1341-1372 | The result is a system message with the summary, and the recent messages, within both targets |
| Compaction.AttemptIsSound | src/borealis_coder/agent/compaction.py:1239-1372 | Compacted ids followed by retained ids are the source ids, the retained messages are well-formed, and the result fits its targets |
| Compaction.RecentIsASuffix | src/borealis_coder/agent/compaction.py:1241-1251 | The retained messages are a suffix of the bundles, of which only diagnostics may be shortened, and only for a single bundle |
| Compaction.AttemptSummarizes | src/borealis_coder/agent/compaction.py:1295-1335 | The summary of a compaction is a rendering of all nine sections, cut in the order of their priority |
| Adjustment.NextTargets | src/borealis_coder/agent/runner.py:258-308 | What does not fit gets a strictly smaller positive target and the other target stays; no room is reported exactly when a target cannot shrink, and a lack of progress never |
| Adjustment.WhenRequestsFit | src/borealis_coder/agent/runner.py:267-283 | A request fits exactly if its tokens are within what continuation state leaves of the target, and its bytes within theirs |
| Adjustment.AdjustTargets | src/borealis_coder/agent/runner.py:2556-2602 | The loop compacts for tighter and tighter targets, makes at most two compactions more than there are messages, and settles on its last one; a compaction it returns is sound for the first targets and its request fits |
| Adjustment.AdjustedIsSound | src/borealis_coder/agent/runner.py:2556-2605 | A compaction it returns is sound for the targets it began with, and the request that carries it fits the budget of what it retains |
| Adjustment.UntouchedAtOnce | src/borealis_coder/agent/runner.py:2557 | The conversation itself is returned only by the first compaction |
| Adjustment.OverrunsReserveMore | src/borealis_coder/agent/runner.py:283-288 | Retained messages that exceed the token budget reserve strictly more continuation state than all earlier ones that did |
| Adjustment.OverrunsAreFew | src/borealis_coder/agent/runner.py:2556-2602 | Fewer compactions exceed the token budget than there are bundles, but for a single one |
| Adjustment.OnlyBytesDiverge | src/borealis_coder/agent/runner.py:2577-2581 | The loop gives up for want of convergence only if some request it tried was within its tokens and exceeded its bytes |
| Chunks.LargestFittingChunk | src/borealis_coder/agent/compaction.py:1438-1459 | The binary search loop computes the searched prefix |
| Chunks.ChunkIsLocallyLargest | src/borealis_coder/agent/compaction.py:1438-1459 | A nonempty chunk fits, and one character more does not, for any estimator |
| Chunks.ChunkIsLargestWhenSizesGrow | src/borealis_coder/agent/compaction.py:1438-1459 | The chunk is the largest fitting prefix where every shorter prefix of a fitting one fits |
| Chunks.NextLimitIsProportional | src/borealis_coder/agent/compaction.py:1510-1519 | The next length to try is below the last one and otherwise the largest that, in proportion, takes nine tenths of both totals |
| Chunks.LimitsOfChunks | src/borealis_coder/agent/compaction.py:1469-1470 | Four bytes are allowed for each token, in one request and in total |
| Chunks.BoundedChunks | src/borealis_coder/agent/compaction.py:1462-1521 | The nested loops end and compute the chunks of the longest truncation tried that stays within the totals |
| Chunks.ChunksTileATruncation | src/borealis_coder/agent/compaction.py:1462-1521 | Chunks tile a truncation without gap or overlap within request limits and totals, and tile the whole transcript whenever the totals allow that |
| Wire.Messages | src/borealis_coder/providers/anthropic.py:201-235 | The loop over messages computes the entries of the wire form |
| Wire.AppendContent | src/borealis_coder/providers/anthropic.py:291-299 | Extends the last entry of the same role, otherwise opens one; empty content opens none |
| Wire.WireTellsEverything | src/borealis_coder/providers/anthropic.py:201-235 | In order, the wire form tells the texts of users and of assistants, the calls with ids, names and arguments, and the results with ids, contents and error flags |
| Wire.WirePreservesContent | src/borealis_coder/providers/anthropic.py:201-235 | Entries alternate roles, are nonempty, and say exactly the blocks of the messages in order |
| Wire.AlternationUnique | src/borealis_coder/providers/anthropic.py:291-299 | There is only one alternating list of entries that says the same |
| Wire.WireIsAnswered | src/borealis_coder/providers/anthropic.py:201-235 | Each user entry opens with results for exactly the tool uses of the assistant entry before it, and none is left open |
| Charges.Usage.Add | src/borealis_coder/models.py:160-188 | Adding a record in place, even to itself, gives the sum of counters, the merged status and the reports of both |
| Charges.Usage.AddStatus | src/borealis_coder/models.py:160-169 | The merged status of two records |
| Charges.TotalMeaning | src/borealis_coder/models.py:160-188 | The status of a fold depends only on which statuses the nonempty records have |
| Charges.StatusOfTotal | src/borealis_coder/models.py:160-170 | The cost of a total is incomplete if that of a part is, or if it is unknown for some and not for others; else unknown, estimated or known, in this order |
| Charges.TotalIgnoresOrder | src/borealis_coder/models.py:160-188 | A fold of countable records does not depend on their order, cost status included |
| Charges.TotalIgnoresGrouping | src/borealis_coder/models.py:160-188 | Nor on their grouping: two folds added are the fold of both lists |
| Charges.SignedCountersDependOnOrder | src/borealis_coder/models.py:127-145 | With negative counters the order would change the status |
| RunBudget.Budget.constructor | src/borealis_coder/agent/budget.py:56-58 | A budget starts with empty books |
| RunBudget.Budget.BeforeTurn | src/borealis_coder/agent/budget.py:64-68 | Takes a turn, or refuses for turns, time or cost and changes nothing |
| RunBudget.Budget.RetryCurrentTurn | src/borealis_coder/agent/budget.py:81-86 | Gives a turn back, unless none has begun |
| RunBudget.Budget.RemainingRequests | src/borealis_coder/agent/budget.py:88-91 | What is left of the allowance apart from the reservations of others |
| RunBudget.Budget.ReserveClosure | src/borealis_coder/agent/budget.py:93-100 | Reserves a closing request once, if one is free |
| RunBudget.Budget.ReleaseClosure | src/borealis_coder/agent/budget.py:102-103 | Gives a reservation back |
| RunBudget.Budget.BeforeModelRequest | src/borealis_coder/agent/budget.py:105-118 | Counts a request and uses up its reservation, or refuses and changes nothing |
| RunBudget.Budget.CheckUnsettled | src/borealis_coder/agent/budget.py:155-166 | Refuses a retry while any charge is unreconciled or the settled, pending and unheld cost exceeds the limit |
| RunBudget.Budget.ReserveCost | src/borealis_coder/agent/budget.py:120-143 | Reserves an estimate that still fits the budget, or refuses and changes nothing |
| RunBudget.Budget.ReleaseCost | src/borealis_coder/agent/budget.py:168-169 | Takes a reservation out of the pending cost |
| RunBudget.Budget.HoldUsage | src/borealis_coder/agent/budget.py:145-149 | Replaces the held cost of a record by its present one |
| RunBudget.Budget.ReleaseUsage | src/borealis_coder/agent/budget.py:151-153 | Takes a hold out of the pending cost |
| RunBudget.Budget.AddUsage | src/borealis_coder/agent/budget.py:171-178 | Settles a charge, and reports if the budget is now exceeded |
| RunBudget.WhenTurnsAreGranted | src/borealis_coder/agent/budget.py:60-68 | A turn is granted exactly while turns, time and money are left |
| RunBudget.WhenRequestsAreGranted | src/borealis_coder/agent/budget.py:105-118 | A request is granted exactly while time and money are left and the allowance exceeds the requests made and the closing requests of others |
| RunBudget.WhenClosuresAreReserved | src/borealis_coder/agent/budget.py:93-100 | A closing request is reserved exactly if it is already or requests are left beside all reserved ones |
| RunBudget.WhenAttemptsAreAllowed | src/borealis_coder/agent/budget.py:155-166 | A further attempt is allowed exactly while time and money are left and, under a limit, no charge is in doubt and all charges together are within it |
| RunBudget.WhenEstimatesAreReserved | src/borealis_coder/agent/budget.py:120-143 | An estimate is reserved exactly while attempts are allowed, the model has a price and the estimate fits beside all that is settled and pending |
| RunBudget.WhatIsHeld | src/borealis_coder/agent/budget.py:145-149 | A held charge is pending at its present cost and remembers whether it is in doubt |
| BudgetRuns.PendingIsReservationsPlusHolds | src/borealis_coder/agent/budget.py:143-169 | In every interleaving the pending cost is the sum of open reservations and held charges |
| BudgetRuns.SettledCostIsBounded | src/borealis_coder/agent/runner.py:3665-3683 | If no route is charged more than it reserved and no request billed more than was observed for it, the settled cost never exceeds a positive limit, in any interleaving |
| BudgetRuns.RunsStayCovered | src/borealis_coder/agent/runner.py:4102-4106 | Settled cost plus observed charges plus unused estimates stays within the limit over whole runs |
| BudgetRuns.UnderestimatesOverspend | src/borealis_coder/agent/budget.py:120-143 | A charge can overspend the budget of otherwise honest siblings exactly when it exceeds the estimate its route reserved |
| BudgetRuns.RequestsAreNeverOversold | src/borealis_coder/agent/budget.py:88-118 | Requests made plus closing requests reserved never exceed the allowance |
| BudgetRuns.ClosingRequestIsNeverStolen | src/borealis_coder/agent/budget.py:88-118 | An owner that reserved a closing request keeps it and is never refused it for want of requests, whatever the others do |
| BudgetRuns.UnnamedOwnerIsStarved | src/borealis_coder/agent/budget.py:88-91 | A reservation under the empty name is not counted as its owner's and can be refused |
| BudgetRuns.ProtectedExactlyWhenNamed | src/borealis_coder/agent/budget.py:88-118 | In every run a kept reservation protects its owner's closing request exactly when the owner name is not empty |
| Settlement.RecordAttempt | src/borealis_coder/agent/runner.py:4092-4106 | An attempt adds to the collector the charges its adapter records, or else the one charge offered |
| Settlement.StreamRoute | src/borealis_coder/agent/runner.py:4066-4294 | The retry loop of a route: its exit, and what it adds to the collector |
| SettlementPolicy.AttemptsTried | src/borealis_coder/agent/runner.py:4243-4272 | By the fields of attempts: another attempt follows exactly after a provider error of a fallible kind that is retryable, if nothing actionable was emitted and attempts are left |
| SettlementPolicy.RouteExitsAsItsLastAttempt | src/borealis_coder/agent/runner.py:4243-4294 | The last attempt made decides how a route exits |
| SettlementPolicy.RoutesTried | src/borealis_coder/agent/runner.py:3553-3749 | By the fields of routes: the next route is tried exactly after one that does not fit or that ends in a fallible error |
| SettlementPolicy.CallExitsAsItsLastRoute | src/borealis_coder/agent/runner.py:3553-3749 | The last route reached decides how a request exits |
| SettlementPolicy.WhatIsRecorded | src/borealis_coder/agent/runner.py:4092-4106 | What each kind of attempt records |
| SettlementPolicy.WhatIsReported | src/borealis_coder/agent/runner.py:4230-4263 | What each kind of attempt reports |
| SettlementPolicy.WhatIsSettled | src/borealis_coder/agent/runner.py:3497-3514 | What each kind of exit settles |
| SettlementPolicy.MissesAreCounted | src/borealis_coder/agent/runner.py:3655-3689 | With the cache enabled an answer counts one miss for each route that was streamed |
| Settlement.CompleteWithFallback | src/borealis_coder/agent/runner.py:3516-3749 | The fallback loop of a request: its exit, and what it adds to the collector |
| Settlement.CompleteRequest | src/borealis_coder/agent/runner.py:3475-3514 | The one charge that is settled for a request at each exit |
| SettlementTheorems.CollectorIsComplete | src/borealis_coder/agent/runner.py:4102-4106 | The collector is the total of everything its attempts recorded |
| SettlementTheorems.RouteCarries | src/borealis_coder/agent/runner.py:4255-4272 | What leaves a route carries the total of what its attempts reported |
| SettlementTheorems.SettledExactlyOnce | src/borealis_coder/agent/runner.py:3475-3749 | At every exit the settled tokens, requests, cost and cost status are the total over all attempts; only where reports are settled (a response, or an error with nothing recorded) must attempts report what they recorded |
| SettlementTheorems.StopsAndErrorsSettleWhatWasRecorded | src/borealis_coder/agent/runner.py:3497-3514 | Cancellations, budget stops and errors after recorded charges settle what was recorded, unconditionally |
| SettlementTheorems.CarriersReconcile | src/borealis_coder/agent/runner.py:4092-4106 | Attempts whose response or error carries what their adapter recorded reconcile, but for unfinished recording streams and errors after completion |
| SettlementLimits.BilledRightExactlyWhenNothingIsLost | src/borealis_coder/agent/runner.py:4066-4294 | For such attempts, where errors after completion report no more than was recorded, a settled report has the recorded counters exactly when no tried attempt is an unfinished stream with a nonzero recorded charge or an error after completion that reports something else |
| SettlementLimits.LossesAddUp | src/borealis_coder/agent/runner.py:4255-4263 | Losses do not cancel: the total lost over all attempts is nothing exactly when no attempt loses anything |
| SettlementLimits.StatusRightExactlyWhenIncompleteAnyway | src/borealis_coder/agent/runner.py:4226-4234 | Without errors after completion, the cost status is right as well exactly when no recording stream ended unfinished or the recorded cost is incomplete anyway |
| SettlementLimits.BillIsNoMoreThanRecorded | src/borealis_coder/agent/runner.py:3475-3514 | No request is billed more than was recorded for it |
| SettlementLimits.UnfinishedStreamLosesItsCharge | src/borealis_coder/agent/runner.py:4226-4234 | A recorded stream that ends without a response, retried with success, loses its charge from the settled bill |
| SettlementLimits.LateFaultSettlesItsReport | src/borealis_coder/agent/runner.py:4255-4263 | A stream that completes and then fails, retried with success, is billed what its error reports instead of what it cost |
| SettlementLimits.TooMuchMakesUpForTooLittle | src/borealis_coder/agent/runner.py:4255-4263 | An error that reports too much can hide an unfinished stream, so the condition must exclude it |
| Retries.RequestAttempt | src/borealis_coder/providers/base.py:108-150 | Exactly one charge is observed for a wire request, and an error leaves with that charge unless another was recorded first |
| Retries.RelayedAttemptsReconcile | src/borealis_coder/providers/openai.py:148-180 | Attempts made of wire requests, recovery requests included, report what is recorded for them and can lose nothing |
| Retries.RelayedOperationsReturn | src/borealis_coder/providers/openai.py:110-144 | The result or error of an operation made of wire requests carries the charges observed |
| Retries.RetriesWhileRetryable | src/borealis_coder/providers/base.py:190-243 | By the fields of attempts: another one follows exactly after a retryable provider error if attempts are left, and the last one decides how the loop exits |
| Retries.WhatIsObserved | src/borealis_coder/providers/base.py:193-225 | What is observed for each kind of attempt |
| Retries.RetryOperation | src/borealis_coder/providers/base.py:174-243 | The shared retry loop: its exit and the charges it shows to the observer |
| Retries.UnrecordedOperationsReturn | src/borealis_coder/providers/base.py:190-216 | So does that of an operation that leaves recording to the loop |
| Retries.RetriesLoseNothing | src/borealis_coder/providers/base.py:174-243 | The result or error of a retried operation carries exactly the charges observed, if that of each attempt does |
| Retries.RetriedAttemptsReconcile | src/borealis_coder/providers/base.py:61-71 | Attempts that stream by completing with retries report what is recorded for them |
| Retries.AdaptersSettleExactlyOnce | src/borealis_coder/agent/runner.py:3475-3749 | Over adapters made of wire requests, retried or not, or that record nothing and do not fail after completing, every request settles exactly what was recorded, at every exit |
| Recovery.AbandonedToolCallResults | src/borealis_coder/agent/runner.py:391-444 | Succeeds exactly when some list of results could complete the conversation, and then completes it |
| Recovery.RepairsIffCompletable | src/borealis_coder/agent/runner.py:391-444 | The repairs complete a conversation whenever any list of results does |
| Recovery.RepairsFillTheBatch | src/borealis_coder/agent/runner.py:391-444 | Results and repairs together are a permutation of the calls, and recording the repairs leaves nothing to repair |
| Recovery.RepairsNameTheirCalls | src/borealis_coder/agent/runner.py:414-442 | Each repair is an error result under the id and name of a call without a result; its text and marks say that the outcome is unknown exactly if the call had started, and that it was never executed exactly if not |
| Recovery.EveryMissingCallIsRepaired | src/borealis_coder/agent/runner.py:411-413 | Every call without a result gets a repair |
| Recovery.RecoveryIdempotent | src/borealis_coder/agent/runner.py:391-444 | A well-formed conversation gets no repairs |
| SessionRuns.ValidateNewToolCallIds | src/borealis_coder/agent/runner.py:354-388 | Accepts exactly nonblank, distinct ids that no earlier assistant message used |
| SessionRuns.RunsStayRepairable | src/borealis_coder/agent/runner.py:843-879 | In every run of appends, results in any order, crashes at any point and restarts, the store stays repairable |
| SessionRuns.RestartAlwaysRecovers | src/borealis_coder/agent/runner.py:843-879 | A restart after any run recovers |
| SessionRuns.RestartTellsWhatWasRunning | src/borealis_coder/agent/runner.py:843-879 | What a restart records for each call without a result says that its outcome is unknown if it was running when the session stopped, and else that it was never executed |
| SessionRuns.RecoveryDrains | src/borealis_coder/agent/runner.py:843-879 | Recording all repairs leaves a well-formed store without running calls |
| ToolBatch.ExecuteCalls | src/borealis_coder/agent/runner.py:4296-4348 | Whether it returns or is stopped, the store then holds exactly one result for every call of the batch: what its execution came to, reads first, or that it was not started and why; a normal return gives the results in the order of the calls |
| ToolBatch.RunReads | src/borealis_coder/agent/runner.py:4318-4326 | Reads are recorded in the order in which they complete, each at most once |
| ToolBatch.ChosenInOrder | src/borealis_coder/agent/runner.py:4303-4308 | Reads and other calls each keep the order of the batch |
| ToolBatch.RecordUnstartedCalls | src/borealis_coder/agent/runner.py:4350-4410 | Closes exactly the calls without a result, so that the batch is answered |
| ToolBatch.NewIdsAreUnanswered | src/borealis_coder/agent/runner.py:354-388 | Calls with checked new ids have no earlier results, so none is mistaken for answered |
| ToolBatch.BatchesStayWellFormed | src/borealis_coder/agent/runner.py:4296-4348 | However its execution ends, a checked batch leaves a well-formed conversation |
| TurnLoop.HandleCandidate | src/borealis_coder/agent/runner.py:1964-2049 | An answer ends the run normally only with its changes verified, or with failing checks and no repairs left; it is sent back only with turns left and repairs allowed |
| TurnLoop.TakeTurn | src/borealis_coder/agent/runner.py:996-1209 | What an iteration does: it goes on only by using a turn, or an overflow retry within one; it records every change of the workspace; and how it exits for each reply |
| TurnLoop.RunTurns | src/borealis_coder/agent/runner.py:996-1217 | The loop ends in every environment; on a normal end after an iteration that touched the workspace, an answer was verified and no notice, script or tool call changed the workspace after the last verification; repairs stay within the configured number |
| Trace.JsonlTrace.constructor | src/borealis_coder/events.py:75-91 | A trace starts without records |
| Trace.JsonlTrace.Rotate | src/borealis_coder/events.py:178-191 | Shifts every file by one number and drops the oldest |
| Trace.JsonlTrace.AppendMany | src/borealis_coder/events.py:96-110 | Appends records one by one, rotating a file that would exceed its size |
| Trace.JsonlTrace.Maintenance | src/borealis_coder/events.py:116-176 | Repacks the valid records newest first and reports; a dry run changes nothing |
| Trace.Slide | src/borealis_coder/events.py:127-143 | The sliding window keeps the longest suffix of the valid records within the capacity |
| Trace.PackChunks | src/borealis_coder/events.py:153-164 | The greedy loop packs the window newest first |
| TraceFiles.AppendsStayFaithful | src/borealis_coder/events.py:96-110 | After any appends the log is a suffix of all records ever appended, each file within its size or holding one record |
| TraceFiles.FreshLogIsSuffix | src/borealis_coder/events.py:96-110 | The same from an empty trace |
| TraceFiles.WhenFilesRotate | src/borealis_coder/events.py:96-110 | A record opens a new file exactly when the live one is not empty and would exceed its size; the others then move up by one number |
| TraceFiles.NothingLostEarly | src/borealis_coder/events.py:178-191 | Nothing is lost while the oldest backup is unused |
| Repacking.RepackKeepsTheMost | src/borealis_coder/events.py:116-172 | Of all suffixes of the valid records that can be cut into the available segments, repacking keeps the longest |
| Repacking.RepackTwice | src/borealis_coder/events.py:116-172 | A second repack keeps every record and every segment |
| Trace.MaintenanceIsOptimal | src/borealis_coder/events.py:116-176 | Maintenance of the files on disk keeps the longest suffix of the valid records that fits them |
| Trace.MaintenanceIsIdempotent | src/borealis_coder/events.py:116-176 | A second maintenance changes no file |
| Trace.ReportIsExactWhenChunksFit | src/borealis_coder/events.py:144-150 | The reported number of records is what is on disk exactly when packing needs no more files than there are |
| Trace.ReportMayOverstate | src/borealis_coder/events.py:144-172 | The report can exceed what is on disk |
| EventBus.Bus.Emit | src/borealis_coder/events.py:239-262 | Buffers an event and flushes for events that are not deltas or at a full batch |
| EventBus.WhenToFlush | src/borealis_coder/events.py:259-262 | An emission flushes for an event that is no streamed delta, or once 64 events are buffered |
| EventBus.Bus.BeginFlush | src/borealis_coder/events.py:273-277 | A flush with the lock takes all pending events as its batch |
| EventBus.Bus.Persist | src/borealis_coder/events.py:278-282 | A persist call stores its whole batch |
| EventBus.Bus.DropStored | src/borealis_coder/events.py:283-285 | Only the stored batch leaves the buffer |
| EventBus.Bus.FinishFlush | src/borealis_coder/events.py:286-287 | Only the traced batch leaves the buffer, and the lock is released |
| EventRuns.EveryRunReaches | src/borealis_coder/events.py:239-287 | Every sequence of steps can be run, so the claims about runs are about all of them |
| EventRuns.NothingIsLost | src/borealis_coder/events.py:239-287 | In every interleaving, stored events followed by unstored ones are the eligible emitted ones in order, and likewise for the trace |
| EventRuns.EveryWantedEventIsKept | src/borealis_coder/events.py:239-287 | By the fields of events: each event, streamed deltas only if they are wanted, is stored or buffered as often as it was emitted, and no other is |
| EventRuns.ObservedIsStored | src/borealis_coder/events.py:261-271 | Observers see an event that is not a delta only after it is stored |
| EventRuns.QuietBuffersAreSmall | src/borealis_coder/events.py:259-262 | Once every emission has returned without error, fewer events than a batch are buffered |
| WorkerPool.SwarmState.Admit | src/borealis_coder/agent/swarm.py:41-50 | Admits a descendant within depth and number, and never gives a reservation back |
| WorkerPool.AdmissionsAreBounded | src/borealis_coder/agent/swarm.py:41-50 | However many ask, no more are admitted than the limit |
| WorkerPool.EachItemStartsOnce | src/borealis_coder/agent/swarm.py:58-70 | In every schedule items start in order, each at most once, with at most min(items, max(1, limit)) in flight |
| WorkerPool.ReturnRefinesMap | src/borealis_coder/agent/swarm.py:71-77 | A normal return gives the result of every item in order, as a sequential map would |
| WorkerPool.NoWorkerOutlivesTheCall | src/borealis_coder/agent/swarm.py:71-76 | When the call is left with an error, no worker is live |
| WorkerPool.StepsMakeProgress | src/borealis_coder/agent/swarm.py:65-77 | Every step of a schedule brings the end closer |
| WorkerPool.NeverStuck | src/borealis_coder/agent/swarm.py:65-77 | Until the call is over, some step is possible |

## Left out

- Regular expressions, path normalization, JSON, hashing and HTML escaping are opaque functions; the
  assumptions on them are named predicates (`CanonicalPaths`, `Tags`) and are hypotheses of the lemmas
  that need them. The labels of the invocations that occur are assumed distinguishable, which holds up
  to a collision of their truncated digests.
- Message metadata is reduced to the keys that the modelled code reads, and attachments of other kinds
  are not modelled.
- Money is counted in exact integers; the rounding of pending cost to twelve decimals, and the ratios
  0.6 and 0.9 as binary floating point, are exact here.
- `Provider.price_usage` and `normalize_cost`: usage records are taken as already priced.
- RunBudget.Budget.ReserveCost: the price lookup and the estimate formula are not modelled; the estimate
  of a request, or its absence, is a parameter.
- Evidence.ExtractEvidence: does not compute the evidence fields other than open failures and changed
  files; the remaining ones are bounded excerpts that are not meant to be continued from saved evidence.
- ProviderView.PruneProviderMessages: does not compute the token metrics of the pruner, only its counts.
- Artifact fingerprints and caching of prepared requests.
- `compact_messages_v1`, the model-written summary and its validation: the first repeats the shape of
  the compaction modelled here.
- Trace files that do not exist are empty files, and file locking is not modelled; records are at least
  one byte.
- A persist or trace call takes all of its batch or none, and a flush is not cancelled.
- The turn loop takes what the model, its tools, the user and the checks do from an arbitrary
  environment; messages, prompts and the publication of results are not modelled.
- `ContextBudget.calculate` and `resolve_route_limits`: arithmetic on configuration values, apart from
  the message target that remains after the continuation state.
- ToolBatch.ExecuteCalls: does not model stops other than cancellation, budget and host failure, which
  leave the batch to the recovery of the next run, nor a call whose store status is terminal while its
  result message is missing; what a tool does is an arbitrary result for its call.
- Adjustment.AdjustTargets: reuse of stored summaries and the model-written summary that may replace
  the deterministic one afterwards are not modelled.
- Provider protocols other than the Anthropic message form, transports, storage, process control and
  user interfaces.
- WorkerPool.EachItemStartsOnce: cancellation is a step that may end any worker at any time, which
  covers the points where the event loop can deliver it and more.
- BudgetRuns.SettledCostIsBounded: assumes that charges of a route arrive while its reservation is
  open, and that holds are released and settled in one section, as the runner does. That a bill is no
  more than was observed is proved in `SettlementLimits.BillIsNoMoreThanRecorded`.
- SettlementLimits.StatusRightExactlyWhenIncompleteAnyway: says nothing of the cost status when an error
  follows a completed response, since the statuses of other attempts may hide what it reports.
- SettlementTheorems.SettledExactlyOnce: the cache counters of the application are not part of the bill,
  and charges have no negative counter apart from cache savings that come with tokens.
