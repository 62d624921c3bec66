# TravelClaw, verified

TravelClaw is a travel desk: a chat gateway lets a model call tools, streams the answer to the
browser, searches providers for offers, asks them for holds, drives a bounded browser worker and
keeps memory notes. This project models its state machines and algorithms in Dafny 4.11 and proves
what their comments and tests promise, for every input and every run. `dafny verify dfyconfig.toml`
checks all of it.

Code that changes state step by step is modelled by methods and classes with the same fields, loops
and branches; asynchronous code is cut into the synchronous stretches between its awaits, and every
interleaving of those stretches is a run. Clocks, random numbers, networks, pages, models, tools,
providers and databases are arbitrary functions or arbitrary events, so a theorem holds whatever
they do. Regular expressions and JSON are either written out (the memory bullet, `LIKE`) or are
parameters with the assumption named (`TurnReader.Faithful`, `Turn.ReadsTrimmed`).

| module | models |
|---|---|
| `CityNames` | edit distance by matrix, recursion and scripts; the strictly-closest correction |
| `ToolCalls`, `Turn`, `TurnEnds` | planning and running tool calls; the rounds of a turn and the draft on the screen; when the rounds end, and what each of them runs |
| `Semaphore`, `Engine` | the abortable FIFO semaphore; browser sessions, action budget, learned procedures |
| `Retry`, `OpenAi`, `ModelStream`, `ModelTurn` | the retry engine; assembling a streamed completion; one model call over its attempts; what it promises the turn |
| `Frames`, `TurnReader`, `LiveTurn`, `Race` | server-sent event text, its incremental reader, the two views of a live turn, and the race between them |
| `Holds`, `Providers` | holds, decisions and stored offers; fair interleaving and accounting of offers |
| `RateLimiter` | the fixed-window limiter with its sweep |
| `Bullet`, `Memory`, `Fts` | memory bullets, notes with index and file, search patterns and ranking |
| `Text`, `Sequences`, `Numbers`, `Wrappers` | white space, trimming, tails; facts about sequences and counts; options |

## Where the code does something else than its comments say

The code is modelled as it is; the member named in each point states it.

- A fixed window of budget `max` can admit `2 * max - 1` calls within any `windowMs`, and no more
  (`RateLimiter.AtMostTwoBudgets`, `RateLimiter.TwoBudgetsAreReached`).
- A tool that failed terminally would run again if a later terminal failure under its name had an empty first
  sentence, which overwrites the reason (`Turn.ReasonlessFailureRevives`). The bundled tools always give one, and
  for tools that do no dead tool runs again (`Turn.DeadToolDoesNotRunAgain`).
- The screen and the returned reply differ when the model streams only white space and the desk's own
  words replace it: those words are never sent (`Turn.BlankDraftCanStand`). For models whose deltas are their text,
  `Turn.CompleteTurn` proves this is the only case.
- A model answer that was cut off shows a note that its returned text lacks
  (`ModelStream.ShownAndReturned`), so the stored reply of such a turn is shorter than the screen.
  `ModelTurn.StreamedTurnsReadAlikeExactly` says for a whole turn when the two read alike.
- `ModelEmptyError` and `ModelAttemptTimeoutError` raised while a stream is read are caught by the reader's own
  `catch` and come out as `ModelStreamError` (`ModelStream.ThrowsInSilence`), which is retried after the first
  attempt only (`ModelStream.BrokenAnswerGoesOnExactly`).
- An HTTP status that asks for more than 1.2 s is not retried, although the call's policy would wait up to 20 s
  (`ModelStream.StatusGoesOnExactly`, `ModelStream.FiveSecondsAreNotWaitedFor`).
- `maxWaitMs` is not a bound on the desk's own pauses: a fractional cap is rounded past it
  (`Retry.FractionalCapCanBeExceeded`). `Retry.BackoffFitsExactly` says for which policies it is one.
- The guards of the clamp against NaN and infinite fields leave a policy in range exactly when neither delay is NaN
  or positive infinity (`Retry.ClampIsUsableExactly`).
- "The gateway's ordering wins" in `liveTurn.ts` holds only when the snapshot brings news
  (`LiveTurn.OrderWinsOnlyWithNews`).
- The stream and the polled snapshots cannot race freely, and the card does move backwards. A delta that arrives after
  its words were polled shows them twice (`Race.LateDeltaRepeatsWords`); a snapshot taken before a withdrawal and
  adopted after it brings the draft back (`Race.WithdrawnDraftComesBack`); one taken between two reports of a running
  row brings the earlier one back (`Race.StaleRowComesBack`); and a report that arrives after its end was polled sets
  the finished row running again (`Race.LateReportRestartsRow`). `Race.RaceIsHarmlessExactly` says when a race ends
  with the gateway's view, field by field, `Race.LateReportGoesBackExactly` when a late report takes a row back, and
  `Race.PollsAreInvisibleExactly` when no poll of a run ever shows.
- Two searches of one desk finishing side by side would undo a decision
  (`Holds.SecondFinishUndoesADecision`); each desk is scheduled once, and then decisions are final.
- A provider's confirmation is lost when the chat of its desk is deleted meanwhile
  (`Holds.DeletionLosesAConfirmation`, `Holds.ConfirmationIsSaved`), and deleting a chat takes confirmed holds with it
  (`Holds.ConfirmedForever`).
- A note whose bullet is part of another line is never written to MEMORY.md (`Memory.BulletInsideAnother`).
- The boot trusts an index that has as many rows as the table but not the same ones
  (`Memory.SameCountDriftIsTrusted`); `Memory.EnsureMemoryFts` says exactly when it ends in step.

## Model

| member | source | states |
|---|---|---|
| CityNames.NoScriptIsCheaper | packages/agent-core/src/city-names.ts:185-206 | no script of insertions, deletions, substitutions and adjacent swaps turning one string into the other costs less than the distance |
| CityNames.BestScript | packages/agent-core/src/city-names.ts:185-206 | some script attains the distance |
| CityNames.DistanceIsMinimum | packages/agent-core/src/city-names.ts:185-206 | the distance is the minimum cost over all edit scripts |
| CityNames.Symmetric | packages/agent-core/src/city-names.ts:185-206 | the distance is the same both ways |
| CityNames.LengthBounds | packages/agent-core/src/city-names.ts:185-206 | the distance lies between the difference of the lengths and the longer length |
| CityNames.ZeroIffEqual | packages/agent-core/src/city-names.ts:185-206 | the distance is zero exactly for equal strings |
| CityNames.TriangleInequalityFails | packages/agent-core/src/city-names.ts:185-206 | three strings for which the distance breaks the triangle inequality |
| CityNames.CellRecurrence | packages/agent-core/src/city-names.ts:192-203 | each matrix cell is the distance of two prefixes and follows from its three or four neighbours |
| CityNames.DamerauLevenshtein | packages/agent-core/src/city-names.ts:185-206 | the matrix loops return that distance |
| CityNames.IsAdjacentTransposition | packages/agent-core/src/city-names.ts:168-183 | true exactly when the strings differ by one swap of neighbours |
| CityNames.TranspositionCostsOne | packages/agent-core/src/city-names.ts:168-206 | two strings that differ by one swap of neighbours are at distance exactly 1 |
| CityNames.TyposExactly | packages/agent-core/src/city-names.ts:124-131 | with four letters or more in both, a spelling is near enough exactly when it is the same, has two neighbours swapped, is one edit away with six letters in the longer, or two with twelve |
| CityNames.Candidates | packages/agent-core/src/city-names.ts:123-136 | the candidates are the cities with a qualifying spelling, each once with its least distance |
| CityNames.SortRanked | packages/agent-core/src/city-names.ts:138-140 | ranking is a permutation ordered by distance, then length |
| CityNames.ClosestRanksFirst | packages/agent-core/src/city-names.ts:138-143 | a strictly closest city is the first rank, strictly ahead of the second |
| CityNames.FirstRankIsClosest | packages/agent-core/src/city-names.ts:138-143 | a first rank strictly ahead of the second is the strictly closest city |
| CityNames.StrictlyClosestIsUnique | packages/agent-core/src/city-names.ts:138-143 | at most one city is strictly closest |
| CityNames.CorrectCity | packages/agent-core/src/city-names.ts:119-145 | a known spelling gives its city; another name is corrected exactly when one city is strictly closest, and to that city |
| ToolCalls.KeyNamesTool | packages/agent-core/src/tool-calls.ts:57-60 | equal call keys come from equal tool names |
| ToolCalls.KeysMatchExactly | packages/agent-core/src/tool-calls.ts:57-60 | for plain names two keys are equal exactly when the names and the first 600 characters of the arguments are |
| ToolCalls.BundledNamesArePlain | packages/agent-core/src/tools.ts:142-525 | no bundled tool's name contains the separator of call keys |
| ToolCalls.PlanIsSound | packages/agent-core/src/tool-calls.ts:74-189 | for any model output a plan stays within the ceiling, the per-tool limits and the live tools, repeats nothing, and lets the router only fill in |
| ToolCalls.PlanIsComplete | packages/agent-core/src/tool-calls.ts:74-189 | with room left nothing eligible is skipped, and every refusal has its reason |
| ToolCalls.NewArgumentsAreNewWork | packages/agent-core/src/tool-calls.ts:52-60 | with room for two, two valid calls of one live tool that differ within 600 characters and are new to the turn are both planned |
| ToolCalls.NoCallIsIgnored | packages/agent-core/src/tool-calls.ts:98-170 | with room left, every call of the model has run before, is planned, was blocked, or was rejected unless there are as many rejections as the plan may hold |
| ToolCalls.CallFaresExactly | packages/agent-core/src/tool-calls.ts:98-170 | what one call adds: it is planned, counted as repeated, blocked or rejected, each under its exact condition, with the limits written out |
| ToolCalls.RejectionsAreHeard | packages/agent-core/src/tool-calls.ts:211-216 | a rejection is passed on exactly when no executed call bears its name |
| ToolCalls.PlanToolCalls | packages/agent-core/src/tool-calls.ts:74-189 | the loops with their sets and early exits compute that plan |
| ToolCalls.RunToolPlan | packages/agent-core/src/tool-calls.ts:196-217 | the plan's calls run in order with consecutive ids; blocked calls and unanswered rejections follow |
| Turn.LastFailureDecides | packages/agent-core/src/turn.ts:395-406 | the last terminal failure under a name decides whether the tool is dead |
| Turn.DeadToolFailed | packages/agent-core/src/turn.ts:395-406 | a dead tool has a terminal failure with a reason |
| Turn.DeadExactly | packages/agent-core/src/turn.ts:395-406 | a tool is refused as dead exactly when its last terminal failure gives a reason |
| Turn.TerminalResultsAreAnswers | packages/agent-core/src/turn.ts:258-372 | after any rounds, every terminal result is what some tool answered; refusals are never terminal |
| Turn.ReasonlessFailureRevives | packages/agent-core/src/turn.ts:395-406 | in a session whose tools fail terminally twice, the second time without a first sentence, the next round calls that tool again |
| Turn.CollectDeadTools | packages/agent-core/src/turn.ts:395-403 | the loop over the results collects exactly the dead tools |
| Turn.RoundsKeepTheLedger | packages/agent-core/src/turn.ts:258-372 | over all rounds and any model output: at most MAX_TOOLS_PER_TURN executions, distinct keys, per-tool limits, only live tools |
| Turn.DeadToolDoesNotRunAgain | packages/agent-core/src/turn.ts:258-372 | when the tools' terminal failures say why, a tool with such a failure in one round is in no plan of that round's successor or any later one |
| Turn.EachExecutionHasItsOwnId | packages/agent-core/src/turn.ts:430-453 | the n-th execution has id n, is started once and then ended once before the next |
| Turn.ResultsGrow | packages/agent-core/src/turn.ts:258-372 | no round forgets a result of an earlier one |
| Turn.Stream | packages/agent-core/src/turn.ts:508-523 | forwarding deltas puts exactly their words on the screen and says whether there were any |
| Turn.RunRound | packages/agent-core/src/turn.ts:258-372 | one round runs its plan, asks again, gives up or settles on the completion, withdrawing the draft unless it is the answer |
| Turn.RunModelRounds | packages/agent-core/src/turn.ts:235-376 | the loop stops at the first round that does not go on, and announces exactly the executions so far |
| Turn.Narrate | packages/agent-core/src/turn.ts:160-227 | the final pass withdraws a promised retry and leaves its reply or its draft on the screen |
| Turn.NarrationAgrees | packages/agent-core/src/turn.ts:160-227 | the narrated reply is honest, and reads like the screen unless only blanks were streamed |
| Turn.RoundsAgree | packages/agent-core/src/turn.ts:258-376 | an answer of the rounds is honest and agrees with the screen; otherwise the screen is empty |
| Turn.LoopEndsThere | packages/agent-core/src/turn.ts:258-376 | the rounds end at the first one that is answered, given up, thrown or the last allowed, and only a settled completion is the answer |
| Turn.CompleteTurn | packages/agent-core/src/turn.ts:61-227 | for every model and tool: the outcome is the rounds' answer, the narration or an abort, and `calls` counts the model's calls; events announce exactly the executions; folding deltas and resets leaves the draft of the last call unless there is none or it was withdrawn, and then the reply; a model that streams its text leaves the returned reply up to white space if and only if no blank draft stands; after a failed tool the reply is the fallback or no retry announcement |
| Turn.RepliesAreNarrated | packages/agent-core/src/turn.ts:61-227 | however a turn ends, its reply is the narration of its last call's text |
| Turn.BlankDraftCanStand | packages/agent-core/src/turn.ts:61-227 | a turn in which the model streams one blank: the desk's words are returned and the blank stays on the screen |
| TurnEnds.AnsweredExactly | packages/agent-core/src/turn.ts:235-376 | the rounds end answered at round k exactly when every earlier round asked for work or announced a retry there was room for, and in round k the model replies, asks for nothing, and either nothing has run or its text is neither blank nor a retry announcement; that call is the last one, and the turn returns its text, or the fallback when blank |
| TurnEnds.UnansweredExactly | packages/agent-core/src/turn.ts:61-227 | when the rounds end otherwise the turn aborts if the model was stopped, and one more call narrates what ran |
| TurnEnds.RoundsEndSomewhere | packages/agent-core/src/turn.ts:258-376 | some round within the budget is the last one |
| TurnEnds.RoundsAllowed | packages/agent-core/src/turn.ts:114 | a turn takes what the provider allows, at least one round and at most five |
| TurnEnds.RoutedNames | packages/agent-core/src/turn.ts:95-97 | the router brings the tool of `/remember`, or the first three it picked |
| TurnEnds.RoutedTurns | packages/agent-core/src/turn.ts:115-227 | without tools of the model, the picks run in order and one call narrates their answers |
| TurnEnds.CommandsAnswerThemselves | packages/agent-core/src/turn.ts:71-92 | `/tools` and `/new` are answered at once, without tool or model |
| TurnEnds.ThreeResultsAreEnough | packages/agent-core/src/turn.ts:272-283 | with three results, refusals among them, a round runs and refuses nothing |
| TurnEnds.LaterRoundsAreTheModels | packages/agent-core/src/turn.ts:272-283 | after the first round every call is one the model asked for, with its arguments |
| TurnEnds.FewExecutions | packages/agent-core/src/turn.ts:258-372 | at most three executions in a turn, two of `web.search`, and no tool twice with arguments that agree for 600 characters |
| TurnEnds.RoundsRunWhatIsAsked | packages/agent-core/src/turn.ts:272-283 | a call the model asks for is planned or was made before, unless room, catalog, arguments, a failure for good or the search limit forbids it |
| TurnEnds.RoundsAddWhatHappened | packages/agent-core/src/turn.ts:258-372 | a round adds the answers of its calls in order, its refusals, and the rejections nobody answered |
| TurnEnds.FailedToolsRestFromThen | packages/agent-core/src/turn.ts:395-406 | a tool that ran, failed and said that a retry is pointless is in no later plan, when such failures come with a reason |
| TurnEnds.FirstSentenceExactly | packages/agent-core/src/turn.ts:395-406 | the reason is the summary up to its first full stop before white space, without that full stop |
| Semaphore.EveryRunIsFair | apps/browser-worker/src/semaphore.ts:7-33 | every interleaving of acquires, aborts and releases keeps the semaphore's invariant |
| Semaphore.GrantsAreTheFirstSurvivors | apps/browser-worker/src/semaphore.ts:20-32 | leases granted so far are the first surviving requests in strict order of arrival |
| Semaphore.ActiveCountsLeases | apps/browser-worker/src/semaphore.ts:7-33 | `active` is the number of leases granted and not released, at most the limit |
| Semaphore.NoLostWakeup | apps/browser-worker/src/semaphore.ts:20-32 | somebody waits only while every lease is out |
| Semaphore.DoubleReleaseIsIgnored | apps/browser-worker/src/semaphore.ts:26-32 | releasing a lease again changes nothing |
| Semaphore.Semaphore.Acquire | apps/browser-worker/src/semaphore.ts:7-25 | an aborted signal is refused; otherwise the request is granted or queued as the protocol says |
| Semaphore.Semaphore.Abort | apps/browser-worker/src/semaphore.ts:15-19 | only a waiting request leaves the queue and is rejected |
| Semaphore.Semaphore.Release | apps/browser-worker/src/semaphore.ts:26-32 | the closure frees its lease once and wakes the first waiter |
| RateLimiter.AtMostTwoBudgets | apps/api/src/auth/rate-limiter.ts:14-25 | any interval as long as the window admits at most 2 * max - 1 calls of one key |
| RateLimiter.WindowsAdmitTheirBudgetExactly | apps/api/src/auth/rate-limiter.ts:14-25 | a window that opens with a call admits exactly the first `max` calls before it ends, and the first call after that opens another |
| RateLimiter.TwoBudgetsAreReached | apps/api/src/auth/rate-limiter.ts:14-25 | that bound is attained |
| RateLimiter.SweepIsInvisible | apps/api/src/auth/rate-limiter.ts:27-31 | deleting expired entries leaves every key's decisions as they were |
| RateLimiter.CountingAgrees | apps/api/src/auth/rate-limiter.ts:14-25 | the shared map goes on agreeing with independent per-key counters |
| RateLimiter.EveryKeyIsBounded | apps/api/src/auth/rate-limiter.ts:14-25 | the bound holds for every key of any mix of calls |
| RateLimiter.DecisionIsAdmission | apps/api/src/auth/rate-limiter.ts:14-25 | the answer to a call is what the key's own fixed-window counter says |
| RateLimiter.RateLimiter.Sweep | apps/api/src/auth/rate-limiter.ts:27-31 | exactly the expired entries go |
| RateLimiter.RateLimiter.Consume | apps/api/src/auth/rate-limiter.ts:14-25 | each call is decided as by its key's counter alone; expired entries are swept only from more than 5000, and no other entry changes |
| Frames.SplitAppend | apps/web/src/turnStream.ts:62-90 | where the text is cut into chunks does not matter to the frames |
| Frames.TakeFrames | apps/web/src/turnStream.ts:66-76 | the buffer loop takes exactly the complete frames and keeps the rest |
| Frames.SingleLine | apps/api/src/models/model.service.ts:113-116 | the data line of a one-line frame is that line when it begins with `data:` |
| Frames.DataLinesExactly | apps/api/src/models/model.service.ts:113-116 | a data line is one that begins with `data:`, with or without anything after it |
| TurnReader.Read | apps/web/src/turnStream.ts:49-98 | over any chunks the reader hands on the events of the whole text in order, without the unfinished frame when the connection breaks, and ends with the last completion or failure, or with the break |
| TurnReader.ConcludedExactly | apps/web/src/turnStream.ts:57-97 | reading ends with the connection's break, else the last completion, else the last failure that says why, else the ended turn |
| TurnReader.WireRoundTrip | apps/api/src/gateway/turn-stream.ts:48-121 | reading all the gateway writes, with paddings and keep-alives, gives exactly the events sent, however the connection ends after it |
| TurnReader.CutDeliversArrived | apps/web/src/turnStream.ts:62-111 | a text cut at any point delivers the events whose line has arrived when the body ends there, and those whose blank line has arrived when the connection breaks |
| TurnReader.CutDeliversPrefix | apps/web/src/turnStream.ts:62-111 | a connection cut at any point, ended or broken, delivers a prefix of the events sent |
| LiveTurn.FoldsAgree | apps/web/src/pages/ChatPage.tsx:483-516 | before completion the browser's fold of the events is the gateway's snapshot |
| LiveTurn.CompletionIsNotFolded | apps/api/src/gateway/turn-stream.ts:158-170 | after completion the two agree exactly when the answer came from the model and provider announced |
| LiveTurn.KeepsTails | apps/api/src/gateway/turn-stream.ts:151-157 | reply and reasoning are the last 20000 and 4000 characters of all words since the last reset or start |
| LiveTurn.HeadingsAreTheLastNamed | apps/api/src/gateway/turn-stream.ts:142-165 | a start gives the snapshot its provider and its label, a completion its provider and model when it names one, and no other event changes them |
| LiveTurn.PutKeepsRows | apps/api/src/gateway/turn-stream.ts:166-176 | every reported step has one row, holding its last report |
| LiveTurn.TurnStream.Send | apps/api/src/gateway/turn-stream.ts:111-121 | an event is always recorded, and delivered while the stream is open; a failed write closes it |
| LiveTurn.TurnStream.Announce | apps/api/src/gateway/turn-stream.ts:168-176 | a step is sent unless the stream is over or its row already says so |
| LiveTurn.TurnStream.ScreenIsSnapshot | apps/api/src/gateway/turn-stream.ts:128-165 | while writes succeed, a browser that read the stream shows what a poll returns |
| LiveTurn.MergeSteps | apps/web/src/liveTurn.ts:117-137 | the merge's loops compute the rows of both sides, or the current rows when nothing is new |
| LiveTurn.MergedById | apps/web/src/liveTurn.ts:112-150 | no row is dropped or duplicated, and each is as far along as either side has it |
| LiveTurn.FurtherAlongExactly | apps/web/src/liveTurn.ts:139-150 | of two reports of a row a finished one beats a running one, one that says the same leaves the screen's, and otherwise the newer wins |
| LiveTurn.MergeTwice | apps/web/src/liveTurn.ts:117-137 | merging the same rows again changes nothing |
| LiveTurn.OrderWinsOnlyWithNews | apps/web/src/liveTurn.ts:112-137 | the result follows the gateway's order exactly when there is news or the order was the same |
| LiveTurn.OrderCanLose | apps/web/src/liveTurn.ts:112-137 | two finished rows whose new order is not adopted |
| LiveTurn.AdoptLiveTurn | apps/web/src/liveTurn.ts:82-107 | adopting merges rows, takes longer words and stated labels, and keeps an absent view absent |
| LiveTurn.NeverGoesBack | apps/web/src/liveTurn.ts:75-107 | over any run of snapshots no step is lost or made up, none finished returns to running, and no words get shorter |
| LiveTurn.AdoptTwice | apps/web/src/liveTurn.ts:82-107 | adopting the same snapshot twice is adopting it once |
| Race.RaceIsHarmlessExactly | apps/web/src/pages/ChatPage.tsx:275-286 | for any events, a snapshot adopted between two stretches of the stream leaves the gateway's view exactly when heading, rows, reply and reasoning each survive |
| Race.RaceSparesStepsExactly | apps/web/src/liveTurn.ts:112-150 | the rows survive exactly when each row of the snapshot is reported again afterwards or keeps the row of the screen |
| Race.RaceKeepsOrder | apps/web/src/liveTurn.ts:112-137 | a race never changes which rows there are, nor their order |
| Race.NewRowsAreReported | apps/web/src/pages/ChatPage.tsx:496-502 | a row of the snapshot that the screen does not know yet is reported afterwards |
| Race.LateReportGoesBackExactly | apps/web/src/pages/ChatPage.tsx:496-502 | an event takes a row back exactly when it reports as running a row that the stream had finished, or that the snapshot had and nothing has reported since |
| Race.StaleRowComesBack | apps/web/src/liveTurn.ts:139-150 | two reports of one row in the same state: a snapshot of the first, adopted after the second, leaves the first on the screen |
| Race.LateReportRestartsRow | apps/web/src/pages/ChatPage.tsx:496-502 | a row polled as finished runs again when its first report arrives, until its second does |
| Race.RaceSparesReplyExactly | apps/web/src/liveTurn.ts:82-92 | the reply survives exactly when the snapshot says no more than the screen, a withdrawal follows, or late words push the difference out of the kept tail |
| Race.ShortRepliesSurviveExactly | apps/web/src/liveTurn.ts:82-92 | while the words fit the kept tail, exactly when the snapshot says no more or a withdrawal follows |
| Race.RaceSparesReasoningExactly | apps/web/src/liveTurn.ts:82-92 | the reasoning survives exactly when the snapshot says no more, or late words push the difference out of the kept tail |
| Race.RaceSparesHeadingExactly | apps/web/src/liveTurn.ts:93-94 | model and provider survive exactly when the snapshot gives none or the screen's, or a later start decides them |
| Race.StartedTurnsKeepTheirHeading | apps/api/src/gateway/gateway.service.ts:86-94 | in a turn that starts once, before anything else, every snapshot keeps the heading |
| Race.LateDeltaRepeatsWords | apps/web/src/pages/ChatPage.tsx:507-509 | words adopted from a poll are shown twice once their delta arrives |
| Race.WithdrawnDraftComesBack | apps/web/src/liveTurn.ts:82-107 | a snapshot taken before a withdrawal and adopted after it shows the withdrawn words |
| Race.AdoptedIsInStepExactly | apps/web/src/liveTurn.ts:82-107 | a snapshot leaves the screen of the stream alone exactly when it names no other model, has no more words, and each of its rows keeps the screen's |
| Race.PollsAreInvisibleExactly | apps/web/src/pages/ChatPage.tsx:275-286 | over any run of arriving events and any number of adopted snapshots, the screen is the stream's own at every moment exactly when every snapshot is in step so |
| Retry.Clamp | packages/agent-core/src/retry.ts:71-85 | clamping gives a policy in range and leaves one that is in range alone |
| Retry.FiniteClampAgrees | packages/agent-core/src/retry.ts:71-85 | on finite fields the clamp with its guards is the clamp without them |
| Retry.ClampIsUsableExactly | packages/agent-core/src/retry.ts:71-85 | for any JavaScript numbers, the clamped policy is in range exactly when neither delay was NaN or positive infinity |
| Retry.OtherNumbersFallBack | packages/agent-core/src/retry.ts:71-85 | a field that is no number falls back to one attempt, no base delay, the delay before it, no budget and half jitter |
| Retry.DefaultPolicy | packages/agent-core/src/retry.ts:61-85 | the policy without overrides, with its numbers |
| Retry.BackoffBounds | packages/agent-core/src/retry.ts:92-103 | a pause lies between its fixed share and the cap, rounded |
| Retry.BackoffExactly | packages/agent-core/src/retry.ts:92-103 | the backoff is the base delay doubled after each attempt but the first, capped, with its share of the coin, rounded |
| Retry.FirstCeiling | packages/agent-core/src/retry.ts:92-99 | the first pause is the base delay |
| Retry.DelaysExactly | packages/agent-core/src/retry.ts:243-257 | the pause is the longer of the backoff and the vendor's positive wait |
| Retry.CeilingGrows | packages/agent-core/src/retry.ts:92-99 | before jitter each pause doubles the last one, up to the cap |
| Retry.WithRetry | packages/agent-core/src/retry.ts:202-277 | the loop ends within `attempts` operations, reports exactly how many ran and how long it waited, and ends at the first try that does not go on |
| Retry.GoesOnExactly | packages/agent-core/src/retry.ts:202-277 | another try follows exactly when the operation failed without a stop, tries are left, the caller wants one, the vendor asks for no more than `maxWaitMs`, the pause is shorter than what is left of the budget, and nothing ends it |
| Retry.EndingMeans | packages/agent-core/src/retry.ts:202-277 | the report succeeds exactly when the last try returned, says aborted exactly when a stop was seen, and carries the error of the last try or of its pause |
| Retry.PausesGoOn | packages/agent-core/src/retry.ts:202-277 | a call has one list of pauses: what its tries determine |
| Retry.NothingRunsAfterAStop | packages/agent-core/src/retry.ts:214-270 | no operation runs after a stop seen before a try, in it, or during a pause |
| Retry.PauseBounds | packages/agent-core/src/retry.ts:243-257 | every pause is at least what the vendor asked and at most the longest wait, up to rounding the desk's cap |
| Retry.WholePausesStayUnderMaxWait | packages/agent-core/src/retry.ts:243-257 | with a whole cap no pause exceeds `maxWaitMs` |
| Retry.BackoffFitsExactly | packages/agent-core/src/retry.ts:92-103 | the desk's own pauses stay within `maxWaitMs` for every coin exactly when the longest of them does, jitter included |
| Retry.UnjitteredPauseFitsExactly | packages/agent-core/src/retry.ts:243-257 | without jitter a pause is within `maxWaitMs` exactly when its rounded ceiling is |
| Retry.FractionalCapCanBeExceeded | packages/agent-core/src/retry.ts:92-103 | a call with limits of 0.6 ms that goes on after a pause of 1 ms |
| Retry.WaitingFitsTheBudget | packages/agent-core/src/retry.ts:243-262 | with a clock that keeps pace, all waiting is zero or strictly below `deadlineMs` |
| Retry.RetriesHaveTimeLeft | packages/agent-core/src/retry.ts:253-262 | when pauses take as long as asked, every retry is handed some of the budget |
| OpenAi.CallsByIndex | apps/api/src/models/openai.ts:96-113 | a call is assembled from the fragments of its index alone: last id and name given, all arguments in order |
| OpenAi.InterleavingIsInvisible | apps/api/src/models/openai.ts:96-113 | interleaving the fragments of different calls differently assembles the same calls |
| OpenAi.SortedIsIncreasing | apps/api/src/models/openai.ts:126-135 | the indices come out once each, in increasing order |
| OpenAi.CompleteIsGiven | apps/api/src/models/openai.ts:96-135 | the calls handed back are, for each index some fragment of which names a tool, in increasing order: the last name given, the last id given or else that name, and all arguments joined |
| OpenAi.NothingIsHandedBackExactly | apps/api/src/models/openai.ts:126-135 | nothing is handed back exactly when no fragment names a tool |
| OpenAi.DataLinesAreDecoded | apps/api/src/models/openai.ts:165-175 | a data line is decoded without its prefix and surrounding white space, unless it is empty or `[DONE]` |
| OpenAi.PayloadsMean | apps/api/src/models/openai.ts:75-124 | a failure silences its frame; otherwise its words, the first reasoning field present and its fragments are read |
| OpenAi.StreamParser.Push | apps/api/src/models/openai.ts:75-124 | a payload adds its fragments and yields its failure, or its text and reasoning |
| OpenAi.StreamParser.ToolCalls | apps/api/src/models/openai.ts:126-135 | the named calls are handed back by increasing index, an absent id taking the name |
| ModelStream.ReadOpenAiStream | apps/api/src/models/model.service.ts:379-482 | the result and everything shown depend only on the concatenated stream and how it ended, not on the chunks; a returned answer has the calls its fragments give when the stream was whole, and none when it was cut off |
| ModelStream.AnsweredCalls | apps/api/src/models/model.service.ts:426-478 | a returned answer of a whole stream has, by increasing index, the calls its fragments name; one that was cut off has none |
| ModelStream.EveryFrameIsRead | apps/api/src/models/model.service.ts:401-425 | every complete frame is read in order, and the unfinished one exactly when the body closed |
| ModelStream.ShownForExactly | apps/api/src/models/model.service.ts:401-425 | of a payload its words are shown, then its reasoning, each exactly when there is any |
| ModelStream.StreamsThrowExactly | apps/api/src/models/model.service.ts:426-478 | reading throws exactly when it broke after a stop, or nothing was ever shown and it broke, reported a failure, or brought no words and named no tool |
| ModelStream.StreamsThrow | apps/api/src/models/model.service.ts:426-478 | what it throws: the stop, or the break, the failure or the emptiness as a stream error; only a stopped emptiness stays one |
| ModelStream.StreamsReturn | apps/api/src/models/model.service.ts:426-478 | what it returns and shows: all of a whole stream; the words and a note when cut off; the desk's answer for blank words |
| ModelStream.WordsAreTheText | apps/api/src/models/model.service.ts:401-425 | the words shown while reading are the text read |
| ModelStream.ShownAndReturned | apps/api/src/models/model.service.ts:426-478 | a returned answer has shown the words that arrived, plus a note exactly when cut off, and returns those words or the desk's when they are blank |
| ModelStream.AnsweredText | apps/api/src/models/model.service.ts:426-478 | a returned answer is the words that arrived when the stream was whole or they are not blank, and the desk's otherwise |
| ModelStream.ThrowsInSilence | apps/api/src/models/model.service.ts:440-465 | an unstopped attempt that throws has shown nothing |
| ModelStream.RetryMeansSilence | apps/api/src/models/model.service.ts:209-228 | a call goes on to another attempt only while nothing has reached the screen |
| ModelStream.OneAttemptSpeaks | apps/api/src/models/model.service.ts:209-360 | everything shown over all attempts comes from the last one, as if it had been the only one |
| ModelStream.CallEnds | apps/api/src/models/model.service.ts:346-360 | the report of the call is about its last attempt |
| ModelStream.AttemptsWithoutStream | apps/api/src/models/model.service.ts:257-303 | a status worth a retry and an empty message throw, any other status is answered by the desk, a message is returned with its calls |
| ModelStream.CompleteOpenAi | apps/api/src/models/model.service.ts:209-360 | at most three attempts; the answer is the last attempt's, or the desk's with nothing shown, or the stop |
| ModelStream.StatusGoesOnExactly | apps/api/src/models/model.service.ts:310-327 | with attempts and budget left, a status error is retried exactly when it asks for at most 1.2 s |
| ModelStream.BrokenAnswerGoesOnExactly | apps/api/src/models/model.service.ts:310-331 | with room left, a broken stream is retried exactly after the first attempt and a hint of at most 20 s |
| ModelStream.OtherFailuresGoOnExactly | apps/api/src/models/model.service.ts:310-327 | with room left an empty answer is retried after the first attempt, a timed out one always, others exactly when transient |
| ModelStream.VendorsNameWaits | apps/api/src/models/model.service.ts:328-334 | only a status with its header or a broken stream with its words names a wait |
| ModelStream.ModelPolicy | apps/api/src/models/model.service.ts:43-62 | the policy of a model call, with its numbers |
| ModelStream.FiveSecondsAreNotWaitedFor | apps/api/src/models/model.service.ts:310-331 | a status error that asks for 5 s ends the call although the policy and the budget allow the wait |
| ModelTurn.AnswersKeepTheTurnsTerms | apps/api/src/models/model.service.ts:379-482 | an answered attempt has streamed its own text, as the turn assumes of its model, exactly when no words arrived, the stream was whole, or the blanks that arrived are the desk's own words |
| ModelTurn.Complete | apps/api/src/models/model.service.ts:209-360 | the model call over all its attempts is the reply that the turn's theorems speak of |
| ModelTurn.CallsReachThePlanner | apps/api/src/models/model.service.ts:209-360 | what the turn plans from is, call by call, what the last attempt's fragments or message ask for, and nothing when the desk answers |
| ModelTurn.CallsKeepTheTurnsTerms | apps/api/src/models/model.service.ts:209-360 | a whole call keeps what the turn assumes exactly when it falls back on the desk or its last attempt does |
| ModelTurn.StreamedTurnsReadAlikeExactly | packages/agent-core/src/turn.ts:61-227 | for a whole turn over such calls, what is left on the screen reads like the returned reply exactly when the turn does not stream, its last call fell back on the desk or brought no words, the draft was withdrawn, words that are not blank came whole, or blanks stand in the place of blanks |
| Engine.EveryRunIsKept | apps/browser-worker/src/engine.ts:169-571 | in every run open sessions, pending opens and closing contexts together stay within the limit, and each session is sound |
| Engine.LoadIsConserved | apps/browser-worker/src/engine.ts:169-328 | a slot is taken by an accepted open, given back by a failed open or a finished close, and by nothing else |
| Engine.ResultsEndSessions | apps/browser-worker/src/engine.ts:343-349 | a session whose action ended in anything but `ready` is gone for good |
| Engine.ActionBudgetHolds | apps/browser-worker/src/engine.ts:364-368 | no session executes more than `limits.actions` actions |
| Engine.LearnedProceduresAreComplete | apps/browser-worker/src/engine.ts:376-449 | every learned procedure begins with navigate_start, ends with observe and has 2 to 20 steps |
| Engine.ProceduresAreWhatWasDone | apps/browser-worker/src/engine.ts:376-558 | over any run a session hands out a procedure exactly when its price was read and every navigation reached the start page, every field had a slot and every click was a search button, and it is its navigations, looks, fills and clicks in order, then the reading |
| Engine.FourSessionsOfTwentyActions | apps/browser-worker/src/engine.ts:136-371 | under the worker's limits at most four sessions are open, opening or closing, and none takes more than twenty actions |
| Engine.EffectKeepsSound | apps/browser-worker/src/engine.ts:376-558 | each action's effect on its session keeps the invariant a procedure needs |
| Engine.BrowserEngine.Open | apps/browser-worker/src/engine.ts:169-177 | an open is refused for an unknown site, an over-long request or a full engine, and takes a slot otherwise |
| Engine.BrowserEngine.FinishOpen | apps/browser-worker/src/engine.ts:293-304 | a finished open turns its slot into a session or gives it back |
| Engine.BrowserEngine.Close | apps/browser-worker/src/engine.ts:316-328 | an open session leaves the map and is closing; any other is missing |
| Engine.BrowserEngine.FinishClose | apps/browser-worker/src/engine.ts:323-327 | a context that has closed gives its slot back |
| Engine.BrowserEngine.TimeOut | apps/browser-worker/src/engine.ts:136-145 | a session past its lifetime or idle time is blocked and closing |
| Engine.BrowserEngine.Act | apps/browser-worker/src/engine.ts:338-371 | an action is missing, busy, ended with its session, or under way, and counted |
| Engine.BrowserEngine.Navigate | apps/browser-worker/src/engine.ts:376-380 | reaching the start page is a workflow step; any other address ends the learning |
| Engine.BrowserEngine.ClickControl | apps/browser-worker/src/engine.ts:512-517 | clicking a search button is a workflow step; any other control ends the learning |
| Engine.BrowserEngine.FinishReady | apps/browser-worker/src/engine.ts:553-559 | a page that is not blocked ends the action with its snapshot and an idle session |
| Engine.BrowserEngine.HandOff | apps/browser-worker/src/engine.ts:343-351 | a hand-over closes the session before it is returned |
| Engine.BrowserEngine.RecordField | apps/browser-worker/src/engine.ts:669-673 | a known field is a workflow step; any other ends the learning |
| Engine.BrowserEngine.ObservePrice | apps/browser-worker/src/engine.ts:394-451 | an observed price closes the session and hands out a complete procedure or none |
| Holds.ReadHold | packages/agent-core/src/providers.ts:956-980 | a hold exactly when `confirmed: true` comes with a trimmed reference of 1 to 120 characters and an expiry that is absent or trims to 1 to 64; anything else leaves none |
| Holds.EveryRunIsOrderly | apps/api/src/tasks/tasks.service.ts:216-316 | in every interleaving the two tables describe the open requests, no desk stays locked, and rows are sound |
| Holds.OneHoldInFlightPerDesk | apps/api/src/tasks/tasks.service.ts:232-246 | each desk has at most one request with a provider |
| Holds.RepeatClicksShare | apps/api/src/tasks/tasks.service.ts:228-237 | a repeat click shares the request in flight, other clicks on the desk ask nobody |
| Holds.ClicksAreAnsweredExactly | apps/api/src/tasks/tasks.service.ts:216-247 | over any run a click is answered from the row once held, shares an unsettled attempt for the offer, is refused while the desk asks for another, and asks otherwise |
| Holds.ConfirmedForever | apps/api/src/tasks/tasks.service.ts:265-276 | over any run a confirmed hold has a reference and is kept unchanged exactly until its chat is deleted, and its row never comes back |
| Holds.HoldsAreKept | apps/api/src/db/schema.ts:123-171 | one step removes a confirmed hold exactly when it deletes its chat, and changes none |
| Holds.OnlyAnswersConfirm | apps/api/src/tasks/tasks.service.ts:249-285 | a stored offer becomes a hold only when the provider confirms the request made for it |
| Holds.AnswersDecideExactly | apps/api/src/tasks/tasks.service.ts:249-287 | over any run an answer leaves the free offer it was asked for confirmed with exactly its trimmed reference when it is a good confirmation, expiry or not, and free otherwise |
| Holds.EveryFreeOfferIsBlank | packages/agent-core/src/providers.ts:956-980 | over any run an offer that is not confirmed has no reference |
| Holds.ConfirmationIsSaved | apps/api/src/tasks/tasks.service.ts:264-287 | a confirmation is saved exactly when its offer is still stored |
| Holds.DeletionLosesAConfirmation | apps/api/src/sessions/sessions.service.ts:100-107 | a run in which the chat is deleted while a provider is asked: its confirmation is stored nowhere, and without the deletion it is stored |
| Holds.StoredAsFound | apps/api/src/tasks/tasks.service.ts:420-455 | every offer found gets a row of its own with its hold read strictly |
| Holds.NewestAreKept | apps/api/src/tasks/tasks.service.ts:457-467 | a free offer that is kept is newer than one that is dropped |
| Holds.EnoughAreKept | apps/api/src/tasks/tasks.service.ts:457-467 | when an offer is dropped, 24 newer free offers of its desk are kept |
| Holds.FreeOffersAreBounded | apps/api/src/tasks/tasks.service.ts:457-467 | a desk keeps at most 24 free offers |
| Holds.FirstSearchDropsNothing | apps/api/src/tasks/tasks.service.ts:457-467 | on a desk without free offers, storing up to 24 prunes nothing |
| Holds.DecisionStands | apps/api/src/tasks/tasks.service.ts:318-329 | an accepted or rejected desk keeps its status against everything but its chat's deletion exactly when no search of it is finishing |
| Holds.DecisionsTakeEffectExactly | apps/api/src/tasks/tasks.service.ts:177-206 | over any run a decision changes its desk alone: a ready desk is accepted, rejected or, with no unsettled attempt, awaiting again; any other stays |
| Holds.DecisionsAreFinal | apps/api/src/tasks/tasks.service.ts:177-206 | over any run, an accepted or rejected desk keeps its status exactly until its chat is deleted when each desk is searched one search at a time |
| Holds.SecondFinishUndoesADecision | apps/api/src/tasks/tasks.service.ts:318-329 | with two searches under way the later one undoes an acceptance |
| Holds.TasksService.HoldOffer | apps/api/src/tasks/tasks.service.ts:216-247 | a click is answered from the row, shared, refused, or sent to the provider and entered in both tables |
| Holds.TasksService.HearAnswer | apps/api/src/tasks/tasks.service.ts:264-287 | an answer confirms only a free offer of the desk it was asked for |
| Holds.TasksService.Release | apps/api/src/tasks/tasks.service.ts:240-243 | a settled attempt leaves both tables |
| Holds.TasksService.MakeDecision | apps/api/src/tasks/tasks.service.ts:177-206 | a decision needs a desk that is ready, and waiting needs no hold in flight |
| Holds.TasksService.StoreOffers | apps/api/src/tasks/tasks.service.ts:420-469 | what a search found is stored, then the desk's free offers are pruned |
| Holds.TasksService.OpenDesk | apps/api/src/tasks/tasks.service.ts:123-147 | a new desk is working and belongs to its chat |
| Holds.TasksService.BeginSearch | apps/api/src/tasks/tasks.service.ts:318-322 | only the search of a working desk goes on to finish |
| Holds.TasksService.EndSearch | apps/api/src/tasks/tasks.service.ts:323-330 | a search that ends leaves its desk awaiting or completed, whatever was decided meanwhile |
| Holds.TasksService.RemoveChat | apps/api/src/sessions/sessions.service.ts:100-107 | deleting a chat removes its desks and their offers, and leaves requests under way to their providers |
| Providers.PageIsFair | packages/agent-core/src/providers.ts:802-816 | a page has min(limit, total) items, a prefix of each group in its order, and no group is more than one ahead of one not exhausted |
| Providers.RoundRobin | packages/agent-core/src/providers.ts:802-816 | the nested loops take those turns |
| Providers.SearchOneProvider | packages/agent-core/src/providers.ts:768-800 | a source shows its first valid offers, and shown, limited and dropped add up to what it sent |
| Providers.ValidOffersInOrder | packages/agent-core/src/providers.ts:784-798 | the offers read are the valid ones, in the order they were sent |
| Providers.GroupsInOrder | packages/agent-core/src/providers.ts:693-699 | each source that answered has its group, in the order of the sources |
| Providers.Search | packages/agent-core/src/providers.ts:674-713 | a search shows a fair page of its sources and accounts for everything they sent |
| Providers.OneMoreOutcome | packages/agent-core/src/providers.ts:701-705 | an answer adds its offers and those its adapter dropped to what was sent |
| Providers.CombineFlexibleFlightResults | packages/agent-core/src/providers.ts:394-444 | the weekly sample shows a fair page, accounts for everything, and lists each provider once with its counts added up |
| Providers.OneMoreSearch | packages/agent-core/src/providers.ts:398-412 | a search that found anything adds what it shows, limits and drops to the totals, and its sources to the list |
| Providers.MergeKeepsCounts | packages/agent-core/src/providers.ts:413-430 | merging a source keeps every provider's counts and lists it once |
| Providers.OneMoreSource | packages/agent-core/src/providers.ts:413-430 | a provider's counts are those of all its entries added up, and it is ok once any of them is |
| Providers.SearchFlexibleFlights | packages/agent-core/src/providers.ts:338-364 | searching the sampled days and combining them accounts for everything any source sent on any day, shows a fair page of the days' pages, and finds something exactly when a source answered on some day |
| Providers.OneMoreDate | packages/agent-core/src/providers.ts:338-364 | a sampled day adds what its sources sent |
| Bullet.RoundTrip | apps/api/src/memory/bullet.ts:8-34 | a printed bullet of a non-empty trimmed line reads back as itself, also when the body ends in a parenthesised date |
| Bullet.RoundTripsExactly | apps/api/src/memory/bullet.ts:8-34 | and only such a body, with a date that is one, does |
| Bullet.ParsedIsClean | apps/api/src/memory/bullet.ts:26-34 | whatever is read back is one trimmed line, with a date or none |
| Bullet.ParsedExactly | apps/api/src/memory/bullet.ts:8-34 | after one of the three tags a line is read as the regular expression matches it: of all cuts into white space, body and end, the one with the most white space, then the shortest body, then a date if there can be one; without a cut it is no bullet |
| Bullet.BulletsAreTagged | apps/api/src/memory/bullet.ts:8-9 | every bullet begins with one of the three tags |
| Bullet.PrintedExactly | apps/api/src/memory/bullet.ts:17-23 | how a bullet is printed, with the tags written out |
| Memory.TriggersKeepInStep | apps/api/src/db/memory-search-schema.ts:41-69 | each trigger keeps the index the projection of the table |
| Memory.RebuildMemoryFts | apps/api/src/db/memory-search-schema.ts:141-147 | a rebuilt index is the projection of the table |
| Memory.EnsureMemoryFts | apps/api/src/db/memory-search-schema.ts:92-131 | the boot leaves the index in step exactly when something made it suspicious or it was in step already |
| Memory.SameCountDriftIsTrusted | apps/api/src/db/memory-search-schema.ts:208-215 | an index with as many rows as the table that is not its projection |
| Memory.RemovedIsUnsaid | apps/api/src/workspace/workspace.service.ts:123-133 | after removing a body no line reads back as it, and every other body is still said |
| Memory.RememberedIsWritten | apps/api/src/workspace/workspace.service.ts:105-115 | a well-formed note is in its file after `remember` exactly unless its bullet was only part of another line |
| Memory.ContainsExactly | apps/api/src/workspace/workspace.service.ts:105-108 | a file contains a bullet when its text is anything, the bullet, anything |
| Memory.BulletInsideAnother | apps/api/src/workspace/workspace.service.ts:105-108 | for every note there is a file in which that happens |
| Memory.ParseMemoryBullets | apps/api/src/memory/bullet.ts:37-43 | the loop collects the bullets of a file in order |
| Memory.BulletsSay | apps/api/src/memory/bullet.ts:37-43 | a body is listed exactly when some line reads back as it |
| Memory.EveryRunAgrees | apps/api/src/memory/memory.service.ts:135-190 | over any run of remember, create, forget and import, each agent has one row per body and the index is the table's projection |
| Memory.RememberedIsKnown | apps/api/src/memory/memory.service.ts:135-164 | a note new to its agent gets a row as given, and its file keeps all it said and says it too unless its bullet was part of another line |
| Memory.ImportedRowsAreBullets | apps/api/src/memory/memory.service.ts:284-306 | every row an import adds is one of the file's bullets with its kind and date |
| Memory.ImportTwice | apps/api/src/memory/memory.service.ts:284-306 | importing the same file again changes nothing |
| Memory.ImportReadsTheFile | apps/api/src/memory/memory.service.ts:284-306 | after an import an agent has the bodies it had and those its file says |
| Memory.ForgottenStaysForgotten | apps/api/src/memory/memory.service.ts:173-190 | a forgotten body stays out of its agent's rows and file over any run without an event that brings it: remembering it, or writing a bullet into the shared file that reads back as it |
| Memory.CleanNotesBringThemselves | apps/api/src/memory/memory.service.ts:135-171 | a well-formed note brings exactly its own body, to its own agent and to those that share its file |
| Memory.OtherNotesSpare | apps/api/src/memory/memory.service.ts:135-190 | over any run of forgetting, importing, and remembering or creating well-formed notes with other bodies, a forgotten body does not come back |
| Memory.CreatedBodiesRoundTrip | apps/api/src/memory/memory.service.ts:166-171 | every body that `create` stores is printed and read back as itself |
| Memory.CreatedBodyIsItsWords | apps/api/src/memory/memory.service.ts:166-171 | a created body is the words it was given with one space between them |
| Memory.CreatedTitles | apps/api/src/memory/memory.service.ts:166-171 | a created note keeps the title it was given, or is titled by its body cut after 52 characters |
| Memory.MemoryService.Remember | apps/api/src/memory/memory.service.ts:135-164 | a body already known changes nothing; another gets the next row as given, one entry in the index and its bullet in the one file |
| Memory.MemoryService.Create | apps/api/src/memory/memory.service.ts:166-171 | a created note is remembered with its white space collapsed |
| Memory.MemoryService.Forget | apps/api/src/memory/memory.service.ts:178-190 | an agent's own note loses its row and its entry, no line of the file says it any more, and no other file changes |
| Memory.MemoryService.ImportFile | apps/api/src/memory/memory.service.ts:284-306 | each unknown body of the file is inserted in order |
| Fts.EscapedIsLiteral | apps/api/src/memory/fts.ts:97-100 | an escaped term matches itself and nothing else |
| Fts.FoldExactly | apps/api/src/memory/memory.service.ts:248-256 | LIKE takes the ASCII capitals for their small letters and leaves every other character alone |
| Fts.PatternFindsTerm | apps/api/src/memory/memory.service.ts:248-256 | the scan's pattern matches exactly the texts that contain the term, up to ASCII case |
| Fts.LoweredPatternIsContainment | apps/api/src/memory/memory.service.ts:248-256 | on lowered text and term it matches exactly when the text contains the term |
| Fts.SearchTerms | apps/api/src/memory/fts.ts:66-77 | the lowered words of a query, first occurrences in order, up to the limit |
| Fts.DistinctKeepsWords | apps/api/src/memory/fts.ts:66-77 | no word is lost and none is repeated |
| Fts.WordsHoldTheQuery | apps/api/src/memory/fts.ts:66-77 | the words are non-empty runs of word characters and together hold all of them in order |
| Fts.HitOrder | apps/api/src/memory/fts.ts:143-154 | ranking is a total order: only the same score, title and id compare equal |
| Fts.BetterHitsComeFirst | apps/api/src/memory/fts.ts:143-154 | a higher score comes first; among equal scores the earlier title, and among equal titles the earlier id, by the first character that differs |
| Fts.RankingIsUnique | apps/api/src/memory/fts.ts:143-154 | the same hits have one ranking, whatever order the rows came in |

## Left out

- Turn.DeadToolDoesNotRunAgain: assumes that a terminal failure has a first sentence, as every one of the bundled tools has; without it the statement is false (`Turn.ReasonlessFailureRevives`).
- Turn.CompleteTurn: the two answers to `/tools` and `/new` have no draft and are not compared with the screen; the stage events of slow calls (`waitingOutLoud`) and reply wording are not modelled.
- CityNames.CorrectCity: works on a normalised key and an arbitrary alias table; the trimming, airport codes and title case around it are not modelled.
- Semaphore.Semaphore.Acquire: the promise and its listeners are events; the value an aborted signal carries is not modelled.
- TurnReader.WireRoundTrip: assumes that encoded events have no raw newline, decode to themselves, and have no decodable proper prefix (section 7 of RFC 8259 and section 9.2.6 of the WHATWG HTML Living Standard); UTF-8 decoding is not modelled.
- Race.RaceIsHarmlessExactly: one snapshot is adopted in the middle of a stream without a completion; of several, `Race.PollsAreInvisibleExactly` says when none ever shows, and not what the screen ends with otherwise.
- LiveTurn.TurnStream.Announce: a step is given whole; how `consume` words it, and times, turn ids and session ids, are not modelled.
- Retry.WithRetry: runs under a finite policy; the loop under a policy that is not usable (`Retry.ClampIsUsableExactly`) is not modelled.
- OpenAi.StreamParser.Push: a payload is what decoding it yields, a missing or mistyped string being empty and a missing index 0; indices that are not whole are not modelled, nor is the wording of a failure.
- ModelStream.CompleteOpenAi: request building, status hints and logging are not modelled; which fetch errors are transient is a parameter.
- Engine.EveryRunIsKept: what pages show, which addresses are permitted and which fields are grounded in the request are arbitrary; that about:blank yields no snapshot is taken from the address rules.
- Engine.BrowserEngine.Act: pushing `inspect`, refreshing a stale snapshot and blocking a page are events of `Engine.Step` without methods of their own.
- Holds.TasksService.StoreOffers: rows are numbered in insertion order; prices, titles, notes and expiry times are not modelled, nor are summaries.
- Holds.DecisionsAreFinal: assumes that a desk has one search under way at a time, as scheduling each desk once gives; without it the property is false (`Holds.SecondFinishUndoesADecision`).
- Providers.SearchOneProvider: normalising a valid offer is a parameter; network, key and address refusals are one unanswered outcome.
- Providers.MergeKeepsCounts: retrieval times and failure details of a source are not modelled.
- Memory.RememberedIsWritten: a file is its lines, so the white space `appendMemory` trims at the end of the file is not modelled; the daily journal is not modelled.
- Memory.EveryRunAgrees: writes succeed, and which file an agent reads stays the same during a run.
- Fts.SearchTerms: which characters belong to words, and lower-casing, are parameters.
- Fts.HitOrder: scores are given reals; BM25 and the exponential recency factor are not modelled.
- Strings are sequences of characters rather than UTF-16 code units.
- Calendar arithmetic, authentication, pairing, path containment, address allow-lists, bounded caches, prompt wording and the React and Nest wiring are not modelled.
