# Verification of the agent runtime's core

A Dafny model of the parts of the runtime where a mistake loses messages, exceeds a budget or fires twice, with
machine-checked proofs. Code that changes fields, maps or buffers step by step is modelled as classes and methods
with loops, each proved against a specification; code shared by goroutines is modelled as step systems, with
invariants over every interleaving; the rest as functions.

- **Context window and compaction**: `Token`, `Messages`, `Render`, `Window`, `History`, `Prompt` (what is sent and
  what it costs), `Text`, `Sections`, `SummaryRoundTrip` (the summary format), `Compaction`, `Conservation`,
  `AppendOrder`, `BlockBoundary` (background compaction while messages keep arriving).
- **Cron and scheduler**: `Calendar`, `CronField`, `CronSearch`, `CronHorizon`, `Scheduler`, `Poller`, `Recurring`.
- **Concurrency**: `Loop` (turns and shutdown), `Bus` (publish, dispatch, drain).
- **Stream decoders**: `Demux`, `Accumulator`.
- **Reconcilers and caches**: `SkillSync`, `Conversation`, `Failover`.

`dafny verify dfyconfig.toml` checks everything.

## Model

| member | source | states |
|---|---|---|
| `Token.CountSubadditive` | pkg/token/token.go:6-12 | The token estimate never decreases with length and the estimate of a whole is at most the sum of its parts: what makes budgets on parts sound for the whole. |
| `Render.GrowthIsName` | internal/domain/service/prompt/prompt.go:524-574 | Under the default attachment path, the context block that is sent is longer than the one that was counted by exactly its `user_name` attribute. |
| `Render.BlockShows` | internal/domain/service/prompt/prompt.go:524-574 | A block shows message ID, time, replied-to ID, user ID and resolved name, each escaped, whenever the message has them. |
| `Render.AttachmentShows` | internal/domain/service/prompt/prompt.go:524-574 | Every attachment is shown with its file below the path of its message, its name, kind and caption. |
| `Render.CountPromptFootprint` | internal/domain/service/prompt/render.go:10-22 | The footprint is the sum over messages of the estimate of content plus encoded tool calls; only assistant turns count their calls, and an encoding failure counts nothing. |
| `Render.FootprintAdds` | internal/domain/service/prompt/render.go:10-22 | One message more adds the estimate of its content plus, for an assistant turn whose calls encode, the encoded calls. |
| `Render.EnrichMessages` | internal/domain/service/prompt/render.go:79-113 | The enriched copy rewrites each message independently and in place: evicted results and empty evicted turns are blanked, other evicted messages shrink to their block, user, tool and non-empty assistant messages get their block in front. |
| `Prompt.EnrichedKeeps` | internal/domain/service/prompt/render.go:79-113 | Only the content is rewritten: a live message keeps its own behind its block, an evicted one is sent as its block or blank. |
| `Window.GroupMessages` | internal/domain/service/prompt/render.go:34-74 | The groups are the history cut at each assistant turn with calls plus the following results that answer distinct calls of it; all start unpriced. |
| `Window.GroupsFlatten` | internal/domain/service/prompt/render.go:34-74 | Flattening the groups gives the history back: nothing lost, added or reordered. |
| `Window.GroupsAreBlocks` | internal/domain/service/prompt/render.go:34-74 | If the history is a concatenation of standalone messages and complete tool blocks (results in any order), the groups are exactly those blocks. |
| `Window.CountGroupTokens` | internal/domain/service/prompt/render.go:117-149 | A group costs the sum of its messages' estimates under an empty name map and the default path, branch by branch. |
| `Window.WindowMessages` | internal/domain/service/prompt/render.go:154-173 | The result is the flattening of the longest suffix of groups whose summed tokens fit the budget; every longer suffix exceeds it. |
| `Window.WindowHistoryWithBudget` | internal/domain/service/prompt/prompt.go:407-416 | The window is the longest run of whole groups at the end of the history that costs at most the budget; a non-positive budget gives nothing. |
| `Window.ResultsKeepTheirCall` | internal/domain/service/prompt/render.go:34-173 | In a window of a well-formed history every tool result has the assistant turn that called it before it in the same window. |
| `BlockBoundary.LiveOrphansExactly` | internal/domain/service/prompt/prompt.go:316-329 | The live history has a tool result without its assistant turn if and only if the summary boundary lies inside a tool block. |
| `BlockBoundary.WindowOrphans` | internal/domain/service/prompt/render.go:34-173 | A window of it has one only then, and if the window is the whole live history, exactly then. |
| `BlockBoundary.BoundaryInsideBlock` | internal/domain/service/compaction/service.go:173-181 | For every number of preserved messages a compaction reaches such a boundary. |
| `History.Cut` | internal/domain/service/prompt/prompt.go:316-329 | Filtering an ID-ordered history by a boundary cuts it in two at one position. |
| `Prompt.TrimHistoryAfterSummary` | internal/domain/service/prompt/prompt.go:316-329 | Without a boundary everything is kept; otherwise exactly the messages with a non-empty ID above it, in order. |
| `Prompt.MessageFits` | internal/domain/service/prompt/render.go:10-149 | For any message, what is sent is estimated at no more than what windowing counted plus an explicit slack (longer context block, calls of an evicted turn). |
| `Prompt.EstimateIsSent` | internal/domain/service/prompt/render.go:117-149 | A live user, tool or non-empty assistant message without a resolved name costs exactly what is sent. |
| `Prompt.WindowFits` | internal/domain/service/prompt/render.go:10-149 | The same for a whole window: footprint of the enriched window at most its counted cost plus the summed slack. |
| `Prompt.SlackIsNames` | internal/domain/service/prompt/render.go:79-149 | With the default path and no evicted tool-calling turn, the slack is at most the estimates of the added name attributes, and zero without names. |
| `Prompt.CleanWindowFits` | internal/domain/service/prompt/render.go:79-149 | With the default path, no resolved names and no evicted tool-calling turn, the counted cost bounds what is sent. |
| `Prompt.EvictedCallsOverrun` | internal/domain/service/prompt/render.go:117-149 | Every stored evicted turn whose encoded calls take four bytes or more overruns: some positive budget admits it to the window and what is sent exceeds that budget. |
| `Prompt.NameOverruns` | internal/domain/service/prompt/render.go:79-149 | Every live message with a block and a resolved name has a content with which it overruns a budget that admits it. |
| `Prompt.EstimateHoldsExactly` | internal/domain/service/prompt/render.go:10-149 | On the default path a message is within its estimate for every content if and only if it is covered: a live one resolves no name, and for an evicted one name and calls cost no further token. |
| `Prompt.CoveredWindowFits` | internal/domain/service/prompt/render.go:10-149 | A window of covered messages costs no more than was counted. |
| `Prompt.BudgetHoldsExactly` | internal/domain/service/prompt/prompt.go:185-270 | For a stored message, the prompt around it keeps within every budget that admits it, for every content, system prompt and summary, if and only if it is covered. |
| `Prompt.CoveredPromptFits` | internal/domain/service/prompt/prompt.go:185-270 | For any history: if every message of its window is covered, everything sent keeps within the budget. |
| `Prompt.BuildCompactionSignal` | internal/domain/service/prompt/prompt.go:272-293 | A signal is raised exactly when a threshold and a positive budget are set, pressure reaches threshold times budget, and there is a latest message; it names that message. |
| `Prompt.ChooseHistory` | internal/domain/service/prompt/prompt.go:185-218 | What is chosen comes from the history and lies above the boundary of the summary; without a budget it is all of that, in order, and the whole history where there is no boundary; with one, the window against what system prompt and summary leave, and nothing when they fill it. |
| `Prompt.Build` | internal/domain/service/prompt/prompt.go:141-270 | The prompt is the system prompt, the summary block if there is one, and message by message a part of the history that the summary does not cover (all of it without a budget); system prompt, summary and window together cost at most the budget plus the slack, and at most the budget plus the price of the names on the default path without evicted calls; the compaction signal goes out exactly under pressure and names the latest message. |
| `Sections.ParseSections` | internal/domain/service/compaction/service.go:233-264 | For each name the parser returns the trimmed text between the last header of that name and the next header, stated by line positions instead of by the scan. |
| `Sections.DistinctLists` | internal/domain/service/compaction/service.go:281-297 | The file list names every attachment reference, and each once. |
| `Sections.NormalizeFilesSection` | internal/domain/service/compaction/service.go:281-297 | Two nested loops with a seen map produce the bulleted distinct references in order of first appearance, or the placeholder. |
| `Sections.WriteSummary` | internal/domain/service/compaction/service.go:212-231 | The loop prints the four bodies found in the parsed sections, the file list coming from the messages, not from the model. |
| `SummaryRoundTrip.ReparseReturnsBodies` | internal/domain/service/compaction/service.go:212-264 | Re-parsing a normalised summary returns exactly its four section bodies if and only if the file list contains no header line. |
| `SummaryRoundTrip.AnswerSurvives` | internal/domain/service/compaction/service.go:212-264 | In the printed text, read back, goals, state and decisions are the trimmed sections of the model's answer, or "None." where it has none or a blank one, and the files are the file list (for readable text and a header-free list). |
| `SummaryRoundTrip.PrintedForm` | internal/domain/service/compaction/service.go:212-231 | Four non-empty sections in the order goals, files, state, decisions, separated by blank lines. |
| `SummaryRoundTrip.FilesListed` | internal/domain/service/compaction/service.go:281-297 | The file list is "None." without attachments, and otherwise one bulleted line for each distinct reference of the history. |
| `SummaryRoundTrip.RefNames` | internal/domain/service/compaction/service.go:183-210 | A reference names the path, else the file name, else the ID, and describes by caption, else by kind, each trimmed. |
| `SummaryRoundTrip.HeaderSpellings` | internal/domain/service/compaction/service.go:266-279 | A header line opens its section in any spelling of case; any other name opens none. |
| `SummaryRoundTrip.NormalizeIdempotent` | internal/domain/service/compaction/service.go:212-279 | Normalising twice equals normalising once if and only if the file list has no goals header of its own, or one whose body happens to be the goals already printed. |
| `SummaryRoundTrip.HeaderFreeIdempotent` | internal/domain/service/compaction/service.go:212-279 | In particular it is idempotent whenever attachment references hold no section-header line. |
| `SummaryRoundTrip.IdempotenceFails` | internal/domain/service/compaction/service.go:212-279 | A concrete attachment reference for which a second normalisation changes the summary. |
| `SummaryRoundTrip.CarriageFreeReadable` | internal/domain/service/compaction/service.go:212-264 | Carriage-return-free text and references meet the readability hypothesis of the round trip. |
| `Compaction.TrimSummarizedMessages` | internal/domain/service/compaction/service.go:158-171 | Same cut as on the prompt side: the messages above the latest summary's boundary. |
| `Compaction.BatchContinues` | internal/domain/service/compaction/service.go:83-135 | A non-empty batch continues the summarised part without gap or overlap, moves the boundary strictly up, and leaves exactly `preserve` messages of what was read behind it; it is empty exactly when at most that many are in view. |
| `Compaction.NothingPreserved` | internal/domain/service/compaction/service.go:173-181 | With no number to preserve, everything in view is summarised. |
| `Compaction.Service.Compact` | internal/domain/service/compaction/service.go:83-135 | One call on its own, with every call it makes able to fail: nothing to do is success; any failure changes nothing; otherwise exactly one summary is added, reaching to the last message of the batch. |
| `Conservation.SingleFlightKept` | internal/domain/service/loop/loop.go:318-335 | At most one compaction per conversation is running, and the boundary a job has read is still the stored one. |
| `Conservation.StepKeeps` | internal/domain/service/compaction/service.go:83-135 | Every step (append, launch, read summary, read history, save, finish or fail) keeps the inductive invariant on boundaries, batches and running jobs. |
| `Conservation.RunConserves` | internal/domain/service/compaction/service.go:83-181 | Over every run in which appended IDs lie above the boundary and agree with the creation seconds: batches of all summaries in order followed by the live history equal the full history in store order, boundaries strictly increase, one job per conversation. |
| `Conservation.AppendConservesIff` | internal/domain/service/loop/loop.go:150-335 | For any new message, conservation holds right after its append if and only if its ID is above the stored boundary and the store orders it (by creation second, then ID) behind everything summarised. |
| `Conservation.AppendThenSaveConservesIff` | internal/domain/service/loop/loop.go:150-335 | With a batch waiting to be saved, conservation holds right after that save if and only if the appended ID is above the end of that batch and the store orders it behind everything summarised and the batch. |
| `Conservation.BelowIsLost` | internal/domain/service/compaction/service.go:158-171 | A new message whose ID is not above the boundary is lost by its append: no batch has it, none in hand will, and the live history leaves it out. |
| `Conservation.BelowPendingIsLost` | internal/domain/service/compaction/service.go:83-135 | A new message whose ID is not above the end of a batch in hand is lost by the save. |
| `Conservation.LossHappens` | internal/domain/service/compaction/service.go:83-181 | For every number of preserved messages there are runs from the empty store that reach both kinds of loss. |
| `AppendOrder.AppendSafeExactly` | internal/domain/service/compaction/service.go:83-181 | In every reachable state and for every new message: conservation holds in all continuations whose appends are in order if and only if this append is in order, that is above the boundary and every pending batch, and on the same side of every stored message by ID and by creation second. |
| `AppendOrder.SpoiledNotSafe` | internal/domain/service/compaction/service.go:83-135 | With one message standing elsewhere by creation second than by ID, above the boundary and with no compaction running, the state is not safe, for every number of preserved messages: later appends in order and one compaction break conservation. |
| `AppendOrder.SecondsMatter` | internal/domain/service/loop/loop.go:150-335 | A reachable state and a message above every boundary, conserved right after its append, that a later compaction breaks because of its creation second alone. |
| `Conservation.InsertSplits` | pkg/plugins/store/sqlite/message.go:253 | Where IDs and creation seconds agree, the place the store gives a message is its place by ID. |
| `Conservation.LostForever` | internal/domain/service/compaction/service.go:158-171 | A message that fell below the boundary unseen never returns to the live history, whatever follows. |
| `Conservation.PromptViewExact` | internal/domain/service/prompt/prompt.go:185-195 | The prompt builder reads history and summary at different times: each message it read is in its view if and only if no summary covers it. |
| `Calendar.LessCounts` | pkg/cron/cron.go:193-253 | The lexicographic order of calendar minutes is the order of their minute count from the proleptic Gregorian day number. |
| `Calendar.NextMinuteCounts` | pkg/cron/cron.go:204-210 | Truncate-and-add-a-minute is the successor in that count, across day, month, year and leap-day borders. |
| `Calendar.MinuteAt` | pkg/cron/cron.go:193-253 | Every count is the count of a valid calendar minute. |
| `Calendar.MonthLengths` | pkg/cron/cron.go:198-201 | The lengths of all months, and leap days in 2000 and 2024 but not in 1900, 2023 or 2100. |
| `Calendar.WeekdayCounts` | pkg/cron/cron.go:257-260 | The weekday advances by one with each day counted from 1 January 1970, a Thursday. |
| `CronSearch.FirstMonth` | pkg/cron/cron.go:220-253 | The month level and the levels below return the least match of the given year not before the start, or none if the year has none. |
| `CronSearch.FirstDay` | pkg/cron/cron.go:227-250 | The same within one month; days are tried up to the month's length and by the day rule. |
| `CronSearch.NextAfter` | pkg/cron/cron.go:204-253 | The result is the least matching minute strictly after t within calendar years y..y+4 of the minute after t, and none exactly when there is none. |
| `CronSearch.DayRule` | pkg/cron/cron.go:257-273 | A minute whose minute, hour and month are admitted matches by its day of the month or its weekday when both fields are restricted, by the restricted one when one is, and always when neither is. |
| `CronSearch.EitherDayIsEnough` | pkg/cron/cron.go:204-273 | With both day fields restricted the result is not later than the next admitted minute on a listed day of the month, nor than the next one on a listed weekday, and lies on one of the two. |
| `CronSearch.ThirteenthOrFriday` | pkg/cron/cron.go:204-273 | An instance: the 13th or a Friday, from Sunday 12 April 2026, is Monday the 13th. |
| `CronSearch.NextUnique` | pkg/cron/cron.go:204-253 | That specification admits one result only. |
| `CronSearch.ContainsIsMember` | pkg/cron/cron.go:183-186 | On increasing lists the binary search of `contains` decides membership. |
| `CronHorizon.MatchesEveryYear` | pkg/cron/cron.go:198-273 | An expression that restricts the weekday, leaves both day fields wild, or admits a day of common years matches in every year. |
| `CronHorizon.NeverZero` | pkg/cron/cron.go:198-253 | For such an expression the search never comes back with the zero time. |
| `CronHorizon.OnlyLeapDays` | pkg/cron/cron.go:257-273 | Any other expression matches on 29 February only, if at all. |
| `CronHorizon.ZeroExactly` | pkg/cron/cron.go:198-253 | The result is zero if and only if the expression admits neither a common day nor 29 February, or no leap day is left in the years searched. |
| `CronHorizon.EmptyIsNone` | pkg/cron/cron.go:198-253 | Conversely the condition makes the empty result the specified one. |
| `CronHorizon.CenturyAhead` | pkg/cron/cron.go:198-253 | A zero result for a 29 February expression forces a century year not divisible by 400 into the four years ahead. |
| `CronHorizon.EmptyBeforeCentury` | pkg/cron/cron.go:198-253 | For a 29 February expression, or one without any day, the search is empty at every time in 2097 and every 400 years from there. |
| `CronField.StepValues` | pkg/cron/cron.go:96-125 | The step loop yields exactly the stepped values in increasing order; with a step so large that Go's int wraps it yields an exactly given list that alternates between the range and values far below it. |
| `CronField.ParseItem` | pkg/cron/cron.go:90-142 | One list element is rejected exactly when malformed, and otherwise gives the set its grammar denotes. |
| `CronField.ItemTexts` | pkg/cron/cron.go:96-149 | The five forms of a list element on the texts of decimal numbers: star, number, range, and both with a step, each with its set or its rejection. |
| `CronField.RangeText` | pkg/cron/cron.go:151-171 | Two decimal numbers joined by a dash are read as those two numbers, or rejected out of bounds or order. |
| `CronField.StepsAre` | pkg/cron/cron.go:96-125 | A stepped set holds exactly the start plus whole steps up to the end. |
| `CronField.ListUnion` | pkg/cron/cron.go:80-95 | A list is malformed if one element is, and otherwise denotes what its elements denote together. |
| `CronField.ParseField` | pkg/cron/cron.go:80-149 | A field is an error exactly when malformed; otherwise the result is strictly increasing, non-empty, within bounds and the denoted set, unless a step wraps. |
| `CronField.ProperExactly` | pkg/cron/cron.go:80-149 | The result is a proper denotation if and only if no step wraps. |
| `CronField.LargestStepWraps` | pkg/cron/cron.go:96-125 | A field that parses and wraps: a star with the largest integer as its step, wherever the range starts above 0. |
| `CronField.LargestStepFindsNothing` | pkg/cron/cron.go:96-125 | As a day of the month the field with the largest step denotes the first, but its list is 1, the smallest integer, -1, in which the binary search finds no day. |
| `CronField.SortedKeys` | pkg/cron/cron.go:173-180 | The sorted key list is strictly increasing and holds exactly the keys. |
| `CronField.IsWild` | pkg/cron/cron.go:71-78 | A field counts as wild if and only if it denotes the full range, however it is written; a single element whose step wraps, if and only if its wrapped list has as many values as the range. |
| `CronField.Parse` | pkg/cron/cron.go:30-68 | Accepted exactly with five well-formed fields; then the parsed expression is what the fields denote, wild flags included, and meets what the calendar search assumes. |
| `Scheduler.OnceKept` | internal/domain/service/scheduler/scheduler.go:96-219 | One step of any kind keeps that a once entry past its publish can never become due again. |
| `Scheduler.RunsKept` | internal/domain/service/scheduler/scheduler.go:153-219 | One step keeps that every publish has its own earlier run record, and success only follows a publish that returned nil. |
| `Scheduler.OncePublishedAtMostOnce` | internal/domain/service/scheduler/scheduler.go:96-219 | Over every interleaving of ticks, failing store calls, status changes, re-activation and restarts a once entry is published at most once, and the run-record property holds. |
| `Poller.SchedulerService.FireEntry` | internal/domain/service/scheduler/scheduler.go:120-219 | The sequential code leaves exactly the described tables for every outcome of its five calls, and is itself a run of the step system. |
| `Poller.FiringStops` | internal/domain/service/scheduler/scheduler.go:120-167 | A firing that fails before its publish publishes nothing. |
| `Poller.SchedulerService.Tick` | internal/domain/service/scheduler/scheduler.go:96-117 | Every listed entry whose next run has come and whose calls succeed is published once, with its run record, and completed or rescheduled; publications are of such entries only, none twice; without any, nothing changes, and neither does it after a failed listing. |
| `Poller.SchedulerService.SetCronStatus` | internal/infra/plugins/tool/cron_set_status/plugin.go:79-147 | Reply and table for every branch and store failure of the status tool: an accepted change sets the status asked for, clears the next run on deletion, recomputes it on resuming a recurring entry and leaves it otherwise. |
| `Poller.SchedulerService.AtMostOnce` | internal/domain/service/scheduler/scheduler.go:96-219 | In every state these methods can reach, no once entry has two publishes. |
| `Recurring.NextIsLater` | internal/domain/service/scheduler/scheduler.go:135-150 | Unless the search comes back empty, the stored next run is a cron instant strictly later than now. |
| `Recurring.FiresExactly` | internal/domain/service/scheduler/scheduler.go:104-150 | A tick fires an entry exactly if it is active and its next run has come and both store calls succeed. |
| `Recurring.SilentUntilResumed` | internal/infra/plugins/tool/cron_set_status/plugin.go:111-147 | A paused or deleted entry stays silent in every run without a resume. |
| `Recurring.StepKeeps` | internal/infra/plugins/tool/cron_set_status/plugin.go:128-140 | Ticks, resumes, pauses and deletes keep that past firings and the next run are pairwise separated by cron instants, unless a search of the step comes back empty. |
| `Recurring.FiringsSeparated` | internal/domain/service/scheduler/scheduler.go:104-150 | In every run in which no search comes back empty, there is between any two firings of an entry a matching cron instant after the first and not after the second; this includes 29 February entries outside the years around 2097. |
| `Recurring.FiringsSeparatedExactly` | internal/domain/service/scheduler/scheduler.go:104-150 | From any clock, all firings of all runs are separated by instants if and only if the expression always fires. |
| `Recurring.EmptySearchFiresEveryTick` | internal/domain/service/scheduler/scheduler.go:135-150 | While the search is empty a resumed entry fires on every tick, with no instant of its expression between firings that lie in the years searched; this includes 29 February expressions. |
| `Recurring.NeverMatchingFiresEveryTick` | internal/domain/service/scheduler/scheduler.go:135-150 | An expression without any day, once resumed, fires on every tick at any time, and has no instant at all. |
| `Loop.SlotsKept` | internal/domain/service/loop/loop.go:92-120 | Slots taken equal the handlers holding one plus those Shutdown reclaimed, never more than the workers. |
| `Loop.CheckAdmits` | internal/domain/service/loop/loop.go:92-98 | While not draining the check lets every message through, while draining none. |
| `Loop.TurnStarts` | internal/domain/service/loop/loop.go:92-118 | A message that finds a free slot and its chat unlocked reaches its turn by its own steps. |
| `Loop.TurnEnds` | internal/domain/service/loop/loop.go:100-118 | A running turn gives mutex and slot back by its own steps. |
| `Loop.TurnsBounded` | internal/domain/service/loop/loop.go:92-146 | In every reachable state slots are within MaxWorkers and at most one turn runs per chat. |
| `Loop.HolderCanStep` | internal/domain/service/loop/loop.go:100-120 | Whoever holds a slot can move, or waits for a turn of the same chat that can: slot-then-mutex does not deadlock. |
| `Loop.ShutdownNotStuck` | internal/domain/service/loop/loop.go:131-146 | While Shutdown is filling slots it, or a handler that holds a slot, can always move. |
| `Loop.ShutdownReturns` | internal/domain/service/loop/loop.go:131-146 | With no slot held by a handler, a Shutdown under way returns nil by its own steps. |
| `Loop.DrainedIsIdle` | internal/domain/service/loop/loop.go:131-146 | When Shutdown has returned nil no turn is running and no slot is held. |
| `Loop.DrainedForever` | internal/domain/service/loop/loop.go:131-146 | And none ever starts, in any continuation. |
| `Loop.DroppedWhileDraining` | internal/domain/service/loop/loop.go:92-98 | A message arriving while draining never gets past the check. |
| `Bus.StepKeeps` | pkg/plugins/transport/memory/plugin.go:103-158 | Every step of publishers, dispatch loops, Subscribe, Start and Stop keeps the queue, acceptance and flag invariants. |
| `Bus.DeliveredIsPrefix` | pkg/plugins/transport/memory/plugin.go:125-158 | Per topic each subscriber has received a prefix of the accepted messages, behind by at most the buffer and one; the buffer stays within QueueSize; when done closes, everything accepted is delivered. |
| `Bus.DeliveredOnce` | pkg/plugins/transport/memory/plugin.go:219-236 | Accepted are exactly the nil-returning publishes, once each, so nothing is delivered twice and nothing that failed or panicked is delivered. |
| `Bus.SubscribeRecorded` | pkg/plugins/transport/memory/plugin.go:162-184 | A subscription to a known topic before Start is recorded behind the others; any other changes nothing. |
| `Bus.SubscriberGetsAll` | pkg/plugins/transport/memory/plugin.go:125-184 | A handler subscribed before Start stays subscribed in every run and has been called with every accepted message, in order, when done closes. |
| `Bus.PublishGetsThrough` | pkg/plugins/transport/memory/plugin.go:144-158 | A publish to an open topic with room is accepted by its own steps. |
| `Bus.NextGetsDelivered` | pkg/plugins/transport/memory/plugin.go:219-236 | The next buffered message reaches every handler by steps of the dispatch loop alone. |
| `Bus.PanicMeansStopped` | pkg/plugins/transport/memory/plugin.go:144-158 | A publish can panic only after Stop was called. |
| `Bus.PanicCanHappen` | pkg/plugins/transport/memory/plugin.go:125-158 | And then it can: a run in which the stopped check precedes Stop and the send follows the close. |
| `Bus.PanicExactly` | pkg/plugins/transport/memory/plugin.go:125-158 | In every reachable state a publish can still panic if and only if it is past the stopped check, or Stop has not been called and it names, or will name, a topic of the bus; in particular no call that has yet to make the check after Stop ever panics. |
| `Bus.DrainNotStuck` | pkg/plugins/transport/memory/plugin.go:219-236 | A dispatch loop on a closed queue can always go on until it exits. |
| `Bus.DrainEnds` | pkg/plugins/transport/memory/plugin.go:125-142 | Each of its steps shrinks a measure that nothing else raises, so draining ends. |
| `Demux.DemuxStream` | pkg/plugins/sandbox/docker/stream.go:15-75 | Both outputs are the stream projections of the decoded prefix under the cap, and an error leaves both empty. |
| `Demux.HeaderLayout` | pkg/plugins/sandbox/docker/stream.go:35-45 | The kind is the first byte of a header, the size its last four, most significant first. |
| `Demux.OneFrame` | pkg/plugins/sandbox/docker/stream.go:15-75 | A frame of kind 1 goes to stdout, one of kind 2 to stderr, any other to neither. |
| `Demux.DecodeEncode` | pkg/plugins/sandbox/docker/stream.go:15-75 | Decoding an encoded frame list under cap n gives the first n tagged payload bytes. |
| `Demux.DemuxInvertsMux` | pkg/plugins/sandbox/docker/stream.go:15-75 | For every frame list and every cap the two outputs are the projections of the first n tagged payload bytes. |
| `Demux.CombinedOutputBounded` | pkg/plugins/sandbox/docker/stream.go:15-75 | On arbitrary bytes the combined output is within the cap. |
| `Demux.TruncatedFrame` | pkg/plugins/sandbox/docker/stream.go:30-70 | A stream cut inside a payload is an error if and only if the cap still wanted more of that payload. |
| `Demux.TruncatedHeader` | pkg/plugins/sandbox/docker/stream.go:22-38 | A stream cut inside a header is an error if and only if the cap was not reached before it. |
| `Accumulator.StreamAccumulator.ProcessChunk` | pkg/plugins/llm/openai_compat/stream.go:74-113 | After any chunks the fields are the concatenated content, per-index calls, last finish reason and last usage of everything seen. |
| `Accumulator.StreamAccumulator.Result` | pkg/plugins/llm/openai_compat/stream.go:116-137 | The response is that function of the stream, and the only effect is the default arguments written back. |
| `Accumulator.ChunkAdds` | pkg/plugins/llm/openai_compat/stream.go:74-113 | One chunk more adds its content, and replaces finish reason and usage if it has them. |
| `Accumulator.DenseCallsKept` | pkg/plugins/llm/openai_compat/stream.go:116-137 | If the indexes seen are 0..n-1, the response has exactly n calls, each once and in index order. |
| `Accumulator.CallsOfResponse` | pkg/plugins/llm/openai_compat/stream.go:85-137 | With indexes 0..n-1 each call of the response has its ID and name, and all its arguments or an empty object where none came. |
| `Accumulator.KeptExactly` | pkg/plugins/llm/openai_compat/stream.go:116-137 | In any case exactly the seen indexes below the number of distinct indexes are kept. |
| `Accumulator.FragmentationInvariant` | pkg/plugins/llm/openai_compat/stream.go:74-137 | Two streams with the same content, finish reason, usage and indexes, and per index the same last non-empty ID and name and the same concatenated arguments, have the same response. |
| `Accumulator.InterleavingSame` | pkg/plugins/llm/openai_compat/stream.go:74-137 | So have two streams with the same pieces per call, however the calls are interleaved. |
| `Accumulator.SplitChunkSame` | pkg/plugins/llm/openai_compat/stream.go:74-137 | Splitting a chunk in two anywhere in a stream does not change the response. |
| `Accumulator.SplitPieceSame` | pkg/plugins/llm/openai_compat/stream.go:85-137 | Splitting one call's arguments over two pieces, anywhere in a stream, does not change the response. |
| `Accumulator.SwapPiecesSame` | pkg/plugins/llm/openai_compat/stream.go:85-137 | Nor does exchanging adjacent pieces of different calls. |
| `Failover.RouteRoundTrip` | internal/domain/service/llm/router.go:78-85 | A string parses to a route if and only if it is that route's key and the route has a colon-free endpoint and no empty part. |
| `Failover.KeyInjective` | internal/domain/service/llm/completion.go:54-58 | Cool-down keys of different endpoint and model pairs differ. |
| `Failover.NewRouter` | internal/domain/service/llm/router.go:31-49 | The chain is primary then fallbacks, in order; any entry that does not parse is an error. |
| `Failover.Select` | internal/domain/service/llm/router.go:53-76 | The overrides that parse go before the chain, in order and each in its place; the others are dropped. |
| `Failover.CompletionService.Complete` | internal/domain/service/llm/completion.go:44-101 | Each attempt's model and verdict are what the whole history of calls and cool-downs dictates, the outcome is that of the first final reply, and the history grows by exactly the calls and cool-downs of this request. |
| `Failover.NamedModel` | internal/domain/service/llm/completion.go:44-51 | A model named with its endpoint is the only route; any other name goes to the whole chain. |
| `Failover.CalledExactly` | internal/domain/service/llm/completion.go:53-71 | An entry is called if and only if its endpoint is registered and every cool-down of its key is over. |
| `Failover.ModelRule` | internal/domain/service/llm/completion.go:53-76 | An entry is called with the requested model, or else with the model of the first entry called. |
| `Failover.CompletionService.IsCooledDown` | internal/domain/service/llm/completion.go:103-118 | The map with its lazy deletion answers whether any cool-down in the whole history of that key is not over. |
| `Failover.LookupIsExact` | internal/domain/service/llm/completion.go:103-118 | Lookup and deletion are exact with respect to the history of all cool-downs. |
| `Failover.CallRespects` | internal/domain/service/llm/completion.go:60-76 | A call admitted by the lookup keeps that no call ever precedes the end of an earlier cool-down of its key. |
| `Failover.FirstAnswerWins` | internal/domain/service/llm/completion.go:53-98 | A response is returned exactly when some attempt answered, and it is the first in chain order. |
| `Failover.ExhaustedMeans` | internal/domain/service/llm/completion.go:60-100 | An error under a live context means every entry was cooling down, unregistered, or called and failed. |
| `Failover.CooldownsAreProviderErrors` | internal/domain/service/llm/completion.go:85-91 | A cool-down starts exactly for provider errors under a live context, for the key of the model used, with the default duration when none is given. |
| `Failover.CallsAreTraced` | internal/domain/service/llm/completion.go:53-98 | The history of calls that cool-down safety speaks of records exactly the calls made. |
| `Failover.OwnModelsExactly` | internal/domain/service/llm/completion.go:53-76 | Every entry is called with its configured model in all possible runs if and only if all entries share one model: the first model called is carried on. |
| `Conversation.InverseKeptExactly` | internal/domain/service/conversation/service.go:29-142 | Each operation keeps cache and reverse map inverse, with a tenant per conversation, if and only if it gives no chat a conversation another chat is in. |
| `Conversation.RunsKeepInverse` | internal/domain/service/conversation/service.go:29-142 | Any sequence of operations over conversations that are never shared keeps them inverse. |
| `Conversation.StaysPut` | internal/domain/service/conversation/service.go:36-142 | A chat's conversation, once cached, changes only by a switch or reset aimed at it, over any run. |
| `Conversation.ForgottenExactly` | internal/domain/service/conversation/service.go:66-142 | A known conversation loses its tenant exactly when its chat is switched away from it or it is reset. |
| `Conversation.SharedIsStuck` | internal/domain/service/conversation/service.go:106-142 | Two chats in one conversation, one reset: the other is left in a conversation without tenant that can no longer be reset. |
| `Conversation.Service.ResolveConversation` | internal/domain/service/conversation/service.go:36-60 | The cached conversation, else the one the store finds, else the new ID; in the latter two cases exactly the three maps gain it, and an error changes nothing. |
| `Conversation.Service.SwitchConversation` | internal/domain/service/conversation/service.go:106-114 | The chat is in the target, found both ways and with its tenant; the conversation it left is forgotten; and the exact condition under which the maps stay inverse. |
| `Conversation.Service.ResetConversation` | internal/domain/service/conversation/service.go:118-142 | No-op on unknown conversations; otherwise only the chat of that conversation moves, to the new ID. |
| `SkillSync.TenantSkills.Sync` | internal/domain/service/skill/impl.go:105-204 | The directory afterwards, name by name, for every failure of every file operation. |
| `SkillSync.OwnedKept` | internal/domain/service/skill/impl.go:145-203 | The tenant's own entries survive any sync, whatever fails. |
| `SkillSync.OwnersKeepTheirs` | internal/domain/service/skill/impl.go:145-203 | A file, a directory without a readable record, and one recorded for another source are never touched, whatever fails. |
| `SkillSync.OwnedForever` | internal/domain/service/skill/impl.go:145-203 | And any series of syncs with any configurations and failures. |
| `SkillSync.CleanSyncResult` | internal/domain/service/skill/impl.go:139-203 | Without failures an entry is global-sourced exactly if it is an allowed skill where the tenant held nothing, then at its current hash; every allowed name is present. |
| `SkillSync.InstalledWhole` | internal/domain/service/skill/impl.go:145-180 | A skill that is new, or recorded at another hash, is installed with all its files and recorded with the hash of its SKILL.md. |
| `SkillSync.AllowedRule` | internal/domain/service/skill/impl.go:115-137 | An empty list allows every skill, any other the names on it in any spelling of case. |
| `SkillSync.DisallowedGoes` | internal/domain/service/skill/impl.go:183-203 | A global-sourced directory that is no allowed skill is removed. |
| `SkillSync.Idempotent` | internal/domain/service/skill/impl.go:105-204 | A second failure-free sync changes nothing. |
| `SkillSync.RecoversExactly` | internal/domain/service/skill/impl.go:148-180 | After a failing sync, a clean one installs the skill if and only if the failure did not leave something without a global record. |
| `SkillSync.InterruptedCopy` | internal/domain/service/skill/impl.go:166-180 | An instance: a copy that breaks off before its record, after which a sync without failures changes nothing and the skill is not up to date. |
| `SkillSync.StaleExactly` | internal/domain/service/skill/impl.go:145-157 | A synced copy becomes complete exactly if it was, or if the hash of SKILL.md moved. |
| `SkillSync.StaleScript` | internal/domain/service/skill/impl.go:145-157 | An instance: a changed script under an unchanged SKILL.md, which a clean sync leaves stale. |

## Where a promise does not hold as stated

Each of these is kept as the code has it, with an input or run that fails and the exact condition under which the code
keeps the promise.

- Failover order: the route of a fallback names a model, but the model of the first entry called is used for all later
  ones; every entry gets its own model exactly if all share one (`Failover.OwnModelsExactly`).
- Conservation: an inbound message gets its ID before it waits for the chat's mutex, and its creation second before its
  ID; the scheduler stamps the tick's time and draws the ID later. Exact condition, over all continuations:
  `AppendOrder.AppendSafeExactly`; runs that lose a message: `Conservation.LossHappens` by the ID,
  `AppendOrder.SecondsMatter` by the second.
- No tool result without its call: compaction preserves a number of messages, not of blocks
  (`BlockBoundary.BoundaryInsideBlock`, exact condition `BlockBoundary.LiveOrphansExactly`).
- Budget: name attributes and the calls of an evicted turn are sent but not counted. Overruns:
  `Prompt.NameOverruns`, `Prompt.EvictedCallsOverrun`; exact conditions: `Prompt.EstimateHoldsExactly`,
  `Prompt.BudgetHoldsExactly`.
- Summary normalisation on attachment references that contain a header line: `SummaryRoundTrip.IdempotenceFails`,
  exact condition `SummaryRoundTrip.NormalizeIdempotent`.
- Cron steps near the largest integer wrap: `CronField.LargestStepWraps`, `CronField.LargestStepFindsNothing`, exact condition `CronField.ProperExactly`.
- Separated firings: an entry whose search comes back empty is due on every tick, as for `0 0 29 2 *` in 2097
  (`Recurring.EmptySearchFiresEveryTick`); exact condition `Recurring.FiringsSeparatedExactly`.
- A publish that races with Stop can panic: `Bus.PanicCanHappen`, exact condition `Bus.PanicExactly`.
- Inverse conversation maps: two chats can be switched into one conversation (`Conversation.SharedIsStuck`, exact
  condition `Conversation.InverseKeptExactly`). This is an input of the service's interface; the runtime's caller takes
  the target from a message of the same chat (`internal/domain/service/mapper/mapper.go:84-103`).
- Skill copies: one interrupted before its record is written is never repaired (`SkillSync.InterruptedCopy`, exact
  condition `SkillSync.RecoversExactly`); changes to files other than SKILL.md are not noticed
  (`SkillSync.StaleScript`, exact condition `SkillSync.StaleExactly`).

## Left out

- HTTP clients, chat-platform plugins, gateway, command line, configuration loading and the tools other than the cron status tool: input, output and wiring.
- SQL text and the database engine: tables are maps and ordered sequences; listings, inserts and updates keep their meaning. Creation times are whole seconds.
- Message IDs are a total order with a least, empty element; the time layout of UUIDv7 is not modelled.
- Time zones with daylight saving and the normalisation of dates inside gaps: times are UTC, where the month check on a candidate has no effect.
- XML escaping, timestamps, size texts and JSON encoding are arbitrary functions in `Render.Renderer`; the system prompt and the summary prompt templates are strings.
- Text is a sequence of characters that each count as one byte; trimming removes the Unicode white space of Go's `strings.TrimSpace`, lower-casing is exact for every character whose lower case is an ASCII letter, and leaves the others alone.
- The split of a cron expression at white space: `CronField.Parse` starts from the fields.
- Go's integer wrap-around outside the cron step loop, including durations and token sums.
- Conservation.RunConserves: takes as hypotheses that appended IDs lie above the boundary and do not disagree with the creation seconds; `AppendOrder.AppendSafeExactly` shows that each append needs exactly that.
- Prompt.BuildCompactionSignal: compares exact reals, where the source divides and compares 64-bit floats.
- CronField.IsWild: says nothing of a comma list in which a step wraps.
- CronField.Parse: says nothing of the values of an expression in which a step wraps, beyond that it is accepted; `CronField.ParseField` gives the list of a single wrapping element.
- Budget soundness for other attachment paths: bounded by the explicit slack in `Prompt.Build`, not by the budget alone.
- The turn itself: LLM iterations, parallel tool execution and attachment harvesting inside a turn.
- Concurrent code is modelled as step systems on values, not as classes: handlers and shutdown, the bus, compaction jobs. In the bus, Start and Stop are atomic up to the wait for the loops, dispatching to one handler is one step, and that an error is logged and a panic recovered is built into the step: the model shows what follows from it, not that the recovery works.
- Middleware wrapping and Unsubscribe in the bus; the latter never matches a handler.
- A second Shutdown call, and messages waiting for a slot when Shutdown is abandoned.
- Poller.SchedulerService.Tick: runs by itself; interleaving with status changes is covered by the step system it refines.
- In the recurring-firing model a tick and a status change are single steps, and creation is the initial state.
- The copying of attachments and the content of the synthetic message at a firing.
- Recurring entries whose expression does not parse: the firing stops there, which the step system has as a lost update.
- Failover.CompletionService.Complete: concurrent requests sharing the cool-down map; requests come one after another on a clock that never goes back, and the lookup and the call share an instant.
- The interleaving of map operations inside the conversation service's methods, and its Append and GetHistory, which only pass on to the store.
- Reading skill directories, front matter, symbolic links, the listing and resolution of skills, and the one-hour limit between background syncs.
- Secrets, tokens, JWTs, redaction, the container pool, identity caches and runtime state.
