# Sloperator, modelled and proved

Sloperator is an operations bot: it runs agent turns for Slack threads, watches what they cost, picks
Jira tasks, assembles monitoring reports and shows its scheduled jobs. Most of it is prompts and calls
to other services. Underneath are a handful of state machines and folds that have to be right in every
interleaving and for every input. This project models those and proves what they promise.

Concurrent code is modelled as interleaved steps: a step is a stretch of code without an `await`, and a
theorem speaks of every sequence of steps. Code that updates fields is a class whose methods are proved
against a step function; loops are methods with invariants, proved against a specification function or
an outright property; what the code promises is then proved about that function.

| module | models |
|---|---|
| `Text`, `Wrappers`, `Sequences`, `Ordering`, `Sums` | string operations, `Option` and `Result`, concatenation, stable sorting, sums over maps |
| `SlackSplit` | cutting long agent output into Slack messages |
| `Steering` | one Claude turn under concurrent guidance |
| `ThreadLocks` | the dictionary of per-thread locks |
| `Retries`, `Capacity` | the nested retry loops, and the semaphore all calls share |
| `Transcript`, `ClaudeBudget`, `BudgetExactness`, `BudgetRun` | the offset-based transcript tailer that bounds a Claude session |
| `AgentUsage`, `UsageAgreement`, `UsageTotals`, `UsageDeltas` | the independent full rescan, its agreement with the tailer, deltas between snapshots |
| `Pairing`, `PairingProperties`, `CalendarMonth`, `Board`, `Selector`, `Claim`, `Planner` | deterministic task selection, claim confirmation, the skip loop |
| `Crontab`, `CrontabToggle`, `CrontabEnable` | the crontab reader and the in-place toggle of the same text |
| `SchedulerHistory` | journal lines folded into the runs of a job |
| `Reports`, `Dashboard` | report assembly, and which deliveries rebuild the dashboard while the channel goes on |
| `RpcClient` | request correlation of the Codex App Server client |
| `SingleFlight` | one review per experiment, joined and reused |

## What the proofs found

Properties that one would expect and that the code does not have. Each has a proof that it fails and the
condition under which it holds.

- The splitter's loop makes progress exactly for a limit of at least 1; with limit 0 it changes nothing
  and does not end (`SlackSplit.PassProgress`).
- Guidance that `steer` accepts once the turn is past the launch loop is never handed to the provider.
  While a recovery launch runs it makes the turn fail (`Steering.GuidanceCanBeLost`); in the partial
  report after a timeout the turn may even end as if all was well (`Steering.TimeoutCanLoseGuidance`).
  Nothing can be lost exactly when the buffer is empty and the control can no longer be reached
  (`Steering.DeliveredIff`).
- The lock cleanup removes whatever entry the thread has, even under a task that fetched the same lock
  and still awaits the store. Two turns of one thread can then run at once
  (`ThreadLocks.ServiceCanBreakExclusion`). Exclusion holds exactly as long as removals are clean
  (`ThreadLocks.CoherentStepIff`, `ThreadLocks.ExclusionIff`).
- The Codex timeout recoveries and the communication gate call the provider without the shared
  semaphore. Provider calls together exceed the capacity exactly if one of these may be open, and by as
  many as are open (`Capacity.CapacityExceededIff`, `Capacity.BypassBound`,
  `Capacity.ServiceExceedsCapacity`); a step does it exactly when it begins a call while they fill the
  capacity (`Capacity.LeavesCapacityIff`).
- The rescan splits lines at more characters than the budget does, such as a raw U+2028 inside a JSON
  string or a carriage return between two tokens. They see the same lines exactly when newlines are the
  only separators (`UsageAgreement.SameLinesIff`, `UsageTotals.ReturnDividesAccounts`). A record on which
  only the budget raises, such as one with a `null` counter, divides them as well
  (`UsageTotals.BrokenRecordDividesAccounts`).
- The per-tool counts of invocations do not add up to the session's when a later block gives a known call
  another name (`UsageDeltas.RenamingBreaksCounts`). They do exactly for the tools that as many calls
  were renamed to as away from (`UsageDeltas.CountsTelescopeIff`).
- The editor goes on through the start of another block until a close marker, the reader does not. Disabling
  then disables that block's jobs as well (`CrontabToggle.UnclosedBlockSpills`). For every text it changes
  exactly the target's flags if and only if it meets no such job (`CrontabToggle.DisableReadsIff`).
- Enabling a cron block can make a job appear (`CrontabToggle.DoublyDisabledAppears`), make one disappear
  (`CrontabEnable.CommentDisappears`), or end the block early and lose the jobs behind
  (`CrontabEnable.CloseMarkerEndsBlock`). With closed blocks it changes nothing but the flags exactly when
  no line makes a job appear or disappear and, from a payload that is a block marker on, no job is there to
  be lost or to appear in another block (`CrontabEnable.EnableReadsIff`). Disabling and enabling restores
  the text exactly when no line of the block was disabled before (`CrontabToggle.DisableEnableRestores`).
- A task whose summary carries both titles can be its own prerequisite, if the board has a status that is
  both queued and reviewed (`Claim.SelfPairNeedsSharedStatus`). Its claim is then confirmed only if the
  claimed status is a reviewed one too (`Claim.ClaimConfirmIff`, `Claim.SelfPairIsNotConfirmed`).
- The previous calendar month exists except for January of year 1 (`CalendarMonth.PreviousCalendarMonth`).
- The dashboard's state file remembers one run: a slow rebuild that records after a newer one makes the
  newer run be built again (`Dashboard.SlowRebuildForgets`). A run built before passes the check exactly
  if another was recorded since (`Dashboard.RebuildIff`).
- A request whose write fails leaves its entry in the pending table for good, and it is the only kind
  that does (`RpcClient.ServiceIndexed`, `RpcClient.LeakStays`). A request made after the output closed
  is served by nobody and can only run into its timeout (`RpcClient.AfterClose`).

## Model

| member | source | states |
|---|---|---|
| Text.SpacesAre | src/sloperator/agents.py:870-870 | the characters that count as whitespace when text is stripped or split |
| SlackSplit.BodyIs | src/sloperator/agents.py:870-870 | what is split is the text without the blanks around it, or the fixed notice for a blank text |
| SlackSplit.CutPriority | src/sloperator/agents.py:873-879 | a chunk ends at the last paragraph break in the window's second half, else the last line break, else the last space, else at the limit, each exactly when no better boundary occurs there |
| SlackSplit.PassProgress | src/sloperator/agents.py:872-881 | one pass leaves a shorter trimmed rest and a non-empty chunk if and only if the limit is positive; with limit 0 nothing changes |
| SlackSplit.SplitIsPostable | src/sloperator/agents.py:868-883 | every chunk is non-empty, trimmed and within the limit |
| SlackSplit.SplitRebuilds | src/sloperator/agents.py:871-883 | what is split is the chunks in order with only whitespace between them |
| SlackSplit.SplitSlackMessage | src/sloperator/agents.py:868-883 | the loop terminates for every positive limit and delivers postable chunks; the text is the chunks in order with only whitespace between and around them, and a blank text is answered with the notice |
| Steering.ActiveAgentRun.constructor | src/sloperator/agents.py:793-800 | a new control has no process and an empty buffer |
| Steering.ActiveAgentRun.Steer | src/sloperator/agents.py:802-812 | accepted exactly by a steerable control; then the guidance is appended and what runs is named for termination, otherwise nothing changes |
| Steering.ActiveAgentRun.TakeClaudeSteering | src/sloperator/agents.py:814-817 | the whole buffer is returned and emptied |
| Steering.ActiveAgentRun.HasClaudeSteering | src/sloperator/agents.py:819-821 | yes exactly when the buffer is not empty |
| Steering.StepFlow | src/sloperator/agents.py:1015-1032 | every step of the turn, from either side, keeps guidance conserved and interrupts backed by a buffer |
| Steering.RunFlow | src/sloperator/agents.py:2747-2788 | so does every interleaving of `steer` calls with the launch loop |
| Steering.EveryRun | src/sloperator/agents.py:2747-2788 | in every run the guidance of the resume prompts followed by the buffer is the accepted guidance in order; every accepted call stands in it once; no resume prompt is empty; an interrupt finds a non-empty buffer |
| Steering.RunCalls | src/sloperator/agents.py:802-812 | in every run the calls answered yes are exactly those whose guidance was accepted, and the lock has one holder |
| Steering.AcquireInterrupts | src/sloperator/agents.py:802-812 | the call that gets the lock terminates a running launch and holds the lock until it has gone; without one it is answered yes at once; an unsteerable control answers no |
| Steering.NeverSteerable | src/sloperator/agents.py:805-806 | without steering every call of every run is refused and nothing is buffered or handed on |
| Steering.TurnEndsIff | src/sloperator/agents.py:2747-2952 | a step ends the turn well or badly exactly in the listed ways, and the control is out of reach exactly then |
| Steering.LaunchGoesOn | src/sloperator/agents.py:1015-1032 | a launch that does not end the turn interrupts the loop exactly if guidance arrived, is tried again after a service error, and leads to the partial report after a timeout |
| Steering.LoopResumes | src/sloperator/agents.py:2769-2788 | the loop resumes with exactly the buffered guidance, and without any goes on to the recovery that is needed |
| Steering.RecoveryGoesOn | src/sloperator/agents.py:2790-2826 | a recovery that asks for another one is launched again |
| Steering.BreakDelivers | src/sloperator/agents.py:2779-2781 | the loop breaks only with all accepted guidance delivered; that is final exactly when no recovery follows and no call waits |
| Steering.NoMorePrompts | src/sloperator/agents.py:2789-2800 | past the loop, by its end, by a timeout or by failure, no later launch carries guidance |
| Steering.SettledStays | src/sloperator/agents.py:802-812 | once the control cannot be reached the buffer no longer changes |
| Steering.DeliveredIff | src/sloperator/agents.py:2747-2800 | past the loop nothing can be lost if and only if the buffer is empty and the control can no longer be reached |
| Steering.RecoveryFailsOnGuidance | src/sloperator/agents.py:1031-1032 | guidance during a recovery launch makes the turn fail |
| Steering.GuidanceCanBeLost | src/sloperator/agents.py:2747-2800 | a run from the start in which an accepted call never reaches the provider and the turn fails |
| Steering.TimeoutCanLoseGuidance | src/sloperator/agents.py:2902-2952 | a run from the start in which an automated turn times out, accepts a call during its partial report, and ends normally without having used it |
| ThreadLocks.AgentOrchestrator.constructor | src/sloperator/agents.py:2585-2586 | no entries, no tasks |
| ThreadLocks.AgentOrchestrator.Create | src/sloperator/agents.py:1745-1770 | a submission adds one task of its thread |
| ThreadLocks.AgentOrchestrator.SetDefault | src/sloperator/agents.py:2586-2586 | the task gets the thread's entry, or a new lock that becomes the entry |
| ThreadLocks.AgentOrchestrator.CleanUp | src/sloperator/agents.py:3187-3188 | the thread's present entry goes exactly when the task's own lock is free |
| ThreadLocks.StepSane | src/sloperator/agents.py:2585-2596 | every step keeps locks unshared between threads and with at most one holder |
| ThreadLocks.CoherentStepIff | src/sloperator/agents.py:3187-3188 | a step breaks the agreement between tasks and dictionary if and only if it removes an entry under a task that still relies on it |
| ThreadLocks.CoherentIsExclusive | src/sloperator/agents.py:2585-2596 | while tasks and dictionary agree, at most one task of a thread is inside its turn |
| ThreadLocks.AloneIsClean | src/sloperator/agents.py:3187-3188 | removing an entry only when every other task of the thread is gone is clean |
| ThreadLocks.CleanRunsExclude | src/sloperator/agents.py:2585-2596 | every run with clean removals keeps one lock per thread and one task inside |
| ThreadLocks.ServiceExcludes | src/sloperator/agents.py:2585-2596 | the same for every run of the service from its start |
| ThreadLocks.IncoherentBreaks | src/sloperator/agents.py:2585-2596 | from any disagreement some continuation lets two tasks of a thread run at once |
| ThreadLocks.ExclusionIff | src/sloperator/agents.py:2585-2596 | exclusion is safe under clean removals if and only if tasks and dictionary agree |
| ThreadLocks.ServiceCanBreakExclusion | src/sloperator/agents.py:3187-3188 | a run from the start, with the cleanup as it is, that has two tasks of one thread inside |
| Retries.AttemptAccounted | src/sloperator/agents.py:440-462 | the end of an attempt leaves a call where the number of failures since the last quota rejection says |
| Retries.PlayAccounted | src/sloperator/agents.py:172-184 | a call stops early only when settled; at most one attempt more than there are delays between two rejections; a service failure is raised only from the last |
| Retries.RetryServiceErrors | src/sloperator/agents.py:434-462 | every attempt but the last ended in a retryable failure, the last one did not or was the final one, and it slept the delays in order |
| Retries.RetryClaudeQuota | src/sloperator/agents.py:172-184 | the two nested loops come out where the flat account of their attempts does |
| Capacity.StepConserves | src/sloperator/agents.py:1590-1604 | every step keeps permits plus running attempts at the capacity, on success, failure and cancellation |
| Capacity.EveryRunConserves | src/sloperator/agents.py:1590-1604 | so does every interleaving of any number of calls |
| Capacity.EveryCallFollows | src/sloperator/agents.py:1590-1604 | in every interleaving each call that was not cancelled stands where its own nested loops stand after the same attempts |
| Capacity.ServiceCapacity | src/sloperator/agents.py:1596-1604 | at most the capacity runs through the semaphore, and all permits are back when nothing runs |
| Capacity.StepTotal | src/sloperator/agents.py:1596-1604 | a step changes the number of provider calls under way exactly by beginning or ending one |
| Capacity.LeavesCapacityIff | src/sloperator/agents.py:1596-1604 | a step takes all provider calls together over the capacity if and only if it begins one more, through the semaphore or around it, while they already fill it |
| Capacity.BypassBound | src/sloperator/agents.py:1959-1967 | with at most k calls around the semaphore at a time, never more than the capacity plus k provider calls are under way at any point of a run |
| Capacity.ServiceExceedsCapacity | src/sloperator/agents.py:2931-2939 | a run from the start reaches that bound |
| Capacity.CapacityExceededIff | src/sloperator/agents.py:2931-2939 | some run exceeds the capacity if and only if at least one call may go around the semaphore |
| Capacity.ServiceAttempts | src/sloperator/agents.py:434-462 | by exception class: at most six attempts between two quota rejections; only a rejected gate, a failed execution and a quota rejection are followed by another attempt, the first two up to the sixth in a row and after the delay of their turn; everything else ends the call with that outcome |
| Transcript.ReadIsRecords | src/sloperator/claude_budget.py:48-57 | a pass from a line start reads exactly the finished records of the part it moves over |
| Transcript.RecordsSplit | src/sloperator/claude_budget.py:48-57 | reading on from a line start sees exactly the records not yet read |
| Transcript.ReadStopsAtBroken | src/sloperator/claude_budget.py:54-75 | a pass ends early exactly at a record that raises |
| ClaudeBudget.PeakIsMaximum | src/sloperator/claude_budget.py:64-75 | the reference fold is the maximum of each counter over a message's records |
| ClaudeBudget.TranscriptBudget.constructor | src/sloperator/claude_budget.py:22-35 | no offsets, no usage |
| ClaudeBudget.TranscriptBudget.Note | src/sloperator/claude_budget.py:64-75 | a record raises its message's entry to the maximum and touches no other |
| ClaudeBudget.TranscriptBudget.ReadTranscript | src/sloperator/claude_budget.py:43-75 | one file from its stored offset, or from 0 when it became shorter; the offset moves line by line |
| ClaudeBudget.TranscriptBudget.Check | src/sloperator/claude_budget.py:37-82 | all files in order, then the limits: it passes exactly below both and otherwise names the two totals; a record that raises ends the check with what was noted so far |
| BudgetExactness.ChecksNeverLess | src/sloperator/claude_budget.py:44-47 | no schedule of checks on appended, cut or rewritten files lowers any entry |
| BudgetExactness.LimitIsFinal | src/sloperator/claude_budget.py:76-82 | once a limit is reached no later check passes |
| BudgetExactness.ChecksExact | src/sloperator/claude_budget.py:37-75 | after any checks on growing files the map is the fold over what the offsets cover |
| BudgetExactness.IncrementalIsExact | src/sloperator/claude_budget.py:37-75 | after any schedule of checks on growing transcripts, half-written lines and new files included, the map equals the from-scratch fold over all complete lines and offsets end the last complete line |
| BudgetRun.Run | src/sloperator/claude_budget.py:84-95 | from the ticks and the verdicts alone: the operation's result or its exception exactly after it was found done and every check passed, a verdict exactly after a check that did not pass, a cancellation exactly at the tick that brings it; no check is made past any of these, and nothing is left running behind a run that ended |
| AgentUsage.TranscriptUsage | src/sloperator/agent_usage.py:117-165 | the nested loops compute the totals of the merged dictionary of all files, and raise exactly if some record's fields cannot be read |
| AgentUsage.MergedEntry | src/sloperator/agent_usage.py:121-157 | the dictionary has an entry for exactly the messages that occur, with the maximum of each counter |
| UsageAgreement.SameLinesIff | src/sloperator/agent_usage.py:126-126 | on finished transcripts both accountings see the same lines if and only if newlines are the only line separators, carriage returns included |
| UsageTotals.LineEndings | src/sloperator/agent_usage.py:126-126 | the rescan takes a newline, a carriage return and the two together each for one line end |
| UsageAgreement.HighestInFile | src/sloperator/agent_usage.py:121-157 | a message's maxima come from its own file alone, whatever the others hold |
| UsageAgreement.PeakAtMostHighest | src/sloperator/claude_budget.py:64-75 | per message, the budget's maximum of sums is at most the rescan's sum of maxima, with equal outputs |
| UsageAgreement.OrderedPeak | src/sloperator/claude_budget.py:64-75 | equal when the records of the message are ordered in every counter |
| UsageTotals.AccountingsAgree | src/sloperator/agent_usage.py:158-165 | where both read the same lines and decode them alike, the output totals are equal; the budget's input total is at most the rescan's and equal for ordered records |
| UsageTotals.TailerAgreesWithRescan | src/sloperator/claude_budget.py:37-82 | the same for the tailer after any schedule of checks on growing transcripts; that no check raised follows |
| UsageTotals.ReturnDividesAccounts | src/sloperator/agent_usage.py:126-126 | any record with a carriage return between two halves that are no records: the budget counts it, the rescan does not |
| UsageTotals.BrokenRecordDividesAccounts | src/sloperator/agent_usage.py:333-334 | any line on which only the budget raises: the rescan counts the record, the budget does not |
| UsageTotals.MainUsage | src/sloperator/agent_usage.py:273-301 | the separate loop over the main transcript computes what the rescan of that one file does, raising included |
| UsageTotals.ChildrenUsageIsExact | src/sloperator/agent_usage.py:266-270 | session total minus main transcript is exactly the sum over the child transcripts; clamping never takes effect |
| UsageDeltas.UsageGrows | src/sloperator/agent_usage.py:117-165 | a grown session reports at least as much in every counter |
| UsageDeltas.WholeLinesSettle | src/sloperator/agent_usage.py:126-133 | only a last line that goes on after the snapshot is in question; a complete last record without its newline is not |
| UsageDeltas.DeltasTelescope | src/sloperator/agent_usage.py:43-53 | the clamped deltas of all invocations add up to the whole session |
| UsageDeltas.ToolUsesOf | src/sloperator/agent_usage.py:188-223 | the loops collect the tool calls of all transcripts by id, the latest name winning |
| UsageDeltas.UsesAre | src/sloperator/agent_usage.py:188-223 | an id is known exactly if a block has it, with the name and skill of the last such block |
| UsageDeltas.DeltaMeaning | src/sloperator/agent_usage.py:231-242 | a delta counts exactly the calls that were not there before, under their tools and their non-empty skills, the new child transcripts, and the growth of the four token counters |
| UsageDeltas.CountsAddUp | src/sloperator/agent_usage.py:231-242 | the per-tool counts of a delta sum to its number of calls |
| UsageDeltas.SessionTelescopes | src/sloperator/agent_usage.py:231-242 | for any number of snapshots of a growing session the calls, children and child tokens of the invocations add up to the whole session's |
| UsageDeltas.CountsTelescopeIff | src/sloperator/agent_usage.py:231-242 | the counts of one tool add up if and only if as many known calls were renamed to it as away from it |
| UsageDeltas.NamesStayIff | src/sloperator/agent_usage.py:223-234 | some tool gains a known call if and only if some known call changes its name; without renaming the counts of all tools add up |
| UsageDeltas.RenamingBreaksCounts | src/sloperator/agent_usage.py:223-234 | a growing transcript whose second record renames the call of the first: the counts of the invocations do not add up |
| UsageDeltas.SwapKeepsCounts | src/sloperator/agent_usage.py:223-234 | two calls that swap names, and they do |
| UsageDeltas.ActivityGrows | src/sloperator/agent_usage.py:188-228 | snapshots of a growing session have growing activities |
| Ordering.SortSorted | src/sloperator/experiment_design_selector.py:424-424 | the stable sort orders its input |
| Ordering.AscendingUnique | src/sloperator/experiment_design_selector.py:424-424 | without ties there is one order, whatever the input order was |
| Ordering.StringBeforeIff | src/sloperator/experiment_design_selector.py:420-425 | one string comes before another exactly if it ends, or has the smaller character, where they first differ |
| Pairing.Nearest | src/sloperator/experiment_design_selector.py:425-446 | the choice is the open pitch strictly nearer than every other open one, and none on a tie or without options |
| Pairing.PairChildren | src/sloperator/experiment_design_selector.py:418-449 | the loops compute the greedy pairing family by family |
| Pairing.OrderIndependent | src/sloperator/experiment_design_selector.py:418-449 | with distinct keys the pairing is the same for every order of the children |
| PairingProperties.PairsMatch | src/sloperator/experiment_design_selector.py:418-449 | a one-to-one matching of calculation and prerequisite siblings within an hour |
| PairingProperties.PairingExplained | src/sloperator/experiment_design_selector.py:424-448 | from the outcome alone: each calculation has the unique nearest pitch its older siblings left, and none exactly if there is no such pitch |
| PairingProperties.PairingMeaning | src/sloperator/experiment_design_selector.py:418-449 | the same without the fold's terms: a calculation is paired with exactly the prerequisite sibling created within an hour of it, not given to an older sibling, that is nearer in time than every other such one |
| PairingProperties.StatusBlind | src/sloperator/experiment_design_selector.py:418-449 | a status change leaves the same issues paired |
| CalendarMonth.PreviousCalendarMonth | src/sloperator/experiment_design_selector.py:385-393 | the search equals the same day clamped to the previous month's length, and fails only for the first month of the calendar |
| CalendarMonth.MonthLengths | src/sloperator/experiment_design_selector.py:390-393 | the lengths of the months, leap years included |
| Board.ColumnStatuses | src/sloperator/experiment_design_selector.py:363-382 | for any names, the statuses are those of the last column of each name |
| Board.LatestIs | src/sloperator/experiment_design_selector.py:396-415 | the latest of all moves to an eligible status, none exactly if there is no such move |
| Board.LatestTransition | src/sloperator/experiment_design_selector.py:396-415 | the loops compute it for entries in any order |
| Selector.Gate | src/sloperator/experiment_design_selector.py:492-515 | a pair becomes a candidate exactly when it passes every gate |
| Selector.NumberOfKey | src/sloperator/experiment_design_selector.py:519-523 | for a key made of a project and a number, that number is what orders it |
| Selector.Min | src/sloperator/experiment_design_selector.py:518-529 | the first of the least by creation time and trailing number |
| Selector.SelectCandidate | src/sloperator/experiment_design_selector.py:452-529 | the whole selection, missing filter and columns included |
| Claim.SelectionMeaning | src/sloperator/experiment_design_selector.py:486-529 | the result passes every gate and no passing task was created before it, or at the same time with a smaller number; none exactly if none passes |
| Claim.QualifiesIff | src/sloperator/experiment_design_selector.py:470-515 | the gates spelled out: the epic's type, component and column, the task's column or claim, the pitch's column and its last move to a reviewed status within the window |
| Claim.SelectionOrderIndependent | src/sloperator/experiment_design_selector.py:486-529 | the selection does not depend on the order of Jira's list |
| Claim.ClaimConfirmIff | src/sloperator/experiment_design_planner.py:496-500 | the confirmation returns the same task, epic and pitch if and only if the review is still in the window, the new status is a claimed one and, for a task that is its own pitch, a reviewed one; otherwise it returns nothing |
| Claim.SelfPairNeedsSharedStatus | src/sloperator/experiment_design_selector.py:500-504 | a selection returns a task as its own pitch only if some status is both a queued and a reviewed one |
| Claim.SelfPairIsNotConfirmed | src/sloperator/experiment_design_planner.py:496-500 | on such a board the task is selected as its own pitch and its claim is not confirmed |
| Planner.SelectWithProjectPage | src/sloperator/experiment_design_planner.py:509-550 | the loop terminates and comes to the same as one pass over the candidates from the oldest on |
| Planner.SelectedIsHead | src/sloperator/experiment_design_planner.py:522-524 | a selection without the skipped epics is the first candidate left of the sorted list |
| Planner.ScanOutcome | src/sloperator/experiment_design_planner.py:522-550 | the pass ends with the first candidate whose epic is not broken |
| Planner.ScanReports | src/sloperator/experiment_design_planner.py:536-550 | exactly the failing epics met are reported, each once |
| Planner.PlannerMeaning | src/sloperator/experiment_design_planner.py:509-550 | nothing is found exactly if every passing pair belongs to a broken epic; otherwise the task is returned, or fails to resolve, before which only tasks of broken epics were created |
| Crontab.ReaderMeaning | src/sloperator/admin.py:693-721 | a job is reported exactly if some line, or what stands behind its disabled marker, is its five time fields and its command, no comment and no assignment, while the last block marker before that line starts the job's block |
| Crontab.PayloadIff | src/sloperator/admin.py:711-721 | a text is a job exactly if it is five words and a command with whitespace between them, in that order, not commented out and no assignment |
| Crontab.CronJobs | src/sloperator/admin.py:693-721 | the reader's loop, block state included |
| Crontab.SetCronEnabled | src/sloperator/admin.py:897-921 | the array is edited in place to the toggled text; found and changed say what they claim |
| CrontabToggle.DisableReadsIff | src/sloperator/admin.py:897-921 | for every text, disabling changes only the target's flag in what the reader reports if and only if the editor meets no enabled job of another block |
| CrontabToggle.DisableReads | src/sloperator/admin.py:693-721 | after disabling a crontab with closed blocks, the reader reports the same jobs with only the target's flag changed |
| CrontabToggle.UnclosedBlockSpills | src/sloperator/admin.py:904-909 | the job of a block that starts before the target is closed is disabled with it |
| CrontabToggle.DisableIdempotent | src/sloperator/admin.py:897-921 | disabling twice is disabling once |
| CrontabEnable.EnabledLineIff | src/sloperator/admin.py:910-912 | for one line of the block, enabling keeps the block and changes only the job's flag if and only if no job appears or disappears and the payload moves no block boundary |
| CrontabEnable.EnableReadsIff | src/sloperator/admin.py:897-921 | for every crontab with closed blocks, after enabling the reader reports the same jobs with only the target's flag changed if and only if no line of the block makes a job appear or disappear and, once a payload has moved the block, no line holds a job before or gets one after |
| CrontabEnable.HarmlessIsSteady | src/sloperator/admin.py:910-912 | in particular when no payload is a block marker that moves the block and no line makes a job appear or disappear |
| CrontabEnable.UnclosedCancels | src/sloperator/admin.py:904-912 | in a block that starts before the target is closed, enabling can change two lines and leave the reported jobs as they were |
| CrontabEnable.CommentDisappears | src/sloperator/admin.py:706-712 | a comment behind blanks and the marker is a job to the reader before enabling and none after |
| CrontabEnable.CloseMarkerEndsBlock | src/sloperator/admin.py:703-705 | a payload that is a block marker ends the block once enabled, and the jobs behind it are lost |
| CrontabToggle.DoublyDisabledAppears | src/sloperator/admin.py:910-912 | a doubly disabled schedule is no job before enabling and one after |
| CrontabToggle.DisableEnableRestores | src/sloperator/admin.py:897-921 | disabling then enabling restores the text if and only if the block had no disabled line |
| CrontabToggle.OutsideUnchanged | src/sloperator/admin.py:897-921 | lines outside the block never change |
| SchedulerHistory.History | src/sloperator/admin.py:1287-1347 | the stack-like loop gives every run the fate that the entries after its start determine |
| SchedulerHistory.UnfinishedRow | src/sloperator/admin.py:1333-1345 | a start the durable table has no end for is shown as completed exactly if the entry that ends it is a success, failed exactly if it is a failure, interrupted exactly if another such start comes before any, and started exactly if neither comes |
| SchedulerHistory.StartRow | src/sloperator/admin.py:1325-1345 | the same for every start, one the durable table knows keeping its durable status unless an entry ends it |
| SchedulerHistory.TerminalRow | src/sloperator/admin.py:1341-1347 | a terminal entry that ends a start has no row of its own, any other one has a row with its own status |
| SchedulerHistory.PlannedRow | src/sloperator/admin.py:1346-1347 | a planned run is shown as scheduled |
| SchedulerHistory.MarkInterrupted | src/sloperator/admin.py:1333-1338 | exactly the pending rows still shown as started become interrupted |
| SchedulerHistory.RowCount | src/sloperator/admin.py:1287-1347 | one row per start, per planned event and per terminal event that found nothing pending: a matched terminal event is no second run |
| SchedulerHistory.OneOpenRun | src/sloperator/admin.py:1287-1347 | at most one row is shown as still going |
| SchedulerHistory.SupersedeOpen | src/sloperator/admin.py:1333-1340 | a superseding start keeps every row shown as started among the pending starts: it is the only one |
| SchedulerHistory.PopOpen | src/sloperator/admin.py:1341-1345 | so does a terminal event, whichever pending start it closes |
| SchedulerHistory.OpenFate | src/sloperator/admin.py:1333-1341 | a run still shown as going has no later start that supersedes it |
| SchedulerHistory.Supplement | src/sloperator/admin.py:1348-1366 | durable runs missing from the journal are added once each, and none that it shows |
| SchedulerHistory.JobHistory | src/sloperator/admin.py:1260-1367 | the journal's rows come first; behind them exactly first-stage durable runs that it shows at most as planned, each second once, running ones as started; and every first-stage run's second has a row |
| SchedulerHistory.DurableIs | src/sloperator/admin.py:1290-1294 | the durable status of a second is that of the last run then, of any stage of the job |
| Reports.MarkerIsFirst | src/sloperator/alert_dashboard.py:86-88 | a header starts the first required report whose marker occurs in it, and a message with none of the markers is no header |
| Reports.ChunkOfCurrent | src/sloperator/alert_dashboard.py:131-137 | a message is a chunk, by the declarative meaning, of exactly the report that listens, if it comes in time |
| Reports.CollectReports | src/sloperator/alert_dashboard.py:114-141 | each marker with its latest header and exactly the messages before the next header and at most a minute after it |
| Reports.TextGrows | src/sloperator/alert_dashboard.py:122-141 | a report's text is its header's, and each message up to the next header of any report and within a minute is appended behind a line feed, nothing else |
| Reports.OrderIndependent | src/sloperator/alert_dashboard.py:114-141 | with distinct timestamps the same for every input order |
| Reports.CompleteRun | src/sloperator/alert_dashboard.py:144-152 | succeeds exactly when all three reports are there and any two lie within an hour |
| Dashboard.AlertDashboardResponder.constructor | src/sloperator/alert_dashboard.py:171-177 | nothing in flight, whatever the state file and the channel hold |
| Dashboard.AlertDashboardResponder.Handle | src/sloperator/alert_dashboard.py:200-204 | a message already in flight is ignored |
| Dashboard.AlertDashboardResponder.Collected | src/sloperator/alert_dashboard.py:206-217 | the handler goes on exactly if the messages it read describe a complete run that its own message ends |
| Dashboard.RunEndIs | src/sloperator/alert_dashboard.py:206-212 | that is: all three described reports within an hour, and the latest of them |
| Dashboard.AlertDashboardResponder.AlreadyBuilt | src/sloperator/alert_dashboard.py:218-220 | a run the state file names is not rebuilt |
| Dashboard.AlertDashboardResponder.RecordBuilt | src/sloperator/alert_dashboard.py:377-398 | the state file names the run |
| Dashboard.AlertDashboardResponder.Discard | src/sloperator/alert_dashboard.py:230-231 | the message is no longer in flight |
| Dashboard.RunSound | src/sloperator/alert_dashboard.py:200-231 | every interleaving, with the channel written to meanwhile, keeps one handler per message, tracks exactly the messages in flight and never rebuilds the run the state file names |
| Dashboard.ServiceNeverAgain | src/sloperator/alert_dashboard.py:200-231 | the same for every run of the responder |
| Dashboard.OnlyCompleteRuns | src/sloperator/alert_dashboard.py:206-217 | whatever is rebuilt is the latest of the three reports of one run, in the messages collected by the handler of that very message |
| Dashboard.CollectedIsNewest | src/sloperator/alert_dashboard.py:206-217 | a complete run found in the channel's history ends with its newest header, however much of the history is cut off |
| Dashboard.RebuildIff | src/sloperator/alert_dashboard.py:218-220 | in every reachable state the check of a run built before lets it be built again if and only if another run was recorded since; while the run is the channel's newest, if and only if an older one was |
| Dashboard.SlowRebuildForgets | src/sloperator/alert_dashboard.py:370-398 | for any report times within the run window, a run of the responder in which a slow rebuild of an older run makes the newer one be built twice |
| Dashboard.NewerRunForgets | src/sloperator/alert_dashboard.py:206-220 | for any such times, a newer run recorded between the collection and the check of a repeated delivery does it as well |
| RpcClient.CodexAppServer.constructor | src/sloperator/codex_app_server.py:51-54 | no request yet |
| RpcClient.CodexAppServer.Register | src/sloperator/codex_app_server.py:295-301 | a request registers under the next id |
| RpcClient.CodexAppServer.Dispatch | src/sloperator/codex_app_server.py:333-345 | a message goes to the future registered under its id, else to the notifications if it names a method |
| RpcClient.CodexAppServer.FailOutstanding | src/sloperator/codex_app_server.py:346-351 | the loop fails every registered future that is still open |
| RpcClient.CodexAppServer.Conclude | src/sloperator/codex_app_server.py:303-314 | the entry goes, whether the future is done or the wait is given up |
| RpcClient.RunCorrelates | src/sloperator/codex_app_server.py:288-351 | every interleaving keeps ids, entries and replies matched |
| RpcClient.ServiceIndexed | src/sloperator/codex_app_server.py:295-306 | ids strictly increase, an entry belongs to one call, and entries left are exactly those of calls under way and of failed writes |
| RpcClient.LeakStays | src/sloperator/codex_app_server.py:301-306 | the entry of a request whose write failed stays in the table in every continuation |
| RpcClient.WriteErrorLeaks | src/sloperator/codex_app_server.py:301-306 | such a run from the start |
| RpcClient.ServiceCorrelates | src/sloperator/codex_app_server.py:303-314 | a call returns or fails with the first message of its own id read since it registered; one told that the output closed had none |
| RpcClient.ReceiveRoutes | src/sloperator/codex_app_server.py:333-345 | a message resolves exactly the open future of the call that waits under its id; one addressed to no call is kept exactly if it names a method |
| RpcClient.CallConcludes | src/sloperator/codex_app_server.py:303-314 | a call comes back with what its future holds or gives up, and its entry is gone |
| RpcClient.RequestAnswered | src/sloperator/codex_app_server.py:288-314 | from every state with an open output a request that is written and answered comes back with the answer, and leaves the table as it was |
| RpcClient.ResolvedOnce | src/sloperator/codex_app_server.py:341-351 | a future is resolved at most once in every run |
| RpcClient.LateReplyIgnored | src/sloperator/codex_app_server.py:304-306 | a late reply reaches nobody |
| RpcClient.CloseResolvesAll | src/sloperator/codex_app_server.py:346-351 | closing the output resolves every registered future |
| RpcClient.AfterClose | src/sloperator/codex_app_server.py:295-306 | a request made after that is never resolved by the reader |
| SingleFlight.ExperimentConfigResponder.constructor | src/sloperator/experiment_config_check.py:312-316 | nothing running, nothing recorded |
| SingleFlight.ExperimentConfigResponder.ReviewAndPublish | src/sloperator/experiment_config_check.py:352-372 | a recent success is reused, a running review joined, else one is launched |
| SingleFlight.ExperimentConfigResponder.FinishInFlight | src/sloperator/experiment_config_check.py:374-378 | the callback removes its own entry and records a success |
| SingleFlight.RunKeeps | src/sloperator/experiment_config_check.py:352-378 | every interleaving keeps registration, records and launch spacing |
| SingleFlight.ServiceSingle | src/sloperator/experiment_config_check.py:352-378 | at most one review per experiment is under way, it is the registered one, and of two launches the first failed, was cancelled or was recorded a day before |
| SingleFlight.ServiceAnswers | src/sloperator/experiment_config_check.py:352-372 | every submission of every run is answered, for good, by a success of its experiment recorded less than a day before if there is one, else by the review registered and not over at that moment: the one under way, or a new one |
| SingleFlight.ReusedForADay | src/sloperator/experiment_config_check.py:352-378 | after a review has succeeded, its experiment is answered from the record for exactly a day and then by a new review |
| SingleFlight.OutcomeIsFinal | src/sloperator/experiment_config_check.py:371-378 | all joiners of a review see one outcome |

## Left out

- CrontabEnable.EnableReadsIff: stated for crontabs in which every managed block is closed before the next one starts. In others the editor also enables lines of the next block, where a job that appears can make up for an equal one that disappears (CrontabEnable.UnclosedCancels), so that no condition on single lines is exact.
- SlackSplit.SplitSlackMessage: requires a positive limit, because the loop does not end for limit 0; the callers use 3000.
- Crontab.CronJobs: the command is the text behind the fifth field; unwrapping the analyst wrapper around it is not modelled.
- SchedulerHistory.JobHistory: the final sort by time and the wording of the command column are not modelled.
- BudgetExactness.IncrementalIsExact: a check that meets a record whose fields cannot be read raises midway; exactness is stated for a last check that does not.
- UsageDeltas.UsageGrows: a last line that goes on after the snapshot must decode to nothing, as half a JSON record does.
- UsageTotals.AccountingsAgree: stated for transcripts that both read alike, line by line; where they do not, the two dividing lemmas show what happens.
- Dashboard.CollectedIsNewest: message times identify messages and increase; edited or deleted messages are not modelled.
- UsageDeltas.UsageGrows: speaks of what the lines of the transcripts add up to; a rescan that meets a record whose fields cannot be read raises and reports nothing (AgentUsage.TranscriptUsage).
- Capacity.ServiceCapacity: the order in which the semaphore serves waiters is not modelled; any waiting call may go next.
- ThreadLocks.AgentOrchestrator.Create: deduplication and steering in `submit` are not part of this class; `_tasks` and `_thread_tasks` have no influence on the locks.
- Retries.RetryClaudeQuota: the attempts are a finite script of outcomes; the quota poll between rounds is a wait of any length.
- Claim.ClaimConfirmIff: Jira is one snapshot in which only the selected task's status changed between selection and confirmation.
- JSON decoding, regular expressions, Unicode normalisation and case folding: lines are classified by a parser parameter, summaries and column names are given normalised.
- File offsets are positions in a text, not bytes; non-string message ids and top-level JSON values that are no objects are `Broken` or `Ignored` records.
- Time zones, daylight saving, floating-point seconds and wall clocks: times are integers, and the lower end of the selection window is a parameter.
- Slack, Jira, Confluence, the journal, the crontab process, sub-processes and the event store: their answers are inputs or steps of the environment.
- Codex steering in `ActiveAgentRun`, the completion gate, quota admission and the App Server's turn handling.
- Pagination and chunking of Jira requests: the children of the open epics are one list.
- The publishing path behind a review, the recovery prompts and all message wording.
- `EventStore`, VPN and the health checks: not part of this model.
- SQL screening and abuse gates are security filters and not modelled.
