# Verified core of the marketing agentic system

This project models the parts of the system whose correctness is hard to see from the code, and
proves what they promise, for every input and every run:

- **The touchpoint calendar.** How many touches a channel gets, how half-even rounding spreads them,
  which hard caps the generated calendar can break (exactly), the sliding-window cap check, the
  soft-warning detector that looks at a truncated slice of neighbours, and the stored calendar that
  stays legal over every proposal, override, accept and drag.
- **The dispatch protocol.** Scheduling, email and social dispatch, pause and resume over the
  `dispatch_attempt` table, as a state machine with its invariants over unbounded runs, and as a
  mutable agent whose every method is one step of that machine.
- **Conversation memory.** The bounded tool loop, the trimmer, and the inductive invariant that holds
  of stored conversations although the trimmer alone does not establish it.
- **A/B assignment.** The cumulative-weight pick, the race-safe assignment protocol under arbitrary
  interleavings and split edits, and the audience filter of sibling dispatches.
- **Plan, budget and approval arithmetic.** The plan validator and its retry loop, override drift over
  many versions, the cosine gate, the budget shift and its rounding to cents, and batch approval with
  its dry run.

Files: `Sequences`, `Rounding`, `Instants` (shared facts); `Touchpoints`, `Spacing`, `HardCaps`, `Calendar`,
`CalendarCounts`, `Feasibility`, `ProposalFeasibility`, `FrequencyWarnings`, `WarningOrder`, `TieOrder`,
`TouchpointTable`, `ChannelOverrides`, `StrategyStore`, `CountingLaws` (calendar); `Dispatch`,
`DispatchSafety`, `Distributor`, `SentCounts`, `DispatchLaws` (dispatch); `Conversation`; `Assignment`,
`AssignmentProtocol`; `Planner`, `PlannerLaws`; `Cosine`; `BudgetShift`; `BatchApproval`, `ApprovalLaws`.
`dafny verify dfyconfig.toml` checks all of them.

The `…Laws` and `…Counts` files state what the steps and functions of the model mean on the raw data (rows,
statuses, amounts, positions), without naming the functions that compute it.

## Where the code does not do what is said of it

- `generate_calendar` documents that its final check passes whenever the cap is satisfiable. With distinct
  platforms and one well-formed cap for each it never raises for allocations of at most 100%, nor for any
  allocation under an honoured cap (`Feasibility.PlanMeetsCaps`). For larger allocations
  `Feasibility.UnhonouredCapIsBreached` gives, for each cap that is not honoured, dates and an allocation
  for which it raises, and `Feasibility.NeverRaisesIffHonoured` with `Feasibility.HonouredCaps` says exactly
  which caps never raise (at most 1 a day, 7 a week, 30 a month, and oddly 32, 36, 40 and 60 a month). Two
  channels on one platform raise at 50% each (`Feasibility.RepeatedPlatformBreaks`), and of two caps on one
  platform only the last is consulted (`Feasibility.SecondCapBreaks`). For any list of platforms, repeated or
  not, `ProposalFeasibility.NeverRaisesIffSafe` is the exact condition.
- Recomputing warnings need not reproduce the stored ones: the count of a touch can depend on the order in
  which the database returns ties (`WarningOrder.TieOrderMatters`). It does not, exactly when the touch is
  tied with no other, or neither side of its slice of 2·cap neighbours is ever truncated, or both always are
  (`TieOrder.SameInEveryOrderIff`, `TouchpointTable.RecomputationIsStableIff`). Flags never change.
- `_trim` documents two invariants of its result. It does not establish them by itself
  (`Conversation.TrimAloneIsNotEnough`), nor on whole turns whose tool ids recur
  (`Conversation.ReuseBreaksTrimming`); `Conversation.TrimmedIsWholeIff` is the exact condition.
- A reply with two tool calls is saved and sent back whole with a result for the first alone
  (`Conversation.SecondCallIsNotAnswered`); `Conversation.WholeAnsweredIff` and
  `Conversation.RequestAnsweredIff` give the exact condition.
- The batch dry run tells what the real run will do exactly when no id that passes the gates is asked
  for twice (`BatchApproval.DryRunIsExactIff`, `BatchApproval.RepeatedIdMisleads`).
- Two audience members that share an address are handed to the provider twice and counted twice in the
  summary although the table keeps one row for both (`SentCounts.SharedAddressCountsTwice`); the count
  equals the number of new rows exactly when no accepted address is shared (`SentCounts.SentCountIff`).
- The two rounded amounts of a budget shift lose or gain a cent exactly at a half-cent tie with an odd
  total (`BudgetShift.ShiftConservesIff`, `BudgetShift.ShiftCanGainACent`); `BudgetShift.EmittedShiftConservesIff` reads the condition off the inputs.
- The `skipped` attempt status is written by the dispatcher and allowed by the table, although the ORM
  declaration of the table omits it; the model has it.
- In a budget shift the 50% ceiling and the lower clamp of the uplift are never reached, and the last
  variant as a fallback in the A/B pick is never reached.

## Model

| member | source | states |
|---|---|---|
| Rounding.RoundIsNearest | app/agents/_calendar.py:272 | `round` gives a nearest integer, the even one when two are equally near |
| Rounding.NearestIsUnique | app/agents/_calendar.py:272 | being nearest with ties to even determines the result |
| Spacing.OffsetEnds | app/agents/_calendar.py:265-272 | with two or more touches the first is on day 0 and the last on the last day |
| Spacing.OffsetGap | app/agents/_calendar.py:265-272 | every gap is the floor or the ceiling of (d-1)/(n-1), and exactly it when it is whole |
| Spacing.OffsetMonotone | app/agents/_calendar.py:265-272 | later touches are never on earlier days |
| Spacing.SpacedWhenRoomy | app/agents/_calendar.py:265-272 | enough room per touch forces any limit+1 consecutive touches to span the window |
| Spacing.SpacedWhenHonoured | app/agents/_calendar.py:240-272 | under the count bound n·W ≤ d·L, an honoured cap is kept by every layout, although rounding eats into the slack |
| Spacing.BreakingBreaks | app/agents/_calendar.py:240-272 | for every cap that is not honoured, a layout within the count bound that puts limit+1 touches in one window |
| Spacing.HonouredIsExact | app/agents/_calendar.py:240-272 | a cap is kept by all layouts within the count bound if and only if it is honoured |
| HardCaps.CrowdedAtATouch | app/agents/_calendar.py:197-206 | if any window starting anywhere is crowded, so is one starting at a touch |
| HardCaps.FirstOverflowIsTrueCount | app/agents/_calendar.py:199-206 | at the first anchor that overflows, the anchored scan counts the whole window |
| HardCaps.EarlierAnchors | app/agents/_calendar.py:199-206 | before that anchor no window is crowded |
| HardCaps.NoOverflowNoCrowd | app/agents/_calendar.py:199-206 | if no anchored scan overflows, no window starting at any instant holds more than the limit |
| HardCaps.ScanAnchor | app/agents/_calendar.py:199-205 | the inner counting loop counts the touches from the anchor to the end of its window |
| HardCaps.CheckCap | app/agents/_calendar.py:179-220 | a violation exactly when the cap is well formed and breached, at the earliest such anchor with the true count |
| HardCaps.EnforceHardCaps | app/agents/_calendar.py:166-223 | one report per breached cap, in order, each exact; none if and only if every cap is met |
| HardCaps.NoReportsIffMet | app/agents/_calendar.py:222-223 | an empty report list means that every cap is met, and only that |
| HardCaps.ReportsPermute | app/agents/_calendar.py:178-223 | the reports do not depend on the order the touches are listed in |
| CountingLaws.BreachedIff | app/agents/_calendar.py:179-206 | a cap is breached exactly when it names a platform, has a known period and a positive limit, and more touches of the platform than that, counted as a set of positions, lie in some window of 1, 7 or 30 days |
| Calendar.IndexHardCaps | app/agents/_calendar.py:231-237 | each platform is indexed to the last cap that names it |
| Calendar.Distribute | app/agents/_calendar.py:253-287 | the touches of a channel: first and last day, floor-or-ceiling gaps, running positions, all on days of the campaign |
| Calendar.GenerateCalendar | app/agents/_calendar.py:66-131 | the sorted plan, a permutation of the touches laid down, all within the campaign's dates; it raises exactly when the plan breaks a cap, with the exact reports |
| CalendarCounts.PlatformHasRightCount | app/agents/_calendar.py:81-124 | an active channel alone on its platform gets one touch a week at 100%, rounded to the nearest with ties to even, at least one; under the last cap that names the platform no more than its rate fits into the campaign; under a malformed one exactly one |
| CalendarCounts.ScheduledIff | app/agents/_calendar.py:89-100 | a calendar touches exactly the platforms for which some channel has a name and a readable positive percentage |
| CalendarCounts.OffsetIsNearest | app/agents/_calendar.py:271-272 | each of several touches stands on the day nearest its exact place |
| CalendarCounts.SingleTouchIsCentral | app/agents/_calendar.py:265-269 | a single touch stands in the middle of the campaign |
| CalendarCounts.PlanContents | app/agents/_calendar.py:253-287 | touches are numbered from 0 in the order they are laid down, at nine o'clock on a day of the campaign, for the audience, on a channel's platform |
| Feasibility.WeeklyCountIsSparse | app/agents/_calendar.py:102-105 | an allocation of at most 100% leaves more than a week per touch |
| Feasibility.PlanMeetsCaps | app/agents/_calendar.py:76-131 | with distinct platforms and one well-formed cap each, the plan meets every cap if each channel has at most 100% or an honoured cap; malformed caps do no harm |
| Feasibility.UnhonouredCapIsBreached | app/agents/_calendar.py:76-131 | every cap that is not honoured is broken by some one-channel plan |
| Feasibility.NeverRaisesIffHonoured | app/agents/_calendar.py:76-131 | a cap is met by the plan for every allocation and every dates if and only if it is honoured |
| Feasibility.HonouredCaps | app/agents/_calendar.py:36-40 | honoured means at most 1 a day, 7 a week, 30 (or 32, 36, 40, 60) a month |
| Feasibility.RepeatedPlatformBreaks | app/agents/_calendar.py:89-130 | two channels on one platform, half each, break a daily cap |
| Feasibility.SecondCapBreaks | app/agents/_calendar.py:231-237 | with two caps on one platform the first can be broken at 100% |
| ProposalFeasibility.NeverRaisesIffSafe | app/agents/_calendar.py:76-131 | for any platforms and caps with one well-formed cap each at most, the calendar never raises, whatever allocations and dates, if and only if every well-formed cap that is consulted is honoured and its platform named at most once, and every other one's platform is named at most limit times |
| ProposalFeasibility.SafeCapIsMet | app/agents/_calendar.py:107-130 | a safe cap is met by every plan on the platforms |
| ProposalFeasibility.TwoChannelsBreak | app/agents/_calendar.py:89-124 | two channels on the platform of any consulted cap break it within one window of days |
| ProposalFeasibility.ManySinglesBreak | app/agents/_calendar.py:231-250 | behind a malformed cap, more channels than the limit break it on one day |
| FrequencyWarnings.SliceIsEnough | app/agents/_calendar.py:152-158 | the slice of 2·cap neighbours a side overflows exactly when the whole list does, and counts alike up to 2·cap+1 |
| FrequencyWarnings.WarningOfAgrees | app/agents/_calendar.py:146-163 | a touch is flagged exactly when a full scan of its audience would flag it, with the full count when that is at most 2·cap+1 |
| FrequencyWarnings.WarnedAgrees | app/agents/_calendar.py:134-163 | the same for every touch of the list |
| FrequencyWarnings.WarnedReadsSchedule | app/agents/_calendar.py:140-144 | the result depends on who and when only, never on earlier warnings |
| FrequencyWarnings.WarnedIsIdempotent | app/agents/_calendar.py:140-163 | running the detector again changes nothing |
| WarningOrder.OrderKeepsFlags | app/agents/_calendar.py:150-163 | listing the same touches in another order changes no flag, and no count where at most 2·cap+1 are near |
| WarningOrder.TieOrderMatters | app/agents/_calendar.py:151-163 | for every cap, 2·cap+2 touches at one instant for which the order of ties changes a count |
| TieOrder.SliceCountIs | app/agents/_calendar.py:152-157 | the slice of a touch counts itself and at most 2·cap of its near neighbours on each side |
| TieOrder.SameInEveryOrderIff | app/agents/_calendar.py:150-163 | a touch's warning is the same in every order of the same touches if and only if it is tied with no other, or neither side of its slice is ever truncated, or both always are |
| FrequencyWarnings.DetectFrequencyWarnings | app/agents/_calendar.py:134-163 | the in-place detector writes exactly those warnings and nothing else |
| FrequencyWarnings.GroupByAudience | app/agents/_calendar.py:146-148 | every audience's touches, in list order |
| FrequencyWarnings.CountNear | app/agents/_calendar.py:153-157 | counts the slice's touches strictly within the window of the anchor |
| CountingLaws.WarnedIff | app/agents/_calendar.py:134-163 | a touch gets a warning exactly when the set of positions of its audience less than the window away has more than the cap |
| StrategyStore.AcceptIsLegal | app/api/strategy.py:250-327 | accepting keeps one accepted proposal per campaign, rows only for accepted proposals, all caps met, all warnings as a recomputation writes them |
| StrategyStore.DragIsLegal | app/api/strategy.py:402-446 | moving a touch whose calendar still meets the caps and recomputing warnings keeps all of that |
| StrategyStore.RowsAfterAccept | app/api/strategy.py:259-287 | after an accept: the seeded rows for the winner, none for its rivals, everybody else's as before |
| TouchpointTable.QueryReadsRows | app/agents/strategist.py:324-330 | whatever order the query returns rows in, they are the proposal's rows and calendar |
| TouchpointTable.ReEvaluateWarnings | app/agents/strategist.py:316-346 | afterwards the proposal's rows, read by time in some order of ties, carry exactly what the detector writes for that order; nothing else changes |
| TouchpointTable.RecomputationIsStable | app/agents/strategist.py:316-346 | recomputing with ties in any other order changes no flag |
| TouchpointTable.RecomputationIsStableIff | app/agents/strategist.py:316-346 | recomputing leaves a row's warning alone in every order of ties if and only if the ties do not show in its calendar |
| TouchpointTable.StoredWarningAgrees | app/agents/strategist.py:316-346 | a stored warning is there exactly when a scan of the whole calendar finds more than the cap near |
| TouchpointTable.CopyWarnings | app/agents/strategist.py:343-344 | each row gets its own touch's warning and keeps everything else |
| TouchpointTable.CheckMove | app/api/strategy.py:406-442 | no violations exactly when the moved calendar meets every cap; otherwise the exact reports |
| StrategyStore.Store.NextVersion | app/agents/strategist.py:129-135 | above every version of the campaign, by one |
| StrategyStore.Store.Propose | app/agents/strategist.py:78-158 | adds the planner's channels as the campaign's next version, not accepted; refused exactly without campaign, objective, audience, active channel or plan |
| ChannelOverrides.PatchChannels | app/api/strategy.py:177-208 | the override loop, which refuses all when one cannot be applied |
| ChannelOverrides.PatchedIff | app/api/strategy.py:177-208 | overrides are applied exactly when each names a platform of the proposal and its amount is readable; then the last one that sets a platform's percentage wins and nothing else changes |
| StrategyStore.Store.PatchOverrides | app/api/strategy.py:155-214 | overrides channels only of a proposal that is not accepted, all or none, and none exactly when one names no channel or has an unreadable amount |
| StrategyStore.Store.Accept | app/api/strategy.py:231-327 | succeeds exactly when already accepted or the plan meets the caps; then exactly the winner of the campaign is accepted, its calendar is that plan and other campaigns' rows are as before; the exact condition of each refusal; any failure changes nothing and a cap failure carries the exact reports |
| StrategyStore.Store.SeedCalendar | app/agents/strategist.py:230-289 | the rows of the plan with current warnings, or why there are none |
| StrategyStore.Store.Supersede | app/api/strategy.py:259-287 | the accept transaction's writes, and what they leave alone |
| StrategyStore.Store.Drag | app/api/strategy.py:372-446 | moves exactly the named touch and recomputes its calendar's warnings only, or refuses with the exact reports and changes nothing |
| StrategyStore.Store.Serve | app/api/strategy.py:155-446 | every request keeps the store legal, succeeds exactly when its operation can and has that operation's effect; one that fails changes nothing |
| StrategyStore.ServeAll | app/api/strategy.py:155-446 | after any sequence of requests the store is legal, its warnings equal to what a recomputation writes |
| StrategyStore.LegalWarnings | app/agents/strategist.py:271-283 | in a legal store every stored warning is there exactly when a scan of its whole calendar finds more than the cap near |
| CountingLaws.LegalWarningIff | app/agents/strategist.py:316-346 | in a legal store a row carries a warning exactly when more than three rows of its proposal and audience lie less than seven days from it |
| CountingLaws.LegalRowsFit | app/agents/_calendar.py:166-223 | in a legal store no window of a cap's period holds more rows of a proposal on its platform than its limit |
| DispatchSafety.EmailKeepsDayApart | app/agents/distribution.py:314-349 | an email dispatch keeps any two emails to an address more than 24 hours apart |
| DispatchSafety.EmailKeepsCap | app/agents/distribution.py:323-370 | an email dispatch keeps every closed window of the cap within its maximum |
| DispatchSafety.NewSentRow | app/agents/distribution.py:416-461 | a new sent row is this asset's, was judged sendable and carries the send time |
| DispatchSafety.ApplyKeepsInv | app/agents/distribution.py:113-866 | every step keeps the whole invariant |
| DispatchSafety.RunKeepsInv | app/agents/distribution.py:113-866 | so does every run |
| DispatchSafety.RunIsLater | app/agents/distribution.py:113-866 | over any run rows stay as they are and retired assets stay retired |
| DispatchSafety.DispatchedOnce | app/agents/distribution.py:265-283 | however many duplicate tasks run, an asset is dispatched by email at most once |
| DispatchSafety.ElapsedIsNeverSent | app/agents/distribution.py:790-861 | an asset whose slot passed during a pause never has an attempt row after the resume |
| DispatchSafety.RowsAreImmutable | app/agents/distribution.py:1084-1128 | an attempt row, once written, never changes |
| DispatchSafety.BatchIsDistinctIff | app/agents/distribution.py:334-349 | an address is handed over twice if and only if two members share a sendable one |
| SentCounts.SentCountIff | app/agents/distribution.py:416-470 | the summary's sent count is never below the number of new sent rows, and equals it if and only if no two members share an accepted address |
| SentCounts.SharedAddressCountsTwice | app/agents/distribution.py:416-470 | a launched asset and an audience for which two sends are counted for one row |
| SentCounts.LaunchedIsReached | app/agents/distribution.py:113-228 | that state is reached from an empty table by scheduling |
| Distributor.Agent.Triage | app/agents/distribution.py:314-349 | the three lists, in audience order, agree with judging each address against the table |
| Distributor.Agent.DispatchEmail | app/agents/distribution.py:249-518 | exactly one step of the machine; the exact conditions of delivering, of the paused answer and of the provider being down; its summary accounts for every member once |
| Distributor.Agent.DispatchSocial | app/agents/distribution.py:521-716 | exactly one step of the machine, and which answer it gives for what it meets first |
| Distributor.Agent.Schedule | app/agents/distribution.py:113-228 | exactly one step of the machine; the assets scheduled are the campaign's approved ones |
| Distributor.Agent.Pause | app/agents/distribution.py:754-787 | exactly one step of the machine, whose effect over any run is DispatchLaws.PausedSendsNothing |
| Distributor.Agent.Resume | app/agents/distribution.py:790-861 | exactly one step of the machine; counts the assets put back in the queue and those whose slot has passed |
| Distributor.VerdictsPartition | app/agents/distribution.py:334-349 | every member gets exactly one verdict |
| Distributor.RecordSends | app/agents/distribution.py:416-461 | one upsert per address; how many were accepted and how many are on the suppression list, the rest being rejected |
| Distributor.RecordSkips | app/agents/distribution.py:351-370 | one upsert per capped address |
| DispatchLaws.PausedSendsNothing | app/agents/distribution.py:278-283 | over any run in which a campaign is paused and not resumed after, it ends paused, none of its assets gets an attempt row and none is published after the pause |
| DispatchLaws.PauseOutcome | app/agents/distribution.py:754-787 | a pause sets the status of its campaign and changes nothing else |
| DispatchLaws.ResumeOutcome | app/agents/distribution.py:790-861 | a resume makes the campaign live and fails exactly its scheduled assets whose slot has passed |
| DispatchLaws.ScheduleOutcome | app/agents/distribution.py:113-228 | exactly the campaign's approved assets become scheduled, at their touchpoint's time or now if that is past, else in the slot they had, else now |
| DispatchLaws.EmailOutcome | app/agents/distribution.py:249-518 | after an email dispatch exactly the audience's addresses not sent to in the last day have a row for it: skipped when the cap is used up, else sent, suppressed, rejected or not acknowledged exactly as the provider answered; every other row, asset and campaign is as before |
| DispatchLaws.RowTries | app/agents/distribution.py:1084-1128 | a sent row counts one try, any other one for each member with its address |
| DispatchLaws.EmailTakesEffectIff | app/agents/distribution.py:265-412 | an email task has an effect exactly when its asset is a scheduled email of a known campaign that is not paused and integration, audience and provider are there |
| DispatchLaws.SocialOutcome | app/agents/distribution.py:521-716 | a social dispatch writes one sent row for the page and publishes, or, when access was revoked, fails the asset and pauses the campaign |
| DispatchLaws.SocialTakesEffectIff | app/agents/distribution.py:537-640 | a social task has an effect exactly when its asset is a scheduled post of a known campaign that is not paused, with a configured channel, and the provider does not fail |
| Conversation.Trim | app/assistant/memory.py:113-161 | a list of at most 20 messages as it is; of a longer one the longest suffix of at most 20 that its two tests keep |
| Conversation.KnownToolUseIds | app/assistant/memory.py:138-146 | exactly the ids used in the candidate |
| Conversation.HasDangling | app/assistant/memory.py:147-155 | true exactly when the candidate may not start here |
| Conversation.HandleMessage | app/assistant/router.py:165-326 | the first list sent is the history and the question; each later one adds the reply's own blocks and the result of its first call with the tool's text; what is saved is the last list, the last reply's blocks and, when it asks for confirmation, its result; it raises exactly when a call fails, a tool is unknown or every turn is used up |
| Conversation.SavesOneTurn | app/assistant/router.py:184-326 | whatever the model answers, what is saved is the history and one whole turn of at most nine messages |
| Conversation.WholeIsPaired | app/assistant/memory.py:113-124 | whole turns open with a question and every result's call sits just before it |
| Conversation.TrimmedLength | app/assistant/memory.py:113-161 | trimming whole turns keeps the last 12 to 20 messages, whatever the ids |
| Conversation.TrimmedIsWholeIff | app/assistant/memory.py:113-161 | on whole turns the result is whole turns, and meets the documented invariants, if and only if no result ahead of the slice's first question has its id used again |
| Conversation.ChatIsStored | app/api/ui/dashboard.py:138-168 | one message with fresh ids, loaded, handled, trimmed and saved, leaves whole turns |
| Conversation.ConversationsStayWhole | app/api/ui/dashboard.py:138-185 | after any number of chats and restarts with fresh ids every stored conversation is whole turns of at most 20 messages |
| Conversation.RequestResultsInPlace | app/assistant/router.py:184-192 | every list sent on top of a stored conversation opens and ends with the user and has every result right behind its call |
| Conversation.WholeAnsweredIff | app/assistant/router.py:199-204 | in a stored conversation every tool call is answered by the very next message if and only if no reply calls under more than one id |
| Conversation.RequestAnsweredIff | app/assistant/router.py:184-204 | the same of every list sent |
| Conversation.SingleCallIff | app/assistant/router.py:199-204 | for calls under different ids, one id at most means one call at most |
| Conversation.ConversationsStayAnswered | app/api/ui/dashboard.py:138-185 | over any run in which the model keeps to one tool per reply, every stored conversation answers every call |
| Conversation.SecondCallIsNotAnswered | app/assistant/router.py:199-324 | one message whose reply calls twice leaves a stored conversation with an unanswered call |
| Conversation.Memory.SaveHistory | app/assistant/memory.py:41-61 | stores the trimmed list for this user only |
| Conversation.Memory.ClearHistory | app/assistant/memory.py:64-76 | empties an existing conversation and no other |
| Conversation.Memory.AssistantChat | app/api/ui/dashboard.py:138-168 | one step of the conversation; with fresh ids stored conversations stay whole; every request has its results in place, and all its calls answered exactly when each reply called once |
| Conversation.TrimAloneIsNotEnough | app/assistant/memory.py:116-123 | a list for which the trimmer's result breaks its documented invariants |
| Conversation.ReuseBreaksTrimming | app/assistant/memory.py:116-123 | whole turns with a recurring id for which it does too |
| Assignment.PickVariantIndex | app/ab_testing/assignment.py:40-76 | the cumulative loop always returns inside the loop; errors exactly for an empty split or a total that is not positive |
| Assignment.PickIsInterval | app/ab_testing/assignment.py:56-76 | bucket b goes to v exactly when it lies in v's weight beyond the weights of the smaller variants |
| Assignment.ExactShares | app/ab_testing/assignment.py:56-76 | exactly weight(v) of the total buckets go to v |
| Assignment.OrderIsIrrelevant | app/ab_testing/assignment.py:66-72 | the pick does not depend on the order of the dictionary, whatever the weights |
| Assignment.CoerceSplit | app/ab_testing/assignment.py:150-164 | refuses what is not an object of numbers, drops weights that are not positive and keeps the others |
| Assignment.CoercedIsUsable | app/ab_testing/assignment.py:150-164 | what is left has positive weights on distinct variants, so only an empty split is refused by the pick |
| Assignment.CoercedWeights | app/ab_testing/assignment.py:150-164 | every stored positive weight is kept as it is, every other variant has none, and the total is that of the stored positive weights |
| Assignment.StoredShares | app/ab_testing/assignment.py:56-164 | of as many buckets as the stored positive weights add up to, exactly the stored weight goes to each variant |
| AssignmentProtocol.CompletedCallsAgree | app/ab_testing/assignment.py:79-147 | in every interleaving of any workers with split edits, completed calls for one recipient of one test return the same variant |
| AssignmentProtocol.RowNeverChanges | app/ab_testing/assignment.py:123-135 | an assignment row never changes |
| AssignmentProtocol.EveryRowIsSourced | app/ab_testing/assignment.py:103-135 | a row holds what the hash gave under a split that was in force at some moment of the run |
| AssignmentProtocol.SoloCall | app/ab_testing/assignment.py:91-147 | a call that meets no other is the serial assignment |
| AssignmentProtocol.Assignments.AssignVariant | app/ab_testing/assignment.py:79-147 | the stored variant, or the computed one now stored; errors store nothing |
| AssignmentProtocol.TrafficFollowsSplit | app/ab_testing/assignment.py:79-164 | end to end, among as many hash values as the stored positive weights add up to, exactly the stored weight sends a new recipient to each variant |
| AssignmentProtocol.NoAnswerIff | app/ab_testing/assignment.py:91-117 | a recipient gets no variant exactly when there is no row and no test, no readable split or no positive weight in it |
| AssignmentProtocol.Assignments.FilterAudience | app/agents/distribution.py:895-937 | the kept members in audience order, and the rows stored on the way |
| AssignmentProtocol.KeptIff | app/agents/distribution.py:909-937 | kept are exactly the members without an id, those of a test that cannot answer, and those whose variant the asset is |
| AssignmentProtocol.KeptIffAssigned | app/agents/distribution.py:909-937 | a dispatch of a well-configured test keeps a member exactly when the member's row names its asset |
| AssignmentProtocol.KeptByAtMostOne | app/agents/distribution.py:909-937 | whatever the edits in between, no member is kept by two different variants |
| AssignmentProtocol.KeptOnceIff | app/agents/distribution.py:909-937 | dispatching different variants of a fixed split, whatever rows exist: a member is reached if and only if the variant it has or gets is among them, and never twice |
| AssignmentProtocol.KeptByExactlyOne | app/agents/distribution.py:909-937 | dispatching every variant of a fixed split reaches each member exactly once, unless it holds a row of another split |
| Planner.Validate | app/agents/_strategist_planner.py:257-449 | the loops report exactly the violations, in order |
| PlannerLaws.ViolationsAreExpected | app/agents/_strategist_planner.py:257-449 | for every kind of violation and everything it can be about, how often it is reported, read off the plan: shape, forbidden, unknown and repeated platforms, ranges, amounts, rationales, the sum, each override and the KPIs |
| Planner.CentsHalfUp | app/agents/_strategist_planner.py:344-346 | the amount due is rounded to the nearest cent, halves away from zero |
| Planner.NoViolationsIff | app/agents/_strategist_planner.py:257-449 | no violations if and only if: distinct, allowed, not forbidden platforms, amounts and percentages in range and matching, total within a point of 100, overrides honoured, KPIs complete |
| Planner.SpendIsNearBudget | app/agents/_strategist_planner.py:318-375 | then total spend is within budget/100 + 0.505·n of the budget, and n is at most the number of allowed platforms |
| Planner.Propose | app/agents/_strategist_planner.py:85-127 | the earliest attempt with the fewest violations out of at most three, with its own violations as warnings; fails exactly when it is not ready or, before any clean attempt, an answer cannot be read |
| Planner.CarryOverrides | app/agents/strategist.py:349-379 | exactly the flagged channels of the latest version that name a platform and have readable numbers, in order |
| Planner.ReplanKeepsPin | app/agents/_strategist_planner.py:377-422 | one clean re-plan keeps an override present and flagged within one point |
| Planner.OverridesDriftSlowly | app/agents/strategist.py:349-379 | after k clean re-plans an override is present, flagged and at most k points from where it began |
| Planner.DriftIsTight | app/agents/strategist.py:349-379 | that bound is reached |
| Cosine.BodyCosineSimilarity | app/agents/_compliance.py:162-186 | the count loops and sums compute the similarity of the two token lists |
| Cosine.CountTokens | app/agents/_compliance.py:173-178 | how often each token occurs |
| Cosine.CauchySchwarz | app/agents/_compliance.py:180-186 | the squared dot product is at most the product of the squared magnitudes |
| Cosine.SimilarityRange | app/agents/_compliance.py:162-186 | in [0, 1] for any texts; 1 exactly for tokens in the same proportions, 0 exactly for no shared token |
| Cosine.SimilarityIs | app/agents/_compliance.py:180-186 | for two texts with tokens it is not negative and its square is the squared dot product over the product of the two squared magnitudes |
| Cosine.DotCountsMatches | app/agents/_compliance.py:180-181 | the dot product is the number of pairs of positions that hold the same token |
| Cosine.SimilaritySymmetric | app/agents/_compliance.py:162-186 | symmetric |
| Cosine.IdenticalTexts | app/agents/_compliance.py:162-186 | 1 for a text with itself |
| BudgetShift.TryBudgetShift | app/analytics/recommendations.py:156-310 | the loops, sort and clamps compute the proposed shift |
| BudgetShift.ShiftIffRoom | app/analytics/recommendations.py:174-245 | there is a shift exactly when the costs differ enough, both channels are planned and the laggard can give a tenth above its floor |
| BudgetShift.ShiftIsSound | app/analytics/recommendations.py:183-265 | it moves 10% to 30% from the dearest to the cheapest eligible channel, leaves the floor, predicts a positive uplift of at most 9.9999 |
| BudgetShift.OutcomeIff | app/analytics/recommendations.py:177-181 | conversions are the outcome exactly when some channel has one, clicks otherwise |
| BudgetShift.CostIs | app/analytics/recommendations.py:79-87 | a channel is eligible exactly when it spends and has outcomes, and its cost times its outcomes is its spend |
| BudgetShift.EmittedUplift | app/analytics/recommendations.py:252-265 | the uplift times all current outcomes is the outcomes the moved money buys at the leader minus those it bought at the laggard, below the ceiling |
| BudgetShift.ShiftConservesIff | app/analytics/recommendations.py:247-282 | for whole-cent allocations the rounded amounts sum to the old total if and only if no half-cent tie or an even total; never off by more than a cent |
| BudgetShift.DefaultShiftConservesIff | app/analytics/recommendations.py:217-219 | for the default 30% this reads: the laggard's cents do not end in 5, or the leader's are odd |
| BudgetShift.ClampedShiftConservesIff | app/analytics/recommendations.py:221-235 | for a shift clamped to a minimum spend the tie is a half-cent in that minimum |
| BudgetShift.EmittedShiftConservesIff | app/analytics/recommendations.py:217-282 | for every emitted shift the exact condition, in terms of the two allocations and the minimum spend |
| BudgetShift.NearestIsHalfEven | app/analytics/recommendations.py:273-282 | rounding to cents is the same half-even rounding as the calendar's |
| BudgetShift.ShiftCanGainACent | app/analytics/recommendations.py:217-282 | metrics and allocations whose two budget rows add up to a cent too much after the shift |
| BudgetShift.ShiftThenApply | app/api/analytics.py:181-226 | the same of the two budget rows after the proposal is applied |
| BudgetShift.ApplyIsIdempotent | app/api/analytics.py:181-226 | applying it again changes nothing |
| BudgetShift.ApplyTouchesOnlyTwo | app/api/analytics.py:207-226 | only the two channels' allocations change, and nothing that was spent |
| BudgetShift.ApplyWritesOwnAmounts | app/api/analytics.py:181-226 | each of two different channels ends with its own new amount and with what it had spent, and no other row appears |
| BudgetShift.ApplyNeedsBothChannels | app/api/analytics.py:181-206 | a recommendation without both channels moves no money |
| BudgetShift.ShiftMovesMoney | app/api/analytics.py:181-226 | applying an emitted shift never raises the laggard's row or lowers the leader's, and each is within half a cent of the amount moved |
| BudgetShift.FirstDecisionWins | app/api/analytics.py:141-260 | over any run the first decision on a pending recommendation stands: accepted it is applied, rejected it is rejected |
| BudgetShift.MoneyMovesOnlyOnAccept | app/api/analytics.py:141-260 | budgets change only when a pending recommendation is accepted |
| BudgetShift.DecidedOnce | app/api/analytics.py:149-163 | over any run a decided recommendation stays decided |
| BudgetShift.Recommendations.AcceptRecommendation | app/api/analytics.py:141-178 | pending becomes applied, with each of the two channels at its own new amount; anything else is refused and changes nothing |
| BudgetShift.Recommendations.ApplyBudgetShift | app/api/analytics.py:181-226 | upserts the two rows, or nothing for a proposal without channel ids |
| BudgetShift.Recommendations.RejectRecommendation | app/api/analytics.py:233-260 | pending becomes rejected; the budgets stay |
| BatchApproval.Desk.ApproveAsset | app/api/approvals.py:171-276 | the single endpoint's answer; edits and status of the asset; the campaign moves on if it waits for approval and passes the guard |
| BatchApproval.Desk.BatchApprove | app/api/approvals.py:504-696 | the batch loop with per-asset savepoints, and which campaigns move on after it |
| BatchApproval.Desk.Advance | app/api/approvals.py:401-410 | of the given campaigns exactly those that wait for approval and pass the guard become ready to launch |
| ApprovalLaws.ThresholdIff | app/api/approvals.py:431-492 | an admin is needed exactly when the budget is above a readable threshold, the auto-approval cap exceeded exactly when it is above a readable cap or above zero without one, in both cases only in the same currency, dollars if none is recorded |
| ApprovalLaws.SingleIff | app/api/approvals.py:171-230 | the exact condition of each answer of the single endpoint |
| ApprovalLaws.GateIff | app/api/approvals.py:539-613 | the exact condition of each exclusion reason of the batch |
| ApprovalLaws.RealRunWrites | app/api/approvals.py:615-670 | a real run approves exactly the assets that pass the gates at its start and one of whose writes succeeds |
| ApprovalLaws.ReportIs | app/api/approvals.py:539-670 | what a dry or real run reports for every position, in the request's order: the gate's reason, wrong status after an earlier approval of the same id, a failed write, or approved |
| ApprovalLaws.SummaryIsAbout | app/api/approvals.py:615-682 | the ids the summary is about are the approved ones and those with a failed write, in the request's order |
| BatchApproval.GateIsSingle | app/api/approvals.py:557-613 | the batch's gates are the single endpoint's and the auto-approval cap |
| BatchApproval.BatchIsSingles | app/api/approvals.py:539-670 | a real run does what approving its approved ids one by one would do, each of them successfully |
| BatchApproval.BatchPartitions | app/api/approvals.py:539-670 | approved and excluded ids together are the request |
| BatchApproval.SummaryDescribes | app/api/approvals.py:615-682 | the summary is about the ids that passed the gates, approved or with a failed write: one count for each on its platform, their campaigns, the first one's currency |
| BatchApproval.OnlyStatusChanges | app/api/approvals.py:627-641 | a batch changes nothing of an asset but its status, to approved |
| BatchApproval.CountsAddUp | app/api/approvals.py:615-682 | the channel counts add up to the approved assets and the failed writes |
| BatchApproval.DryRunIsExactIff | app/api/approvals.py:615-670 | without write failures the dry run's report equals the real run's if and only if no id that passes the gates is asked for twice |
| BatchApproval.RepeatedIdMisleads | app/api/approvals.py:615-670 | a request for which they differ |

## Left out

- One tenant at a time: row-level security, roles, audit rows, HTTP and SQL plumbing, and the campaign state machine beyond the statuses the dispatch steps read and write.
- Instants are integer seconds and dates integer days: no time zones. Percentages in the calendar are exact rationals and other decimals exact reals: no float or decimal-context rounding except where the code rounds on purpose.
- Strings are already trimmed and lower-case where the code normalises them.
- Queue enqueue and cancel: any dispatch step may run at any time and any number of times, which covers whatever the queue does.
- Two dispatches running at once, and a provider that accepts a send whose transaction then rolls back: each dispatch is one transaction.
- AssignmentProtocol.CompletedCallsAgree: each statement takes effect when it runs; a caller's later rollback, which would take its row with it, is not modelled.
- Feasibility.UnhonouredCapIsBreached: its witness is one channel with an allocation above 100%, since by Feasibility.PlanMeetsCaps no single channel at or below 100% can break its one cap.
- DispatchSafety.EmailKeepsCap: counts email rows; the query it relies on counts every channel's, so it is at least as strict.
- StrategyStore.Store.PatchOverrides: the amount and the human-override flag an override writes are not stored with the channel, because the calendar reads neither; the flag's life over versions is in Planner.OverridesDriftSlowly.
- ChannelOverrides.PatchChannels: likewise only the percentages, and whether an amount is readable.
- The active-campaign pointer of a conversation, token counts, and how a tool makes the text it answers with.
- Sums reported but not checked by the code: the plan's total amount is stated by a lemma, the batch's exposed spend only as the set of campaigns it adds up.
- Variant ids are integers in place of UUID strings (same order), a split's keys are assumed to be valid ids, and the hash is any function.
- Tokenising, model calls, prompts, connectors, tokens and footers: foreign calls or string handling, whose results are parameters.
- What the state machine's guard on a launch asks: any function of the campaign's assets; scheduling on entry is the dispatch machine's own step.
- Duplicate suppression of pending recommendations and the SQL that loads channel metrics.
- KPI rollups, reports, segmentation, CSV import, anomaly rules, A/B significance and settings: queries and one-step checks without a property that spans steps.
