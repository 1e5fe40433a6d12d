# Expo collaborative site — verified model of the page logic

The site is a set of independent browser pages. Each page keeps its
state in memory, mirrors it to local storage, and changes that state
through small deterministic rules. This project models those rules in
Dafny, one module per page, and proves what each page promises.

- **Bingo verifier.** It scans a 5×5 card with a FREE centre against the
  drawn numbers. It validates and builds hand-typed cards, generates
  random cards column by column, and keeps the drawn list and the
  verification log.
- **Browsing history.** A visit log with capped stay durations and a
  500-entry trim. It also computes per-page visit statistics.
- **Pedometer and ring lap counter.** Per-day step records, the
  per-second tick, manual steps, sessions and the streak. The lap counter
  records laps with cumulative times and splits.
- **Final-week planner.** The wake-time rule, task toggles, progress and
  work-time sums.
- **Mountain game.** A state machine over preparing, climbing, summit,
  failed and rescued, with stamina clamped to 0..100.
- **List pages.** The life-plan simulator, the recipe book, expo tips,
  pavilion wait times, the station guide, the job-hunting journey and the
  reunion RSVP.

Shared pieces live in two modules:

- `Common` holds `Math.round` of a ratio (`RoundDiv`), percentages,
  `filter` and counting, Set-style order-preserving deduplication,
  toggling list membership, digit strings, string order and
  "HH:MM" clock strings.
- `Sorting` holds a stable sort by an integer-sequence key. It is proved
  sorted, a permutation and stable. It stands for `Array.prototype.sort`
  with the page's comparator.

Where the source changes state step by step, the model is imperative:

- analyseCard, the grid-filling loops, shuffle and columnRange;
- calculateStats;
- the streak loop;
- the wake-time adjustment;
- the Set accumulation of the life plan.

The pedometer, ring counter, browsing history and mountain game pages are
classes whose methods update their fields. Clock values, random draws,
dialogs, `localeCompare` and `toLowerCase` are parameters.

## Model

| member | source | states |
|---|---|---|
| Bingo.AnalyseCard | src/pages/BingoVerifier.tsx:581-621 | completedLines are the labels of the complete lines in checking order, and missingNumbers are the uncalled numbers in row-major order |
| Bingo.CollectMissing | src/pages/BingoVerifier.tsx:614-618 | the flat-grid loop pushes exactly the non-FREE, uncalled cells in order |
| Bingo.ReportedIffComplete | src/pages/BingoVerifier.tsx:585-612 | a line is reported iff every one of its cells is marked |
| Bingo.RowReported | src/pages/BingoVerifier.tsx:585-593 | row r is reported iff grid[r][0..4] are all FREE or called |
| Bingo.ColumnReported | src/pages/BingoVerifier.tsx:595-601 | column c is reported iff grid[0..4][c] are all marked |
| Bingo.DiagonalsReported | src/pages/BingoVerifier.tsx:603-612 | the ↘ line is reported iff grid[i][i] are all marked, and the ↗ line iff grid[i][4-i] are |
| Bingo.LinesInOrder | src/pages/BingoVerifier.tsx:587-612 | at most 12 lines are reported, in strictly increasing checking order: rows, then columns, then ↘, then ↗ |
| Bingo.MissingMeaning | src/pages/BingoVerifier.tsx:614-618 | v is missing iff some non-FREE cell holds v and v was not called |
| Bingo.EmptyDrawNoLines | src/pages/BingoVerifier.tsx:581-612 | with no numbers drawn, a card with FREE only at the centre has no complete line |
| Bingo.EmptyDrawMissing | src/pages/BingoVerifier.tsx:614-618 | with no numbers drawn, all 24 numbers of such a card are missing |
| Bingo.MoreDrawnMonotone | src/pages/BingoVerifier.tsx:581-621 | drawing more only adds completed lines and only removes missing numbers |
| Bingo.AnyLineCompleted | src/pages/BingoVerifier.tsx:206 | some line is reported iff some line is complete |
| Bingo.ToggleNumber | src/pages/BingoVerifier.tsx:82-89 | a drawn number is removed everywhere, any other number is appended, and nothing else changes |
| Bingo.ToggleNumberNoDup | src/pages/BingoVerifier.tsx:82-89 | toggling keeps the drawn list duplicate-free |
| Bingo.ToggleNumberTwice | src/pages/BingoVerifier.tsx:82-89 | toggling twice restores the list when the number was absent, and the membership otherwise |
| Bingo.UndoLastCall | src/pages/BingoVerifier.tsx:91-93 | only the last call is dropped; an empty list stays empty |
| Bingo.UndoAfterCall | src/pages/BingoVerifier.tsx:82-93 | undo right after calling a new number restores the board |
| Bingo.ClearBoard | src/pages/BingoVerifier.tsx:95-97 | the drawn list becomes empty and nothing else changes |
| Bingo.FormatBallHeading | src/pages/BingoVerifier.tsx:573-579 | a number of a column's range is printed with that column's letter, a dash and its decimal digits |
| Bingo.FormatBallBelowRange | src/pages/BingoVerifier.tsx:573-579 | a number below 1 falls to the I branch |
| Bingo.FindCard | src/pages/BingoVerifier.tsx:188 | None iff no card has the id; otherwise the first card with that id |
| Bingo.HandleVerify | src/pages/BingoVerifier.tsx:184-213 | a blank trimmed id changes nothing; otherwise exactly one result for that id is prepended to the log and becomes the last result |
| Bingo.VerifyOutcome | src/pages/BingoVerifier.tsx:184-213 | an unknown id logs not-found with empty lists; a known one logs valid iff some line is complete, with analyseCard's lists and a snapshot |
| Bingo.PersistedLogs | src/pages/BingoVerifier.tsx:79 | the stored log is the newest min(50, n) entries, in order |
| Bingo.NewestPersisted | src/pages/BingoVerifier.tsx:79 | after a verification, the new result heads the stored log |
| Bingo.DeleteCard | src/pages/BingoVerifier.tsx:232-234 | exactly the cards with other ids remain |
| Bingo.ResetLogs | src/pages/BingoVerifier.tsx:236-238 | the log becomes empty and nothing else changes |
| Bingo.FiniteValuesAll | src/pages/BingoVerifier.tsx:142-146 | the finiteness filter loses nothing iff every token is a finite number, and then it keeps the values in order |
| Bingo.FirstOutOfRange | src/pages/BingoVerifier.tsx:153 | None iff every value is within 1..75; otherwise the first value outside |
| Bingo.ScreenAccepts | src/pages/BingoVerifier.tsx:130-151 | an entry that passes the blank, count, numeric and duplicate checks has 24 or 25 distinct numbers |
| Bingo.Validate | src/pages/BingoVerifier.tsx:130-157 | with the range check as intended: an accepted entry has 24 or 25 distinct numbers, all within 1..75 |
| Bingo.ValidateMeaning | src/pages/BingoVerifier.tsx:130-157 | with the range check as intended, each rejection (blank, count, non-numeric, duplicate, range) happens exactly under its condition, checked in the source's order |
| Bingo.ZeroSlipsThrough | src/pages/BingoVerifier.tsx:153-157 | as written, an entry whose first value outside 1..75 is 0 passes the range check, which the intended check rejects |
| Bingo.AsWrittenDiffersOnlyOnZero | src/pages/BingoVerifier.tsx:153-157 | the written and the intended validation differ iff the entry passes the earlier checks and its first value outside 1..75 is 0 |
| Bingo.ZeroSlipsThroughExample | src/pages/BingoVerifier.tsx:153-157 | the numbers 0, 2, 3, …, 24 pass the check as written but are out of range |
| Bingo.CellIndexBijective | src/pages/BingoVerifier.tsx:159-170 | the 24 non-centre cells take the indices 0..23 in row-major order, each exactly once |
| Bingo.FillManualGrid | src/pages/BingoVerifier.tsx:159-170 | the nested loops build a 5×5 grid with FREE at (2,2) and numbers[k] in the k-th other cell |
| Bingo.ManualCardValid | src/pages/BingoVerifier.tsx:159-170 | a grid filled from 24 or more distinct numbers whose first 24 are in 1..75 is a valid card: FREE only at the centre and 24 distinct numbers in 1..75 |
| Bingo.ManualCardMeaning | src/pages/BingoVerifier.tsx:159-170 | such a grid is a valid card iff the 24 numbers it places are within 1..75; a 25th number is never placed |
| Bingo.RegisterManualCard | src/pages/BingoVerifier.tsx:159-181 | the card with the numbers placed row-major around FREE is prepended with the default or given label and trimmed notes, and the draft is cleared |
| Bingo.ParseManualCardAsWritten | src/pages/BingoVerifier.tsx:129-182 | the handler as written: a rejection only sets the draft's error; an acceptance registers one card, valid iff its 24 placed numbers are within 1..75, and valid whenever no number is outside 1..75 |
| Bingo.ParseManualCard | src/pages/BingoVerifier.tsx:129-182 | the handler with the range check as intended: a rejection only sets the draft's error; an acceptance prepends one valid card with the default or given label and trimmed notes, and clears the draft |
| Bingo.ColumnRange | src/pages/BingoVerifier.tsx:556-562 | the loop yields start, start+1, …, end |
| Bingo.Shuffle | src/pages/BingoVerifier.tsx:564-571 | for any swap indices ≤ the loop index, the result is a permutation of the input |
| Bingo.PicksAscending | src/pages/BingoVerifier.tsx:103-104 | the sorted first picks of a shuffled column range are strictly ascending and within the range |
| Bingo.GeneratedIsValid | src/pages/BingoVerifier.tsx:99-116 | a card filled column by column from such picks is a valid card |
| Bingo.FillColumn | src/pages/BingoVerifier.tsx:105-113 | the row loop fills column c from its ascending picks, skipping the centre, and leaves the other columns alone |
| Bingo.GenerateRandomCard | src/pages/BingoVerifier.tsx:99-127 | for any shuffle, one valid generated card is prepended and the draft is cleared |
| BrowsingHistory.CalculateStats | src/pages/BrowsingHistory.tsx:57-91 | the forEach loop over the log computes the statistics function of the log |
| BrowsingHistory.Tally | src/pages/BrowsingHistory.tsx:64-85 | one loop step keeps the map equal to the aggregates of the prefix seen so far |
| BrowsingHistory.UnknownPathSkipped | src/pages/BrowsingHistory.tsx:66-68 | an entry for a page outside pageInfo leaves the statistics unchanged |
| BrowsingHistory.StatsMeaning | src/pages/BrowsingHistory.tsx:64-85 | every statistic is the count, duration sum and last timestamp of a known visited page; each such page appears once |
| BrowsingHistory.StatsOrdered | src/pages/BrowsingHistory.tsx:87-88 | sorted by visitCount descending, with ties in first-appearance order |
| BrowsingHistory.VisitCountsSum | src/pages/BrowsingHistory.tsx:64-88 | the visit counts add up to the number of known-page entries |
| BrowsingHistory.NoVisitsNoTime | src/pages/BrowsingHistory.tsx:70-84 | a page without entries has no time and no last visit |
| BrowsingHistory.StayDuration | src/pages/BrowsingHistory.tsx:111-112 | the rounded elapsed seconds, capped from above at 3600 |
| BrowsingHistory.AddedLog | src/pages/BrowsingHistory.tsx:93-120 | an unknown path changes nothing; otherwise the previous last entry gets its stay duration, the new entry is appended, and only the oldest entries beyond 500 are dropped |
| BrowsingHistory.HistoryStore.constructor | src/pages/BrowsingHistory.tsx:44-91 | on mount, the log is the stored log and the statistics are those of the stored log |
| BrowsingHistory.HistoryStore.AddToHistory | src/pages/BrowsingHistory.tsx:93-125 | the log becomes the added log and the statistics are recomputed from it |
| BrowsingHistory.HistoryStore.ClearHistory | src/pages/BrowsingHistory.tsx:127-133 | once confirmed, log and statistics are empty; otherwise nothing changes |
| BrowsingHistory.Breadcrumb | src/pages/BrowsingHistory.tsx:188-191 | the newest min(5, n) entries, newest first |
| BrowsingHistory.FormatDuration | src/pages/BrowsingHistory.tsx:151-155 | three bands: seconds; minutes and seconds with 60m+s = total; hours and remaining minutes |
| BrowsingHistory.SearchHistory | src/pages/BrowsingHistory.tsx:165-186 | an entry is listed iff the folded query occurs in its folded title or path |
| BrowsingHistory.EmptySearchKeepsAll | src/pages/BrowsingHistory.tsx:165-186 | an empty query keeps the whole log in order |
| Pedometer.ApplyStepIncrement | src/pages/ExpoPedometer.tsx:99-108 | non-positive steps change nothing; otherwise only the records dated today gain exactly that many steps |
| Pedometer.EnsureToday | src/pages/ExpoPedometer.tsx:110-120 | a zero record for today is prepended iff none exists |
| Pedometer.EnsureTodayOnce | src/pages/ExpoPedometer.tsx:110-120 | running it again adds nothing, and dates stay unique |
| Pedometer.TodayRecord | src/pages/ExpoPedometer.tsx:159-167 | a record dated today, taken from the list when present, else the zero record |
| Pedometer.TodayRecordUnique | src/pages/ExpoPedometer.tsx:159-167 | with unique dates, it is the one record dated today |
| Pedometer.IncrementOnlyToday | src/pages/ExpoPedometer.tsx:99-108 | today's record rises by exactly the steps, and dates stay unique |
| Pedometer.AddManualSteps | src/pages/ExpoPedometer.tsx:193-210 | non-finite or non-positive input changes nothing; otherwise round(n) is added to today and a manual entry with that count is prepended |
| Pedometer.SmallManualAmountAddsNothing | src/pages/ExpoPedometer.tsx:193-210 | an amount in (0, 0.5) is accepted but adds 0 steps |
| Pedometer.Ticked | src/pages/ExpoPedometer.tsx:133-153 | a paused session is unchanged; otherwise one second, tempo/60 steps and the new whole steps are added |
| Pedometer.TickKeepsFloor | src/pages/ExpoPedometer.tsx:133-153 | loggedSteps stays floor(accumulatedSteps), and a tick never logs negative steps |
| Pedometer.TickStepsTotal | src/pages/ExpoPedometer.tsx:133-153 | at constant tempo, the logged steps are floor(elapsed·tempo/60) |
| Pedometer.SessionMinutes | src/pages/ExpoPedometer.tsx:234 | max(1, round(elapsed/60)) |
| Pedometer.FinalizeRecords | src/pages/ExpoPedometer.tsx:232-269 | no session or nothing logged changes nothing; keep adds the minutes to today, and discard removes the logged steps, floored at 0 |
| Pedometer.Streak | src/pages/ExpoPedometer.tsx:174-187 | the length of the leading run of date-descending records that meet the target |
| Pedometer.CompletionBounds | src/pages/ExpoPedometer.tsx:189 | within 0..100, 0 without steps, and 100 once the target is met |
| Pedometer.CompletionMonotone | src/pages/ExpoPedometer.tsx:189 | more steps never lower the completion |
| Pedometer.WeeklyRecords | src/pages/ExpoPedometer.tsx:169-172 | the min(7, n) latest records, oldest first |
| Pedometer.WeeklyRecordsOrdered | src/pages/ExpoPedometer.tsx:169-172 | the week is in ascending date order, and no record left out is later than one kept |
| Pedometer.FormatTime | src/pages/ExpoPedometer.tsx:280-284 | m:ss digits that read back as 60m+s = seconds with s < 60 |
| Pedometer.PedometerPage.EnsureTodayRecord | src/pages/ExpoPedometer.tsx:110-120 | the records become EnsureToday of the old records; the rest is unchanged |
| Pedometer.PedometerPage.Tick | src/pages/ExpoPedometer.tsx:133-153 | the session ticks, and today's record gains the tick's whole steps |
| Pedometer.PedometerPage.AddManual | src/pages/ExpoPedometer.tsx:193-210 | the records become AddManualSteps of the old records, and the context is reset after an accepted entry |
| Pedometer.PedometerPage.StartSession | src/pages/ExpoPedometer.tsx:216-230 | a fresh, unpaused session at tempo 120 and moderate intensity in the main-ring area with zero counts; records, target and context are unchanged |
| Pedometer.PedometerPage.TogglePause | src/pages/ExpoPedometer.tsx:271-274 | flips isPaused of the running session |
| Pedometer.PedometerPage.FinalizeSession | src/pages/ExpoPedometer.tsx:232-269 | the records become FinalizeRecords of the old ones, and the session is cleared in every case |
| ExpoFinal.EarliestStartMeaning | src/pages/ExpoFinal.tsx:162-165 | the reduce gives "" iff no task has a start time; otherwise a task's start time that no other start precedes in string order |
| ExpoFinal.CalculateOptimalWakeTime | src/pages/ExpoFinal.tsx:159-182 | "07:00" without a timed task; otherwise the wake time for the earliest start |
| ExpoFinal.FindEarliest | src/pages/ExpoFinal.tsx:162-165 | the reduce loop computes the earliest start |
| ExpoFinal.WakeBefore | src/pages/ExpoFinal.tsx:170-181 | a two-digit HH:MM exactly 90 minutes earlier, with an hour below 5 raised to 5 and the minute kept |
| ExpoFinal.ToggleTask | src/pages/ExpoFinal.tsx:143-157 | flips completed of the matching task on the matching day only |
| ExpoFinal.ToggleTaskTwice | src/pages/ExpoFinal.tsx:143-157 | toggling twice restores the schedule |
| ExpoFinal.AddTask | src/pages/ExpoFinal.tsx:421-441 | with a title, an uncompleted task without a start time is appended to the selected day alone, and the form is reset; without one, nothing changes |
| ExpoFinal.AddTaskKeepsEarliest | src/pages/ExpoFinal.tsx:421-441 | an added task never changes the earliest start |
| ExpoFinal.DailyProgress | src/pages/ExpoFinal.tsx:198-202 | 0 for an empty day; otherwise within 0..100 |
| ExpoFinal.DailyProgressExtremes | src/pages/ExpoFinal.tsx:198-202 | all done gives 100 and none done gives 0 |
| ExpoFinal.TotalWorkTime | src/pages/ExpoFinal.tsx:204-209 | 60h+m equals the duration sum with 0 ≤ m < 60, for a non-negative sum |
| RingCounter.SplitsSum | src/pages/ExpoRingCounter.tsx:175-178 | the splits of laps 0..k add up to lap k's cumulative time |
| RingCounter.SplitsNonNegative | src/pages/ExpoRingCounter.tsx:175-178 | with non-decreasing, non-negative cumulative times, every split is ≥ 0 |
| RingCounter.AverageLapTime | src/pages/ExpoRingCounter.tsx:180-183 | 0 without laps; otherwise round(time / number of laps) |
| RingCounter.CalculateDistance | src/pages/ExpoRingCounter.tsx:151-153 | 2 km per lap of the 2000 m ring |
| RingCounter.GetTotalStats | src/pages/ExpoRingCounter.tsx:192-206 | one session count per saved session, and totalDistance = 2·totalLaps |
| RingCounter.TotalsOfSaved | src/pages/ExpoRingCounter.tsx:192-206 | saving a session adds its laps, time and calories to the totals |
| RingCounter.FormatTime | src/pages/ExpoRingCounter.tsx:168-173 | h:mm:ss digits that read back as 3600h+60m+s = seconds with m, s < 60 |
| RingCounter.LapListMeaning | src/pages/ExpoRingCounter.tsx:130-140 | a lap list numbered 1..n splits the elapsed time into non-negative laps that sum to the last lap's time |
| RingCounter.Counter.StartWalking | src/pages/ExpoRingCounter.tsx:90-108 | a new current session, active, with time, laps and lap list zeroed |
| RingCounter.Counter.Tick | src/pages/ExpoRingCounter.tsx:51-59 | one more second while active; nothing else changes |
| RingCounter.Counter.AddLap | src/pages/ExpoRingCounter.tsx:130-140 | laps+1, and the lap list gains {new count, current time}, keeping lapTimes[i].lap = i+1 |
| RingCounter.Counter.StopWalking | src/pages/ExpoRingCounter.tsx:110-128 | an open session is prepended with the laps, time and lap list; the counter is inactive with no current session in every case |
| RingCounter.Counter.ResetCounter | src/pages/ExpoRingCounter.tsx:142-149 | the counter is inactive, with time, laps, lap list and notes cleared; the walk is dropped unsaved and saved sessions are kept |
| MountainGame.RouteFor | src/pages/MountainGame.tsx:61-94 | the one route of the given difficulty |
| MountainGame.StaminaCostExact | src/pages/MountainGame.tsx:96-102 | cost × multiplier is an exact integer between the base cost and twice it |
| MountainGame.MissingEquipment | src/pages/MountainGame.tsx:138-140 | exactly the required items not yet bought |
| MountainGame.InitialState | src/pages/MountainGame.tsx:37-59 | full stamina, preparing, not climbing |
| MountainGame.Purchase | src/pages/MountainGame.tsx:113-124 | outside preparing nothing changes; otherwise exactly that item is set and one log line is appended |
| MountainGame.StartClimbing | src/pages/MountainGame.tsx:137-157 | missing gear only logs the missing list; otherwise climbing starts on the route's difficulty |
| MountainGame.ClimbStep | src/pages/MountainGame.tsx:159-197 | no stamina fails the climb; otherwise stamina falls by the exact cost, floored at 0, and the target altitude ends in summit, experience and the best altitude |
| MountainGame.RandomEvent | src/pages/MountainGame.tsx:199-254 | the drawn weather, water, rockfall and scenery events keep the invariant and touch nothing else |
| MountainGame.ConsumeItem | src/pages/MountainGame.tsx:256-275 | no stock does nothing; otherwise one fewer of the item and 10/20/30 stamina, capped at 100 |
| MountainGame.RescueClimber | src/pages/MountainGame.tsx:303-311 | rescued, not climbing, stamina 50 |
| MountainGame.ResetGame | src/pages/MountainGame.tsx:277-301 | the initial state, keeping experience and the best altitude, with the log restarted |
| MountainGame.InvariantPreserved | src/pages/MountainGame.tsx:113-311 | every transition keeps stamina in 0..100, stock ≥ 0, and isClimbing iff climbing |
| MountainGame.RecordsNeverDecrease | src/pages/MountainGame.tsx:113-311 | no transition lowers experience or the best altitude |
| MountainGame.SummitRecorded | src/pages/MountainGame.tsx:178-187 | reaching the summit records the target altitude and adds target/10 experience |
| MountainGame.Game.PurchaseEquipment | src/pages/MountainGame.tsx:113-124 | the state becomes Purchase of the old state |
| MountainGame.Game.StartClimbingOn | src/pages/MountainGame.tsx:137-157 | the state becomes StartClimbing of the old state |
| MountainGame.Game.Climb | src/pages/MountainGame.tsx:159-197 | the state becomes ClimbStep of the old state, for a gain in 50..150 |
| MountainGame.Game.HandleRandomEvent | src/pages/MountainGame.tsx:199-254 | the state becomes RandomEvent of the old state |
| MountainGame.Game.Consume | src/pages/MountainGame.tsx:256-275 | the state becomes ConsumeItem of the old state |
| MountainGame.Game.Rescue | src/pages/MountainGame.tsx:303-311 | the state becomes RescueClimber of the old state |
| MountainGame.Game.Reset | src/pages/MountainGame.tsx:277-301 | the state becomes ResetGame of the old state, with experience and best altitude kept |
| LifePlan.AddEach | src/pages/LifePlan.tsx:291-307 | the forEach add loop appends the items not yet present, in order |
| LifePlan.MergeInto | src/pages/LifePlan.tsx:291-307 | one list is the Set of base, condition, support and goal items in first-occurrence order |
| LifePlan.MergedMeaning | src/pages/LifePlan.tsx:291-307 | the merged list is duplicate-free, holds exactly the base and extra items, and keeps a duplicate-free base as a prefix |
| LifePlan.BuildSimulationPlan | src/pages/LifePlan.tsx:281-310 | the method computes the plan function |
| LifePlan.SimulationPlanMeaning | src/pages/LifePlan.tsx:290-308 | phase i keeps every field but actions and watch points, which are the merged lists |
| LifePlan.GlobalWatchPointsMeaning | src/pages/LifePlan.tsx:648-651 | duplicate-free, and holding exactly the watch points of some phase |
| LifePlan.BuildScenarioHighlights | src/pages/LifePlan.tsx:312-350 | exactly three highlights, one per dimension, in order |
| LifePlan.NonEmpty | src/pages/LifePlan.tsx:374 | keeps exactly the non-empty strings |
| LifePlan.BuildAiGuidance | src/pages/LifePlan.tsx:352-383 | exactly three prompts built from the choices; the reminders are the disclaimer and the support note when non-empty; the nudges are the fixed record-sharing nudge and the condition and goal notes when non-empty |
| LifePlan.ToggleTask | src/pages/LifePlan.tsx:575-589 | flips only the matching task of the matching period |
| LifePlan.ToggleTaskTwice | src/pages/LifePlan.tsx:575-589 | toggling twice restores the periods |
| LifePlan.UpdateTaskNotes | src/pages/LifePlan.tsx:591-607 | rewrites only the matching task's notes |
| LifePlan.UpdateTaskNotesLastWins | src/pages/LifePlan.tsx:591-607 | the second write wins, and completion is never touched |
| LifePlan.CalculateProgress | src/pages/LifePlan.tsx:635-641 | 0 for no tasks; otherwise round(100·done/total), within 0..100 |
| LifePlan.ProgressGrowsWhenCompleting | src/pages/LifePlan.tsx:575-641 | ticking an open task never lowers the progress |
| RecipeManager.AddIngredient | src/pages/RecipeManager.tsx:84-98 | appended, and the draft cleared, only when name and amount are both non-empty |
| RecipeManager.RemoveIngredient | src/pages/RecipeManager.tsx:100-105 | exactly the ingredients with other ids remain |
| RecipeManager.AddStep | src/pages/RecipeManager.tsx:107-121 | a non-empty instruction becomes step number count+1, with time 0 stored as absent |
| RecipeManager.Renumber | src/pages/RecipeManager.tsx:124-126 | steps[i].order = i+1, with nothing else changed |
| RecipeManager.RemoveStep | src/pages/RecipeManager.tsx:123-130 | the other steps, in order, renumbered 1..n |
| RecipeManager.RemoveStepShortens | src/pages/RecipeManager.tsx:123-130 | removing a present step shortens the list |
| RecipeManager.AddTag | src/pages/RecipeManager.tsx:132-140 | an empty or present tag leaves form and tag input alone; otherwise it is appended and the tag input is cleared |
| RecipeManager.RemoveTag | src/pages/RecipeManager.tsx:142-147 | every copy of the tag goes |
| RecipeManager.TagsStayDistinct | src/pages/RecipeManager.tsx:132-147 | both tag editors keep the tags duplicate-free |
| RecipeManager.RecipeFrom | src/pages/RecipeManager.tsx:155-169 | an empty category becomes その他; an edited recipe keeps its id and createdAt |
| RecipeManager.SaveRecipe | src/pages/RecipeManager.tsx:149-179 | no title, ingredient or step changes nothing; otherwise replace by id when editing, else append, then reset the form |
| RecipeManager.DeleteRecipe | src/pages/RecipeManager.tsx:181-186 | once confirmed, exactly the recipes with other ids remain |
| RecipeManager.SaveThenDelete | src/pages/RecipeManager.tsx:149-186 | saving a new recipe and deleting its fresh id restores the list |
| RecipeManager.Kept | src/pages/RecipeManager.tsx:213-220 | a recipe is kept iff search, category and difficulty all match |
| RecipeManager.ViewMeaning | src/pages/RecipeManager.tsx:212-233 | the view is a permutation of the kept recipes, ordered by title collation ascending, cook time ascending, rating descending or creation time newest first, as chosen |
| RecipeManager.CookTimeAscending | src/pages/RecipeManager.tsx:225-226 | the cookTime sort is ascending |
| RecipeManager.RatingDescending | src/pages/RecipeManager.tsx:227-228 | the rating sort is descending, with a missing rating counted as 0 |
| RecipeManager.TitleAscending | src/pages/RecipeManager.tsx:223-224 | the title sort is ascending in the collation order |
| RecipeManager.CreatedAtDescending | src/pages/RecipeManager.tsx:229-231 | the createdAt sort lists the newest recipe first |
| RecipeManager.NoFilterShowsAll | src/pages/RecipeManager.tsx:212-220 | with both filters 'all' and an empty query, every recipe is shown |
| ExpoTips.ToggleCategory | src/pages/ExpoTips.tsx:304-306 | the category's membership flips and nothing else changes |
| ExpoTips.ToggleTimeSlot | src/pages/ExpoTips.tsx:308-310 | the time slot's membership flips |
| ExpoTips.ToggleBookmark | src/pages/ExpoTips.tsx:312-314 | the bookmark's membership flips |
| ExpoTips.ToggleChecklistItem | src/pages/ExpoTips.tsx:316-318 | the checklist item's membership flips |
| ExpoTips.TogglesKeepDistinct | src/pages/ExpoTips.tsx:304-318 | the lists stay duplicate-free, and a double toggle of an absent id restores them |
| ExpoTips.AddCategory | src/pages/ExpoTips.tsx:642-645 | the shortcut adds a category only when absent |
| ExpoTips.ResetFilters | src/pages/ExpoTips.tsx:699-704 | both filter sets are cleared, bookmarks-only is off and 'priority' is restored; bookmarks and checklist are kept |
| ExpoTips.WithBookmarks | src/pages/ExpoTips.tsx:320-325 | each tip carries whether its id is bookmarked |
| ExpoTips.FilteredTipsMeaning | src/pages/ExpoTips.tsx:327-336 | a tip is listed iff it passes the bookmark, category and time-slot filters, each empty set passing all |
| ExpoTips.PriorityOrder | src/pages/ExpoTips.tsx:338-359 | the 'priority' sort orders by the category's priority index |
| ExpoTips.TimeOrder | src/pages/ExpoTips.tsx:338-359 | the 'time' sort orders by estimated minutes, ascending |
| ExpoTips.TipStats | src/pages/ExpoTips.tsx:362-368 | highEnergy, morningFocus and bookmarkedCount never exceed the total |
| ExpoTips.OnlyBookmarksCounted | src/pages/ExpoTips.tsx:327-368 | with bookmarks-only on, every listed tip is counted as bookmarked |
| ExpoTips.ChecklistProgress | src/pages/ExpoTips.tsx:370 | within 0..100 while at most five items are ticked |
| ExpoTips.RouteCompletion | src/pages/ExpoTips.tsx:372-377 | 0 without segments; otherwise the rounded share of segments whose tips are all bookmarked |
| ExpoTips.RouteCompletionMonotone | src/pages/ExpoTips.tsx:372-377 | more bookmarks never lower a route's completion |
| ExpoWaitTime.UpdateWaitTimes | src/pages/ExpoWaitTime.tsx:126-132 | maintenance pavilions are unchanged; the others get max(0, w + delta) |
| ExpoWaitTime.UpdateKeepsBounds | src/pages/ExpoWaitTime.tsx:126-132 | wait times stay ≥ 0, identities and order are kept, and each moves by at most 10 |
| ExpoWaitTime.ListedIff | src/pages/ExpoWaitTime.tsx:165-169 | listed iff the category filter is 'all' or equal, and priority-only is off or access exists |
| ExpoWaitTime.SortOrders | src/pages/ExpoWaitTime.tsx:170-182 | 'waitTime' is ascending, and 'popularity' goes very-high, high, medium, low |
| ExpoWaitTime.WaitTimeBand | src/pages/ExpoWaitTime.tsx:147-152 | red iff ≥ 120, orange iff 60..119, yellow iff 30..59, green iff < 30 |
| ExpoWaitTime.BandMonotone | src/pages/ExpoWaitTime.tsx:147-152 | a longer wait never shows a calmer colour |
| StationGuide.CurrentTimeString | src/pages/StationGuide.tsx:139 | zero-padded "HH:MM" reading back as 60h+m minutes |
| StationGuide.AllDayAlwaysOpen | src/pages/StationGuide.tsx:138 | a 24時間 facility is open at every minute |
| StationGuide.OpenIffWithinHours | src/pages/StationGuide.tsx:139-141 | with HH:MM hours, open iff opening minute ≤ now ≤ closing minute |
| StationGuide.LateCloseNeverPassed | src/pages/StationGuide.tsx:139-141 | a close at 24:00 or later is never passed before midnight |
| StationGuide.IsOpenFlagIgnored | src/pages/StationGuide.tsx:137-142 | the stored isOpen flag does not affect the answer |
| StationGuide.FilteredFacilities | src/pages/StationGuide.tsx:109-115 | kept iff the floor matches, the category is 'all' or equal, and the folded query occurs in name or description |
| StationGuide.EmptyQueryShowsFloor | src/pages/StationGuide.tsx:109-115 | an empty query with 'all' keeps the whole floor, in order |
| JobHunting.ToggleHandoverTask | src/pages/JobHunting.tsx:105-109 | flips completed only for tasks with that id |
| JobHunting.ToggleFunActivity | src/pages/JobHunting.tsx:111-115 | flips completed only for activities with that id |
| JobHunting.ToggleTwice | src/pages/JobHunting.tsx:105-115 | a double toggle restores either list |
| JobHunting.TickCompletesOne | src/pages/JobHunting.tsx:105-109 | ticking an open task with a unique id completes exactly one more task |
| JobHunting.Progress | src/pages/JobHunting.tsx:117-118 | no value (NaN) iff the list is empty; otherwise within 0..100, 0 when none is done and 100 when all are |
| JobHunting.AllDoneIsFull | src/pages/JobHunting.tsx:117 | all handover tasks done gives 100 |
| JobHunting.NoneDoneIsZero | src/pages/JobHunting.tsx:118 | no fun activity done gives 0 |
| JobHunting.TickRaisesProgress | src/pages/JobHunting.tsx:105-117 | ticking an open, uniquely named task never lowers the progress |
| JobHunting.CountStatuses | src/pages/JobHunting.tsx:205-220 | the three counters are disjoint, so they sum to at most the number of companies |
| JobHunting.CountersCoverOpenCompanies | src/pages/JobHunting.tsx:205-220 | without rejected or declined companies, the counters sum to exactly the number of companies |
| Reunion.HandleSubmit | src/pages/Reunion.tsx:34-61 | an empty name or email changes nothing and alerts; otherwise one attendee with the form's fields is appended at the end and the form is reset to empty, 'attending' |
| Reunion.AttendanceCounts | src/pages/Reunion.tsx:89-91 | the three counts sum to the number of attendees |
| Reunion.SubmitCounts | src/pages/Reunion.tsx:34-91 | a successful submit raises exactly the counter of the submitted status by one |
| Reunion.SubmitKeepsEarlierAnswers | src/pages/Reunion.tsx:47-49 | earlier answers are never lost |

## Left out

- Local-storage reads and writes and JSON (de)serialisation on every page. The state is modelled in memory. Where a class page loads a stored list on mount (browsing history, pedometer records, ring-counter sessions), that list is a constructor argument.
- Timer scheduling (`setInterval` / `clearInterval`). Each tick body is a method or function.
- `Math.random`, `Date.now()` and `new Date()` are parameters:
  - the shuffle's swap indices;
  - generated ids and ISO timestamps;
  - the mountain altitude gain;
  - the random-event draws;
  - the wait-time deltas;
  - the clock of the station guide;
  - the timestamps in milliseconds of browsing history.
- The browsing history's today/yesterday/week date filter and todayStats depend on the calendar and are not modelled. Only the 'all' filter with search is.
- The export-to-file download of the browsing history is browser I/O and is not modelled.
- Floating-point estimates are not modelled: distance, calories and pace in the pedometer and lap counter, the steps-per-km constant, and weekly totals and averages. `Math.round` of a ratio is exact half-up rounding of rationals, so float tie artefacts are not modelled. The mountain altitude is a `real` and is not rounded.
- `localeCompare` and `toLowerCase` are parameters: a collation-key function and a text-folding function. Substring matching on the folded strings is modelled exactly.
- `window.confirm` is a boolean input. `alert` texts are not modelled beyond which alert fires.
- Error and log texts are enum constructors, not the Japanese strings. The life-plan adjustment tables, option texts and highlight sentences are inputs or tags.
- Display lookups are not modelled: colours, icons and status texts. JSX rendering, routing, src/App.tsx, src/pages/Home.tsx, src/pages/About.tsx and src/components/ContributionHistory.tsx are display only.
- src/utils/contributionLogger.ts is file-system plumbing, and src/pages/SchoolYear.tsx is a static table. Neither is part of this model.
- The bingo coverage statistics and the recent-calls strip are display summaries and are not modelled.
- The ExpoTips top tip is a display summary and is not modelled.
- The pedometer's updateSettings and updateSession are plain field overwrites and are not modelled.
- The life plan's selected-task and notes editor state is not modelled.
- React batching and stale closures are not modelled. Every handler runs sequentially on the current state. For example, climbStep reads `gameState`, and the model applies it to the current state.
- ExpoFinal.TotalWorkTime: does not model fractional inputs. Task durations are integers, but the form reads them with `Number` (src/pages/ExpoFinal.tsx:406), so a typed 1.5 would give fractional minutes in the total. The same integer typing holds for the recipe's cookTime, servings, rating and step time (src/pages/RecipeManager.tsx:516, 525, 533, 638) and for the pedometer's dailyTarget (src/pages/ExpoPedometer.tsx:443) used by the completion and streak. Fractional `Number` values in these fields are not modelled.
- ExpoFinal.CalculateOptimalWakeTime: requires every start time to be an "HH:MM" clock string. The source would parse other strings with `Number` and could print NaN.
- ExpoTips.PriorityOrder: states only the first level of the three-level comparator. The time-slot and duration tie-breaks are in the sort key but are not restated as a lemma.
- MountainGame.Game.Climb: requires the gain to be in the range that `Math.random() * 100 + 50` produces.
- Pedometer.Ticked: does not model the floating-point accumulation of `tempo / 60` per tick. Steps are counted exactly in sixtieths, so a float rounding that would move the floored step count is not reproduced.
- Bingo cells typed by hand hold `real` values, because `Number` can yield fractions. Stated validity is about that range, not about integrality.

## Findings

| source | as written | input that shows it | evidently intended | confidence | as-written member | corrected member |
|---|---|---|---|---|---|---|
| src/pages/BingoVerifier.tsx:153-157 | `numbers.find(value => value < 1 \|\| value > 75)` returns the value found, and `if (outOfRange)` treats a found 0 as false | the 24 numbers 0 2 3 … 24: distinct and numeric, but 0 is outside 1..75 and the card is accepted | reject any value outside 1..75 | not executed | Bingo.ZeroSlipsThroughExample | Bingo.Validate |
