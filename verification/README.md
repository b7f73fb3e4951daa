# Ritual: a verified model of the habit tracker's scoring, streaks and forms

Ritual is a daily habit tracker. Users log steps, completed workout exercises and
the junk food they ate, earn points for the day, and keep a streak of active
days. This project models the parts of Ritual that compute something, in Dafny,
and proves what those computations promise.

- **Daily score on the dashboard** (`DashboardPage`, `dashboard.dfy`).
  - A tiered step score: nothing below 6000 steps, 30 at 6000, 5 more per full
    thousand, at most 50.
  - 20 points per completed exercise.
  - A per-item junk deduction taken from a fixed penalty table.
  - The net score, clamped at 0, and the low/medium/high impact label.
  - The page state changed by the toggle, add and remove handlers and by "Save Day".
- **The older dashboard** (`ProDashboardPage`, `pro_dashboard.dfy`). It uses a flat
  step rule (10 points per full thousand, no cap) and starts from fixed initial
  figures.
- **Server points rule** (`PointsRule`, `points_rule.dfy`). Steps earn 10, 20 or 30
  points, and every unit of junk beyond the allowance costs 5 points.
- **Server streak record** (`StreakTracker`, `streak_tracker.dfy`). `update_streak`
  is modelled both as a function and as a class whose fields it updates. Replaying
  consecutive days is proved to match the batch streak statistics.
- **Junk allowance lookup** (`JunkLimits`, `junk_limits.dfy`) and **daily activity
  logging** (`ActivityLog`, `activity_log.dfy`).
  - Logging rejects a second log for the same day.
  - It stores the computed points.
  - It feeds the day's activity flag to the streak record.
- **Harm-level tables and the junk food catalogue** (`HarmLevels`, `JunkMenu`).
- **The junk intake log page** (`JunkIntakePage`, `junk_intake.dfy`): today's
  penalty, adding and removing entries, clearing today, quantities, the impact
  filter, the category list and the impact sentence.
- **Streak statistics and the year calendar of the older streaks page**
  (`StreakHistory`, `streak_history.dfy`): current and highest streak, weeks,
  month labels and cell colours.
- **The month calendar page** (`StreakCalendarPage`, `streak_calendar.dfy`): the
  Monday-first month grid, month and quarter navigation, cell classes and the
  encouragement line.
- **Sign-up validation** (`RegisterForm`) and **the profile page** (`ProfilePage`):
  plan editing, merging the fetched plan, and avatar initials.

`Seqs` holds the generic sequence functions: `Filter`, `Sum` as a left fold,
`Flatten` and `Repeat`, with their lemmas. `Wrappers` holds `Option` and `Result`.

React state becomes a class whose methods change its fields. Each such method is
proved against a pure function, and the promises are proved about that function.
Loops in the source stay loops with invariants: the two passes of
`calculateStreakStats`, the week chunking, `monthLabels` and the four loops of
`getMonthCalendar`. The clock is always a parameter: today's date prefix, the
timestamp, `Date.now()`, the weekday of the 1st, the month length and the date
text of each day.

## Model

| member | source | states |
|---|---|---|
| DashboardPage.CalculateStepPoints | frontend/src/pages/Dashboard.tsx:67-73 | 0 below 6000 steps, at least 30 from 6000, exactly 50 from 10000, always a multiple of 5 in 0..50 |
| DashboardPage.StepPointsPerThousand | frontend/src/pages/Dashboard.tsx:67-73 | between 6000 and 10000 steps, k full thousands above 6000 give exactly 30 + 5k |
| DashboardPage.StepPointsMonotonic | frontend/src/pages/Dashboard.tsx:67-73 | more steps never lower the step score |
| DashboardPage.WorkoutPoints | frontend/src/pages/Dashboard.tsx:84 | 20 points for each completed exercise; its range and extremes are stated by the two lemmas below |
| DashboardPage.WorkoutPointsRange | frontend/src/pages/Dashboard.tsx:84 | the workout score is a multiple of 20 between 0 and 20 per listed exercise |
| DashboardPage.WorkoutPointsExtremes | frontend/src/pages/Dashboard.tsx:84 | top score if and only if every exercise is completed; 0 if and only if none is |
| DashboardPage.JunkPenalty | frontend/src/pages/Dashboard.tsx:86-97 | an id in the penalty table deducts its table value, any other id deducts 0; always in 0..30 |
| DashboardPage.PointsDeducted | frontend/src/pages/Dashboard.tsx:95-98 | the penalties of the selected ids summed in selection order, each occurrence counted; its bounds and updates are stated by the lemmas below |
| DashboardPage.PointsDeductedBounds | frontend/src/pages/Dashboard.tsx:95-98 | the deduction is between 0 and 30 per selected item |
| DashboardPage.PointsDeductedAppend | frontend/src/pages/Dashboard.tsx:95-98 | selecting one more item adds exactly its penalty, so duplicates count again |
| DashboardPage.NetPoints | frontend/src/pages/Dashboard.tsx:100-101 | the net score is never negative, never below gained minus deducted, and is one of the two |
| DashboardPage.JunkImpactOf | frontend/src/pages/Dashboard.tsx:296-302 | low if and only if the deduction is 0, high if and only if it is at least 50, medium otherwise |
| DashboardPage.JunkImpactRanges | frontend/src/pages/Dashboard.tsx:296-302 | for any selection, the label is low, medium or high on the deduction ranges 0, 1..49 and 50 and above |
| DashboardPage.RemoveAll | frontend/src/pages/Dashboard.tsx:239-240 | the removed id no longer occurs, and every other id keeps its count |
| DashboardPage.PointsDeductedRemoveAll | frontend/src/pages/Dashboard.tsx:239-240 | removing an id lowers the deduction by its penalty times its number of copies |
| DashboardPage.ButtonSelectionDeduction | frontend/src/components/dashboard/JunkTracker.tsx:18-23 | with the four dashboard buttons, only pizza is in the penalty table, so the deduction is 25 per pizza |
| DashboardPage.ToggleById | frontend/src/pages/Dashboard.tsx:219-223 | the toggled list has as many exercises as before; its effect is stated by `ToggleByIdEffect` |
| DashboardPage.ToggleByIdEffect | frontend/src/pages/Dashboard.tsx:219-223 | toggling flips `completed` exactly where the id matches, keeps ids and names, and toggling twice restores the list |
| DashboardPage.ToggleOneWorkoutPoints | frontend/src/pages/Dashboard.tsx:219-225 | toggling the only exercise with an id moves the workout score by exactly 20, up or down |
| DashboardPage.Dashboard.constructor | frontend/src/pages/Dashboard.tsx:32-46 | the stored step count is both the edited and the saved count; the lists are empty and today's points are 0 |
| DashboardPage.Dashboard.StepPoints | frontend/src/pages/Dashboard.tsx:76-82 | the inline copy of the step formula, applied to the saved count, always equals `calculateStepPoints` of that count, so it lies in 0..50 |
| DashboardPage.Dashboard.PointsGained | frontend/src/pages/Dashboard.tsx:100 | the step score of the saved count plus the workout score |
| DashboardPage.Dashboard.FinalPoints | frontend/src/pages/Dashboard.tsx:76-101 | the displayed score is never negative and never more than the points gained |
| DashboardPage.Dashboard.SetStepCount | frontend/src/pages/Dashboard.tsx:263 | only the edited step count changes |
| DashboardPage.Dashboard.ToggleExercise | frontend/src/pages/Dashboard.tsx:219-234 | the exercises become the toggled list and nothing else changes |
| DashboardPage.Dashboard.AddJunk | frontend/src/pages/Dashboard.tsx:236-237 | the id is appended, and the deduction grows by exactly its penalty |
| DashboardPage.Dashboard.RemoveJunk | frontend/src/pages/Dashboard.tsx:239-240 | every copy of the id is removed and nothing else changes |
| DashboardPage.Dashboard.SubmitSteps | frontend/src/pages/Dashboard.tsx:176-214 | if posting the steps fails nothing changes; otherwise the edited count becomes the saved count; today's points change only when saving the workout also succeeds, and then they equal the score shown, computed from the edited count |
| ProDashboardPage.FlatStepPoints | ritual-tracker-pro/src/pages/Dashboard.tsx:42 | a multiple of 10 that counts the full thousands of steps |
| ProDashboardPage.FlatStepPointsUncapped | ritual-tracker-pro/src/pages/Dashboard.tsx:42 | the flat rule has no cap: every bound is exceeded by some step count |
| ProDashboardPage.FlatNeverBelowTiered | ritual-tracker-pro/src/pages/Dashboard.tsx:42 | for step counts that are not negative, the flat rule never scores below the tiered rule; at 6000 steps they give 60 and 30 |
| ProDashboardPage.ProDashboard.constructor | ritual-tracker-pro/src/pages/Dashboard.tsx:15-25 | the page opens with 8500 steps, the four initial exercises and no junk |
| ProDashboardPage.ProDashboard.PointsGained | ritual-tracker-pro/src/pages/Dashboard.tsx:42-44 | the flat step score plus the workout score |
| ProDashboardPage.ProDashboard.TotalPoints | ritual-tracker-pro/src/pages/Dashboard.tsx:44-59 | the total is never negative and never above the points gained |
| ProDashboardPage.ProDashboard.Impact | ritual-tracker-pro/src/pages/Dashboard.tsx:54-67 | the dashboard's low/medium/high label applied to the deduction, whose ranges `JunkImpactOf` states |
| ProDashboardPage.ProDashboard.SetStepCount | ritual-tracker-pro/src/pages/Dashboard.tsx:15 | only the step count changes |
| ProDashboardPage.ProDashboard.ToggleExercise | ritual-tracker-pro/src/pages/Dashboard.tsx:27-31 | the exercises become the toggled list and nothing else changes |
| ProDashboardPage.ProDashboard.AddJunk | ritual-tracker-pro/src/pages/Dashboard.tsx:33-35 | the id is appended and nothing else changes |
| ProDashboardPage.ProDashboard.RemoveJunk | ritual-tracker-pro/src/pages/Dashboard.tsx:37-39 | every copy of the id is removed and nothing else changes |
| ProDashboardPage.InitialWorkoutPoints | ritual-tracker-pro/src/pages/Dashboard.tsx:18-23 | two of the four initial exercises are completed, which is worth 40 points |
| ProDashboardPage.InitialFigures | ritual-tracker-pro/src/pages/Dashboard.tsx:42-67 | the first screen shows 80 step points, a total of 120 and low impact |
| PointsRule.CalculatePoints | backend/utils/points.py:1-21 | at most 30, a multiple of 5, and not negative when junk is within the allowance |
| PointsRule.StepTiers | backend/utils/points.py:8-14 | within the allowance, 30, 20, 10 and 0 points each hold exactly on their step ranges |
| PointsRule.ExcessCostsFive | backend/utils/points.py:16-19 | each unit of junk beyond the allowance costs exactly 5 points |
| PointsRule.CanBeNegative | backend/utils/points.py:16-21 | nothing clamps the result: no steps and one unit over the allowance give -5 |
| PointsRule.Monotonic | backend/utils/points.py:1-21 | more steps and a larger allowance never lower the result, and more junk never raises it |
| StreakTracker.Update | backend/utils/streaks.py:4-25 | the last active date becomes the logged date; the longest streak never shrinks; an inactive day resets the current streak; an active day makes the longest streak the larger of the old longest and the new current |
| StreakTracker.ActiveDayCases | backend/utils/streaks.py:14-19 | an active day gives 1 for the first log, one more on the next day, 1 after a gap, and no change for a day not later than the last one |
| StreakTracker.UpdateKeepsValid | backend/utils/streaks.py:9-25 | the initial record satisfies 0 <= current <= longest, and every update keeps it |
| StreakTracker.OutOfOrderLogs | backend/utils/streaks.py:16-25 | a day logged out of order moves the last date back: active days 10, 5 and 6 leave a current streak of 2 |
| StreakTracker.Replay | backend/utils/streaks.py:4-25 | the record after logging consecutive days with the given flags, oldest first, from a new record |
| StreakTracker.ReplayMatchesBatch | backend/utils/streaks.py:4-25 | logging consecutive days one at a time gives the trailing run as the current streak and the longest run as the longest streak |
| StreakTracker.Streak.constructor | backend/crud/users.py:16-21 | a new record has both streaks 0 and no last active date |
| StreakTracker.Streak.UpdateStreak | backend/utils/streaks.py:4-25 | the record's fields become `Update` of the old record, and the streak invariant is kept |
| JunkLimits.FirstMatch | backend/crud/junk.py:12-15 | the first row of that user and junk type, and none exactly when no row matches |
| JunkLimits.GetMaxAllowedJunk | backend/crud/junk.py:4-17 | 0 for a missing or empty type or when no row matches; otherwise the first matching row's maximum |
| JunkLimits.OtherRowsIrrelevant | backend/crud/junk.py:12-17 | a row of another user or junk type, wherever it sits, does not change the answer |
| ActivityLog.Logged | backend/crud/activity.py:13-17 | some row records this user on this date |
| ActivityLog.IsActive | backend/crud/activity.py:46 | enough steps (5000 or more), or junk within the allowance |
| ActivityLog.NoJunkIsActive | backend/crud/activity.py:46 | a day with no junk logged always counts as active |
| ActivityLog.InactiveDayScoresNegative | backend/crud/activity.py:26-46 | an inactive day always scores below zero |
| ActivityLog.ActivityDb.constructor | backend/crud/activity.py:8-12 | the table starts empty, with the given limits and streak records |
| ActivityLog.ActivityDb.LogDailyActivity | backend/crud/activity.py:8-52 | a duplicate date gives an error and changes nothing; a user without a streak record gives an error and changes nothing; otherwise the row with the computed points is appended, the user's streak becomes `Update` with the activity flag, and the streak invariant is kept |
| HarmLevels.RuleFor | frontend/src/data/junkHelpers.ts:22-27 | a level has a rule exactly when it is 0..3, and that rule is the table entry |
| HarmLevels.UiFor | frontend/src/data/junkHelpers.ts:3-20 | a level has a colour and badge exactly when it has a rule |
| HarmLevels.TablesCoverLevels | frontend/src/data/junkHelpers.ts:3-27 | both tables define exactly the levels 0 to 3 |
| HarmLevels.LevelZeroCostsNothing | frontend/src/data/junkHelpers.ts:23 | level 0 is free without limit and costs nothing |
| HarmLevels.RulesOrdered | frontend/src/data/junkHelpers.ts:22-27 | a higher level has a strictly higher penalty and no larger free allowance |
| HarmLevels.BadgesDistinct | frontend/src/data/junkHelpers.ts:3-20 | each level has its own badge |
| JunkMenu.LevelsCovered | frontend/src/data/junkMenu.ts:4-21 | the catalogue describes exactly the levels that the rule table covers |
| JunkMenu.EveryFoodHasRule | frontend/src/data/junkMenu.ts:23-263 | every food's level is 0..3, so every food has a harm-level rule |
| JunkMenu.FoodIdsDistinct | frontend/src/data/junkMenu.ts:23-263 | no two foods share an id |
| JunkMenu.OnlyIdliDosaIsLevelZero | frontend/src/data/junkMenu.ts:248-261 | idli / dosa is the only level 0 food, and its frequency is "Unlimited" |
| JunkMenu.LevelThreeFoods | frontend/src/data/junkMenu.ts:138-179 | the level 3 foods are exactly regular coke and packaged chips |
| JunkIntakePage.DatabaseFacts | frontend/src/pages/JunkIntake.tsx:35-116 | item ids are distinct, penalties are positive, and items also in the dashboard's table carry the same penalty there |
| JunkIntakePage.TodaysPenalty | frontend/src/pages/JunkIntake.tsx:129-135 | penalty times quantity summed over the entries whose timestamp starts with today's date; its properties are stated by the three lemmas below |
| JunkIntakePage.TodaysPenaltyAppend | frontend/src/pages/JunkIntake.tsx:129-135 | a new entry adds its penalty times quantity when it is from today, and nothing otherwise |
| JunkIntakePage.OtherDaysContributeNothing | frontend/src/pages/JunkIntake.tsx:129-135 | entries from other days never change today's penalty |
| JunkIntakePage.TodaysPenaltyNonNegative | frontend/src/pages/JunkIntake.tsx:129-135 | with no negative penalty or quantity, today's penalty is not negative |
| JunkIntakePage.ClampQuantity | frontend/src/pages/JunkIntake.tsx:404-411 | the quantity is at least 1; a parsed value of 1 or more is kept; anything else gives 1 |
| JunkIntakePage.QuantityOf | frontend/src/pages/JunkIntake.tsx:138 | the chosen quantity, or 1 when none or 0 was stored |
| JunkIntakePage.FilteredDatabase | frontend/src/pages/JunkIntake.tsx:176-179 | the whole database for "all", otherwise the database filtered by impact in database order |
| JunkIntakePage.FilteredDatabaseContents | frontend/src/pages/JunkIntake.tsx:176-179 | "all" shows the whole database; an impact shows exactly the items with that impact, each as often as in the database |
| Seqs.Distinct | frontend/src/pages/JunkIntake.tsx:172 | `[...new Set(s)]`: a value is listed if and only if it occurs, and no value twice |
| JunkIntakePage.Categories | frontend/src/pages/JunkIntake.tsx:172 | a category is listed if and only if some item has it, and no category is listed twice |
| Seqs.DistinctKeepsFirstAppearanceOrder | frontend/src/pages/JunkIntake.tsx:172 | the listed values keep the order in which they first occur |
| JunkIntakePage.ImpactMessageFor | frontend/src/pages/JunkIntake.tsx:465-469 | high above 100, moderate in 51..100, low at 50 or below, each if and only if |
| JunkIntakePage.MessageText | frontend/src/pages/JunkIntake.tsx:465-469 | the sentence shown for each impact level |
| JunkIntakePage.JunkIntake.constructor | frontend/src/pages/JunkIntake.tsx:119-125 | the page starts from the saved log, no chosen quantities and the "all" filter |
| JunkIntakePage.JunkIntake.AddJunk | frontend/src/pages/JunkIntake.tsx:137-153 | an entry with id `now-itemId`, the item's penalty and the chosen quantity is appended; that quantity resets to 1; stored quantities stay at least 1 |
| JunkIntakePage.JunkIntake.RemoveJunk | frontend/src/pages/JunkIntake.tsx:155-161 | no entry with that id remains, and every other entry keeps its count |
| JunkIntakePage.JunkIntake.ClearToday | frontend/src/pages/JunkIntake.tsx:163-170 | entries from other days keep their count, and today's penalty becomes 0 |
| JunkIntakePage.JunkIntake.SetQuantity | frontend/src/pages/JunkIntake.tsx:404-411 | the item's quantity becomes the clamped value, and stored quantities stay at least 1 |
| JunkIntakePage.JunkIntake.SetFilterImpact | frontend/src/pages/JunkIntake.tsx:125 | only the filter changes |
| StreakHistory.TrailingRun | ritual-tracker-pro/src/pages/Streaks.tsx:69-76 | the number of completed days at the end of the history, at most its length |
| StreakHistory.LongestRun | ritual-tracker-pro/src/pages/Streaks.tsx:59-67 | the longest completed run, between the trailing run and the length |
| StreakHistory.TrailingRunIsMaximalSuffix | ritual-tracker-pro/src/pages/Streaks.tsx:69-76 | the trailing run is all completed days, and the day before it, if any, is not completed |
| StreakHistory.TrailingRunUnique | ritual-tracker-pro/src/pages/Streaks.tsx:69-76 | a completed suffix preceded by an incomplete day or the start is exactly the trailing run |
| StreakHistory.LongestRunIsUpperBound | ritual-tracker-pro/src/pages/Streaks.tsx:59-67 | no completed run anywhere is longer than the longest run |
| StreakHistory.LongestRunIsAttained | ritual-tracker-pro/src/pages/Streaks.tsx:59-67 | some completed run is exactly as long as the longest run |
| StreakHistory.HighestStreak | ritual-tracker-pro/src/pages/Streaks.tsx:55-67 | the forward pass computes the longest run of completed days |
| StreakHistory.CurrentStreak | ritual-tracker-pro/src/pages/Streaks.tsx:69-76 | the backward pass counts the completed days at the end, stopping at an incomplete day |
| StreakHistory.CalculateStreakStats | ritual-tracker-pro/src/pages/Streaks.tsx:54-82 | highest streak is the longest run and current streak the trailing run; current <= highest <= days; active days are the completed days; points are the sum |
| StreakHistory.StreakStatsEdgeCases | ritual-tracker-pro/src/pages/Streaks.tsx:54-82 | an empty history has no streak; an all-completed history has both streaks equal to its length |
| StreakHistory.Weeks | ritual-tracker-pro/src/pages/Streaks.tsx:94-125 | the rows, read in order, are the padding then every day; each row has 1..7 cells, and all but the last have 7 |
| StreakHistory.FirstDated | ritual-tracker-pro/src/pages/Streaks.tsx:133 | the first cell with a date, which is in the week; none exactly when no cell has a date |
| StreakHistory.LabelsFrom | ritual-tracker-pro/src/pages/Streaks.tsx:128-144 | the labels from week k on, given the month of the last label so far |
| StreakHistory.MonthLabels | ritual-tracker-pro/src/pages/Streaks.tsx:128-144 | the loop emits exactly the labels of the recursive definition |
| StreakHistory.LabelPositions | ritual-tracker-pro/src/pages/Streaks.tsx:128-144 | label positions are week indexes and strictly increase |
| StreakHistory.LabelMonths | ritual-tracker-pro/src/pages/Streaks.tsx:128-144 | each label names the month of its week's first dated cell, and two labels in a row never name the same month |
| StreakHistory.NoLabelBeforeFirst | ritual-tracker-pro/src/pages/Streaks.tsx:128-144 | every week before the first label, or every week when there is none, has no dated cell or one in the month in force |
| StreakHistory.NoLabelBetween | ritual-tracker-pro/src/pages/Streaks.tsx:128-144 | every week after a label, up to the next label or the end, has no dated cell or one in that label's month; with `LabelMonths`, a week gets a label exactly when its first dated cell changes the month |
| StreakHistory.CellClass | ritual-tracker-pro/src/pages/Streaks.tsx:146-151 | invisible, full green, half green or muted, each if and only if its condition holds |
| StreakCalendarPage.WeekStart | frontend/src/pages/Streaks.tsx:94-95 | the Monday-first column of the 1st: Sunday goes to 6, every other day moves back by one |
| StreakCalendarPage.FindFirst | frontend/src/pages/Streaks.tsx:102 | the index of the first entry with the date, none exactly when no entry has it |
| StreakCalendarPage.DayCell | frontend/src/pages/Streaks.tsx:101-105 | the first fetched entry for the date, or an incomplete day with no points |
| StreakCalendarPage.DayCells | frontend/src/pages/Streaks.tsx:100-106 | one cell per day of the month, the cell of day d at index d - 1 |
| StreakCalendarPage.TrailingPadding | frontend/src/pages/Streaks.tsx:107-109 | fewer than 7 blanks, which complete the last week |
| StreakCalendarPage.TrailingPaddingMinimal | frontend/src/pages/Streaks.tsx:107-109 | no shorter padding completes the week |
| StreakCalendarPage.MonthCells | frontend/src/pages/Streaks.tsx:96-109 | the leading blanks, the day cells and the trailing blanks of a month, in order |
| StreakCalendarPage.GetMonthCalendar | frontend/src/pages/Streaks.tsx:91-115 | the weeks, read in order, are the leading blanks, every day's cell and the trailing blanks; every week has 7 cells |
| StreakCalendarPage.LayOutDays | frontend/src/pages/Streaks.tsx:96-109 | the `days` array is the month's cells and fills whole weeks |
| StreakCalendarPage.LeadingBlanks | frontend/src/pages/Streaks.tsx:97-99 | the first loop pushes exactly one blank per column before the 1st |
| StreakCalendarPage.AppendDays | frontend/src/pages/Streaks.tsx:100-106 | the second loop appends exactly the day cells, in day order |
| StreakCalendarPage.PadToWeek | frontend/src/pages/Streaks.tsx:107-109 | the third loop appends exactly the padding blanks, after which the length is a multiple of 7 |
| StreakCalendarPage.CutIntoWeeks | frontend/src/pages/Streaks.tsx:110-114 | slices of 7 that, read in order, give back the array |
| StreakCalendarPage.NextMonth | frontend/src/pages/Streaks.tsx:126-133 | a valid month stays valid and moves exactly one month forward |
| StreakCalendarPage.PrevMonth | frontend/src/pages/Streaks.tsx:117-124 | a valid month stays valid and moves exactly one month back |
| StreakCalendarPage.MonthRoundTrip | frontend/src/pages/Streaks.tsx:117-133 | next then previous, and previous then next, return to the same month |
| StreakCalendarPage.JsRemainder | frontend/src/pages/Streaks.tsx:144-147 | JavaScript's `%`: the remainder for a dividend that is not negative, and a result in -b+1..0 for a negative one |
| StreakCalendarPage.NextRange | frontend/src/pages/Streaks.tsx:146-148 | from any start that is not below -3 the next range start is a month 0..11 |
| StreakCalendarPage.PrevRange | frontend/src/pages/Streaks.tsx:143-145 | from any start that is not below -9 the previous range start is a month 0..11 |
| StreakCalendarPage.QuarterStart | frontend/src/pages/Streaks.tsx:142 | the range starts named beside the state: January, April, July and October |
| StreakCalendarPage.RangeStaysOnQuarter | frontend/src/pages/Streaks.tsx:142-148 | both range moves keep the start on January, April, July or October |
| StreakCalendarPage.RangeNavigation | frontend/src/pages/Streaks.tsx:142-148 | the two range moves undo each other, and four moves forward return to the start |
| StreakCalendarPage.MonthsShown | frontend/src/pages/Streaks.tsx:245 | the slice holds the month names from the start, three of them unless it runs past December |
| StreakCalendarPage.QuarterShowsThreeMonths | frontend/src/pages/Streaks.tsx:239-245 | from a quarter start three months are shown, and the header's last month is the third of them |
| StreakCalendarPage.CellClassOf | frontend/src/pages/Streaks.tsx:135-139 | invisible, success or muted, each if and only if its condition holds |
| StreakCalendarPage.StreakMessageFor | frontend/src/pages/Streaks.tsx:351-356 | "on fire" exactly from 7 days, with the streak length; otherwise the missing days to 7 |
| StreakCalendarPage.StreakCalendarView.constructor | frontend/src/pages/Streaks.tsx:23-25 | the page opens on today's month, with the range at January |
| StreakCalendarPage.StreakCalendarView.HandleNextMonth | frontend/src/pages/Streaks.tsx:126-133 | the selection becomes the next month, one month later, and stays valid |
| StreakCalendarPage.StreakCalendarView.HandlePrevMonth | frontend/src/pages/Streaks.tsx:117-124 | the selection becomes the previous month, one month earlier, and stays valid |
| StreakCalendarPage.StreakCalendarView.HandleNextMonthRange | frontend/src/pages/Streaks.tsx:146-148 | the range start moves forward a quarter and stays a quarter start |
| StreakCalendarPage.StreakCalendarView.HandlePrevMonthRange | frontend/src/pages/Streaks.tsx:143-145 | the range start moves back a quarter and stays a quarter start |
| RegisterForm.ValidateForm | frontend/src/pages/Register.tsx:26-48 | the first failing check in order gives its message; the form is valid if and only if every field is filled, the password has at least 8 characters, the passwords match and the username has at least 3 characters |
| RegisterForm.PasswordRequirements | frontend/src/pages/Register.tsx:67-71 | the checklist has three requirements |
| RegisterForm.AllRequirementsMet | frontend/src/pages/Register.tsx:73 | `every` over the checklist: each requirement is met |
| RegisterForm.ValidationMatchesChecklist | frontend/src/pages/Register.tsx:26-73 | the form is valid if and only if every checklist item is met and an e-mail was entered |
| RegisterForm.ChecklistIgnoresEmail | frontend/src/pages/Register.tsx:67-73 | the checklist can be complete while the form is still rejected for a missing e-mail |
| ProfilePage.DefaultPlanCoversWeek | frontend/src/pages/Profile.tsx:24-57 | the initial plan has exactly the seven days of the week |
| ProfilePage.AddExerciseTo | frontend/src/pages/Profile.tsx:135-143 | the day's list gains one empty exercise at the end; the other days are untouched |
| ProfilePage.UpdateExerciseIn | frontend/src/pages/Profile.tsx:145-156 | only the entry at the index changes; the other days are untouched |
| ProfilePage.WithoutIndex | frontend/src/pages/Profile.tsx:163 | the list without the entry at the index, with order kept, or the same list when the index is out of range |
| ProfilePage.RemoveExerciseFrom | frontend/src/pages/Profile.tsx:158-166 | the day's list loses its entry at the index; the other days are untouched |
| ProfilePage.AddThenRemove | frontend/src/pages/Profile.tsx:135-166 | adding an exercise and removing the new last one restores the plan |
| ProfilePage.MergeFetched | frontend/src/pages/Profile.tsx:90-92 | an absent or empty fetched plan changes nothing; otherwise fetched days win and the other days stay |
| ProfilePage.MergeKeepsWeek | frontend/src/pages/Profile.tsx:90-92 | merging never loses a day of the week |
| ProfilePage.Split | frontend/src/pages/Profile.tsx:122 | at least one piece, and no piece holds a space |
| ProfilePage.JoinSplit | frontend/src/pages/Profile.tsx:122 | joining the pieces with single spaces gives back the name |
| ProfilePage.Heads | frontend/src/pages/Profile.tsx:123-124 | the first character of each piece, nothing for an empty piece |
| ProfilePage.WordStarts | frontend/src/pages/Profile.tsx:122-124 | the reference definition: the characters that are not a space and come first or after a space |
| ProfilePage.HeadsAreWordStarts | frontend/src/pages/Profile.tsx:122-124 | the first characters of the pieces are exactly the characters that start a word |
| ProfilePage.UpperChar | frontend/src/pages/Profile.tsx:125 | lower-case ASCII letters become upper case, other characters are unchanged |
| ProfilePage.Upper | frontend/src/pages/Profile.tsx:125 | the same length, each character upper-cased |
| ProfilePage.Initials | frontend/src/pages/Profile.tsx:120-125 | never empty; "U" without a user name or without any word; otherwise the upper-cased word starts |
| ProfilePage.Profile.constructor | frontend/src/pages/Profile.tsx:45-57 | the page opens on Monday with the default plan |
| ProfilePage.Profile.SelectDay | frontend/src/pages/Profile.tsx:45 | only the selected day changes |
| ProfilePage.Profile.AddExercise | frontend/src/pages/Profile.tsx:135-143 | the plan becomes `AddExerciseTo` for the selected day, and the week stays covered |
| ProfilePage.Profile.UpdateExercise | frontend/src/pages/Profile.tsx:145-156 | the plan becomes `UpdateExerciseIn` for the selected day, and the week stays covered |
| ProfilePage.Profile.RemoveExercise | frontend/src/pages/Profile.tsx:158-166 | the filter loop yields `RemoveExerciseFrom` for the selected day, and the week stays covered |
| ProfilePage.Profile.ApplyFetchedPlan | frontend/src/pages/Profile.tsx:90-92 | the plan becomes the merge with the fetched plan, and the week stays covered |

## Left out

- Network, authentication, `fetch`/`axios`, `localStorage`, JSON and the database session are not modelled. Saved state enters as a constructor parameter, and the server tables are in-memory fields.
- The clock is a parameter everywhere. The ISO date text of today, the timestamp, `Date.now()`, the weekday of the 1st, the month length, `getMonth()` of a date and the date text of each day are all inputs. The time-zone shift of `toISOString` is not modelled.
- `generateStreakData` (random mock history), the progress bars (floating-point percentages), animations and all rendering are not modelled.
- The rules page and the pure display components are not modelled; they compute nothing.
- The harm-level rules are modelled as tables only, because no code applies them to a day's intake, so no pooled penalty rule is invented.
- JavaScript strings are sequences of characters. UTF-16 lengths and `toUpperCase` beyond ASCII letters are not modelled.
- JunkPenalty: `junkPenalties[id] || 0` would also find inherited object keys such as `constructor`; the model looks ids up in the table's own keys only.
- ProfilePage.Profile.AddExercise: requires `Valid()` (the plan covers the week and the selected day is a weekday), as do the other plan editors and SelectDay's weekday argument; the TypeScript types `Record<Day, WorkoutDay>` and `Day` guarantee this in the source.
- ProfilePage.UpdateExerciseIn: requires the index to be in range, because the page only calls it for rendered entries; an assignment past the end would grow a sparse array in JavaScript.
- ProfilePage.Profile.ApplyFetchedPlan: assumes the server's plan values are well-formed day entries; the response is not type-checked.
- ProfilePage.Initials: a missing `user.username` is `None`; the value `null` and `undefined` are not distinguished.
- DashboardPage.Dashboard.SubmitSteps: the outcome of the two requests is a parameter; what the server does with them and the leaderboard refresh event are not modelled.
- ActivityLog.ActivityDb.LogDailyActivity: when the user has no streak row, `update_streak` fails on `None` before the commit, so the model returns an error and changes nothing. `.first()` without an ordering is taken as the first row in table order. The streak records are values in a map, not shared ORM objects.
- StreakCalendarPage.MonthsShown: requires a start inside the year, which the range handlers keep.
- StreakCalendarPage.JsRemainder: for a negative dividend it states the sign and bound of the result, not a closed form.
- JunkMenu: only the id, name, category, harm level and allowed frequency of each food are kept. The component lists and reasons are display text. The dark chocolate frequency is kept exactly as stored in the file, with its mis-encoded dash.
- JunkIntakePage.Categories: proved for any item list; the concrete category list of the ten-item database is not computed in a lemma.
- The leaderboard, login, navigation and auth context, and the backend routes around the CRUD functions, are not modelled.
