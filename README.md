# Learning dashboard: a verified model of its progress logic

This project models the logic of a Next.js learning dashboard. The dashboard tracks a study plan of weeks of tasks, a list of portfolio projects, a catalogue of learning resources, a five-phase roadmap and a motivation page. The model covers:

- **Progress store** (`src/lib/progress-context.tsx`):
  - `parseTimeEstimate`, which reads free-text estimates such as "1-2 hours" or "30-45 minutes" with the pattern `(\d+)(?:-(\d+))?\s*(hour|minute)` (global, case-insensitive);
  - `calculateStats`;
  - the four-action `progressReducer`;
  - the seed week built by `createInitialWeek`;
  - the provider's initial state.
- **Task tracker**: toggling tasks, the tasks of a day, the day and week percentages, and the week-complete panel.
- **Projects tracker**: the status buttons, link edits, the two-key filter and the statistics.
- **Resource search**: the case-insensitive search, the category override and the difficulty colours.
- **Roadmap**: the expand/collapse sets, the per-phase progress, the week label and the phase colours.
- **Progress bar**: its clamp.
- **Motivation page**: the category buttons, the random quote and the achievement bars.

Modelling choices:

- Numbers are exact `real`s.
- `Math.round(x)` is `floor(x + 1/2)` (`Numeric.Round`).
- Dates are integer milliseconds.
- Strings are `seq<char>`.
- The pattern of `parseTimeEstimate` is a hand-written matcher (`TimePattern.MatchAt`). It takes each digit run and each white-space run whole and never backtracks. It still agrees with a backtracking regular-expression engine (`TimePattern.MatchAtComplete`), because:
  - a shorter digit or white-space run would leave a digit or a space where the next part of the pattern cannot begin;
  - `hour` and `minute` differ at their first letter.
- The global scan, the second, non-global match of each matched substring, and the summing loop are written over any matcher that only matches where it is anchored (`TimeEstimate.Sticky`).
- `parseTimeEstimate` keeps its loop as a method proved against the function `ParsedHours`. The other operations of the store and the pages are expressions over immutable values in the source, so they are functions here.
- The roadmap's expand/collapse state is a class whose methods copy the set, add or delete, and store the copy, as the source does.

Two behaviours of the code are easy to overlook; the model follows the code:

- The per-task value of "30-45 minutes" is rounded to one decimal, 0.6, not 0.625.
- `TOGGLE_TASK` with an id no task carries recomputes the statistics. The state is therefore unchanged only when its statistics already agreed with its tasks (`ProgressStore.Consistent`).

## Model

| member | source | states |
|---|---|---|
| Numeric.Round | src/lib/progress-context.tsx:165 | `Math.round` lies within half a unit of its argument, a half rounding upwards |
| Numeric.RoundToTenth | src/lib/progress-context.tsx:165 | rounding to one decimal moves a value by at most 0.05, keeps it non-negative, and gives a whole number of tenths |
| Numeric.Percent | src/lib/progress-context.tsx:176-177 | a guarded percentage is 0 without a positive denominator, lies in [0,100] when the part is within the whole, and is 100 exactly when part equals whole |
| Numeric.RoundMonotone | src/lib/progress-context.tsx:184-185 | `Math.round` is monotone |
| Numeric.RoundPercentBounds | src/lib/progress-context.tsx:184-185 | a rounded percentage stays in [0,100] |
| Numeric.RoundToTenthOfTenths | src/lib/progress-context.tsx:180-181 | a value that already has one decimal is unchanged by rounding to one decimal |
| Numeric.RoundToTenthMonotone | src/lib/progress-context.tsx:180-181 | rounding to one decimal is monotone |
| Text.Lower | src/components/resources/ResourcesPage.tsx:307-310 | `toLowerCase` keeps the length and lowers each letter A-Z, leaving every other character |
| Text.Includes | src/components/resources/ResourcesPage.tsx:307-310 | `includes` holds exactly when the needle occurs at some index of the haystack |
| Text.IncludesEmpty | src/components/resources/ResourcesPage.tsx:307-310 | every string includes the empty string |
| Text.LowerIdempotent | src/components/resources/ResourcesPage.tsx:307-310 | lowering twice is lowering once |
| TimePattern.DigitsEnd | src/lib/progress-context.tsx:145 | `\d+` is taken whole: every character of the run is a digit, and the run ends at the end of the string or before a non-digit |
| TimePattern.SpacesEnd | src/lib/progress-context.tsx:145 | `\s*` is taken whole: every character of the run is white space, and the run ends at the end of the string or before a non-space |
| TimePattern.UnitAt | src/lib/progress-context.tsx:145 | `(hour\|minute)`, case-insensitively: the unit is hour exactly when 'hour' starts at the index, minute exactly when 'minute' does and 'hour' does not, and none exactly when neither word does |
| TimePattern.RangeEnd | src/lib/progress-context.tsx:145 | the optional `-(\d+)` group is taken exactly when a dash and a digit follow; it then spans the dash and a run of digits, and otherwise consumes nothing |
| TimePattern.MatchAt | src/lib/progress-context.tsx:145 | a match starts at the index with a digit, is non-empty, lies within the string, and ends with the word of its unit; `MatchAtComplete` proves the converse |
| TimePattern.MatchAtComplete | src/lib/progress-context.tsx:145 | every way the pattern can split the text at an index (digits, an optional `-digits`, white space, then a unit word) is found by the matcher, with the same end and the same two numbers captured: taking each run whole loses no match a backtracking engine would find |
| TimePattern.ReMatch | src/lib/progress-context.tsx:145-150 | matching a matched substring again, without the global flag, yields the same groups |
| TimeEstimate.Scan | src/lib/progress-context.tsx:145 | the global match returns leftmost, non-overlapping matches, each one a match of the pattern at its start |
| TimeEstimate.Leftmost | src/lib/progress-context.tsx:150 | a non-global match is the first match at or after the start: the pattern matches at no earlier index, and there is none exactly when it matches nowhere from the start on |
| TimeEstimate.Texts | src/lib/progress-context.tsx:145 | the matched substrings are the slices of the string the matches span |
| TimeEstimate.GlobalMatch | src/lib/progress-context.tsx:145-146 | the global match is `null` or a non-empty list of non-empty substrings |
| TimeEstimate.FragmentHours | src/lib/progress-context.tsx:152-161 | the hours of a fragment are non-negative |
| TimeEstimate.Contribution | src/lib/progress-context.tsx:150-161 | each matched substring contributes a non-negative number of hours |
| TimeEstimate.ParsedHours | src/lib/progress-context.tsx:143-166 | the result is non-negative and a whole number of tenths of an hour |
| TimeEstimate.ParseTimeEstimate | src/lib/progress-context.tsx:143-166 | the accumulating loop returns what `ParsedHours` specifies |
| TimeEstimate.ScanCovers | src/lib/progress-context.tsx:145 | every index where the pattern matches lies inside some match the scan returns |
| TimeEstimate.LeftmostIsFirstOfScan | src/lib/progress-context.tsx:145-150 | the non-global match is the first match of the global one |
| TimeEstimate.NoMatchIff | src/lib/progress-context.tsx:145-146 | the global match is `null` exactly when the pattern matches at no index |
| TimeEstimate.NoMatchParsesToZero | src/lib/progress-context.tsx:146 | a string where the pattern matches nowhere parses to 0 |
| TimeEstimate.SumsAgree | src/lib/progress-context.tsx:148-163 | when each substring contributes its fragment's hours, the running totals equal the fragment sums on every prefix |
| TimeEstimate.ParsedIsRoundedSum | src/lib/progress-context.tsx:143-166 | the result is the sum of the fragments' hours rounded to one decimal |
| TimeEstimate.ParsedTenthsOfSum | src/lib/progress-context.tsx:165 | the tenths are the fragment sum times ten, rounded |
| TimeEstimate.GlobalSumIsFragmentSum | src/lib/progress-context.tsx:145-163 | the `forEach` total over the global match is the fragment sum |
| TimeEstimate.ContributionOfMatch | src/lib/progress-context.tsx:150-161 | a matched substring, matched again, contributes its fragment's hours |
| TimeEstimate.PatternReMatchesAgree | src/lib/progress-context.tsx:145-150 | the source's pattern always agrees with its own re-match |
| TimeEstimate.ParsedHoursIsRoundedSum | src/lib/progress-context.tsx:143-166 | `parseTimeEstimate` returns the midpoints of the ranges found, minutes divided by 60, summed and rounded to one decimal |
| TimeEstimate.ScanOfNoMatch | src/lib/progress-context.tsx:145 | a stretch with no match yields no match |
| TimeEstimate.ParsedSingleFragment | src/lib/progress-context.tsx:145-165 | a string that is one fragment followed by no further digits parses to that fragment's hours, rounded |
| EstimateExamples.MatchOneToTwoHours | src/lib/progress-context.tsx:57 | "1-2 hours" matches as the range 1 to 2 in hours |
| EstimateExamples.ParseOneToTwoHours | src/lib/progress-context.tsx:57 | "1-2 hours" parses to 1.5 |
| EstimateExamples.MatchTwoToThreeHours | src/lib/progress-context.tsx:64 | "2-3 hours" matches as the range 2 to 3 in hours |
| EstimateExamples.ParseTwoToThreeHours | src/lib/progress-context.tsx:64 | "2-3 hours" parses to 2.5 |
| EstimateExamples.MatchOneHour | src/lib/progress-context.tsx:81 | "1 hour" matches with no range |
| EstimateExamples.ParseOneHour | src/lib/progress-context.tsx:81 | "1 hour" parses to 1 |
| EstimateExamples.MatchThirtyToFortyFiveMinutes | src/lib/progress-context.tsx:96 | "30-45 minutes" matches as the range 30 to 45 in minutes |
| EstimateExamples.ParseThirtyToFortyFiveMinutes | src/lib/progress-context.tsx:96 | "30-45 minutes" parses to 0.6, the rounded 0.625 |
| EstimateExamples.ParseOngoing | src/lib/progress-context.tsx:144-146 | "Ongoing" parses to 0 |
| EstimateExamples.ParseThirtyMins | src/lib/progress-context.tsx:144-146 | "30 mins" parses to 0: "mins" is not "minute", so the pattern matches nowhere |
| Tasks.ToggleTask | src/components/tasks/TaskTracker.tsx:131-135 | toggling keeps the length, the order and every field but `completed`, and flips `completed` exactly on the tasks whose id matches |
| Tasks.ToggleTaskTwice | src/lib/progress-context.tsx:194-196 | toggling the same id twice gives back the list |
| Tasks.ToggleTaskUnmatched | src/lib/progress-context.tsx:194-196 | an id no task carries leaves the list unchanged |
| Tasks.ToggleTaskCount | src/components/tasks/TaskTracker.tsx:131-135 | with unique ids, toggling one task moves the completed count by exactly one, in the direction of its new state |
| Tasks.WeekOneTasks | src/lib/progress-context.tsx:52-137 | the seed has 11 tasks, all open, each on a day from 1 to 7 |
| Tasks.WeekOneTasksOpen | src/lib/progress-context.tsx:52-137 | the completed count of the seed is 0 |
| Tasks.WeekOneTasksCoverWeek | src/components/tasks/TaskTracker.tsx:34-119 | every day from 1 to 7 has a task |
| Tasks.WeekOneTasksUniqueIds | src/components/tasks/TaskTracker.tsx:34-119 | the seed ids are pairwise distinct |
| Tasks.SeedCopiesDiffer | src/components/tasks/TaskTracker.tsx:34-119 | the tracker's copy of the seed equals the store's except for the first motivational line, which carries a mis-decoded dash |
| TaskTracker.TasksForDay | src/components/tasks/TaskTracker.tsx:137-139 | a day's tasks are exactly the tasks with that day, and there are some exactly when the day has a task |
| TaskTracker.TasksForDayAppend | src/components/tasks/TaskTracker.tsx:137-139 | selecting a day distributes over concatenation |
| TaskTracker.TasksForDayInOrder | src/components/tasks/TaskTracker.tsx:137-139 | a day's tasks keep their order in the list |
| TaskTracker.CompletionPercent | src/components/tasks/TaskTracker.tsx:141-150 | the completed share lies in [0,100], is 0 for no tasks, and is 100 exactly when there are tasks and all are completed |
| TaskTracker.DayProgress | src/components/tasks/TaskTracker.tsx:141-145 | the day's progress lies in [0,100], is 0 for a day without tasks, and is 100 exactly when the day has tasks and all are completed |
| TaskTracker.WeekProgress | src/components/tasks/TaskTracker.tsx:147-150 | the week's progress lies in [0,100], is 0 for no tasks, and is 100 exactly when there are tasks and all are completed |
| TaskTracker.ShowsWeekComplete | src/components/tasks/TaskTracker.tsx:327 | the advance panel shows exactly when there are tasks and all are completed |
| TaskTracker.NoneDoneNoProgress | src/components/tasks/TaskTracker.tsx:141-150 | with no task completed, the week and every day show 0 |
| TaskTracker.NoneDoneOnDay | src/components/tasks/TaskTracker.tsx:141-145 | with no task completed, no task of a day is completed |
| TaskTracker.TrackerStartsEmpty | src/components/tasks/TaskTracker.tsx:34-150 | the page starts at 0 with no advance panel, and every day has tasks at 0 |
| ProgressStore.TaskHours | src/lib/progress-context.tsx:174-175 | a task's parsed hours are non-negative |
| ProgressStore.SumHours | src/lib/progress-context.tsx:175 | an hour total is non-negative |
| ProgressStore.SumHoursOfCompleted | src/lib/progress-context.tsx:172-175 | the completed tasks' hours never exceed all the tasks' hours |
| ProgressStore.SumHoursOfSameEstimates | src/lib/progress-context.tsx:175 | lists with the same estimates, position by position, have the same hours |
| ProgressStore.SumHoursAllCompleted | src/lib/progress-context.tsx:172-175 | when all tasks are completed, the completed hours are all the hours |
| ProgressStore.CalculateStats | src/lib/progress-context.tsx:169-187 | counts the tasks and completed tasks (equal exactly when all are completed), completed hours are within total hours, both percentages lie in [0,100], each is 0 without a denominator and 100 when everything is completed |
| ProgressStore.StatsOfEmptyWeek | src/lib/progress-context.tsx:169-187 | a week without tasks has all-zero statistics |
| ProgressStore.StatsOfTasks | src/lib/progress-context.tsx:169-187 | the statistics depend only on the tasks |
| ProgressStore.Reduce | src/lib/progress-context.tsx:189-249 | every action but loading leaves statistics computed from the new week; toggling keeps the week number, the task count and the stored weeks; advancing moves to the next week number with no tasks and keeps the stored weeks |
| ProgressStore.ToggleEffect | src/lib/progress-context.tsx:191-210 | `TOGGLE_TASK` toggles the tasks, recomputes the statistics from the new week, copies their completed hours into the week, and keeps every other week field and the stored weeks |
| ProgressStore.ToggleKeepsConsistent | src/lib/progress-context.tsx:191-210 | toggling keeps the week's total hours in agreement with its statistics |
| ProgressStore.ToggleTwice | src/lib/progress-context.tsx:191-210 | toggling twice restores the task list, and a consistent state entirely |
| ProgressStore.ToggleUnmatched | src/lib/progress-context.tsx:191-210 | an unmatched id keeps the task list, and a consistent state entirely |
| ProgressStore.ToggleCountsOne | src/lib/progress-context.tsx:191-210 | with unique ids the completed count moves by one |
| ProgressStore.AdvanceEffect | src/lib/progress-context.tsx:212-231 | `ADVANCE_WEEK` gives the next week number, phase 1 up to week 4 and 2 after, a start one week later, no tasks, zero hours and statistics, and keeps the stored weeks |
| ProgressStore.LoadEffect | src/lib/progress-context.tsx:233-234 | `LOAD_PROGRESS` returns its payload unchanged |
| ProgressStore.ResetEffect | src/lib/progress-context.tsx:236-244 | `RESET_PROGRESS` returns the provider's initial state |
| ProgressStore.SumHoursOfTaskHours | src/lib/progress-context.tsx:175 | the hour total is the sum of the per-task hours |
| ProgressStore.TaskHoursOfSeedEstimate | src/lib/progress-context.tsx:57-133 | the four seed estimates parse to 1.5, 2.5, 1 and 0.6 |
| ProgressStore.SeedTaskHours | src/lib/progress-context.tsx:52-137 | the per-task hours of the seed |
| ProgressStore.SeedHoursSum | src/lib/progress-context.tsx:52-137 | those hours add up to 18.6 |
| ProgressStore.SeedWeekHours | src/lib/progress-context.tsx:175 | the seed week holds 18.6 hours |
| ProgressStore.InitialWeek | src/lib/progress-context.tsx:48-140 | the seed week is week 1 of phase 1 and holds 11 open tasks with unique ids |
| ProgressStore.InitialState | src/lib/progress-context.tsx:257-267 | the initial state is consistent, stores no weeks and holds the seed week's tasks |
| ProgressStore.InitialStats | src/lib/progress-context.tsx:259-260 | the seed's statistics: 18.6 hours, none completed, 11 tasks, 0 progress |
| ProgressStore.InitialStateShape | src/lib/progress-context.tsx:257-267 | the initial state is week 1 of phase 1 from local midnight on 1 January 2026, with 11 open tasks on days 1-7 and unique ids, no stored weeks, and a week total equal to the statistics' 18.6 |
| ProgressStore.Startup | src/lib/progress-context.tsx:257-284 | after mount the state is the saved one when one was read, and the initial state otherwise |
| ProgressStore.ReduceKeepsConsistent | src/lib/progress-context.tsx:189-249 | every action keeps the week total in agreement with the statistics (loading, when the payload agrees) |
| ProjectsTracker.UpdateProjectStatus | src/components/projects/ProjectsTracker.tsx:150-158 | only the matching projects change: they get the new status and completion 100 when completed, otherwise their percentage stays |
| ProjectsTracker.UpdateProjectUrls | src/components/projects/ProjectsTracker.tsx:160-171 | only the matching projects change, and only in the GitHub link or the live link, whichever is named |
| ProjectsTracker.Ids | src/components/projects/ProjectsTracker.tsx:151-170 | the id list follows the projects, position by position |
| ProjectsTracker.UpdatesKeepIds | src/components/projects/ProjectsTracker.tsx:151-170 | both updates keep the ids and their order |
| ProjectsTracker.FilteredProjects | src/components/projects/ProjectsTracker.tsx:144-148 | a project is shown exactly when the status filter is 'all' or its status, and the priority filter is 'all' or its priority |
| ProjectsTracker.FilteredAll | src/components/projects/ProjectsTracker.tsx:144-148 | with both filters at 'all' the whole list shows, in order |
| ProjectsTracker.FilteredInOrder | src/components/projects/ProjectsTracker.tsx:144-148 | the shown projects keep their order in the list |
| ProjectsTracker.NextStatuses | src/components/projects/ProjectsTracker.tsx:438-474 | the buttons go from not-started to in-progress, from in-progress to not-started or completed, and from completed to in-progress; never to the current status, never straight from not-started to completed |
| ProjectsTracker.ReopenedKeepsPercentage | src/components/projects/ProjectsTracker.tsx:150-158 | a completed project moved back to in-progress keeps 100 |
| ProjectsTracker.StatusCountsAddUp | src/components/projects/ProjectsTracker.tsx:173-184 | the three status counts add up to the list length |
| ProjectsTracker.CompletedEstimatesBounded | src/components/projects/ProjectsTracker.tsx:178-181 | the completed projects' hours never exceed all the hours |
| ProjectsTracker.GetStats | src/components/projects/ProjectsTracker.tsx:173-184 | the total is the list length, the status counts add up to it, and the completed hours are within the total hours |
| ProjectsTracker.InitialProjects | src/components/projects/ProjectsTracker.tsx:35-113 | the page starts with 7 projects, all not started at 0% |
| ProjectsTracker.InitialProjectsHours | src/components/projects/ProjectsTracker.tsx:35-113 | their estimates add up to 140 hours |
| ProjectsTracker.StatsOfUnstarted | src/components/projects/ProjectsTracker.tsx:173-184 | when no project has started, all count as not started and no hours are completed |
| ProjectsTracker.InitialProjectsStats | src/components/projects/ProjectsTracker.tsx:35-184 | the initial statistics: 7 projects, 7 not started, 140 hours, 0 completed |
| ResourcesPage.FilteredCategories | src/components/resources/ResourcesPage.tsx:306-312 | a category is kept exactly when the lowered term occurs in its lowered title or in the lowered title or description of one of its resources |
| ResourcesPage.FilteredInOrder | src/components/resources/ResourcesPage.tsx:306 | the kept categories keep their order |
| ResourcesPage.EmptySearchKeepsAll | src/components/resources/ResourcesPage.tsx:306-312 | an empty search keeps every category |
| ResourcesPage.SearchIgnoresCase | src/components/resources/ResourcesPage.tsx:307-310 | terms equal up to letter case give the same result |
| ResourcesPage.SearchOfLowered | src/components/resources/ResourcesPage.tsx:307-310 | searching for the lowered term is searching for the term |
| ResourcesPage.DisplayedCategories | src/components/resources/ResourcesPage.tsx:314-316 | a selected category shows exactly the categories with that id; no selection shows the search result |
| ResourcesPage.SelectionOverridesSearch | src/components/resources/ResourcesPage.tsx:314-316 | with a category selected, the search term makes no difference |
| ResourcesPage.DifficultyColor | src/components/resources/ResourcesPage.tsx:318-325 | `getDifficultyColor` returns the gray classes exactly when no difficulty is given; the page never calls it without one, since it renders the badge only when the resource has a difficulty (ResourcesPage.tsx:424) |
| ResourcesPage.DifficultyColorsDistinct | src/components/resources/ResourcesPage.tsx:318-325 | each difficulty has its own badge colour |
| RoadmapPhases.Toggled | src/components/roadmap/RoadmapPhases.tsx:303-321 | a click removes the id when present and adds it otherwise; every other id stays as it was |
| RoadmapPhases.ToggledTwice | src/components/roadmap/RoadmapPhases.tsx:303-321 | two clicks restore the set |
| RoadmapPhases.RoadmapView.constructor | src/components/roadmap/RoadmapPhases.tsx:300-301 | the page opens with {'phase1'} and {'week1-2'} expanded |
| RoadmapPhases.RoadmapView.TogglePhase | src/components/roadmap/RoadmapPhases.tsx:303-311 | the expanded phases become the toggled set and the expanded weeks stay |
| RoadmapPhases.RoadmapView.ToggleWeek | src/components/roadmap/RoadmapPhases.tsx:313-321 | the expanded weeks become the toggled set and the expanded phases stay |
| RoadmapPhases.CompletedInWeek | src/components/roadmap/RoadmapPhases.tsx:503-505 | a week's completed count is at most its task count, and equal exactly when all its tasks are completed |
| RoadmapPhases.TotalTasks | src/components/roadmap/RoadmapPhases.tsx:502 | a phase's task total is at least each week's task count, and 0 exactly when every week is empty |
| RoadmapPhases.CompletedTasks | src/components/roadmap/RoadmapPhases.tsx:503-505 | a phase's completed count is at most its task total, and equal exactly when every task of every week is completed |
| RoadmapPhases.AllDoneSplit | src/components/roadmap/RoadmapPhases.tsx:502-505 | a phase is all done exactly when its first week and its remaining weeks are |
| RoadmapPhases.PhaseProgress | src/components/roadmap/RoadmapPhases.tsx:502-506 | a phase's progress lies in [0,100], is 0 without tasks or without completed tasks, and is 100 exactly when it has tasks and all are completed |
| RoadmapPhases.NoneCompleted | src/components/roadmap/RoadmapPhases.tsx:503-505 | a phase with no completed task counts 0 completed |
| RoadmapPhases.NoneCompletedInWeek | src/components/roadmap/RoadmapPhases.tsx:504 | a week with no completed task counts 0 completed |
| RoadmapPhases.WeeksLabel | src/components/roadmap/RoadmapPhases.tsx:375 | the label reads 'Week' exactly when the phase has one week, and 'Weeks' otherwise |
| RoadmapPhases.AllOpenNoProgress | src/components/roadmap/RoadmapPhases.tsx:502-506 | a phase with no completed task shows 0 |
| RoadmapPhases.RoadmapDataProgress | src/components/roadmap/RoadmapPhases.tsx:42-297 | every phase of the static roadmap shows 0 |
| RoadmapPhases.RoadmapDataLabels | src/components/roadmap/RoadmapPhases.tsx:42-297 | the first phase shows 'Weeks' and has 11 tasks; every later phase shows 'Week' |
| RoadmapPhases.ColorsLookup | src/components/roadmap/RoadmapPhases.tsx:323-331 | reading `colors[color]` gives the class of a known colour, and `undefined` exactly for a name that is neither a colour nor an inherited member |
| RoadmapPhases.PhaseColorAsWritten | src/components/roadmap/RoadmapPhases.tsx:323-332 | as written: a known colour gives its class, and a name that is neither a colour nor an inherited member gives blue |
| RoadmapPhases.PhaseColorOfToString | src/components/roadmap/RoadmapPhases.tsx:323-332 | as written, "toString" yields a function, not a class name |
| RoadmapPhases.PhaseColor | src/components/roadmap/RoadmapPhases.tsx:323-332 | corrected: always one of the five classes, a known colour's own class, and blue for any other name |
| RoadmapPhases.PhaseColorAgrees | src/components/roadmap/RoadmapPhases.tsx:323-332 | away from the inherited member names the code as written gives the corrected result |
| RoadmapPhases.PhaseColorsDistinct | src/components/roadmap/RoadmapPhases.tsx:324-330 | the five colours have five different classes |
| RoadmapPhases.RoadmapDataColors | src/components/roadmap/RoadmapPhases.tsx:42-332 | every static phase names a known colour, so the code as written behaves as intended on the shipped data |
| ProgressBar.Clamp | src/components/ui/Progress.tsx:13 | the clamped value lies in [0,100], is the value itself within that range, 0 at or below 0, and 100 at or above 100 |
| ProgressBar.ClampIdempotent | src/components/ui/Progress.tsx:13 | clamping twice is clamping once |
| ProgressBar.ClampMonotone | src/components/ui/Progress.tsx:13 | a larger value never draws a shorter bar |
| MotivationSection.Categories | src/components/motivation/MotivationSection.tsx:405 | the mapped categories follow the quotes, position by position |
| MotivationSection.FirstIndex | src/components/motivation/MotivationSection.tsx:405 | the first occurrence of a value: it holds the value and nothing before it does |
| MotivationSection.Dedup | src/components/motivation/MotivationSection.tsx:405 | `Array.from(new Set(xs))` has no duplicates and holds exactly the values of `xs` |
| MotivationSection.FirstIndexOfPrefix | src/components/motivation/MotivationSection.tsx:405 | a first occurrence within a prefix is the first occurrence in the whole list |
| MotivationSection.DedupFirstOccurrenceOrder | src/components/motivation/MotivationSection.tsx:405 | the values come out in the order of their first occurrence |
| MotivationSection.DedupOfDistinct | src/components/motivation/MotivationSection.tsx:405 | a list without duplicates passes through unchanged |
| MotivationSection.DedupIdempotent | src/components/motivation/MotivationSection.tsx:405 | deduplicating twice is deduplicating once |
| MotivationSection.CategoryButtons | src/components/motivation/MotivationSection.tsx:405 | the buttons have no duplicates and include every quote's category |
| MotivationSection.FifteenCategoryButtons | src/components/motivation/MotivationSection.tsx:25-116 | with the shipped quotes the buttons are the fifteen categories in quote order |
| MotivationSection.RandomIndex | src/components/motivation/MotivationSection.tsx:181 | for a draw in [0,1) the index is a valid position in a non-empty list |
| MotivationSection.RandomQuote | src/components/motivation/MotivationSection.tsx:180-183 | a quote is returned exactly when the list is non-empty, and it is one of the list's quotes |
| MotivationSection.RandomQuoteOfShippedList | src/components/motivation/MotivationSection.tsx:180-183 | the shipped list always yields a quote, and a draw of 0 yields the first |
| MotivationSection.BarWidth | src/components/motivation/MotivationSection.tsx:287 | a width exists exactly for a non-zero total; for progress within a positive total it lies in [0,100] and is 100 exactly when progress equals total |
| MotivationSection.AchievementBars | src/components/motivation/MotivationSection.tsx:149-174 | every shipped achievement has a positive total with progress within it, and a bar below full |

## Left out

- The browser's local storage, JSON parsing and the revival of the start date. They are I/O: `ProgressStore.Startup` takes the outcome of the read as an `Option`.
- The React context, the `useReducer`/`useEffect` wiring and the throwing `useProgress` hook. They are framework plumbing.
- Rendering, animations, icons and class strings other than the two colour lookups. They hold no logic.
- IEEE-754 rounding. Numbers are exact reals. `calculateStats` adds hours left to right; the model adds them right to left, which is the same sum over exact reals.
- Dates before or after the range of `Date`. Dates are unbounded integers of milliseconds.
- ProgressStore.InitialWeek: the local midnight of 1 January 2026 depends on the machine's timezone. The model takes as a parameter the offset `getTimezoneOffset()` reports for that date, in minutes from local time to UTC, so local midnight is UTC midnight plus the offset. Offsets that change within the day are not modelled.
- The JavaScript regular-expression engine in general. Only the one pattern is modelled, and it is written by hand.
- Unicode `toLowerCase`. Text.Lower folds only the ASCII letters A-Z.
- `Math.random`: the draw is a parameter of `MotivationSection.RandomQuote`.
- `setTimeout`, `alert` and the quote-changing animation state. They are side effects.
- The milestones list of the motivation page. It is display data with no logic.
- The titles, descriptions, periods, estimates and links of the roadmap, and the quote texts and authors. They are display text and are not modelled.
- The contents of the resource catalogue. The search is proved for every catalogue.
- The category icons. They are not part of this model.
- ProgressStore.ToggleUnmatched: the state stays unchanged only when its statistics already agree with its tasks (`Consistent`), because the source recomputes the statistics even when no task matched.
- ResourcesPage.DisplayedCategories: the contract leaves out the case of an empty selected id. The function treats that id as no selection, as JavaScript's truthiness does.
- ProjectsTracker.GetStats: estimated hours are natural numbers here. The source types them as any number.
- ProjectsTracker.FilteredProjects: the filter values are modelled as 'all' or a valid status/priority. The select boxes offer no other values.

## Findings

| source | as written | input that shows it | evidently intended | confidence | as-written member | corrected member |
|---|---|---|---|---|---|---|
| src/components/roadmap/RoadmapPhases.tsx:323-332 | `colors[color] \|\| colors.blue` reads `colors` as a plain object, so a name inherited from `Object.prototype` finds a truthy function (or the prototype itself) and skips the blue fallback | `getPhaseColor("toString")` returns the `toString` function, not a class name | any colour other than the five known ones falls back to the blue class | not executed; the shipped data only uses the five known colours (`RoadmapPhases.RoadmapDataColors`) | RoadmapPhases.PhaseColorAsWritten | RoadmapPhases.PhaseColor |
