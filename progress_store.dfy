/**
 * The progress store of src/lib/progress-context.tsx: the current week's
 * tasks, the statistics derived from them, and the reducer that toggles a
 * task, advances to the next week, loads a saved state or resets to the seed
 * week. Dates are milliseconds since the epoch.
 */
module ProgressStore {
  import opened Wrappers
  import opened Numeric
  import opened Seqs
  import opened Tasks
  import opened TimePattern
  import opened TimeEstimate
  import opened EstimateExamples

  datatype WeekData = WeekData(
    weekNumber: int,
    phaseNumber: int,
    startDate: int,
    tasks: seq<Task>,
    totalHours: real,
    completedHours: real)

  datatype ProgressStats = ProgressStats(
    totalHours: real,
    completedHours: real,
    totalTasks: nat,
    completedTasks: nat,
    weeklyProgress: int,
    overallProgress: int)

  datatype ProgressState = ProgressState(currentWeek: WeekData, stats: ProgressStats, allWeeks: seq<WeekData>)

  datatype ProgressAction =
    | Toggle(taskId: string)
    | AdvanceWeek
    | LoadProgress(state: ProgressState)
    | ResetProgress

  /** One week in milliseconds, `7 * 24 * 60 * 60 * 1000`. */
  const WeekMillis := 604800000

  /** Midnight of 1 January 2026 in UTC, in milliseconds since the epoch. */
  const NewYear2026Utc := 1767225600000

  /** `parseTimeEstimate(task.timeEstimate)`. */
  function TaskHours(t: Task): (h: real)
    ensures h >= 0.0
  {
    MatchAtSticky();
    ParsedHours(MatchAt, t.timeEstimate)
  }

  /** The parsed estimates of the tasks, added up (`reduce` with `+` from 0). */
  function SumHours(tasks: seq<Task>): (h: real)
    ensures h >= 0.0
  {
    if tasks == [] then 0.0 else TaskHours(tasks[0]) + SumHours(tasks[1..])
  }

  /** The completed tasks never account for more hours than the whole list. */
  lemma {:induction false} SumHoursOfCompleted(tasks: seq<Task>)
    ensures SumHours(Filter(tasks, IsCompleted)) <= SumHours(tasks)
  {
    if tasks != [] {
      SumHoursOfCompleted(tasks[1..]);
      var rest := Filter(tasks[1..], IsCompleted);
      if IsCompleted(tasks[0]) {
        assert Filter(tasks, IsCompleted) == [tasks[0]] + rest;
        assert ([tasks[0]] + rest)[1..] == rest;
      } else {
        assert Filter(tasks, IsCompleted) == rest;
      }
    }
  }

  /** Lists with the same estimates, position by position, have the same hours. */
  lemma {:induction false} SumHoursOfSameEstimates(a: seq<Task>, b: seq<Task>)
    requires |a| == |b| && forall i :: 0 <= i < |a| ==> a[i].timeEstimate == b[i].timeEstimate
    ensures SumHours(a) == SumHours(b)
  {
    if a != [] {
      SumHoursOfSameEstimates(a[1..], b[1..]);
    }
  }

  /** With every task done, the completed hours are all the hours. */
  lemma SumHoursAllCompleted(tasks: seq<Task>)
    ensures (forall i :: 0 <= i < |tasks| ==> tasks[i].completed) ==> SumHours(Filter(tasks, IsCompleted)) == SumHours(tasks)
  {
    if forall i :: 0 <= i < |tasks| ==> tasks[i].completed {
      FilterKeepsAll(tasks, IsCompleted);
    }
  }

  /**
   * `calculateStats(week)`: task counts, hours rounded to one decimal, and
   * rounded percentages of tasks and of hours done, each 0 when there is
   * nothing to divide by.
   */
  function CalculateStats(week: WeekData): (s: ProgressStats)
    ensures s.totalTasks == |week.tasks| && s.completedTasks <= s.totalTasks
    ensures s.completedTasks == s.totalTasks <==> forall i :: 0 <= i < |week.tasks| ==> week.tasks[i].completed
    ensures 0.0 <= s.completedHours <= s.totalHours
    ensures 0 <= s.weeklyProgress <= 100 && 0 <= s.overallProgress <= 100
    ensures |week.tasks| == 0 ==> s.weeklyProgress == 0
    ensures SumHours(week.tasks) == 0.0 ==> s.overallProgress == 0
    ensures |week.tasks| > 0 && s.completedTasks == s.totalTasks ==> s.weeklyProgress == 100
    ensures SumHours(week.tasks) > 0.0 && s.completedTasks == s.totalTasks ==> s.overallProgress == 100
  {
    var completed := Filter(week.tasks, IsCompleted);
    var completedTasks := |completed|;
    var totalTasks := |week.tasks|;
    var completedHours := SumHours(completed);
    var totalHours := SumHours(week.tasks);
    var weeklyProgress := Percent(completedTasks as real, totalTasks as real);
    var overallProgress := Percent(completedHours, totalHours);
    CountAll(week.tasks, IsCompleted);
    SumHoursOfCompleted(week.tasks);
    SumHoursAllCompleted(week.tasks);
    RoundToTenthMonotone(completedHours, totalHours);
    RoundPercentBounds(weeklyProgress);
    RoundPercentBounds(overallProgress);
    ProgressStats(RoundToTenth(totalHours), RoundToTenth(completedHours), totalTasks, completedTasks,
                  Round(weeklyProgress), Round(overallProgress))
  }

  /** The statistics of a week without tasks are all zero. */
  lemma StatsOfEmptyWeek(week: WeekData)
    requires week.tasks == []
    ensures CalculateStats(week) == ProgressStats(0.0, 0.0, 0, 0, 0, 0)
  {
    assert Round(0.0) == 0;
  }

  /** The statistics depend on the task list alone. */
  lemma StatsOfTasks(a: WeekData, b: WeekData)
    requires a.tasks == b.tasks
    ensures CalculateStats(a) == CalculateStats(b)
  {
  }

  /**
   * `createInitialWeek()`: week 1 of phase 1, starting at local midnight of
   * 1 January 2026, with the eleven open seed tasks. `timezoneOffset` is what
   * `Date.prototype.getTimezoneOffset()` returns for that date: minutes to add
   * to local time to reach UTC, so local midnight is UTC midnight plus the
   * offset (an offset of -60 in Central European winter time, 300 in New York).
   */
  function InitialWeek(timezoneOffset: int): (week: WeekData)
    ensures week.weekNumber == 1 && week.phaseNumber == 1
    ensures |week.tasks| == 11 && UniqueIds(week.tasks)
    ensures forall i :: 0 <= i < |week.tasks| ==> !week.tasks[i].completed
  {
    WeekOneTasksOpen(StoreFirstLine);
    WeekOneTasksUniqueIds(StoreFirstLine);
    WeekData(1, 1, NewYear2026Utc + timezoneOffset * 60000, WeekOneTasks(StoreFirstLine), 0.0, 0.0)
  }

  /** The state the provider starts from, and the state `RESET_PROGRESS` returns. */
  function InitialState(timezoneOffset: int): (s: ProgressState)
    ensures Consistent(s) && s.allWeeks == []
    ensures s.currentWeek.tasks == InitialWeek(timezoneOffset).tasks
  {
    var week := InitialWeek(timezoneOffset);
    var stats := CalculateStats(week);
    InitialStats(timezoneOffset);
    ProgressState(week.(totalHours := stats.totalHours), stats, [])
  }

  /** `progressReducer(state, action)`. */
  function Reduce(state: ProgressState, action: ProgressAction, timezoneOffset: int): (r: ProgressState)
    ensures !action.LoadProgress? ==> r.stats == CalculateStats(r.currentWeek)
    ensures action.Toggle? || action.AdvanceWeek? ==> r.allWeeks == state.allWeeks
    ensures action.Toggle? ==> r.currentWeek.weekNumber == state.currentWeek.weekNumber
                               && |r.currentWeek.tasks| == |state.currentWeek.tasks|
    ensures action.AdvanceWeek? ==> r.currentWeek.weekNumber == state.currentWeek.weekNumber + 1
                                    && r.currentWeek.tasks == []
  {
    match action
    case Toggle(taskId) =>
      var updatedWeek := state.currentWeek.(tasks := ToggleTask(state.currentWeek.tasks, taskId));
      var newStats := CalculateStats(updatedWeek);
      state.(currentWeek := updatedWeek.(completedHours := newStats.completedHours), stats := newStats)
    case AdvanceWeek =>
      var nextWeekNumber := state.currentWeek.weekNumber + 1;
      var nextPhaseNumber := if nextWeekNumber <= 4 then 1 else 2;
      var newWeek := WeekData(nextWeekNumber, nextPhaseNumber, state.currentWeek.startDate + WeekMillis, [], 0.0, 0.0);
      state.(currentWeek := newWeek, stats := CalculateStats(newWeek))
    case LoadProgress(saved) => saved
    case ResetProgress => InitialState(timezoneOffset)
  }

  /**
   * The state is consistent when its statistics are those of its current week
   * and the week's own hour fields repeat them.
   */
  predicate Consistent(state: ProgressState) {
    state.stats == CalculateStats(state.currentWeek)
    && state.currentWeek.totalHours == state.stats.totalHours
    && state.currentWeek.completedHours == state.stats.completedHours
  }

  /**
   * `TOGGLE_TASK` flips the matching tasks, recomputes the statistics and copies
   * the completed hours into the week; the week's number, phase, start date,
   * total hours and every other task field stay, and so do the stored weeks.
   */
  lemma ToggleEffect(state: ProgressState, taskId: string, timezoneOffset: int)
    ensures var r := Reduce(state, Toggle(taskId), timezoneOffset);
            r.allWeeks == state.allWeeks
            && r.currentWeek.(tasks := state.currentWeek.tasks, completedHours := state.currentWeek.completedHours) == state.currentWeek
            && r.currentWeek.tasks == ToggleTask(state.currentWeek.tasks, taskId)
            && r.stats == CalculateStats(r.currentWeek)
            && r.currentWeek.completedHours == r.stats.completedHours
  {
  }

  /** Toggling keeps a consistent state consistent: flipping `completed` leaves the total hours as they were. */
  lemma ToggleKeepsConsistent(state: ProgressState, taskId: string, timezoneOffset: int)
    requires Consistent(state)
    ensures Consistent(Reduce(state, Toggle(taskId), timezoneOffset))
  {
    SumHoursOfSameEstimates(state.currentWeek.tasks, ToggleTask(state.currentWeek.tasks, taskId));
  }

  /** Toggling the same task twice gives back the task list, and the whole state when it was consistent. */
  lemma ToggleTwice(state: ProgressState, taskId: string, timezoneOffset: int)
    ensures var r := Reduce(Reduce(state, Toggle(taskId), timezoneOffset), Toggle(taskId), timezoneOffset);
            r.currentWeek.tasks == state.currentWeek.tasks
            && (Consistent(state) ==> r == state)
  {
    ToggleTaskTwice(state.currentWeek.tasks, taskId);
    var once := Reduce(state, Toggle(taskId), timezoneOffset);
    StatsOfTasks(Reduce(once, Toggle(taskId), timezoneOffset).currentWeek, state.currentWeek);
  }

  /** A task id no task carries leaves the task list, and a consistent state, as they were. */
  lemma ToggleUnmatched(state: ProgressState, taskId: string, timezoneOffset: int)
    requires forall i :: 0 <= i < |state.currentWeek.tasks| ==> state.currentWeek.tasks[i].id != taskId
    ensures var r := Reduce(state, Toggle(taskId), timezoneOffset);
            r.currentWeek.tasks == state.currentWeek.tasks
            && (Consistent(state) ==> r == state)
  {
    ToggleTaskUnmatched(state.currentWeek.tasks, taskId);
    StatsOfTasks(Reduce(state, Toggle(taskId), timezoneOffset).currentWeek, state.currentWeek);
  }

  /** With unique ids, toggling task `k` moves the completed count by one, in the direction of its new state. */
  lemma ToggleCountsOne(state: ProgressState, k: nat, timezoneOffset: int)
    requires UniqueIds(state.currentWeek.tasks) && k < |state.currentWeek.tasks|
    ensures var task := state.currentWeek.tasks[k];
            var n := Count(state.currentWeek.tasks, IsCompleted);
            Reduce(state, Toggle(task.id), timezoneOffset).stats.completedTasks == if task.completed then n - 1 else n + 1
  {
    ToggleTaskCount(state.currentWeek.tasks, k);
  }

  /**
   * `ADVANCE_WEEK`, whatever the week's progress: the next week number, phase 1
   * up to week 4 and phase 2 after, a start date one week later, no tasks, no
   * hours, statistics all zero, and the stored weeks unchanged.
   */
  lemma AdvanceEffect(state: ProgressState, timezoneOffset: int)
    ensures var r := Reduce(state, AdvanceWeek, timezoneOffset);
            var w := state.currentWeek.weekNumber + 1;
            r.currentWeek == WeekData(w, if w <= 4 then 1 else 2, state.currentWeek.startDate + 604800000, [], 0.0, 0.0)
            && r.stats == ProgressStats(0.0, 0.0, 0, 0, 0, 0)
            && r.allWeeks == state.allWeeks
            && Consistent(r)
  {
    StatsOfEmptyWeek(Reduce(state, AdvanceWeek, timezoneOffset).currentWeek);
  }

  /** `LOAD_PROGRESS` replaces the state with the loaded one, as it is. */
  lemma LoadEffect(state: ProgressState, saved: ProgressState, timezoneOffset: int)
    ensures Reduce(state, LoadProgress(saved), timezoneOffset) == saved
  {
  }

  /** `RESET_PROGRESS` returns the provider's initial state, whatever the state was. */
  lemma ResetEffect(state: ProgressState, timezoneOffset: int)
    ensures Reduce(state, ResetProgress, timezoneOffset) == InitialState(timezoneOffset)
  {
  }

  /** The sum of a list of numbers. */
  function RealSum(xs: seq<real>): real {
    if xs == [] then 0.0 else xs[0] + RealSum(xs[1..])
  }

  /** The hours of a task list are the sum of its tasks' hours. */
  lemma {:induction false} SumHoursOfTaskHours(tasks: seq<Task>, hours: seq<real>)
    requires |tasks| == |hours| && forall k :: 0 <= k < |tasks| ==> TaskHours(tasks[k]) == hours[k]
    ensures SumHours(tasks) == RealSum(hours)
  {
    if tasks != [] {
      SumHoursOfTaskHours(tasks[1..], hours[1..]);
    }
  }

  /** The hours of the tasks of the seed week, in order. */
  const SeedHours: seq<real> := [1.5, 2.5, 1.5, 1.0, 1.5, 0.6, 2.5, 2.5, 1.0, 2.5, 1.5]

  /** The hours of a task whose estimate is one of those of the seed week. */
  lemma TaskHoursOfSeedEstimate(t: Task)
    ensures t.timeEstimate == "1-2 hours" ==> TaskHours(t) == 1.5
    ensures t.timeEstimate == "2-3 hours" ==> TaskHours(t) == 2.5
    ensures t.timeEstimate == "1 hour" ==> TaskHours(t) == 1.0
    ensures t.timeEstimate == "30-45 minutes" ==> TaskHours(t) == 0.6
  {
    if t.timeEstimate == "1-2 hours" {
      ParseOneToTwoHours();
    } else if t.timeEstimate == "2-3 hours" {
      ParseTwoToThreeHours();
    } else if t.timeEstimate == "1 hour" {
      ParseOneHour();
    } else if t.timeEstimate == "30-45 minutes" {
      ParseThirtyToFortyFiveMinutes();
    }
  }

  /** The estimates of the seed week, in order. */
  const SeedEstimates: seq<string> := ["1-2 hours", "2-3 hours", "1-2 hours", "1 hour", "1-2 hours", "30-45 minutes",
                                       "2-3 hours", "2-3 hours", "1 hour", "2-3 hours", "1-2 hours"]

  /** Each estimate of the seed week, parsed. */
  lemma SeedTaskHours(firstLine: string)
    ensures forall k :: 0 <= k < 11 ==> TaskHours(WeekOneTasks(firstLine)[k]) == SeedHours[k]
  {
    var ts := WeekOneTasks(firstLine);
    forall k | 0 <= k < 11 ensures TaskHours(ts[k]) == SeedHours[k] {
      assert ts[k].timeEstimate == SeedEstimates[k];
      TaskHoursOfSeedEstimate(ts[k]);
    }
  }

  lemma SeedHoursSum()
    ensures RealSum(SeedHours) == 18.6
  {
  }

  /** The seed week's estimates add up to 18.6 hours. */
  lemma SeedWeekHours(firstLine: string)
    ensures SumHours(WeekOneTasks(firstLine)) == 18.6
  {
    SeedTaskHours(firstLine);
    SumHoursOfTaskHours(WeekOneTasks(firstLine), SeedHours);
    SeedHoursSum();
  }

  /** The statistics of the seed week: 18.6 hours over 11 tasks, nothing done yet. */
  lemma InitialStats(timezoneOffset: int)
    ensures CalculateStats(InitialWeek(timezoneOffset)) == ProgressStats(18.6, 0.0, 11, 0, 0, 0)
  {
    var tasks := InitialWeek(timezoneOffset).tasks;
    WeekOneTasksOpen(StoreFirstLine);
    SeedWeekHours(StoreFirstLine);
    FilterKeepsNone(tasks, IsCompleted);
    RoundToTenthOfTenths(186);
    RoundToTenthOfTenths(0);
    assert Round(0.0) == 0;
  }

  /**
   * The provider's initial state, which `RESET_PROGRESS` also returns: week 1 of
   * phase 1 from local midnight of 1 January 2026, the eleven open seed tasks
   * with unique ids on days 1 to 7, no stored weeks, and statistics that agree
   * with the week, 18.6 hours in total.
   */
  lemma InitialStateShape(timezoneOffset: int)
    ensures var s := InitialState(timezoneOffset);
            var week := s.currentWeek;
            week.weekNumber == 1 && week.phaseNumber == 1
            && week.startDate == NewYear2026Utc + timezoneOffset * 60000
            && |week.tasks| == 11 && UniqueIds(week.tasks)
            && (forall i :: 0 <= i < |week.tasks| ==> !week.tasks[i].completed && 1 <= week.tasks[i].day <= 7)
            && s.allWeeks == []
            && s.stats == ProgressStats(18.6, 0.0, 11, 0, 0, 0)
            && week.totalHours == s.stats.totalHours == 18.6
            && Consistent(s)
  {
    InitialStats(timezoneOffset);
    WeekOneTasksOpen(StoreFirstLine);
    WeekOneTasksUniqueIds(StoreFirstLine);
  }

  /**
   * The state after mount: the saved state when the browser holds one that
   * parses (`Some`), otherwise the initial state. Reading and parsing the saved
   * text are not modelled; `saved` is their outcome.
   */
  function Startup(saved: Option<ProgressState>, timezoneOffset: int): (s: ProgressState)
    ensures saved.Some? ==> s == saved.value
    ensures saved.None? ==> s == InitialState(timezoneOffset)
  {
    var initial := InitialState(timezoneOffset);
    match saved
    case Some(state) => Reduce(initial, LoadProgress(state), timezoneOffset)
    case None => initial
  }

  /** Every action but loading keeps a consistent state consistent; loading gives the loaded state. */
  lemma ReduceKeepsConsistent(state: ProgressState, action: ProgressAction, timezoneOffset: int)
    requires Consistent(state) && (action.LoadProgress? ==> Consistent(action.state))
    ensures Consistent(Reduce(state, action, timezoneOffset))
  {
    match action
    case Toggle(taskId) => ToggleKeepsConsistent(state, taskId, timezoneOffset);
    case AdvanceWeek => AdvanceEffect(state, timezoneOffset);
    case LoadProgress(saved) =>
    case ResetProgress => InitialStateShape(timezoneOffset);
  }
}
