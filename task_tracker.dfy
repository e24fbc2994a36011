/**
 * The task tracker page, src/components/tasks/TaskTracker.tsx: the week's
 * tasks grouped by day, per-day and per-week completion percentages, and the
 * panel offering to advance once the week is complete. The page toggles tasks
 * with `Tasks.ToggleTask`.
 */
module TaskTracker {
  import opened Numeric
  import opened Seqs
  import opened Tasks

  /** `week1Tasks`, the page's own copy of the seed week. */
  function TrackerTasks(): seq<Task> {
    WeekOneTasks(TrackerFirstLine)
  }

  /** `getTasksForDay(day)`: the tasks of one day, in list order. */
  function TasksForDay(tasks: seq<Task>, day: int): (r: seq<Task>)
    ensures forall t :: t in r <==> t in tasks && t.day == day
    ensures |r| > 0 <==> HasTaskOn(tasks, day)
  {
    var r := Filter(tasks, (t: Task) => t.day == day);
    assert |r| > 0 ==> r[0] in r;
    assert HasTaskOn(tasks, day) ==> exists i :: 0 <= i < |tasks| && tasks[i] in r;
    r
  }

  /** Selecting a day keeps the order of the list: the day's tasks of a list are those of its parts, in turn. */
  lemma TasksForDayAppend(a: seq<Task>, b: seq<Task>, day: int)
    ensures TasksForDay(a + b, day) == TasksForDay(a, day) + TasksForDay(b, day)
  {
    FilterAppend(a, b, (t: Task) => t.day == day);
  }

  /** The day's tasks appear in the order they have in the list. */
  lemma TasksForDayInOrder(tasks: seq<Task>, day: int)
    ensures Subsequence(TasksForDay(tasks, day), tasks)
  {
    FilterSubsequence(tasks, (t: Task) => t.day == day);
  }

  /** The share of completed tasks, in percent; 0 for no tasks. */
  function CompletionPercent(tasks: seq<Task>): (p: real)
    ensures 0.0 <= p <= 100.0
    ensures |tasks| == 0 ==> p == 0.0
    ensures p == 100.0 <==> |tasks| > 0 && forall i :: 0 <= i < |tasks| ==> tasks[i].completed
  {
    CountAll(tasks, IsCompleted);
    Percent(Count(tasks, IsCompleted) as real, |tasks| as real)
  }

  /** `getDayProgress(day)`: 0 for a day without tasks, 100 when all its tasks are done. */
  function DayProgress(tasks: seq<Task>, day: int): (p: real)
    ensures 0.0 <= p <= 100.0
    ensures !HasTaskOn(tasks, day) ==> p == 0.0
    ensures p == 100.0 <==> HasTaskOn(tasks, day) && forall t :: t in tasks && t.day == day ==> t.completed
  {
    var dayTasks := TasksForDay(tasks, day);
    assert (forall t :: t in tasks && t.day == day ==> t.completed)
       <==> (forall i :: 0 <= i < |dayTasks| ==> dayTasks[i].completed);
    CompletionPercent(dayTasks)
  }

  /** `getWeekProgress()`: 0 for an empty week, 100 exactly when every task is done. */
  function WeekProgress(tasks: seq<Task>): (p: real)
    ensures 0.0 <= p <= 100.0
    ensures |tasks| == 0 ==> p == 0.0
    ensures p == 100.0 <==> |tasks| > 0 && forall i :: 0 <= i < |tasks| ==> tasks[i].completed
  {
    CompletionPercent(tasks)
  }

  /** The "week complete" panel, shown when `getWeekProgress() === 100`. */
  function ShowsWeekComplete(tasks: seq<Task>): (shown: bool)
    ensures shown <==> |tasks| > 0 && forall i :: 0 <= i < |tasks| ==> tasks[i].completed
  {
    WeekProgress(tasks) == 100.0
  }

  /** With no task done, the week and every day stand at 0. */
  lemma NoneDoneNoProgress(tasks: seq<Task>)
    requires forall i :: 0 <= i < |tasks| ==> !tasks[i].completed
    ensures WeekProgress(tasks) == 0.0
    ensures forall d :: DayProgress(tasks, d) == 0.0
  {
    FilterKeepsNone(tasks, IsCompleted);
    forall d ensures DayProgress(tasks, d) == 0.0 {
      NoneDoneOnDay(tasks, d);
    }
  }

  lemma NoneDoneOnDay(tasks: seq<Task>, day: int)
    requires forall i :: 0 <= i < |tasks| ==> !tasks[i].completed
    ensures Count(TasksForDay(tasks, day), IsCompleted) == 0
  {
    var dayTasks := TasksForDay(tasks, day);
    forall i | 0 <= i < |dayTasks| ensures !IsCompleted(dayTasks[i]) {
      assert dayTasks[i] in tasks;
    }
    FilterKeepsNone(dayTasks, IsCompleted);
  }

  /** The page opens on the seed week with nothing done: every day has a task and stands at 0, and the panel is hidden. */
  lemma TrackerStartsEmpty()
    ensures WeekProgress(TrackerTasks()) == 0.0 && !ShowsWeekComplete(TrackerTasks())
    ensures forall d :: 1 <= d <= 7 ==> HasTaskOn(TrackerTasks(), d) && DayProgress(TrackerTasks(), d) == 0.0
  {
    WeekOneTasksOpen(TrackerFirstLine);
    WeekOneTasksCoverWeek(TrackerFirstLine);
    NoneDoneNoProgress(TrackerTasks());
  }
}
