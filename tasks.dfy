/**
 * The task record shared by the progress store (src/lib/progress-context.tsx)
 * and the task tracker page (src/components/tasks/TaskTracker.tsx), the
 * completion toggle both of them apply, and the eleven-task seed week both of
 * them start from.
 */
module Tasks {
  import opened Wrappers
  import opened Seqs

  /** A day's task; `link` and `motivationalLine` are the optional fields. */
  datatype Task = Task(
    id: string,
    title: string,
    completed: bool,
    timeEstimate: string,
    link: Option<string>,
    motivationalLine: Option<string>,
    day: int)

  predicate IsCompleted(t: Task) {
    t.completed
  }

  /** `task.id === taskId ? { ...task, completed: !task.completed } : task` */
  function Toggled(t: Task, taskId: string): Task {
    if t.id == taskId then t.(completed := !t.completed) else t
  }

  /**
   * `tasks.map(...)` with `Toggled`: the list keeps its length and order, every
   * field but `completed` is kept, and `completed` flips exactly on the tasks
   * whose id is `taskId`.
   */
  function ToggleTask(tasks: seq<Task>, taskId: string): (r: seq<Task>)
    ensures |r| == |tasks|
    ensures forall i :: 0 <= i < |tasks| ==> r[i].(completed := tasks[i].completed) == tasks[i]
    ensures forall i :: 0 <= i < |tasks| ==> (r[i].completed != tasks[i].completed <==> tasks[i].id == taskId)
  {
    if tasks == [] then [] else [Toggled(tasks[0], taskId)] + ToggleTask(tasks[1..], taskId)
  }

  /** Toggling the same id twice restores the list. */
  lemma ToggleTaskTwice(tasks: seq<Task>, taskId: string)
    ensures ToggleTask(ToggleTask(tasks, taskId), taskId) == tasks
  {
    var once := ToggleTask(tasks, taskId);
    var twice := ToggleTask(once, taskId);
    forall i | 0 <= i < |tasks| ensures twice[i] == tasks[i] {
      assert once[i].id == tasks[i].id;
    }
  }

  /** An id no task carries leaves the list as it is. */
  lemma ToggleTaskUnmatched(tasks: seq<Task>, taskId: string)
    requires forall i :: 0 <= i < |tasks| ==> tasks[i].id != taskId
    ensures ToggleTask(tasks, taskId) == tasks
  {
    var r := ToggleTask(tasks, taskId);
    forall i | 0 <= i < |tasks| ensures r[i] == tasks[i] {
      assert r[i].completed == tasks[i].completed;
    }
  }

  /** No two tasks share an id. */
  predicate UniqueIds(tasks: seq<Task>) {
    forall i, j :: 0 <= i < j < |tasks| ==> tasks[i].id != tasks[j].id
  }

  /**
   * With unique ids, toggling the id of task `k` flips that task alone, so the
   * number of completed tasks moves by one.
   */
  lemma {:induction false} ToggleTaskCount(tasks: seq<Task>, k: nat)
    requires UniqueIds(tasks) && k < |tasks|
    ensures var n := Count(ToggleTask(tasks, tasks[k].id), IsCompleted);
            n == if tasks[k].completed then Count(tasks, IsCompleted) - 1 else Count(tasks, IsCompleted) + 1
  {
    var r := ToggleTask(tasks, tasks[k].id);
    assert r[..k] == tasks[..k] by {
      forall i | 0 <= i < k ensures r[i] == tasks[i] {
        assert r[i].completed == tasks[i].completed;
      }
    }
    assert r[k + 1..] == tasks[k + 1..] by {
      forall i | k < i < |tasks| ensures r[i] == tasks[i] {
        assert r[i].completed == tasks[i].completed;
      }
    }
    CountAround(tasks, k);
    CountAround(r, k);
  }

  /** The completed count around position `k`: before it, itself, after it. */
  lemma CountAround(tasks: seq<Task>, k: nat)
    requires k < |tasks|
    ensures Count(tasks, IsCompleted)
            == Count(tasks[..k], IsCompleted) + (if tasks[k].completed then 1 else 0) + Count(tasks[k + 1..], IsCompleted)
  {
    assert tasks == tasks[..k] + [tasks[k]] + tasks[k + 1..];
    FilterAppend(tasks[..k] + [tasks[k]], tasks[k + 1..], IsCompleted);
    FilterAppend(tasks[..k], [tasks[k]], IsCompleted);
  }

  /** The first motivational line as the progress store spells it, with an en dash. */
  const StoreFirstLine := "\"Every expert was once a beginner \U{2013} start strong!\""

  /**
   * The same line as the task tracker page spells it: the en dash's UTF-8 bytes
   * read as Windows-1252, three characters in its place.
   */
  const TrackerFirstLine := "\"Every expert was once a beginner \U{E2}\U{20AC}\U{201C} start strong!\""

  // The texts of the seed week.
  const InstallTitle := "Install Next.js and create your first app"
  const LearnCourseTitle := "Complete first section of Next.js Learn course"
  const RoutingTitle := "Learn routing and layouts"
  const NavigationTitle := "Add navigation to sample site"
  const ImagesTitle := "Images and fonts optimization"
  const DeployTitle := "Deploy to Vercel"
  const PortfolioPartOneTitle := "Build simple static site (portfolio v1) - Part 1"
  const PortfolioPartTwoTitle := "Build simple static site (portfolio v1) - Part 2"
  const ReviewTitle := "Review code and commit to GitHub"
  const CrashCourseTitle := "Watch Jack Herrington's Next.js 15 Crash Course"
  const RestTitle := "Rest and review completed work"
  const LearnUrl := "https://nextjs.org/learn"
  const ImageDocsUrl := "https://nextjs.org/docs/basic-features/image-optimization"
  const VercelUrl := "https://vercel.com"
  const CrashCourseUrl := "https://www.youtube.com/results?search_query=Jack+Herrington+Next.js+15"
  const ConsistencyLine := "\"Code 1-2 hours daily: Consistency beats intensity.\""

  /**
   * The eleven tasks of week 1, all open; `firstLine` is the motivational line
   * of the first task, the one place where the two copies of the seed differ.
   */
  function WeekOneTasks(firstLine: string): (r: seq<Task>)
    ensures |r| == 11
    ensures forall i :: 0 <= i < |r| ==> !r[i].completed && 1 <= r[i].day <= 7
  {
    [ Task("day1-task1", InstallTitle, false, "1-2 hours",
           Some(LearnUrl), Some(firstLine), 1),
      Task("day1-task2", LearnCourseTitle, false, "2-3 hours",
           Some(LearnUrl), None, 1),
      Task("day2-task1", RoutingTitle, false, "1-2 hours", None, None, 2),
      Task("day2-task2", NavigationTitle, false, "1 hour", None, None, 2),
      Task("day3-task1", ImagesTitle, false, "1-2 hours",
           Some(ImageDocsUrl), None, 3),
      Task("day3-task2", DeployTitle, false, "30-45 minutes", Some(VercelUrl), None, 3),
      Task("day4-task1", PortfolioPartOneTitle, false, "2-3 hours", None, None, 4),
      Task("day5-task1", PortfolioPartTwoTitle, false, "2-3 hours", None, None, 5),
      Task("day5-task2", ReviewTitle, false, "1 hour", None, None, 5),
      Task("day6-task1", CrashCourseTitle, false, "2-3 hours",
           Some(CrashCourseUrl), None, 6),
      Task("day7-task1", RestTitle, false, "1-2 hours", None,
           Some(ConsistencyLine), 7) ]
  }

  /** Some task of the list falls on day `d`. */
  predicate HasTaskOn(tasks: seq<Task>, d: int) {
    exists i :: 0 <= i < |tasks| && tasks[i].day == d
  }

  /** None of the seed week's tasks counts as completed. */
  lemma WeekOneTasksOpen(firstLine: string)
    ensures Count(WeekOneTasks(firstLine), IsCompleted) == 0
  {
    var ts := WeekOneTasks(firstLine);
    forall i | 0 <= i < |ts| ensures !IsCompleted(ts[i]) {
    }
    FilterKeepsNone(ts, IsCompleted);
  }

  /** Every day of the week has at least one task in the seed week. */
  lemma WeekOneTasksCoverWeek(firstLine: string)
    ensures forall d :: 1 <= d <= 7 ==> HasTaskOn(WeekOneTasks(firstLine), d)
  {
    var ts := WeekOneTasks(firstLine);
    assert ts[0].day == 1 && ts[2].day == 2 && ts[4].day == 3 && ts[6].day == 4;
    assert ts[7].day == 5 && ts[9].day == 6 && ts[10].day == 7;
  }

  /** The ids of the seed week are pairwise different. */
  lemma WeekOneTasksUniqueIds(firstLine: string)
    ensures UniqueIds(WeekOneTasks(firstLine))
  {
    var ts := WeekOneTasks(firstLine);
    var keys := [('1', '1'), ('1', '2'), ('2', '1'), ('2', '2'), ('3', '1'), ('3', '2'),
                 ('4', '1'), ('5', '1'), ('5', '2'), ('6', '1'), ('7', '1')];
    forall i, j | 0 <= i < j < |ts| ensures ts[i].id != ts[j].id {
      assert ts[i].id[3] == keys[i].0 && ts[i].id[9] == keys[i].1;
      assert ts[j].id[3] == keys[j].0 && ts[j].id[9] == keys[j].1;
    }
  }

  /** The two copies of the seed week agree except for the first task's motivational line. */
  lemma SeedCopiesDiffer()
    ensures |WeekOneTasks(StoreFirstLine)| == |WeekOneTasks(TrackerFirstLine)|
    ensures forall i :: 1 <= i < |WeekOneTasks(StoreFirstLine)| ==> WeekOneTasks(StoreFirstLine)[i] == WeekOneTasks(TrackerFirstLine)[i]
    ensures WeekOneTasks(StoreFirstLine)[0] == WeekOneTasks(TrackerFirstLine)[0].(motivationalLine := Some(StoreFirstLine))
    ensures StoreFirstLine != TrackerFirstLine
  {
    assert StoreFirstLine[34] != TrackerFirstLine[34];
  }
}
