/**
 * The projects page, src/components/projects/ProjectsTracker.tsx: a list of
 * portfolio projects, each moving between three statuses through the buttons
 * on its card, with editable repository and live links, a two-key filter and
 * aggregate statistics.
 */
module ProjectsTracker {
  import opened Wrappers
  import opened Seqs

  datatype Status = NotStarted | InProgress | Completed

  datatype Priority = High | Medium | Low

  /**
   * A project. `estimatedHours` is a `nat`: every project comes from the seed
   * list, whose estimates are positive, and no update changes an estimate.
   */
  datatype Project = Project(
    id: string,
    title: string,
    description: string,
    status: Status,
    phase: string,
    estimatedHours: nat,
    technologies: seq<string>,
    githubUrl: Option<string>,
    liveUrl: Option<string>,
    priority: Priority,
    completionPercentage: int)

  /** The value of a filter drop-down: `'all'` or one of the values it lists. */
  datatype Choice<T> = All | Only(value: T)

  /** The two link fields a card edits. */
  datatype UrlKind = GitHub | Live

  /** One project after `updateProjectStatus`. */
  function WithStatus(p: Project, status: Status): Project {
    p.(status := status, completionPercentage := if status == Completed then 100 else p.completionPercentage)
  }

  /**
   * `updateProjectStatus(projectId, status)`: the projects with that id take
   * the new status, and reach 100 percent when it is `Completed`; every other
   * field and every other project is kept, in order.
   */
  function UpdateProjectStatus(projects: seq<Project>, projectId: string, status: Status): (r: seq<Project>)
    ensures |r| == |projects|
    ensures forall i :: 0 <= i < |projects| && projects[i].id != projectId ==> r[i] == projects[i]
    ensures forall i :: 0 <= i < |projects| && projects[i].id == projectId ==>
              r[i].status == status
              && r[i].completionPercentage == (if status == Completed then 100 else projects[i].completionPercentage)
              && r[i].(status := projects[i].status, completionPercentage := projects[i].completionPercentage) == projects[i]
  {
    if projects == [] then []
    else
      var p := projects[0];
      [if p.id == projectId then WithStatus(p, status) else p] + UpdateProjectStatus(projects[1..], projectId, status)
  }

  /** One project after `updateProjectUrls`. */
  function WithUrl(p: Project, kind: UrlKind, url: string): Project {
    match kind
    case GitHub => p.(githubUrl := Some(url))
    case Live => p.(liveUrl := Some(url))
  }

  /**
   * `updateProjectUrls(projectId, type, url)`: the projects with that id get
   * `url` as their repository link or as their live link, and nothing else
   * changes.
   */
  function UpdateProjectUrls(projects: seq<Project>, projectId: string, kind: UrlKind, url: string): (r: seq<Project>)
    ensures |r| == |projects|
    ensures forall i :: 0 <= i < |projects| && projects[i].id != projectId ==> r[i] == projects[i]
    ensures forall i :: 0 <= i < |projects| && projects[i].id == projectId && kind == GitHub ==>
              r[i] == projects[i].(githubUrl := Some(url))
    ensures forall i :: 0 <= i < |projects| && projects[i].id == projectId && kind == Live ==>
              r[i] == projects[i].(liveUrl := Some(url))
  {
    if projects == [] then []
    else
      var p := projects[0];
      [if p.id == projectId then WithUrl(p, kind, url) else p] + UpdateProjectUrls(projects[1..], projectId, kind, url)
  }

  /** The ids of a list, in order. */
  function Ids(projects: seq<Project>): (ids: seq<string>)
    ensures |ids| == |projects| && forall i :: 0 <= i < |projects| ==> ids[i] == projects[i].id
  {
    if projects == [] then [] else [projects[0].id] + Ids(projects[1..])
  }

  /** Neither update adds, drops or reorders projects. */
  lemma UpdatesKeepIds(projects: seq<Project>, projectId: string, status: Status, kind: UrlKind, url: string)
    ensures Ids(UpdateProjectStatus(projects, projectId, status)) == Ids(projects)
    ensures Ids(UpdateProjectUrls(projects, projectId, kind, url)) == Ids(projects)
  {
  }

  /** A project a status filter and a priority filter both let through. */
  predicate Passes(p: Project, status: Choice<Status>, priority: Choice<Priority>) {
    (status == All || status == Only(p.status)) && (priority == All || priority == Only(p.priority))
  }

  /** `filteredProjects`: the projects both filters let through, in list order. */
  function FilteredProjects(projects: seq<Project>, status: Choice<Status>, priority: Choice<Priority>): (r: seq<Project>)
    ensures forall p :: p in r <==> p in projects && (status.All? || status.value == p.status)
                                                  && (priority.All? || priority.value == p.priority)
  {
    Filter(projects, p => Passes(p, status, priority))
  }

  /** With both filters at 'all', the whole list is shown, in order. */
  lemma FilteredAll(projects: seq<Project>)
    ensures FilteredProjects(projects, All, All) == projects
  {
    FilterKeepsAll(projects, p => Passes(p, All, All));
  }

  /** The filtered projects appear in the order they have in the list. */
  lemma FilteredInOrder(projects: seq<Project>, status: Choice<Status>, priority: Choice<Priority>)
    ensures Subsequence(FilteredProjects(projects, status, priority), projects)
  {
    FilterSubsequence(projects, p => Passes(p, status, priority));
  }

  /** The statuses the buttons of a card whose project has status `s` can set. */
  function NextStatuses(s: Status): (r: set<Status>)
    ensures s !in r
    ensures Completed in r <==> s == InProgress
    ensures NotStarted in r <==> s == InProgress
    ensures InProgress in r <==> s != InProgress
  {
    match s
    case NotStarted => {InProgress}
    case InProgress => {NotStarted, Completed}
    case Completed => {InProgress}
  }

  /** Completing a project and reopening it keeps its 100 percent. */
  lemma ReopenedKeepsPercentage(p: Project)
    ensures WithStatus(WithStatus(p, Completed), InProgress).completionPercentage == 100
  {
  }

  datatype ProjectStats = ProjectStats(
    total: nat,
    completed: nat,
    inProgress: nat,
    notStarted: nat,
    totalHours: nat,
    completedHours: nat)

  predicate IsCompleted(p: Project) { p.status == Completed }
  predicate IsInProgress(p: Project) { p.status == InProgress }
  predicate IsNotStarted(p: Project) { p.status == NotStarted }

  /** The estimates of the projects, added up. */
  function SumEstimates(projects: seq<Project>): nat {
    if projects == [] then 0 else projects[0].estimatedHours + SumEstimates(projects[1..])
  }

  /** Every project has exactly one of the three statuses. */
  lemma {:induction false} StatusCountsAddUp(projects: seq<Project>)
    ensures Count(projects, IsCompleted) + Count(projects, IsInProgress) + Count(projects, IsNotStarted) == |projects|
  {
    if projects != [] {
      StatusCountsAddUp(projects[1..]);
    }
  }

  /** The completed projects never account for more hours than all of them. */
  lemma {:induction false} CompletedEstimatesBounded(projects: seq<Project>)
    ensures SumEstimates(Filter(projects, IsCompleted)) <= SumEstimates(projects)
  {
    if projects != [] {
      CompletedEstimatesBounded(projects[1..]);
      var rest := Filter(projects[1..], IsCompleted);
      if IsCompleted(projects[0]) {
        assert Filter(projects, IsCompleted) == [projects[0]] + rest;
        assert ([projects[0]] + rest)[1..] == rest;
      } else {
        assert Filter(projects, IsCompleted) == rest;
      }
    }
  }

  /** `getStats()`: the three status counts add up to the total, and completed hours are within the total. */
  function GetStats(projects: seq<Project>): (s: ProjectStats)
    ensures s.total == |projects|
    ensures s.completed + s.inProgress + s.notStarted == s.total
    ensures s.completedHours <= s.totalHours
  {
    StatusCountsAddUp(projects);
    CompletedEstimatesBounded(projects);
    ProjectStats(|projects|, Count(projects, IsCompleted), Count(projects, IsInProgress), Count(projects, IsNotStarted),
                 SumEstimates(projects), SumEstimates(Filter(projects, IsCompleted)))
  }

  // The texts of the seed list.
  const PortfolioOneTitle := "Portfolio Site v1"
  const PortfolioOneDescription := "Simple static portfolio website showcasing basic HTML/CSS skills"
  const BlogTitle := "MDX Blog"
  const BlogDescription := "Blog application with MDX support and Server Components"
  const TodoTitle := "Todo App"
  const TodoDescription := "Full-featured todo application with advanced caching"
  const PortfolioTwoTitle := "Portfolio Site v2 (TypeScript)"
  const PortfolioTwoDescription := "Portfolio rebuilt with TypeScript and advanced Tailwind"
  const TradeProTitle := "TradePro Clone"
  const TradeProDescription := "Full-stack trading platform with authentication and payments"
  const ChatTitle := "AI Chat Application"
  const ChatDescription := "AI-powered chat app using Vercel AI SDK"
  const ShopTitle := "E-commerce Platform"
  const ShopDescription := "Full-featured e-commerce site with advanced features"
  const PortfolioOneStack: seq<string> := ["HTML", "CSS", "Next.js"]
  const BlogStack: seq<string> := ["Next.js", "MDX", "Tailwind CSS"]
  const TypedStack: seq<string> := ["Next.js", "TypeScript", "Tailwind CSS"]
  const TradeProStack: seq<string> := ["Next.js", "TypeScript", "Prisma", "Clerk", "Stripe"]
  const ChatStack: seq<string> := ["Next.js", "TypeScript", "Vercel AI SDK", "OpenAI"]
  const ShopStack: seq<string> := ["Next.js", "TypeScript", "Stripe", "Prisma"]

  /** `projects`, the list the page starts with. */
  function InitialProjects(): (r: seq<Project>)
    ensures |r| == 7
    ensures forall i :: 0 <= i < |r| ==> r[i].status == NotStarted && r[i].completionPercentage == 0
  {
    [ Project("portfolio-v1", PortfolioOneTitle, PortfolioOneDescription,
              NotStarted, "Phase 1, Week 1", 8, PortfolioOneStack, None, None, High, 0),
      Project("blog-mdx", BlogTitle, BlogDescription,
              NotStarted, "Phase 1, Week 3-4", 12, BlogStack, None, None, High, 0),
      Project("todo-app", TodoTitle, TodoDescription,
              NotStarted, "Phase 1, Week 5-6", 15, TypedStack, None, None, High, 0),
      Project("portfolio-v2", PortfolioTwoTitle, PortfolioTwoDescription,
              NotStarted, "Phase 2", 10, TypedStack, None, None, Medium, 0),
      Project("tradepro-clone", TradeProTitle, TradeProDescription,
              NotStarted, "Phase 3", 40, TradeProStack, None, None, High, 0),
      Project("ai-chat-app", ChatTitle, ChatDescription,
              NotStarted, "Phase 4", 20, ChatStack, None, None, Medium, 0),
      Project("ecommerce-platform", ShopTitle, ShopDescription,
              NotStarted, "Phase 4-5", 35, ShopStack, None, None, Low, 0) ]
  }

  /** The seed estimates add up to 140 hours. */
  lemma InitialProjectsHours()
    ensures SumEstimates(InitialProjects()) == 140
  {
    var ps := InitialProjects();
    assert SumEstimates(ps[6..]) == 35;
    assert SumEstimates(ps[5..]) == 55 by { assert ps[5..][1..] == ps[6..]; }
    assert SumEstimates(ps[4..]) == 95 by { assert ps[4..][1..] == ps[5..]; }
    assert SumEstimates(ps[3..]) == 105 by { assert ps[3..][1..] == ps[4..]; }
    assert SumEstimates(ps[2..]) == 120 by { assert ps[2..][1..] == ps[3..]; }
    assert SumEstimates(ps[1..]) == 132 by { assert ps[1..][1..] == ps[2..]; }
    assert ps[0..] == ps;
  }

  /** A list where nothing has been started counts every project as not started and no hours as done. */
  lemma StatsOfUnstarted(projects: seq<Project>)
    requires forall i :: 0 <= i < |projects| ==> projects[i].status == NotStarted
    ensures GetStats(projects) == ProjectStats(|projects|, 0, 0, |projects|, SumEstimates(projects), 0)
  {
    FilterKeepsNone(projects, IsCompleted);
    FilterKeepsNone(projects, IsInProgress);
    FilterKeepsAll(projects, IsNotStarted);
  }

  /** The statistics the page opens with: seven projects, all not started, 140 estimated hours. */
  lemma InitialProjectsStats()
    ensures GetStats(InitialProjects()) == ProjectStats(7, 0, 0, 7, 140, 0)
  {
    InitialProjectsHours();
    StatsOfUnstarted(InitialProjects());
  }
}
