/**
 * The roadmap page, src/components/roadmap/RoadmapPhases.tsx: five phases of
 * weeks of tasks, each phase and week expanded or collapsed by a click, a
 * colour per phase, and a progress figure per phase.
 */
module RoadmapPhases {
  import opened Numeric

  /** A task of the roadmap; its title, estimate and links are display text, not modelled. */
  datatype RoadmapTask = RoadmapTask(id: string, completed: bool)

  /** A week of the roadmap; its title and description are not modelled. */
  datatype Week = Week(id: string, tasks: seq<RoadmapTask>)

  /** A phase of the roadmap; its title, period and description are not modelled. */
  datatype Phase = Phase(id: string, color: string, weeks: seq<Week>)

  /** The skeleton of `roadmapData`: the phases, their weeks and their tasks, all open. */
  const WeekOneTwo := Week("week1-2", [RoadmapTask("day1", false), RoadmapTask("day2", false),
    RoadmapTask("day3", false), RoadmapTask("day4-5", false), RoadmapTask("day6-7", false)])
  const WeekThreeFour := Week("week3-4", [RoadmapTask("week3-4-1", false), RoadmapTask("week3-4-2", false),
    RoadmapTask("week3-4-3", false)])
  const WeekFiveSix := Week("week5-6", [RoadmapTask("week5-6-1", false), RoadmapTask("week5-6-2", false),
    RoadmapTask("week5-6-3", false)])
  const Foundations := Phase("phase1", "blue", [WeekOneTwo, WeekThreeFour, WeekFiveSix])
  const TypeScriptPhase := Phase("phase2", "green", [Week("phase2-weeks", [RoadmapTask("ts-conversion", false),
    RoadmapTask("tailwind-rebuild", false), RoadmapTask("ts-advanced", false)])])
  const FullStackPhase := Phase("phase3", "purple", [Week("phase3-fullstack", [RoadmapTask("database-setup", false),
    RoadmapTask("auth-integration", false), RoadmapTask("payments", false), RoadmapTask("tradepro-clone", false)])])
  const AiPhase := Phase("phase4", "orange", [Week("phase4-ai", [RoadmapTask("ai-sdk", false),
    RoadmapTask("ai-app", false), RoadmapTask("ecommerce-features", false)])])
  const EarningPhase := Phase("phase5", "red", [Week("phase5-earning", [RoadmapTask("portfolio-polish", false),
    RoadmapTask("github-optimization", false), RoadmapTask("upwork-setup", false), RoadmapTask("job-applications", false)])])
  const RoadmapData := [Foundations, TypeScriptPhase, FullStackPhase, AiPhase, EarningPhase]

  /**
   * The set after a click on `id`: `id` leaves the set if it was in it and
   * joins it otherwise; every other member stays as it was.
   */
  function Toggled(expanded: set<string>, id: string): (r: set<string>)
    ensures id in r <==> id !in expanded
    ensures forall x :: x != id ==> (x in r <==> x in expanded)
  {
    if id in expanded then expanded - {id} else expanded + {id}
  }

  /** Two clicks on the same id restore the set. */
  lemma ToggledTwice(expanded: set<string>, id: string)
    ensures Toggled(Toggled(expanded, id), id) == expanded
  {
  }

  /** The page's expand/collapse state: the expanded phases and the expanded weeks. */
  class RoadmapView {
    var expandedPhases: set<string>
    var expandedWeeks: set<string>

    /** The page opens with the first phase and its first week expanded. */
    constructor()
      ensures expandedPhases == {"phase1"} && expandedWeeks == {"week1-2"}
    {
      expandedPhases := {"phase1"};
      expandedWeeks := {"week1-2"};
    }

    /** `togglePhase(phaseId)`: copy the set, add or delete the id, store the copy. */
    method TogglePhase(phaseId: string)
      modifies this
      ensures expandedPhases == Toggled(old(expandedPhases), phaseId)
      ensures expandedWeeks == old(expandedWeeks)
    {
      var newExpanded := expandedPhases;
      if phaseId in newExpanded {
        newExpanded := newExpanded - {phaseId};
      } else {
        newExpanded := newExpanded + {phaseId};
      }
      expandedPhases := newExpanded;
    }

    /** `toggleWeek(weekId)`: copy the set, add or delete the id, store the copy. */
    method ToggleWeek(weekId: string)
      modifies this
      ensures expandedWeeks == Toggled(old(expandedWeeks), weekId)
      ensures expandedPhases == old(expandedPhases)
    {
      var newExpanded := expandedWeeks;
      if weekId in newExpanded {
        newExpanded := newExpanded - {weekId};
      } else {
        newExpanded := newExpanded + {weekId};
      }
      expandedWeeks := newExpanded;
    }
  }

  /** The number of completed tasks of a week (`week.tasks.filter(task => task.completed).length`). */
  function CompletedInWeek(tasks: seq<RoadmapTask>): (n: nat)
    ensures n <= |tasks|
    ensures n == |tasks| <==> forall i :: 0 <= i < |tasks| ==> tasks[i].completed
  {
    if tasks == [] then 0 else (if tasks[0].completed then 1 else 0) + CompletedInWeek(tasks[1..])
  }

  /** The phase's task count: the week task counts added up. */
  function TotalTasks(weeks: seq<Week>): (n: nat)
    ensures forall i :: 0 <= i < |weeks| ==> |weeks[i].tasks| <= n
    ensures n == 0 <==> forall i :: 0 <= i < |weeks| ==> weeks[i].tasks == []
  {
    if weeks == [] then 0 else |weeks[0].tasks| + TotalTasks(weeks[1..])
  }

  /** The phase's completed tasks: the weeks' completed counts added up; never more than the task count. */
  function CompletedTasks(weeks: seq<Week>): (n: nat)
    ensures n <= TotalTasks(weeks)
    ensures n == TotalTasks(weeks) <==> AllDone(weeks)
  {
    if weeks == [] then 0
    else
      AllDoneSplit(weeks);
      CompletedInWeek(weeks[0].tasks) + CompletedTasks(weeks[1..])
  }

  /** Every task of every week is completed. */
  predicate AllDone(weeks: seq<Week>) {
    forall i, j :: 0 <= i < |weeks| && 0 <= j < |weeks[i].tasks| ==> weeks[i].tasks[j].completed
  }

  /** All tasks are done exactly when the first week's are and the other weeks' are. */
  lemma AllDoneSplit(weeks: seq<Week>)
    requires weeks != []
    ensures AllDone(weeks) <==>
      (forall j :: 0 <= j < |weeks[0].tasks| ==> weeks[0].tasks[j].completed) && AllDone(weeks[1..])
  {
    if (forall j :: 0 <= j < |weeks[0].tasks| ==> weeks[0].tasks[j].completed) && AllDone(weeks[1..]) {
      forall i, j | 0 <= i < |weeks| && 0 <= j < |weeks[i].tasks| ensures weeks[i].tasks[j].completed {
        if i > 0 {
          assert weeks[i] == weeks[1..][i - 1];
        }
      }
    }
    if AllDone(weeks) {
      forall i, j | 0 <= i < |weeks[1..]| && 0 <= j < |weeks[1..][i].tasks|
        ensures weeks[1..][i].tasks[j].completed
      {
        assert weeks[1..][i] == weeks[i + 1];
      }
    }
  }

  /** The progress figure of a phase: 0 without tasks, otherwise the share of completed tasks. */
  function PhaseProgress(phase: Phase): (p: real)
    ensures 0.0 <= p <= 100.0
    ensures TotalTasks(phase.weeks) == 0 ==> p == 0.0
    ensures CompletedTasks(phase.weeks) == 0 ==> p == 0.0
    ensures p == 100.0 <==> TotalTasks(phase.weeks) > 0 && AllDone(phase.weeks)
  {
    Percent(CompletedTasks(phase.weeks) as real, TotalTasks(phase.weeks) as real)
  }

  /** No task of any week is completed. */
  predicate AllOpen(weeks: seq<Week>) {
    forall i, j :: 0 <= i < |weeks| && 0 <= j < |weeks[i].tasks| ==> !weeks[i].tasks[j].completed
  }

  /** A phase none of whose tasks is completed counts no completed task. */
  lemma {:induction false} NoneCompleted(weeks: seq<Week>)
    requires AllOpen(weeks)
    ensures CompletedTasks(weeks) == 0
  {
    if weeks != [] {
      assert forall j :: 0 <= j < |weeks[0].tasks| ==> !weeks[0].tasks[j].completed;
      assert AllOpen(weeks[1..]) by {
        forall i, j | 0 <= i < |weeks[1..]| && 0 <= j < |weeks[1..][i].tasks|
          ensures !weeks[1..][i].tasks[j].completed
        {
          assert weeks[1..][i] == weeks[i + 1];
        }
      }
      NoneCompletedInWeek(weeks[0].tasks);
      NoneCompleted(weeks[1..]);
    }
  }

  lemma {:induction false} NoneCompletedInWeek(tasks: seq<RoadmapTask>)
    requires forall j :: 0 <= j < |tasks| ==> !tasks[j].completed
    ensures CompletedInWeek(tasks) == 0
  {
    if tasks != [] {
      NoneCompletedInWeek(tasks[1..]);
    }
  }

  /** The label next to a phase's week count. */
  function WeeksLabel(phase: Phase): (caption: string)
    ensures caption == "Week" <==> |phase.weeks| == 1
    ensures caption != "Week" ==> caption == "Weeks"
  {
    if |phase.weeks| == 1 then "Week" else "Weeks"
  }

  /** A phase none of whose tasks is completed shows 0 progress. */
  lemma AllOpenNoProgress(phase: Phase)
    requires AllOpen(phase.weeks)
    ensures PhaseProgress(phase) == 0.0
  {
    NoneCompleted(phase.weeks);
  }

  /** With the static data every phase shows 0 progress. */
  lemma RoadmapDataProgress()
    ensures |RoadmapData| == 5
    ensures forall i :: 0 <= i < 5 ==> PhaseProgress(RoadmapData[i]) == 0.0
  {
    var data := RoadmapData;
    forall i | 0 <= i < 5 ensures PhaseProgress(data[i]) == 0.0 {
      assert AllOpen(data[i].weeks);
      AllOpenNoProgress(data[i]);
    }
  }

  /** The first phase has three weeks and eleven tasks; each later phase a single week. */
  lemma RoadmapDataLabels()
    ensures WeeksLabel(Foundations) == "Weeks" && TotalTasks(Foundations.weeks) == 11
    ensures forall i :: 1 <= i < |RoadmapData| ==> WeeksLabel(RoadmapData[i]) == "Week"
  {
    var weeks := Foundations.weeks;
    assert TotalTasks(weeks[2..]) == 3;
    assert TotalTasks(weeks[1..]) == 6 by { assert weeks[1..][1..] == weeks[2..]; }
  }

  /** The class names of the five phase colours. */
  const Blue := "border-blue-500 bg-blue-50 dark:bg-blue-900/20"
  const Green := "border-green-500 bg-green-50 dark:bg-green-900/20"
  const Purple := "border-purple-500 bg-purple-50 dark:bg-purple-900/20"
  const Orange := "border-orange-500 bg-orange-50 dark:bg-orange-900/20"
  const Red := "border-red-500 bg-red-50 dark:bg-red-900/20"

  /** The own properties of the `colors` object. */
  const PhaseColors: map<string, string> :=
    map["blue" := Blue, "green" := Green, "purple" := Purple, "orange" := Orange, "red" := Red]

  /**
   * The members every object literal inherits from `Object.prototype`; all of
   * them are functions except `__proto__`, which is the prototype object itself.
   */
  const PrototypeKeys: set<string> := {"constructor", "hasOwnProperty", "isPrototypeOf",
    "propertyIsEnumerable", "toLocaleString", "toString", "valueOf", "__defineGetter__",
    "__defineSetter__", "__lookupGetter__", "__lookupSetter__", "__proto__"}

  /** The JavaScript values a property read on `colors` can produce. */
  datatype JsValue = Undefined | Text(text: string) | Function(name: string) | PrototypeObject

  /** JavaScript truthiness of those values: only `undefined` and the empty string are falsy. */
  predicate Truthy(v: JsValue) {
    match v
    case Undefined => false
    case Text(t) => t != ""
    case _ => true
  }

  /** `colors[color]`: an own property, else an inherited one, else `undefined`. */
  function ColorsLookup(color: string): (v: JsValue)
    ensures color in PhaseColors ==> v == Text(PhaseColors[color])
    ensures v.Undefined? <==> color !in PhaseColors && color !in PrototypeKeys
  {
    if color in PhaseColors then Text(PhaseColors[color])
    else if color == "__proto__" then PrototypeObject
    else if color in PrototypeKeys then Function(color)
    else Undefined
  }

  /** `getPhaseColor(color)` as written: `colors[color] || colors.blue`. */
  function PhaseColorAsWritten(color: string): (v: JsValue)
    ensures color in PhaseColors ==> v == Text(PhaseColors[color])
    ensures color !in PhaseColors && color !in PrototypeKeys ==> v == Text(Blue)
  {
    var own := ColorsLookup(color);
    if Truthy(own) then own else Text(Blue)
  }

  /** A colour named after an inherited member yields a function, not a class name. */
  lemma PhaseColorOfToString()
    ensures PhaseColorAsWritten("toString") == Function("toString")
    ensures !PhaseColorAsWritten("toString").Text?
  {
    assert "toString" !in PhaseColors;
  }

  /** `getPhaseColor` with the fallback it evidently intends: any unknown colour is blue. */
  function PhaseColor(color: string): (c: string)
    ensures c in PhaseColors.Values
    ensures color in PhaseColors ==> c == PhaseColors[color]
    ensures color !in PhaseColors ==> c == Blue
  {
    if color in PhaseColors then PhaseColors[color] else PhaseColors["blue"]
  }

  /** Away from the inherited member names the code as written already agrees with the intent. */
  lemma PhaseColorAgrees(color: string)
    requires color !in PrototypeKeys
    ensures PhaseColorAsWritten(color) == Text(PhaseColor(color))
  {
  }

  /** The five phase colours have five different class names. */
  lemma PhaseColorsDistinct(a: string, b: string)
    requires a in PhaseColors && b in PhaseColors
    ensures PhaseColor(a) == PhaseColor(b) <==> a == b
  {
    // Lengths differ except purple and orange, which differ nine characters from the end.
    assert |Blue| == 46 && |Green| == 49 && |Purple| == 52 && |Orange| == 52 && |Red| == 43;
    assert Purple[|Purple| - 9] == 'l' && Orange[|Orange| - 9] == 'g';
  }

  /** Every phase of the static data names one of the five colours, so the inherited keys never arise. */
  lemma RoadmapDataColors()
    ensures forall i :: 0 <= i < |RoadmapData| ==> RoadmapData[i].color in PhaseColors
    ensures forall i :: 0 <= i < |RoadmapData| ==>
      PhaseColorAsWritten(RoadmapData[i].color) == Text(PhaseColor(RoadmapData[i].color))
  {
  }
}
