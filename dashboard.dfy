/**
 * The dashboard's statistics: the project count and budget total, the
 * per-status histogram of the first project's tasks, the four cards that show
 * them (0 while data is missing) and the labels of the task-status chart.
 *
 * The histogram's keys are the status values themselves; the page keys a
 * record by their stored strings, which `TaskStatusName` maps one-to-one.
 */
module Dashboard {
  import opened Wrappers
  import opened Schema
  import opened Tables
  import opened Text
  import opened Storage

  /** The sum of the project budgets, in the reduce's order. */
  function BudgetTotal(projects: seq<Project>): Cents
    decreases |projects|
  {
    if |projects| == 0 then 0
    else BudgetTotal(projects[..|projects| - 1]) + projects[|projects| - 1].budget
  }

  /** The total of a concatenation is the sum of the totals. */
  lemma {:induction false} BudgetTotalAppend(a: seq<Project>, b: seq<Project>)
    ensures BudgetTotal(a + b) == BudgetTotal(a) + BudgetTotal(b)
    decreases |b|
  {
    if |b| == 0 {
      assert a + b == a;
    } else {
      assert (a + b)[..|a + b| - 1] == a + b[..|b| - 1];
      BudgetTotalAppend(a, b[..|b| - 1]);
    }
  }

  /**
   * `projectStats`, with the budget column read as the number it stores:
   * one pass adds every budget to `totalBudget` and one to `totalProjects`.
   */
  method ProjectStats(projects: seq<Project>) returns (totalBudget: Cents, totalProjects: nat)
    ensures totalBudget == BudgetTotal(projects)
    ensures totalProjects == |projects|
  {
    totalBudget, totalProjects := 0, 0;
    var i := 0;
    while i < |projects|
      invariant 0 <= i <= |projects|
      invariant totalBudget == BudgetTotal(projects[..i])
      invariant totalProjects == i
    {
      assert projects[..i + 1][..i] == projects[..i];
      totalBudget := totalBudget + projects[i].budget;
      totalProjects := totalProjects + 1;
      i := i + 1;
    }
    assert projects[..|projects|] == projects;
  }

  /** The texts one after the other. */
  function Concat(texts: seq<string>): string
    decreases |texts|
  {
    if |texts| == 0 then "" else texts[0] + Concat(texts[1..])
  }

  /**
   * `totalBudget` as the page computes it: the decimal column reaches the
   * client as text, so `0 += "100.00"` makes the string "0100.00" and each
   * later `+=` appends the next budget's text instead of adding it.
   */
  function TotalBudgetAsWritten(budgetTexts: seq<string>): string {
    "0" + Concat(budgetTexts)
  }

  /** One project with a budget of 100.00 shows a total of "0100.00", not "100.00". */
  lemma TotalBudgetAsWrittenConcatenates()
    ensures TotalBudgetAsWritten(["100.00"]) == "0100.00"
    ensures TotalBudgetAsWritten(["100.00"]) != "100.00"
  {
    assert Concat(["100.00"]) == "100.00" + Concat([]);
  }

  /** The number of tasks with status `s`, counted in the reduce's order. */
  function Count(tasks: seq<Task>, s: TaskStatus): nat
    decreases |tasks|
  {
    if |tasks| == 0 then 0
    else Count(tasks[..|tasks| - 1], s) + (if tasks[|tasks| - 1].status == s then 1 else 0)
  }

  function HasStatus(s: TaskStatus): Task -> bool {
    (t: Task) => t.status == s
  }

  /** The count is the size of the selection of tasks with that status. */
  lemma {:induction false} CountIsSelectionSize(tasks: seq<Task>, s: TaskStatus)
    ensures Count(tasks, s) == |Filter(tasks, HasStatus(s))|
    decreases |tasks|
  {
    if |tasks| > 0 {
      var init, last := tasks[..|tasks| - 1], tasks[|tasks| - 1];
      assert tasks == init + [last];
      CountIsSelectionSize(init, s);
      FilterAppendOne(init, last, HasStatus(s));
    }
  }

  /** Every task is counted under exactly one status. */
  lemma {:induction false} CountsSumToTotal(tasks: seq<Task>)
    ensures Count(tasks, Todo) + Count(tasks, InProgress) + Count(tasks, TaskStatus.Completed) == |tasks|
    decreases |tasks|
  {
    if |tasks| > 0 {
      CountsSumToTotal(tasks[..|tasks| - 1]);
    }
  }

  /**
   * `taskStats`: `acc[task.status] = (acc[task.status] || 0) + 1` for each
   * task. A status no task has never becomes a key.
   */
  method TaskStats(tasks: seq<Task>) returns (stats: map<TaskStatus, nat>)
    ensures forall s :: s in stats <==> Count(tasks, s) > 0
    ensures forall s :: s in stats ==> stats[s] == Count(tasks, s)
  {
    stats := map[];
    var i := 0;
    while i < |tasks|
      invariant 0 <= i <= |tasks|
      invariant forall s :: s in stats <==> Count(tasks[..i], s) > 0
      invariant forall s :: s in stats ==> stats[s] == Count(tasks[..i], s)
    {
      var status := tasks[i].status;
      var previous := if status in stats then stats[status] else 0;
      stats := stats[status := previous + 1];
      assert tasks[..i + 1][..i] == tasks[..i];
      i := i + 1;
    }
    assert tasks[..|tasks|] == tasks;
  }

  /** The four stats cards, the budget card holding the numeric total. */
  datatype Cards = Cards(totalProjects: nat, totalBudget: Cents, activeTasks: nat, completedTasks: nat)

  /** `stats?.[key] ?? 0`. */
  function StatOrZero(stats: Option<map<TaskStatus, nat>>, s: TaskStatus): nat {
    if stats.Some? && s in stats.value then stats.value[s] else 0
  }

  /**
   * The card values: `projectStats?.totalProjects ?? 0`, the budget total,
   * `taskStats?.in_progress ?? 0` and `taskStats?.completed ?? 0`, where a
   * query that has not answered is None.
   */
  method StatsCards(projects: Option<seq<Project>>, tasks: Option<seq<Task>>) returns (c: Cards)
    ensures c.totalProjects == if projects.Some? then |projects.value| else 0
    ensures c.totalBudget == if projects.Some? then BudgetTotal(projects.value) else 0
    ensures c.activeTasks == if tasks.Some? then Count(tasks.value, InProgress) else 0
    ensures c.completedTasks == if tasks.Some? then Count(tasks.value, TaskStatus.Completed) else 0
  {
    var budget, total := 0, 0;
    if projects.Some? {
      budget, total := ProjectStats(projects.value);
    }
    var stats: Option<map<TaskStatus, nat>> := None;
    if tasks.Some? {
      var m := TaskStats(tasks.value);
      stats := Some(m);
    }
    c := Cards(total, budget, StatOrZero(stats, InProgress), StatOrZero(stats, TaskStatus.Completed));
  }

  /** The tasks query asks for the first project's tasks, and only when that project's id is truthy. */
  function TasksQueryProject(projects: Option<seq<Project>>): (r: Option<nat>)
    ensures r.Some? <==> projects.Some? && |projects.value| > 0 && projects.value[0].id != 0
    ensures r.Some? ==> r.value == projects.value[0].id
  {
    if projects.Some? && |projects.value| > 0 && projects.value[0].id != 0
    then Some(projects.value[0].id) else None
  }

  /**
   * Serial ids start at 1, so on the stored projects the query's truthiness
   * test only asks whether there is a project, and it asks for the first one.
   */
  lemma TasksQueryRunsIffProjects(s: Store)
    requires s.Valid()
    ensures TasksQueryProject(Some(s.projects)).Some? <==> |s.projects| > 0
    ensures |s.projects| > 0 ==> TasksQueryProject(Some(s.projects)) == Some(s.projects[0].id)
  {
  }

  // ---------------------------------------------------------- the chart

  /** `status.replace("_", " ").toUpperCase()` for the chart's axis. */
  function ChartLabel(s: TaskStatus): string {
    DisplayLabel(TaskStatusName(s))
  }

  lemma TodoLabel()
    ensures ChartLabel(Todo) == "TODO"
  {
    var s := "todo";
    assert '_' !in s;
    assert forall i :: 0 <= i < |s| ==> ToUpper(s)[i] == "TODO"[i];
  }

  lemma UpperIn()
    ensures ToUpper("in") == "IN"
  {
    assert forall i :: 0 <= i < 2 ==> ToUpper("in")[i] == "IN"[i];
  }

  lemma UpperProgress()
    ensures ToUpper("progress") == "PROGRESS"
  {
    assert forall i :: 0 <= i < 8 ==> ToUpper("progress")[i] == "PROGRESS"[i];
  }

  /** The literal facts the in-progress label rests on. */
  lemma InProgressWords()
    ensures "in_progress" == "in" + "_" + "progress"
    ensures "IN PROGRESS" == "IN" + " " + "PROGRESS"
  {
  }

  lemma InProgressLabel()
    ensures ChartLabel(InProgress) == "IN PROGRESS"
  {
    InProgressWords();
    DisplayLabelJoin("in", "progress");
    UpperIn();
    UpperProgress();
  }

  lemma CompletedLabel()
    ensures ChartLabel(TaskStatus.Completed) == "COMPLETED"
  {
    var s := "completed";
    assert '_' !in s;
    assert forall i :: 0 <= i < |s| ==> ToUpper(s)[i] == "COMPLETED"[i];
  }

  /** The bar labels: in_progress loses its underscore and every status is upper-cased. */
  lemma ChartLabels()
    ensures ChartLabel(Todo) == "TODO"
    ensures ChartLabel(InProgress) == "IN PROGRESS"
    ensures ChartLabel(TaskStatus.Completed) == "COMPLETED"
  {
    TodoLabel();
    InProgressLabel();
    CompletedLabel();
  }

  /** No two statuses share a bar label. */
  lemma ChartLabelsDistinct(a: TaskStatus, b: TaskStatus)
    ensures ChartLabel(a) == ChartLabel(b) ==> a == b
  {
    ChartLabels();
  }

  /** One bar of the status chart. */
  datatype Bar = Bar(status: string, count: nat)

  /** `Object.entries(taskStats).map(...)`: a bar per histogram key, labelled for display. */
  function ChartData(stats: map<TaskStatus, nat>): (r: set<Bar>)
    ensures forall s :: s in stats ==> Bar(ChartLabel(s), stats[s]) in r
    ensures forall b :: b in r ==> exists s :: s in stats && b == Bar(ChartLabel(s), stats[s])
  {
    set s | s in stats :: Bar(ChartLabel(s), stats[s])
  }

  /** No two bars carry the same label. */
  lemma ChartBarsHaveDistinctLabels(stats: map<TaskStatus, nat>)
    ensures forall b1, b2 :: b1 in ChartData(stats) && b2 in ChartData(stats) && b1.status == b2.status ==> b1 == b2
  {
    forall b1, b2 | b1 in ChartData(stats) && b2 in ChartData(stats) && b1.status == b2.status
      ensures b1 == b2
    {
      var s1 :| s1 in stats && b1 == Bar(ChartLabel(s1), stats[s1]);
      var s2 :| s2 in stats && b2 == Bar(ChartLabel(s2), stats[s2]);
      ChartLabelsDistinct(s1, s2);
    }
  }
}
