/** The schedule layout pass of the Gantt chart and the risk colour map.

    Before drawing, the chart walks the task array once, left to right, with
    a `reduce` whose callback writes `start` and `end` into each task object
    in place. A task's start is the largest value its dependencies
    contribute, where a dependency is looked up by id (first match) in the
    array as it stands at that moment: tasks to the left have already been
    placed, tasks to the right still carry whatever `start`/`end` they came
    with. A found dependency contributes its `end`, or its `duration` when
    `end` is absent or 0 (JavaScript's `||`); an id that matches no task
    contributes 0. The callback hands back its accumulator untouched, so the
    "total duration" it yields is always the initial 0. */
module Gantt {
  import opened Wrappers
  import opened Projects

  // ---------------------------------------------------------------------
  // Lookup and dependency contributions
  // ---------------------------------------------------------------------

  /** Index of the first task carrying `id`, as `Array.prototype.find` scans. */
  function FirstIndex(tasks: seq<Task>, id: int): (k: Option<nat>)
    ensures k.Some? ==> k.value < |tasks| && tasks[k.value].id == id
    ensures k.Some? ==> forall j :: 0 <= j < k.value ==> tasks[j].id != id
    ensures k.None? <==> forall j :: 0 <= j < |tasks| ==> tasks[j].id != id
  {
    if |tasks| == 0 then None
    else if tasks[0].id == id then Some(0)
    else match FirstIndex(tasks[1..], id)
      case None => None
      case Some(k) => Some(k + 1)
  }

  function Find(tasks: seq<Task>, id: int): Option<Task>
  {
    match FirstIndex(tasks, id)
    case None => None
    case Some(k) => Some(tasks[k])
  }

  function Max(a: int, b: int): int { if a >= b then a else b }

  /** `task.end || task.duration`: an absent or zero end falls back to the duration. */
  function EndOrDuration(t: Task): (v: int)
    ensures t.end.Some? && t.end.value != 0 ==> v == t.end.value
    ensures t.end.None? || t.end.value == 0 ==> v == t.duration
  {
    if t.end.Some? && t.end.value != 0 then t.end.value else t.duration
  }

  /** On a laid-out task with non-negative start and duration the fallback
      never changes anything: the contribution is the task's end. */
  lemma EndOrDurationOfScheduled(t: Task)
    requires Scheduled(t) && t.start.value >= 0 && t.duration >= 0
    ensures EndOrDuration(t) == t.end.value
  {
  }

  /** What one dependency id contributes to a start: 0 when no task has that id. */
  function DependencyEnd(tasks: seq<Task>, depId: int): int
  {
    match Find(tasks, depId)
    case None => 0
    case Some(t) => EndOrDuration(t)
  }

  /** The first task carrying the id contributes its end (or duration), and
      an id no task carries contributes 0. */
  lemma DependencyEndIsFirstMatch(tasks: seq<Task>, depId: int)
    ensures (forall j :: 0 <= j < |tasks| ==> tasks[j].id != depId) ==> DependencyEnd(tasks, depId) == 0
    ensures forall k :: 0 <= k < |tasks| && tasks[k].id == depId && (forall j :: 0 <= j < k ==> tasks[j].id != depId) ==>
      DependencyEnd(tasks, depId) == EndOrDuration(tasks[k])
  {
  }

  /** `Math.max(...deps.map(...))`: the largest contribution of a non-empty
      dependency list. */
  function LargestContribution(tasks: seq<Task>, deps: seq<int>): int
    requires |deps| > 0
  {
    var first := DependencyEnd(tasks, deps[0]);
    if |deps| == 1 then first
    else
      Max(first, LargestContribution(tasks, deps[1..]))
  }

  /** The start of a task with the given dependency list, looked up in `tasks`. */
  function StartFrom(tasks: seq<Task>, deps: seq<int>): int
  {
    if |deps| == 0 then 0 else LargestContribution(tasks, deps)
  }

  /** `LargestContribution` is the maximum: no contribution exceeds it and
      some contribution attains it. */
  lemma {:induction false} LargestContributionIsMax(tasks: seq<Task>, deps: seq<int>)
    requires |deps| > 0
    ensures forall k :: 0 <= k < |deps| ==> DependencyEnd(tasks, deps[k]) <= LargestContribution(tasks, deps)
    ensures exists k :: 0 <= k < |deps| && DependencyEnd(tasks, deps[k]) == LargestContribution(tasks, deps)
  {
    if |deps| > 1 {
      LargestContributionIsMax(tasks, deps[1..]);
      assert forall k :: 1 <= k < |deps| ==> deps[k] == deps[1..][k - 1];
      var k' :| 0 <= k' < |deps[1..]| && DependencyEnd(tasks, deps[1..][k']) == LargestContribution(tasks, deps[1..]);
      assert deps[k' + 1] == deps[1..][k'];
    }
  }

  /** A task with no dependencies starts at 0; otherwise its start is the
      largest contribution of its dependencies: an upper bound of all of them,
      attained by one. */
  lemma StartFromIsLargest(tasks: seq<Task>, deps: seq<int>)
    ensures |deps| == 0 ==> StartFrom(tasks, deps) == 0
    ensures forall k :: 0 <= k < |deps| ==> DependencyEnd(tasks, deps[k]) <= StartFrom(tasks, deps)
    ensures |deps| > 0 ==> exists k :: 0 <= k < |deps| && DependencyEnd(tasks, deps[k]) == StartFrom(tasks, deps)
  {
    if |deps| > 0 {
      LargestContributionIsMax(tasks, deps);
    }
  }

  predicate Scheduled(t: Task)
  {
    t.start.Some? && t.end == Some(t.start.value + t.duration)
  }

  /** One step of the pass: `task` with `start` and `end` written, the
      dependencies being looked up in `tasks`. */
  function Place(tasks: seq<Task>, task: Task): (placed: Task)
    ensures SameTaskData(placed, task) && Scheduled(placed)
    ensures placed.start == Some(StartFrom(tasks, task.dependencies))
  {
    var s := StartFrom(tasks, task.dependencies);
    task.(start := Some(s), end := Some(s + task.duration))
  }

  // ---------------------------------------------------------------------
  // The pass
  // ---------------------------------------------------------------------

  /** What the pass yields: the reduce's value and the array after the in-place writes. */
  datatype Layout = Layout(totalDuration: int, tasks: seq<Task>)

  /** The reduce from index `i` on, `tasks` being the array as it stands. */
  function ReduceFrom(tasks: seq<Task>, i: nat, sum: int): (l: Layout)
    requires i <= |tasks|
    ensures l.totalDuration == sum
    ensures |l.tasks| == |tasks|
    ensures forall j :: 0 <= j < i ==> l.tasks[j] == tasks[j]
    ensures forall j :: i <= j < |tasks| ==> SameTaskData(l.tasks[j], tasks[j]) && Scheduled(l.tasks[j])
    decreases |tasks| - i
  {
    if i == |tasks| then Layout(sum, tasks)
    else
      var next := tasks[i := Place(tasks, tasks[i])];
      assert forall j :: 0 <= j < |tasks| && j != i ==> next[j] == tasks[j];
      ReduceFrom(next, i + 1, sum)
  }

  /** The layout pass over a project's tasks (the reduce starts from 0).
      Only `start` and `end` change; every task ends up scheduled; the total
      it yields is 0. */
  function GanttLayout(tasks: seq<Task>): (l: Layout)
    ensures l.totalDuration == 0
    ensures |l.tasks| == |tasks|
    ensures forall j :: 0 <= j < |tasks| ==> SameTaskData(l.tasks[j], tasks[j])
    ensures forall j :: 0 <= j < |tasks| ==> Scheduled(l.tasks[j])
  {
    ReduceFrom(tasks, 0, 0)
  }

  /** The step at index i places its task against the array it is handed. */
  lemma ReduceFromPlacesFirst(tasks: seq<Task>, i: nat, sum: int)
    requires i < |tasks|
    ensures var out := ReduceFrom(tasks, i, sum).tasks;
      out[i] == Place(out[..i] + tasks[i..], tasks[i])
  {
    var next := tasks[i := Place(tasks, tasks[i])];
    var out := ReduceFrom(next, i + 1, sum).tasks;
    assert ReduceFrom(tasks, i, sum).tasks == out;
    assert out[..i] == tasks[..i] by {
      assert forall m :: 0 <= m < i ==> out[m] == next[m] == tasks[m];
    }
    assert out[i] == next[i];
    JoinSplit(tasks, i);
  }

  /** Each step of the reduce places its task against the array as it stood
      at that moment: the already placed prefix followed by the untouched rest. */
  lemma {:induction false} ReduceFromPlaces(tasks: seq<Task>, i: nat, sum: int, j: nat)
    requires i <= j < |tasks|
    ensures var out := ReduceFrom(tasks, i, sum).tasks;
      out[j] == Place(out[..j] + tasks[j..], tasks[j])
    decreases |tasks| - i
  {
    if j == i {
      ReduceFromPlacesFirst(tasks, i, sum);
    } else {
      var next := tasks[i := Place(tasks, tasks[i])];
      assert ReduceFrom(tasks, i, sum) == ReduceFrom(next, i + 1, sum);
      ReduceFromPlaces(next, i + 1, sum, j);
      UpdateKeepsSuffix(tasks, i, Place(tasks, tasks[i]), j);
    }
  }

  /** The exact outcome of the pass: task j gets the start computed against
      the placed prefix `out[..j]` and the original rest `tasks[j..]`. */
  lemma LayoutPlacesTask(tasks: seq<Task>, j: nat)
    requires j < |tasks|
    ensures var out := GanttLayout(tasks).tasks;
      out[j] == Place(out[..j] + tasks[j..], tasks[j])
  {
    ReduceFromPlaces(tasks, 0, 0, j);
  }

  /** A task without dependencies starts at 0 and ends at its duration. */
  lemma NoDependenciesStartAtZero(tasks: seq<Task>)
    ensures var out := GanttLayout(tasks).tasks;
      forall j :: 0 <= j < |tasks| && |tasks[j].dependencies| == 0 ==>
        out[j].start == Some(0) && out[j].end == Some(tasks[j].duration)
  {
    var out := GanttLayout(tasks).tasks;
    forall j | 0 <= j < |tasks| && |tasks[j].dependencies| == 0
      ensures out[j].start == Some(0) && out[j].end == Some(tasks[j].duration)
    {
      LayoutPlacesTask(tasks, j);
    }
  }

  // ---------------------------------------------------------------------
  // The chart's time span
  // ---------------------------------------------------------------------

  /** The end a task was given, 0 for a task not laid out. */
  function EndValue(t: Task): int
  {
    match t.end
    case Some(e) => e
    case None => 0
  }

  /** The largest end among `tasks`, and 0 when none is positive: the span
      the time axis `[0, total]` has to cover. */
  function LatestEnd(tasks: seq<Task>): (m: int)
    ensures 0 <= m
    ensures forall i :: 0 <= i < |tasks| ==> EndValue(tasks[i]) <= m
    ensures m == 0 || exists i :: 0 <= i < |tasks| && EndValue(tasks[i]) == m
  {
    if |tasks| == 0 then 0
    else
      var rest := LatestEnd(tasks[1..]);
      assert forall i :: 1 <= i < |tasks| ==> tasks[i] == tasks[1..][i - 1];
      if EndValue(tasks[0]) >= rest then EndValue(tasks[0]) else rest
  }

  /** The layout pass with the total the time axis needs: the same placed
      tasks as `GanttLayout`, and as total the latest end instead of the
      reduce's untouched accumulator. */
  function ChartLayout(tasks: seq<Task>): (l: Layout)
    ensures l.tasks == GanttLayout(tasks).tasks
    ensures forall i :: 0 <= i < |l.tasks| ==> l.tasks[i].end.value <= l.totalDuration
    ensures l.totalDuration == 0 || exists i :: 0 <= i < |l.tasks| && l.tasks[i].end == Some(l.totalDuration)
  {
    var out := GanttLayout(tasks).tasks;
    Layout(LatestEnd(out), out)
  }

  // ---------------------------------------------------------------------
  // Arrays in dependency order
  // ---------------------------------------------------------------------

  /** Every dependency id names some task further to the left. */
  ghost predicate DependenciesEarlier(tasks: seq<Task>)
  {
    forall i, d :: 0 <= i < |tasks| && d in tasks[i].dependencies ==>
      exists j :: 0 <= j < i && tasks[j].id == d
  }

  /** Task i starts no earlier than the end of the task that dependency id d
      resolves to, and that task sits to its left. */
  ghost predicate WaitsFor(tasks: seq<Task>, i: nat, d: int)
    requires i < |tasks|
  {
    match FirstIndex(tasks, d)
    case None => false
    case Some(k) =>
      k < i && tasks[k].end.Some? && tasks[i].start.Some? && tasks[k].end.value <= tasks[i].start.value
  }

  lemma {:induction false} FirstIndexFollowsIds(a: seq<Task>, b: seq<Task>, id: int)
    requires |a| == |b|
    requires forall m :: 0 <= m < |a| ==> a[m].id == b[m].id
    ensures FirstIndex(a, id) == FirstIndex(b, id)
  {
    if |a| > 0 && a[0].id != id {
      FirstIndexFollowsIds(a[1..], b[1..], id);
    }
  }

  lemma {:induction false} LargestContributionFollows(a: seq<Task>, b: seq<Task>, deps: seq<int>)
    requires |deps| > 0
    requires forall k :: 0 <= k < |deps| ==> DependencyEnd(a, deps[k]) == DependencyEnd(b, deps[k])
    ensures LargestContribution(a, deps) == LargestContribution(b, deps)
  {
    if |deps| > 1 {
      forall k | 0 <= k < |deps[1..]|
        ensures DependencyEnd(a, deps[1..][k]) == DependencyEnd(b, deps[1..][k])
      {
        assert deps[1..][k] == deps[k + 1];
      }
      LargestContributionFollows(a, b, deps[1..]);
    }
  }

  lemma StartFromFollowsContributions(a: seq<Task>, b: seq<Task>, deps: seq<int>)
    requires forall k :: 0 <= k < |deps| ==> DependencyEnd(a, deps[k]) == DependencyEnd(b, deps[k])
    ensures StartFrom(a, deps) == StartFrom(b, deps)
  {
    if |deps| > 0 {
      LargestContributionFollows(a, b, deps);
    }
  }

  /** Facts about a finished layout `out` of `tasks` that the dependency-order
      argument uses. */
  ghost predicate LaidOut(tasks: seq<Task>, out: seq<Task>)
  {
    && |out| == |tasks|
    && (forall m :: 0 <= m < |tasks| ==> SameTaskData(out[m], tasks[m]) && Scheduled(out[m]))
  }

  /** A dependency id found to the left of task i resolves to the same task in
      the array of that step and in the finished layout. */
  lemma ResolvedDependencyIsPlaced(tasks: seq<Task>, out: seq<Task>, i: nat, d: int, j: nat)
    requires LaidOut(tasks, out)
    requires j < i < |tasks| && tasks[j].id == d
    ensures DependencyEnd(out[..i] + tasks[i..], d) == DependencyEnd(out, d)
    ensures FirstIndex(out, d).Some? && FirstIndex(out, d).value < i
  {
    var state := out[..i] + tasks[i..];
    StepStateIds(out, tasks, i);
    FirstIndexFollowsIds(state, tasks, d);
    FirstIndexFollowsIds(tasks, out, d);
    var m := FirstIndex(out, d).value;
    assert m <= j;
    assert state[m] == out[m];
  }

  lemma TaskWaitsForDependencies(tasks: seq<Task>, out: seq<Task>, i: nat)
    requires LaidOut(tasks, out) && i < |tasks|
    requires out[i] == Place(out[..i] + tasks[i..], tasks[i])
    requires forall d :: d in tasks[i].dependencies ==> exists j :: 0 <= j < i && tasks[j].id == d
    requires forall m :: 0 <= m < |tasks| ==> tasks[m].duration >= 0
    ensures out[i].start == Some(StartFrom(out, out[i].dependencies))
    ensures forall d :: d in out[i].dependencies ==> WaitsFor(out, i, d)
  {
    var state := out[..i] + tasks[i..];
    var deps := tasks[i].dependencies;
    assert SameTaskData(out[i], tasks[i]);
    forall k | 0 <= k < |deps|
      ensures DependencyEnd(state, deps[k]) == DependencyEnd(out, deps[k])
    {
      assert deps[k] in tasks[i].dependencies;
      var j :| 0 <= j < i && tasks[j].id == deps[k];
      ResolvedDependencyIsPlaced(tasks, out, i, deps[k], j);
    }
    StartFromFollowsContributions(state, out, deps);
    var s := StartFrom(out, deps);
    StartFromIsLargest(out, deps);
    assert out[i].start == Some(s);
    forall d | d in out[i].dependencies
      ensures WaitsFor(out, i, d)
    {
      var j :| 0 <= j < i && tasks[j].id == d;
      ResolvedDependencyIsPlaced(tasks, out, i, d, j);
      var k :| 0 <= k < |deps| && deps[k] == d;
      var m := FirstIndex(out, d).value;
      assert Scheduled(out[m]) && SameTaskData(out[m], tasks[m]);
      assert DependencyEnd(out, d) <= s;
    }
  }

  /** When every dependency appears earlier in the array, each start is the
      largest contribution read off the finished layout itself, and no task
      starts before any of its dependencies ends (durations being
      non-negative). */
  lemma DependencyOrderRespected(tasks: seq<Task>)
    requires DependenciesEarlier(tasks)
    requires forall i :: 0 <= i < |tasks| ==> tasks[i].duration >= 0
    ensures var out := GanttLayout(tasks).tasks;
      forall i :: 0 <= i < |out| ==> out[i].start == Some(StartFrom(out, out[i].dependencies))
    ensures var out := GanttLayout(tasks).tasks;
      forall i, d :: 0 <= i < |out| && d in out[i].dependencies ==> WaitsFor(out, i, d)
  {
    var out := GanttLayout(tasks).tasks;
    assert LaidOut(tasks, out);
    forall i | 0 <= i < |out|
      ensures out[i].start == Some(StartFrom(out, out[i].dependencies))
      ensures forall d :: d in out[i].dependencies ==> WaitsFor(out, i, d)
    {
      LayoutPlacesTask(tasks, i);
      TaskWaitsForDependencies(tasks, out, i);
    }
  }

  // ---------------------------------------------------------------------
  // Sequence facts used by the proofs above
  // ---------------------------------------------------------------------

  lemma JoinSplit<T>(s: seq<T>, i: nat)
    requires i <= |s|
    ensures s[..i] + s[i..] == s
  {
  }

  lemma UpdateKeepsSuffix<T>(s: seq<T>, i: nat, v: T, j: nat)
    requires i < j < |s|
    ensures s[i := v][j..] == s[j..] && s[i := v][j] == s[j]
  {
  }

  lemma SpliceAt<T>(a: seq<T>, b: seq<T>, j: nat, m: nat)
    requires j <= |a| == |b| && m < |a|
    ensures |a[..j] + b[j..]| == |a|
    ensures (a[..j] + b[j..])[m] == if m < j then a[m] else b[m]
  {
  }

  /** The array held at step j carries the ids of the original array, the
      placed tasks to the left of j and the original ones from j on. */
  lemma StepStateIds(out: seq<Task>, tasks: seq<Task>, j: nat)
    requires |out| == |tasks| && j <= |tasks|
    requires forall m :: 0 <= m < |tasks| ==> SameTaskData(out[m], tasks[m])
    ensures |out[..j] + tasks[j..]| == |tasks|
    ensures forall m :: 0 <= m < |tasks| ==> (out[..j] + tasks[j..])[m].id == tasks[m].id
    ensures forall m :: 0 <= m < j ==> (out[..j] + tasks[j..])[m] == out[m]
    ensures forall m :: j <= m < |tasks| ==> (out[..j] + tasks[j..])[m] == tasks[m]
  {
    forall m | 0 <= m < |tasks|
      ensures (out[..j] + tasks[j..])[m] == if m < j then out[m] else tasks[m]
    {
      SpliceAt(out, tasks, j, m);
    }
  }

  // ---------------------------------------------------------------------
  // Risk colours
  // ---------------------------------------------------------------------

  /** Bar colour of a task's risk category; anything unrecognised is grey. */
  function RiskColor(risk: string): (color: string)
    ensures risk == "low" <==> color == "#4caf50"
    ensures risk == "medium" <==> color == "#ff9800"
    ensures risk == "high" <==> color == "#f44336"
    ensures color == "#aaa" <==> risk != "low" && risk != "medium" && risk != "high"
  {
    match risk
    case "low" => "#4caf50"
    case "medium" => "#ff9800"
    case "high" => "#f44336"
    case _ => "#aaa"
  }
}
