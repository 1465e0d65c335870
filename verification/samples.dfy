/** The layout and the estimator checked against the bundled sample projects
    and small hand-made task lists. */
module Samples {
  import opened Wrappers
  import opened Projects
  import opened Gantt

  /** The (start, end) pairs a layout wrote. */
  function Spans(tasks: seq<Task>): (spans: seq<(Option<int>, Option<int>)>)
    ensures |spans| == |tasks|
    ensures forall i :: 0 <= i < |tasks| ==> spans[i] == (tasks[i].start, tasks[i].end)
  {
    seq(|tasks|, i requires 0 <= i < |tasks| => (tasks[i].start, tasks[i].end))
  }

  function Span(s: int, e: int): (Option<int>, Option<int>) { (Some(s), Some(e)) }

  /** The array the pass consults while placing task j. */
  function StepState(tasks: seq<Task>, j: nat): seq<Task>
    requires j <= |tasks|
  {
    GanttLayout(tasks).tasks[..j] + tasks[j..]
  }

  /** Task j is placed against the array of its step. */
  lemma StepStart(tasks: seq<Task>, j: nat)
    requires j < |tasks|
    ensures GanttLayout(tasks).tasks[j].start == Some(StartFrom(StepState(tasks, j), tasks[j].dependencies))
    ensures GanttLayout(tasks).tasks[j].end
         == Some(StartFrom(StepState(tasks, j), tasks[j].dependencies) + tasks[j].duration)
  {
    var out := GanttLayout(tasks).tasks;
    var state := StepState(tasks, j);
    LayoutPlacesTask(tasks, j);
    var s := StartFrom(state, tasks[j].dependencies);
    assert Place(state, tasks[j]).start == Some(s);
    var p := Place(state, tasks[j]);
    assert Scheduled(p) && SameTaskData(p, tasks[j]);
    assert p.end == Some(s + tasks[j].duration);
    assert out[j].end == Some(s + tasks[j].duration);
  }

  /** While placing task j, the id of task k resolves to task k, placed when k < j. */
  lemma StepResolves(tasks: seq<Task>, j: nat, k: nat)
    requires j < |tasks| && k < |tasks|
    requires forall m :: 0 <= m < k ==> tasks[m].id != tasks[k].id
    ensures var out := GanttLayout(tasks).tasks;
      DependencyEnd(StepState(tasks, j), tasks[k].id) == EndOrDuration(if k < j then out[k] else tasks[k])
  {
    var out := GanttLayout(tasks).tasks;
    var state := StepState(tasks, j);
    StepStateIds(out, tasks, j);
    assert FirstIndex(state, tasks[k].id) == Some(k);
  }

  /** While placing any task, an id that no task carries contributes 0. */
  lemma StepUnknown(tasks: seq<Task>, j: nat, d: int)
    requires j < |tasks|
    requires forall m :: 0 <= m < |tasks| ==> tasks[m].id != d
    ensures DependencyEnd(StepState(tasks, j), d) == 0
  {
    var out := GanttLayout(tasks).tasks;
    StepStateIds(out, tasks, j);
  }

  /** With two dependencies the start is the larger of their contributions. */
  lemma StartFromPair(state: seq<Task>, a: int, b: int)
    ensures StartFrom(state, [a, b]) == Max(DependencyEnd(state, a), DependencyEnd(state, b))
  {
    assert [a, b][1..] == [b];
    assert LargestContribution(state, [b]) == DependencyEnd(state, b);
  }

  /** A task without dependencies is laid out at [0, duration). */
  lemma RootStep(tasks: seq<Task>, j: nat)
    requires j < |tasks| && tasks[j].dependencies == []
    ensures GanttLayout(tasks).tasks[j].start == Some(0)
    ensures GanttLayout(tasks).tasks[j].end == Some(tasks[j].duration)
  {
    StepStart(tasks, j);
  }

  /** A task whose one dependency is an earlier task ending at e != 0 starts at e. */
  lemma ChainStep(tasks: seq<Task>, j: nat, k: nat, e: int)
    requires k < j < |tasks|
    requires tasks[j].dependencies == [tasks[k].id]
    requires forall m :: 0 <= m < k ==> tasks[m].id != tasks[k].id
    requires GanttLayout(tasks).tasks[k].end == Some(e) && e != 0
    ensures GanttLayout(tasks).tasks[j].start == Some(e)
    ensures GanttLayout(tasks).tasks[j].end == Some(e + tasks[j].duration)
  {
    StepResolves(tasks, j, k);
    StepStart(tasks, j);
  }

  /** A task whose two dependencies are earlier tasks ending at e1, e2 != 0
      starts at the later of the two. */
  lemma JoinStep(tasks: seq<Task>, j: nat, k1: nat, k2: nat, e1: int, e2: int)
    requires k1 < j && k2 < j && j < |tasks|
    requires tasks[j].dependencies == [tasks[k1].id, tasks[k2].id]
    requires forall m :: 0 <= m < k1 ==> tasks[m].id != tasks[k1].id
    requires forall m :: 0 <= m < k2 ==> tasks[m].id != tasks[k2].id
    requires GanttLayout(tasks).tasks[k1].end == Some(e1) && e1 != 0
    requires GanttLayout(tasks).tasks[k2].end == Some(e2) && e2 != 0
    ensures GanttLayout(tasks).tasks[j].start == Some(Max(e1, e2))
    ensures GanttLayout(tasks).tasks[j].end == Some(Max(e1, e2) + tasks[j].duration)
  {
    var out, state := GanttLayout(tasks).tasks, StepState(tasks, j);
    StepResolves(tasks, j, k1);
    assert DependencyEnd(state, tasks[k1].id) == EndOrDuration(out[k1]) == e1;
    StepResolves(tasks, j, k2);
    assert DependencyEnd(state, tasks[k2].id) == EndOrDuration(out[k2]) == e2;
    StartFromPair(state, tasks[k1].id, tasks[k2].id);
    StepStart(tasks, j);
  }

  /** The fields the layout reads, position by position: ids, durations and
      dependency lists, on tasks not laid out before. */
  predicate Outline(tasks: seq<Task>, ids: seq<int>, durations: seq<int>, deps: seq<seq<int>>)
  {
    && |tasks| == |ids| == |durations| == |deps|
    && forall i :: 0 <= i < |tasks| ==>
         && tasks[i].id == ids[i] && tasks[i].duration == durations[i] && tasks[i].dependencies == deps[i]
         && tasks[i].end.None?
  }

  lemma SimpleProjectOutline(tasks: seq<Task>)
    requires tasks == SimpleProject().tasks
    ensures Outline(tasks, [1, 2, 3, 4, 5], [5, 7, 10, 5, 2], [[], [1], [2], [3], [4]])
  {
  }

  lemma ComplexProjectOutline(tasks: seq<Task>)
    requires tasks == ComplexProject().tasks
    ensures Outline(tasks, [1, 2, 3, 4, 5, 6, 7, 8, 9], [7, 5, 10, 15, 12, 8, 7, 5, 2],
                    [[], [1], [2], [2], [3, 4], [5], [6], [7], [8]])
  {
  }

  /** A task whose one dependency sits further right, not yet laid out,
      starts at that dependency's duration. */
  lemma AheadStep(tasks: seq<Task>, j: nat, k: nat)
    requires j < k < |tasks|
    requires tasks[j].dependencies == [tasks[k].id]
    requires forall m :: 0 <= m < k ==> tasks[m].id != tasks[k].id
    requires tasks[k].end.None?
    ensures GanttLayout(tasks).tasks[j].start == Some(tasks[k].duration)
    ensures GanttLayout(tasks).tasks[j].end == Some(tasks[k].duration + tasks[j].duration)
  {
    StepResolves(tasks, j, k);
    StepStart(tasks, j);
  }

  /** A task whose one dependency sits further right and still carries an
      end e != 0 from an earlier pass starts at e. */
  lemma StaleStep(tasks: seq<Task>, j: nat, k: nat, e: int)
    requires j < k < |tasks|
    requires tasks[j].dependencies == [tasks[k].id]
    requires forall m :: 0 <= m < k ==> tasks[m].id != tasks[k].id
    requires tasks[k].end == Some(e) && e != 0
    ensures GanttLayout(tasks).tasks[j].start == Some(e)
    ensures GanttLayout(tasks).tasks[j].end == Some(e + tasks[j].duration)
  {
    StepResolves(tasks, j, k);
    StepStart(tasks, j);
  }

  /** The simple sample is a chain: each step starts where the previous ends. */
  lemma SimpleProjectLayout(tasks: seq<Task>)
    requires tasks == SimpleProject().tasks
    ensures GanttLayout(tasks).totalDuration == 0
    ensures Spans(GanttLayout(tasks).tasks)
         == [Span(0, 5), Span(5, 12), Span(12, 22), Span(22, 27), Span(27, 29)]
  {
    SimpleProjectOutline(tasks);
    SimpleLayoutFromOutline(tasks);
  }

  lemma SimpleLayoutFromOutline(tasks: seq<Task>)
    requires Outline(tasks, [1, 2, 3, 4, 5], [5, 7, 10, 5, 2], [[], [1], [2], [3], [4]])
    ensures Spans(GanttLayout(tasks).tasks)
         == [Span(0, 5), Span(5, 12), Span(12, 22), Span(22, 27), Span(27, 29)]
  {
    RootStep(tasks, 0);
    ChainStep(tasks, 1, 0, 5);
    ChainStep(tasks, 2, 1, 12);
    ChainStep(tasks, 3, 2, 22);
    ChainStep(tasks, 4, 3, 27);
  }

  /** The first four tasks of the complex sample: research, requirements,
      then design and back end side by side. */
  lemma ComplexProjectFirstHalf(tasks: seq<Task>)
    requires Outline(tasks, [1, 2, 3, 4, 5, 6, 7, 8, 9], [7, 5, 10, 15, 12, 8, 7, 5, 2],
                     [[], [1], [2], [2], [3, 4], [5], [6], [7], [8]])
    ensures var out := GanttLayout(tasks).tasks;
      && (out[0].start, out[0].end) == Span(0, 7)
      && (out[1].start, out[1].end) == Span(7, 12)
      && (out[2].start, out[2].end) == Span(12, 22)
      && (out[3].start, out[3].end) == Span(12, 27)
  {
    RootStep(tasks, 0);
    ChainStep(tasks, 1, 0, 7);
    ChainStep(tasks, 2, 1, 12);
    ChainStep(tasks, 3, 1, 12);
  }

  /** The front end joins design and back end; integration follows it. */
  lemma ComplexProjectJoin(tasks: seq<Task>)
    requires Outline(tasks, [1, 2, 3, 4, 5, 6, 7, 8, 9], [7, 5, 10, 15, 12, 8, 7, 5, 2],
                     [[], [1], [2], [2], [3, 4], [5], [6], [7], [8]])
    requires GanttLayout(tasks).tasks[2].end == Some(22)
    requires GanttLayout(tasks).tasks[3].end == Some(27)
    ensures var out := GanttLayout(tasks).tasks;
      && (out[4].start, out[4].end) == Span(27, 39)
      && (out[5].start, out[5].end) == Span(39, 47)
  {
    JoinStep(tasks, 4, 2, 3, 22, 27);
    ChainStep(tasks, 5, 4, 39);
  }

  /** From integration on, the complex sample is a chain. */
  lemma ComplexProjectTail(tasks: seq<Task>)
    requires Outline(tasks, [1, 2, 3, 4, 5, 6, 7, 8, 9], [7, 5, 10, 15, 12, 8, 7, 5, 2],
                     [[], [1], [2], [2], [3, 4], [5], [6], [7], [8]])
    requires GanttLayout(tasks).tasks[5].end == Some(47)
    ensures var out := GanttLayout(tasks).tasks;
      && (out[6].start, out[6].end) == Span(47, 54)
      && (out[7].start, out[7].end) == Span(54, 59)
      && (out[8].start, out[8].end) == Span(59, 61)
  {
    ChainStep(tasks, 6, 5, 47);
    ChainStep(tasks, 7, 6, 54);
    ChainStep(tasks, 8, 7, 59);
  }

  /** In the complex sample the front end waits for the later of design (ends
      at 22) and back end (ends at 27). */
  lemma ComplexProjectLayout(tasks: seq<Task>)
    requires tasks == ComplexProject().tasks
    ensures Spans(GanttLayout(tasks).tasks)
         == [Span(0, 7), Span(7, 12), Span(12, 22), Span(12, 27), Span(27, 39),
             Span(39, 47), Span(47, 54), Span(54, 59), Span(59, 61)]
  {
    ComplexProjectOutline(tasks);
    ComplexProjectFirstHalf(tasks);
    ComplexProjectJoin(tasks);
    ComplexProjectTail(tasks);
  }

  /** On the simple sample the pass yields a total of 0 while its last task
      ends at 29, so the axis `[0, total]` it feeds is empty; the latest end
      covers the whole schedule. */
  lemma SimpleProjectTotal(tasks: seq<Task>)
    requires tasks == SimpleProject().tasks
    ensures GanttLayout(tasks).totalDuration == 0
    ensures GanttLayout(tasks).tasks[4].end == Some(29)
    ensures ChartLayout(tasks).totalDuration == 29
  {
    SimpleProjectLayout(tasks);
    var out := GanttLayout(tasks).tasks;
    assert Spans(out)[0].1 == Some(5) && Spans(out)[1].1 == Some(12) && Spans(out)[2].1 == Some(22);
    assert Spans(out)[3].1 == Some(27) && Spans(out)[4].1 == Some(29);
  }

  function Diamond(): seq<Task>
  {
    [ NewTask(1, "A", 5, [], "low"),
      NewTask(2, "B", 7, [1], "low"),
      NewTask(3, "C", 10, [1], "low"),
      NewTask(4, "D", 3, [2, 3], "low") ]
  }

  /** B and C both follow A; D, depending on both, starts at the later of
      their ends, 15. */
  lemma DiamondLayout(tasks: seq<Task>)
    requires tasks == Diamond()
    ensures Spans(GanttLayout(tasks).tasks) == [Span(0, 5), Span(5, 12), Span(5, 15), Span(15, 18)]
  {
    RootStep(tasks, 0);
    ChainStep(tasks, 1, 0, 5);
    ChainStep(tasks, 2, 0, 5);
    JoinStep(tasks, 3, 1, 2, 12, 15);
  }

  /** Both sample projects list every dependency before the task that needs
      it, with non-negative durations, so on them the pass schedules no task
      before any of its dependencies ends. */
  lemma SampleProjectsDependencyOrdered(tasks: seq<Task>)
    requires tasks == SimpleProject().tasks || tasks == ComplexProject().tasks
    ensures DependenciesEarlier(tasks)
    ensures var out := GanttLayout(tasks).tasks;
      forall i, d :: 0 <= i < |out| && d in out[i].dependencies ==> WaitsFor(out, i, d)
  {
    forall i, d | 0 <= i < |tasks| && d in tasks[i].dependencies
      ensures exists j :: 0 <= j < i && tasks[j].id == d
    {
      assert tasks[d - 1].id == d;
    }
    DependencyOrderRespected(tasks);
  }

  function ReversedChain(): seq<Task>
  {
    [ NewTask(3, "C", 10, [2], "low"),
      NewTask(2, "B", 7, [1], "low"),
      NewTask(1, "A", 5, [], "low") ]
  }

  /** Listed in reverse order, each task finds its dependency not yet placed
      and falls back to that dependency's duration, so C starts at 7 although
      B ends at 12: the pass depends on array order. */
  lemma ReversedChainLayout(tasks: seq<Task>)
    requires tasks == ReversedChain()
    ensures Spans(GanttLayout(tasks).tasks) == [Span(7, 17), Span(5, 12), Span(0, 5)]
  {
    assert Outline(tasks, [3, 2, 1], [10, 7, 5], [[2], [1], []]);
    AheadStep(tasks, 0, 1);
    AheadStep(tasks, 1, 2);
    RootStep(tasks, 2);
  }

  /** The pass writes into the task objects themselves, so drawing the same
      array again starts from the previous `start`/`end`. On the reversed
      chain the second pass finds B's earlier end, 12, and moves C to 12–22. */
  lemma ReversedChainRedrawn(tasks: seq<Task>)
    requires tasks == GanttLayout(ReversedChain()).tasks
    ensures Spans(GanttLayout(tasks).tasks) == [Span(12, 22), Span(5, 12), Span(0, 5)]
  {
    ReversedChainAfterFirstPass(ReversedChain(), tasks);
    RedrawnFromFirstPass(tasks);
  }

  /** The reversed chain after one pass: the same ids, durations and
      dependencies, with B ending at 12 and A at 5. */
  lemma ReversedChainAfterFirstPass(first: seq<Task>, tasks: seq<Task>)
    requires first == ReversedChain() && tasks == GanttLayout(first).tasks
    ensures |tasks| == 3
    ensures tasks[0].id == 3 && tasks[1].id == 2 && tasks[2].id == 1
    ensures tasks[0].dependencies == [2] && tasks[1].dependencies == [1] && tasks[2].dependencies == []
    ensures tasks[0].duration == 10 && tasks[1].duration == 7 && tasks[2].duration == 5
    ensures tasks[1].end == Some(12) && tasks[2].end == Some(5)
  {
    ReversedChainLayout(first);
    assert SameTaskData(tasks[0], first[0]) && SameTaskData(tasks[1], first[1]) && SameTaskData(tasks[2], first[2]);
    assert Spans(tasks)[1].1 == Some(12) && Spans(tasks)[2].1 == Some(5);
  }

  lemma RedrawnFromFirstPass(tasks: seq<Task>)
    requires |tasks| == 3
    requires tasks[0].id == 3 && tasks[1].id == 2 && tasks[2].id == 1
    requires tasks[0].dependencies == [2] && tasks[1].dependencies == [1] && tasks[2].dependencies == []
    requires tasks[0].duration == 10 && tasks[1].duration == 7 && tasks[2].duration == 5
    requires tasks[1].end == Some(12) && tasks[2].end == Some(5)
    ensures Spans(GanttLayout(tasks).tasks) == [Span(12, 22), Span(5, 12), Span(0, 5)]
  {
    StaleStep(tasks, 0, 1, 12);
    StaleStep(tasks, 1, 2, 5);
    RootStep(tasks, 2);
  }

  function DuplicateIds(): seq<Task>
  {
    [ NewTask(1, "A", 4, [], "low"),
      NewTask(1, "A'", 9, [], "low"),
      NewTask(2, "B", 3, [1, 42], "low"),
      NewTask(3, "C", 2, [42], "low") ]
  }

  /** An id no task carries contributes 0, and of two tasks sharing an id the
      first one is used. */
  lemma DuplicateAndUnknownIdsLayout(tasks: seq<Task>)
    requires tasks == DuplicateIds()
    ensures Spans(GanttLayout(tasks).tasks) == [Span(0, 4), Span(0, 9), Span(4, 7), Span(0, 2)]
  {
    assert Outline(tasks, [1, 1, 2, 3], [4, 9, 3, 2], [[], [], [1, 42], [42]]);
    DuplicateLayoutFromOutline(tasks);
  }

  lemma DuplicateLayoutFromOutline(tasks: seq<Task>)
    requires Outline(tasks, [1, 1, 2, 3], [4, 9, 3, 2], [[], [], [1, 42], [42]])
    ensures Spans(GanttLayout(tasks).tasks) == [Span(0, 4), Span(0, 9), Span(4, 7), Span(0, 2)]
  {
    RootStep(tasks, 0);
    RootStep(tasks, 1);
    StepResolves(tasks, 2, 0); StepUnknown(tasks, 2, 42); StepStart(tasks, 2);
    StartFromPair(StepState(tasks, 2), 1, 42);
    StepUnknown(tasks, 3, 42); StepStart(tasks, 3);
  }
}
