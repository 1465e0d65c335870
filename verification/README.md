# Quantum Timeline Compressor — estimator and schedule layout in Dafny

This project models the computational core of the Quantum Timeline Compressor, a
browser tool that "compresses" a project plan:

- **Estimator** (`engine.dfy`, module `Engine`). The `QuantumTimelineCompressor` object holds:
  - a loaded project;
  - an aggression level, 70 by default;
  - a risk threshold, 30 by default;
  - the result of the last analysis.

  An analysis derives three numbers:
  - a timeline reduction, `min(35, floor(aggression·0.4))`;
  - a risk level, `max(5, min(50, floor(aggression·0.35)))`;
  - a random "optimal path" count, `floor(10000·(random·0.3 + 0.7))`.

  It also builds a recommendation list:
  - first, the pair of entries for the reduction's bucket (above 25, 16..25, at most 15);
  - then a risk-management entry when the risk strictly exceeds the threshold;
  - last, a monitoring entry.

  The estimator is an immutable `Compressor` value; each setter returns the updated value. `RunAnalysis` is a
  function that takes the random draw as a parameter and returns either
  `ProjectNotLoaded` or the updated estimator and its result.
- **Sample projects** (`projects.dfy`, module `Projects`). The data model is a
  `Task` with id, name, duration, dependency ids, risk category and the `start`/`end` offsets
  that the layout writes. The module also holds the "simple" (5 tasks) and "complex" (9 tasks)
  sample projects.
- **Gantt layout pass and risk colours** (`gantt.dfy`, module `Gantt`).
  - Before drawing, the chart runs a `reduce` over the task array. Its callback writes
    `start`/`end` into each task in place. These are the same task objects the estimator's
    project and the sample map hold (qtc-engine.js:193, 225, 254), so a later render starts
    from the previous pass's `start`/`end`. The samples are unplaced only before their first
    render; `Samples.ReversedChainRedrawn` shows a second pass moving a task.
  - A task's start is the largest `end || duration` among its dependencies. Each dependency is looked up by id
    (first match) in the array as it stands at that step.
  - An id that matches no task contributes 0. A task with no dependencies starts at 0.
  - The reduce hands back its initial accumulator, so the "total duration" it yields is always 0.
  - The model follows this literally: `ReduceFrom` updates one element per
    step, and `LayoutPlacesTask` states exactly which array each step consults.
  - Risk categories map to bar colours.
- **Worked layouts** (`samples.dfy`, module `Samples`). The layout of both sample projects, of a diamond (two tasks after a common root, and one after both), of a reversed chain
  and of an array with duplicate and unknown ids.

Metrics are exact integers. The product `a·0.4` is `2a/5`, and `a·0.35` is `7a/20`. Rounding down
on positive divisors is Dafny's `/`. The lemmas `*IsFlooredProduct` tie these back to the
real-number products. `OptimalPath` works on `real`.

Two consequences of the pass as written are worth knowing:
- **Array order matters.** The pass reads the array as it stands, so a dependency listed further right, not yet laid out, contributes its raw `duration` (`Samples.ReversedChainLayout`). When every dependency is listed earlier, as in both samples, no task starts before its dependencies end (`Gantt.DependencyOrderRespected`, `Samples.SampleProjectsDependencyOrdered`).
- **The total is always 0.** It then serves as the upper end of the chart's time axis (visualization.js:40). That axis needs the latest end, so this is listed under Findings, with a corrected layout beside the literal one.

## Model

| member | source | states |
|---|---|---|
| Engine.TimelineReduction | qtc-engine.js:56 | the reduction never exceeds 35; below the cap it is the largest r with 5r ≤ 2a; it is non-negative for a non-negative level |
| Engine.TimelineReductionIsFlooredProduct | qtc-engine.js:56 | the integer formula equals `min(35, floor(a * 0.4))` taken over the reals |
| Engine.RiskLevel | qtc-engine.js:57 | the risk lies in 5..50; strictly between the clamps it is the largest r with 20r ≤ 7a |
| Engine.RiskLevelIsFlooredProduct | qtc-engine.js:57 | the integer formula equals `max(5, min(50, floor(a * 0.35)))` taken over the reals |
| Engine.MetricsMonotone | qtc-engine.js:56-57 | raising the aggression level never lowers the reduction or the risk |
| Engine.OptimalPath | qtc-engine.js:58 | for any draw in [0, 1) the count lies in 7000..9999 and is the floor of 7000 + 3000·draw |
| Engine.OptimalPathMonotone | qtc-engine.js:58 | a larger draw never yields a smaller count |
| Engine.PriorityOf | qtc-engine.js:88-131 | the body is the table of pushed priorities; stated as: high exactly for parallel execution, resource optimisation and risk management, low exactly for buffer time and monitoring |
| Engine.BucketPair | qtc-engine.js:86-119 | the body is the three fixed pairs; stated as: two distinct entries, neither risk management nor monitoring, with priorities (medium, low) for the middle bucket and (high, medium) otherwise |
| Engine.BucketOf | qtc-engine.js:86-119 | the three branches partition the reductions: above 25, 16..25, at most 15 (each an if-and-only-if) |
| Engine.GenerateRecommendations | qtc-engine.js:82-137 | 4 entries when risk > threshold, else 3; the bucket's pair comes first; the risk entry (quoting both numbers) is present exactly when risk > threshold, third; monitoring is last and only last |
| Engine.RecommendationPriorities | qtc-engine.js:86-134 | the priority sequence is (high, medium) or (medium, low) by bucket, then high for the risk entry if present, then low |
| Engine.RecommendationHeadIgnoresRisk | qtc-engine.js:86-119 | the first two entries depend on the reduction alone |
| Engine.RecommendationsDetermineInputs | qtc-engine.js:82-137 | equal lists imply the same bucket, the same side of the threshold, and, with a risk entry, the same risk and threshold |
| Engine.NewCompressor | qtc-engine.js:5-10 | a fresh estimator has no project and no result, aggression 70 and threshold 30 |
| Engine.LoadProject | qtc-engine.js:12-15 | the project is stored; no other field changes |
| Engine.SetAggressionLevel | qtc-engine.js:17-20 | the level is stored; no other field changes |
| Engine.SetRiskThreshold | qtc-engine.js:22-25 | the threshold is stored; no other field changes |
| Engine.SettersLastWinsAndCommute | qtc-engine.js:12-25 | a second call to the same setter overrides the first; setters of different fields commute |
| Engine.GetResults | qtc-engine.js:139-141 | the body is the getter; it returns the stored result, and `Engine.GetResultsAfterRun` relates it to a run |
| Engine.RunAnalysis | qtc-engine.js:27-80 | fails with ProjectNotLoaded exactly when no project is loaded; otherwise only the stored result changes, the reduction and risk are those of the current aggression level and the path count that of the draw (hence within their bounds), and the recommendations are those of the metrics and the current threshold |
| Engine.GetResultsAfterRun | qtc-engine.js:139-141 | after a run with a project loaded, `getResults` returns exactly the result the run stored (qtc-engine.js:60-65) and yielded |
| Engine.RunAnalysisDependsOnlyOnKnobs | qtc-engine.js:56-65 | two estimators with a project and equal knobs yield equal results for the same draw, whatever their projects or earlier results |
| Engine.DefaultRun | qtc-engine.js:5-10 | with the default knobs the reduction is 28, the risk 24, and the list is parallel execution, testing, monitoring |
| Engine.SampleLevels | qtc-engine.js:56-57 | aggression 40 gives reduction 16 (middle bucket), 10 gives 4 (lowest bucket), 100 hits the reduction cap (35) with a risk of 35, 150 hits both caps (35 and 50); 0 and 200 hit the risk clamps |
| Gantt.FirstIndex | visualization.js:17 | the id lookup returns the first position carrying the id, and nothing exactly when no task carries it |
| Gantt.EndOrDuration | visualization.js:18 | the body is the short-circuit fallback from `end` to `duration`; stated as: the end when present and non-zero, otherwise the duration |
| Gantt.EndOrDurationOfScheduled | visualization.js:18-20 | on a laid-out task with non-negative start and duration the fallback changes nothing: the contribution is the end |
| Gantt.DependencyEndIsFirstMatch | visualization.js:16-18 | the first task carrying the id contributes its end-or-duration; an id no task carries contributes 0 |
| Gantt.LargestContributionIsMax | visualization.js:16-19 | the spread `Math.max` over a non-empty dependency list is an upper bound of every contribution and attained by one |
| Gantt.StartFromIsLargest | visualization.js:15-19 | a start is 0 with no dependencies, else the maximum contribution of its dependencies |
| Gantt.Place | visualization.js:15-20 | one step keeps the task's data and writes start and `end = start + duration` |
| Gantt.ReduceFrom | visualization.js:8-22 | the fold yields its accumulator unchanged, leaves earlier tasks untouched and places every later task |
| Gantt.GanttLayout | visualization.js:8-22 | the pass yields total 0; every task keeps its data and is scheduled |
| Gantt.ReduceFromPlaces | visualization.js:8-22 | each step places its task against the already placed prefix followed by the untouched rest |
| Gantt.LayoutPlacesTask | visualization.js:8-22 | each task's placement is computed against the placed prefix followed by the original rest |
| Gantt.NoDependenciesStartAtZero | visualization.js:15-20 | a task without dependencies is laid out at [0, duration] |
| Gantt.DependencyOrderRespected | visualization.js:15-20 | when every dependency appears earlier in the array and durations are non-negative, each start is the maximum over the finished layout, and no task starts before a dependency ends |
| Gantt.LatestEnd | visualization.js:40 | the corrected axis total (the pass hands line 40 a 0): non-negative, at least every end, and attained by some end unless 0 |
| Gantt.ChartLayout | visualization.js:8-22 | the corrected pass: the same placed tasks, with a total covering every end and attained by one |
| Gantt.RiskColor | visualization.js:327-334 | low, medium and high map to green, orange and red, each an if-and-only-if; everything else is grey |
| Projects.SimpleProject | qtc-engine.js:147-155 | the body is the fixture; stated as: five tasks, unplaced as declared (before any render), with ids 1..5 and positive durations, each after the first depending on its predecessor only |
| Projects.ComplexProject | qtc-engine.js:157-170 | the body is the fixture; stated as: nine tasks, unplaced as declared (before any render), with ids 1..9 and positive durations, every dependency naming an earlier task |
| Samples.SampleProjectsDependencyOrdered | qtc-engine.js:147-170 | both samples list dependencies before their users, so on them the pass starts no task before any of its dependencies ends |
| Samples.SimpleProjectLayout | qtc-engine.js:147-155 | the simple sample lays out as 0–5, 5–12, 12–22, 22–27, 27–29 with total 0 |
| Samples.ComplexProjectLayout | qtc-engine.js:157-170 | the complex sample lays out as 0–7, 7–12, 12–22, 12–27, 27–39, 39–47, 47–54, 54–59, 59–61; the front end waits for the later of design and back end |
| Samples.SimpleProjectTotal | visualization.js:8-22 | on the simple sample the pass's total is 0 while the last task ends at 29; the corrected total is 29 |
| Samples.DiamondLayout | visualization.js:15-19 | B and C both follow A (ending at 12 and 15); D, depending on both, is laid out at 15–18 |
| Samples.ReversedChainLayout | visualization.js:15-19 | a chain listed in reverse is laid out 7–17, 5–12, 0–5, so the pass depends on array order |
| Samples.ReversedChainRedrawn | visualization.js:15-20 | drawing the reversed chain a second time, from the first pass's output, lays it out as 12–22, 5–12, 0–5: the stale end of B is read |
| Samples.DuplicateAndUnknownIdsLayout | visualization.js:16-18 | the first of two tasks sharing an id is used, and an unknown id contributes 0 |

## Left out

- The DOM and the animation. `runAnalysis` writes a loading panel, then advances a progress bar on a 150 ms interval by random steps, and resolves a Promise 300 ms after reaching 100%. The model treats a run as one synchronous call. The progress draws do not affect the result and are not modelled; the draw for the optimal-path count is a parameter.
- Engine.RunAnalysis: reads the aggression level and the threshold at the moment of the call. The source reads `this.aggressionLevel` (qtc-engine.js:56-57) and `this.riskThreshold` (qtc-engine.js:122) when the interval completes, so values set during the animation would be used. The model has no interleaving, so it cannot express this.
- Engine.RunAnalysis: failing with `ProjectNotLoaded` stands for the thrown `Error`. A project that is loaded but "falsy" cannot occur in the model.
- The recommendation titles and descriptions are Russian display text, modelled as constructors plus priorities. The risk entry keeps the two numbers its text quotes.
- Floating point. The metrics are modelled by exact rational arithmetic. The double nearest 0.35 lies just below 0.35, so for some multiples of 20 the double product `a * 0.35` falls just under the integer it should equal, and its floor is one less (a = 180 is such a level). For positive levels this only occurs above 140, where the clamp at 50 hides it. The double nearest 0.4 lies just above 0.4, so for non-negative levels `a * 0.4` never falls short of an integer; a shortfall could only come from a negative level, which the cap at 35 would not hide. The slider (0..100) produces neither case.
- Engine.OptimalPath: the draw is an exact real in [0, 1), not a double.
- Gantt: the `endDate` loop (visualization.js:10-14) computes a value that is never used, so it is not modelled.
- Gantt: JavaScript's loose values are not modelled: `NaN` from a non-numeric duration or id, and non-integer durations. Durations and ends are integers, and `end || duration` is modelled as "end, unless absent or 0".
- Gantt: no cycle or unknown-id validation, because the code performs none. Unknown ids contribute 0, as in the code.
- Everything after the layout pass in `renderGanttChart` is drawing: D3 scales and axes, bars, the compressed-duration line, and `renderQuantumVisualization`. It is not modelled. So are the UI event listeners that wire sliders and buttons to the setters.

## Findings

| source | as written | input that shows it | evidently intended | confidence | as-written member | corrected member |
|---|---|---|---|---|---|---|
| visualization.js:8-22 | the `reduce` callback returns `sum` unchanged, so `totalDuration` is always 0; it is then the upper end of the time axis (visualization.js:40), giving the empty domain [0, 0] | the simple sample: total 0 while the last task ends at 29 | the total is the latest end of the laid-out tasks | high (not executed) | Samples.SimpleProjectTotal | Gantt.ChartLayout |
