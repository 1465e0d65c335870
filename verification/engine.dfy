/** The estimator of the Quantum Timeline Compressor: two clamped metric
    formulas driven by the aggression level, a randomised "optimal path"
    count, the bucketed recommendation rule, and the estimator object with
    its fluent setters.

    The progress-bar animation that wraps the computation is not part of the
    model: an analysis is a synchronous call that either fails or yields one
    result. The random draw is a parameter. */
module Engine {
  import opened Wrappers
  import opened Projects

  /** Aggression level of a freshly built estimator. */
  const DefaultAggression: int := 70
  /** Risk threshold of a freshly built estimator. */
  const DefaultRiskThreshold: int := 30

  function Min(a: int, b: int): int { if a <= b then a else b }
  function Max(a: int, b: int): int { if a >= b then a else b }

  // ---------------------------------------------------------------------
  // Metrics
  // ---------------------------------------------------------------------

  /** Claimed timeline reduction in percent: the aggression level times 0.4,
      rounded down, never more than 35. The product is taken exactly, as
      2a/5; `/` on `int` with a positive divisor rounds toward minus
      infinity, as `Math.floor` does. */
  function TimelineReduction(aggression: int): (r: int)
    ensures r <= 35
    ensures 5 * r <= 2 * aggression
    ensures r == 35 || 2 * aggression < 5 * r + 5
    ensures 0 <= aggression ==> 0 <= r
  {
    Min(35, (2 * aggression) / 5)
  }

  /** Risk level in percent: the aggression level times 0.35, rounded down
      and clamped to the range 5..50. */
  function RiskLevel(aggression: int): (r: int)
    ensures 5 <= r <= 50
    ensures r > 5 ==> 20 * r <= 7 * aggression
    ensures r < 50 ==> 7 * aggression < 20 * r + 20
  {
    Max(5, Min(50, (7 * aggression) / 20))
  }

  /** The "optimal path" count: 10000 times a draw spread over [0.7, 1.0),
      rounded down. `draw` stands for `Math.random()`. */
  function OptimalPath(draw: real): (p: int)
    requires 0.0 <= draw < 1.0
    ensures 7000 <= p <= 9999
    ensures p as real <= 7000.0 + 3000.0 * draw < p as real + 1.0
  {
    (10000.0 * (draw * 0.3 + 0.7)).Floor
  }

  /** Rounding a quotient of integers down agrees with integer division. */
  lemma FloorOfQuotient(n: int, d: int)
    requires d > 0
    ensures (n as real / d as real).Floor == n / d
  {
    var q, m := n / d, n % d;
    assert n == d * q + m && 0 <= m < d;
    assert (n as real) == (d as real) * (q as real) + (m as real);
    assert n as real / d as real == q as real + m as real / d as real;
    assert 0.0 <= m as real / d as real < 1.0;
  }

  /** The integer reading of the timeline formula is the exact product
      `floor(aggression * 0.4)` capped at 35. */
  lemma TimelineReductionIsFlooredProduct(aggression: int)
    ensures TimelineReduction(aggression) == Min(35, (aggression as real * 0.4).Floor)
  {
    assert aggression as real * 0.4 == (2 * aggression) as real / 5 as real;
    FloorOfQuotient(2 * aggression, 5);
  }

  /** The integer reading of the risk formula is the exact product
      `floor(aggression * 0.35)` clamped to 5..50. */
  lemma RiskLevelIsFlooredProduct(aggression: int)
    ensures RiskLevel(aggression) == Max(5, Min(50, (aggression as real * 0.35).Floor))
  {
    assert aggression as real * 0.35 == (7 * aggression) as real / 20 as real;
    FloorOfQuotient(7 * aggression, 20);
  }

  /** A higher aggression level never claims a smaller reduction nor a lower risk. */
  lemma MetricsMonotone(a: int, b: int)
    requires a <= b
    ensures TimelineReduction(a) <= TimelineReduction(b)
    ensures RiskLevel(a) <= RiskLevel(b)
  {
  }

  /** A larger draw never yields a smaller optimal-path count. */
  lemma OptimalPathMonotone(d1: real, d2: real)
    requires 0.0 <= d1 <= d2 < 1.0
    ensures OptimalPath(d1) <= OptimalPath(d2)
  {
  }

  // ---------------------------------------------------------------------
  // Recommendations
  // ---------------------------------------------------------------------

  datatype Priority = Low | Medium | High

  /** The fixed recommendation templates. Their texts are presentation; the
      risk-management entry carries the two numbers its text quotes. */
  datatype Recommendation =
    | ParallelExecution                           // run tasks in parallel
    | TestingOptimisation                         // automate basic checks
    | CriticalTasks                               // compress the critical path
    | BufferTime                                  // shrink buffers between stages
    | ResourceOptimisation                        // move people to development
    | RequirementSimplification                   // simplify features for the MVP
    | RiskManagement(riskLevel: int, riskThreshold: int)
    | Monitoring                                  // re-run the analysis every two weeks

  /** The priority each template is pushed with. */
  function PriorityOf(rec: Recommendation): (p: Priority)
    ensures p == High <==> rec == ParallelExecution || rec == ResourceOptimisation || rec.RiskManagement?
    ensures p == Low <==> rec == BufferTime || rec == Monitoring
  {
    match rec
    case ParallelExecution => High
    case TestingOptimisation => Medium
    case CriticalTasks => Medium
    case BufferTime => Low
    case ResourceOptimisation => High
    case RequirementSimplification => Medium
    case RiskManagement(_, _) => High
    case Monitoring => Low
  }

  function Priorities(recs: seq<Recommendation>): (ps: seq<Priority>)
    ensures |ps| == |recs|
    ensures forall i :: 0 <= i < |recs| ==> ps[i] == PriorityOf(recs[i])
  {
    seq(|recs|, i requires 0 <= i < |recs| => PriorityOf(recs[i]))
  }

  /** The three reduction buckets: above 25, 16 to 25, and 15 or less. */
  datatype Bucket = Aggressive | Moderate | Conservative

  function BucketOf(timelineReduction: int): (b: Bucket)
    ensures b == Aggressive <==> timelineReduction > 25
    ensures b == Moderate <==> 15 < timelineReduction <= 25
    ensures b == Conservative <==> timelineReduction <= 15
  {
    if timelineReduction > 25 then Aggressive
    else if timelineReduction > 15 then Moderate
    else Conservative
  }

  /** The pair of entries each bucket contributes first. */
  function BucketPair(b: Bucket): (pair: seq<Recommendation>)
    ensures |pair| == 2 && pair[0] != pair[1]
    ensures forall i :: 0 <= i < 2 ==> !pair[i].RiskManagement? && pair[i] != Monitoring
    ensures Priorities(pair) == if b == Moderate then [Medium, Low] else [High, Medium]
  {
    match b
    case Aggressive => [ParallelExecution, TestingOptimisation]
    case Moderate => [CriticalTasks, BufferTime]
    case Conservative => [ResourceOptimisation, RequirementSimplification]
  }

  /** The recommendation list of one analysis, in insertion order: the pair of
      the reduction bucket, then the risk entry when the risk strictly exceeds
      the threshold, then the monitoring entry. */
  function GenerateRecommendations(timelineReduction: int, riskLevel: int, riskThreshold: int)
    : (recs: seq<Recommendation>)
    ensures |recs| == if riskLevel > riskThreshold then 4 else 3
    ensures timelineReduction > 25 ==> recs[..2] == [ParallelExecution, TestingOptimisation]
    ensures 15 < timelineReduction <= 25 ==> recs[..2] == [CriticalTasks, BufferTime]
    ensures timelineReduction <= 15 ==> recs[..2] == [ResourceOptimisation, RequirementSimplification]
    ensures riskLevel > riskThreshold ==> recs[2] == RiskManagement(riskLevel, riskThreshold)
    ensures (exists i :: 0 <= i < |recs| && recs[i].RiskManagement?) <==> riskLevel > riskThreshold
    ensures recs[|recs| - 1] == Monitoring
    ensures forall i :: 0 <= i < |recs| - 1 ==> recs[i] != Monitoring
  {
    BucketPair(BucketOf(timelineReduction))
      + (if riskLevel > riskThreshold then [RiskManagement(riskLevel, riskThreshold)] else [])
      + [Monitoring]
  }

  /** The priorities of the list: (high, medium) for the outer buckets and
      (medium, low) for the middle one, then high for the risk entry when
      present, and low last. */
  lemma RecommendationPriorities(timelineReduction: int, riskLevel: int, riskThreshold: int)
    ensures var ps := Priorities(GenerateRecommendations(timelineReduction, riskLevel, riskThreshold));
      var head := if 15 < timelineReduction <= 25 then [Medium, Low] else [High, Medium];
      ps == head + (if riskLevel > riskThreshold then [High] else []) + [Low]
  {
  }

  /** The first two entries depend on the timeline reduction alone. */
  lemma RecommendationHeadIgnoresRisk(timelineReduction: int, r1: int, t1: int, r2: int, t2: int)
    ensures GenerateRecommendations(timelineReduction, r1, t1)[..2]
         == GenerateRecommendations(timelineReduction, r2, t2)[..2]
  {
  }

  /** Conversely, the list determines the bucket of the reduction and whether
      the risk exceeded the threshold, and the risk entry the two numbers. */
  lemma RecommendationsDetermineInputs(tr1: int, r1: int, t1: int, tr2: int, r2: int, t2: int)
    requires GenerateRecommendations(tr1, r1, t1) == GenerateRecommendations(tr2, r2, t2)
    ensures BucketOf(tr1) == BucketOf(tr2)
    ensures r1 > t1 <==> r2 > t2
    ensures r1 > t1 ==> r1 == r2 && t1 == t2
  {
  }

  // ---------------------------------------------------------------------
  // The estimator object
  // ---------------------------------------------------------------------

  datatype AnalysisResult = AnalysisResult(
    timelineReduction: int,
    riskLevel: int,
    optimalPath: int,
    recommendations: seq<Recommendation>)

  /** The estimator's fields. Each setter returns the updated estimator, which
      stands for the source's `return this` chaining. */
  datatype Compressor = Compressor(
    projectData: Option<Project>,
    aggressionLevel: int,
    riskThreshold: int,
    simulationResults: Option<AnalysisResult>)

  datatype AnalysisError = ProjectNotLoaded

  /** The estimator together with the result it resolved with. */
  datatype Analysis = Analysis(compressor: Compressor, results: AnalysisResult)

  function NewCompressor(): (c: Compressor)
    ensures c.projectData.None? && c.simulationResults.None?
    ensures c.aggressionLevel == DefaultAggression && c.riskThreshold == DefaultRiskThreshold
  {
    Compressor(None, DefaultAggression, DefaultRiskThreshold, None)
  }

  function LoadProject(c: Compressor, project: Project): (c': Compressor)
    ensures c'.projectData == Some(project)
    ensures c'.aggressionLevel == c.aggressionLevel && c'.riskThreshold == c.riskThreshold
    ensures c'.simulationResults == c.simulationResults
  {
    c.(projectData := Some(project))
  }

  function SetAggressionLevel(c: Compressor, level: int): (c': Compressor)
    ensures c'.aggressionLevel == level
    ensures c'.projectData == c.projectData && c'.riskThreshold == c.riskThreshold
    ensures c'.simulationResults == c.simulationResults
  {
    c.(aggressionLevel := level)
  }

  function SetRiskThreshold(c: Compressor, threshold: int): (c': Compressor)
    ensures c'.riskThreshold == threshold
    ensures c'.projectData == c.projectData && c'.aggressionLevel == c.aggressionLevel
    ensures c'.simulationResults == c.simulationResults
  {
    c.(riskThreshold := threshold)
  }

  /** Setting a field twice keeps the last value; setters of different fields commute. */
  lemma SettersLastWinsAndCommute(c: Compressor, p: Project, q: Project, a: int, b: int, s: int, t: int)
    ensures LoadProject(LoadProject(c, p), q) == LoadProject(c, q)
    ensures SetAggressionLevel(SetAggressionLevel(c, a), b) == SetAggressionLevel(c, b)
    ensures SetRiskThreshold(SetRiskThreshold(c, s), t) == SetRiskThreshold(c, t)
    ensures SetRiskThreshold(SetAggressionLevel(c, a), s) == SetAggressionLevel(SetRiskThreshold(c, s), a)
    ensures LoadProject(SetAggressionLevel(c, a), p) == SetAggressionLevel(LoadProject(c, p), a)
    ensures LoadProject(SetRiskThreshold(c, s), p) == SetRiskThreshold(LoadProject(c, p), s)
  {
  }

  /** The stored result of the last completed analysis, if any. */
  function GetResults(c: Compressor): (r: Option<AnalysisResult>)
    ensures r == c.simulationResults
  {
    c.simulationResults
  }

  /** One analysis run. Without a project it fails and changes nothing.
      Otherwise it derives both metrics from the current aggression level,
      the optimal-path count from `draw`, and the recommendations from the
      metrics and the current threshold, stores the result in place of any
      earlier one, and yields it. */
  function RunAnalysis(c: Compressor, draw: real): (out: Result<Analysis, AnalysisError>)
    requires 0.0 <= draw < 1.0
    ensures out.Err? <==> c.projectData.None?
    ensures out.Err? ==> out.error == ProjectNotLoaded
    ensures out.Ok? ==>
      var res := out.value.results;
      && out.value.compressor == c.(simulationResults := Some(res))
      && res.timelineReduction == TimelineReduction(c.aggressionLevel)
      && res.riskLevel == RiskLevel(c.aggressionLevel)
      && res.optimalPath == OptimalPath(draw)
      && res.timelineReduction <= 35
      && (0 <= c.aggressionLevel ==> 0 <= res.timelineReduction)
      && 5 <= res.riskLevel <= 50
      && 7000 <= res.optimalPath <= 9999
      && res.recommendations == GenerateRecommendations(res.timelineReduction, res.riskLevel, c.riskThreshold)
  {
    if c.projectData.None? then
      Err(ProjectNotLoaded)
    else
      var timelineReduction := TimelineReduction(c.aggressionLevel);
      var riskLevel := RiskLevel(c.aggressionLevel);
      var res := AnalysisResult(
        timelineReduction,
        riskLevel,
        OptimalPath(draw),
        GenerateRecommendations(timelineReduction, riskLevel, c.riskThreshold));
      Ok(Analysis(c.(simulationResults := Some(res)), res))
  }

  /** After a successful run, `GetResults` hands back exactly what the run yielded. */
  lemma GetResultsAfterRun(c: Compressor, draw: real)
    requires 0.0 <= draw < 1.0 && c.projectData.Some?
    ensures RunAnalysis(c, draw).Ok?
    ensures GetResults(RunAnalysis(c, draw).value.compressor) == Some(RunAnalysis(c, draw).value.results)
  {
  }

  /** The result depends on neither the project's contents nor any earlier
      result: only on the two knobs and the draw. */
  lemma RunAnalysisDependsOnlyOnKnobs(c: Compressor, d: Compressor, draw: real)
    requires 0.0 <= draw < 1.0
    requires c.projectData.Some? && d.projectData.Some?
    requires c.aggressionLevel == d.aggressionLevel && c.riskThreshold == d.riskThreshold
    ensures RunAnalysis(c, draw).Ok? && RunAnalysis(d, draw).Ok?
    ensures RunAnalysis(c, draw).value.results == RunAnalysis(d, draw).value.results
  {
  }

  /** With the default knobs (aggression 70, threshold 30) the reduction is
      28 and the risk 24: the aggressive pair and the monitoring entry, with
      no risk entry. */
  lemma DefaultRun(project: Project, draw: real)
    requires 0.0 <= draw < 1.0
    ensures var out := RunAnalysis(LoadProject(NewCompressor(), project), draw);
      && out.Ok?
      && out.value.results.timelineReduction == 28
      && out.value.results.riskLevel == 24
      && out.value.results.recommendations == [ParallelExecution, TestingOptimisation, Monitoring]
  {
  }

  /** The bucket boundaries at sample aggression levels: 40 gives 16 (middle
      bucket), 10 gives 4 (lowest bucket); 100 reaches the reduction cap with
      a risk of 35, and 150 reaches both caps. */
  lemma SampleLevels()
    ensures TimelineReduction(40) == 16 && BucketOf(16) == Moderate
    ensures TimelineReduction(10) == 4 && BucketOf(4) == Conservative
    ensures TimelineReduction(100) == 35 && RiskLevel(100) == 35
    ensures TimelineReduction(150) == 35 && RiskLevel(150) == 50
    ensures RiskLevel(0) == 5 && RiskLevel(200) == 50
    ensures GenerateRecommendations(28, 35, 20)[2] == RiskManagement(35, 20)
  {
  }
}
