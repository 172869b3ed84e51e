/**
 * Aggregation of simulated paths into a scenario result (success rate,
 * averages, expected and risk-adjusted value, recommended path) and the
 * simulator object that keeps every result it produced.
 */
module Aggregator {
  import opened Wrappers
  import opened Scenario
  import opened Sampler

  /** `averageDuration` is in seconds. */
  datatype ScenarioResult = ScenarioResult(
    name: string,
    paths: seq<SimulationPath>,
    expectedValue: real,
    riskAdjustedValue: real,
    successRate: real,
    averageCost: real,
    averageDuration: real,
    recommended: Option<SimulationPath>)

  /** The factor a path's risk score costs it; a tolerance of 1.0 ignores risk. */
  function RiskAdjustment(p: SimulationPath, riskTolerance: real): real
  {
    1.0 - p.riskScore * (1.0 - riskTolerance)
  }

  /** Value weighted by probability and by the risk adjustment. */
  function Score(p: SimulationPath, riskTolerance: real): real
  {
    PathValue(p) * p.probability * RiskAdjustment(p, riskTolerance)
  }

  /** SUCCESS and PARTIAL_SUCCESS both count as a success. */
  predicate Succeeded(p: SimulationPath)
  {
    p.outcome == Success || p.outcome == PartialSuccess
  }

  function SuccessCount(paths: seq<SimulationPath>): nat
  {
    if paths == [] then 0
    else SuccessCount(paths[..|paths| - 1]) + (if Succeeded(paths[|paths| - 1]) then 1 else 0)
  }

  function TotalCost(paths: seq<SimulationPath>): real
  {
    if paths == [] then 0.0 else TotalCost(paths[..|paths| - 1]) + paths[|paths| - 1].totalCost
  }

  function TotalDuration(paths: seq<SimulationPath>): int
  {
    if paths == [] then 0 else TotalDuration(paths[..|paths| - 1]) + paths[|paths| - 1].totalDuration
  }

  /** Sum over the paths of value times probability. */
  function ExpectedValue(paths: seq<SimulationPath>): real
  {
    if paths == [] then 0.0
    else
      var p := paths[|paths| - 1];
      ExpectedValue(paths[..|paths| - 1]) + PathValue(p) * p.probability
  }

  /** Sum over the paths of their scores. */
  function RiskAdjustedValue(paths: seq<SimulationPath>, riskTolerance: real): real
  {
    if paths == [] then 0.0
    else RiskAdjustedValue(paths[..|paths| - 1], riskTolerance) + Score(paths[|paths| - 1], riskTolerance)
  }

  /** Index of the first path with the highest score, as a stable descending sort puts it first. */
  function BestIndex(paths: seq<SimulationPath>, riskTolerance: real): (r: nat)
    requires paths != []
    ensures r < |paths|
    ensures forall j :: 0 <= j < |paths| ==> Score(paths[j], riskTolerance) <= Score(paths[r], riskTolerance)
    ensures forall j :: 0 <= j < r ==> Score(paths[j], riskTolerance) < Score(paths[r], riskTolerance)
  {
    if |paths| == 1 then 0
    else
      var b := BestIndex(paths[..|paths| - 1], riskTolerance);
      if Score(paths[|paths| - 1], riskTolerance) > Score(paths[b], riskTolerance) then |paths| - 1 else b
  }

  function Recommended(paths: seq<SimulationPath>, riskTolerance: real): Option<SimulationPath>
  {
    if paths == [] then None else Some(paths[BestIndex(paths, riskTolerance)])
  }

  /** The result of analysing `paths`; all zeros and no recommendation when there are none. */
  function Analysis(name: string, paths: seq<SimulationPath>, riskTolerance: real): ScenarioResult
  {
    if paths == [] then ScenarioResult(name, [], 0.0, 0.0, 0.0, 0.0, 0.0, None)
    else
      var n := |paths| as real;
      ScenarioResult(
        name, paths, ExpectedValue(paths), RiskAdjustedValue(paths, riskTolerance),
        SuccessCount(paths) as real / n, TotalCost(paths) / n, TotalDuration(paths) as real / n,
        Recommended(paths, riskTolerance))
  }

  method SelectRecommendedPath(paths: seq<SimulationPath>, riskTolerance: real)
    returns (best: Option<SimulationPath>)
    ensures best == Recommended(paths, riskTolerance)
  {
    if paths == [] {
      return None;
    }
    var scores: seq<real> := [];
    for i := 0 to |paths|
      invariant |scores| == i
      invariant forall j :: 0 <= j < i ==> scores[j] == Score(paths[j], riskTolerance)
    {
      var value := PathValue(paths[i]);
      var adjustment := 1.0 - paths[i].riskScore * (1.0 - riskTolerance);
      scores := scores + [value * paths[i].probability * adjustment];
    }
    var b := 0;
    for i := 1 to |paths|
      invariant b < i
      invariant b == BestIndex(paths[..i], riskTolerance)
    {
      assert paths[..i + 1][..i] == paths[..i];
      if scores[i] > scores[b] {
        b := i;
      }
    }
    assert paths[..|paths|] == paths;
    best := Some(paths[b]);
  }

  method AnalyzeSimulationResults(name: string, paths: seq<SimulationPath>, riskTolerance: real)
    returns (result: ScenarioResult)
    ensures result == Analysis(name, paths, riskTolerance)
  {
    if paths == [] {
      return ScenarioResult(name, [], 0.0, 0.0, 0.0, 0.0, 0.0, None);
    }
    var successes := 0;
    var costSum := 0.0;
    var durationSum := 0;
    var expectedValue := 0.0;
    var riskAdjustedValue := 0.0;
    for i := 0 to |paths|
      invariant successes == SuccessCount(paths[..i])
      invariant costSum == TotalCost(paths[..i]) && durationSum == TotalDuration(paths[..i])
      invariant expectedValue == ExpectedValue(paths[..i])
      invariant riskAdjustedValue == RiskAdjustedValue(paths[..i], riskTolerance)
    {
      assert paths[..i + 1][..i] == paths[..i];
      var path := paths[i];
      if path.outcome == Success || path.outcome == PartialSuccess {
        successes := successes + 1;
      }
      costSum := costSum + path.totalCost;
      durationSum := durationSum + path.totalDuration;
      var value := PathValue(path);
      expectedValue := expectedValue + value * path.probability;
      var adjustment := 1.0 - path.riskScore * (1.0 - riskTolerance);
      riskAdjustedValue := riskAdjustedValue + value * path.probability * adjustment;
    }
    assert paths[..|paths|] == paths;
    var n := |paths| as real;
    var recommended := SelectRecommendedPath(paths, riskTolerance);
    result := ScenarioResult(
      name, paths, expectedValue, riskAdjustedValue, successes as real / n,
      costSum / n, durationSum as real / n, recommended);
  }

  // ---------------------------------------------------------------------
  // Properties of the analysis
  // ---------------------------------------------------------------------

  lemma {:induction false} SuccessCountBounds(paths: seq<SimulationPath>)
    ensures SuccessCount(paths) <= |paths|
    ensures SuccessCount(paths) == |paths| <==> forall i :: 0 <= i < |paths| ==> Succeeded(paths[i])
    ensures SuccessCount(paths) == 0 <==> forall i :: 0 <= i < |paths| ==> !Succeeded(paths[i])
  {
    if paths != [] {
      var init := paths[..|paths| - 1];
      SuccessCountBounds(init);
      assert forall i :: 0 <= i < |init| ==> init[i] == paths[i];
    }
  }

  /**
   * The success rate is a fraction in [0, 1]; it is 1 exactly when every path
   * succeeds (fully or partially) and 0 exactly when none does.
   */
  lemma SuccessRateBounds(name: string, paths: seq<SimulationPath>, riskTolerance: real)
    requires paths != []
    ensures 0.0 <= Analysis(name, paths, riskTolerance).successRate <= 1.0
    ensures Analysis(name, paths, riskTolerance).successRate == 1.0 <==> forall i :: 0 <= i < |paths| ==> Succeeded(paths[i])
    ensures Analysis(name, paths, riskTolerance).successRate == 0.0 <==> forall i :: 0 <= i < |paths| ==> !Succeeded(paths[i])
  {
    SuccessCountBounds(paths);
    Fraction(SuccessCount(paths) as real, |paths| as real);
  }

  lemma Fraction(c: real, n: real)
    requires 0.0 <= c <= n && n > 0.0
    ensures 0.0 <= c / n <= 1.0
    ensures c / n == 1.0 <==> c == n
    ensures c / n == 0.0 <==> c == 0.0
  {
    var f := c / n;
    assert f * n == c;
  }

  /** No paths: every metric is zero and nothing is recommended. */
  lemma AnalysisOfNothing(name: string, riskTolerance: real)
    ensures Analysis(name, [], riskTolerance).paths == []
    ensures Analysis(name, [], riskTolerance).expectedValue == 0.0
    ensures Analysis(name, [], riskTolerance).riskAdjustedValue == 0.0
    ensures Analysis(name, [], riskTolerance).successRate == 0.0
    ensures Analysis(name, [], riskTolerance).averageCost == 0.0
    ensures Analysis(name, [], riskTolerance).averageDuration == 0.0
    ensures Analysis(name, [], riskTolerance).recommended == None
  {
  }

  /** Some path is recommended exactly when there is a path, and it is one of them with the top score. */
  lemma RecommendedIsBest(paths: seq<SimulationPath>, riskTolerance: real)
    ensures Recommended(paths, riskTolerance).Some? <==> paths != []
    ensures Recommended(paths, riskTolerance).Some? ==>
              Recommended(paths, riskTolerance).value in paths &&
              forall p :: p in paths ==> Score(p, riskTolerance) <= Score(Recommended(paths, riskTolerance).value, riskTolerance)
  {
  }

  /** A risk tolerance of 1.0 makes the risk-adjusted value the expected value. */
  lemma {:induction false} FullToleranceIgnoresRisk(paths: seq<SimulationPath>)
    ensures RiskAdjustedValue(paths, 1.0) == ExpectedValue(paths)
  {
    if paths != [] {
      FullToleranceIgnoresRisk(paths[..|paths| - 1]);
    }
  }

  lemma ScaleDown(x: real, a: real)
    requires x >= 0.0 && 0.0 <= a <= 1.0
    ensures 0.0 <= x * a <= x
  {
  }

  /** For risk scores and tolerance in [0, 1] the risk adjustment is a factor in [0, 1]. */
  lemma RiskAdjustmentBounded(p: SimulationPath, riskTolerance: real)
    requires 0.0 <= p.riskScore <= 1.0 && 0.0 <= riskTolerance <= 1.0
    ensures 0.0 <= RiskAdjustment(p, riskTolerance) <= 1.0
  {
    var x := p.riskScore * (1.0 - riskTolerance);
    ScaleDown(p.riskScore, 1.0 - riskTolerance);
    assert RiskAdjustment(p, riskTolerance) == 1.0 - x;
  }

  /**
   * When every path's probability-weighted value is non-negative and risk
   * scores and the tolerance lie in [0, 1], adjusting for risk never raises
   * the value.
   */
  lemma {:induction false} RiskNeverAddsValue(paths: seq<SimulationPath>, riskTolerance: real)
    requires 0.0 <= riskTolerance <= 1.0
    requires forall p :: p in paths ==> 0.0 <= p.riskScore <= 1.0 && PathValue(p) * p.probability >= 0.0
    ensures RiskAdjustedValue(paths, riskTolerance) <= ExpectedValue(paths)
  {
    if paths != [] {
      var init := paths[..|paths| - 1];
      var last := paths[|paths| - 1];
      InitMembers(paths);
      RiskNeverAddsValue(init, riskTolerance);
      assert last in paths;
      RiskAdjustmentBounded(last, riskTolerance);
      var weighted := PathValue(last) * last.probability;
      var adjustment := RiskAdjustment(last, riskTolerance);
      ScaleDown(weighted, adjustment);
      assert Score(last, riskTolerance) == weighted * adjustment;
      assert ExpectedValue(paths) == ExpectedValue(init) + weighted;
    }
  }

  /** `n` copies of `x` added up. */
  function Times(x: real, n: nat): real
  {
    if n == 0 then 0.0 else Times(x, n - 1) + x
  }

  lemma {:induction false} TimesIsProduct(x: real, n: nat)
    ensures Times(x, n) == x * n as real
  {
    if n > 0 {
      TimesIsProduct(x, n - 1);
      assert x * n as real == x * (n - 1) as real + x;
    }
  }

  /** With every cost in [lo, hi], the total lies between n copies of lo and n copies of hi. */
  lemma {:induction false} TotalCostBounds(paths: seq<SimulationPath>, lo: real, hi: real)
    requires forall p :: p in paths ==> lo <= p.totalCost <= hi
    ensures Times(lo, |paths|) <= TotalCost(paths) <= Times(hi, |paths|)
  {
    if paths != [] {
      var init := paths[..|paths| - 1];
      InitMembers(paths);
      TotalCostBounds(init, lo, hi);
      assert paths[|paths| - 1] in paths;
    }
  }

  /** The average cost lies between the cheapest and the dearest path's cost. */
  lemma AverageCostBetween(name: string, paths: seq<SimulationPath>, riskTolerance: real, lo: real, hi: real)
    requires paths != []
    requires forall p :: p in paths ==> lo <= p.totalCost <= hi
    ensures lo <= Analysis(name, paths, riskTolerance).averageCost <= hi
  {
    var n := |paths| as real;
    TotalCostBounds(paths, lo, hi);
    TimesIsProduct(lo, |paths|);
    TimesIsProduct(hi, |paths|);
    AverageBetween(lo, hi, TotalCost(paths), n);
    assert Analysis(name, paths, riskTolerance).averageCost == TotalCost(paths) / n;
  }

  lemma AverageBetween(lo: real, hi: real, total: real, n: real)
    requires n > 0.0 && lo * n <= total <= hi * n
    ensures lo <= total / n <= hi
  {
    var a := total / n;
    assert a * n == total;
    assert (a - lo) * n >= 0.0;
    assert (hi - a) * n >= 0.0;
  }

  // ---------------------------------------------------------------------
  // Scenario simulation
  // ---------------------------------------------------------------------

  function MonteCarloPaths(actions: seq<Action>, draws: Draws, n: nat): (r: seq<SimulationPath>)
    ensures |r| == n
    ensures forall i :: 0 <= i < n ==> r[i] == MonteCarloPath(actions, draws, i)
  {
    seq(n, i requires 0 <= i => MonteCarloPath(actions, draws, i))
  }

  /** `num_simulations` Monte Carlo samples (none when it is not positive), or the three deterministic paths. */
  function ScenarioPaths(actions: seq<Action>, numSimulations: int, monteCarlo: bool, draws: Draws): seq<SimulationPath>
  {
    if monteCarlo then MonteCarloPaths(actions, draws, if numSimulations > 0 then numSimulations else 0)
    else DeterministicPaths(actions, draws)
  }

  class StrategicScenarioSimulator {
    /** 0.0 is risk-averse, 1.0 risk-seeking. */
    const riskTolerance: real
    var simulationHistory: seq<ScenarioResult>

    constructor (riskTolerance: real := 0.5)
      ensures this.riskTolerance == riskTolerance
      ensures simulationHistory == []
    {
      this.riskTolerance := riskTolerance;
      simulationHistory := [];
    }

    method SimulateScenario(name: string, actions: seq<Action>, draws: Draws,
                            numSimulations: int := 1000, monteCarlo: bool := true)
      returns (result: ScenarioResult)
      modifies this
      ensures result == Analysis(name, ScenarioPaths(actions, numSimulations, monteCarlo, draws), riskTolerance)
      ensures simulationHistory == old(simulationHistory) + [result]
    {
      var paths: seq<SimulationPath> := [];
      if monteCarlo {
        var count := if numSimulations > 0 then numSimulations else 0;
        for i := 0 to count
          invariant paths == MonteCarloPaths(actions, draws, i)
          invariant simulationHistory == old(simulationHistory)
        {
          var path := RunMonteCarloSimulation(actions, draws, i);
          assert MonteCarloPaths(actions, draws, i + 1) == MonteCarloPaths(actions, draws, i) + [path];
          paths := paths + [path];
        }
      } else {
        paths := ExploreAllPaths(actions, draws);
      }
      result := AnalyzeSimulationResults(name, paths, riskTolerance);
      simulationHistory := simulationHistory + [result];
    }
  }

  /**
   * With no actions every Monte Carlo sample is CATASTROPHIC with probability
   * 0: the result holds one such path per simulation (not an empty list), a
   * success rate of 0, and recommends the first sample.
   */
  lemma EmptyScenarioMonteCarlo(name: string, draws: Draws, numSimulations: nat, riskTolerance: real)
    requires numSimulations > 0
    ensures |Analysis(name, ScenarioPaths([], numSimulations, true, draws), riskTolerance).paths| == numSimulations
    ensures forall p :: p in Analysis(name, ScenarioPaths([], numSimulations, true, draws), riskTolerance).paths ==>
              p.outcome == Catastrophic && p.actionsTaken == []
    ensures Analysis(name, ScenarioPaths([], numSimulations, true, draws), riskTolerance).successRate == 0.0
    ensures Analysis(name, ScenarioPaths([], numSimulations, true, draws), riskTolerance).recommended
            == Some(MonteCarloPath([], draws, 0))
  {
    var paths := ScenarioPaths([], numSimulations, true, draws);
    forall i | 0 <= i < |paths|
      ensures paths[i] == SimulationPath(MonteCarlo(i), [], Catastrophic, 0.0, 0, 0.0, [], 0.0)
    {
      MonteCarloEmpty(draws, i);
    }
    SuccessCountBounds(paths);
    FirstOfEqualScores(paths, riskTolerance);
  }

  lemma {:induction false} FirstOfEqualScores(paths: seq<SimulationPath>, riskTolerance: real)
    requires paths != []
    requires forall p :: p in paths ==> Score(p, riskTolerance) == 0.0
    ensures BestIndex(paths, riskTolerance) == 0
  {
    if |paths| > 1 {
      var init := paths[..|paths| - 1];
      InitMembers(paths);
      FirstOfEqualScores(init, riskTolerance);
      assert paths[|paths| - 1] in paths;
    }
  }

  /** A scenario result holds one path per simulation, or exactly three in deterministic mode. */
  lemma ScenarioPathCount(name: string, actions: seq<Action>, numSimulations: int, monteCarlo: bool,
                          draws: Draws, riskTolerance: real)
    ensures monteCarlo && numSimulations > 0 ==>
              |Analysis(name, ScenarioPaths(actions, numSimulations, monteCarlo, draws), riskTolerance).paths|
              == numSimulations
    ensures monteCarlo && numSimulations <= 0 ==>
              Analysis(name, ScenarioPaths(actions, numSimulations, monteCarlo, draws), riskTolerance).recommended == None
    ensures !monteCarlo ==>
              |Analysis(name, ScenarioPaths(actions, numSimulations, monteCarlo, draws), riskTolerance).paths| == 3
  {
    if !monteCarlo {
      DeterministicPathsShape(actions, draws);
    }
  }
}
