/**
 * Path sampling over the dependency order: one Monte Carlo sample, and the
 * fixed-rate deterministic paths (optimistic, realistic, pessimistic).
 *
 * Randomness is an input: `draws(stream, k)` is the k-th value that
 * `random.random()` returns while sample `stream` is being built.
 */
module Sampler {
  import opened Wrappers
  import opened Scenario
  import opened Resolver

  type Draws = (nat, nat) -> real

  /** Every draw lies in [0, 1), as `random.random()` promises. */
  ghost predicate UnitDraws(draws: Draws)
  {
    forall stream: nat, k: nat :: 0.0 <= draws(stream, k) < 1.0
  }

  /** `xs` is `ys` with some elements left out, the rest kept in order. */
  ghost predicate IsSubsequence(xs: seq<Action>, ys: seq<Action>)
    decreases |ys|
  {
    xs == [] ||
    (ys != [] &&
     (IsSubsequence(xs, ys[..|ys| - 1]) ||
      (xs[|xs| - 1] == ys[|ys| - 1] && IsSubsequence(xs[..|xs| - 1], ys[..|ys| - 1]))))
  }

  ghost predicate NoDuplicates(s: seq<Action>)
  {
    forall i, j :: 0 <= i < j < |s| ==> s[i] != s[j]
  }

  lemma {:induction false} SubsequenceMembers(xs: seq<Action>, ys: seq<Action>)
    requires IsSubsequence(xs, ys)
    ensures forall x :: x in xs ==> x in ys
    decreases |ys|
  {
    if xs != [] {
      var ys' := ys[..|ys| - 1];
      if IsSubsequence(xs, ys') {
        SubsequenceMembers(xs, ys');
      } else {
        SubsequenceMembers(xs[..|xs| - 1], ys');
        assert xs == xs[..|xs| - 1] + [ys[|ys| - 1]];
      }
      assert ys == ys' + [ys[|ys| - 1]];
    }
  }

  /** A subsequence of a duplicate-free sequence is duplicate-free. */
  lemma {:induction false} SubsequenceNoDuplicates(xs: seq<Action>, ys: seq<Action>)
    requires IsSubsequence(xs, ys) && NoDuplicates(ys)
    ensures NoDuplicates(xs)
    decreases |ys|
  {
    if xs != [] {
      var ys' := ys[..|ys| - 1];
      assert NoDuplicates(ys');
      if IsSubsequence(xs, ys') {
        SubsequenceNoDuplicates(xs, ys');
      } else {
        var xs' := xs[..|xs| - 1];
        SubsequenceNoDuplicates(xs', ys');
        SubsequenceMembers(xs', ys');
        assert ys[|ys| - 1] !in ys';
        forall i, j | 0 <= i < j < |xs|
          ensures xs[i] != xs[j]
        {
          if j == |xs| - 1 {
            assert xs[i] in xs';
          } else {
            assert xs[i] == xs'[i] && xs[j] == xs'[j];
          }
        }
      }
    }
  }

  lemma SubsequenceSnoc(xs: seq<Action>, ys: seq<Action>, y: Action, taken: bool)
    requires IsSubsequence(xs, ys)
    ensures IsSubsequence(if taken then xs + [y] else xs, ys + [y])
  {
    assert (ys + [y])[..|ys|] == ys;
    if taken {
      assert (xs + [y])[..|xs|] == xs;
    }
  }

  // ---------------------------------------------------------------------
  // One Monte Carlo sample
  // ---------------------------------------------------------------------

  /** What a sample has built so far; `used` counts the draws it consumed. */
  datatype SampleState = SampleState(executed: seq<Action>, used: nat, effects: seq<SecondOrderEffect>)

  /**
   * The sample after the first `n` actions of `order`. An action whose
   * dependencies have not all run is skipped without a draw; otherwise it
   * runs when its draw is below its success probability, and then the effects
   * it cascades (with itself already counted as executed) are appended.
   */
  function SampleRun(order: seq<Action>, n: nat, draws: Draws, stream: nat): SampleState
    requires n <= |order|
  {
    if n == 0 then SampleState([], 0, [])
    else
      var s := SampleRun(order, n - 1, draws, stream);
      var a := order[n - 1];
      if !DepsMet(a, s.executed) then s
      else if draws(stream, s.used) < a.successProbability then
        SampleState(s.executed + [a], s.used + 1, s.effects + SecondOrderEffects(a, s.executed + [a], order))
      else SampleState(s.executed, s.used + 1, s.effects)
  }

  /** Sample number `index` over `actions`: its id is `mc_<index>` and it uses draw stream `index`. */
  function MonteCarloPath(actions: seq<Action>, draws: Draws, index: nat): SimulationPath
  {
    var order := TopologicalOrder(actions);
    var s := SampleRun(order, |order|, draws, index);
    SimulationPath(
      MonteCarlo(index), s.executed, DetermineOutcome(s.executed, actions),
      SumCost(s.executed), SumDuration(s.executed), PathProbability(s.executed),
      s.effects, RiskScore(s.effects, SumCost(s.executed)))
  }

  method RunMonteCarloSimulation(actions: seq<Action>, draws: Draws, simulationId: nat)
    returns (path: SimulationPath)
    ensures path == MonteCarloPath(actions, draws, simulationId)
  {
    var sorted := TopologicalSort(actions);
    var executed: seq<Action> := [];
    var used: nat := 0;
    var totalCost := 0.0;
    var totalDuration := 0;
    var effects: seq<SecondOrderEffect> := [];
    for i := 0 to |sorted|
      invariant SampleRun(sorted, i, draws, simulationId) == SampleState(executed, used, effects)
      invariant totalCost == SumCost(executed) && totalDuration == SumDuration(executed)
    {
      var action := sorted[i];
      if !DepsMet(action, executed) {
        continue;
      }
      var success := draws(simulationId, used) < action.successProbability;
      used := used + 1;
      if success {
        assert (executed + [action])[..|executed|] == executed;
        executed := executed + [action];
        totalCost := totalCost + action.cost;
        totalDuration := totalDuration + action.duration;
        var cascade := SimulateSecondOrderEffects(action, executed, sorted);
        effects := effects + cascade;
      }
    }
    var probability := CalculatePathProbability(executed);
    var riskScore := CalculateRiskScore(effects, totalCost);
    path := SimulationPath(
      MonteCarlo(simulationId), executed, DetermineOutcome(executed, actions),
      totalCost, totalDuration, probability, effects, riskScore);
  }

  /**
   * One step of the sample: the executed list grows by exactly the next
   * action iff that action's dependencies have all run and its draw falls
   * below its success probability; otherwise it stays as it was.
   */
  lemma SampleStep(order: seq<Action>, n: nat, draws: Draws, stream: nat)
    requires n < |order|
    ensures SampleRun(order, n + 1, draws, stream).executed ==
            SampleRun(order, n, draws, stream).executed + [order[n]]
            <==>
            DepsMet(order[n], SampleRun(order, n, draws, stream).executed) &&
            draws(stream, SampleRun(order, n, draws, stream).used) < order[n].successProbability
    ensures SampleRun(order, n + 1, draws, stream).executed == SampleRun(order, n, draws, stream).executed ||
            SampleRun(order, n + 1, draws, stream).executed == SampleRun(order, n, draws, stream).executed + [order[n]]
  {
    var s := SampleRun(order, n, draws, stream);
    assert s.executed != s.executed + [order[n]];
  }

  /** The executed actions keep the sorted order, leaving some out. */
  lemma {:induction false} SampleSubsequence(order: seq<Action>, n: nat, draws: Draws, stream: nat)
    requires n <= |order|
    ensures IsSubsequence(SampleRun(order, n, draws, stream).executed, order[..n])
  {
    if n > 0 {
      SampleSubsequence(order, n - 1, draws, stream);
      var s := SampleRun(order, n - 1, draws, stream);
      SubsequenceSnoc(s.executed, order[..n - 1], order[n - 1],
                      SampleRun(order, n, draws, stream).executed != s.executed);
      assert order[..n - 1] + [order[n - 1]] == order[..n];
    }
  }

  /** Each executed action had all its dependencies among the actions executed before it. */
  lemma {:induction false} SampleRespectsDependencies(order: seq<Action>, n: nat, draws: Draws, stream: nat)
    requires n <= |order|
    ensures forall i :: 0 <= i < |SampleRun(order, n, draws, stream).executed| ==>
              DepsMet(SampleRun(order, n, draws, stream).executed[i], SampleRun(order, n, draws, stream).executed[..i])
  {
    if n > 0 {
      SampleRespectsDependencies(order, n - 1, draws, stream);
      var s := SampleRun(order, n - 1, draws, stream);
      var ex := SampleRun(order, n, draws, stream).executed;
      if ex != s.executed {
        assert ex == s.executed + [order[n - 1]];
        forall i | 0 <= i < |ex|
          ensures DepsMet(ex[i], ex[..i])
        {
          if i < |s.executed| {
            assert ex[..i] == s.executed[..i];
          } else {
            assert ex[..i] == s.executed;
          }
        }
      }
    }
  }

  /**
   * The sampled path is a duplicate-free subsequence of the sorted order when
   * the input lists no action twice, and each of its actions ran after every
   * action it depends on.
   */
  lemma MonteCarloExecutedShape(actions: seq<Action>, draws: Draws, index: nat)
    requires NoDuplicates(actions)
    ensures IsSubsequence(MonteCarloPath(actions, draws, index).actionsTaken, TopologicalOrder(actions))
    ensures NoDuplicates(MonteCarloPath(actions, draws, index).actionsTaken)
    ensures forall i :: 0 <= i < |MonteCarloPath(actions, draws, index).actionsTaken| ==>
              DepsMet(MonteCarloPath(actions, draws, index).actionsTaken[i],
                      MonteCarloPath(actions, draws, index).actionsTaken[..i])
  {
    var order := TopologicalOrder(actions);
    SampleSubsequence(order, |order|, draws, index);
    assert order[..|order|] == order;
    SampleRespectsDependencies(order, |order|, draws, index);
    OrderKeepsDistinct(actions);
    SubsequenceNoDuplicates(MonteCarloPath(actions, draws, index).actionsTaken, order);
  }

  /** Rearranging a duplicate-free list keeps it duplicate-free. */
  lemma OrderKeepsDistinct(actions: seq<Action>)
    requires NoDuplicates(actions)
    ensures NoDuplicates(TopologicalOrder(actions))
  {
    var order := TopologicalOrder(actions);
    TopologicalOrderIsPermutation(actions);
    forall i, j | 0 <= i < j < |order|
      ensures order[i] != order[j]
    {
      if order[i] == order[j] {
        var x := order[i];
        assert multiset(order)[x] >= 2 by {
          assert order == order[..j] + [order[j]] + order[j + 1..];
          assert x in order[..j];
        }
        DistinctCount(actions, x);
      }
    }
  }

  lemma {:induction false} DistinctCount(s: seq<Action>, x: Action)
    requires NoDuplicates(s)
    ensures multiset(s)[x] <= 1
  {
    if s != [] {
      var init := s[..|s| - 1];
      assert s == init + [s[|s| - 1]];
      assert NoDuplicates(init);
      DistinctCount(init, x);
      if s[|s| - 1] == x {
        assert x !in init;
      }
    }
  }

  /** The sample's effects only grow. */
  lemma {:induction false} EffectsGrow(order: seq<Action>, m: nat, n: nat, draws: Draws, stream: nat)
    requires m <= n <= |order|
    ensures SampleRun(order, m, draws, stream).effects <= SampleRun(order, n, draws, stream).effects
    decreases n - m
  {
    if m < n {
      EffectsGrow(order, m, n - 1, draws, stream);
    }
  }

  /**
   * Every executed action above the cost threshold has its budget-pressure
   * effect, listing the actions of `order` not executed by then, among `effects`.
   */
  ghost predicate PressureLeft(executed: seq<Action>, effects: seq<SecondOrderEffect>, order: seq<Action>)
  {
    forall i :: 0 <= i < |executed| && executed[i].cost > HighCostThreshold ==>
      BudgetPressure(executed[i], executed[..i + 1], order) in effects
  }

  lemma {:induction false} HighCostLeavesPressure(order: seq<Action>, n: nat, draws: Draws, stream: nat)
    requires n <= |order|
    ensures PressureLeft(SampleRun(order, n, draws, stream).executed, SampleRun(order, n, draws, stream).effects, order)
  {
    if n > 0 {
      var m := n - 1;
      HighCostLeavesPressure(order, m, draws, stream);
      SampleStepShape(order, n, draws, stream);
      PressureKeptByStep(SampleRun(order, m, draws, stream), SampleRun(order, n, draws, stream), order[m], order);
    }
  }

  /** Step `n` of a sample either keeps the executed list and effects or appends `order[n - 1]` and its cascade. */
  lemma SampleStepShape(order: seq<Action>, n: nat, draws: Draws, stream: nat)
    requires 0 < n <= |order|
    ensures StepShape(SampleRun(order, n - 1, draws, stream), SampleRun(order, n, draws, stream), order[n - 1], order)
  {
  }

  /** `t` follows `s` by skipping `a` or by running it with its cascade. */
  ghost predicate StepShape(s: SampleState, t: SampleState, a: Action, order: seq<Action>)
  {
    (t.executed == s.executed && t.effects == s.effects)
    || (t.executed == s.executed + [a] && t.effects == s.effects + SecondOrderEffects(a, s.executed + [a], order))
  }

  /** One step of a sample either leaves the executed list and effects alone or runs `a` with its cascade. */
  lemma PressureKeptByStep(s: SampleState, t: SampleState, a: Action, order: seq<Action>)
    requires PressureLeft(s.executed, s.effects, order)
    requires StepShape(s, t, a, order)
    ensures PressureLeft(t.executed, t.effects, order)
  {
    if t.executed != s.executed {
      CascadeEndsInPressure(a, s.executed + [a], order);
      PressureExtended(s.executed, s.effects, a, SecondOrderEffects(a, s.executed + [a], order), order);
    }
  }

  lemma CascadeEndsInPressure(a: Action, executed: seq<Action>, order: seq<Action>)
    ensures a.cost > HighCostThreshold ==> BudgetPressure(a, executed, order) in SecondOrderEffects(a, executed, order)
  {
    var cascade := SecondOrderEffects(a, executed, order);
    if a.cost > HighCostThreshold {
      assert cascade[|cascade| - 1] == BudgetPressure(a, executed, order);
    }
  }

  lemma PressureExtended(executed: seq<Action>, effects: seq<SecondOrderEffect>, a: Action,
                         more: seq<SecondOrderEffect>, order: seq<Action>)
    requires PressureLeft(executed, effects, order)
    requires a.cost > HighCostThreshold ==> BudgetPressure(a, executed + [a], order) in more
    ensures PressureLeft(executed + [a], effects + more, order)
  {
    var ex := executed + [a];
    forall i | 0 <= i < |ex| && ex[i].cost > HighCostThreshold
      ensures BudgetPressure(ex[i], ex[..i + 1], order) in effects + more
    {
      if i < |executed| {
        assert ex[..i + 1] == executed[..i + 1];
        assert BudgetPressure(executed[i], executed[..i + 1], order) in effects;
      } else {
        assert ex[..i + 1] == ex;
      }
    }
  }

  // ---------------------------------------------------------------------
  // Bounds and special cases of a sample
  // ---------------------------------------------------------------------

  /** Probabilities in [0, 1], non-negative costs, generators with probabilities in [0, 1]. */
  ghost predicate WellFormed(actions: seq<Action>)
  {
    forall a :: a in actions ==>
      0.0 <= a.successProbability <= 1.0 && a.cost >= 0.0 && GeneratorsBounded(a.sideEffects)
  }

  lemma {:induction false} SumCostNonNegative(actions: seq<Action>)
    requires forall a :: a in actions ==> a.cost >= 0.0
    ensures SumCost(actions) >= 0.0
  {
    if actions != [] {
      var init := actions[..|actions| - 1];
      InitMembers(actions);
      SumCostNonNegative(init);
      assert actions[|actions| - 1] in actions;
    }
  }

  /** Every executed action and every effect of a sample comes from a well-formed order. */
  lemma {:induction false} SampleWellFormed(order: seq<Action>, n: nat, draws: Draws, stream: nat)
    requires n <= |order| && WellFormed(order)
    ensures WellFormed(SampleRun(order, n, draws, stream).executed)
    ensures EffectsBounded(SampleRun(order, n, draws, stream).effects)
  {
    if n > 0 {
      SampleWellFormed(order, n - 1, draws, stream);
      var s := SampleRun(order, n - 1, draws, stream);
      var a := order[n - 1];
      assert a in order;
      CascadeBounded(a, s.executed + [a], order);
      var t := SampleRun(order, n, draws, stream);
      if t.executed != s.executed {
        assert t.executed == s.executed + [a];
        assert t.effects == s.effects + SecondOrderEffects(a, s.executed + [a], order);
      }
    }
  }

  /** For well-formed actions the sample's probability and risk score lie in [0, 1] and its cost is non-negative. */
  lemma MonteCarloBounds(actions: seq<Action>, draws: Draws, index: nat)
    requires WellFormed(actions)
    ensures 0.0 <= MonteCarloPath(actions, draws, index).probability <= 1.0
    ensures 0.0 <= MonteCarloPath(actions, draws, index).riskScore <= 1.0
    ensures MonteCarloPath(actions, draws, index).totalCost >= 0.0
  {
    var order := TopologicalOrder(actions);
    TopologicalOrderIsPermutation(actions);
    assert forall a :: a in order ==> a in multiset(actions);
    SampleWellFormed(order, |order|, draws, index);
    var s := SampleRun(order, |order|, draws, index);
    SumCostNonNegative(s.executed);
    PathProbabilityBounded(s.executed);
    RiskScoreBounded(s.effects, SumCost(s.executed));
  }

  /** With no actions a sample executes nothing: CATASTROPHIC, probability 0, no cost, no risk. */
  lemma MonteCarloEmpty(draws: Draws, index: nat)
    ensures MonteCarloPath([], draws, index) ==
            SimulationPath(MonteCarlo(index), [], Catastrophic, 0.0, 0, 0.0, [], 0.0)
  {
  }

  /** With certain actions and draws below 1 every action of an acyclic, closed list runs in sorted order. */
  lemma {:induction false} SampleRunsAll(order: seq<Action>, n: nat, draws: Draws, stream: nat)
    requires n <= |order| && UnitDraws(draws)
    requires forall a :: a in order ==> a.successProbability == 1.0
    requires forall i :: 0 <= i < |order| ==> DepsMet(order[i], order[..i])
    ensures SampleRun(order, n, draws, stream).executed == order[..n]
    ensures SampleRun(order, n, draws, stream).used == n
  {
    if n > 0 {
      SampleRunsAll(order, n - 1, draws, stream);
      assert order[n - 1] in order;
      assert DepsMet(order[n - 1], order[..n - 1]);
      assert draws(stream, n - 1) < order[n - 1].successProbability;
      assert order[..n - 1] + [order[n - 1]] == order[..n];
    }
  }

  /**
   * A plan with no cycle, no dangling dependency and only certain actions
   * succeeds on every sample: all actions run, in sorted order, and the path
   * probability is 1.
   */
  lemma CertainPlanSucceeds(actions: seq<Action>, rank: string -> nat, draws: Draws, index: nat)
    requires actions != [] && UnitDraws(draws)
    requires Closed(actions) && Ranked(actions, rank)
    requires forall a :: a in actions ==> a.successProbability == 1.0
    ensures MonteCarloPath(actions, draws, index).actionsTaken == TopologicalOrder(actions)
    ensures MonteCarloPath(actions, draws, index).outcome == Success
    ensures MonteCarloPath(actions, draws, index).probability == 1.0
  {
    var order := TopologicalOrder(actions);
    TopologicalOrderIsPermutation(actions);
    assert forall a :: a in order ==> a in multiset(actions);
    DependenciesPrecede(actions, rank);
    SampleRunsAll(order, |order|, draws, index);
    assert order[..|order|] == order;
    AllCertain(order);
    OutcomeExtremes(order, actions);
  }

  lemma {:induction false} AllCertain(s: seq<Action>)
    requires forall a :: a in s ==> a.successProbability == 1.0
    ensures ProbabilityProduct(s) == 1.0
  {
    if s != [] {
      var init := s[..|s| - 1];
      InitMembers(s);
      AllCertain(init);
      assert s[|s| - 1] in s;
    }
  }

  // ---------------------------------------------------------------------
  // Deterministic paths
  // ---------------------------------------------------------------------

  /** The first `n` actions of `order` that pass a draw below `rate`; the k-th action uses draw k. */
  function DeterministicRun(order: seq<Action>, n: nat, draws: Draws, stream: nat, rate: real): seq<Action>
    requires n <= |order|
  {
    if n == 0 then []
    else
      var ex := DeterministicRun(order, n - 1, draws, stream, rate);
      if draws(stream, n - 1) < rate then ex + [order[n - 1]] else ex
  }

  function Power(x: real, k: nat): real
  {
    if k == 0 then 1.0 else x * Power(x, k - 1)
  }

  /** A path where every action, dependencies aside, succeeds when its draw is below `rate`. */
  function DeterministicPath(name: string, order: seq<Action>, draws: Draws, stream: nat, rate: real): SimulationPath
  {
    var ex := DeterministicRun(order, |order|, draws, stream, rate);
    SimulationPath(
      Named(name), ex, DetermineOutcome(ex, order), SumCost(ex), SumDuration(ex),
      Power(rate, |ex|), [], 1.0 - rate)
  }

  method CreateDeterministicPath(name: string, actions: seq<Action>, draws: Draws, stream: nat, rate: real)
    returns (path: SimulationPath)
    ensures path == DeterministicPath(name, actions, draws, stream, rate)
  {
    var executed: seq<Action> := [];
    var totalCost := 0.0;
    var totalDuration := 0;
    for i := 0 to |actions|
      invariant executed == DeterministicRun(actions, i, draws, stream, rate)
      invariant totalCost == SumCost(executed) && totalDuration == SumDuration(executed)
    {
      if draws(stream, i) < rate {
        assert (executed + [actions[i]])[..|executed|] == executed;
        executed := executed + [actions[i]];
        totalCost := totalCost + actions[i].cost;
        totalDuration := totalDuration + actions[i].duration;
      }
    }
    path := SimulationPath(
      Named(name), executed, DetermineOutcome(executed, actions), totalCost, totalDuration,
      Power(rate, |executed|), [], 1.0 - rate);
  }

  const OptimisticRate: real := 1.0
  const RealisticRate: real := 0.8
  const PessimisticRate: real := 0.5

  /** The optimistic, realistic and pessimistic paths over the sorted actions, on draw streams 0, 1 and 2. */
  function DeterministicPaths(actions: seq<Action>, draws: Draws): seq<SimulationPath>
  {
    var order := TopologicalOrder(actions);
    [DeterministicPath("optimistic", order, draws, 0, OptimisticRate),
     DeterministicPath("realistic", order, draws, 1, RealisticRate),
     DeterministicPath("pessimistic", order, draws, 2, PessimisticRate)]
  }

  method ExploreAllPaths(actions: seq<Action>, draws: Draws) returns (paths: seq<SimulationPath>)
    ensures paths == DeterministicPaths(actions, draws)
  {
    var sorted := TopologicalSort(actions);
    var optimistic := CreateDeterministicPath("optimistic", sorted, draws, 0, OptimisticRate);
    var realistic := CreateDeterministicPath("realistic", sorted, draws, 1, RealisticRate);
    var pessimistic := CreateDeterministicPath("pessimistic", sorted, draws, 2, PessimisticRate);
    paths := [optimistic, realistic, pessimistic];
  }

  lemma {:induction false} DeterministicSubsequence(order: seq<Action>, n: nat, draws: Draws, stream: nat, rate: real)
    requires n <= |order|
    ensures IsSubsequence(DeterministicRun(order, n, draws, stream, rate), order[..n])
  {
    if n > 0 {
      DeterministicSubsequence(order, n - 1, draws, stream, rate);
      SubsequenceSnoc(DeterministicRun(order, n - 1, draws, stream, rate), order[..n - 1], order[n - 1],
                      draws(stream, n - 1) < rate);
      assert order[..n - 1] + [order[n - 1]] == order[..n];
    }
  }

  lemma {:induction false} PowerBounded(x: real, k: nat)
    requires 0.0 <= x <= 1.0
    ensures 0.0 <= Power(x, k) <= 1.0
  {
    if k > 0 {
      PowerBounded(x, k - 1);
      UnitProduct(x, Power(x, k - 1));
    }
  }

  /**
   * Deterministic mode yields exactly three paths, named optimistic, realistic
   * and pessimistic in that order, each without effects, with risk 1 - rate,
   * probability rate^k for its k executed actions (in [0, 1]), and executed
   * actions that keep the sorted order.
   */
  lemma DeterministicPathsShape(actions: seq<Action>, draws: Draws)
    ensures |DeterministicPaths(actions, draws)| == 3
    ensures DeterministicPaths(actions, draws)[0].id == Named("optimistic")
    ensures DeterministicPaths(actions, draws)[1].id == Named("realistic")
    ensures DeterministicPaths(actions, draws)[2].id == Named("pessimistic")
    ensures DeterministicPaths(actions, draws)[0].riskScore == 0.0
    ensures DeterministicPaths(actions, draws)[1].riskScore == 0.2
    ensures DeterministicPaths(actions, draws)[2].riskScore == 0.5
    ensures forall p :: p in DeterministicPaths(actions, draws) ==>
              p.effects == [] && 0.0 <= p.probability <= 1.0 &&
              IsSubsequence(p.actionsTaken, TopologicalOrder(actions))
  {
    var order := TopologicalOrder(actions);
    assert order[..|order|] == order;
    DeterministicSubsequence(order, |order|, draws, 0, OptimisticRate);
    DeterministicSubsequence(order, |order|, draws, 1, RealisticRate);
    DeterministicSubsequence(order, |order|, draws, 2, PessimisticRate);
    PowerBounded(OptimisticRate, |DeterministicRun(order, |order|, draws, 0, OptimisticRate)|);
    PowerBounded(RealisticRate, |DeterministicRun(order, |order|, draws, 1, RealisticRate)|);
    PowerBounded(PessimisticRate, |DeterministicRun(order, |order|, draws, 2, PessimisticRate)|);
  }

  lemma {:induction false} RunAtRateOne(order: seq<Action>, n: nat, draws: Draws, stream: nat)
    requires n <= |order| && UnitDraws(draws)
    ensures DeterministicRun(order, n, draws, stream, 1.0) == order[..n]
  {
    if n > 0 {
      RunAtRateOne(order, n - 1, draws, stream);
      assert order[..n - 1] + [order[n - 1]] == order[..n];
    }
  }

  lemma {:induction false} PowerOfOne(k: nat)
    ensures Power(1.0, k) == 1.0
  {
    if k > 0 {
      PowerOfOne(k - 1);
    }
  }

  lemma {:induction false} RunLength(order: seq<Action>, n: nat, draws: Draws, stream: nat, rate: real)
    requires n <= |order|
    ensures |DeterministicRun(order, n, draws, stream, rate)| <= n
  {
    if n > 0 {
      RunLength(order, n - 1, draws, stream, rate);
    }
  }

  /**
   * Every draw is below 1.0, so the optimistic path executes every action in
   * sorted order with probability 1, which no other path exceeds in length;
   * with at least one action its outcome is SUCCESS.
   */
  lemma OptimisticExecutesAll(actions: seq<Action>, draws: Draws)
    requires UnitDraws(draws)
    ensures DeterministicPaths(actions, draws)[0].actionsTaken == TopologicalOrder(actions)
    ensures DeterministicPaths(actions, draws)[0].probability == 1.0
    ensures actions != [] ==> DeterministicPaths(actions, draws)[0].outcome == Success
    ensures forall p :: p in DeterministicPaths(actions, draws) ==>
              |p.actionsTaken| <= |DeterministicPaths(actions, draws)[0].actionsTaken|
  {
    var order := TopologicalOrder(actions);
    TopologicalOrderIsPermutation(actions);
    RunAtRateOne(order, |order|, draws, 0);
    assert order[..|order|] == order;
    PowerOfOne(|order|);
    OutcomeExtremes(order, order);
    RunLength(order, |order|, draws, 1, RealisticRate);
    RunLength(order, |order|, draws, 2, PessimisticRate);
  }
}
