/**
 * Entities of the strategic scenario simulator, the effect cascader and the
 * path scorer (outcome classification, path probability, risk score, value).
 */
module Scenario {
  import opened Wrappers

  datatype Outcome = Success | PartialSuccess | Failure | Catastrophic

  /** A cascading consequence of an executed action; impact < 0 is harmful. */
  datatype SecondOrderEffect = SecondOrderEffect(
    sourceAction: string,
    description: string,
    probability: real,
    impact: real,
    affectedActions: seq<string>)

  /** What one call of a side-effect generator ends in. */
  datatype GeneratorOutcome = Produced(effect: SecondOrderEffect) | Falsy | Raised

  /**
   * The side-effect callables an action may carry, as a closed set of
   * behaviours: yield a fixed effect, yield an effect on every action not yet
   * executed, return a falsy value, or raise.
   */
  datatype EffectGenerator =
    | Constant(effect: SecondOrderEffect)
    | Cascade(description: string, probability: real, impact: real)
    | NoEffect
    | Failing

  /** A plan step; `duration` is in seconds. */
  datatype Action = Action(
    name: string,
    description: string,
    duration: int,
    cost: real,
    successProbability: real,
    dependencies: seq<string>,
    sideEffects: seq<EffectGenerator>)

  /** `mc_<index>` for a Monte Carlo sample, the scenario label otherwise. */
  datatype PathId = MonteCarlo(index: nat) | Named(scenario: string)

  datatype SimulationPath = SimulationPath(
    id: PathId,
    actionsTaken: seq<Action>,
    outcome: Outcome,
    totalCost: real,
    totalDuration: int,
    probability: real,
    effects: seq<SecondOrderEffect>,
    riskScore: real)

  const HighCostThreshold: real := 10000.0
  const BudgetPressureDescription: string := "High cost reduces available budget"

  function Names(actions: seq<Action>): (r: seq<string>)
    ensures |r| == |actions|
    ensures forall i :: 0 <= i < |actions| ==> r[i] == actions[i].name
  {
    seq(|actions|, i requires 0 <= i < |actions| => actions[i].name)
  }

  lemma NamesAppend(xs: seq<Action>, ys: seq<Action>)
    ensures Names(xs + ys) == Names(xs) + Names(ys)
  {
  }

  /** Every dependency of `a` is the name of some action in `done`. */
  predicate DepsMet(a: Action, done: seq<Action>)
  {
    forall d :: d in a.dependencies ==> d in Names(done)
  }

  /** Dependencies met by a prefix stay met when more actions follow it. */
  lemma DepsMetGrows(a: Action, done: seq<Action>, more: seq<Action>)
    requires DepsMet(a, done)
    ensures DepsMet(a, done + more)
  {
    NamesAppend(done, more);
  }

  function SumCost(actions: seq<Action>): real
  {
    if actions == [] then 0.0 else SumCost(actions[..|actions| - 1]) + actions[|actions| - 1].cost
  }

  function SumDuration(actions: seq<Action>): int
  {
    if actions == [] then 0 else SumDuration(actions[..|actions| - 1]) + actions[|actions| - 1].duration
  }

  // ---------------------------------------------------------------------
  // Effect cascader
  // ---------------------------------------------------------------------

  /** Names of the candidate actions that are not (yet) among `executed`. */
  function PendingNames(all: seq<Action>, executed: seq<Action>): (r: seq<string>)
    ensures forall n :: n in r ==> exists b :: b in all && b !in executed && b.name == n
    ensures forall b :: b in all && b !in executed ==> b.name in r
  {
    if all == [] then []
    else (if all[0] in executed then [] else [all[0].name]) + PendingNames(all[1..], executed)
  }

  function RunGenerator(g: EffectGenerator, action: Action, executed: seq<Action>, all: seq<Action>): GeneratorOutcome
  {
    match g
    case Constant(e) => Produced(e)
    case Cascade(description, probability, impact) =>
      Produced(SecondOrderEffect(action.name, description, probability, impact, PendingNames(all, executed)))
    case NoEffect => Falsy
    case Failing => Raised
  }

  /** The effects of the first `n` generators; falsy results and raises add nothing. */
  function GeneratedEffects(gens: seq<EffectGenerator>, action: Action, executed: seq<Action>, all: seq<Action>, n: nat): seq<SecondOrderEffect>
    requires n <= |gens|
  {
    if n == 0 then []
    else
      GeneratedEffects(gens, action, executed, all, n - 1) +
      match RunGenerator(gens[n - 1], action, executed, all)
      case Produced(e) => [e]
      case _ => []
  }

  /** The synthetic effect of a high-cost action on everything not yet executed. */
  function BudgetPressure(action: Action, executed: seq<Action>, all: seq<Action>): SecondOrderEffect
  {
    SecondOrderEffect(action.name, BudgetPressureDescription, 0.8, -0.3, PendingNames(all, executed))
  }

  function SecondOrderEffects(action: Action, executed: seq<Action>, all: seq<Action>): seq<SecondOrderEffect>
  {
    GeneratedEffects(action.sideEffects, action, executed, all, |action.sideEffects|) +
    (if action.cost > HighCostThreshold then [BudgetPressure(action, executed, all)] else [])
  }

  /** Runs the action's generators in order, then applies the high-cost rule. */
  method SimulateSecondOrderEffects(action: Action, executed: seq<Action>, all: seq<Action>)
    returns (effects: seq<SecondOrderEffect>)
    ensures effects == SecondOrderEffects(action, executed, all)
  {
    effects := [];
    for k := 0 to |action.sideEffects|
      invariant effects == GeneratedEffects(action.sideEffects, action, executed, all, k)
    {
      match RunGenerator(action.sideEffects[k], action, executed, all)
      case Produced(e) => effects := effects + [e];
      case _ =>
    }
    if action.cost > HighCostThreshold {
      effects := effects + [BudgetPressure(action, executed, all)];
    }
  }

  /** Number of the first `n` generators whose call yields an effect. */
  function ProducingCount(gens: seq<EffectGenerator>, action: Action, executed: seq<Action>, all: seq<Action>, n: nat): nat
    requires n <= |gens|
  {
    if n == 0 then 0
    else ProducingCount(gens, action, executed, all, n - 1) +
         (if RunGenerator(gens[n - 1], action, executed, all).Produced? then 1 else 0)
  }

  /**
   * Generators that raise or return a falsy value contribute nothing and do
   * not stop later generators or the high-cost rule: the cascade holds exactly
   * one effect per producing generator plus the budget-pressure effect.
   */
  lemma {:induction false} EffectCount(action: Action, executed: seq<Action>, all: seq<Action>, n: nat)
    requires n <= |action.sideEffects|
    ensures |GeneratedEffects(action.sideEffects, action, executed, all, n)| ==
            ProducingCount(action.sideEffects, action, executed, all, n)
  {
    if n > 0 {
      EffectCount(action, executed, all, n - 1);
    }
  }

  /**
   * An action above the cost threshold always ends its cascade with the
   * budget-pressure effect (probability 0.8, impact -0.3) whose affected list
   * is every candidate not yet executed; once the action itself is executed
   * and names are unique, its own name is not in that list.
   */
  lemma HighCostCascade(action: Action, executed: seq<Action>, all: seq<Action>)
    requires action.cost > HighCostThreshold
    requires action in executed
    requires forall i, j :: 0 <= i < j < |all| ==> all[i].name != all[j].name
    ensures var effects := SecondOrderEffects(action, executed, all);
            |effects| > 0 &&
            effects[|effects| - 1] == BudgetPressure(action, executed, all) &&
            effects[|effects| - 1].probability == 0.8 &&
            effects[|effects| - 1].impact == -0.3 &&
            (action in all ==> action.name !in effects[|effects| - 1].affectedActions)
  {
  }

  /** Every effect of the cascade has its probability in [0, 1] when the generators' do. */
  lemma {:induction false} EffectProbabilitiesBounded(action: Action, executed: seq<Action>, all: seq<Action>, n: nat)
    requires n <= |action.sideEffects|
    requires GeneratorsBounded(action.sideEffects)
    ensures EffectsBounded(GeneratedEffects(action.sideEffects, action, executed, all, n))
  {
    if n > 0 {
      EffectProbabilitiesBounded(action, executed, all, n - 1);
      assert action.sideEffects[n - 1] in action.sideEffects;
    }
  }

  predicate GeneratorsBounded(gens: seq<EffectGenerator>)
  {
    forall g :: g in gens ==>
      match g
      case Constant(e) => 0.0 <= e.probability <= 1.0
      case Cascade(_, p, _) => 0.0 <= p <= 1.0
      case _ => true
  }

  predicate EffectsBounded(effects: seq<SecondOrderEffect>)
  {
    forall e :: e in effects ==> 0.0 <= e.probability <= 1.0
  }

  lemma CascadeBounded(action: Action, executed: seq<Action>, all: seq<Action>)
    requires GeneratorsBounded(action.sideEffects)
    ensures EffectsBounded(SecondOrderEffects(action, executed, all))
  {
    EffectProbabilitiesBounded(action, executed, all, |action.sideEffects|);
  }

  // ---------------------------------------------------------------------
  // Outcome classification
  // ---------------------------------------------------------------------

  /** Completion ratio |executed| / max(|all|, 1). */
  function CompletionRatio(executedCount: nat, allCount: nat): real
  {
    (executedCount as real) / (if allCount > 1 then allCount else 1) as real
  }

  function Classify(ratio: real): (o: Outcome)
    ensures o == Success <==> ratio >= 0.9
    ensures o == PartialSuccess <==> 0.6 <= ratio < 0.9
    ensures o == Failure <==> 0.3 <= ratio < 0.6
    ensures o == Catastrophic <==> ratio < 0.3
  {
    if ratio >= 0.9 then Success
    else if ratio >= 0.6 then PartialSuccess
    else if ratio >= 0.3 then Failure
    else Catastrophic
  }

  function DetermineOutcome(executed: seq<Action>, all: seq<Action>): Outcome
  {
    Classify(CompletionRatio(|executed|, |all|))
  }

  /** Better outcomes have larger ranks. */
  function Rank(o: Outcome): nat
  {
    match o
    case Catastrophic => 0
    case Failure => 1
    case PartialSuccess => 2
    case Success => 3
  }

  /** Raising the completion ratio never moves the outcome to a worse category. */
  lemma ClassifyMonotone(r1: real, r2: real)
    requires r1 <= r2
    ensures Rank(Classify(r1)) <= Rank(Classify(r2))
  {
  }

  /** Executing more of the same candidate set never worsens the outcome. */
  lemma OutcomeMonotone(e1: seq<Action>, e2: seq<Action>, all: seq<Action>)
    requires |e1| <= |e2|
    ensures Rank(DetermineOutcome(e1, all)) <= Rank(DetermineOutcome(e2, all))
  {
    var m := (if |all| > 1 then |all| else 1) as real;
    DivideMonotone(|e1| as real, |e2| as real, m);
    ClassifyMonotone(CompletionRatio(|e1|, |all|), CompletionRatio(|e2|, |all|));
  }

  lemma DivideMonotone(x: real, y: real, m: real)
    requires x <= y && m > 0.0
    ensures x / m <= y / m
  {
    assert y / m - x / m == (y - x) / m;
  }

  /** No candidate actions means nothing executes: CATASTROPHIC. A full run of a non-empty set is SUCCESS. */
  lemma OutcomeExtremes(executed: seq<Action>, all: seq<Action>)
    ensures |all| == 0 && |executed| == 0 ==> DetermineOutcome(executed, all) == Catastrophic
    ensures |all| > 0 && |executed| == |all| ==> DetermineOutcome(executed, all) == Success
  {
  }

  // ---------------------------------------------------------------------
  // Path probability, risk score and value
  // ---------------------------------------------------------------------

  function ProbabilityProduct(actions: seq<Action>): real
  {
    if actions == [] then 1.0
    else ProbabilityProduct(actions[..|actions| - 1]) * actions[|actions| - 1].successProbability
  }

  /** Product of the executed actions' success probabilities; 0.0 when none executed. */
  function PathProbability(executed: seq<Action>): real
  {
    if executed == [] then 0.0 else ProbabilityProduct(executed)
  }

  method CalculatePathProbability(executed: seq<Action>) returns (probability: real)
    ensures probability == PathProbability(executed)
  {
    if executed == [] {
      return 0.0;
    }
    probability := 1.0;
    for i := 0 to |executed|
      invariant probability == ProbabilityProduct(executed[..i])
    {
      assert executed[..i + 1][..i] == executed[..i];
      probability := probability * executed[i].successProbability;
    }
    assert executed[..|executed|] == executed;
  }

  predicate ProbabilitiesBounded(actions: seq<Action>)
  {
    forall a :: a in actions ==> 0.0 <= a.successProbability <= 1.0
  }

  lemma UnitProduct(x: real, y: real)
    requires 0.0 <= x <= 1.0 && 0.0 <= y <= 1.0
    ensures 0.0 <= x * y <= y
  {
  }

  lemma {:induction false} ProbabilityProductBounded(actions: seq<Action>)
    requires ProbabilitiesBounded(actions)
    ensures 0.0 <= ProbabilityProduct(actions) <= 1.0
  {
    if actions != [] {
      var init := actions[..|actions| - 1];
      InitMembers(actions);
      ProbabilityProductBounded(init);
      var last := actions[|actions| - 1];
      assert last in actions;
      var x, y := ProbabilityProduct(init), last.successProbability;
      UnitProduct(x, y);
      assert ProbabilityProduct(actions) == x * y;
    }
  }

  /** The path probability lies in [0, 1] when every success probability does. */
  lemma PathProbabilityBounded(executed: seq<Action>)
    requires ProbabilitiesBounded(executed)
    ensures 0.0 <= PathProbability(executed) <= 1.0
  {
    ProbabilityProductBounded(executed);
  }

  /** Sum of |impact| * probability over the harmful (negative-impact) effects. */
  function HarmfulWeight(effects: seq<SecondOrderEffect>): real
  {
    if effects == [] then 0.0
    else
      var e := effects[|effects| - 1];
      HarmfulWeight(effects[..|effects| - 1]) + (if e.impact < 0.0 then -e.impact * e.probability else 0.0)
  }

  lemma {:induction false} HarmfulWeightNonNegative(effects: seq<SecondOrderEffect>)
    requires EffectsBounded(effects)
    ensures HarmfulWeight(effects) >= 0.0
  {
    if effects != [] {
      var init := effects[..|effects| - 1];
      InitMembers(effects);
      HarmfulWeightNonNegative(init);
      assert effects[|effects| - 1] in effects;
    }
  }

  function RiskScore(effects: seq<SecondOrderEffect>, totalCost: real): (r: real)
    ensures effects == [] ==> r == 0.0
    ensures r <= 1.0
  {
    if effects == [] then 0.0
    else
      var scaled := HarmfulWeight(effects) * (1.0 + totalCost / 100000.0);
      if scaled < 1.0 then scaled else 1.0
  }

  method CalculateRiskScore(effects: seq<SecondOrderEffect>, totalCost: real) returns (score: real)
    ensures score == RiskScore(effects, totalCost)
  {
    if effects == [] {
      return 0.0;
    }
    var risk := 0.0;
    for i := 0 to |effects|
      invariant risk == HarmfulWeight(effects[..i])
    {
      assert effects[..i + 1][..i] == effects[..i];
      if effects[i].impact < 0.0 {
        risk := risk + -effects[i].impact * effects[i].probability;
      }
    }
    assert effects[..|effects|] == effects;
    var scaled := risk * (1.0 + totalCost / 100000.0);
    score := if scaled < 1.0 then scaled else 1.0;
  }

  /** The risk score lies in [0, 1] for effects with probabilities in [0, 1] and a non-negative cost. */
  lemma RiskScoreBounded(effects: seq<SecondOrderEffect>, totalCost: real)
    requires EffectsBounded(effects)
    requires totalCost >= 0.0
    ensures 0.0 <= RiskScore(effects, totalCost) <= 1.0
  {
    HarmfulWeightNonNegative(effects);
  }

  /** Payoff of each outcome category. */
  function Payoff(o: Outcome): real
  {
    match o
    case Success => 100000.0
    case PartialSuccess => 50000.0
    case Failure => -10000.0
    case Catastrophic => -50000.0
  }

  /** Value of a path: the outcome's payoff minus what the path spent. */
  function PathValue(p: SimulationPath): real
  {
    Payoff(p.outcome) - p.totalCost
  }

  /** At equal cost a better outcome is worth strictly more. */
  lemma PathValueOrdersOutcomes(p: SimulationPath, q: SimulationPath)
    requires p.totalCost == q.totalCost
    requires Rank(p.outcome) < Rank(q.outcome)
    ensures PathValue(p) < PathValue(q)
  {
  }
}
