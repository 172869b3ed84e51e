/**
 * The constraint gate: plans are validated against a list of constraints
 * (time, budget, permissions, regulations); a plan is valid exactly when no
 * violation is BLOCKING. Times are in seconds.
 */
module Constraints {
  import opened Wrappers

  datatype ConstraintType = Time | Budget | Permissions | Regulations

  datatype Severity = Blocking | Warning | Info

  /**
   * A metadata key a validator reads with a default: missing (the default
   * applies), present but `None` (using it raises), or present with a value.
   */
  datatype Entry<T> = Absent | Null | Given(value: T)

  /**
   * The metadata keys the validators read. The deadline is only tested for
   * truth, so a missing one and a `None` one are both `None` here.
   */
  datatype Metadata = Metadata(
    maxDuration: Entry<int>,
    deadline: Option<int>,
    maxBudget: Entry<real>,
    availablePermissions: Entry<seq<string>>,
    approvedDomains: Entry<seq<string>>)

  /** The four validators of the source, and a validator that raises. */
  datatype Validator = TimeValidator | BudgetValidator | PermissionsValidator | RegulationsValidator | Raising

  /** `metadata == None` is a constraint created without metadata. */
  datatype Constraint = Constraint(
    kind: ConstraintType,
    name: string,
    description: string,
    severity: Severity,
    validator: Validator,
    metadata: Option<Metadata>)

  datatype Plan = Plan(
    name: string,
    description: string,
    estimatedDuration: int,
    estimatedCost: real,
    requiredPermissions: seq<string>,
    regulatoryDomains: seq<string>)

  /** What a validator reports; the values it formats into its message are kept, the wording is not. */
  datatype Message =
    | DurationExceeded(duration: int, maximum: int)
    | DeadlineMissed(deadline: int)
    | TimeSatisfied
    | CostExceeded(cost: real, budget: real)
    | BudgetSatisfied
    | MissingPermissions(missing: set<string>)
    | PermissionsSatisfied
    | UnapprovedDomains(unapproved: set<string>)
    | RegulationsSatisfied
    | ValidationError

  /** A validator either returns its verdict and message, or raises. */
  datatype Check = Verdict(valid: bool, message: Message) | Raised

  datatype Violation = Violation(
    constraint: Constraint,
    severity: Severity,
    message: Message,
    suggestedFix: Option<string>)

  /** 365 days, the maximum duration when the metadata sets none. */
  const DefaultMaxDuration: int := 365 * 86400

  function MaxDuration(meta: Metadata): int
  {
    if meta.maxDuration.Given? then meta.maxDuration.value else DefaultMaxDuration
  }

  /** The names a list-valued key grants; a missing key grants none. */
  function Granted(e: Entry<seq<string>>): seq<string>
  {
    if e.Given? then e.value else []
  }

  /**
   * Fails when the plan runs longer than the maximum, or would end after a
   * set deadline; comparing with a `None` maximum raises.
   */
  function ValidateTime(plan: Plan, meta: Metadata, now: int): (r: Check)
    ensures r.Raised? <==> meta.maxDuration.Null?
    ensures r.Verdict? ==>
              (!r.valid <==>
                 plan.estimatedDuration > MaxDuration(meta) ||
                 (meta.deadline.Some? && now + plan.estimatedDuration > meta.deadline.value))
  {
    if meta.maxDuration.Null? then Raised
    else if plan.estimatedDuration > MaxDuration(meta) then
      Verdict(false, DurationExceeded(plan.estimatedDuration, MaxDuration(meta)))
    else if meta.deadline.Some? && now + plan.estimatedDuration > meta.deadline.value then
      Verdict(false, DeadlineMissed(meta.deadline.value))
    else Verdict(true, TimeSatisfied)
  }

  /** Fails when the cost exceeds the budget; without a budget nothing fails, and a `None` budget raises. */
  function ValidateBudget(plan: Plan, meta: Metadata): (r: Check)
    ensures r.Raised? <==> meta.maxBudget.Null?
    ensures r.Verdict? ==> (!r.valid <==> meta.maxBudget.Given? && plan.estimatedCost > meta.maxBudget.value)
  {
    if meta.maxBudget.Null? then Raised
    else if meta.maxBudget.Given? && plan.estimatedCost > meta.maxBudget.value then
      Verdict(false, CostExceeded(plan.estimatedCost, meta.maxBudget.value))
    else Verdict(true, BudgetSatisfied)
  }

  /** Elements of `required` that are not in `granted`: Python's set difference. */
  function Missing(required: seq<string>, granted: seq<string>): (r: set<string>)
    ensures forall x :: x in r <==> x in required && x !in granted
  {
    set x | x in required && x !in granted
  }

  /** Fails, naming them, when some required permissions are not available; a `None` list raises. */
  function ValidatePermissions(plan: Plan, meta: Metadata): (r: Check)
    ensures r.Raised? <==> meta.availablePermissions.Null?
    ensures r.Verdict? ==>
              (!r.valid <==> exists p :: p in plan.requiredPermissions && p !in Granted(meta.availablePermissions))
    ensures r.Verdict? && !r.valid ==>
              r.message == MissingPermissions(Missing(plan.requiredPermissions, Granted(meta.availablePermissions)))
  {
    var missing := Missing(plan.requiredPermissions, Granted(meta.availablePermissions));
    if meta.availablePermissions.Null? then Raised
    else if missing != {} then Verdict(false, MissingPermissions(missing))
    else Verdict(true, PermissionsSatisfied)
  }

  /** Fails, naming them, when some of the plan's regulatory domains are not approved; a `None` list raises. */
  function ValidateRegulations(plan: Plan, meta: Metadata): (r: Check)
    ensures r.Raised? <==> meta.approvedDomains.Null?
    ensures r.Verdict? ==>
              (!r.valid <==> exists d :: d in plan.regulatoryDomains && d !in Granted(meta.approvedDomains))
    ensures r.Verdict? && !r.valid ==>
              r.message == UnapprovedDomains(Missing(plan.regulatoryDomains, Granted(meta.approvedDomains)))
  {
    var unapproved := Missing(plan.regulatoryDomains, Granted(meta.approvedDomains));
    if meta.approvedDomains.Null? then Raised
    else if unapproved != {} then Verdict(false, UnapprovedDomains(unapproved))
    else Verdict(true, RegulationsSatisfied)
  }

  /** The key the constraint's validator reads is present but `None`. */
  predicate ReadsNull(c: Constraint)
  {
    c.metadata.Some? &&
    match c.validator
    case TimeValidator => c.metadata.value.maxDuration.Null?
    case BudgetValidator => c.metadata.value.maxBudget.Null?
    case PermissionsValidator => c.metadata.value.availablePermissions.Null?
    case RegulationsValidator => c.metadata.value.approvedDomains.Null?
    case Raising => false
  }

  /**
   * Calling a constraint's validator; every one of them raises on missing
   * metadata and on a `None` value for the key it reads.
   */
  function RunValidator(c: Constraint, plan: Plan, now: int): (r: Check)
    ensures c.validator.Raising? || c.metadata.None? || ReadsNull(c) <==> r.Raised?
  {
    match c.validator
    case Raising => Raised
    case _ =>
      if c.metadata.None? then Raised
      else
        var meta := c.metadata.value;
        match c.validator
        case TimeValidator => ValidateTime(plan, meta, now)
        case BudgetValidator => ValidateBudget(plan, meta)
        case PermissionsValidator => ValidatePermissions(plan, meta)
        case RegulationsValidator => ValidateRegulations(plan, meta)
  }

  function Join(items: seq<string>, separator: string): string
  {
    if items == [] then ""
    else if |items| == 1 then items[0]
    else items[0] + separator + Join(items[1..], separator)
  }

  /** The suggestion depends on the constraint's type alone (and, for two types, on the plan's lists). */
  function FixSuggestion(kind: ConstraintType, plan: Plan): string
  {
    match kind
    case Time => "Consider extending timeline or reducing scope"
    case Budget => "Reduce costs or request budget increase"
    case Permissions => "Request necessary permissions: " + Join(plan.requiredPermissions, ", ")
    case Regulations => "Ensure compliance with: " + Join(plan.regulatoryDomains, ", ")
  }

  /** The violation one constraint yields, if any. */
  function ViolationOf(c: Constraint, plan: Plan, now: int): (r: Option<Violation>)
    ensures r.Some? <==> !RunValidator(c, plan, now).Verdict? || !RunValidator(c, plan, now).valid
    ensures r.Some? ==> r.value.constraint == c
    ensures RunValidator(c, plan, now).Raised? ==> r == Some(Violation(c, Blocking, ValidationError, None))
    ensures RunValidator(c, plan, now).Verdict? && r.Some? ==>
              r.value.severity == c.severity && r.value.suggestedFix == Some(FixSuggestion(c.kind, plan))
  {
    match RunValidator(c, plan, now)
    case Raised => Some(Violation(c, Blocking, ValidationError, None))
    case Verdict(valid, message) =>
      if valid then None else Some(Violation(c, c.severity, message, Some(FixSuggestion(c.kind, plan))))
  }

  /** All violations of the constraints, in constraint order. */
  function Violations(cs: seq<Constraint>, plan: Plan, now: int): seq<Violation>
  {
    if cs == [] then []
    else
      var v := ViolationOf(cs[|cs| - 1], plan, now);
      Violations(cs[..|cs| - 1], plan, now) + (if v.Some? then [v.value] else [])
  }

  /** The violations that enter the history: those a validator reported, not its errors. */
  function Recorded(cs: seq<Constraint>, plan: Plan, now: int): seq<Violation>
  {
    if cs == [] then []
    else
      var c := cs[|cs| - 1];
      var check := RunValidator(c, plan, now);
      Recorded(cs[..|cs| - 1], plan, now) +
      (if check.Verdict? && !check.valid then [Violation(c, c.severity, check.message, Some(FixSuggestion(c.kind, plan)))]
       else [])
  }

  function WithoutErrors(vs: seq<Violation>): seq<Violation>
  {
    if vs == [] then []
    else WithoutErrors(vs[..|vs| - 1]) + (if vs[|vs| - 1].message.ValidationError? then [] else [vs[|vs| - 1]])
  }

  predicate NoBlocking(vs: seq<Violation>)
  {
    forall v :: v in vs ==> v.severity != Blocking
  }

  /** The constraints not named `name`, in their order. */
  function Without(cs: seq<Constraint>, name: string): seq<Constraint>
  {
    if cs == [] then []
    else Without(cs[..|cs| - 1], name) + (if cs[|cs| - 1].name == name then [] else [cs[|cs| - 1]])
  }

  /** Exactly the constraints of another name survive. */
  lemma {:induction false} WithoutMembers(cs: seq<Constraint>, name: string)
    ensures forall c :: c in Without(cs, name) <==> c in cs && c.name != name
  {
    if cs != [] {
      var init := cs[..|cs| - 1];
      WithoutMembers(init, name);
      assert cs == init + [cs[|cs| - 1]];
    }
  }

  class ConstraintReasoningAgent {
    var constraints: seq<Constraint>
    var violationHistory: seq<Violation>

    constructor ()
      ensures constraints == [] && violationHistory == []
    {
      constraints := [];
      violationHistory := [];
    }

    method AddConstraint(constraint: Constraint)
      modifies this
      ensures constraints == old(constraints) + [constraint]
      ensures violationHistory == old(violationHistory)
    {
      constraints := constraints + [constraint];
    }

    method RemoveConstraint(constraintName: string)
      modifies this
      ensures constraints == Without(old(constraints), constraintName)
      ensures violationHistory == old(violationHistory)
    {
      constraints := Without(constraints, constraintName);
    }

    /**
     * Validates the plan against every constraint in order. A failed check
     * is reported with the constraint's severity and a fix, and recorded; a
     * validator that raises is reported as BLOCKING, without a fix, and not
     * recorded. The plan is valid iff no reported violation is BLOCKING.
     */
    method ValidatePlan(plan: Plan, now: int) returns (isValid: bool, violations: seq<Violation>)
      modifies this
      ensures violations == Violations(constraints, plan, now)
      ensures violationHistory == old(violationHistory) + Recorded(constraints, plan, now)
      ensures isValid <==> NoBlocking(violations)
      ensures constraints == old(constraints)
    {
      violations := [];
      var cs := constraints;
      for i := 0 to |cs|
        invariant constraints == cs
        invariant violations == Violations(cs[..i], plan, now)
        invariant violationHistory == old(violationHistory) + Recorded(cs[..i], plan, now)
      {
        assert cs[..i + 1][..i] == cs[..i];
        var constraint := cs[i];
        match RunValidator(constraint, plan, now)
        case Raised =>
          assert Recorded(cs[..i + 1], plan, now) == Recorded(cs[..i], plan, now);
          violations := violations + [Violation(constraint, Blocking, ValidationError, None)];
        case Verdict(valid, message) =>
          if !valid {
            var violation := Violation(constraint, constraint.severity, message, Some(FixSuggestion(constraint.kind, plan)));
            assert Recorded(cs[..i + 1], plan, now) == Recorded(cs[..i], plan, now) + [violation];
            violations := violations + [violation];
            violationHistory := violationHistory + [violation];
          } else {
            assert Recorded(cs[..i + 1], plan, now) == Recorded(cs[..i], plan, now);
          }
      }
      assert cs[..|cs|] == cs;
      var blocking := CollectBlocking(violations);
      BlockingOfEmpty(violations);
      isValid := |blocking| == 0;
    }
  }

  /** The BLOCKING violations of `vs`, kept in order. */
  method CollectBlocking(vs: seq<Violation>) returns (blocking: seq<Violation>)
    ensures blocking == BlockingOf(vs)
  {
    blocking := [];
    for i := 0 to |vs|
      invariant blocking == BlockingOf(vs[..i])
    {
      assert vs[..i + 1][..i] == vs[..i];
      if vs[i].severity == Blocking {
        blocking := blocking + [vs[i]];
      }
    }
    assert vs[..|vs|] == vs;
  }

  function BlockingOf(vs: seq<Violation>): seq<Violation>
  {
    if vs == [] then []
    else BlockingOf(vs[..|vs| - 1]) + (if vs[|vs| - 1].severity == Blocking then [vs[|vs| - 1]] else [])
  }

  lemma {:induction false} BlockingOfEmpty(vs: seq<Violation>)
    ensures BlockingOf(vs) == [] <==> NoBlocking(vs)
  {
    if vs != [] {
      var init := vs[..|vs| - 1];
      BlockingOfEmpty(init);
      assert vs == init + [vs[|vs| - 1]];
      assert forall v :: v in vs <==> v in init || v == vs[|vs| - 1];
    }
  }

  // ---------------------------------------------------------------------
  // Properties
  // ---------------------------------------------------------------------

  /** The history receives exactly the reported violations that are not validator errors, in order. */
  lemma {:induction false} RecordedAreReportedFailures(cs: seq<Constraint>, plan: Plan, now: int)
    ensures Recorded(cs, plan, now) == WithoutErrors(Violations(cs, plan, now))
  {
    if cs != [] {
      var init := cs[..|cs| - 1];
      RecordedAreReportedFailures(init, plan, now);
      var v := ViolationOf(cs[|cs| - 1], plan, now);
      var vs := Violations(init, plan, now);
      if v.Some? {
        WithoutErrorsSnoc(vs, v.value);
      } else {
        assert Violations(cs, plan, now) == vs + [];
        assert vs + [] == vs;
      }
    }
  }

  lemma WithoutErrorsSnoc(vs: seq<Violation>, v: Violation)
    ensures WithoutErrors(vs + [v]) == WithoutErrors(vs) + (if v.message.ValidationError? then [] else [v])
  {
    assert (vs + [v])[..|vs|] == vs;
  }

  /** Every constraint contributes at most one violation. */
  lemma {:induction false} AtMostOnePerConstraint(cs: seq<Constraint>, plan: Plan, now: int)
    ensures |Violations(cs, plan, now)| <= |cs|
    ensures forall v :: v in Violations(cs, plan, now) ==> v.constraint in cs
  {
    if cs != [] {
      var init := cs[..|cs| - 1];
      AtMostOnePerConstraint(init, plan, now);
      InitMembers(cs);
    }
  }

  /** A constraint whose validator raises makes the plan invalid, whatever its own severity. */
  lemma {:induction false} RaisingBlocks(cs: seq<Constraint>, plan: Plan, now: int, k: nat)
    requires k < |cs| && RunValidator(cs[k], plan, now).Raised?
    ensures !NoBlocking(Violations(cs, plan, now))
  {
    var init := cs[..|cs| - 1];
    if k == |cs| - 1 {
      assert Violation(cs[k], Blocking, ValidationError, None) in Violations(cs, plan, now);
    } else {
      assert cs[k] == init[k];
      RaisingBlocks(init, plan, now, k);
      var w :| w in Violations(init, plan, now) && w.severity == Blocking;
      assert w in Violations(cs, plan, now);
    }
  }

  /** A key the validator reads that is present but `None` makes the plan invalid, whatever the constraint's severity. */
  lemma NullKeyBlocks(cs: seq<Constraint>, plan: Plan, now: int, k: nat)
    requires k < |cs| && ReadsNull(cs[k])
    ensures RunValidator(cs[k], plan, now).Raised?
    ensures !NoBlocking(Violations(cs, plan, now))
  {
    RaisingBlocks(cs, plan, now, k);
  }

  /** With only advisory constraints whose validators all return, every plan is valid. */
  lemma {:induction false} AdvisoryNeverBlocks(cs: seq<Constraint>, plan: Plan, now: int)
    requires forall c :: c in cs ==> c.severity != Blocking && RunValidator(c, plan, now).Verdict?
    ensures NoBlocking(Violations(cs, plan, now))
  {
    if cs != [] {
      var init := cs[..|cs| - 1];
      InitMembers(cs);
      AdvisoryNeverBlocks(init, plan, now);
      assert cs[|cs| - 1] in cs;
    }
  }

  /** Removing a name that no constraint carries changes nothing. */
  lemma {:induction false} WithoutAbsentName(cs: seq<Constraint>, name: string)
    requires forall c :: c in cs ==> c.name != name
    ensures Without(cs, name) == cs
  {
    if cs != [] {
      var init := cs[..|cs| - 1];
      InitMembers(cs);
      WithoutAbsentName(init, name);
      assert cs[|cs| - 1] in cs;
      assert cs == init + [cs[|cs| - 1]];
    }
  }

  /**
   * Removing by name leaves the list as it was exactly when no constraint
   * has that name, and removing the same name twice removes nothing more.
   */
  lemma WithoutChangesIffNamed(cs: seq<Constraint>, name: string)
    ensures Without(cs, name) == cs <==> forall c :: c in cs ==> c.name != name
    ensures Without(Without(cs, name), name) == Without(cs, name)
  {
    WithoutMembers(cs, name);
    if forall c :: c in cs ==> c.name != name {
      WithoutAbsentName(cs, name);
    }
    WithoutAbsentName(Without(cs, name), name);
  }

  /** Removing by name keeps the remaining constraints in their order: the result is never longer. */
  lemma {:induction false} WithoutNotLonger(cs: seq<Constraint>, name: string)
    ensures |Without(cs, name)| <= |cs|
    ensures |Without(cs, name)| < |cs| <==> exists c :: c in cs && c.name == name
  {
    if cs != [] {
      var init := cs[..|cs| - 1];
      WithoutNotLonger(init, name);
      assert cs == init + [cs[|cs| - 1]];
      assert forall c :: c in cs <==> c in init || c == cs[|cs| - 1];
    }
  }

  /** A larger budget never turns a passing plan into a failing one. */
  lemma LargerBudgetStillPasses(plan: Plan, meta: Metadata, budget: real)
    requires ValidateBudget(plan, meta).Verdict? && ValidateBudget(plan, meta).valid
    requires meta.maxBudget.Given? && budget >= meta.maxBudget.value
    ensures ValidateBudget(plan, meta.(maxBudget := Given(budget))).Verdict?
    ensures ValidateBudget(plan, meta.(maxBudget := Given(budget))).valid
  {
  }

  /** Granting more permissions never turns a passing plan into a failing one. */
  lemma MorePermissionsStillPass(plan: Plan, meta: Metadata, extra: seq<string>)
    requires ValidatePermissions(plan, meta).Verdict? && ValidatePermissions(plan, meta).valid
    ensures ValidatePermissions(plan, meta.(availablePermissions := Given(Granted(meta.availablePermissions) + extra))).Verdict?
    ensures ValidatePermissions(plan, meta.(availablePermissions := Given(Granted(meta.availablePermissions) + extra))).valid
  {
  }

  /** A shorter plan passes every time check a longer one passes. */
  lemma ShorterPlanStillOnTime(plan: Plan, meta: Metadata, now: int, duration: int)
    requires ValidateTime(plan, meta, now).Verdict? && ValidateTime(plan, meta, now).valid
    requires duration <= plan.estimatedDuration
    ensures ValidateTime(plan.(estimatedDuration := duration), meta, now).Verdict?
    ensures ValidateTime(plan.(estimatedDuration := duration), meta, now).valid
  {
  }
}
