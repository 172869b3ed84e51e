/**
 * The tool health tracker: a metric log per monitored tool, pruned to a
 * retention window, a threshold classifier for the tool's health, and a
 * baseline-versus-current comparison that detects drift. Times are integer
 * seconds and the current time is a parameter.
 */
module ToolHealth {
  import opened Wrappers

  datatype ToolType = Api | Scraper | Database | Model | ExternalService

  datatype HealthStatus = Healthy | Degraded | Failing | Critical

  datatype DriftType = DataSchema | DataDistribution | ResponseFormat | Performance | ErrorRate

  /** One measurement; the optional data sample is not part of the model. */
  datatype ToolMetric = ToolMetric(timestamp: int, success: bool, responseTime: real, errorMessage: Option<string>)

  /** A detected drift; the formatted description is not part of the model. */
  datatype DriftDetection = DriftDetection(
    driftType: DriftType,
    severity: real,
    detectedAt: int,
    baselineValue: real,
    currentValue: real,
    recommendation: string)

  datatype Tool = Tool(
    name: string,
    toolType: ToolType,
    endpoint: string,
    expectedResponseTime: real,
    maxErrorRate: real,
    checkInterval: int,
    metrics: seq<ToolMetric>,
    driftDetections: seq<DriftDetection>,
    lastCheck: Option<int>,
    healthStatus: HealthStatus)

  /** Thirty days, the default retention. */
  const DefaultRetention: int := 30 * 86400
  const DefaultDriftThreshold: real := 0.3
  /** The health classifier looks at the last hour. */
  const RecentWindow: int := 3600
  /** Drift is only looked for once this many metrics are kept. */
  const MinMetricsForDrift: nat := 100

  const PerformanceAdvice: string := "Investigate performance issues, check server load, optimize queries"
  const ErrorRateAdvice: string := "Review recent errors, check API changes, verify credentials"

  // ---------------------------------------------------------------------
  // Retention
  // ---------------------------------------------------------------------

  /** The metrics taken at or after `cutoff`, in their original order. */
  function Prune(metrics: seq<ToolMetric>, cutoff: int): (r: seq<ToolMetric>)
    ensures forall m :: m in r <==> m in metrics && m.timestamp >= cutoff
    ensures |r| <= |metrics|
  {
    if metrics == [] then []
    else (if metrics[0].timestamp >= cutoff then [metrics[0]] else []) + Prune(metrics[1..], cutoff)
  }

  /** Pruning distributes over concatenation, so it keeps the relative order of what it keeps. */
  lemma {:induction false} PruneAppend(a: seq<ToolMetric>, b: seq<ToolMetric>, cutoff: int)
    ensures Prune(a + b, cutoff) == Prune(a, cutoff) + Prune(b, cutoff)
  {
    if a == [] {
      assert a + b == b;
    } else {
      var head := if a[0].timestamp >= cutoff then [a[0]] else [];
      assert (a + b)[0] == a[0];
      assert (a + b)[1..] == a[1..] + b;
      PruneAppend(a[1..], b, cutoff);
      calc {
        Prune(a + b, cutoff);
        head + Prune(a[1..] + b, cutoff);
        head + (Prune(a[1..], cutoff) + Prune(b, cutoff));
        (head + Prune(a[1..], cutoff)) + Prune(b, cutoff);
        Prune(a, cutoff) + Prune(b, cutoff);
      }
    }
  }

  /** Pruning at one cutoff and then at a later one is pruning once at the later one. */
  lemma {:induction false} PruneTwice(metrics: seq<ToolMetric>, first: int, second: int)
    requires first <= second
    ensures Prune(Prune(metrics, first), second) == Prune(metrics, second)
  {
    if metrics != [] {
      PruneTwice(metrics[1..], first, second);
      var head := if metrics[0].timestamp >= first then [metrics[0]] else [];
      PruneAppend(head, Prune(metrics[1..], first), second);
      if metrics[0].timestamp >= first {
        assert Prune(head, second) == (if metrics[0].timestamp >= second then [metrics[0]] else []) + Prune([], second);
      }
    }
  }

  /** A log already inside the window is left as it is. */
  lemma {:induction false} PruneKeepsFresh(metrics: seq<ToolMetric>, cutoff: int)
    requires forall i :: 0 <= i < |metrics| ==> metrics[i].timestamp >= cutoff
    ensures Prune(metrics, cutoff) == metrics
  {
    if metrics != [] {
      PruneKeepsFresh(metrics[1..], cutoff);
    }
  }

  // ---------------------------------------------------------------------
  // Health
  // ---------------------------------------------------------------------

  function Failures(metrics: seq<ToolMetric>): (n: nat)
    ensures n <= |metrics|
  {
    if metrics == [] then 0 else Failures(metrics[..|metrics| - 1]) + (if metrics[|metrics| - 1].success then 0 else 1)
  }

  function TotalResponseTime(metrics: seq<ToolMetric>): real
  {
    if metrics == [] then 0.0 else TotalResponseTime(metrics[..|metrics| - 1]) + metrics[|metrics| - 1].responseTime
  }

  /** The share of failed calls. */
  function FailureRate(metrics: seq<ToolMetric>): (r: real)
    requires metrics != []
    ensures 0.0 <= r <= 1.0
  {
    var failures := Failures(metrics) as real;
    var n := |metrics| as real;
    assert failures <= n;
    failures / n
  }

  function MeanResponseTime(metrics: seq<ToolMetric>): real
    requires metrics != []
  {
    TotalResponseTime(metrics) / |metrics| as real
  }

  function Rank(h: HealthStatus): nat
  {
    match h
    case Healthy => 0
    case Degraded => 1
    case Failing => 2
    case Critical => 3
  }

  /**
   * Above three times the tolerated error rate the tool is CRITICAL, above
   * twice FAILING; above the tolerated rate, or slower than twice the
   * expected response time, DEGRADED; otherwise HEALTHY.
   */
  function Classify(errorRate: real, meanResponse: real, maxErrorRate: real, expectedResponseTime: real): (h: HealthStatus)
    ensures h == Critical <==> errorRate > maxErrorRate * 3.0
    ensures h == Failing <==> maxErrorRate * 2.0 < errorRate <= maxErrorRate * 3.0
    ensures h == Degraded <==>
              errorRate <= maxErrorRate * 3.0 && errorRate <= maxErrorRate * 2.0 &&
              (errorRate > maxErrorRate || meanResponse > expectedResponseTime * 2.0)
    ensures h == Healthy <==>
              errorRate <= maxErrorRate * 3.0 && errorRate <= maxErrorRate * 2.0 && errorRate <= maxErrorRate &&
              meanResponse <= expectedResponseTime * 2.0
  {
    if errorRate > maxErrorRate * 3.0 then Critical
    else if errorRate > maxErrorRate * 2.0 then Failing
    else if errorRate > maxErrorRate || meanResponse > expectedResponseTime * 2.0 then Degraded
    else Healthy
  }

  /** With a non-negative tolerance, a higher error rate never gives a healthier status. */
  lemma ClassifyMonotone(lower: real, higher: real, meanResponse: real, maxErrorRate: real, expectedResponseTime: real)
    requires maxErrorRate >= 0.0 && lower <= higher
    ensures Rank(Classify(lower, meanResponse, maxErrorRate, expectedResponseTime)) <=
            Rank(Classify(higher, meanResponse, maxErrorRate, expectedResponseTime))
  {
  }

  /**
   * The status after a metric: HEALTHY with an empty log, unchanged when
   * nothing was recorded in the last hour, otherwise the classification of
   * the last hour's metrics.
   */
  function NextHealth(tool: Tool, now: int): (h: HealthStatus)
    ensures tool.metrics == [] ==> h == Healthy
    ensures tool.metrics != [] && Prune(tool.metrics, now - RecentWindow) == [] ==> h == tool.healthStatus
    ensures Prune(tool.metrics, now - RecentWindow) != [] ==>
              h == Classify(FailureRate(Prune(tool.metrics, now - RecentWindow)),
                            MeanResponseTime(Prune(tool.metrics, now - RecentWindow)),
                            tool.maxErrorRate, tool.expectedResponseTime)
  {
    if tool.metrics == [] then Healthy
    else
      var recent := Prune(tool.metrics, now - RecentWindow);
      if recent == [] then tool.healthStatus
      else Classify(FailureRate(recent), MeanResponseTime(recent), tool.maxErrorRate, tool.expectedResponseTime)
  }

  // ---------------------------------------------------------------------
  // Drift
  // ---------------------------------------------------------------------

  /** The first fifth of the log. */
  function Baseline(metrics: seq<ToolMetric>): seq<ToolMetric>
  {
    metrics[..|metrics| / 5]
  }

  /** The last fifth of the log. */
  function CurrentWindow(metrics: seq<ToolMetric>): seq<ToolMetric>
  {
    metrics[|metrics| - |metrics| / 5..]
  }

  /** What a drift check ends in: nothing, a detection, or a division by a zero baseline. */
  datatype DriftCheck = NoDrift | Detected(drift: DriftDetection) | ZeroBaseline

  function Min(x: real, y: real): real
  {
    if y < x then y else x
  }

  function Max(x: real, y: real): real
  {
    if y > x then y else x
  }

  /**
   * Compares the last fifth of the log with the first fifth: response time
   * first, then the error rate; either must exceed its baseline by more than
   * the threshold, and the severity is the relative increase capped at 1.
   */
  function CheckForDrift(metrics: seq<ToolMetric>, threshold: real, now: int): (r: DriftCheck)
    ensures |metrics| < MinMetricsForDrift ==> r == NoDrift
    ensures |metrics| >= MinMetricsForDrift ==>
              |Baseline(metrics)| == |CurrentWindow(metrics)| >= 20
    ensures r.Detected? ==>
              |metrics| >= MinMetricsForDrift && r.drift.severity <= 1.0 && r.drift.detectedAt == now
    ensures r.Detected? ==> r.drift.driftType == Performance || r.drift.driftType == ErrorRate
  {
    if |metrics| < MinMetricsForDrift then NoDrift
    else
      var baseline := Baseline(metrics);
      var current := CurrentWindow(metrics);
      var baselineResponse := MeanResponseTime(baseline);
      var currentResponse := MeanResponseTime(current);
      if currentResponse > baselineResponse * (1.0 + threshold) then
        if baselineResponse == 0.0 then ZeroBaseline
        else
          var severity := Min((currentResponse - baselineResponse) / baselineResponse, 1.0);
          Detected(DriftDetection(Performance, severity, now, baselineResponse, currentResponse, PerformanceAdvice))
      else
        var baselineErrors := FailureRate(baseline);
        var currentErrors := FailureRate(current);
        if currentErrors > baselineErrors * (1.0 + threshold) then
          var severity := Min((currentErrors - baselineErrors) / Max(baselineErrors, 0.01), 1.0);
          Detected(DriftDetection(ErrorRate, severity, now, baselineErrors, currentErrors, ErrorRateAdvice))
        else NoDrift
  }

  /** The division error arises exactly for a zero response baseline with a positive current mean. */
  lemma DriftZeroBaseline(metrics: seq<ToolMetric>, threshold: real, now: int)
    ensures CheckForDrift(metrics, threshold, now).ZeroBaseline? <==>
              |metrics| >= MinMetricsForDrift &&
              MeanResponseTime(Baseline(metrics)) == 0.0 && MeanResponseTime(CurrentWindow(metrics)) > 0.0
  {
  }

  /** A reported drift carries the two measured values of its kind, the first exceeding the second by more than the threshold, and that kind's advice. */
  lemma DriftDetectionShape(metrics: seq<ToolMetric>, threshold: real, now: int)
    requires CheckForDrift(metrics, threshold, now).Detected?
    ensures var d := CheckForDrift(metrics, threshold, now).drift;
            d.driftType == Performance ==>
              d.baselineValue == MeanResponseTime(Baseline(metrics)) &&
              d.currentValue == MeanResponseTime(CurrentWindow(metrics)) &&
              d.currentValue > d.baselineValue * (1.0 + threshold) &&
              d.recommendation == PerformanceAdvice
    ensures var d := CheckForDrift(metrics, threshold, now).drift;
            d.driftType == ErrorRate ==>
              MeanResponseTime(CurrentWindow(metrics)) <= MeanResponseTime(Baseline(metrics)) * (1.0 + threshold) &&
              d.baselineValue == FailureRate(Baseline(metrics)) &&
              d.currentValue == FailureRate(CurrentWindow(metrics)) &&
              d.currentValue > d.baselineValue * (1.0 + threshold) &&
              d.recommendation == ErrorRateAdvice
  {
  }

  /**
   * The drift check is complete: a response-time rise beyond the threshold
   * over a non-zero baseline is always reported, with its severity; failing
   * that, an error-rate rise beyond the threshold is; and nothing is reported
   * exactly when neither measure rises beyond the threshold.
   */
  lemma DriftReported(metrics: seq<ToolMetric>, threshold: real, now: int)
    requires |metrics| >= MinMetricsForDrift
    ensures var b, c := MeanResponseTime(Baseline(metrics)), MeanResponseTime(CurrentWindow(metrics));
            c > b * (1.0 + threshold) && b != 0.0 ==>
              CheckForDrift(metrics, threshold, now) ==
              Detected(DriftDetection(Performance, Min((c - b) / b, 1.0), now, b, c, PerformanceAdvice))
    ensures var b, c := MeanResponseTime(Baseline(metrics)), MeanResponseTime(CurrentWindow(metrics));
            var be, ce := FailureRate(Baseline(metrics)), FailureRate(CurrentWindow(metrics));
            c <= b * (1.0 + threshold) && ce > be * (1.0 + threshold) ==>
              CheckForDrift(metrics, threshold, now) ==
              Detected(DriftDetection(ErrorRate, Min((ce - be) / Max(be, 0.01), 1.0), now, be, ce, ErrorRateAdvice))
    ensures var b, c := MeanResponseTime(Baseline(metrics)), MeanResponseTime(CurrentWindow(metrics));
            var be, ce := FailureRate(Baseline(metrics)), FailureRate(CurrentWindow(metrics));
            CheckForDrift(metrics, threshold, now).NoDrift? <==> c <= b * (1.0 + threshold) && ce <= be * (1.0 + threshold)
  {
  }

  /**
   * With a non-negative threshold a detected drift has a severity in (0, 1]:
   * always for the error rate, and for response time when the baseline is
   * positive.
   */
  lemma DriftSeverityBounded(metrics: seq<ToolMetric>, threshold: real, now: int)
    requires threshold >= 0.0
    requires CheckForDrift(metrics, threshold, now).Detected?
    requires CheckForDrift(metrics, threshold, now).drift.baselineValue > 0.0 ||
             CheckForDrift(metrics, threshold, now).drift.driftType == ErrorRate
    ensures 0.0 < CheckForDrift(metrics, threshold, now).drift.severity <= 1.0
  {
    DriftDetectionShape(metrics, threshold, now);
    var d := CheckForDrift(metrics, threshold, now).drift;
    var gap := d.currentValue - d.baselineValue;
    if d.driftType == Performance {
      assert d.baselineValue * (1.0 + threshold) >= d.baselineValue;
      assert gap > 0.0;
      assert gap / d.baselineValue > 0.0;
    } else {
      var base := FailureRate(Baseline(metrics));
      assert base >= 0.0;
      assert base * (1.0 + threshold) >= base;
      assert gap > 0.0;
      assert gap / Max(base, 0.01) > 0.0;
    }
  }

  // ---------------------------------------------------------------------
  // Recording a metric
  // ---------------------------------------------------------------------

  /** The tool after appending a metric taken `now`, pruning to the retention window and reclassifying. */
  function AfterMetric(tool: Tool, success: bool, responseTime: real, errorMessage: Option<string>,
                       now: int, retention: int): Tool
  {
    var logged := Logged(tool, ToolMetric(now, success, responseTime, errorMessage), now, retention);
    logged.(healthStatus := NextHealth(logged, now))
  }

  /** The metric-logging steps of `record_metric`, one field update at a time. */
  method LogMetric(tool: Tool, success: bool, responseTime: real, errorMessage: Option<string>,
                   now: int, retention: int) returns (t: Tool)
    ensures t == AfterMetric(tool, success, responseTime, errorMessage, now, retention)
  {
    t := tool.(metrics := tool.metrics + [ToolMetric(now, success, responseTime, errorMessage)]);
    t := t.(lastCheck := Some(now));
    t := t.(metrics := Prune(t.metrics, now - retention));
    t := t.(healthStatus := NextHealth(t, now));
  }

  /** The tool with the metric appended, the log pruned to the retention window and the check time set. */
  function Logged(tool: Tool, metric: ToolMetric, now: int, retention: int): Tool
  {
    tool.(metrics := Prune(tool.metrics + [metric], now - retention), lastCheck := Some(now))
  }

  /**
   * After a metric the log holds exactly the old metrics still inside the
   * retention window followed by the new one (when the retention is not
   * negative), `lastCheck` is now, and nothing but the log, the check time
   * and the health changes.
   */
  lemma RecordedMetricIsNewest(tool: Tool, success: bool, responseTime: real, errorMessage: Option<string>,
                               now: int, retention: int)
    requires retention >= 0
    ensures AfterMetric(tool, success, responseTime, errorMessage, now, retention).metrics ==
            Prune(tool.metrics, now - retention) + [ToolMetric(now, success, responseTime, errorMessage)]
    ensures AfterMetric(tool, success, responseTime, errorMessage, now, retention).lastCheck == Some(now)
    ensures AfterMetric(tool, success, responseTime, errorMessage, now, retention).driftDetections == tool.driftDetections
    ensures AfterMetric(tool, success, responseTime, errorMessage, now, retention).name == tool.name
  {
    var m := ToolMetric(now, success, responseTime, errorMessage);
    PruneAppend(tool.metrics, [m], now - retention);
    assert Prune([m], now - retention) == [m] + Prune([], now - retention);
    assert Logged(tool, m, now, retention).metrics == Prune(tool.metrics, now - retention) + [m];
  }

  /**
   * A tool with a metric recorded now is never left with its old status:
   * the last hour is classified, and it contains the new metric.
   */
  lemma HealthReflectsLastHour(tool: Tool, success: bool, responseTime: real, errorMessage: Option<string>,
                               now: int, retention: int)
    requires retention >= RecentWindow
    ensures AfterMetric(tool, success, responseTime, errorMessage, now, retention).healthStatus ==
            Classify(FailureRate(Prune(tool.metrics + [ToolMetric(now, success, responseTime, errorMessage)], now - RecentWindow)),
                     MeanResponseTime(Prune(tool.metrics + [ToolMetric(now, success, responseTime, errorMessage)], now - RecentWindow)),
                     tool.maxErrorRate, tool.expectedResponseTime)
  {
    var m := ToolMetric(now, success, responseTime, errorMessage);
    var all := tool.metrics + [m];
    assert m in all;
    assert m in Prune(all, now - RecentWindow);
    ClassifiedWhenRecent(Logged(tool, m, now, retention), all, now - retention, now);
  }

  /** A tool whose log is `all` pruned at `cutoff` is classified on `all`'s last hour, if that is not empty. */
  lemma ClassifiedWhenRecent(tool: Tool, all: seq<ToolMetric>, cutoff: int, now: int)
    requires tool.metrics == Prune(all, cutoff) && cutoff <= now - RecentWindow
    requires Prune(all, now - RecentWindow) != []
    ensures NextHealth(tool, now) ==
            Classify(FailureRate(Prune(all, now - RecentWindow)), MeanResponseTime(Prune(all, now - RecentWindow)),
                     tool.maxErrorRate, tool.expectedResponseTime)
  {
    PruneTwice(all, cutoff, now - RecentWindow);
  }

  /** Appends the drift, if one was detected, to the tool's detections. */
  function WithDrift(tool: Tool, check: DriftCheck): Tool
  {
    if check.Detected? then tool.(driftDetections := tool.driftDetections + [check.drift]) else tool
  }

  datatype ToolError = ToolNotRegistered(toolName: string) | SeverityDivisionByZero(toolName: string)

  // ---------------------------------------------------------------------
  // Recommendations
  // ---------------------------------------------------------------------

  /** The status line for a tool that is not healthy. */
  function StatusAdvice(name: string, h: HealthStatus): (r: Option<string>)
    ensures r.None? <==> h == Healthy
  {
    match h
    case Critical => Some("URGENT: " + name + " is in critical state. Immediate investigation required.")
    case Failing => Some("HIGH PRIORITY: " + name + " is failing. Review and fix issues soon.")
    case Degraded => Some("MONITOR: " + name + " is degraded. Consider investigation if it persists.")
    case Healthy => None
  }

  /** The last three detections, or all of them when there are fewer. */
  function RecentDrifts(drifts: seq<DriftDetection>): (r: seq<DriftDetection>)
    ensures |r| == if |drifts| < 3 then |drifts| else 3
    ensures r == drifts[|drifts| - |r|..]
  {
    if |drifts| < 3 then drifts else drifts[|drifts| - 3..]
  }

  function DriftAdvice(name: string, drifts: seq<DriftDetection>): (r: seq<string>)
    ensures |r| == |drifts|
  {
    if drifts == [] then [] else DriftAdvice(name, drifts[..|drifts| - 1]) + [name + ": " + drifts[|drifts| - 1].recommendation]
  }

  function ToolAdvice(name: string, tool: Tool): seq<string>
  {
    var status := StatusAdvice(name, tool.healthStatus);
    (if status.Some? then [status.value] else []) + DriftAdvice(name, RecentDrifts(tool.driftDetections))
  }

  /** All advice, tool by tool in registration order. */
  function Recommendations(order: seq<string>, tools: map<string, Tool>): seq<string>
  {
    if order == [] then []
    else
      var name := order[|order| - 1];
      Recommendations(order[..|order| - 1], tools) + (if name in tools then ToolAdvice(name, tools[name]) else [])
  }

  /** The number of lines each registered tool deserves: one if it is unhealthy, plus up to three drifts. */
  function AdviceCount(order: seq<string>, tools: map<string, Tool>): nat
  {
    if order == [] then 0
    else
      var name := order[|order| - 1];
      AdviceCount(order[..|order| - 1], tools) +
      (if name in tools then
         (if tools[name].healthStatus == Healthy then 0 else 1) +
         (if |tools[name].driftDetections| < 3 then |tools[name].driftDetections| else 3)
       else 0)
  }

  lemma {:induction false} RecommendationsCounted(order: seq<string>, tools: map<string, Tool>)
    ensures |Recommendations(order, tools)| == AdviceCount(order, tools)
  {
    if order != [] {
      RecommendationsCounted(order[..|order| - 1], tools);
    }
  }

  /** A healthy tool without detections adds no advice. */
  lemma QuietToolAddsNothing(order: seq<string>, tools: map<string, Tool>, name: string)
    requires name in tools && tools[name].healthStatus == Healthy && tools[name].driftDetections == []
    ensures Recommendations(order + [name], tools) == Recommendations(order, tools)
  {
    assert (order + [name])[..|order|] == order;
  }

  // ---------------------------------------------------------------------
  // The agent
  // ---------------------------------------------------------------------

  /** `order` with `name` at the end unless it is already there (dictionary insertion order). */
  function Remember(order: seq<string>, name: string): seq<string>
  {
    if name in order then order else order + [name]
  }

  /** `order` without `name`. */
  function Forget(order: seq<string>, name: string): (r: seq<string>)
    ensures forall x :: x in r <==> x in order && x != name
  {
    if order == [] then []
    else Forget(order[..|order| - 1], name) + (if order[|order| - 1] == name then [] else [order[|order| - 1]])
  }

  lemma {:induction false} ForgetKeepsDistinct(order: seq<string>, name: string)
    requires forall i, j :: 0 <= i < j < |order| ==> order[i] != order[j]
    ensures forall i, j :: 0 <= i < j < |Forget(order, name)| ==> Forget(order, name)[i] != Forget(order, name)[j]
  {
    if order != [] {
      var init := order[..|order| - 1];
      ForgetKeepsDistinct(init, name);
      assert order[|order| - 1] !in init;
    }
  }

  class ToolReliabilityAgent {
    const metricRetention: int
    const driftThreshold: real
    var toolOrder: seq<string>
    var tools: map<string, Tool>

    /** Tools are keyed by their name and listed once each, in registration order. */
    ghost predicate Valid()
      reads this
    {
      (forall name :: name in toolOrder <==> name in tools) &&
      (forall i, j :: 0 <= i < j < |toolOrder| ==> toolOrder[i] != toolOrder[j])
    }

    constructor (metricRetention: int := DefaultRetention, driftThreshold: real := DefaultDriftThreshold)
      ensures Valid()
      ensures this.metricRetention == metricRetention && this.driftThreshold == driftThreshold
      ensures toolOrder == [] && tools == map[]
    {
      this.metricRetention := metricRetention;
      this.driftThreshold := driftThreshold;
      toolOrder := [];
      tools := map[];
    }

    /** Registers the tool under its name, replacing any tool of that name in place. */
    method RegisterTool(tool: Tool)
      requires Valid()
      modifies this
      ensures Valid()
      ensures tools == old(tools)[tool.name := tool]
      ensures toolOrder == Remember(old(toolOrder), tool.name)
    {
      if tool.name !in toolOrder {
        toolOrder := toolOrder + [tool.name];
      }
      tools := tools[tool.name := tool];
    }

    /** Removes the tool of that name; an unknown name changes nothing. */
    method UnregisterTool(toolName: string)
      requires Valid()
      modifies this
      ensures Valid()
      ensures tools == old(tools) - {toolName}
      ensures toolOrder == Forget(old(toolOrder), toolName)
      ensures toolName !in old(tools) ==> tools == old(tools)
    {
      if toolName in tools {
        ForgetKeepsDistinct(toolOrder, toolName);
        toolOrder := Forget(toolOrder, toolName);
        tools := tools - {toolName};
      } else {
        ForgetAbsent(toolOrder, toolName);
      }
    }

    /**
     * Records a metric taken `now`: an unregistered tool is an error that
     * changes nothing; otherwise the log is extended and pruned, the check
     * time and health are updated and a detected drift is appended. A
     * response-time drift against a zero baseline is an error raised after
     * the log and health have been updated.
     */
    method RecordMetric(toolName: string, success: bool, responseTime: real, now: int,
                        errorMessage: Option<string> := None)
      returns (result: Result<Tool, ToolError>)
      requires Valid()
      modifies this
      ensures Valid()
      ensures toolName !in old(tools) ==> result == Err(ToolNotRegistered(toolName)) && tools == old(tools)
      ensures toolName in old(tools) ==>
                var updated := AfterMetric(old(tools)[toolName], success, responseTime, errorMessage, now, metricRetention);
                var check := CheckForDrift(updated.metrics, driftThreshold, now);
                tools == old(tools)[toolName := WithDrift(updated, check)] &&
                result == (if check.ZeroBaseline? then Err(SeverityDivisionByZero(toolName)) else Ok(WithDrift(updated, check)))
      ensures toolOrder == old(toolOrder)
    {
      if toolName !in tools {
        return Err(ToolNotRegistered(toolName));
      }
      var tool := LogMetric(tools[toolName], success, responseTime, errorMessage, now, metricRetention);
      var check := CheckForDrift(tool.metrics, driftThreshold, now);
      // a zero baseline raises after the updated tool is stored, with no drift recorded
      tool := WithDrift(tool, check);
      tools := tools[toolName := tool];
      result := if check.ZeroBaseline? then Err(SeverityDivisionByZero(toolName)) else Ok(tool);
    }

    /** One line per unhealthy tool and one per each of its last three drifts, in registration order. */
    method GetRecommendations() returns (recommendations: seq<string>)
      ensures recommendations == Recommendations(toolOrder, tools)
    {
      recommendations := [];
      for i := 0 to |toolOrder|
        invariant recommendations == Recommendations(toolOrder[..i], tools)
      {
        assert toolOrder[..i + 1][..i] == toolOrder[..i];
        var name := toolOrder[i];
        if name in tools {
          var advice := AdviceFor(name, tools[name]);
          recommendations := recommendations + advice;
        }
      }
      assert toolOrder[..|toolOrder|] == toolOrder;
    }
  }

  /** The status line, if any, then one line per each of the tool's last three drifts. */
  method AdviceFor(name: string, tool: Tool) returns (advice: seq<string>)
    ensures advice == ToolAdvice(name, tool)
  {
    advice := [];
    var status := StatusAdvice(name, tool.healthStatus);
    if status.Some? {
      advice := [status.value];
    }
    var recent := RecentDrifts(tool.driftDetections);
    var lines: seq<string> := [];
    for j := 0 to |recent|
      invariant lines == DriftAdvice(name, recent[..j])
    {
      assert recent[..j + 1][..j] == recent[..j];
      lines := lines + [name + ": " + recent[j].recommendation];
    }
    assert recent[..|recent|] == recent;
    advice := advice + lines;
  }

  lemma {:induction false} ForgetAbsent(order: seq<string>, name: string)
    requires name !in order
    ensures Forget(order, name) == order
  {
    if order != [] {
      InitMembers(order);
      ForgetAbsent(order[..|order| - 1], name);
      assert order[|order| - 1] in order;
      assert order == order[..|order| - 1] + [order[|order| - 1]];
    }
  }
}
