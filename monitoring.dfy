/**
 * The monitoring specialist: which metrics it reports for a monitored system
 * and how it turns them into a health report with a 0..100 score.
 *
 * Metric values are Python floats; here they are `real`, and the only
 * operations on them are comparisons against literals.  Timestamps are left
 * out.  The Langfuse HTTP calls are replies handed in as parameters.
 */
module Monitoring {
  import opened Text

  datatype MonitoringSystem = Langfuse | Prometheus | Grafana | Elk | Custom

  /** The enum member's value. */
  function SystemValue(s: MonitoringSystem): string
  {
    match s
    case Langfuse => "langfuse"
    case Prometheus => "prometheus"
    case Grafana => "grafana"
    case Elk => "elk"
    case Custom => "custom"
  }

  /** The enum members in declaration order. */
  const AllSystems: seq<MonitoringSystem> := [Langfuse, Prometheus, Grafana, Elk, Custom]

  datatype HealthStatus = Healthy | Warning | Critical | Unknown

  function StatusValue(s: HealthStatus): string
  {
    match s
    case Healthy => "healthy"
    case Warning => "warning"
    case Critical => "critical"
    case Unknown => "unknown"
  }

  datatype PerformanceMetrics = PerformanceMetrics(
    system: string,
    responseTimeMs: real,
    errorRate: real,
    throughput: real,
    cpuUsage: Option<real>,
    memoryUsage: Option<real>)

  /**
   * An entry of a report's issue list.  The source renders the measured value
   * into the text with two (or one) decimals; the value is kept here instead.
   */
  datatype Issue =
    | ResponseTooLong(ms: real)      // "响应时间过长: …ms"
    | ResponseSlow(ms: real)         // "响应时间较慢: …ms"
    | ErrorRateTooHigh(rate: real)   // "错误率过高: …%"
    | ErrorRateElevated(rate: real)  // "错误率偏高: …%"
    | CpuTooHigh(usage: real)        // "CPU 使用率过高: …%"
    | MemoryTooHigh(usage: real)     // "内存使用率过高: …%"
    | MetricsUnavailable             // "无法获取系统指标"
    | RunningNormally                // "系统运行正常"

  datatype HealthReport = HealthReport(
    system: string,
    status: HealthStatus,
    score: int,
    issues: seq<Issue>,
    recommendations: seq<string>)

  const CacheAdvice := "优化查询性能，考虑添加缓存"
  const ErrorLogAdvice := "检查错误日志，修复关键问题"
  const ScaleAdvice := "考虑扩展计算资源"
  const MemoryAdvice := "检查内存泄漏，优化内存使用"
  const ConnectionAdvice := "检查系统连接"
  const KeepAdvice := "保持当前配置"

  /** get_system_list: the value of every monitoring system, in declaration order. */
  function GetSystemList(): (r: seq<string>)
    ensures r == ["langfuse", "prometheus", "grafana", "elk", "custom"]
  {
    seq(|AllSystems|, i requires 0 <= i < |AllSystems| => SystemValue(AllSystems[i]))
  }

  /** Every system is listed, and no two systems share a value. */
  lemma SystemListComplete(s: MonitoringSystem, t: MonitoringSystem)
    ensures SystemValue(s) in GetSystemList()
    ensures SystemValue(s) == SystemValue(t) ==> s == t
  {
  }

  /** `system or self.monitoring_system.value`: an absent or empty name means the configured system. */
  function TargetSystem(system: Option<string>, configured: MonitoringSystem): (r: string)
    ensures system.Some? && system.value != "" ==> r == system.value
    ensures system.None? || system.value == "" ==> r == SystemValue(configured)
    ensures r != ""
  {
    if system.Some? && system.value != "" then system.value else SystemValue(configured)
  }

  /**
   * The outcome of the Langfuse metrics request: a status code with the
   * numeric fields of the JSON body (`None` when the key is absent), or an
   * exception raised by the request.
   */
  datatype StatsReply =
    | Stats(statusCode: int, avgResponseTime: Option<real>, errorRate: Option<real>, requestsPerSecond: Option<real>)
    | StatsRaised

  /** `data.get(key, 0)`. */
  function OrZero(x: Option<real>): real
  {
    if x.Some? then x.value else 0.0
  }

  /** _get_langfuse_metrics: the body's figures on HTTP 200, fixed defaults otherwise. */
  function LangfuseMetrics(reply: StatsReply): (m: PerformanceMetrics)
    ensures m.system == "langfuse" && m.cpuUsage.None? && m.memoryUsage.None?
    ensures !(reply.Stats? && reply.statusCode == 200) ==> m.responseTimeMs == 50.0 && m.errorRate == 0.005 && m.throughput == 500.0
  {
    if reply.Stats? && reply.statusCode == 200 then
      PerformanceMetrics("langfuse", OrZero(reply.avgResponseTime), OrZero(reply.errorRate), OrZero(reply.requestsPerSecond), None, None)
    else
      PerformanceMetrics("langfuse", 50.0, 0.005, 500.0, None, None)
  }

  /** _get_prometheus_metrics: fixed sample figures, with CPU and memory, none of which triggers a rule. */
  function PrometheusMetrics(): (m: PerformanceMetrics)
    ensures m.system == "prometheus" && m.cpuUsage.Some? && m.memoryUsage.Some?
    ensures ResponseRule(m.responseTimeMs) == Pass && ErrorRule(m.errorRate) == Pass
    ensures CpuRule(m.cpuUsage) == Pass && MemoryRule(m.memoryUsage) == Pass
  {
    PerformanceMetrics("prometheus", 30.0, 0.002, 2000.0, Some(45.5), Some(62.3))
  }

  /** The figures reported for any system that is neither Langfuse nor Prometheus: no CPU or memory, and no rule triggered. */
  function GenericMetrics(target: string): (m: PerformanceMetrics)
    ensures m.system == target && m.cpuUsage.None? && m.memoryUsage.None?
    ensures ResponseRule(m.responseTimeMs) == Pass && ErrorRule(m.errorRate) == Pass
  {
    PerformanceMetrics(target, 100.0, 0.01, 1000.0, None, None)
  }

  /**
   * get_performance_metrics: exactly one metrics record, for the target system;
   * only a Langfuse target depends on the reply.
   */
  function GetPerformanceMetrics(system: Option<string>, configured: MonitoringSystem, reply: StatsReply): (r: seq<PerformanceMetrics>)
    ensures |r| == 1
    ensures r[0].system == TargetSystem(system, configured)
    ensures r[0].cpuUsage.Some? <==> TargetSystem(system, configured) == "prometheus"
  {
    var target := TargetSystem(system, configured);
    if target == "langfuse" then [LangfuseMetrics(reply)]
    else if target == "prometheus" then [PrometheusMetrics()]
    else [GenericMetrics(target)]
  }

  /** Only a Langfuse target depends on the reply of the Langfuse request. */
  lemma MetricsIgnoreReply(system: Option<string>, configured: MonitoringSystem, a: StatsReply, b: StatsReply)
    requires TargetSystem(system, configured) != "langfuse"
    ensures GetPerformanceMetrics(system, configured, a) == GetPerformanceMetrics(system, configured, b)
  {
  }

  // ---------------------------------------------------------------------------
  // The scoring rules, stated rule by rule

  /** What one scoring rule contributes: points deducted, issues found, advice given. */
  datatype Verdict = Verdict(penalty: int, issues: seq<Issue>, advice: seq<string>)

  const Pass := Verdict(0, [], [])

  /** The response-time rule: its two thresholds exclude each other, and only the higher one advises. */
  function ResponseRule(ms: real): Verdict
  {
    if ms > 1000.0 then Verdict(20, [ResponseTooLong(ms)], [CacheAdvice])
    else if ms > 500.0 then Verdict(10, [ResponseSlow(ms)], [])
    else Pass
  }

  function ErrorRule(rate: real): Verdict
  {
    if rate > 0.05 then Verdict(30, [ErrorRateTooHigh(rate)], [ErrorLogAdvice])
    else if rate > 0.01 then Verdict(15, [ErrorRateElevated(rate)], [])
    else Pass
  }

  /** `usage and usage > limit`: an absent (or zero) reading never fires. */
  predicate Exceeds(usage: Option<real>, limit: real)
  {
    usage.Some? && usage.value != 0.0 && usage.value > limit
  }

  function CpuRule(usage: Option<real>): Verdict
  {
    if Exceeds(usage, 80.0) then Verdict(15, [CpuTooHigh(usage.value)], [ScaleAdvice]) else Pass
  }

  function MemoryRule(usage: Option<real>): Verdict
  {
    if Exceeds(usage, 85.0) then Verdict(15, [MemoryTooHigh(usage.value)], [MemoryAdvice]) else Pass
  }

  /** The score before it is clamped at 0: 100 minus every deduction that applies. */
  function RawScore(m: PerformanceMetrics): int
  {
    100 - ResponseRule(m.responseTimeMs).penalty - ErrorRule(m.errorRate).penalty
        - CpuRule(m.cpuUsage).penalty - MemoryRule(m.memoryUsage).penalty
  }

  function Classify(score: int): HealthStatus
  {
    if score >= 80 then Healthy else if score >= 60 then Warning else Critical
  }

  /** The issues found, one per rule that fired, in the order the rules are checked. */
  function Findings(m: PerformanceMetrics): seq<Issue>
  {
    ResponseRule(m.responseTimeMs).issues + ErrorRule(m.errorRate).issues
      + CpuRule(m.cpuUsage).issues + MemoryRule(m.memoryUsage).issues
  }

  /** The advice given, in the order the rules are checked. */
  function Advice(m: PerformanceMetrics): seq<string>
  {
    ResponseRule(m.responseTimeMs).advice + ErrorRule(m.errorRate).advice
      + CpuRule(m.cpuUsage).advice + MemoryRule(m.memoryUsage).advice
  }

  function OrDefault<T>(xs: seq<T>, default: T): seq<T>
  {
    if xs == [] then [default] else xs
  }

  /** The report generate_health_report builds from the metrics list it obtained. */
  function Report(target: string, metricsList: seq<PerformanceMetrics>): HealthReport
  {
    if metricsList == [] then
      HealthReport(target, Unknown, 0, [MetricsUnavailable], [ConnectionAdvice])
    else
      var m := metricsList[0];
      var score := RawScore(m);
      HealthReport(target, Classify(score), if score < 0 then 0 else score,
                   OrDefault(Findings(m), RunningNormally), OrDefault(Advice(m), KeepAdvice))
  }

  // ---------------------------------------------------------------------------
  // The health report, computed step by step

  /**
   * The scoring part of generate_health_report: start at 100, deduct rule by
   * rule while collecting issues and advice, classify, clamp and fill defaults.
   */
  method Assess(target: string, metricsList: seq<PerformanceMetrics>) returns (report: HealthReport)
    ensures report == Report(target, metricsList)
  {
    if metricsList == [] {
      return HealthReport(target, Unknown, 0, [MetricsUnavailable], [ConnectionAdvice]);
    }
    var m := metricsList[0];
    var score := 100;
    var issues: seq<Issue> := [];
    var recommendations: seq<string> := [];

    if m.responseTimeMs > 1000.0 {
      score := score - 20;
      issues := issues + [ResponseTooLong(m.responseTimeMs)];
      recommendations := recommendations + [CacheAdvice];
    } else if m.responseTimeMs > 500.0 {
      score := score - 10;
      issues := issues + [ResponseSlow(m.responseTimeMs)];
    }
    ghost var r := ResponseRule(m.responseTimeMs);
    assert score == 100 - r.penalty && issues == r.issues && recommendations == r.advice;

    if m.errorRate > 0.05 {
      score := score - 30;
      issues := issues + [ErrorRateTooHigh(m.errorRate)];
      recommendations := recommendations + [ErrorLogAdvice];
    } else if m.errorRate > 0.01 {
      score := score - 15;
      issues := issues + [ErrorRateElevated(m.errorRate)];
    }
    ghost var e := ErrorRule(m.errorRate);
    assert score == 100 - r.penalty - e.penalty && issues == r.issues + e.issues
        && recommendations == r.advice + e.advice;

    if m.cpuUsage.Some? && m.cpuUsage.value != 0.0 && m.cpuUsage.value > 80.0 {
      score := score - 15;
      issues := issues + [CpuTooHigh(m.cpuUsage.value)];
      recommendations := recommendations + [ScaleAdvice];
    }
    ghost var c := CpuRule(m.cpuUsage);
    assert score == 100 - r.penalty - e.penalty - c.penalty && issues == r.issues + e.issues + c.issues
        && recommendations == r.advice + e.advice + c.advice;

    if m.memoryUsage.Some? && m.memoryUsage.value != 0.0 && m.memoryUsage.value > 85.0 {
      score := score - 15;
      issues := issues + [MemoryTooHigh(m.memoryUsage.value)];
      recommendations := recommendations + [MemoryAdvice];
    }
    assert score == RawScore(m) && issues == Findings(m) && recommendations == Advice(m);

    var status: HealthStatus;
    if score >= 80 {
      status := Healthy;
    } else if score >= 60 {
      status := Warning;
    } else {
      status := Critical;
    }

    report := HealthReport(target, status, if score < 0 then 0 else score,
                           if issues != [] then issues else [RunningNormally],
                           if recommendations != [] then recommendations else [KeepAdvice]);
  }

  /** generate_health_report: resolve the target, fetch its metrics, assess them. */
  method GenerateHealthReport(system: Option<string>, configured: MonitoringSystem, reply: StatsReply)
    returns (report: HealthReport)
    ensures report == Report(TargetSystem(system, configured),
                             GetPerformanceMetrics(system, configured, reply))
    ensures report.status != Unknown
  {
    var target := TargetSystem(system, configured);
    var metricsList := GetPerformanceMetrics(Some(target), configured, reply);
    report := Assess(target, metricsList);
  }

  // ---------------------------------------------------------------------------
  // What the report promises

  /** The deductions never exceed 80 in total, so the score stays in 20..100 and clamping never bites. */
  lemma ScoreRange(m: PerformanceMetrics)
    ensures 20 <= RawScore(m) <= 100
    ensures Report(m.system, [m]).score == RawScore(m)
  {
  }

  /** The returned score is within 0..100, and 0 exactly when no metrics were obtained. */
  lemma ReportScoreBounds(target: string, metricsList: seq<PerformanceMetrics>)
    ensures 0 <= Report(target, metricsList).score <= 100
    ensures Report(target, metricsList).score == 0 <==> metricsList == []
  {
    if metricsList != [] {
      ScoreRange(metricsList[0]);
    }
  }

  /** The status follows the score's bands, and is Unknown exactly when no metrics were obtained. */
  lemma ReportStatusBands(target: string, metricsList: seq<PerformanceMetrics>)
    ensures var r := Report(target, metricsList);
      && (r.status == Unknown <==> metricsList == [])
      && (metricsList != [] ==>
            && (r.status == Healthy <==> r.score >= 80)
            && (r.status == Warning <==> 60 <= r.score < 80)
            && (r.status == Critical <==> r.score < 60))
  {
    if metricsList != [] {
      ScoreRange(metricsList[0]);
    }
  }

  /** Neither list of a report is ever empty; without metrics each holds exactly one entry. */
  lemma ReportListsNonEmpty(target: string, metricsList: seq<PerformanceMetrics>)
    ensures |Report(target, metricsList).issues| >= 1
    ensures |Report(target, metricsList).recommendations| >= 1
    ensures metricsList == [] ==>
      Report(target, metricsList).issues == [MetricsUnavailable] &&
      Report(target, metricsList).recommendations == [ConnectionAdvice]
  {
  }

  /**
   * The response-time rule: over 1000 ms costs 20 points, an issue and the
   * caching advice; over 500 ms (and not over 1000) costs 10 and an issue only.
   */
  lemma ResponseTimeRule(m: PerformanceMetrics)
    ensures ResponseTooLong(m.responseTimeMs) in Findings(m) <==> m.responseTimeMs > 1000.0
    ensures ResponseSlow(m.responseTimeMs) in Findings(m) <==> 500.0 < m.responseTimeMs <= 1000.0
    ensures CacheAdvice in Advice(m) <==> m.responseTimeMs > 1000.0
    ensures ResponseRule(m.responseTimeMs).penalty == (if m.responseTimeMs > 1000.0 then 20 else if m.responseTimeMs > 500.0 then 10 else 0)
  {
  }

  /** The error-rate rule: over 0.05 costs 30 with advice, over 0.01 costs 15 without. */
  lemma ErrorRateRule(m: PerformanceMetrics)
    ensures ErrorRateTooHigh(m.errorRate) in Findings(m) <==> m.errorRate > 0.05
    ensures ErrorRateElevated(m.errorRate) in Findings(m) <==> 0.01 < m.errorRate <= 0.05
    ensures ErrorLogAdvice in Advice(m) <==> m.errorRate > 0.05
  {
  }

  /** The CPU and memory rules fire only on a present reading above 80 and 85 respectively. */
  lemma UsageRules(m: PerformanceMetrics)
    ensures ScaleAdvice in Advice(m) <==> m.cpuUsage.Some? && m.cpuUsage.value > 80.0
    ensures MemoryAdvice in Advice(m) <==> m.memoryUsage.Some? && m.memoryUsage.value > 85.0
    ensures m.cpuUsage.None? && m.memoryUsage.None? ==>
      RawScore(m) == 100 - ResponseRule(m.responseTimeMs).penalty - ErrorRule(m.errorRate).penalty
  {
  }

  /** A system other than Langfuse reports fixed figures, so its report is healthy with full score. */
  lemma FixedSystemsHealthy(system: Option<string>, configured: MonitoringSystem, reply: StatsReply)
    requires TargetSystem(system, configured) != "langfuse"
    ensures var r := Report(TargetSystem(system, configured), GetPerformanceMetrics(system, configured, reply));
      r.status == Healthy && r.score == 100 && r.issues == [RunningNormally] && r.recommendations == [KeepAdvice]
  {
  }

  /** When the Langfuse request fails or answers other than 200, the defaults also give a full score. */
  lemma LangfuseDefaultsHealthy(reply: StatsReply)
    requires !(reply.Stats? && reply.statusCode == 200)
    ensures var r := Report("langfuse", [LangfuseMetrics(reply)]);
      r.status == Healthy && r.score == 100 && r.issues == [RunningNormally]
  {
  }

  // ---------------------------------------------------------------------------
  // Error logs

  /**
   * get_error_logs: the Langfuse target returns what the Langfuse request gave
   * (`langfuseErrors`); every other system has no error log.
   */
  function GetErrorLogs<T>(system: Option<string>, configured: MonitoringSystem, langfuseErrors: seq<T>): (r: seq<T>)
    ensures TargetSystem(system, configured) != "langfuse" ==> r == []
    ensures TargetSystem(system, configured) == "langfuse" ==> r == langfuseErrors
  {
    if TargetSystem(system, configured) == "langfuse" then langfuseErrors else []
  }
}
