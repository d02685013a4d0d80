/** The self-repair service: threshold-based anomaly detection over a metrics snapshot, the request-metric
    bookkeeping of the system monitor, and the repair engine's plans, execution steps and history. */
module SelfRepair {
  import opened Common
  import opened Sorting

  // ---------------------------------------------------------------------------------------------
  // SimpleSystemMonitor: request metrics
  // ---------------------------------------------------------------------------------------------

  /** The most response times the monitor keeps. */
  const ResponseWindow: nat := 100

  /** The request-related part of the monitor's `metrics` dictionary. The CPU, memory and disk series are
      only filled by the sampling thread and are not part of this model. */
  class SystemMonitor {
    var responseTimes: seq<real>
    var requestCount: nat
    var errorCount: nat
    /** Every response time ever recorded, in arrival order. */
    ghost var recorded: seq<real>

    ghost predicate Valid()
      reads this
    {
      && errorCount <= requestCount
      && responseTimes == Last(recorded, ResponseWindow)
      && |recorded| == requestCount
    }

    constructor ()
      ensures Valid()
      ensures responseTimes == [] && requestCount == 0 && errorCount == 0
    {
      responseTimes := [];
      requestCount := 0;
      errorCount := 0;
      recorded := [];
    }

    /** `record_request_metric`: append the time, keep only the last 100, count the request and, for an
        error, the error. */
    method RecordRequestMetric(responseTime: real, isError: bool)
      requires Valid()
      modifies this
      ensures Valid()
      ensures responseTimes == Last(old(responseTimes) + [responseTime], ResponseWindow)
      ensures |responseTimes| <= ResponseWindow && responseTimes[|responseTimes| - 1] == responseTime
      ensures recorded == old(recorded) + [responseTime]
      ensures requestCount == old(requestCount) + 1
      ensures errorCount == old(errorCount) + (if isError then 1 else 0)
    {
      LastOfLast(recorded, responseTime, ResponseWindow);
      responseTimes := responseTimes + [responseTime];
      if |responseTimes| > ResponseWindow {
        responseTimes := responseTimes[|responseTimes| - ResponseWindow..];
      }
      recorded := recorded + [responseTime];
      requestCount := requestCount + 1;
      if isError {
        errorCount := errorCount + 1;
      }
    }
  }

  // ---------------------------------------------------------------------------------------------
  // detect_anomalies
  // ---------------------------------------------------------------------------------------------

  /** The values `detect_anomalies` reads from `get_current_metrics`. */
  datatype CurrentMetrics = CurrentMetrics(cpuUsage: real, memoryUsage: real, diskUsage: real,
                                           avgResponseTime: real, errorRate: real)

  datatype AnomalyKind = HighCpuUsage | HighMemoryUsage | HighDiskUsage | HighResponseTime | HighErrorRate

  function KindName(k: AnomalyKind): string {
    match k
    case HighCpuUsage => "high_cpu_usage"
    case HighMemoryUsage => "high_memory_usage"
    case HighDiskUsage => "high_disk_usage"
    case HighResponseTime => "high_response_time"
    case HighErrorRate => "high_error_rate"
  }

  /** The position of a kind in the order the checks run. */
  function Rank(k: AnomalyKind): nat {
    match k
    case HighCpuUsage => 0
    case HighMemoryUsage => 1
    case HighDiskUsage => 2
    case HighResponseTime => 3
    case HighErrorRate => 4
  }

  function Threshold(k: AnomalyKind): real {
    match k
    case HighCpuUsage => 80.0
    case HighMemoryUsage => 85.0
    case HighDiskUsage => 90.0
    case HighResponseTime => 5.0
    case HighErrorRate => 0.1
  }

  function Reading(m: CurrentMetrics, k: AnomalyKind): real {
    match k
    case HighCpuUsage => m.cpuUsage
    case HighMemoryUsage => m.memoryUsage
    case HighDiskUsage => m.diskUsage
    case HighResponseTime => m.avgResponseTime
    case HighErrorRate => m.errorRate
  }

  datatype Severity = SevMedium | SevHigh

  datatype Anomaly = Anomaly(kind: AnomalyKind, severity: Severity, value: real, threshold: real)

  function SeverityName(s: Severity): string {
    match s
    case SevMedium => "medium"
    case SevHigh => "high"
  }

  /** One check: an anomaly when the reading strictly exceeds the threshold. */
  function Check(m: CurrentMetrics, k: AnomalyKind, severity: Severity): seq<Anomaly> {
    if Reading(m, k) > Threshold(k) then [Anomaly(k, severity, Reading(m, k), Threshold(k))] else []
  }

  /** `detect_anomalies` over a given metrics snapshot. */
  function DetectAnomalies(m: CurrentMetrics): (r: seq<Anomaly>)
    ensures forall i :: 0 <= i < |r| ==> r[i].value > r[i].threshold && r[i].value == Reading(m, r[i].kind)
  {
    Check(m, HighCpuUsage, if m.cpuUsage > 90.0 then SevHigh else SevMedium)
    + (Check(m, HighMemoryUsage, if m.memoryUsage > 95.0 then SevHigh else SevMedium)
       + (Check(m, HighDiskUsage, SevHigh)
          + (Check(m, HighResponseTime, SevMedium)
             + Check(m, HighErrorRate, SevHigh))))
  }

  lemma CheckShape(m: CurrentMetrics, k: AnomalyKind, severity: Severity)
    ensures |Check(m, k, severity)| <= 1
    ensures forall a :: a in Check(m, k, severity) ==> a.kind == k && a.severity == severity
                                                       && a.value == Reading(m, k) && a.threshold == Threshold(k)
    ensures (exists a :: a in Check(m, k, severity)) <==> Reading(m, k) > Threshold(k)
  {
    if Reading(m, k) > Threshold(k) {
      assert Check(m, k, severity)[0] in Check(m, k, severity);
    }
  }

  /** Every reported anomaly carries its own reading and threshold, and the severities follow the source:
      CPU is high above 90, memory above 95, disk and error rate are always high, response time medium. */
  lemma {:induction false} AnomalyFields(m: CurrentMetrics)
    ensures forall a :: a in DetectAnomalies(m) ==>
              && a.value == Reading(m, a.kind) && a.threshold == Threshold(a.kind) && a.value > a.threshold
              && (a.kind == HighCpuUsage ==> (a.severity == SevHigh <==> m.cpuUsage > 90.0))
              && (a.kind == HighMemoryUsage ==> (a.severity == SevHigh <==> m.memoryUsage > 95.0))
              && (a.kind == HighDiskUsage || a.kind == HighErrorRate ==> a.severity == SevHigh)
              && (a.kind == HighResponseTime ==> a.severity == SevMedium)
  {
    CheckShape(m, HighCpuUsage, if m.cpuUsage > 90.0 then SevHigh else SevMedium);
    CheckShape(m, HighMemoryUsage, if m.memoryUsage > 95.0 then SevHigh else SevMedium);
    CheckShape(m, HighDiskUsage, SevHigh);
    CheckShape(m, HighResponseTime, SevMedium);
    CheckShape(m, HighErrorRate, SevHigh);
  }

  /** A kind is reported exactly when its reading strictly exceeds its threshold. */
  lemma {:induction false} AnomalyReportedIff(m: CurrentMetrics, k: AnomalyKind)
    ensures (exists a :: a in DetectAnomalies(m) && a.kind == k) <==> Reading(m, k) > Threshold(k)
  {
    var sevCpu := if m.cpuUsage > 90.0 then SevHigh else SevMedium;
    var sevMem := if m.memoryUsage > 95.0 then SevHigh else SevMedium;
    CheckShape(m, HighCpuUsage, sevCpu);
    CheckShape(m, HighMemoryUsage, sevMem);
    CheckShape(m, HighDiskUsage, SevHigh);
    CheckShape(m, HighResponseTime, SevMedium);
    CheckShape(m, HighErrorRate, SevHigh);
    var sev := match k
      case HighCpuUsage => sevCpu
      case HighMemoryUsage => sevMem
      case HighDiskUsage => SevHigh
      case HighResponseTime => SevMedium
      case HighErrorRate => SevHigh;
    if Reading(m, k) > Threshold(k) {
      var a := Anomaly(k, sev, Reading(m, k), Threshold(k));
      assert a in Check(m, k, sev);
      assert a in DetectAnomalies(m);
    }
  }

  /** The anomalies come in the order cpu, memory, disk, response time, error rate, each at most once. */
  lemma {:induction false} AnomaliesOrdered(m: CurrentMetrics)
    ensures |DetectAnomalies(m)| <= 5
    ensures RankOrdered(DetectAnomalies(m))
  {
    var s5 := Check(m, HighErrorRate, SevHigh);
    OrderedCheck(m, HighErrorRate, SevHigh, []);
    assert s5 + [] == s5;
    var s4 := Check(m, HighResponseTime, SevMedium) + s5;
    OrderedCheck(m, HighResponseTime, SevMedium, s5);
    var s3 := Check(m, HighDiskUsage, SevHigh) + s4;
    OrderedCheck(m, HighDiskUsage, SevHigh, s4);
    var s2 := Check(m, HighMemoryUsage, if m.memoryUsage > 95.0 then SevHigh else SevMedium) + s3;
    OrderedCheck(m, HighMemoryUsage, if m.memoryUsage > 95.0 then SevHigh else SevMedium, s3);
    var s1 := Check(m, HighCpuUsage, if m.cpuUsage > 90.0 then SevHigh else SevMedium) + s2;
    OrderedCheck(m, HighCpuUsage, if m.cpuUsage > 90.0 then SevHigh else SevMedium, s2);
    assert DetectAnomalies(m) == s1;
  }

  predicate RankOrdered(s: seq<Anomaly>) {
    forall i, j :: 0 <= i < j < |s| ==> Rank(s[i].kind) < Rank(s[j].kind)
  }

  predicate RanksFrom(s: seq<Anomaly>, lo: nat) {
    forall i :: 0 <= i < |s| ==> Rank(s[i].kind) >= lo
  }

  /** Putting a check in front of an ordered list of higher-ranked anomalies keeps it ordered. */
  lemma OrderedCheck(m: CurrentMetrics, k: AnomalyKind, severity: Severity, rest: seq<Anomaly>)
    requires RankOrdered(rest) && RanksFrom(rest, Rank(k) + 1)
    ensures RankOrdered(Check(m, k, severity) + rest)
    ensures RanksFrom(Check(m, k, severity) + rest, Rank(k))
    ensures |Check(m, k, severity) + rest| <= 1 + |rest|
  {
    var c := Check(m, k, severity);
    CheckShape(m, k, severity);
    var s := c + rest;
    forall i, j | 0 <= i < j < |s| ensures Rank(s[i].kind) < Rank(s[j].kind) {
      if i < |c| {
        assert s[i] in c && s[j] == rest[j - |c|];
      } else {
        assert s[i] == rest[i - |c|] && s[j] == rest[j - |c|];
      }
    }
  }

  // ---------------------------------------------------------------------------------------------
  // SimpleRepairEngine
  // ---------------------------------------------------------------------------------------------

  datatype RepairAction = RepairAction(action: string, description: string, risk: string, estimatedTime: int)

  function RepairActions(): map<string, seq<RepairAction>> {
    map[
      "high_cpu_usage" := [
        RepairAction("restart_high_cpu_processes", "Reiniciar procesos con alto uso de CPU", "medium", 30),
        RepairAction("optimize_system_processes", "Optimizar procesos del sistema", "low", 60)],
      "high_memory_usage" := [
        RepairAction("clear_memory_cache", "Limpiar caché de memoria", "low", 10),
        RepairAction("restart_memory_intensive_processes", "Reiniciar procesos que consumen mucha memoria", "medium", 30)],
      "high_disk_usage" := [
        RepairAction("clean_temporary_files", "Limpiar archivos temporales", "low", 15),
        RepairAction("compress_old_logs", "Comprimir logs antiguos", "low", 20)],
      "high_response_time" := [
        RepairAction("optimize_database_queries", "Optimizar consultas de base de datos", "low", 45),
        RepairAction("restart_web_server", "Reiniciar servidor web", "medium", 15)],
      "high_error_rate" := [
        RepairAction("check_application_logs", "Revisar logs de aplicación para errores", "low", 10),
        RepairAction("restart_application_services", "Reiniciar servicios de aplicación", "medium", 20)]
    ]
  }

  /** The sort key `(risk == 'high', estimated_time)`: high-risk actions last, then by time. */
  function ByRiskThenTime(a: RepairAction): Key {
    Key(if a.risk == "high" then 1 else 0, a.estimatedTime)
  }

  function EstimatedTime(a: RepairAction): int {
    a.estimatedTime
  }

  datatype RepairPlan =
    | NoActionsAvailable(anomalyType: string, message: string)
    | PlanGenerated(anomalyType: string, severity: Json, actions: seq<RepairAction>,
                    recommendedAction: RepairAction, totalEstimatedTime: int)
    /** `anomaly['severity']` raised: the anomaly had a type with actions but no severity. */
    | SeverityMissing
    /** `anomaly['type']` raised: the anomaly had no type. */
    | TypeMissing

  /** The plan for a list of available actions. */
  function PlanFrom(available: seq<RepairAction>, anomalyType: string, severity: Option<Json>): (p: RepairPlan)
    ensures available == [] <==> p.NoActionsAvailable?
    ensures available == [] ==>
              p == NoActionsAvailable(anomalyType, "No hay acciones de reparación disponibles para " + anomalyType)
    ensures available != [] && severity.None? ==> p.SeverityMissing?
    ensures available != [] && severity.Some? ==> p.PlanGenerated? && p.severity == severity.value
  {
    if available == [] then
      NoActionsAvailable(anomalyType, "No hay acciones de reparación disponibles para " + anomalyType)
    else if severity.None? then SeverityMissing
    else
      var sorted := SortBy(available, ByRiskThenTime);
      PlanGenerated(anomalyType, severity.value, sorted, sorted[0], SumBy(sorted, EstimatedTime))
  }

  /** `generate_repair_plan` for an anomaly with, if present, this type and this severity: the type is read
      first, then the table; only a type with actions reads the severity. */
  function GenerateRepairPlan(anomalyType: Option<string>, severity: Option<Json>): (p: RepairPlan)
    ensures anomalyType.None? <==> p.TypeMissing?
    ensures anomalyType.Some? && anomalyType.value !in RepairActions() ==> p.NoActionsAvailable?
    ensures anomalyType.Some? && anomalyType.value in RepairActions() && severity.None? ==> p.SeverityMissing?
    ensures anomalyType.Some? && anomalyType.value in RepairActions() && severity.Some? ==>
              p.PlanGenerated? && p.anomalyType == anomalyType.value && p.severity == severity.value
              && multiset(p.actions) == multiset(RepairActions()[anomalyType.value])
  {
    if anomalyType.None? then TypeMissing
    else
      var t := anomalyType.value;
      var available := if t in RepairActions() then RepairActions()[t] else [];
      assert t in RepairActions() ==> available != [];
      SortByPermutes(available, ByRiskThenTime);
      PlanFrom(available, t, severity)
  }

  /** A generated plan lists the available actions, each as often as given, sorted by risk and time, with
      equal keys kept in the given order; it recommends an action of least key and totals every time. */
  lemma PlanProperties(available: seq<RepairAction>, anomalyType: string, severity: Json)
    requires available != []
    ensures var p := PlanFrom(available, anomalyType, Some(severity));
            && p.PlanGenerated?
            && p.severity == severity
            && multiset(p.actions) == multiset(available)
            && SortedBy(p.actions, ByRiskThenTime)
            && (forall k :: WithKey(p.actions, ByRiskThenTime, k) == WithKey(available, ByRiskThenTime, k))
            && p.recommendedAction in available
            && (forall a :: a in available ==> KeyLe(ByRiskThenTime(p.recommendedAction), ByRiskThenTime(a)))
            && p.totalEstimatedTime == SumBy(available, EstimatedTime)
  {
    var p := PlanFrom(available, anomalyType, Some(severity));
    SortByPermutes(available, ByRiskThenTime);
    SortBySorted(available, ByRiskThenTime);
    SortBySum(available, ByRiskThenTime, EstimatedTime);
    SortByFirstIsLeast(available, ByRiskThenTime);
    forall k ensures WithKey(p.actions, ByRiskThenTime, k) == WithKey(available, ByRiskThenTime, k) {
      SortByStable(available, ByRiskThenTime, k);
    }
  }

  /** Every anomaly the monitor can report has a plan: each of its types has actions. */
  lemma {:induction false} DetectedAnomaliesHavePlans(m: CurrentMetrics)
    ensures forall a :: a in DetectAnomalies(m) ==>
              GenerateRepairPlan(Some(KindName(a.kind)), Some(JStr(SeverityName(a.severity)))).PlanGenerated?
  {
    forall a | a in DetectAnomalies(m)
      ensures GenerateRepairPlan(Some(KindName(a.kind)), Some(JStr(SeverityName(a.severity)))).PlanGenerated?
    {
      KindHasActions(a.kind);
    }
  }

  /** Every anomaly type the monitor uses is a key of the action table, with at least one action. */
  lemma KindHasActions(k: AnomalyKind)
    ensures KindName(k) in RepairActions() && RepairActions()[KindName(k)] != []
  {
    match k
    case HighCpuUsage =>
    case HighMemoryUsage =>
    case HighDiskUsage =>
    case HighResponseTime =>
    case HighErrorRate =>
  }

  // ---------------------------------------------------------------------------------------------
  // Execution steps and history
  // ---------------------------------------------------------------------------------------------

  function StepsMap(): map<string, seq<string>> {
    map[
      "restart_high_cpu_processes" := ["Identificar procesos con alto uso de CPU", "Verificar criticidad de procesos",
                                       "Reiniciar procesos no críticos", "Monitorear uso de CPU post-reinicio"],
      "clear_memory_cache" := ["Verificar uso actual de memoria", "Limpiar caché del sistema",
                               "Liberar memoria no utilizada", "Verificar mejora en uso de memoria"],
      "clean_temporary_files" := ["Identificar archivos temporales", "Verificar seguridad de eliminación",
                                  "Eliminar archivos temporales", "Verificar espacio liberado"],
      "optimize_database_queries" := ["Analizar consultas lentas", "Identificar oportunidades de optimización",
                                      "Aplicar optimizaciones", "Verificar mejora en rendimiento"],
      "check_application_logs" := ["Acceder a logs de aplicación", "Buscar patrones de error",
                                   "Identificar causas raíz", "Generar reporte de errores"]
    ]
  }

  const DefaultSteps: seq<string> := ["Ejecutar acción", "Verificar resultado"]

  /** `_get_execution_steps`: the mapped steps, or the two generic ones. */
  function ExecutionSteps(action: string): (steps: seq<string>)
    ensures action in StepsMap() ==> steps == StepsMap()[action] && |steps| == 4
    ensures action !in StepsMap() ==> steps == DefaultSteps
  {
    if action in StepsMap() then StepsMap()[action] else DefaultSteps
  }

  /** Only the first action of each table entry has its own steps, so the recommended action for a slow
      response time (restarting the web server, which is quicker) gets the generic two steps. */
  lemma RecommendedActionSteps()
    ensures var p := GenerateRepairPlan(Some("high_response_time"), Some(JStr("medium")));
            p.PlanGenerated? && p.recommendedAction.action == "restart_web_server"
            && ExecutionSteps(p.recommendedAction.action) == DefaultSteps
  {
    var a0, a1 := ResponseTimeActions();
    QuickerFirst(a0, a1);
    WebServerRestartHasNoSteps();
  }

  lemma ResponseTimeActions() returns (a0: RepairAction, a1: RepairAction)
    ensures RepairActions()["high_response_time"] == [a0, a1]
    ensures a0.risk == "low" && a0.estimatedTime == 45
    ensures a1.action == "restart_web_server" && a1.risk == "medium" && a1.estimatedTime == 15
  {
    a0 := RepairAction("optimize_database_queries", "Optimizar consultas de base de datos", "low", 45);
    a1 := RepairAction("restart_web_server", "Reiniciar servidor web", "medium", 15);
  }

  lemma WebServerRestartHasNoSteps()
    ensures ExecutionSteps("restart_web_server") == DefaultSteps
  {
    assert "restart_web_server" !in StepsMap();
  }

  /** Of two actions with the same risk, the quicker one is recommended. */
  lemma QuickerFirst(a0: RepairAction, a1: RepairAction)
    requires ByRiskThenTime(a1).major == ByRiskThenTime(a0).major
    requires ByRiskThenTime(a1).minor < ByRiskThenTime(a0).minor
    ensures SortBy([a0, a1], ByRiskThenTime)[0] == a1
  {
    assert [a0, a1][1..] == [a1];
    assert SortBy([a1], ByRiskThenTime) == [a1];
  }

  datatype StepRecord = StepRecord(step: string, status: string)

  datatype RepairExecution = RepairExecution(action: string, description: string, anomalyType: string,
                                             status: string, steps: seq<StepRecord>, success: bool,
                                             message: string)

  class RepairEngine {
    var repairHistory: seq<RepairExecution>

    constructor ()
      ensures repairHistory == []
    {
      repairHistory := [];
    }

    /** `execute_repair_action` on an action with, if present, this name and this description: a missing
        key raises before anything is recorded; otherwise each step of the action is run and marked
        completed, and the run is recorded. */
    method ExecuteRepairAction(actionName: Option<string>, description: Option<string>, anomalyType: string)
      returns (r: Option<RepairExecution>)
      modifies this
      ensures r.None? <==> actionName.None? || description.None?
      ensures r.None? ==> repairHistory == old(repairHistory)
      ensures r.Some? ==>
                && r.value.action == actionName.value && r.value.description == description.value
                && r.value.anomalyType == anomalyType
                && |r.value.steps| == |ExecutionSteps(actionName.value)|
                && (forall i :: 0 <= i < |r.value.steps| ==>
                      r.value.steps[i] == StepRecord(ExecutionSteps(actionName.value)[i], "completed"))
                && r.value.status == "completed" && r.value.success
                && r.value.message == "Acción " + actionName.value + " ejecutada exitosamente"
                && repairHistory == old(repairHistory) + [r.value]
    {
      if actionName.None? || description.None? {
        r := None;
        return;
      }
      var name := actionName.value;
      var steps := ExecutionSteps(name);
      var done: seq<StepRecord> := [];
      var i := 0;
      while i < |steps|
        invariant 0 <= i <= |steps|
        invariant |done| == i
        invariant forall j :: 0 <= j < i ==> done[j] == StepRecord(steps[j], "completed")
      {
        done := done + [StepRecord(steps[i], "completed")];
        i := i + 1;
      }
      var run := RepairExecution(name, description.value, anomalyType, "completed", done, true,
                                 "Acción " + name + " ejecutada exitosamente");
      repairHistory := repairHistory + [run];
      r := Some(run);
    }
  }
}
