/** The autonomous-deployment planner and executor: the strategy, provider and application-type tables,
    the recommendation rules, the complexity and database scoring of an application analysis, the
    reasoning lines, and the executor's status rule and history. */
module Deploy {
  import opened Common
  import opened Text

  // ---------------------------------------------------------------------------------------------
  // Tables
  // ---------------------------------------------------------------------------------------------

  datatype StrategyInfo = StrategyInfo(description: string, complexity: string, downtime: string,
                                       rollbackTime: string, useCases: seq<string>)

  datatype ProviderInfo = ProviderInfo(description: string, cost: string, scalability: string, availability: string)

  datatype AppTypeInfo = AppTypeInfo(frameworks: seq<string>, requirements: seq<string>, recommendedStrategy: string)

  function Strategies(): map<string, StrategyInfo> {
    map[
      "simple" := StrategyInfo("Despliegue simple para aplicaciones pequeñas", "low", "minimal", "fast",
                               ["desarrollo", "prototipado", "aplicaciones simples"]),
      "blue_green" := StrategyInfo("Despliegue con dos entornos idénticos", "medium", "zero", "instant",
                                   ["producción", "alta disponibilidad", "aplicaciones críticas"]),
      "canary" := StrategyInfo("Despliegue gradual a un subconjunto de usuarios", "high", "zero", "fast",
                               ["aplicaciones de alto tráfico", "testing en producción"]),
      "rolling" := StrategyInfo("Actualización gradual de instancias", "medium", "minimal", "medium",
                                ["microservicios", "aplicaciones distribuidas"])
    ]
  }

  function Providers(): map<string, ProviderInfo> {
    map[
      "local" := ProviderInfo("Despliegue local para desarrollo", "free", "limited", "low"),
      "docker" := ProviderInfo("Contenedorización con Docker", "low", "medium", "medium"),
      "kubernetes" := ProviderInfo("Orquestación con Kubernetes", "medium", "high", "high")
    ]
  }

  function AppTypes(): map<string, AppTypeInfo> {
    map[
      "web_app" := AppTypeInfo(["flask", "django", "fastapi", "express"], ["web_server", "database", "static_files"],
                               "blue_green"),
      "api" := AppTypeInfo(["flask", "fastapi", "express"], ["web_server", "database"], "rolling"),
      "microservice" := AppTypeInfo(["flask", "fastapi", "express"], ["container", "service_discovery", "load_balancer"],
                                    "canary"),
      "static_site" := AppTypeInfo(["react", "vue", "angular", "html"], ["web_server", "cdn"], "simple")
    ]
  }

  /** Every application type recommends a strategy of the strategy table. */
  lemma AppTypesRecommendKnownStrategies()
    ensures forall t :: t in AppTypes() ==> AppTypes()[t].recommendedStrategy in Strategies()
  {
  }

  // ---------------------------------------------------------------------------------------------
  // recommend_deployment_strategy
  // ---------------------------------------------------------------------------------------------

  /** `self.application_types.get(app_type, {}).get('recommended_strategy', 'simple')`. */
  function BaseStrategy(appType: Json): (s: string)
    ensures s in Strategies()
    ensures appType.JStr? && appType.s in AppTypes() ==> s == AppTypes()[appType.s].recommendedStrategy
    ensures !(appType.JStr? && appType.s in AppTypes()) ==> s == "simple"
  {
    if appType.JStr? && appType.s in AppTypes() then AppTypes()[appType.s].recommendedStrategy else "simple"
  }

  predicate IsStr(v: Json, s: string) {
    v == JStr(s)
  }

  function Availability(requirements: map<string, Json>): Json {
    Get(requirements, "availability", JStr("medium"))
  }

  function Performance(requirements: map<string, Json>): Json {
    Get(requirements, "performance", JStr("medium"))
  }

  function Budget(requirements: map<string, Json>): Json {
    Get(requirements, "budget", JStr("medium"))
  }

  function Tolerance(requirements: map<string, Json>): Json {
    Get(requirements, "complexity_tolerance", JStr("medium"))
  }

  /** The strategy rule: high availability picks canary or blue-green by tolerance and performance, a
      complex application picks rolling, anything else the application type's default. */
  function ChooseStrategy(analysis: map<string, Json>, requirements: map<string, Json>): (s: string)
    ensures s in Strategies()
  {
    var availability := Availability(requirements);
    var tolerance := Tolerance(requirements);
    var base := BaseStrategy(Get(analysis, "type", JStr("web_app")));
    if IsStr(availability, "high") && (IsStr(tolerance, "medium") || IsStr(tolerance, "high")) then
      if IsStr(Performance(requirements), "high") then "canary" else "blue_green"
    else if IsStr(availability, "high") && IsStr(tolerance, "low") then "blue_green"
    else if "complexity" in analysis && IsStr(analysis["complexity"], "high") then "rolling"
    else base
  }

  /** The provider rule. */
  function ChooseProvider(analysis: map<string, Json>, requirements: map<string, Json>): (p: string)
    ensures p in Providers()
  {
    var tolerance := Tolerance(requirements);
    if IsStr(Budget(requirements), "low") || ("environment" in requirements && IsStr(requirements["environment"], "development"))
    then "local"
    else if "docker_ready" in analysis && Truthy(analysis["docker_ready"]) && (IsStr(tolerance, "medium") || IsStr(tolerance, "high"))
    then (if IsStr(Availability(requirements), "high") then "kubernetes" else "docker")
    else "docker"
  }

  /** High availability with any stated tolerance always gets a zero-downtime strategy, and canary exactly
      when performance is also high. */
  lemma HighAvailabilityMeansZeroDowntime(analysis: map<string, Json>, requirements: map<string, Json>)
    requires IsStr(Availability(requirements), "high")
    requires IsStr(Tolerance(requirements), "low") || IsStr(Tolerance(requirements), "medium")
             || IsStr(Tolerance(requirements), "high")
    ensures Strategies()[ChooseStrategy(analysis, requirements)].downtime == "zero"
    ensures ChooseStrategy(analysis, requirements) == "canary"
            <==> !IsStr(Tolerance(requirements), "low") && IsStr(Performance(requirements), "high")
  {
  }

  /** Without high availability, or with high availability but a tolerance other than low, medium or high,
      the requirements matter only through the analysis: a complex application is rolled, any other gets
      its type's default (`simple` for an unknown or missing-valued type). */
  lemma WithoutHighAvailability(analysis: map<string, Json>, requirements: map<string, Json>)
    requires !IsStr(Availability(requirements), "high")
             || !(IsStr(Tolerance(requirements), "low") || IsStr(Tolerance(requirements), "medium")
                  || IsStr(Tolerance(requirements), "high"))
    ensures var s := ChooseStrategy(analysis, requirements);
            && ("complexity" in analysis && IsStr(analysis["complexity"], "high") ==> s == "rolling")
            && (!("complexity" in analysis && IsStr(analysis["complexity"], "high")) ==>
                  s == BaseStrategy(Get(analysis, "type", JStr("web_app"))))
  {
  }

  /** An analysis whose `type` is present but `None` (what the analyser produces when no type is given)
      falls back to `simple`, whereas a missing `type` key means a web application (blue-green). */
  lemma NullTypeIsNotWebApp()
    ensures ChooseStrategy(map["type" := JNull], map[]) == "simple"
    ensures ChooseStrategy(map[], map[]) == "blue_green"
  {
  }

  /** A low budget or a development environment always deploys locally; Kubernetes is chosen only for a
      Docker-ready application with high availability and a medium or high tolerance. */
  lemma ProviderRule(analysis: map<string, Json>, requirements: map<string, Json>)
    ensures IsStr(Budget(requirements), "low") ==> ChooseProvider(analysis, requirements) == "local"
    ensures ("environment" in requirements && IsStr(requirements["environment"], "development"))
            ==> ChooseProvider(analysis, requirements) == "local"
    ensures ChooseProvider(analysis, requirements) == "kubernetes" <==>
              && !IsStr(Budget(requirements), "low")
              && !("environment" in requirements && IsStr(requirements["environment"], "development"))
              && "docker_ready" in analysis && Truthy(analysis["docker_ready"])
              && (IsStr(Tolerance(requirements), "medium") || IsStr(Tolerance(requirements), "high"))
              && IsStr(Availability(requirements), "high")
  {
  }

  /** The recommendation, without its confidence score. */
  datatype Recommendation = Recommendation(strategy: string, provider: string, strategyDetails: StrategyInfo,
                                           providerDetails: ProviderInfo, reasoning: seq<string>)

  /** `recommend_deployment_strategy`: the two detail lookups never miss. */
  function Recommend(analysis: map<string, Json>, requirements: map<string, Json>): (r: Recommendation)
    ensures r.strategy in Strategies() && r.strategyDetails == Strategies()[r.strategy]
    ensures r.provider in Providers() && r.providerDetails == Providers()[r.provider]
    ensures r.reasoning == Reasoning(analysis, r.strategy, r.provider)
  {
    var strategy := ChooseStrategy(analysis, requirements);
    var provider := ChooseProvider(analysis, requirements);
    Recommendation(strategy, provider, Strategies()[strategy], Providers()[provider],
                   Reasoning(analysis, strategy, provider))
  }

  // ---------------------------------------------------------------------------------------------
  // _generate_reasoning
  // ---------------------------------------------------------------------------------------------

  function StrategyLine(strategy: string): Option<string> {
    if strategy == "simple" then Some("Estrategia simple recomendada para aplicación de baja complejidad")
    else if strategy == "blue_green" then Some("Estrategia blue-green para garantizar alta disponibilidad")
    else if strategy == "canary" then Some("Estrategia canary para despliegue gradual y testing en producción")
    else if strategy == "rolling" then Some("Estrategia rolling para aplicaciones distribuidas")
    else None
  }

  function ProviderLine(provider: string): Option<string> {
    if provider == "local" then Some("Despliegue local para desarrollo y testing")
    else if provider == "docker" then Some("Docker para portabilidad y aislamiento")
    else if provider == "kubernetes" then Some("Kubernetes para alta escalabilidad y disponibilidad")
    else None
  }

  const DatabaseLine := "Base de datos detectada - configuración de persistencia requerida"
  const StaticLine := "Archivos estáticos detectados - configuración de servidor web"
  const DockerLine := "Dockerfile encontrado - aplicación lista para contenedorización"

  function OptLine(line: Option<string>): seq<string> {
    if line.Some? then [line.value] else []
  }

  /** `analysis.get(key)` tested for truth. */
  predicate Flag(analysis: map<string, Json>, key: string) {
    key in analysis && Truthy(analysis[key])
  }

  function FlagLine(analysis: map<string, Json>, key: string, line: string): seq<string> {
    if Flag(analysis, key) then [line] else []
  }

  /** The three flag lines, in the order they are added. */
  function FlagLines(analysis: map<string, Json>): seq<string> {
    FlagLine(analysis, "database_required", DatabaseLine)
    + FlagLine(analysis, "static_files", StaticLine)
    + FlagLine(analysis, "docker_ready", DockerLine)
  }

  /** `_generate_reasoning`: one line per strategy and provider, then one per true analysis flag. */
  function Reasoning(analysis: map<string, Json>, strategy: string, provider: string): (r: seq<string>)
    ensures |r| <= 5
    ensures |FlagLines(analysis)| <= |r| && r[|r| - |FlagLines(analysis)|..] == FlagLines(analysis)
  {
    OptLine(StrategyLine(strategy)) + OptLine(ProviderLine(provider)) + FlagLines(analysis)
  }

  function B2N(b: bool): nat {
    if b then 1 else 0
  }

  lemma TableEntriesHaveLines(strategy: string, provider: string)
    requires strategy in Strategies() && provider in Providers()
    ensures StrategyLine(strategy).Some? && ProviderLine(provider).Some?
  {
  }

  lemma FlagLinesCount(analysis: map<string, Json>)
    ensures |FlagLines(analysis)| == B2N(Flag(analysis, "database_required")) + B2N(Flag(analysis, "static_files"))
                                     + B2N(Flag(analysis, "docker_ready"))
  {
  }

  /** For a table strategy and provider the reasoning has the strategy line, then the provider line, then
      exactly one line for each true flag among database, static files and Docker readiness, in that order. */
  lemma ReasoningShape(analysis: map<string, Json>, strategy: string, provider: string)
    requires strategy in Strategies() && provider in Providers()
    ensures var r := Reasoning(analysis, strategy, provider);
            && |r| == 2 + B2N(Flag(analysis, "database_required")) + B2N(Flag(analysis, "static_files"))
                        + B2N(Flag(analysis, "docker_ready"))
            && r[0] == StrategyLine(strategy).value && r[1] == ProviderLine(provider).value
            && r[2..] == FlagLines(analysis)
  {
    TableEntriesHaveLines(strategy, provider);
    ReasoningDecomposes(analysis, strategy, provider);
    FlagLinesCount(analysis);
  }

  lemma ReasoningDecomposes(analysis: map<string, Json>, strategy: string, provider: string)
    requires StrategyLine(strategy).Some? && ProviderLine(provider).Some?
    ensures Reasoning(analysis, strategy, provider)
            == [StrategyLine(strategy).value, ProviderLine(provider).value] + FlagLines(analysis)
  {
    assert OptLine(StrategyLine(strategy)) == [StrategyLine(strategy).value];
    assert OptLine(ProviderLine(provider)) == [ProviderLine(provider).value];
  }

  // ---------------------------------------------------------------------------------------------
  // analyze_application: database detection and complexity
  // ---------------------------------------------------------------------------------------------

  const DbIndicators: seq<string> := ["sqlite", "postgresql", "mysql", "mongodb", "database"]

  /** Some indicator occurs in the lowercased dependency. */
  predicate MentionsDatabase(dep: string) {
    ContainsAny(Lower(dep), DbIndicators)
  }

  /** `database_required`: some dependency mentions some indicator. */
  function DatabaseRequired(deps: seq<string>): (r: bool)
    ensures r <==> exists i :: 0 <= i < |deps| && MentionsDatabase(deps[i])
  {
    if |deps| == 0 then false
    else
      var rest := DatabaseRequired(deps[1..]);
      assert rest <==> exists i :: 1 <= i < |deps| && MentionsDatabase(deps[i]) by {
        if rest {
          var i :| 0 <= i < |deps[1..]| && MentionsDatabase(deps[1..][i]);
          assert deps[i + 1] == deps[1..][i];
        }
        forall i | 1 <= i < |deps| && MentionsDatabase(deps[i]) ensures rest {
          assert deps[1..][i - 1] == deps[i];
        }
      }
      MentionsDatabase(deps[0]) || rest
  }

  /** Matching ignores case: a dependency named in capitals is detected as well. */
  lemma DatabaseDetectionIgnoresCase(dep: string)
    requires Contains(dep, "MySQL")
    ensures DatabaseRequired([dep])
  {
    ContainsIff(dep, "MySQL");
    var i: nat :| OccursAt(dep, "MySQL", i);
    var low := Lower(dep);
    assert low[i..i + 5] == "mysql" by {
      forall m | 0 <= m < 5 ensures low[i + m] == "mysql"[m] {
        assert dep[i + m] == "MySQL"[m];
      }
    }
    assert OccursAt(low, "mysql", i);
    ContainsIff(low, "mysql");
    assert DbIndicators[2] == "mysql";
    ContainsAnyIff(low, DbIndicators);
    assert MentionsDatabase(dep);
    assert [dep][0] == dep;
  }

  datatype Complexity = Low | Medium | High

  function ComplexityScore(databaseRequired: bool, dependencyCount: nat, staticFiles: bool): nat {
    2 * B2N(databaseRequired) + B2N(dependencyCount > 10) + B2N(staticFiles)
  }

  function ComplexityLevel(score: nat): Complexity {
    if score >= 3 then High else if score >= 1 then Medium else Low
  }

  /** The level in terms of the analysis: high exactly when a database comes with many dependencies or
      static files, low exactly when none of the three is present. */
  lemma ComplexityCharacterised(databaseRequired: bool, dependencyCount: nat, staticFiles: bool)
    ensures var level := ComplexityLevel(ComplexityScore(databaseRequired, dependencyCount, staticFiles));
            && (level == High <==> databaseRequired && (dependencyCount > 10 || staticFiles))
            && (level == Low <==> !databaseRequired && dependencyCount <= 10 && !staticFiles)
            && (level == Medium <==> (databaseRequired && dependencyCount <= 10 && !staticFiles)
                                     || (!databaseRequired && (dependencyCount > 10 || staticFiles)))
  {
  }

  /** The part of an analysis the model computes. */
  datatype Analysis = Analysis(appType: Json, framework: Option<string>, dependencies: seq<string>,
                               databaseRequired: bool, staticFiles: bool, dockerReady: bool,
                               complexity: Complexity)

  /** `analyze_application` once the directory listing, the dependency list and the existence of a static
      directory are known. */
  function Analyze(appType: Json, files: set<string>, dependencies: seq<string>, staticDirExists: bool): (a: Analysis)
    ensures a.appType == appType && a.dependencies == dependencies
    ensures a.databaseRequired == DatabaseRequired(dependencies)
    ensures a.complexity == High <==> a.databaseRequired && (|dependencies| > 10 || staticDirExists)
    ensures a.dockerReady <==> "Dockerfile" in files
  {
    var framework :=
      if "app.py" in files || "main.py" in files then Some("flask")
      else if "package.json" in files then Some("nodejs")
      else if "index.html" in files then Some("static")
      else None;
    var db := DatabaseRequired(dependencies);
    ComplexityCharacterised(db, |dependencies|, staticDirExists);
    Analysis(appType, framework, dependencies, db, staticDirExists, "Dockerfile" in files,
             ComplexityLevel(ComplexityScore(db, |dependencies|, staticDirExists)))
  }

  function ComplexityName(c: Complexity): string {
    match c
    case Low => "low"
    case Medium => "medium"
    case High => "high"
  }

  /** The analysis as the dictionary `recommend_deployment_strategy` receives (its `path` left out). */
  function AsJson(a: Analysis): map<string, Json> {
    map["type" := a.appType,
        "framework" := (if a.framework.Some? then JStr(a.framework.value) else JNull),
        "dependencies" := JOther(a.dependencies != []),
        "database_required" := JBool(a.databaseRequired),
        "static_files" := JBool(a.staticFiles),
        "docker_ready" := JBool(a.dockerReady),
        "complexity" := JStr(ComplexityName(a.complexity))]
  }

  /** For an analysis without a type (what the analyser produces when none is given) and requirements
      without high availability, the recommended strategy is `rolling` exactly for high complexity and
      `simple` otherwise, and the reasoning mentions the Dockerfile exactly when there is one. */
  lemma UntypedRecommendation(a: Analysis, requirements: map<string, Json>)
    requires a.appType == JNull && !IsStr(Availability(requirements), "high")
    ensures var r := Recommend(AsJson(a), requirements);
            && (r.strategy == "rolling" <==> a.complexity == High)
            && (r.strategy != "rolling" ==> r.strategy == "simple")
            && (Flag(AsJson(a), "docker_ready") <==> a.dockerReady)
  {
    var m := AsJson(a);
    AsJsonLookups(a);
    UntypedStrategy(m, requirements);
    assert Recommend(m, requirements).strategy == ChooseStrategy(m, requirements);
  }

  /** Without a type and without high availability the strategy is `rolling` or `simple`, by complexity. */
  lemma UntypedStrategy(analysis: map<string, Json>, requirements: map<string, Json>)
    requires "type" in analysis && analysis["type"] == JNull && !IsStr(Availability(requirements), "high")
    ensures ChooseStrategy(analysis, requirements)
            == if "complexity" in analysis && IsStr(analysis["complexity"], "high") then "rolling" else "simple"
  {
    WithoutHighAvailability(analysis, requirements);
  }

  lemma AsJsonLookups(a: Analysis)
    ensures "type" in AsJson(a) && AsJson(a)["type"] == a.appType
    ensures "complexity" in AsJson(a) && (IsStr(AsJson(a)["complexity"], "high") <==> a.complexity == High)
    ensures Flag(AsJson(a), "docker_ready") <==> a.dockerReady
  {
    var m := AsJson(a);
    assert m["complexity"] == JStr(ComplexityName(a.complexity));
    assert m["docker_ready"] == JBool(a.dockerReady);
  }

  // ---------------------------------------------------------------------------------------------
  // DeploymentExecutor
  // ---------------------------------------------------------------------------------------------

  /** The parts of a deployment configuration the executor reads. `None` means the lookup raises (the key,
      or an enclosing dictionary, is missing). */
  datatype DeploymentConfig = DeploymentConfig(
    deploymentId: Option<Json>, provider: Option<Json>, strategy: Option<Json>,
    port: Option<Json>,        // config['networking']['port']
    appName: Option<Json>,     // config['application']['name']
    replicas: Option<Json>)    // config['resources']['replicas']

  datatype StepStatus = StepSuccess | StepError

  datatype Step = Step(name: string, status: StepStatus)

  datatype ExecStatus = Completed | Failed | Errored

  datatype ExecutionRecord = ExecutionRecord(deploymentId: Json, provider: Json, strategy: Json,
                                             status: ExecStatus, steps: seq<Step>)

  /** The simulated steps of a provider; `None` when building them raises on a missing value. */
  function ProviderSteps(config: DeploymentConfig, provider: Json): (r: Option<seq<Step>>)
    ensures r.None? ==> IsStr(provider, "local") || IsStr(provider, "docker") || IsStr(provider, "kubernetes")
    ensures r.Some? && !AllSucceeded(r.value)
            <==> !(IsStr(provider, "local") || IsStr(provider, "docker") || IsStr(provider, "kubernetes"))
  {
    if IsStr(provider, "local") then
      if config.port.None? then None
      else Some([Step("Verificar aplicación local", StepSuccess), Step("Configurar entorno", StepSuccess),
                 Step("Iniciar aplicación", StepSuccess)])
    else if IsStr(provider, "docker") then
      if config.appName.None? || config.port.None? then None
      else Some([Step("Generar Dockerfile", StepSuccess), Step("Construir imagen Docker", StepSuccess),
                 Step("Ejecutar contenedor", StepSuccess), Step("Verificar salud del contenedor", StepSuccess)])
    else if IsStr(provider, "kubernetes") then
      if config.replicas.None? then None
      else Some([Step("Generar manifiestos Kubernetes", StepSuccess), Step("Aplicar Deployment", StepSuccess),
                 Step("Aplicar Service", StepSuccess), Step("Verificar pods", StepSuccess),
                 Step("Verificar servicio", StepSuccess)])
    else
      var steps := [Step("Proveedor no soportado", StepError)];
      assert steps[0].status != StepSuccess;
      Some(steps)
  }

  predicate AllSucceeded(steps: seq<Step>) {
    forall i :: 0 <= i < |steps| ==> steps[i].status == StepSuccess
  }

  /** The record `execute_deployment` appends, once the three top-level keys are present. */
  function ExecutionOutcome(config: DeploymentConfig): (r: ExecutionRecord)
    requires config.deploymentId.Some? && config.provider.Some? && config.strategy.Some?
    ensures r.status == Errored <==> ProviderSteps(config, config.provider.value).None?
    ensures r.status == Completed <==> r.status != Errored && AllSucceeded(r.steps)
    ensures r.status == Errored ==> r.steps == []
  {
    var steps := ProviderSteps(config, config.provider.value);
    var status := if steps.None? then Errored else if AllSucceeded(steps.value) then Completed else Failed;
    ExecutionRecord(config.deploymentId.value, config.provider.value, config.strategy.value, status,
                    if steps.None? then [] else steps.value)
  }

  /** A provider outside the three known ones yields one error step and a failed deployment; a known one
      whose values are present completes. */
  lemma ProviderDecidesStatus(config: DeploymentConfig)
    requires config.deploymentId.Some? && config.provider.Some? && config.strategy.Some?
    ensures var p := config.provider.value;
            var r := ExecutionOutcome(config);
            && (!IsStr(p, "local") && !IsStr(p, "docker") && !IsStr(p, "kubernetes") ==>
                  r.status == Failed && r.steps == [Step("Proveedor no soportado", StepError)])
            && (r.status != Errored && (IsStr(p, "local") || IsStr(p, "docker") || IsStr(p, "kubernetes")) ==>
                  r.status == Completed)
  {
    var p := config.provider.value;
    var r := ExecutionOutcome(config);
    if !IsStr(p, "local") && !IsStr(p, "docker") && !IsStr(p, "kubernetes") {
      assert !AllSucceeded(r.steps) by {
        assert r.steps[0].status == StepError;
      }
    }
  }

  class DeploymentExecutor {
    var executionHistory: seq<ExecutionRecord>

    constructor ()
      ensures executionHistory == []
    {
      executionHistory := [];
    }

    /** `execute_deployment`: a missing top-level key raises before the record exists and nothing is
        recorded; otherwise exactly one record is appended, also when building the steps raises. */
    method ExecuteDeployment(config: DeploymentConfig) returns (result: Option<ExecutionRecord>)
      modifies this
      ensures config.deploymentId.None? || config.provider.None? || config.strategy.None? ==>
                result.None? && executionHistory == old(executionHistory)
      ensures config.deploymentId.Some? && config.provider.Some? && config.strategy.Some? ==>
                result == Some(ExecutionOutcome(config))
                && executionHistory == old(executionHistory) + [ExecutionOutcome(config)]
    {
      if config.deploymentId.None? || config.provider.None? || config.strategy.None? {
        return None;
      }
      var record := ExecutionRecord(config.deploymentId.value, config.provider.value, config.strategy.value,
                                    Errored, []);
      var steps := ProviderSteps(config, config.provider.value);
      if steps.Some? {
        var status := if AllSucceeded(steps.value) then Completed else Failed;
        record := record.(steps := steps.value, status := status);
      }
      executionHistory := executionHistory + [record];
      result := Some(record);
    }
  }
}
