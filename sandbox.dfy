/** The code sandbox: the language registry, the `/execute` request screening (validation and the
    dangerous-pattern prefilter), the dispatch to the container or the process backend, the shape of the
    result each backend returns, and the temporary-file and watchdog-timer bookkeeping on every exit path.
    What a process or a container actually does is an input: a `ProcessOutcome` or a `ContainerOutcome`. */
module Sandbox {
  import opened Common
  import opened Text

  // ---------------------------------------------------------------------------------------------
  // Language registry
  // ---------------------------------------------------------------------------------------------

  /** One row of the registry: source-file suffix, interpreter command, timeout (seconds), memory cap. */
  datatype LanguageSpec = LanguageSpec(extension: string, command: seq<string>, timeout: nat, memoryLimit: string)

  /** The registry keys in declaration order, which is the order `list(...keys())` reports them in. */
  const LanguageKeys: seq<string> := ["python", "javascript", "bash"]

  function Registry(): map<string, LanguageSpec> {
    map[
      "python" := LanguageSpec(".py", ["python3"], 30, "128m"),
      "javascript" := LanguageSpec(".js", ["node"], 30, "128m"),
      "bash" := LanguageSpec(".sh", ["bash"], 15, "64m")
    ]
  }

  /** Exact-key lookup; a missing key is reported, never replaced by a default entry. */
  function Lookup(language: string): (r: Option<LanguageSpec>)
    ensures r.Some? <==> language in LanguageKeys
    ensures r.Some? ==> language in Registry() && r.value == Registry()[language]
  {
    if language in Registry() then Some(Registry()[language]) else None
  }

  /** The registry holds exactly three languages, with these timeouts and memory caps. */
  lemma RegistryContents()
    ensures Registry().Keys == {"python", "javascript", "bash"}
    ensures Registry()["python"].timeout == 30 && Registry()["python"].memoryLimit == "128m"
    ensures Registry()["javascript"].timeout == 30 && Registry()["javascript"].memoryLimit == "128m"
    ensures Registry()["bash"].timeout == 15 && Registry()["bash"].memoryLimit == "64m"
    ensures forall l :: l in Registry() <==> l in LanguageKeys
  {
  }

  // ---------------------------------------------------------------------------------------------
  // Result shape
  // ---------------------------------------------------------------------------------------------

  /** Whether a result has an `execution_time` key, and whether its value is `None`. */
  datatype Timing = NoTimingKey | TimeNotMeasured | TimeMeasured

  /** The result dictionary; `None` in a field means the key is absent. */
  datatype ExecutionResult = ExecutionResult(
    success: bool,
    output: Option<string>,
    exitCode: Option<int>,
    timing: Timing,
    language: Option<string>,
    error: Option<string>,
    supportedLanguages: Option<seq<string>>)

  const StderrDelimiter: string := "\n--- STDERR ---\n"

  function UnsupportedResult(language: string): ExecutionResult {
    ExecutionResult(false, None, None, NoTimingKey, None,
                    Some("Lenguaje no soportado: " + language), Some(LanguageKeys))
  }

  /** stdout, followed by the delimiter and stderr only when stderr is non-empty. */
  function CombineOutput(stdout: string, stderr: string): (r: string)
    ensures stdout <= r
    ensures stderr == [] ==> r == stdout
    ensures stderr != [] ==> (|r| == |stdout| + |StderrDelimiter| + |stderr|
                              && r[|stdout|..|stdout| + |StderrDelimiter|] == StderrDelimiter
                              && r[|stdout| + |StderrDelimiter|..] == stderr)
  {
    if stderr == [] then stdout else stdout + StderrDelimiter + stderr
  }

  function CompletedResult(language: string, returncode: int, stdout: string, stderr: string): ExecutionResult {
    ExecutionResult(returncode == 0, Some(CombineOutput(stdout, stderr)), Some(returncode), TimeMeasured,
                    Some(language), None, None)
  }

  function TimeoutResult(language: string, timeout: nat): ExecutionResult {
    ExecutionResult(false, None, None, NoTimingKey, Some(language),
                    Some("Timeout: El código tardó más de " + NatToString(timeout) + " segundos"), None)
  }

  function ProcessErrorResult(language: string, reason: string): ExecutionResult {
    ExecutionResult(false, None, None, NoTimingKey, Some(language), Some("Error en ejecución: " + reason), None)
  }

  function ContainerFinishedResult(language: string, statusCode: int, logs: string): ExecutionResult {
    ExecutionResult(statusCode == 0, Some(logs), Some(statusCode), TimeNotMeasured, Some(language), None, None)
  }

  function ContainerErrorResult(language: string, reason: string): ExecutionResult {
    ExecutionResult(false, Some(reason), None, NoTimingKey, Some(language),
                    Some("Error en ejecución del contenedor"), None)
  }

  function DockerErrorResult(language: string, reason: string): ExecutionResult {
    ExecutionResult(false, None, None, NoTimingKey, Some(language), Some("Error en Docker: " + reason), None)
  }

  // ---------------------------------------------------------------------------------------------
  // Backend outcomes (what the operating system or the container runtime did)
  // ---------------------------------------------------------------------------------------------

  /** How a run on the process backend ended. */
  datatype ProcessOutcome =
    | WriteFails(writeError: string)          // writing the code into the new temporary file raises
    | SpawnFails(spawnError: string)          // starting the interpreter raises
    | Exited(returncode: int, stdout: string, stderr: string)
    | TimedOut                                // waiting for the process exceeds the language timeout
    | CommunicateFails(ioError: string)       // waiting for the process raises anything else

  /** How a run on the container backend ended. */
  datatype ContainerOutcome =
    | ClientFails(clientError: string)        // connecting to the container runtime raises
    | ContainerWriteFails(writeError: string) // writing the code into the new temporary file raises
    | RunFails(runError: string)              // starting the container (or feeding its input) raises
    | Finished(statusCode: int, logs: string)
    | ContainerFails(containerError: string)  // the runtime reports a container error while waiting
    | WaitFails(waitError: string)            // waiting raises anything else, a timeout included

  /** The result the process backend returns for each outcome. */
  function SubprocessResult(language: string, spec: LanguageSpec, o: ProcessOutcome): (r: ExecutionResult)
    ensures r.success <==> o.Exited? && o.returncode == 0
    ensures r.exitCode.Some? <==> o.Exited?
    ensures r.error.None? <==> o.Exited?
    ensures r.language == Some(language) && r.supportedLanguages.None?
  {
    match o
    case WriteFails(e) => ProcessErrorResult(language, e)
    case SpawnFails(e) => ProcessErrorResult(language, e)
    case Exited(rc, out, err) => CompletedResult(language, rc, out, err)
    case TimedOut => TimeoutResult(language, spec.timeout)
    case CommunicateFails(e) => ProcessErrorResult(language, e)
  }

  /** The result the container backend returns for each outcome. */
  function ContainerResult(language: string, o: ContainerOutcome): (r: ExecutionResult)
    ensures r.success <==> o.Finished? && o.statusCode == 0
    ensures r.exitCode.Some? <==> o.Finished?
    ensures r.output.Some? <==> o.Finished? || o.ContainerFails?
    ensures r.language == Some(language) && r.supportedLanguages.None?
  {
    match o
    case ClientFails(e) => DockerErrorResult(language, e)
    case ContainerWriteFails(e) => DockerErrorResult(language, e)
    case RunFails(e) => DockerErrorResult(language, e)
    case Finished(code, logs) => ContainerFinishedResult(language, code, logs)
    case ContainerFails(e) => ContainerErrorResult(language, e)
    case WaitFails(e) => DockerErrorResult(language, e)
  }

  /** What `execute_code` returns: an unknown language is answered without touching a backend; otherwise
      the backend is the one the once-computed `dockerAvailable` flag selects. */
  function ExecuteCodeResult(dockerAvailable: bool, language: string, proc: ProcessOutcome,
                             cont: ContainerOutcome): (r: ExecutionResult)
    ensures language !in LanguageKeys ==> r == UnsupportedResult(language)
    ensures language in LanguageKeys ==> r.language == Some(language) && r.supportedLanguages.None?
    ensures r.success ==> language in LanguageKeys
                          && if dockerAvailable then cont.Finished? && cont.statusCode == 0
                             else proc.Exited? && proc.returncode == 0
  {
    match Lookup(language)
    case None => UnsupportedResult(language)
    case Some(spec) =>
      if dockerAvailable then ContainerResult(language, cont) else SubprocessResult(language, spec, proc)
  }

  /** An unknown language yields a failed result that lists exactly the registry's keys. */
  lemma UnsupportedLanguageRejected(docker: bool, language: string, proc: ProcessOutcome, cont: ContainerOutcome)
    requires language !in LanguageKeys
    ensures var r := ExecuteCodeResult(docker, language, proc, cont);
            !r.success && r.error.Some? && r.supportedLanguages == Some(LanguageKeys)
            && r.exitCode.None? && r.output.None?
  {
  }

  /** A process that exits: `success` iff the return code is 0, the code is echoed, and the output is stdout
      followed by the delimited stderr exactly when stderr is non-empty. */
  lemma ExitedProcessResult(language: string, spec: LanguageSpec, rc: int, stdout: string, stderr: string)
    ensures var r := SubprocessResult(language, spec, Exited(rc, stdout, stderr));
            (r.success <==> rc == 0) && r.exitCode == Some(rc) && r.timing == TimeMeasured
            && r.output.Some? && stdout <= r.output.value
            && (r.output.value == stdout <==> stderr == [])
            && r.language == Some(language)
  {
    var out := CombineOutput(stdout, stderr);
    if stderr != [] {
      assert |out| > |stdout|;
    }
  }

  /** A timeout is a failure with a timeout message and without an `exit_code` key. */
  lemma TimeoutResultShape(language: string, spec: LanguageSpec)
    ensures var r := SubprocessResult(language, spec, TimedOut);
            !r.success && r.exitCode.None? && r.output.None? && r.error.Some?
            && "Timeout: " <= r.error.value
  {
  }

  /** The container path reports `execution_time` as `None` and `success` iff the status code is 0. */
  lemma ContainerFinishedShape(language: string, statusCode: int, logs: string)
    ensures var r := ContainerResult(language, Finished(statusCode, logs));
            (r.success <==> statusCode == 0) && r.exitCode == Some(statusCode)
            && r.timing == TimeNotMeasured && r.output == Some(logs)
  {
  }

  /** Whatever happens, a result claims success only when an exit status of 0 was observed. */
  lemma SuccessMeansExitZero(docker: bool, language: string, proc: ProcessOutcome, cont: ContainerOutcome)
    ensures var r := ExecuteCodeResult(docker, language, proc, cont);
            r.success ==> r.exitCode == Some(0) && r.error.None?
  {
    match Lookup(language)
    case None =>
    case Some(spec) =>
      if docker {
        match cont
        case Finished(code, logs) =>
        case _ =>
      } else {
        match proc
        case Exited(rc, out, err) =>
        case _ =>
      }
  }

  // ---------------------------------------------------------------------------------------------
  // The sandbox object: temporary files, watchdog timers and backend dispatch
  // ---------------------------------------------------------------------------------------------

  datatype Backend = ContainerBackend | ProcessBackend

  class CodeSandbox {
    /** Whether the container runtime answered the probe made once, at construction. */
    const dockerAvailable: bool
    /** Temporary source files that exist on disk (named by number). */
    var tempFiles: set<nat>
    /** Every name below this one has been handed out; the operating system never reuses a live name. */
    var nextTemp: nat
    /** Watchdog timers that have been started and not cancelled. */
    var armedTimers: nat
    /** The backend each call reached, in call order. */
    var backendRuns: seq<Backend>

    ghost predicate Valid()
      reads this
    {
      forall f :: f in tempFiles ==> f < nextTemp
    }

    constructor (dockerReachable: bool)
      ensures Valid()
      ensures dockerAvailable == dockerReachable
      ensures tempFiles == {} && armedTimers == 0 && backendRuns == []
    {
      dockerAvailable := dockerReachable;
      tempFiles := {};
      nextTemp := 0;
      armedTimers := 0;
      backendRuns := [];
    }

    /** Creates a new, uniquely named temporary file. */
    method CreateTempFile() returns (path: nat)
      requires Valid()
      modifies this`tempFiles, this`nextTemp
      ensures Valid()
      ensures path !in old(tempFiles) && tempFiles == old(tempFiles) + {path}
    {
      path := nextTemp;
      tempFiles := tempFiles + {path};
      nextTemp := nextTemp + 1;
    }

    /** Removes a temporary file. */
    method Unlink(path: nat)
      requires Valid()
      modifies this`tempFiles
      ensures Valid()
      ensures tempFiles == old(tempFiles) - {path}
    {
      tempFiles := tempFiles - {path};
    }

    /** The part of the process backend after the source file is written: start the interpreter, arm the
        watchdog, wait, shape the result, and cancel the watchdog however the wait ends. */
    method RunProcess(language: string, spec: LanguageSpec, outcome: ProcessOutcome) returns (r: ExecutionResult)
      requires !outcome.WriteFails?
      modifies this`armedTimers
      ensures armedTimers == old(armedTimers)
      ensures r == SubprocessResult(language, spec, outcome)
    {
      if outcome.SpawnFails? {
        r := ProcessErrorResult(language, outcome.spawnError);
        return;
      }
      armedTimers := armedTimers + 1;
      match outcome {
        case Exited(rc, stdout, stderr) =>
          var output := stdout;
          if stderr != [] {
            output := output + StderrDelimiter + stderr;
          }
          r := ExecutionResult(rc == 0, Some(output), Some(rc), TimeMeasured, Some(language), None, None);
        case TimedOut =>
          r := TimeoutResult(language, spec.timeout);
        case CommunicateFails(e) =>
          r := ProcessErrorResult(language, e);
      }
      armedTimers := armedTimers - 1;
    }

    /** The process backend. The temporary file is removed on every path, the failed write included. */
    method ExecuteWithSubprocess(code: string, language: string, input: Json, spec: LanguageSpec,
                                 outcome: ProcessOutcome) returns (r: ExecutionResult)
      requires Valid()
      modifies this`tempFiles, this`nextTemp, this`armedTimers, this`backendRuns
      ensures Valid()
      ensures r == SubprocessResult(language, spec, outcome)
      ensures tempFiles == old(tempFiles) && armedTimers == old(armedTimers)
      ensures backendRuns == old(backendRuns) + [ProcessBackend]
    {
      backendRuns := backendRuns + [ProcessBackend];
      var path := CreateTempFile();
      if outcome.WriteFails? {
        Unlink(path);
        r := ProcessErrorResult(language, outcome.writeError);
        return;
      }
      r := RunProcess(language, spec, outcome);
      Unlink(path);
    }

    /** The process backend as the source writes it: the file is created before the block whose exit
        removes it, so a failed write leaves it behind. */
    method ExecuteWithSubprocessAsWritten(code: string, language: string, input: Json, spec: LanguageSpec,
                                          outcome: ProcessOutcome) returns (r: ExecutionResult, path: nat)
      requires Valid()
      modifies this`tempFiles, this`nextTemp, this`armedTimers, this`backendRuns
      ensures Valid()
      ensures r == SubprocessResult(language, spec, outcome)
      ensures armedTimers == old(armedTimers)
      ensures outcome.WriteFails? ==> path !in old(tempFiles) && tempFiles == old(tempFiles) + {path}
      ensures !outcome.WriteFails? ==> tempFiles == old(tempFiles)
    {
      backendRuns := backendRuns + [ProcessBackend];
      path := CreateTempFile();
      if outcome.WriteFails? {
        r := ProcessErrorResult(language, outcome.writeError);
        return;
      }
      r := RunProcess(language, spec, outcome);
      Unlink(path);
    }

    /** The container backend. The temporary file, once created, is removed on every path. */
    method ExecuteWithDocker(code: string, language: string, input: Json, spec: LanguageSpec,
                             outcome: ContainerOutcome) returns (r: ExecutionResult)
      requires Valid()
      modifies this`tempFiles, this`nextTemp, this`backendRuns
      ensures Valid()
      ensures r == ContainerResult(language, outcome)
      ensures tempFiles == old(tempFiles)
      ensures backendRuns == old(backendRuns) + [ContainerBackend]
    {
      backendRuns := backendRuns + [ContainerBackend];
      if outcome.ClientFails? {
        r := DockerErrorResult(language, outcome.clientError);
        return;
      }
      var path := CreateTempFile();
      if outcome.ContainerWriteFails? {
        Unlink(path);
        r := DockerErrorResult(language, outcome.writeError);
        return;
      }
      r := RunContainer(language, outcome);
      Unlink(path);
    }

    /** The container backend as the source writes it: a failed write leaves the file behind. */
    method ExecuteWithDockerAsWritten(code: string, language: string, input: Json, spec: LanguageSpec,
                                      outcome: ContainerOutcome) returns (r: ExecutionResult, path: Option<nat>)
      requires Valid()
      modifies this`tempFiles, this`nextTemp, this`backendRuns
      ensures Valid()
      ensures r == ContainerResult(language, outcome)
      ensures outcome.ContainerWriteFails? ==> (path.Some? && path.value !in old(tempFiles)
                                                && tempFiles == old(tempFiles) + {path.value})
      ensures !outcome.ContainerWriteFails? ==> tempFiles == old(tempFiles)
    {
      backendRuns := backendRuns + [ContainerBackend];
      path := None;
      if outcome.ClientFails? {
        r := DockerErrorResult(language, outcome.clientError);
        return;
      }
      var p := CreateTempFile();
      path := Some(p);
      if outcome.ContainerWriteFails? {
        r := DockerErrorResult(language, outcome.writeError);
        return;
      }
      r := RunContainer(language, outcome);
      Unlink(p);
    }

    /** Start the container, wait for it and shape its result. */
    static method RunContainer(language: string, outcome: ContainerOutcome) returns (r: ExecutionResult)
      requires !outcome.ClientFails? && !outcome.ContainerWriteFails?
      ensures r == ContainerResult(language, outcome)
    {
      match outcome {
        case RunFails(e) => r := DockerErrorResult(language, e);
        case Finished(code, logs) =>
          r := ExecutionResult(code == 0, Some(logs), Some(code), TimeNotMeasured, Some(language), None, None);
        case ContainerFails(e) => r := ContainerErrorResult(language, e);
        case WaitFails(e) => r := DockerErrorResult(language, e);
      }
    }

    /** `execute_code`: the support check, then the backend the `dockerAvailable` flag selects.
        No temporary file and no armed timer survives the call. */
    method ExecuteCode(code: string, language: string, input: Json, proc: ProcessOutcome,
                       cont: ContainerOutcome) returns (r: ExecutionResult)
      requires Valid()
      modifies this`tempFiles, this`nextTemp, this`armedTimers, this`backendRuns
      ensures Valid()
      ensures r == ExecuteCodeResult(dockerAvailable, language, proc, cont)
      ensures tempFiles == old(tempFiles) && armedTimers == old(armedTimers)
      ensures language !in LanguageKeys ==> backendRuns == old(backendRuns)
      ensures language in LanguageKeys ==>
                backendRuns == old(backendRuns) + [if dockerAvailable then ContainerBackend else ProcessBackend]
    {
      var spec := Lookup(language);
      if spec.None? {
        r := UnsupportedResult(language);
        return;
      }
      if dockerAvailable {
        r := ExecuteWithDocker(code, language, input, spec.value, cont);
      } else {
        r := ExecuteWithSubprocess(code, language, input, spec.value, proc);
      }
    }

    /** `execute_code` over the backends as written: the same result, but a failed write on the selected
        backend leaves exactly one new temporary file. */
    method ExecuteCodeAsWritten(code: string, language: string, input: Json, proc: ProcessOutcome,
                                cont: ContainerOutcome) returns (r: ExecutionResult)
      requires Valid()
      modifies this`tempFiles, this`nextTemp, this`armedTimers, this`backendRuns
      ensures Valid()
      ensures r == ExecuteCodeResult(dockerAvailable, language, proc, cont)
      ensures armedTimers == old(armedTimers)
      ensures WriteLeaks(dockerAvailable, language, proc, cont) ==>
                exists f :: f !in old(tempFiles) && tempFiles == old(tempFiles) + {f}
      ensures !WriteLeaks(dockerAvailable, language, proc, cont) ==> tempFiles == old(tempFiles)
    {
      var spec := Lookup(language);
      if spec.None? {
        r := UnsupportedResult(language);
        return;
      }
      if dockerAvailable {
        var path;
        r, path := ExecuteWithDockerAsWritten(code, language, input, spec.value, cont);
      } else {
        var path;
        r, path := ExecuteWithSubprocessAsWritten(code, language, input, spec.value, proc);
      }
    }
  }

  /** Whether `execute_code` as written leaves a temporary file behind: the language is supported and
      writing the code fails on the backend the flag selects. */
  predicate WriteLeaks(dockerAvailable: bool, language: string, proc: ProcessOutcome, cont: ContainerOutcome) {
    language in LanguageKeys && (if dockerAvailable then cont.ContainerWriteFails? else proc.WriteFails?)
  }

  /** A code string carrying a lone surrogate cannot be encoded into the temporary file, so the write
      fails; on the process backend as written, one temporary file is then left on disk. */
  method LeakOnFailedWrite() returns (leftOver: nat)
    ensures leftOver == 1
  {
    var sandbox := new CodeSandbox(false);
    var r, path := sandbox.ExecuteWithSubprocessAsWritten("print(1)", "python", JStr(""), Registry()["python"],
                                                          WriteFails("surrogates not allowed"));
    assert sandbox.tempFiles == {path};
    leftOver := |sandbox.tempFiles|;
  }

  // ---------------------------------------------------------------------------------------------
  // The /execute route: validation, prefilter, then execute_code
  // ---------------------------------------------------------------------------------------------

  const MaxCodeLength: nat := 10000

  /** The blocklist, in the order the route scans it. */
  const DangerousPatterns: seq<string> := [
    "import os", "import subprocess", "import sys",
    "eval(", "exec(", "__import__",
    "open(", "file(", "input(",
    "raw_input(", "compile(",
    "rm -rf", "sudo", "wget", "curl"
  ]

  /** The first pattern, in list order, that occurs in `text`. */
  function FirstMatch(patterns: seq<string>, text: string): (r: Option<string>)
    ensures r.None? <==> forall p :: p in patterns ==> !Contains(text, p)
    ensures r.Some? ==> exists i :: 0 <= i < |patterns| && patterns[i] == r.value && Contains(text, r.value)
                                   && forall j :: 0 <= j < i ==> !Contains(text, patterns[j])
  {
    if |patterns| == 0 then None
    else if Contains(text, patterns[0]) then
      assert patterns[0] in patterns;
      Some(patterns[0])
    else
      var r := FirstMatch(patterns[1..], text);
      assert forall p :: p in patterns <==> p == patterns[0] || p in patterns[1..];
      assert r.Some? ==> exists i :: 1 <= i < |patterns| && patterns[i] == r.value
                                     && forall j :: 0 <= j < i ==> !Contains(text, patterns[j]) by {
        if r.Some? {
          var i :| 0 <= i < |patterns[1..]| && patterns[1..][i] == r.value
                   && forall j :: 0 <= j < i ==> !Contains(text, patterns[1..][j]);
          assert patterns[i + 1] == r.value;
          forall j | 0 <= j < i + 1 ensures !Contains(text, patterns[j]) {
            if j > 0 { assert patterns[j] == patterns[1..][j - 1]; }
          }
        }
      }
      r
  }

  /** Why the route answers 400 before any execution. */
  datatype Rejection = NoData | EmptyCode | NoLanguage | CodeTooLong | Blocked(pattern: string)

  /** What the route does with a request body. */
  /** What the route does with a request body: refuse it with a 400, admit it, or raise while reading the
      named field, which the route answers with a 500. */
  datatype Screening =
    | Reject(reason: Rejection)
    | Admit(code: string, language: string, input: Json)
    | Raises(field: string)

  /** `data.get(key, '')` is a string: the key is missing (the default `''`) or holds a string. On any
      other value `.strip()` or `.lower()` raises. */
  predicate IsText(data: map<string, Json>, key: string) {
    key !in data || data[key].JStr?
  }

  /** The string `data.get(key, '')` yields when it is one. */
  function TextOf(data: map<string, Json>, key: string): string {
    if key in data && data[key].JStr? then data[key].s else ""
  }

  /** The `/execute` steps in the route's order: a body; reading the stripped code and the lowercased
      language, which raises on a field that is not a string; then non-empty code, a non-empty language,
      at most 10000 characters of code, and no dangerous pattern in the lowercased code. */
  function Screen(data: Option<map<string, Json>>): Screening {
    if data.None? || data.value == map[] then Reject(NoData)
    else if !IsText(data.value, "code") then Raises("code")
    else if !IsText(data.value, "language") then Raises("language")
    else
      ScreenFields(Strip(TextOf(data.value, "code")), Lower(TextOf(data.value, "language")),
                   Get(data.value, "input", JStr("")))
  }

  /** The checks on a non-empty body, given its stripped code and lowercased language. */
  function ScreenFields(code: string, language: string, input: Json): Screening {
    if code == [] then Reject(EmptyCode)
    else if language == [] then Reject(NoLanguage)
    else if |code| > MaxCodeLength then Reject(CodeTooLong)
    else
      match FirstMatch(DangerousPatterns, Lower(code))
      case Some(p) => Reject(Blocked(p))
      case None => Admit(code, language, input)
  }

  /** Reading the fields raises exactly when the code or the language is present and not a string; the code
      is read first. */
  lemma ScreenRaises(body: map<string, Json>)
    requires body != map[]
    ensures Screen(Some(body)).Raises? <==> !IsText(body, "code") || !IsText(body, "language")
    ensures Screen(Some(body)) == Raises("code") <==> !IsText(body, "code")
  {
    ScreenUnfold(body);
    ScreenChecks(body);
    ScreenFieldsOutcome(Strip(TextOf(body, "code")), Lower(TextOf(body, "language")), Get(body, "input", JStr("")));
  }

  /** Reading a field that is not text raises, the code first. */
  lemma ScreenUnfold(body: map<string, Json>)
    requires body != map[]
    ensures !IsText(body, "code") ==> Screen(Some(body)) == Raises("code")
    ensures IsText(body, "code") && !IsText(body, "language") ==> Screen(Some(body)) == Raises("language")
  {
  }

  /** When both fields are text, the checks run on the stripped code and the lowercased language. */
  lemma ScreenChecks(body: map<string, Json>)
    requires body != map[]
    ensures IsText(body, "code") && IsText(body, "language") ==>
              Screen(Some(body))
              == ScreenFields(Strip(TextOf(body, "code")), Lower(TextOf(body, "language")), Get(body, "input", JStr("")))
  {
  }

  /** The checks never raise, and each refusal happens exactly when the earlier checks pass and its own fails. */
  lemma ScreenFieldsOutcome(code: string, language: string, input: Json)
    ensures !ScreenFields(code, language, input).Raises?
    ensures ScreenFields(code, language, input) == Reject(EmptyCode) <==> code == []
    ensures ScreenFields(code, language, input) == Reject(NoLanguage) <==> code != [] && language == []
    ensures ScreenFields(code, language, input) == Reject(CodeTooLong)
            <==> code != [] && language != [] && |code| > MaxCodeLength
  {
  }

  /** A null language is a server error even when the code is empty: the field is read before any check. */
  lemma NullLanguageBeforeEmptyCode()
    ensures Screen(Some(map["code" := JStr(""), "language" := JNull])) == Raises("language")
  {
    var body := map["code" := JStr(""), "language" := JNull];
    assert IsText(body, "code") && !IsText(body, "language");
  }

  /** Empty code is refused exactly when both fields are text and the code is missing or all whitespace. */
  lemma ScreenEmptyCode(body: map<string, Json>)
    requires body != map[]
    ensures Screen(Some(body)) == Reject(EmptyCode)
            <==> IsText(body, "code") && IsText(body, "language")
                 && forall i :: 0 <= i < |TextOf(body, "code")| ==> IsSpace(TextOf(body, "code")[i])
  {
    ScreenUnfold(body);
    ScreenChecks(body);
    if IsText(body, "code") && IsText(body, "language") {
      var code := TextOf(body, "code");
      ScreenFieldsOutcome(Strip(code), Lower(TextOf(body, "language")), Get(body, "input", JStr("")));
      assert Strip(code) == [] <==> forall i :: 0 <= i < |code| ==> IsSpace(code[i]);
    }
  }

  /** A missing language is refused exactly when the code passed its check and the language is empty. */
  lemma ScreenNoLanguage(body: map<string, Json>)
    requires body != map[]
    ensures Screen(Some(body)) == Reject(NoLanguage)
            <==> IsText(body, "code") && IsText(body, "language")
                 && Strip(TextOf(body, "code")) != [] && TextOf(body, "language") == []
  {
    ScreenUnfold(body);
    ScreenChecks(body);
    if IsText(body, "code") && IsText(body, "language") {
      var language := TextOf(body, "language");
      assert |Lower(language)| == |language|;
      ScreenFieldsOutcome(Strip(TextOf(body, "code")), Lower(language), Get(body, "input", JStr("")));
    }
  }

  /** Long code is refused exactly when the earlier checks passed and the stripped code exceeds 10000 characters. */
  lemma ScreenCodeTooLong(body: map<string, Json>)
    requires body != map[]
    ensures Screen(Some(body)) == Reject(CodeTooLong)
            <==> (IsText(body, "code") && IsText(body, "language")
                  && Strip(TextOf(body, "code")) != [] && TextOf(body, "language") != []
                  && |Strip(TextOf(body, "code"))| > MaxCodeLength)
  {
    ScreenUnfold(body);
    ScreenChecks(body);
    if IsText(body, "code") && IsText(body, "language") {
      var language := TextOf(body, "language");
      assert |Lower(language)| == |language|;
      ScreenFieldsOutcome(Strip(TextOf(body, "code")), Lower(language), Get(body, "input", JStr("")));
    }
  }

  /** A body is admitted exactly when every check passes and no pattern occurs in the lowercased code;
      the code is then stripped, the language lowercased and the input passed on untouched. */
  lemma ScreenAdmits(body: map<string, Json>)
    requires body != map[]
    ensures var code := Strip(TextOf(body, "code"));
            Screen(Some(body)).Admit?
            <==> (IsText(body, "code") && IsText(body, "language")
                  && code != [] && TextOf(body, "language") != [] && |code| <= MaxCodeLength
                  && forall p :: p in DangerousPatterns ==> !Contains(Lower(code), p))
    ensures Screen(Some(body)).Admit? ==>
              Screen(Some(body)) == Admit(Strip(TextOf(body, "code")), Lower(TextOf(body, "language")),
                                          Get(body, "input", JStr("")))
  {
    var code, language := Strip(TextOf(body, "code")), TextOf(body, "language");
    assert |Lower(language)| == |language|;
    ScreenFieldsAdmit(code, Lower(language), Get(body, "input", JStr("")));
  }

  lemma ScreenFieldsAdmit(code: string, language: string, input: Json)
    ensures ScreenFields(code, language, input).Admit?
            <==> (code != [] && language != [] && |code| <= MaxCodeLength
                  && FirstMatch(DangerousPatterns, Lower(code)).None?)
    ensures ScreenFields(code, language, input).Admit? ==> ScreenFields(code, language, input) == Admit(code, language, input)
  {
  }

  /** A body is refused as blocked exactly when a pattern occurs in the lowercased code, and the pattern
      reported is the first one in list order that occurs. */
  lemma BlockedIsFirstMatch(body: map<string, Json>, pattern: string)
    requires body != map[]
    ensures var code := Strip(TextOf(body, "code"));
            Screen(Some(body)) == Reject(Blocked(pattern))
            <==> IsText(body, "code") && IsText(body, "language")
                 && code != [] && TextOf(body, "language") != [] && |code| <= MaxCodeLength
                 && FirstMatch(DangerousPatterns, Lower(code)) == Some(pattern)
  {
    var language := TextOf(body, "language");
    assert |Lower(language)| == |language|;
    ScreenFieldsBlocked(Strip(TextOf(body, "code")), Lower(language), Get(body, "input", JStr("")), pattern);
  }

  lemma ScreenFieldsBlocked(code: string, language: string, input: Json, pattern: string)
    ensures ScreenFields(code, language, input) == Reject(Blocked(pattern))
            <==> code != [] && language != [] && |code| <= MaxCodeLength
                 && FirstMatch(DangerousPatterns, Lower(code)) == Some(pattern)
  {
  }

  /** A pattern `x` that contains an earlier pattern, and is not itself one of the patterns up to that one,
      is never the first match: wherever it occurs, the earlier pattern occurs too. */
  lemma {:induction false} ShadowedNeverReported(patterns: seq<string>, text: string, k: nat, x: string)
    requires k < |patterns| && Contains(x, patterns[k]) && x !in patterns[..k + 1]
    ensures FirstMatch(patterns, text) != Some(x)
    decreases k
  {
    if !Contains(text, patterns[0]) {
      var rest := FirstMatch(patterns[1..], text);
      if k == 0 {
        if rest == Some(x) {
          assert exists i :: 0 <= i < |patterns[1..]| && patterns[1..][i] == x && Contains(text, x);
          ContainsTransitive(text, x, patterns[0]);
        }
      } else {
        assert patterns[1..][..k] == patterns[1..k + 1];
        ShadowedNeverReported(patterns[1..], text, k - 1, x);
      }
    } else {
      assert patterns[0] in patterns[..k + 1];
    }
  }

  /** `"raw_input("` is never the reported pattern: `"input("` comes before it and occurs wherever it does. */
  lemma RawInputNeverReported(text: string)
    ensures FirstMatch(DangerousPatterns, text) != Some("raw_input(")
  {
    assert "raw_input("[4..] == "input(";
    assert OccursAt("raw_input(", "input(", 4);
    ContainsIff("raw_input(", "input(");
    assert DangerousPatterns[8] == "input(";
    assert DangerousPatterns[..9] == ["import os", "import subprocess", "import sys", "eval(", "exec(",
                                      "__import__", "open(", "file(", "input("];
    ShadowedNeverReported(DangerousPatterns, text, 8, "raw_input(");
  }

  /** The route's answer: a 400 with an error (and a security note for blocked code), a 500 for an
      exception raised while reading the body (its text is not modelled), or the result. */
  datatype Response =
    | BadRequest(error: string, securityNote: Option<string>)
    | InternalError
    | Ok(result: ExecutionResult)

  function RejectionResponse(reason: Rejection): Response {
    match reason
    case NoData => BadRequest("No se proporcionaron datos", None)
    case EmptyCode => BadRequest("El código no puede estar vacío", None)
    case NoLanguage => BadRequest("Debe especificar un lenguaje", None)
    case CodeTooLong => BadRequest("El código es demasiado largo (máximo 10KB)", None)
    case Blocked(p) =>
      BadRequest("Código bloqueado: contiene patrón peligroso \"" + p + "\"",
                 Some("El código fue bloqueado por razones de seguridad"))
  }

  /** The `/execute` handler, over the corrected `execute_code`: a refused request or one whose fields raise
      never reaches `execute_code`, so no file, timer or backend is touched; an admitted one is answered
      with `execute_code`'s result. */
  method HandleExecute(sandbox: CodeSandbox, data: Option<map<string, Json>>, proc: ProcessOutcome,
                       cont: ContainerOutcome) returns (resp: Response)
    requires sandbox.Valid()
    modifies sandbox`tempFiles, sandbox`nextTemp, sandbox`armedTimers, sandbox`backendRuns
    ensures sandbox.Valid()
    ensures Screen(data).Reject? ==> resp == RejectionResponse(Screen(data).reason) && unchanged(sandbox)
    ensures Screen(data).Raises? ==> resp == InternalError && unchanged(sandbox)
    ensures Screen(data).Admit? ==>
              resp == Ok(ExecuteCodeResult(sandbox.dockerAvailable, Screen(data).language, proc, cont))
    ensures sandbox.tempFiles == old(sandbox.tempFiles) && sandbox.armedTimers == old(sandbox.armedTimers)
  {
    var screening := Screen(data);
    if screening.Reject? {
      resp := RejectionResponse(screening.reason);
      return;
    }
    if screening.Raises? {
      resp := InternalError;
      return;
    }
    var r := sandbox.ExecuteCode(screening.code, screening.language, screening.input, proc, cont);
    resp := Ok(r);
  }
}
