/** The client façade: validates its configuration once, and for each prompt
    builds the command line, runs it, turns a failing run into an error,
    parses the output and reports the most recent session's id, which it
    also remembers. The command executor and the session-state directory are
    given to each prompt: the executor as the function from a command line
    and its options to what the run produced or the error it rejected with,
    the directory as it stands after the run. */
module CopilotClient {
  import opened Wrappers
  import opened Text
  import opened Errors
  import opened ConfigBuilder
  import opened OutputParser
  import opened SessionParser
  import opened SessionManager

  /** The options the executor is called with. */
  datatype ExecuteOptions = ExecuteOptions(cwd: Option<string>, timeout: Option<int>)

  /** What a run of the CLI produced. */
  datatype ExecuteResult = ExecuteResult(stdout: string, stderr: string, exitCode: int)

  /** The executor: the result of running the CLI with these arguments, or
      the error it rejects with (`CopilotTimeoutError` when the run outlives
      its timeout, `CopilotExecutionError` when the CLI cannot be spawned). */
  type Executor = (seq<string>, ExecuteOptions) -> Result<ExecuteResult, CopilotError>

  datatype CopilotResponse = CopilotResponse(
    output: string,
    sessionId: string,
    usage: UsageMetrics,
    duration: DurationMetrics,
    codeChanges: CodeChangeMetrics,
    exitCode: int)

  /** A run is fatal when it exits non-zero and wrote to stderr. */
  predicate IsFatal(result: ExecuteResult) {
    result.exitCode != 0 && result.stderr != ""
  }

  function ExecutionMessage(result: ExecuteResult): string {
    "Copilot CLI exited with code " + IntToString(result.exitCode) + ": " + result.stderr
  }

  /** The id of the most recent session, or the empty string when there is
      none. */
  function RecentSessionId(store: SessionStore): string {
    var recent := Listing(store, MostRecentOptions);
    if recent == [] then "" else recent[0].id
  }

  function OptionsOf(config: CopilotClientConfig): ExecuteOptions {
    ExecuteOptions(config.cwd, config.timeout)
  }

  /** What `prompt` resolves or rejects with, given what the executor
      produced and the session-state directory after the run. */
  function PromptOutcome(run: Result<ExecuteResult, CopilotError>, store: SessionStore): Result<CopilotResponse, CopilotError> {
    if run.Failure? then Failure(run.error)
    else if IsFatal(run.value) then Failure(CopilotExecutionError(ExecutionMessage(run.value)))
    else if ListOutcome(store, MostRecentOptions).Failure? then Failure(ListOutcome(store, MostRecentOptions).error)
    else
      var result := run.value;
      var parsed := CliOutput(result.stdout);
      Success(CopilotResponse(parsed.response, RecentSessionId(store), parsed.usage, parsed.duration,
                              parsed.codeChanges, result.exitCode))
  }

  class Client {
    const config: CopilotClientConfig
    var lastSessionId: Option<string>

    /** The constructor after a successful `validateConfig`. */
    constructor(config: CopilotClientConfig)
      requires ValidateConfig(config).Pass?
      ensures this.config == config && lastSessionId == None
    {
      this.config := config;
      lastSessionId := None;
    }

    /** `prompt`: runs the built command line with the configured working
        directory and timeout; on success remembers and reports the session
        id; when the executor rejects, the run is fatal or the sessions
        cannot be listed, rejects and leaves the remembered id alone. */
    method Prompt(text: string, execute: Executor, store: SessionStore) returns (r: Result<CopilotResponse, CopilotError>)
      modifies this
      ensures r == PromptOutcome(execute(CliArgs(config, text), OptionsOf(config)), store)
      ensures r.Success? ==> lastSessionId == Some(r.value.sessionId)
      ensures r.Failure? ==> lastSessionId == old(lastSessionId)
    {
      var args := BuildCliArgs(config, text);
      var run := execute(args, ExecuteOptions(config.cwd, config.timeout));
      if run.Failure? {
        return Failure(run.error);
      }
      var result := run.value;
      if result.exitCode != 0 && result.stderr != "" {
        return Failure(CopilotExecutionError(ExecutionMessage(result)));
      }
      var parsed := ParseCliOutput(result.stdout);
      var recent := GetMostRecentSession(store);
      if recent.Failure? {
        return Failure(recent.error);
      }
      var recentSession := recent.value;
      var sessionId := if recentSession.Some? then recentSession.value.id else "";
      lastSessionId := Some(sessionId);
      return Success(CopilotResponse(parsed.response, sessionId, parsed.usage, parsed.duration,
                                     parsed.codeChanges, result.exitCode));
    }

    /** `getLastSessionId`: null until a prompt succeeds. */
    function GetLastSessionId(): (r: Option<string>)
      reads this
      ensures r == lastSessionId
    {
      lastSessionId
    }

    /** `getConfiguredSessionId`: the configured session id, unchanged. */
    function GetConfiguredSessionId(): (r: Option<string>)
      ensures r == config.sessionId
    {
      config.sessionId
    }
  }

  /** `new CopilotClient(config)`: rejects with `ConfigurationError` carrying
      the validation message, else a client that has not prompted yet. */
  method NewClient(config: CopilotClientConfig) returns (r: Result<Client, CopilotError>)
    ensures r.Failure? <==> HasText(config.sessionId) && IsOn(config.continueLastSession)
    ensures r.Failure? ==> r.error == ConfigurationError("Cannot specify both sessionId and continueLastSession")
    ensures r.Success? ==> fresh(r.value) && r.value.config == config && r.value.lastSessionId == None
  {
    var validation := ValidateConfig(config);
    if validation.Fail? {
      return Failure(ConfigurationError(validation.error));
    }
    var client := new Client(config);
    return Success(client);
  }
}
