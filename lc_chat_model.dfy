/** The LangChain chat model over the client: its settings and their
    defaults, binding tools, the client it prompts through, the retry loops
    that ask the model to repair an answer that does not parse or validate,
    one generation, and the token counts it reports. The CLI and the session
    store a run uses are a `Backend`; the operations that prompt more than
    once take a `Runner`, which maps a prompt and the number of the run to
    its outcome, and `RunnerOf` builds one from the model and a backend per
    run. */
module ChatModel {
  import opened Wrappers
  import opened Text
  import opened Numbers
  import opened Errors
  import opened ConfigBuilder
  import opened OutputParser
  import opened SessionManager
  import opened CopilotClient
  import opened JsonValues
  import opened StructuredOutput
  import opened ToolsAdapter
  import opened PromptBuilder

  /** The settings a chat model is created with; `None` is a setting left
      out. The logger is known by a handle: it is only ever called. */
  datatype ModelConfig = ModelConfig(
    copilot: Option<CopilotClientConfig>,
    client: Option<Client>,
    tools: Option<seq<ToolDefinition>>,
    toolChoice: Option<Json>,
    maxParseRetries: Option<int>,
    logger: Option<nat>)

  /** A chat model: every field is fixed at creation. */
  datatype Model = Model(
    copilotConfig: CopilotClientConfig,
    explicitClient: Option<Client>,
    tools: Option<seq<ToolDefinition>>,
    toolChoice: Json,
    maxParseRetries: int,
    logger: Option<nat>)

  const DefaultRetries := 1

  /** The constructor: no client settings, choice "auto" and one retry
      unless given. */
  function NewModel(config: ModelConfig): (m: Model)
    ensures m.copilotConfig == (if config.copilot.Some? then config.copilot.value else EmptyConfig)
    ensures m.toolChoice == (if config.toolChoice.None? || config.toolChoice == Some(JNull) then JString("auto")
                             else config.toolChoice.value)
    ensures m.maxParseRetries == (if config.maxParseRetries.Some? then config.maxParseRetries.value else DefaultRetries)
    ensures m.explicitClient == config.client && m.tools == config.tools && m.logger == config.logger
  {
    Model(config.copilot.GetOr(EmptyConfig), config.client, config.tools,
          OrElse(config.toolChoice, Some(JString("auto"))).GetOr(JString("auto")),
          config.maxParseRetries.GetOr(DefaultRetries), config.logger)
  }

  /** The choice in effect for a call: the call's own, else the model's. */
  function EffectiveChoice(model: Model, callChoice: Option<Json>): ToolChoice {
    NormalizeToolChoice(OrElse(callChoice, Some(model.toolChoice)))
  }

  /** `bindTools`: a new model with the same client settings and client,
      the given tools and the normalized choice; retries and logger are back
      to their defaults. */
  function BindTools(model: Model, tools: seq<ToolDefinition>, callChoice: Option<Json>): (m: Model)
    ensures m.copilotConfig == model.copilotConfig && m.explicitClient == model.explicitClient
    ensures m.tools == Some(tools)
    ensures m.maxParseRetries == DefaultRetries && m.logger == None
    ensures forall later :: (EffectiveChoice(m, later) ==
      if later.Some? && later.value != JNull then NormalizeToolChoice(later) else EffectiveChoice(model, callChoice))
  {
    var choice := EffectiveChoice(model, callChoice);
    var m := NewModel(ModelConfig(Some(model.copilotConfig), model.explicitClient, Some(tools),
                                  Some(ChoiceJson(choice)), None, None));
    assert ChoiceJson(choice) != JNull;
    NormalizeIdempotent(OrElse(callChoice, Some(model.toolChoice)));
    m
  }

  // ---------------------------------------------------------------------
  // The client
  // ---------------------------------------------------------------------

  /** `over ?? base` for one setting of a spread `{...base, ...over}`. */
  function Pick<T>(over: Option<T>, base: Option<T>): Option<T> {
    if over.Some? then over else base
  }

  /** `{...base, ...overrides}`. */
  function Merge(base: CopilotClientConfig, o: CopilotClientConfig): CopilotClientConfig {
    CopilotClientConfig(
      Pick(o.model, base.model), Pick(o.sessionId, base.sessionId),
      Pick(o.continueLastSession, base.continueLastSession), Pick(o.additionalDirs, base.additionalDirs),
      Pick(o.allowAll, base.allowAll), Pick(o.allowAllTools, base.allowAllTools),
      Pick(o.allowAllPaths, base.allowAllPaths), Pick(o.allowAllUrls, base.allowAllUrls),
      Pick(o.allowedTools, base.allowedTools), Pick(o.deniedTools, base.deniedTools),
      Pick(o.allowedUrls, base.allowedUrls), Pick(o.deniedUrls, base.deniedUrls),
      Pick(o.additionalMcpConfig, base.additionalMcpConfig), Pick(o.disableBuiltinMcps, base.disableBuiltinMcps),
      Pick(o.disabledMcpServers, base.disabledMcpServers), Pick(o.noAskUser, base.noAskUser),
      Pick(o.noCustomInstructions, base.noCustomInstructions), Pick(o.streaming, base.streaming),
      Pick(o.silent, base.silent), Pick(o.noColor, base.noColor),
      Pick(o.logLevel, base.logLevel), Pick(o.logDir, base.logDir),
      Pick(o.cwd, base.cwd), Pick(o.timeout, base.timeout), Pick(o.agent, base.agent))
  }

  /** Spreading nothing over a configuration leaves it as it is, and
      spreading over nothing gives the overrides. */
  lemma MergeIdentities(base: CopilotClientConfig, overrides: CopilotClientConfig)
    ensures Merge(base, EmptyConfig) == base
    ensures Merge(EmptyConfig, overrides) == overrides
    ensures Merge(Merge(base, overrides), overrides) == Merge(base, overrides)
  {
  }

  /** The configuration of a client the model creates: the merge, with
      silent and colourless output unless a setting says otherwise. */
  function ClientConfig(base: CopilotClientConfig, overrides: CopilotClientConfig): (c: CopilotClientConfig)
    ensures c.silent == Some(Pick(overrides.silent, base.silent).GetOr(true))
    ensures c.noColor == Some(Pick(overrides.noColor, base.noColor).GetOr(true))
    ensures c.(silent := None, noColor := None) == Merge(base, overrides).(silent := None, noColor := None)
  {
    var merged := Merge(base, overrides);
    merged.(silent := Some(merged.silent.GetOr(true)), noColor := Some(merged.noColor.GetOr(true)))
  }

  /** `createClient`: the injected client when there is one and nothing to
      override, else a new client over the merged configuration (which
      rejects an invalid one). */
  method CreateClient(model: Model, overrides: CopilotClientConfig) returns (r: Result<Client, CopilotError>)
    ensures model.explicitClient.Some? && overrides == EmptyConfig ==> r == Success(model.explicitClient.value)
    ensures !(model.explicitClient.Some? && overrides == EmptyConfig) ==>
      var config := ClientConfig(model.copilotConfig, overrides);
      && (r.Failure? <==> ValidateConfig(config).Fail?)
      && (r.Failure? ==> r.error == ConfigurationError(ValidateConfig(config).error))
      && (r.Success? ==> fresh(r.value) && r.value.config == config && r.value.lastSessionId == None)
  {
    if model.explicitClient.Some? && overrides == EmptyConfig {
      return Success(model.explicitClient.value);
    }
    var config := Merge(model.copilotConfig, overrides);
    if config.silent.None? {
      config := config.(silent := Some(true));
    }
    if config.noColor.None? {
      config := config.(noColor := Some(true));
    }
    assert config == ClientConfig(model.copilotConfig, overrides);
    r := NewClient(config);
  }

  /** The overrides every prompt of the model is run with. */
  const PromptOverrides := EmptyConfig.(silent := Some(true), noColor := Some(true))

  /** The configuration every prompt runs with: the model's own, silent and
      colourless whatever it says. */
  lemma PromptConfig(model: Model)
    ensures ClientConfig(model.copilotConfig, PromptOverrides)
      == model.copilotConfig.(silent := Some(true), noColor := Some(true))
  {
  }

  /** Hence every prompt's command line asks for silent, colourless
      output. */
  lemma PromptsRunQuiet(model: Model, prompt: string)
    ensures var args := CliArgs(ClientConfig(model.copilotConfig, PromptOverrides), prompt);
      "--silent" in args && "--no-color" in args
  {
    var c := ClientConfig(model.copilotConfig, PromptOverrides);
    assert Switch("--silent", c.silent) == ["--silent"];
    assert Switch("--no-color", c.noColor) == ["--no-color"];
  }

  /** One run of the CLI: what the executor produces for a command line, and
      the session-state directory after it. */
  datatype Backend = Backend(execute: Executor, store: SessionStore)

  /** What `runPrompt` resolves or rejects with. */
  function PromptResult(model: Model, prompt: string, backend: Backend): Result<CopilotResponse, CopilotError> {
    var config := ClientConfig(model.copilotConfig, PromptOverrides);
    match ValidateConfig(config)
    case Fail(message) => Failure(ConfigurationError(message))
    case Pass => PromptOutcome(backend.execute(CliArgs(config, prompt), OptionsOf(config)), backend.store)
  }

  /** The runs of one call to the model: what `runPrompt` gives for a prompt
      run with an attempt number. */
  type Runner = (string, nat) -> Result<CopilotResponse, CopilotError>

  function RunnerOf(model: Model, backends: nat -> Backend): Runner {
    (prompt: string, attempt: nat) => PromptResult(model, prompt, backends(attempt))
  }

  /** `runPrompt` through `executePrompt`: a new client for each prompt,
      which then prompts once. */
  method RunPrompt(model: Model, prompt: string, backend: Backend) returns (r: Result<CopilotResponse, CopilotError>)
    ensures r == PromptResult(model, prompt, backend)
  {
    assert PromptOverrides != EmptyConfig by {
      assert PromptOverrides.silent != EmptyConfig.silent;
    }
    var client := CreateClient(model, PromptOverrides);
    if client.Failure? {
      return Failure(client.error);
    }
    r := client.value.Prompt(prompt, backend.execute, backend.store);
  }

  /** Prompts never go through an injected client: the overrides are never
      empty, so a new client is created each time. */
  lemma PromptIgnoresInjectedClient(model: Model, client: Option<Client>, prompt: string, backend: Backend)
    ensures PromptResult(model.(explicitClient := client), prompt, backend) == PromptResult(model, prompt, backend)
    ensures PromptOverrides != EmptyConfig
  {
    assert PromptOverrides.silent != EmptyConfig.silent;
  }

  // ---------------------------------------------------------------------
  // Retrying
  // ---------------------------------------------------------------------

  /** How a failed parse is logged. */
  datatype ErrorKind = ParseError | ValidationError

  /** Why a call failed: the client rejected a prompt, or the last answer did
      not parse or validate. */
  datatype ChatError = CallRejected(error: CopilotError) | StructuredFailure(message: string) | ToolFailure(toolError: ToolError)

  /** Why a retry loop failed: a repair prompt was rejected, or the last
      answer could not be read. */
  datatype RetryError<E> = RepairRejected(error: CopilotError) | ReadFailure(failure: E)

  /** A repair prompt and the attempt number it was run with. */
  datatype Repair = Repair(prompt: string, attempt: nat)

  /** The outcome of a retry loop, the repair prompts it ran in order, and
      the kinds of the read failures it logged in order. */
  datatype Retried<T, E> = Retried(result: Result<T, RetryError<E>>, repairs: seq<Repair>, kinds: seq<ErrorKind>)

  function Max0(n: int): nat {
    if n > 0 then n else 0
  }

  /** Attempt numbers count on from `attempt`. */
  predicate Numbered(repairs: seq<Repair>, attempt: nat) {
    forall i :: 0 <= i < |repairs| ==> repairs[i].attempt == attempt + 1 + i
  }

  /** The loop `parseStructuredWithRetry` and `parseToolWithRetry` share:
      read the answer; on failure log its kind and rethrow once no retries
      are left, else run the repair prompt for the answer with the next
      attempt number and read the new answer with one retry fewer. */
  function Retry<T, E>(run: Runner, read: string -> Result<T, E>, kindOf: E -> ErrorKind,
                       repairOf: string -> string, raw: string, retries: int, attempt: nat): (r: Retried<T, E>)
    ensures |r.repairs| <= Max0(retries)
    ensures Numbered(r.repairs, attempt)
    ensures r.repairs != [] ==> r.repairs[0].prompt == repairOf(raw)
    ensures read(raw).Success? ==> r == Retried(Success(read(raw).value), [], [])
    ensures read(raw).Failure? ==> r.kinds != [] && r.kinds[0] == kindOf(read(raw).error)
    ensures read(raw).Failure? && retries <= 0 ==> r.result == Failure(ReadFailure(read(raw).error)) && r.repairs == []
    ensures r.result.Success? ==> exists answer :: read(answer) == Success(r.result.value)
    ensures r.result.Failure? && r.result.error.ReadFailure? ==> |r.repairs| == Max0(retries)
    ensures |r.kinds| == |r.repairs| + (if r.result.Failure? && r.result.error.ReadFailure? then 1 else 0)
    decreases Max0(retries)
  {
    match read(raw)
    case Success(value) => Retried(Success(value), [], [])
    case Failure(e) =>
      if retries <= 0 then Retried(Failure(ReadFailure(e)), [], [kindOf(e)])
      else
        var repair := Repair(repairOf(raw), attempt + 1);
        match run(repair.prompt, attempt + 1)
        case Failure(rejected) => Retried(Failure(RepairRejected(rejected)), [repair], [kindOf(e)])
        case Success(response) =>
          var rest := Retry(run, read, kindOf, repairOf, response.output, retries - 1, attempt + 1);
          Retried(rest.result, [repair] + rest.repairs, [kindOf(e)] + rest.kinds)
  }

  /** A structured answer read and validated. */
  function StructuredAttempt(raw: string, structured: StructuredConfig, lib: Library): Result<Json, string> {
    var parsed :- ExtractJson(raw, lib);
    ValidateStructured(parsed, structured.schema, lib)
  }

  function StructuredErrorKind(message: string): ErrorKind {
    if Contains(message, "validation") then ValidationError else ParseError
  }

  /** Every failed validation is logged as a validation error. */
  lemma ValidationFailuresClassified(value: Json, schema: Schema, lib: Library)
    requires ValidateStructured(value, schema, lib).Failure?
    ensures StructuredErrorKind(ValidateStructured(value, schema, lib).error) == ValidationError
  {
    PrefixedValidation(ValidateStructured(value, schema, lib).error);
  }

  /** A message after the validation prefix is logged as a validation
      error. */
  lemma PrefixedValidation(m: string)
    requires StartsWith(m, ValidationPrefix)
    ensures StructuredErrorKind(m) == ValidationError
  {
    assert m[..|ValidationPrefix|] == ValidationPrefix;
    assert m[18] == 'v' && m[19] == 'a' && m[20] == 'l' && m[21] == 'i' && m[22] == 'd';
    assert m[23] == 'a' && m[24] == 't' && m[25] == 'i' && m[26] == 'o' && m[27] == 'n';
    assert OccursAt(m, "validation", 18);
    ContainsIff(m, "validation");
  }

  /** `parseStructuredWithRetry`: the shared loop, reading an answer as
      JSON validated against the schema, repairing with the repair prompt
      alone. */
  function StructuredRetry(run: Runner, raw: string, structured: StructuredConfig,
                           retries: int, attempt: nat, lib: Library): Retried<Json, string> {
    Retry(run, (answer: string) => StructuredAttempt(answer, structured, lib), StructuredErrorKind,
          RepairPrompt, raw, retries, attempt)
  }

  /** A tool answer read and checked against the choice and the tools. */
  function ToolAttempt(raw: string, tools: seq<ToolPrompt>, choice: ToolChoice, lib: Library): (r: Result<ToolResponse, ToolError>)
    ensures r.Success? ==> ToolCheck(r.value, choice, Some(tools)) == Pass
    ensures ParseToolResponse(raw, lib).Failure? ==> r == Failure(ParseToolResponse(raw, lib).error)
    ensures (ParseToolResponse(raw, lib).Success? && ToolCheck(ParseToolResponse(raw, lib).value, choice, Some(tools)).Fail?)
              ==> r == Failure(ToolCheck(ParseToolResponse(raw, lib).value, choice, Some(tools)).error)
    ensures (ParseToolResponse(raw, lib).Success? && ToolCheck(ParseToolResponse(raw, lib).value, choice, Some(tools)) == Pass)
              ==> r == Success(ParseToolResponse(raw, lib).value)
  {
    var parsed :- ParseToolResponse(raw, lib);
    match ToolCheck(parsed, choice, Some(tools))
    case Pass => Success(parsed)
    case Fail(e) => Failure(e)
  }

  /** How `parseToolWithRetry` logs a failure: by whether the message
      mentions "tool". */
  function ToolErrorKindOfMessage(message: string): ErrorKind {
    if Contains(message, "tool") then ValidationError else ParseError
  }

  /** How a tool failure is logged by where it comes from: a reply that
      breaks the choice or names an unknown tool is a validation error,
      everything else a parse error. */
  function ToolErrorKind(e: ToolError): (k: ErrorKind)
    ensures k == ValidationError <==> e.ExpectedToolCall? || e.UnknownTool?
  {
    if e.ExpectedToolCall? || e.UnknownTool? then ValidationError else ParseError
  }

  /** A message with "tool" at `i` is logged as a validation error. */
  lemma ToolAt(m: string, i: nat)
    requires i + 4 <= |m| && m[i] == 't' && m[i + 1] == 'o' && m[i + 2] == 'o' && m[i + 3] == 'l'
    ensures ToolErrorKindOfMessage(m) == ValidationError
  {
    assert OccursAt(m, "tool", i);
    ContainsIff(m, "tool");
  }

  /** A reply that breaks a "required" choice is logged as a validation
      error by both tests. */
  lemma ExpectedToolCallClassified(lib: Library)
    ensures ToolErrorKindOfMessage(ErrorMessage(ExpectedToolCall, lib)) == ToolErrorKind(ExpectedToolCall)
  {
    var m := ExpectedToolCallMessage;
    assert m[11] == 't' && m[12] == 'o' && m[13] == 'o' && m[14] == 'l';
    ToolAt(m, 11);
  }

  /** So is a call of an undeclared tool, whatever its name. */
  lemma UnknownToolClassified(name: string, lib: Library)
    ensures ToolErrorKindOfMessage(ErrorMessage(UnknownTool(name), lib)) == ToolErrorKind(UnknownTool(name))
  {
    var m := UnknownToolPrefix + name;
    assert m[8] == 't' && m[9] == 'o' && m[10] == 'o' && m[11] == 'l';
    ToolAt(m, 8);
  }

  /** But a reply that is no tool reply at all is logged as a validation
      error too, because its message mentions "tool". */
  lemma UnparsableMisclassified(lib: Library)
    ensures ToolErrorKindOfMessage(ErrorMessage(Unparsable, lib)) == ValidationError
    ensures ToolErrorKind(Unparsable) == ParseError
  {
    var m := UnparsableMessage;
    assert m[16] == 't' && m[17] == 'o' && m[18] == 'o' && m[19] == 'l';
    ToolAt(m, 16);
  }

  /** A prompt followed by the repair request, the empty one left out. */
  function RepairAfter(prompt: string, raw: string): string {
    Join(NonEmpty([prompt, RepairPrompt(raw)]), Separator)
  }

  /** After a non-empty prompt, the repair request follows a blank line,
      the answer to repair last. */
  lemma RepairAfterLayout(prompt: string, raw: string)
    requires prompt != ""
    ensures RepairAfter(prompt, raw) == prompt + Separator + RepairPrefix + raw
  {
    RepairPromptEndsWithAnswer(raw);
    assert RepairPrompt(raw) != "" by {
      assert |RepairPrompt(raw)| >= |RepairPrefix|;
    }
    JoinKept(prompt, RepairPrompt(raw), Separator);
  }

  /** A prompt with tools bound is never empty. */
  lemma ToolPromptNonEmpty(messages: seq<Message>, tools: seq<ToolPrompt>, choice: ToolChoice, lib: Library)
    requires tools != []
    ensures PromptText(messages, Some(tools), Some(choice), None, lib) != ""
  {
    var ins := Instructions(Some(tools), Some(choice), None, lib);
    PromptLayout(messages, Some(tools), Some(choice), None, lib);
    InstructionsNonEmpty(Some(tools), Some(choice), None, lib);
    JoinOfNonEmptyFirst(ins, Separator);
  }

  /** The repair prompt of a tool call: the call's prompt, rebuilt from the
      conversation, tools and choice, then the repair request. */
  function ToolRepairPrompt(messages: seq<Message>, tools: seq<ToolPrompt>, choice: ToolChoice, raw: string,
                            lib: Library): string {
    RepairAfter(PromptText(messages, Some(tools), Some(choice), None, lib), raw)
  }

  /** `parseToolWithRetry`: the shared loop, reading an answer as a tool
      reply that passes the check, repairing with the call's prompt followed
      by the repair request. */
  function ToolRetry(run: Runner, raw: string, messages: seq<Message>,
                     tools: seq<ToolPrompt>, choice: ToolChoice, retries: int, attempt: nat,
                     lib: Library): (r: Retried<ToolResponse, ToolError>)
    ensures r.result.Success? ==> ToolCheck(r.result.value, choice, Some(tools)) == Pass
  {
    var read := (answer: string) => ToolAttempt(answer, tools, choice, lib);
    var r := Retry(run, read, ToolErrorKind, (answer: string) => ToolRepairPrompt(messages, tools, choice, answer, lib),
                   raw, retries, attempt);
    assert r.result.Success? ==> exists answer :: read(answer) == Success(r.result.value);
    r
  }

  // ---------------------------------------------------------------------
  // Generating
  // ---------------------------------------------------------------------

  /** The token counts and the run's statistics. */
  datatype TokenUsage = TokenUsage(promptTokens: JsNumber, completionTokens: JsNumber, totalTokens: JsNumber)

  datatype LlmOutput = LlmOutput(
    tokenUsage: TokenUsage,
    usage: UsageMetrics,
    duration: DurationMetrics,
    codeChanges: CodeChangeMetrics,
    exitCode: int)

  /** JavaScript `+` on numbers: NaN when either side is NaN. */
  function AddNumbers(a: JsNumber, b: JsNumber): JsNumber {
    if a.Num? && b.Num? then Num(a.value + b.value) else NaN
  }

  /** `buildLlmOutput`: the input and output tokens, and their total. */
  function BuildLlmOutput(response: CopilotResponse): (r: LlmOutput)
    ensures r.tokenUsage.promptTokens == response.usage.inputTokens
    ensures r.tokenUsage.completionTokens == response.usage.outputTokens
    ensures r.tokenUsage.totalTokens.Num? <==> response.usage.inputTokens.Num? && response.usage.outputTokens.Num?
    ensures r.tokenUsage.totalTokens.Num? ==>
      r.tokenUsage.totalTokens.value == r.tokenUsage.promptTokens.value + r.tokenUsage.completionTokens.value
    ensures r.usage == response.usage && r.duration == response.duration
    ensures r.codeChanges == response.codeChanges && r.exitCode == response.exitCode
  {
    var input := response.usage.inputTokens;
    var output := response.usage.outputTokens;
    LlmOutput(TokenUsage(input, output, AddNumbers(input, output)),
              response.usage, response.duration, response.codeChanges, response.exitCode)
  }

  /** The one generation of a call: its text and the tool calls it asks for
      (each with a fresh id, not modelled). */
  datatype Generation = Generation(text: string, toolCalls: seq<ToolCall>)

  datatype ChatResult = ChatResult(generation: Generation, llmOutput: LlmOutput)

  function NormalizedTools(model: Model, lib: Library): Option<seq<ToolPrompt>> {
    if model.tools.Some? then Some(NormalizeTools(model.tools.value, lib)) else None
  }

  /** Whether the answer is read as a tool reply: tools are bound and the
      choice is not "none". */
  predicate ToolPath(model: Model, callChoice: Option<Json>) {
    model.tools.Some? && |model.tools.value| > 0 && EffectiveChoice(model, callChoice) != ChoiceNone
  }

  /** The prompt of a call. */
  function GeneratePrompt(model: Model, messages: seq<Message>, callChoice: Option<Json>, lib: Library): string {
    PromptText(messages, NormalizedTools(model, lib), Some(EffectiveChoice(model, callChoice)), None, lib)
  }

  /** `_generate`: runs the prompt (attempt 0); on the tool path reads the
      answer as a tool reply, with retries, and turns a tool call reply into
      a generation with no text; otherwise the answer is the text. */
  function Generate(model: Model, messages: seq<Message>, callChoice: Option<Json>, run: Runner,
                    lib: Library): Result<ChatResult, ChatError> {
    var choice := EffectiveChoice(model, callChoice);
    var tools := NormalizedTools(model, lib);
    match run(GeneratePrompt(model, messages, callChoice, lib), 0)
    case Failure(e) => Failure(CallRejected(e))
    case Success(response) =>
      if tools.Some? && |tools.value| > 0 && choice != ChoiceNone then
        var retried := ToolRetry(run, response.output, messages, tools.value, choice,
                                 model.maxParseRetries, 0, lib);
        match retried.result
        case Failure(RepairRejected(e)) => Failure(CallRejected(e))
        case Failure(ReadFailure(e)) => Failure(ToolFailure(e))
        case Success(ToolCalls(calls)) => Success(ChatResult(Generation("", calls), BuildLlmOutput(response)))
        case Success(Final(content)) => Success(ChatResult(Generation(content, []), BuildLlmOutput(response)))
      else
        Success(ChatResult(Generation(response.output, []), BuildLlmOutput(response)))
  }

  /** Off the tool path the text is the CLI's answer, with no tool calls. */
  lemma PlainGeneration(model: Model, messages: seq<Message>, callChoice: Option<Json>, run: Runner, lib: Library)
    requires !ToolPath(model, callChoice)
    requires Generate(model, messages, callChoice, run, lib).Success?
    ensures var response := run(GeneratePrompt(model, messages, callChoice, lib), 0);
      && response.Success?
      && Generate(model, messages, callChoice, run, lib).value.generation == Generation(response.value.output, [])
  {
  }

  /** Every tool call a generation asks for names a bound tool; a call that
      requires a tool yields tool calls and no text. */
  lemma GeneratedCallsAreBound(model: Model, messages: seq<Message>, callChoice: Option<Json>, run: Runner, lib: Library)
    requires Generate(model, messages, callChoice, run, lib).Success?
    ensures var generation := Generate(model, messages, callChoice, run, lib).value.generation;
      && (generation.toolCalls != [] ==> ToolPath(model, callChoice))
      && (forall i :: 0 <= i < |generation.toolCalls| ==> generation.toolCalls[i].name in DefinitionNames(model.tools.value))
      && (ToolPath(model, callChoice) && EffectiveChoice(model, callChoice) == ChoiceRequired ==> generation.text == "")
  {
    var generation := Generate(model, messages, callChoice, run, lib).value.generation;
    if ToolPath(model, callChoice) {
      var choice := EffectiveChoice(model, callChoice);
      var tools := NormalizeTools(model.tools.value, lib);
      var response := run(GeneratePrompt(model, messages, callChoice, lib), 0).value;
      var retried := ToolRetry(run, response.output, messages, tools, choice, model.maxParseRetries, 0, lib);
      var parsed := retried.result.value;
      assert ToolCheck(parsed, choice, Some(tools)) == Pass;
      ToolCheckPasses(parsed, choice, Some(tools));
      NormalizedNames(model.tools.value, lib);
      if parsed.ToolCalls? {
        assert generation.toolCalls == parsed.calls;
      }
    }
  }

  /** Without bound tools the prompt is exactly the conversation. */
  lemma PlainPrompt(model: Model, messages: seq<Message>, callChoice: Option<Json>, lib: Library)
    requires model.tools.None? || model.tools.value == []
    ensures GeneratePrompt(model, messages, callChoice, lib) == FormatMessages(messages, lib)
  {
    PromptLayout(messages, NormalizedTools(model, lib), Some(EffectiveChoice(model, callChoice)), None, lib);
  }

  /** A structured answer, and the raw text it was read from. */
  datatype StructuredAnswer = StructuredAnswer(raw: string, parsed: Json)

  /** The structured config `withStructuredOutput` builds: the schema and
      name, no description. */
  function StructuredOf(schema: Schema, name: Option<string>): StructuredConfig {
    StructuredConfig(schema, name, None)
  }

  /** The prompt of a structured call: the structured instruction, no tool
      instruction, then the conversation. */
  function StructuredPrompt(messages: seq<Message>, schema: Schema, name: Option<string>, lib: Library): string {
    PromptText(messages, None, None, Some(StructuredOf(schema, name)), lib)
  }

  lemma StructuredPromptLayout(messages: seq<Message>, schema: Schema, name: Option<string>, lib: Library)
    ensures var instruction := StructuredInstruction(StructuredOf(schema, name), lib);
      var serialized := FormatMessages(messages, lib);
      StructuredPrompt(messages, schema, name, lib)
        == if serialized == "" then instruction else instruction + Separator + serialized
  {
    var structured := Some(StructuredOf(schema, name));
    PromptLayout(messages, None, None, structured, lib);
    assert Instructions(None, None, structured, lib) == [StructuredInstruction(StructuredOf(schema, name), lib)];
  }

  /** The runnable `withStructuredOutput` returns, applied to a
      conversation: the structured prompt (attempt 0), then the answer read
      and validated with retries; with `includeRaw` the raw answer is
      returned beside it. */
  function InvokeStructured(model: Model, schema: Schema, name: Option<string>, messages: seq<Message>,
                            run: Runner, lib: Library): (r: Result<StructuredAnswer, ChatError>)
    ensures r.Success? ==> run(StructuredPrompt(messages, schema, name, lib), 0).Success?
    ensures r.Success? ==> r.value.raw == run(StructuredPrompt(messages, schema, name, lib), 0).value.output
    ensures r.Success? && schema.JsonSchema? ==> lib.ajvCheck(schema.json, r.value.parsed).None?
    ensures r.Success? && schema.ZodSchema? ==> exists value :: lib.zodParse(schema.handle, value) == Success(r.value.parsed)
  {
    match run(StructuredPrompt(messages, schema, name, lib), 0)
    case Failure(e) => Failure(CallRejected(e))
    case Success(response) =>
      var structured := StructuredOf(schema, name);
      var retried := StructuredRetry(run, response.output, structured, model.maxParseRetries, 0, lib);
      match retried.result
      case Failure(RepairRejected(e)) => Failure(CallRejected(e))
      case Failure(ReadFailure(m)) => Failure(StructuredFailure(m))
      case Success(parsed) =>
        assert exists answer :: StructuredAttempt(answer, structured, lib) == Success(parsed) by {
          var read := (answer: string) => StructuredAttempt(answer, structured, lib);
          assert exists answer :: read(answer) == Success(parsed);
        }
        var answer :| StructuredAttempt(answer, structured, lib) == Success(parsed);
        var value := ExtractJson(answer, lib).value;
        assert ValidateStructured(value, schema, lib) == Success(parsed);
        Success(StructuredAnswer(response.output, parsed))
  }
}
