/** The client configuration and its translation into the command line of
    the Copilot CLI (`buildCliArgs`), and the check that rejects a
    configuration naming a session and asking to continue the last one
    (`validateConfig`). */
module ConfigBuilder {
  import opened Wrappers

  /** `additionalMcpConfig`: either JSON text or an object. An object is
      carried with the text `JSON.stringify` writes for it. */
  datatype McpConfig =
    | McpText(text: string)
    | McpObject(stringified: string)

  /** `CopilotClientConfig`: every field is optional. */
  datatype CopilotClientConfig = CopilotClientConfig(
    model: Option<string>,
    sessionId: Option<string>,
    continueLastSession: Option<bool>,
    additionalDirs: Option<seq<string>>,
    allowAll: Option<bool>,
    allowAllTools: Option<bool>,
    allowAllPaths: Option<bool>,
    allowAllUrls: Option<bool>,
    allowedTools: Option<seq<string>>,
    deniedTools: Option<seq<string>>,
    allowedUrls: Option<seq<string>>,
    deniedUrls: Option<seq<string>>,
    additionalMcpConfig: Option<McpConfig>,
    disableBuiltinMcps: Option<bool>,
    disabledMcpServers: Option<seq<string>>,
    noAskUser: Option<bool>,
    noCustomInstructions: Option<bool>,
    streaming: Option<bool>,
    silent: Option<bool>,
    noColor: Option<bool>,
    logLevel: Option<string>,
    logDir: Option<string>,
    cwd: Option<string>,
    timeout: Option<int>,
    agent: Option<string>)

  /** The configuration `{}`. */
  const EmptyConfig := CopilotClientConfig(
    None, None, None, None, None, None, None, None, None, None, None, None, None,
    None, None, None, None, None, None, None, None, None, None, None, None)

  // ---------------------------------------------------------------------
  // JavaScript truthiness of the optional fields

  /** A string field is truthy when present and non-empty. */
  predicate HasText(o: Option<string>) {
    o.Some? && o.value != ""
  }

  /** A boolean field is truthy when present and true. */
  predicate IsOn(o: Option<bool>) {
    o == Some(true)
  }

  /** `list?.length` is truthy when the list is present and non-empty. */
  predicate HasItems(o: Option<seq<string>>) {
    o.Some? && |o.value| > 0
  }

  /** An object is always truthy; a string only when non-empty. */
  predicate HasMcp(o: Option<McpConfig>) {
    o.Some? && (o.value.McpObject? || o.value.text != "")
  }

  /** The text passed after `--additional-mcp-config`. */
  function McpArgument(m: McpConfig): string {
    match m
    case McpText(t) => t
    case McpObject(s) => s
  }

  // ---------------------------------------------------------------------
  // The command line, segment by segment

  /** `flag value` when the string field is truthy. */
  function Valued(flag: string, o: Option<string>): seq<string> {
    if HasText(o) then [flag, o.value] else []
  }

  /** `flag` alone when the boolean field is true. */
  function Switch(flag: string, o: Option<bool>): seq<string> {
    if IsOn(o) then [flag] else []
  }

  /** `flag x` for each element `x` of the list, in order. */
  function Pairs(flag: string, xs: seq<string>): seq<string> {
    if xs == [] then [] else [flag, xs[0]] + Pairs(flag, xs[1..])
  }

  /** The pairs of a list field, when it has elements. */
  function Listed(flag: string, o: Option<seq<string>>): seq<string> {
    if HasItems(o) then Pairs(flag, o.value) else []
  }

  /** `--resume <id>`, else `--continue`, else nothing. */
  function SessionArgs(c: CopilotClientConfig): seq<string> {
    if HasText(c.sessionId) then ["--resume", c.sessionId.value]
    else if IsOn(c.continueLastSession) then ["--continue"]
    else []
  }

  /** `--allow-all` stands in for the three individual permission flags. */
  function PermissionArgs(c: CopilotClientConfig): seq<string> {
    if IsOn(c.allowAll) then ["--allow-all"]
    else Switch("--allow-all-tools", c.allowAllTools) + Switch("--allow-all-paths", c.allowAllPaths)
         + Switch("--allow-all-urls", c.allowAllUrls)
  }

  function McpArgs(c: CopilotClientConfig): seq<string> {
    if HasMcp(c.additionalMcpConfig) then ["--additional-mcp-config", McpArgument(c.additionalMcpConfig.value)] else []
  }

  function StreamArgs(c: CopilotClientConfig): seq<string> {
    if c.streaming.Some? then ["--stream", if c.streaming.value then "on" else "off"] else []
  }

  /** What `buildCliArgs(config, prompt)` returns: the segments in the order
      the source emits them, the prompt last. */
  function CliArgs(c: CopilotClientConfig, prompt: string): seq<string> {
    Valued("--model", c.model) + SessionArgs(c) + PermissionArgs(c)
    + Listed("--allow-tool", c.allowedTools) + Listed("--deny-tool", c.deniedTools)
    + Listed("--allow-url", c.allowedUrls) + Listed("--deny-url", c.deniedUrls)
    + Listed("--add-dir", c.additionalDirs)
    + McpArgs(c) + Switch("--disable-builtin-mcps", c.disableBuiltinMcps)
    + Listed("--disable-mcp-server", c.disabledMcpServers)
    + Switch("--no-ask-user", c.noAskUser) + Switch("--no-custom-instructions", c.noCustomInstructions)
    + StreamArgs(c) + Switch("--silent", c.silent) + Switch("--no-color", c.noColor)
    + Valued("--log-level", c.logLevel) + Valued("--log-dir", c.logDir) + Valued("--agent", c.agent)
    + ["-p", prompt]
  }

  // ---------------------------------------------------------------------
  // The imperative builder, one method per group of pushes

  /** The loop of one list option: pushes `flag x` for each element. */
  method PushPairs(args: seq<string>, flag: string, xs: seq<string>) returns (next: seq<string>)
    ensures next == args + Pairs(flag, xs)
  {
    next := args;
    for i := 0 to |xs|
      invariant next + Pairs(flag, xs[i..]) == args + Pairs(flag, xs)
    {
      assert xs[i..] == [xs[i]] + xs[i + 1..];
      next := next + [flag, xs[i]];
    }
    assert xs[|xs|..] == [];
  }

  /** Permissions: `--allow-all` first, else the individual flags. */
  method PushPermissions(args: seq<string>, config: CopilotClientConfig) returns (next: seq<string>)
    ensures next == args + PermissionArgs(config)
  {
    next := args;
    if IsOn(config.allowAll) {
      next := next + ["--allow-all"];
    } else {
      if IsOn(config.allowAllTools) {
        next := next + ["--allow-all-tools"];
      }
      if IsOn(config.allowAllPaths) {
        next := next + ["--allow-all-paths"];
      }
      if IsOn(config.allowAllUrls) {
        next := next + ["--allow-all-urls"];
      }
    }
  }

  /** Specific tool permissions, then URL permissions. */
  method PushToolsAndUrls(args: seq<string>, config: CopilotClientConfig) returns (next: seq<string>)
    ensures next == args
      + Listed("--allow-tool", config.allowedTools) + Listed("--deny-tool", config.deniedTools)
      + Listed("--allow-url", config.allowedUrls) + Listed("--deny-url", config.deniedUrls)
  {
    next := args;
    ghost var want := args;
    if HasItems(config.allowedTools) {
      next := PushPairs(next, "--allow-tool", config.allowedTools.value);
    }
    want := want + Listed("--allow-tool", config.allowedTools);
    assert next == want;
    if HasItems(config.deniedTools) {
      next := PushPairs(next, "--deny-tool", config.deniedTools.value);
    }
    want := want + Listed("--deny-tool", config.deniedTools);
    assert next == want;
    if HasItems(config.allowedUrls) {
      next := PushPairs(next, "--allow-url", config.allowedUrls.value);
    }
    want := want + Listed("--allow-url", config.allowedUrls);
    assert next == want;
    if HasItems(config.deniedUrls) {
      next := PushPairs(next, "--deny-url", config.deniedUrls.value);
    }
  }

  /** Additional directories, then the MCP configuration. */
  method PushDirsAndMcp(args: seq<string>, config: CopilotClientConfig) returns (next: seq<string>)
    ensures next == args + Listed("--add-dir", config.additionalDirs)
      + McpArgs(config) + Switch("--disable-builtin-mcps", config.disableBuiltinMcps)
      + Listed("--disable-mcp-server", config.disabledMcpServers)
  {
    next := args;
    ghost var want := args;
    if HasItems(config.additionalDirs) {
      next := PushPairs(next, "--add-dir", config.additionalDirs.value);
    }
    want := want + Listed("--add-dir", config.additionalDirs);
    assert next == want;
    if HasMcp(config.additionalMcpConfig) {
      next := next + ["--additional-mcp-config", McpArgument(config.additionalMcpConfig.value)];
    }
    want := want + McpArgs(config);
    assert next == want;
    if IsOn(config.disableBuiltinMcps) {
      next := next + ["--disable-builtin-mcps"];
    }
    want := want + Switch("--disable-builtin-mcps", config.disableBuiltinMcps);
    assert next == want;
    if HasItems(config.disabledMcpServers) {
      next := PushPairs(next, "--disable-mcp-server", config.disabledMcpServers.value);
    }
  }

  /** The behaviour flags up to `--no-color`. */
  method PushBehaviour(args: seq<string>, config: CopilotClientConfig) returns (next: seq<string>)
    ensures next == args
      + Switch("--no-ask-user", config.noAskUser) + Switch("--no-custom-instructions", config.noCustomInstructions)
      + StreamArgs(config) + Switch("--silent", config.silent) + Switch("--no-color", config.noColor)
  {
    next := args;
    ghost var want := args;
    if IsOn(config.noAskUser) {
      next := next + ["--no-ask-user"];
    }
    want := want + Switch("--no-ask-user", config.noAskUser);
    assert next == want;
    if IsOn(config.noCustomInstructions) {
      next := next + ["--no-custom-instructions"];
    }
    want := want + Switch("--no-custom-instructions", config.noCustomInstructions);
    assert next == want;
    if config.streaming.Some? {
      next := next + ["--stream", if config.streaming.value then "on" else "off"];
    }
    want := want + StreamArgs(config);
    assert next == want;
    if IsOn(config.silent) {
      next := next + ["--silent"];
    }
    want := want + Switch("--silent", config.silent);
    assert next == want;
    if IsOn(config.noColor) {
      next := next + ["--no-color"];
    }
  }

  /** The log options and the agent. */
  method PushLogAndAgent(args: seq<string>, config: CopilotClientConfig) returns (next: seq<string>)
    ensures next == args
      + Valued("--log-level", config.logLevel) + Valued("--log-dir", config.logDir) + Valued("--agent", config.agent)
  {
    next := args;
    ghost var want := args;
    if HasText(config.logLevel) {
      next := next + ["--log-level", config.logLevel.value];
    }
    want := want + Valued("--log-level", config.logLevel);
    assert next == want;
    if HasText(config.logDir) {
      next := next + ["--log-dir", config.logDir.value];
    }
    want := want + Valued("--log-dir", config.logDir);
    assert next == want;
    if HasText(config.agent) {
      next := next + ["--agent", config.agent.value];
    }
  }

  /** `buildCliArgs`: the pushes of each section in turn, the prompt last. */
  method BuildCliArgs(config: CopilotClientConfig, prompt: string) returns (args: seq<string>)
    ensures args == CliArgs(config, prompt)
  {
    args := [];
    if HasText(config.model) {
      args := args + ["--model", config.model.value];
    }
    ghost var want := Valued("--model", config.model);
    assert args == want;
    if HasText(config.sessionId) {
      args := args + ["--resume", config.sessionId.value];
    } else if IsOn(config.continueLastSession) {
      args := args + ["--continue"];
    }
    want := want + SessionArgs(config);
    assert args == want;
    args := PushPermissions(args, config);
    args := PushToolsAndUrls(args, config);
    args := PushDirsAndMcp(args, config);
    args := PushBehaviour(args, config);
    args := PushLogAndAgent(args, config);
    args := args + ["-p", prompt];
  }

  // ---------------------------------------------------------------------
  // Validation

  /** `validateConfig`: fails exactly when a session id is given and the last
      session is to be continued. */
  function ValidateConfig(c: CopilotClientConfig): (r: Outcome<string>)
    ensures r.Fail? <==> HasText(c.sessionId) && IsOn(c.continueLastSession)
    ensures r.Fail? ==> r.error == "Cannot specify both sessionId and continueLastSession"
  {
    if HasText(c.sessionId) && IsOn(c.continueLastSession) then
      Fail("Cannot specify both sessionId and continueLastSession")
    else Pass
  }
}
