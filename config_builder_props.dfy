/** What `buildCliArgs` promises about the command line it writes, stated
    against a per-flag reference (`Emits`) rather than the segment order. */
module ConfigBuilderProps {
  import opened Wrappers
  import opened ConfigBuilder

  /** The text `--stream` is followed by. */
  function OnOff(b: bool): string {
    if b then "on" else "off"
  }

  /** `f` is the text of a value the command line may carry: an option's
      value, an element of a list option, the MCP configuration text, the
      streaming switch's `on`/`off`, or the prompt. A flag can only be told
      apart from the values around it when it is none of these. */
  predicate IsValue(c: CopilotClientConfig, prompt: string, f: string) {
    || c.model == Some(f) || c.sessionId == Some(f)
    || (c.allowedTools.Some? && f in c.allowedTools.value)
    || (c.deniedTools.Some? && f in c.deniedTools.value)
    || (c.allowedUrls.Some? && f in c.allowedUrls.value)
    || (c.deniedUrls.Some? && f in c.deniedUrls.value)
    || (c.additionalDirs.Some? && f in c.additionalDirs.value)
    || (c.additionalMcpConfig.Some? && McpArgument(c.additionalMcpConfig.value) == f)
    || (c.disabledMcpServers.Some? && f in c.disabledMcpServers.value)
    || (c.streaming.Some? && OnOff(c.streaming.value) == f)
    || c.logLevel == Some(f) || c.logDir == Some(f) || c.agent == Some(f)
    || f == prompt
  }

  /** The flags a configuration calls for, flag by flag: `--resume` wins over
      `--continue`, `--allow-all` over the three individual permissions, a
      list option is emitted only when it has elements and `--stream` whenever
      `streaming` is given at all. */
  predicate Emits(c: CopilotClientConfig, f: string) {
    || (f == "--model" && HasText(c.model))
    || (f == "--resume" && HasText(c.sessionId))
    || (f == "--continue" && !HasText(c.sessionId) && IsOn(c.continueLastSession))
    || (f == "--allow-all" && IsOn(c.allowAll))
    || (f == "--allow-all-tools" && !IsOn(c.allowAll) && IsOn(c.allowAllTools))
    || (f == "--allow-all-paths" && !IsOn(c.allowAll) && IsOn(c.allowAllPaths))
    || (f == "--allow-all-urls" && !IsOn(c.allowAll) && IsOn(c.allowAllUrls))
    || (f == "--allow-tool" && HasItems(c.allowedTools))
    || (f == "--deny-tool" && HasItems(c.deniedTools))
    || (f == "--allow-url" && HasItems(c.allowedUrls))
    || (f == "--deny-url" && HasItems(c.deniedUrls))
    || (f == "--add-dir" && HasItems(c.additionalDirs))
    || (f == "--additional-mcp-config" && HasMcp(c.additionalMcpConfig))
    || (f == "--disable-builtin-mcps" && IsOn(c.disableBuiltinMcps))
    || (f == "--disable-mcp-server" && HasItems(c.disabledMcpServers))
    || (f == "--no-ask-user" && IsOn(c.noAskUser))
    || (f == "--no-custom-instructions" && IsOn(c.noCustomInstructions))
    || (f == "--stream" && c.streaming.Some?)
    || (f == "--silent" && IsOn(c.silent))
    || (f == "--no-color" && IsOn(c.noColor))
    || (f == "--log-level" && HasText(c.logLevel))
    || (f == "--log-dir" && HasText(c.logDir))
    || (f == "--agent" && HasText(c.agent))
    || f == "-p"
  }

  /** A list option contributes one flag/value pair per element, in list
      order. */
  lemma {:induction false} PairsShape(flag: string, xs: seq<string>)
    ensures |Pairs(flag, xs)| == 2 * |xs|
    ensures forall k :: 0 <= k < |xs| ==> Pairs(flag, xs)[2 * k] == flag && Pairs(flag, xs)[2 * k + 1] == xs[k]
  {
    if xs != [] {
      PairsShape(flag, xs[1..]);
      forall k | 0 <= k < |xs|
        ensures Pairs(flag, xs)[2 * k] == flag && Pairs(flag, xs)[2 * k + 1] == xs[k]
      {
        if k > 0 {
          assert Pairs(flag, xs)[2 * k] == Pairs(flag, xs[1..])[2 * (k - 1)];
          assert Pairs(flag, xs)[2 * k + 1] == Pairs(flag, xs[1..])[2 * (k - 1) + 1];
        }
      }
    }
  }

  /** The texts in a list option's pairs are the flag and the elements. */
  lemma {:induction false} PairsMembers(flag: string, xs: seq<string>, f: string)
    ensures f in Pairs(flag, xs) <==> (f == flag && xs != []) || f in xs
  {
    if xs != [] {
      PairsMembers(flag, xs[1..], f);
      assert xs == [xs[0]] + xs[1..];
    }
  }

  lemma ListedMembers(flag: string, o: Option<seq<string>>, f: string)
    ensures f in Listed(flag, o) <==> (f == flag && HasItems(o)) || (HasItems(o) && f in o.value)
  {
    if HasItems(o) {
      PairsMembers(flag, o.value, f);
    }
  }

  lemma SwitchMembers(flag: string, o: Option<bool>, f: string)
    ensures f in Switch(flag, o) <==> f == flag && IsOn(o)
  {
  }

  lemma ValuedMembers(flag: string, o: Option<string>, f: string)
    ensures f in Valued(flag, o) <==> (f == flag && HasText(o)) || (HasText(o) && f == o.value)
  {
  }

  /** The model, session and permission flags: the start of the command line. */
  function Front(c: CopilotClientConfig): seq<string> {
    Valued("--model", c.model) + SessionArgs(c) + PermissionArgs(c)
  }

  /** The command line up to the list options. */
  function UpToLists(c: CopilotClientConfig): seq<string> {
    Front(c)
    + Listed("--allow-tool", c.allowedTools) + Listed("--deny-tool", c.deniedTools)
    + Listed("--allow-url", c.allowedUrls) + Listed("--deny-url", c.deniedUrls)
    + Listed("--add-dir", c.additionalDirs)
  }

  /** The command line up to the MCP options. */
  function UpToMcp(c: CopilotClientConfig): seq<string> {
    UpToLists(c)
    + McpArgs(c) + Switch("--disable-builtin-mcps", c.disableBuiltinMcps)
    + Listed("--disable-mcp-server", c.disabledMcpServers)
  }

  lemma FrontFlags(c: CopilotClientConfig, prompt: string, f: string)
    requires !IsValue(c, prompt, f)
    ensures f in Front(c) <==>
      || (f == "--model" && HasText(c.model))
      || (f == "--resume" && HasText(c.sessionId))
      || (f == "--continue" && !HasText(c.sessionId) && IsOn(c.continueLastSession))
      || (f == "--allow-all" && IsOn(c.allowAll))
      || (f == "--allow-all-tools" && !IsOn(c.allowAll) && IsOn(c.allowAllTools))
      || (f == "--allow-all-paths" && !IsOn(c.allowAll) && IsOn(c.allowAllPaths))
      || (f == "--allow-all-urls" && !IsOn(c.allowAll) && IsOn(c.allowAllUrls))
  {
    ValuedMembers("--model", c.model, f);
  }

  lemma ListFlags(c: CopilotClientConfig, prompt: string, f: string)
    requires !IsValue(c, prompt, f)
    ensures f in UpToLists(c) <==>
      || f in Front(c)
      || (f == "--allow-tool" && HasItems(c.allowedTools))
      || (f == "--deny-tool" && HasItems(c.deniedTools))
      || (f == "--allow-url" && HasItems(c.allowedUrls))
      || (f == "--deny-url" && HasItems(c.deniedUrls))
      || (f == "--add-dir" && HasItems(c.additionalDirs))
  {
    ListedMembers("--allow-tool", c.allowedTools, f);
    ListedMembers("--deny-tool", c.deniedTools, f);
    ListedMembers("--allow-url", c.allowedUrls, f);
    ListedMembers("--deny-url", c.deniedUrls, f);
    ListedMembers("--add-dir", c.additionalDirs, f);
  }

  lemma McpFlags(c: CopilotClientConfig, prompt: string, f: string)
    requires !IsValue(c, prompt, f)
    ensures f in UpToMcp(c) <==>
      || f in UpToLists(c)
      || (f == "--additional-mcp-config" && HasMcp(c.additionalMcpConfig))
      || (f == "--disable-builtin-mcps" && IsOn(c.disableBuiltinMcps))
      || (f == "--disable-mcp-server" && HasItems(c.disabledMcpServers))
  {
    ListedMembers("--disable-mcp-server", c.disabledMcpServers, f);
    SwitchMembers("--disable-builtin-mcps", c.disableBuiltinMcps, f);
  }

  /** The command line up to `--no-color`. */
  function UpToBehaviour(c: CopilotClientConfig): seq<string> {
    UpToMcp(c)
    + Switch("--no-ask-user", c.noAskUser) + Switch("--no-custom-instructions", c.noCustomInstructions)
    + StreamArgs(c) + Switch("--silent", c.silent) + Switch("--no-color", c.noColor)
  }

  lemma BehaviourFlags(c: CopilotClientConfig, prompt: string, f: string)
    requires !IsValue(c, prompt, f)
    ensures f in UpToBehaviour(c) <==>
      || f in UpToMcp(c)
      || (f == "--no-ask-user" && IsOn(c.noAskUser))
      || (f == "--no-custom-instructions" && IsOn(c.noCustomInstructions))
      || (f == "--stream" && c.streaming.Some?)
      || (f == "--silent" && IsOn(c.silent))
      || (f == "--no-color" && IsOn(c.noColor))
  {
    SwitchMembers("--no-ask-user", c.noAskUser, f);
    SwitchMembers("--no-custom-instructions", c.noCustomInstructions, f);
    SwitchMembers("--silent", c.silent, f);
    SwitchMembers("--no-color", c.noColor, f);
  }

  lemma TailFlags(c: CopilotClientConfig, prompt: string, f: string)
    requires !IsValue(c, prompt, f)
    ensures f in CliArgs(c, prompt) <==>
      || f in UpToBehaviour(c)
      || (f == "--log-level" && HasText(c.logLevel))
      || (f == "--log-dir" && HasText(c.logDir))
      || (f == "--agent" && HasText(c.agent))
      || f == "-p"
  {
    ValuedMembers("--log-level", c.logLevel, f);
    ValuedMembers("--log-dir", c.logDir, f);
    ValuedMembers("--agent", c.agent, f);
  }

  /** A flag that is not also the text of a value appears in the command
      line exactly when the configuration calls for it. */
  lemma FlagPresence(c: CopilotClientConfig, prompt: string, f: string)
    requires !IsValue(c, prompt, f)
    ensures f in CliArgs(c, prompt) <==> Emits(c, f)
  {
    FrontFlags(c, prompt, f);
    ListFlags(c, prompt, f);
    McpFlags(c, prompt, f);
    BehaviourFlags(c, prompt, f);
    TailFlags(c, prompt, f);
  }

  /** The command line always ends with `-p` and the prompt. */
  lemma EndsWithPrompt(c: CopilotClientConfig, prompt: string)
    ensures |CliArgs(c, prompt)| >= 2
    ensures CliArgs(c, prompt)[|CliArgs(c, prompt)| - 2..] == ["-p", prompt]
  {
  }

  /** The empty configuration gives just the prompt. */
  lemma EmptyConfigArgs(prompt: string)
    ensures CliArgs(EmptyConfig, prompt) == ["-p", prompt]
  {
  }

  /** A model comes first: `--model` and its name are the first two
      elements. */
  lemma ModelFirst(c: CopilotClientConfig, prompt: string)
    requires HasText(c.model)
    ensures CliArgs(c, prompt)[..2] == ["--model", c.model.value]
  {
    assert CliArgs(c, prompt) == UpToBehaviour(c)
      + Valued("--log-level", c.logLevel) + Valued("--log-dir", c.logDir) + Valued("--agent", c.agent)
      + ["-p", prompt];
  }

  /** Two neighbouring elements of a sequence keep their places when more is
      appended. */
  lemma PairKept(a: seq<string>, b: seq<string>, i: nat)
    requires i + 1 < |a|
    ensures (a + b)[i] == a[i] && (a + b)[i + 1] == a[i + 1]
  {
  }

  /** A pair of elements of `UpToBehaviour` is a pair of the whole command
      line. */
  lemma BehaviourPairKept(c: CopilotClientConfig, prompt: string, i: nat)
    requires i + 1 < |UpToBehaviour(c)|
    ensures i + 1 < |CliArgs(c, prompt)|
    ensures CliArgs(c, prompt)[i] == UpToBehaviour(c)[i] && CliArgs(c, prompt)[i + 1] == UpToBehaviour(c)[i + 1]
  {
    var u := UpToBehaviour(c);
    var a := u + Valued("--log-level", c.logLevel);
    var b := a + Valued("--log-dir", c.logDir);
    var d := b + Valued("--agent", c.agent);
    assert CliArgs(c, prompt) == d + ["-p", prompt];
    PairKept(u, Valued("--log-level", c.logLevel), i);
    PairKept(a, Valued("--log-dir", c.logDir), i);
    PairKept(b, Valued("--agent", c.agent), i);
    PairKept(d, ["-p", prompt], i);
  }

  /** A session id is passed right after `--resume`. */
  lemma ResumeCarriesId(c: CopilotClientConfig, prompt: string)
    requires HasText(c.sessionId)
    ensures exists i :: 0 <= i < |CliArgs(c, prompt)| - 1
                        && CliArgs(c, prompt)[i] == "--resume" && CliArgs(c, prompt)[i + 1] == c.sessionId.value
  {
    var i := |Valued("--model", c.model)|;
    var s := Valued("--model", c.model) + SessionArgs(c);
    assert s[i] == "--resume" && s[i + 1] == c.sessionId.value;
    PairKept(s, PermissionArgs(c), i);
    var l1 := Front(c) + Listed("--allow-tool", c.allowedTools);
    var l2 := l1 + Listed("--deny-tool", c.deniedTools);
    var l3 := l2 + Listed("--allow-url", c.allowedUrls);
    var l4 := l3 + Listed("--deny-url", c.deniedUrls);
    PairKept(Front(c), Listed("--allow-tool", c.allowedTools), i);
    PairKept(l1, Listed("--deny-tool", c.deniedTools), i);
    PairKept(l2, Listed("--allow-url", c.allowedUrls), i);
    PairKept(l3, Listed("--deny-url", c.deniedUrls), i);
    PairKept(l4, Listed("--add-dir", c.additionalDirs), i);
    var m1 := UpToLists(c) + McpArgs(c);
    var m2 := m1 + Switch("--disable-builtin-mcps", c.disableBuiltinMcps);
    PairKept(UpToLists(c), McpArgs(c), i);
    PairKept(m1, Switch("--disable-builtin-mcps", c.disableBuiltinMcps), i);
    PairKept(m2, Listed("--disable-mcp-server", c.disabledMcpServers), i);
    var b1 := UpToMcp(c) + Switch("--no-ask-user", c.noAskUser);
    var b2 := b1 + Switch("--no-custom-instructions", c.noCustomInstructions);
    var b3 := b2 + StreamArgs(c);
    var b4 := b3 + Switch("--silent", c.silent);
    PairKept(UpToMcp(c), Switch("--no-ask-user", c.noAskUser), i);
    PairKept(b1, Switch("--no-custom-instructions", c.noCustomInstructions), i);
    PairKept(b2, StreamArgs(c), i);
    PairKept(b3, Switch("--silent", c.silent), i);
    PairKept(b4, Switch("--no-color", c.noColor), i);
    BehaviourPairKept(c, prompt, i);
  }

  /** `--stream` is followed by `on` or `off` as `streaming` says. */
  lemma StreamCarriesSwitch(c: CopilotClientConfig, prompt: string)
    requires c.streaming.Some?
    ensures exists i :: 0 <= i < |CliArgs(c, prompt)| - 1
                        && CliArgs(c, prompt)[i] == "--stream" && CliArgs(c, prompt)[i + 1] == OnOff(c.streaming.value)
  {
    var pre := UpToMcp(c) + Switch("--no-ask-user", c.noAskUser) + Switch("--no-custom-instructions", c.noCustomInstructions);
    var i := |pre|;
    var b3 := pre + StreamArgs(c);
    var b4 := b3 + Switch("--silent", c.silent);
    assert b3[i] == "--stream" && b3[i + 1] == OnOff(c.streaming.value);
    PairKept(b3, Switch("--silent", c.silent), i);
    PairKept(b4, Switch("--no-color", c.noColor), i);
    BehaviourPairKept(c, prompt, i);
  }

  /** A configuration that passes validation never has its request to
      continue the last session overridden: `--continue` is on the command
      line exactly when it was asked for. */
  lemma ValidConfigKeepsContinue(c: CopilotClientConfig, prompt: string)
    requires ValidateConfig(c).Pass? && !IsValue(c, prompt, "--continue")
    ensures "--continue" in CliArgs(c, prompt) <==> IsOn(c.continueLastSession)
  {
    FlagPresence(c, prompt, "--continue");
  }
}
