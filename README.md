# copilot-agent, modelled in Dafny

This project models the core of copilot-agent, a TypeScript wrapper around the GitHub Copilot CLI, and the LangChain chat model built on top of it. The model covers these parts:

- **Output parser.** The parser of the CLI's standard output. It separates the agent's answer from the statistics block the CLI prints after it. From that block it reads the premium-request estimate, the API and wall durations, the code-change counts and the per-model token line (`output_parser.dfy`, with its regular expressions in `patterns.dfy` and JavaScript's `parseFloat`/`parseInt`/`Math.round` in `numbers.dfy`).
- **Config builder.** The configuration-to-argv builder and its validation (`config_builder.dfy`).
- **Sessions.** The workspace file parser and the session manager: list, sort, limit, look up, find the most recent, test existence (`session_parser.dfy`, `session_manager.dfy`).
- **Client.** The `CopilotClient` class: validation on construction, one prompt run, and the session id it remembers (`copilot_client.dfy`).
- **LangChain adapter:**
  - the JSON values and JavaScript operations it uses (`lc_json.dfy`);
  - the tool-calling protocol: choice normalization, the tool instruction, reading and checking a tool reply (`lc_tools.dfy`);
  - structured output: the instruction, JSON extraction from a possibly fenced answer, validation (`lc_structured.dfy`);
  - prompt assembly and the repair prompt (`lc_prompt.dfy`);
  - `CopilotChatModel`: defaults, `bindTools`, the client it creates, the retry loops, `_generate`, `withStructuredOutput` and the token counts it reports (`lc_chat_model.dfy`).

Each imperative routine of the source is a Dafny `method` with the source's loops and early exits:

- `parseCliOutput` with its backward search, bounded walk back and overwriting forward loop;
- `buildCliArgs` and its pushes;
- `listSessions`;
- `assertToolResponse`;
- `buildToolInstruction`;
- `buildPrompt`;
- `CopilotClient.prompt`.

Each method is proved equal to a declarative specification function. The properties the source promises are lemmas about those functions, for example:

- "the last matching line wins";
- flag presence, both directions;
- the sort is a permutation that is ordered and stable;
- parsing a reply written in the instructed format gives it back;
- a tool reply that survives the retry loop passes the tool check.

Everything outside the process is a parameter:

- the executor and the filesystem, as an `Executor` and a `SessionStore`;
- YAML, `JSON.parse`, `JSON.stringify`, zod, `zodToJsonSchema` and Ajv, as the `Library` bundle of functions;
- the CLI as seen from the chat model, as a `Runner` from a prompt and an attempt number to the outcome of `CopilotClient.prompt`.

JavaScript semantics the source relies on are written out:

- truthiness, `??`, `String(v)`, including its TypeError for an object with its own `toString` key;
- `NaN` from `parseFloat`, and its propagation through `+`;
- `Math.round`;
- `Array.prototype.sort`'s stability.

## Model

| member | source | states |
|---|---|---|
| Numbers.ParseFloat | packages/copilot-agent/src/executor/output-parser.ts:30-33 | `parseFloat` of a capture is non-negative, and NaN exactly when the text starts with neither a digit nor "." followed by a digit |
| Numbers.ParseIntPrefix | packages/copilot-agent/src/executor/output-parser.ts:35 | `parseInt(s, 10)` is a non-negative whole number, NaN exactly when `s` does not start with a digit |
| Numbers.Round | packages/copilot-agent/src/executor/output-parser.ts:30 | `Math.round` of a non-negative value is within one half of it |
| Numbers.ParseIntOfDigits | packages/copilot-agent/src/executor/output-parser.ts:148-149 | a digit string is read by `parseInt` as its decimal value |
| Numbers.ParseFloatOfDigits | packages/copilot-agent/src/executor/output-parser.ts:55 | a digit string is read by `parseFloat` as its decimal value |
| Text.Trim | packages/copilot-agent/src/executor/output-parser.ts:115-118 | `trim()` removes exactly the surrounding white space: the result is the input minus a blank prefix and a blank suffix, its ends are not white space, it is empty iff the input is blank, and an already trimmed string is unchanged |
| Text.Split | packages/copilot-agent/src/executor/output-parser.ts:66 | `split('\n')` gives at least one piece, none holding a newline, and joining them with newlines gives back the input |
| Text.IndexOfChar | packages/langchain-copilot/src/internal/structured-output.ts:33-40 | `indexOf` gives the first position holding the character, -1 iff it is absent |
| Text.SplitJoin | packages/copilot-agent/src/executor/output-parser.ts:112-114 | splitting lines joined with a newline gives the lines back |
| Text.JoinSplitAt | packages/copilot-agent/src/executor/output-parser.ts:112-114 | the text before line n, a separator and the text from line n make up the whole joined text |
| Text.ContainsIff | packages/copilot-agent/src/executor/output-parser.ts:92 | `includes` holds iff the substring occurs at some position |
| Text.IndexOfFrom | packages/langchain-copilot/src/internal/structured-output.ts:31 | the first occurrence at or after a position, or -1 when there is none |
| Text.LastIndexOfChar | packages/langchain-copilot/src/internal/structured-output.ts:41 | `lastIndexOf` gives the last position holding the character, -1 iff it is absent |
| Text.Lower | packages/copilot-agent/src/executor/output-parser.ts:28 | `toLowerCase` keeps the length and folds each character |
| Text.NonEmpty | packages/langchain-copilot/src/internal/prompt.ts:75 | `filter(Boolean)` keeps only non-empty parts, and every non-empty part |
| Text.NonEmptyMultiset | packages/langchain-copilot/src/internal/prompt.ts:75 | each non-empty part is kept as often as it occurs, and empty parts are dropped |
| Text.NonEmptyAppend | packages/langchain-copilot/src/internal/prompt.ts:75 | filtering keeps order: the filter of a concatenation is the concatenation of the filters |
| Text.DigitsOfNat | packages/copilot-agent/src/executor/output-parser.ts:35 | the digits of a number read back as that number |
| LinePatterns.FirstFromIsFirst | packages/copilot-agent/src/executor/output-parser.ts:38 | a search from left to right finds the leftmost position with a match, and none exists when it finds none |
| LinePatterns.MatchAt | packages/copilot-agent/src/executor/output-parser.ts:21-24 | a match at a position ends inside the line and captures one group per group of the pattern |
| LinePatterns.Search | packages/copilot-agent/src/executor/output-parser.ts:38-56 | a successful `match` returns as many captures as the pattern has groups |
| LinePatterns.SearchNoneIff | packages/copilot-agent/src/executor/output-parser.ts:38-56 | `line.match(re)` is null iff the pattern matches at no position |
| LinePatterns.SearchIsLeftmost | packages/copilot-agent/src/executor/output-parser.ts:128-150 | the groups returned are those of the leftmost match |
| OutputParser.ModelToken | packages/copilot-agent/src/executor/output-parser.ts:21-24 | the model name is a non-empty run of non-space characters after leading blanks |
| OutputParser.TokenCount | packages/copilot-agent/src/executor/output-parser.ts:27-36 | a parsed token count is a non-negative whole number (or NaN) |
| OutputParser.ScaleRound | packages/copilot-agent/src/executor/output-parser.ts:30-33 | scaling and rounding keeps NaN as NaN and otherwise gives a non-negative whole number |
| OutputParser.InputOf | packages/copilot-agent/src/executor/output-parser.ts:153-156 | an input count is taken only from a usage line, and only when truthy |
| OutputParser.OutputOf | packages/copilot-agent/src/executor/output-parser.ts:153-157 | an output count is taken only from a usage line, and only when truthy |
| OutputParser.CacheOf | packages/copilot-agent/src/executor/output-parser.ts:153-158 | a cache-read count is taken only from a usage line, and only when truthy |
| OutputParser.ModelOf | packages/copilot-agent/src/executor/output-parser.ts:153-155 | a model name is taken only from a usage line, and is non-empty |
| OutputParser.Truthful | packages/copilot-agent/src/executor/output-parser.ts:156-158 | a count is kept iff it is truthy (not 0 and not NaN) |
| OutputParser.LastSomeIsLast | packages/copilot-agent/src/executor/output-parser.ts:123-160 | the value kept for a metric is the one from a line that carries it with no later line carrying it, and there is none iff no line carries it |
| OutputParser.LastSentinel | packages/copilot-agent/src/executor/output-parser.ts:90-92 | the backward search stops at the last line holding "Total usage est:" or "Usage by model:" |
| OutputParser.WalkStops | packages/copilot-agent/src/executor/output-parser.ts:96-105 | the walk back passes no blank line and no total line, and stops after a blank line, on a total line, or at the sentinel when neither is within reach |
| OutputParser.BlockStart | packages/copilot-agent/src/executor/output-parser.ts:96-105 | the block starts at most 10 lines above the sentinel, with no blank line inside it and no total line after its first line |
| OutputParser.StatsStart | packages/copilot-agent/src/executor/output-parser.ts:89-108 | there is no stats block (-1) iff no line holds a sentinel |
| OutputParser.EmptyLineCarriesNothing | packages/copilot-agent/src/executor/output-parser.ts:125 | an empty line carries no metric |
| OutputParser.EmptyLineSkipped | packages/copilot-agent/src/executor/output-parser.ts:125 | skipping an empty line leaves the result unchanged |
| OutputParser.StatsOfEmptyRange | packages/copilot-agent/src/executor/output-parser.ts:69-86 | with no stats line read, every metric has its default |
| OutputParser.WalkBack | packages/copilot-agent/src/executor/output-parser.ts:94-105 | the inner loop with its breaks computes the block start |
| OutputParser.FindStatsStart | packages/copilot-agent/src/executor/output-parser.ts:89-108 | the outer backward loop computes the stats start |
| OutputParser.ReadStatsLine | packages/copilot-agent/src/executor/output-parser.ts:124-159 | one non-empty line overwrites exactly the metrics it carries |
| OutputParser.ReadUsageLine | packages/copilot-agent/src/executor/output-parser.ts:153-159 | a usage line overwrites the model and each truthy token count, and leaves the premium estimate alone |
| OutputParser.ReadStats | packages/copilot-agent/src/executor/output-parser.ts:122-161 | the forward loop gives, for each metric, the last line carrying it |
| OutputParser.ParseCliOutput | packages/copilot-agent/src/executor/output-parser.ts:65-164 | `parseCliOutput` equals the declarative `CliOutput` |
| OutputParserProps.NoStatsBlock | packages/copilot-agent/src/executor/output-parser.ts:116-119 | without a sentinel line the whole trimmed output is the answer and every metric is at its default |
| OutputParserProps.ResponsePrecedesStats | packages/copilot-agent/src/executor/output-parser.ts:110-119 | the answer is the trimmed text of the lines before the block, and the output is that text, a newline and the block |
| OutputParserProps.LastSomeAt | packages/copilot-agent/src/executor/output-parser.ts:123-160 | a line carrying a metric with no later line carrying it decides that metric |
| OutputParserProps.CliOutputReadsStatsBlock | packages/copilot-agent/src/executor/output-parser.ts:121-161 | with a stats block, every metric is read from the lines from its start to the end |
| OutputParserProps.PremiumLastMatchWins | packages/copilot-agent/src/executor/output-parser.ts:128-131 | the premium estimate is the one from the last total line |
| OutputParserProps.DurationLastMatchWins | packages/copilot-agent/src/executor/output-parser.ts:134-143 | each duration is the one from the last line that carries it |
| OutputParserProps.CodeChangesLastMatchWins | packages/copilot-agent/src/executor/output-parser.ts:146-150 | the code-change counts come from the last line that carries them |
| OutputParserProps.ModelLastMatchWins | packages/copilot-agent/src/executor/output-parser.ts:153-155 | the model is the one from the last usage line naming one |
| OutputParserProps.TokensLastMatchWins | packages/copilot-agent/src/executor/output-parser.ts:156-158 | each token count is the last truthy one |
| OutputParserProps.PremiumOnlyFromTotalLine | packages/copilot-agent/src/executor/output-parser.ts:53-56 | the per-model "Est. n Premium" figure never reaches the result: without a total line the estimate stays 0 |
| OutputParserProps.ZeroCountKeepsEarlier | packages/copilot-agent/src/executor/output-parser.ts:156 | a zero count on a usage line keeps the earlier count; a truthy one replaces it |
| OutputParserProps.LowerDigits | packages/copilot-agent/src/executor/output-parser.ts:28 | lower-casing leaves a decimal count unchanged |
| OutputParserProps.TokenCountSuffixed | packages/copilot-agent/src/executor/output-parser.ts:29-34 | a count with a `k` or `m` suffix is `parseFloat` of the rest, scaled and rounded |
| OutputParserProps.TokenCountThousands | packages/copilot-agent/src/executor/output-parser.ts:29-31 | "nk" reads n × 1000 |
| OutputParserProps.TokenCountMillions | packages/copilot-agent/src/executor/output-parser.ts:32-34 | "nm" reads n × 1000000 |
| OutputParserProps.ScaleThousands | packages/copilot-agent/src/executor/output-parser.ts:30 | a whole number of thousands rounds to itself |
| OutputParserProps.ScaleMillions | packages/copilot-agent/src/executor/output-parser.ts:33 | a whole number of millions rounds to itself |
| OutputParserProps.TokenCountPlain | packages/copilot-agent/src/executor/output-parser.ts:35 | a plain count reads as its value |
| OutputParserProps.ParseOneDecimal | packages/copilot-agent/src/executor/output-parser.ts:30 | digits, a point and one digit read as the whole part plus tenths |
| OutputParserProps.TokenCountDecimal | packages/copilot-agent/src/executor/output-parser.ts:29-34 | a one-decimal count with a suffix is the scaled, rounded decimal |
| OutputParserProps.ThousandsExample | packages/copilot-agent/src/executor/output-parser.ts:15 | "12.1k" reads 12100 |
| OutputParserProps.CacheExample | packages/copilot-agent/src/executor/output-parser.ts:15 | "2.6k" reads 2600 |
| OutputParserProps.MillionsExample | packages/copilot-agent/src/executor/output-parser.ts:32-34 | "1.5m" reads 1500000 |
| OutputParserProps.PlainCountExample | packages/copilot-agent/src/executor/output-parser.ts:15 | "293" reads 293 |
| OutputParserProps.PremiumLine | packages/copilot-agent/src/executor/output-parser.ts:127-131 | a line "Total usage est:", white space, a whole number n, white space and "Premium" reads n premium requests, whatever follows |
| OutputParserProps.ApiDurationLine | packages/copilot-agent/src/executor/output-parser.ts:133-137 | a line "Total duration (API):", white space, a whole number n and "s" reads n API seconds |
| OutputParserProps.WallDurationLine | packages/copilot-agent/src/executor/output-parser.ts:139-143 | a line "Total duration (wall):", white space, a whole number n and "s" reads n wall-clock seconds |
| OutputParserProps.CodeChangesLine | packages/copilot-agent/src/executor/output-parser.ts:145-150 | a line "Total code changes:" with counts a and r before "lines added," and "lines removed" reads a lines added and r lines removed |
| OutputParserProps.ModelTokenAt | packages/copilot-agent/src/executor/output-parser.ts:20-24 | `/^\s*(\S+)/` captures exactly the run of non-space characters after the leading white space |
| OutputParserProps.InputCountFound | packages/copilot-agent/src/executor/output-parser.ts:38-41 | on a usage line, the input pattern captures the count written before "input", not a number inside the model name |
| OutputParserProps.OutputCountFound | packages/copilot-agent/src/executor/output-parser.ts:43-46 | on a usage line, the output pattern captures the count before "output", skipping the input count |
| OutputParserProps.CacheCountFound | packages/copilot-agent/src/executor/output-parser.ts:48-51 | on a usage line, the cache pattern captures the count before "cache read", skipping the input and output counts |
| OutputParserProps.UsageLineRead | packages/copilot-agent/src/executor/output-parser.ts:17-59 | a line of white space, a model name, white space and three counts before "input, ", "output, " and "cache read" is a usage line; `parseUsageLine` reads that model and, when truthy, those three counts |
| OutputParserSample.SampleOutput | packages/copilot-agent/tests/unit/output-parser.test.ts:4-27 | the test's sample stdout parses to its answer line, model gpt-5-mini, 12100 input, 293 output and 2600 cache-read tokens, 0 premium requests, 6 s and 12 s, and 0 lines added and removed |
| ConfigBuilder.PushPairs | src/config/config-builder.ts:38-42 | the loop over a list option appends one flag/value pair per element |
| ConfigBuilder.PushPermissions | src/config/config-builder.ts:22-35 | `--allow-all` replaces the three individual permission flags |
| ConfigBuilder.PushToolsAndUrls | src/config/config-builder.ts:37-61 | the tool and URL lists are appended in source order |
| ConfigBuilder.PushDirsAndMcp | src/config/config-builder.ts:63-87 | directories, then MCP configuration, then the MCP switches |
| ConfigBuilder.PushBehaviour | src/config/config-builder.ts:89-108 | behaviour flags, with `--stream on/off` whenever `streaming` is given |
| ConfigBuilder.PushLogAndAgent | src/config/config-builder.ts:110-120 | log level, log directory and agent, each when truthy |
| ConfigBuilder.BuildCliArgs | src/config/config-builder.ts:7-126 | `buildCliArgs` equals the segment-by-segment specification `CliArgs` |
| ConfigBuilder.ValidateConfig | src/config/config-builder.ts:131-135 | validation fails iff both a session id and `continueLastSession` are set, with the source's message |
| ConfigBuilderProps.PairsShape | src/config/config-builder.ts:38-42 | a list option gives `2n` elements: the flag at every even place, the elements in order at the odd ones |
| ConfigBuilderProps.PairsMembers | src/config/config-builder.ts:38-42 | a string is in a list's pairs iff it is the flag of a non-empty list or one of its elements |
| ConfigBuilderProps.FlagPresence | src/config/config-builder.ts:7-126 | a flag that is not also some value is on the command line iff the configuration calls for it: `--resume` over `--continue`, `--allow-all` over the others, lists only when non-empty |
| ConfigBuilderProps.EndsWithPrompt | src/config/config-builder.ts:122-123 | the command line always ends with `-p <prompt>` |
| ConfigBuilderProps.EmptyConfigArgs | src/config/config-builder.ts:7-126 | an empty configuration gives just `-p <prompt>` |
| ConfigBuilderProps.ModelFirst | src/config/config-builder.ts:10-13 | a model is passed first |
| ConfigBuilderProps.ResumeCarriesId | src/config/config-builder.ts:16-17 | a session id follows `--resume` |
| ConfigBuilderProps.StreamCarriesSwitch | src/config/config-builder.ts:98-100 | `--stream` is followed by `on` or `off` as `streaming` says |
| ConfigBuilderProps.ValidConfigKeepsContinue | src/config/config-builder.ts:15-20 | for a valid configuration `--continue` is present iff it was asked for |
| Errors.Message | src/errors/errors.ts:35-40 | a missing-session error ends with the session id; other errors keep their message |
| SessionParser.ToSessionInfo | src/session/session-parser.ts:40-47 | fields are copied; a missing summary is "" and a missing count is 0 |
| SessionParser.WorkspaceRoundTrip | src/session/session-parser.ts:37-48 | a session written out in full maps back to itself |
| SessionParser.DefaultsAreImplicit | src/session/session-parser.ts:43-44 | a missing summary or count reads like an explicit "" or 0 |
| SessionParser.ParseWorkspaceContent | src/session/session-parser.ts:37-48 | fails iff the YAML does not parse, else gives the mapped record |
| SessionParser.ParseWorkspaceFile | src/session/session-parser.ts:20-32 | a read failure is passed on |
| SessionParser.FileAgreesWithContent | src/session/session-parser.ts:20-48 | reading a file and parsing it is parsing its content |
| SessionManager.ListSessions | packages/copilot-agent/src/session/session-manager.ts:31-70 | the loop over entries, sort and limit give `ListOutcome`: the specification `Listing`, or the `readdir` error |
| SessionManager.ListOutcome | packages/copilot-agent/src/session/session-manager.ts:31-70 | `listSessions` rejects iff the directory can be accessed but `readdir` fails, and then with that error; otherwise it resolves to `Listing` |
| SessionManager.GetSession | packages/copilot-agent/src/session/session-manager.ts:75-83 | fails with `SessionNotFoundError(id)` iff the workspace file does not parse |
| SessionManager.GetMostRecentSession | packages/copilot-agent/src/session/session-manager.ts:88-91 | rejects iff the listing rejects, with its error; otherwise null iff the newest-first listing of one is empty, else its first element |
| SessionManager.SessionExists | packages/copilot-agent/src/session/session-manager.ts:96-104 | true iff `stat` succeeds on a directory |
| SessionManagerProps.InsertPermutes | packages/copilot-agent/src/session/session-manager.ts:58-62 | inserting adds exactly one element |
| SessionManagerProps.SortPermutes | packages/copilot-agent/src/session/session-manager.ts:58-62 | the sort is a permutation |
| SessionManagerProps.InsertSorted | packages/copilot-agent/src/session/session-manager.ts:58-62 | inserting into an ordered list keeps it ordered |
| SessionManagerProps.SortSorted | packages/copilot-agent/src/session/session-manager.ts:58-62 | the sort orders by the key, descending or ascending |
| SessionManagerProps.InsertWithKey | packages/copilot-agent/src/session/session-manager.ts:58-62 | inserting keeps the relative order of equal keys, the new element last among them |
| SessionManagerProps.SortStable | packages/copilot-agent/src/session/session-manager.ts:58-62 | sessions with equal keys keep their directory order (a stable sort) |
| SessionManagerProps.SortHead | packages/copilot-agent/src/session/session-manager.ts:58-62 | newest first puts the first of the newest sessions at the head |
| SessionManagerProps.LoadedMembers | packages/copilot-agent/src/session/session-manager.ts:43-55 | a session is loaded iff some directory entry's workspace file parses to it; other entries are skipped |
| SessionManagerProps.ListingOfMissingDirectory | packages/copilot-agent/src/session/session-manager.ts:34-38 | no session directory, no sessions |
| SessionManagerProps.ListingIsSorted | packages/copilot-agent/src/session/session-manager.ts:57-69 | the listing is ordered as the options ask (default: `updatedAt`, descending) |
| SessionManagerProps.ListingUnlimited | packages/copilot-agent/src/session/session-manager.ts:64-69 | without a positive limit, the listing is a stable permutation of the loaded sessions |
| SessionManagerProps.ListingLimited | packages/copilot-agent/src/session/session-manager.ts:64-67 | a positive limit keeps the first `min(limit, n)` sorted sessions |
| SessionManagerProps.ListedSessionsAreFound | packages/copilot-agent/src/session/session-manager.ts:31-83 | every listed session is found by `getSession` under its directory name |
| SessionManagerProps.MostRecentIsNewest | packages/copilot-agent/src/session/session-manager.ts:88-91 | the most recent session is the first of those with the latest `updatedAt`, and there is none iff nothing loads |
| SessionManagerProps.ExistenceIgnoresWorkspace | packages/copilot-agent/src/session/session-manager.ts:96-104 | existence depends on the directory alone, not on its workspace file |
| CopilotClient.Client.constructor | src/client/copilot-client.ts:38-48 | a validated configuration is kept and no session id is remembered yet |
| CopilotClient.Client.Prompt | src/client/copilot-client.ts:57-88 | runs the built command line with `cwd` and `timeout`; rejects with the executor's error, with stderr for a failed run, or with the listing's error; otherwise answers with the parsed output and the newest session's id and remembers that id; a rejection leaves the remembered id alone |
| CopilotClient.Client.GetLastSessionId | src/client/copilot-client.ts:93-95 | the id remembered by the last successful prompt |
| CopilotClient.Client.GetConfiguredSessionId | src/client/copilot-client.ts:100-102 | the configured session id |
| CopilotClient.NewClient | src/client/copilot-client.ts:38-48 | construction fails with a `ConfigurationError` carrying validation's message iff validation fails |
| CopilotClientProps.ExecutorFailurePassesOn | src/client/copilot-client.ts:60-63 | an executor rejection (a timeout, a failed spawn) is the prompt's rejection, unchanged |
| CopilotClientProps.PromptRejectsFatalRuns | src/client/copilot-client.ts:65-78 | a completed run makes the prompt reject iff the exit code is non-zero and stderr is non-empty, or the sessions cannot be listed; a fatal run's message ends with stderr |
| CopilotClientProps.ListingFailureAfterRun | src/client/copilot-client.ts:75 | a non-fatal run still rejects with the file system's error when `readdir` fails afterwards |
| CopilotClientProps.QuietFailureResolves | src/client/copilot-client.ts:65-86 | a failing run with empty stderr resolves whenever the sessions can be listed, with its exit code |
| CopilotClientProps.PromptReportsParsedOutput | src/client/copilot-client.ts:71-87 | the answer, usage, durations and code changes are those `parseCliOutput` reads |
| CopilotClientProps.PlainAnswer | src/client/copilot-client.ts:71-87 | output without a stats block is answered whole, with default metrics |
| CopilotClientProps.ReportedSessionIsNewest | src/client/copilot-client.ts:73-76 | the reported session id is the newest session's, or "" when there is none |
| JsonValues.Get | packages/langchain-copilot/src/internal/tools.ts:104-112 | a property is defined iff the value is an object with that key |
| JsonValues.OrElse | packages/langchain-copilot/src/internal/tools.ts:105 | `a ?? b` is `a` unless it is null or undefined |
| JsonValues.StringOr | packages/langchain-copilot/src/internal/tools.ts:105 | `String(v ?? "")` throws exactly for an object with its own `toString` key or an array holding one; otherwise it is "" for a missing or `null` value, the string itself for a string and "[object Object]" for an object |
| JsonValues.SchemaToJson | packages/langchain-copilot/src/internal/schema.ts:9-15 | no schema gives none; a JSON Schema is passed as it is |
| StructuredOutput.Header | packages/langchain-copilot/src/internal/structured-output.ts:17 | the header line is never empty |
| StructuredOutput.DescriptionLine | packages/langchain-copilot/src/internal/structured-output.ts:18 | the description line is empty iff no description is given |
| StructuredOutput.StructuredLines | packages/langchain-copilot/src/internal/structured-output.ts:14-28 | the instruction is the fixed line, the header, the description only when given and the schema text, joined by newlines |
| StructuredOutput.KeptLines | packages/langchain-copilot/src/internal/structured-output.ts:20-26 | filtering four lines whose first two are non-empty keeps those two, then the third and fourth each iff non-empty |
| StructuredOutput.FenceBody | packages/langchain-copilot/src/internal/structured-output.ts:31 | the fenced body ends at the first closing fence after it |
| StructuredOutput.FenceBodyFound | packages/langchain-copilot/src/internal/structured-output.ts:31-32 | a fenced body is found iff two non-overlapping fences occur |
| StructuredOutput.Candidate | packages/langchain-copilot/src/internal/structured-output.ts:31-32 | the candidate is part of the answer |
| StructuredOutput.FirstOpening | packages/langchain-copilot/src/internal/structured-output.ts:33-40 | the start is the first "{" or "[", -1 iff there is none |
| StructuredOutput.JsonSpan | packages/langchain-copilot/src/internal/structured-output.ts:41-46 | a span exists iff a matching closer follows the start; it ends at the last such closer |
| StructuredOutput.ExtractJson | packages/langchain-copilot/src/internal/structured-output.ts:30-50 | "No JSON object found…" without a span, else `JSON.parse` of the trimmed span |
| StructuredOutput.FenceAfter | packages/langchain-copilot/src/internal/structured-output.ts:31 | with no backtick before it, the next fence is found |
| StructuredOutput.NoFenceWithoutBacktick | packages/langchain-copilot/src/internal/structured-output.ts:31-32 | without a backtick there is no fenced body |
| StructuredOutput.WholeCandidate | packages/langchain-copilot/src/internal/structured-output.ts:31-32 | unless two fences occur without overlapping (no fence, or one left unclosed), the whole answer is searched |
| StructuredOutput.BareAnswer | packages/langchain-copilot/src/internal/structured-output.ts:30-50 | an answer that is exactly a JSON object or array is parsed whole |
| StructuredOutput.AnswerWithProse | packages/langchain-copilot/src/internal/structured-output.ts:43-48 | JSON surrounded by prose without brackets or backticks is found |
| StructuredOutput.FencedAnswer | packages/langchain-copilot/src/internal/structured-output.ts:31-48 | JSON inside a "```json" fence, after backtick-free prose, is found |
| StructuredOutput.ValidateStructured | packages/langchain-copilot/src/internal/structured-output.ts:52-71 | zod's parse or Ajv's check decides; a zod schema returns zod's parsed data and fails with the prefix "Structured output validation failed: " plus zod's message; a JSON Schema returns the value unchanged and fails with the prefix plus Ajv's joined errors, or "unknown error" when they are empty |
| ToolsAdapter.NormalizeToolChoice | packages/langchain-copilot/src/internal/tools.ts:59-70 | falsy is auto; "none" alone is none; "any"/"required" are required; any other string names a tool; an object names its non-empty string `name` or is auto |
| ToolsAdapter.NormalizeKeepsOwnOutputs | packages/langchain-copilot/src/internal/tools.ts:59-70 | every normalized choice, written back as a value, normalizes to itself |
| ToolsAdapter.NormalizeIdempotent | packages/langchain-copilot/src/internal/tools.ts:59-70 | normalizing twice is normalizing once |
| ToolsAdapter.NormalizeTool | packages/langchain-copilot/src/internal/tools.ts:51-57 | name kept, missing description "", parameters present iff a schema is |
| ToolsAdapter.NormalizeTools | packages/langchain-copilot/src/internal/tools.ts:51-57 | one prompt definition per tool, in order |
| ToolsAdapter.NormalizedNames | packages/langchain-copilot/src/internal/tools.ts:51-57 | normalizing keeps exactly the declared names |
| ToolsAdapter.BaseLines | packages/langchain-copilot/src/internal/tools.ts:77-85 | seven fixed lines, the tool list third |
| ToolsAdapter.BuildToolInstruction | packages/langchain-copilot/src/internal/tools.ts:72-96 | the pushes and the join equal the specification `ToolInstruction` |
| ToolsAdapter.InstructionShape | packages/langchain-copilot/src/internal/tools.ts:72-96 | the base comes first; an eighth line is added iff the choice is required, none or a named tool |
| ToolsAdapter.ReadCall | packages/langchain-copilot/src/internal/tools.ts:110-113 | the TypeError iff the name cannot be converted to a string; otherwise a string name is kept and non-null `arguments` are the arguments |
| ToolsAdapter.ReadCalls | packages/langchain-copilot/src/internal/tools.ts:108-113 | missing calls are none; an array gives one call per element, in order; a non-array, a null element or a name that cannot be converted is the TypeError, and nothing else is |
| ToolsAdapter.ParseToolResponse | packages/langchain-copilot/src/internal/tools.ts:98-120 | extraction errors pass through, else the parsed value is classified, with the TypeErrors of `String` and `map` as failures |
| ToolsAdapter.ClassifyRoundTrip | packages/langchain-copilot/src/internal/tools.ts:98-120 | a reply written in the instructed format reads back as itself |
| ToolsAdapter.ParseRoundTrip | packages/langchain-copilot/src/internal/tools.ts:98-120 | an answer extracting to such a reply parses to it |
| ToolsAdapter.FinalTypeWins | packages/langchain-copilot/src/internal/tools.ts:104-106 | `type: "final"` wins, with `String(content ?? "")`; it fails with the TypeError iff the content is an object with its own `toString` key or an array holding one |
| ToolsAdapter.OwnToStringReplies | packages/langchain-copilot/src/internal/tools.ts:105-111 | final content and a call name that are objects with their own `toString` key are TypeErrors, not replies |
| ToolsAdapter.CallsWithoutFinalType | packages/langchain-copilot/src/internal/tools.ts:107-115 | a reply not typed "final" with a truthy `tool_calls ?? toolCalls` array fails with the TypeError iff an entry is `null` or has a name that cannot be converted; otherwise it is read as those calls, one per entry and in order |
| ToolsAdapter.CamelCaseCalls | packages/langchain-copilot/src/internal/tools.ts:107-115 | calls listed only under `toolCalls`, with no type, are read as those calls exactly when every name can be converted to a string |
| ToolsAdapter.ContentFallback | packages/langchain-copilot/src/internal/tools.ts:116-119 | a reply with no final type and no calls is a final answer iff its `content` is a string, and that string is the answer; otherwise it is unparsable |
| ToolsAdapter.UnparsableReply | packages/langchain-copilot/src/internal/tools.ts:116-119 | an object with no type, no calls and no string content is rejected with "Unable to parse tool response JSON." |
| ToolsAdapter.FirstUnknown | packages/langchain-copilot/src/internal/tools.ts:136-141 | no unknown call iff every call names an allowed tool; else the name of the first call, in order, that names no allowed tool (every earlier call names an allowed one) |
| ToolsAdapter.AssertToolResponse | packages/langchain-copilot/src/internal/tools.ts:122-143 | the check and its loop equal the specification `ToolCheck` |
| ToolsAdapter.ToolCheckPasses | packages/langchain-copilot/src/internal/tools.ts:122-143 | a reply passes iff it is a call reply when one is required and, when tools are given, every call names one of them; an unknown-tool failure names the first call, in order, that names no given tool |
| ToolsAdapter.FinalAndUndeclared | packages/langchain-copilot/src/internal/tools.ts:129-135 | a final reply passes iff a call is not required; calls are not checked without tools |
| PromptBuilder.PartString | packages/langchain-copilot/src/internal/prompt.ts:15-21 | a string part is itself; an object part with `text` is `String(text)` |
| PromptBuilder.PartStrings | packages/langchain-copilot/src/internal/prompt.ts:14-21 | one text per content part, in order |
| PromptBuilder.ContentToString | packages/langchain-copilot/src/internal/prompt.ts:11-28 | a string is itself, null is "", an object is stringified |
| PromptBuilder.ContentOfJoinedParts | packages/langchain-copilot/src/internal/prompt.ts:13-22 | the text of joined part lists is the joined texts |
| PromptBuilder.StringParts | packages/langchain-copilot/src/internal/prompt.ts:13-22 | string parts are concatenated with no separator |
| PromptBuilder.ToolLabel | packages/langchain-copilot/src/internal/prompt.ts:40 | name, else call id, else "tool" |
| PromptBuilder.Heading | packages/langchain-copilot/src/internal/prompt.ts:36-53 | every heading ends with ":\n" |
| PromptBuilder.ToolCallBlock | packages/langchain-copilot/src/internal/prompt.ts:44-50 | the tool-call block is empty iff the message is not from the assistant or has no calls |
| PromptBuilder.FormatMessage | packages/langchain-copilot/src/internal/prompt.ts:32-54 | a message is its heading, its text, then its tool-call block |
| PromptBuilder.FormattedMessages | packages/langchain-copilot/src/internal/prompt.ts:31-54 | one block per message, in order |
| PromptBuilder.FormatAppended | packages/langchain-copilot/src/internal/prompt.ts:30-56 | an appended message adds a blank line and its block |
| PromptBuilder.BuildPrompt | packages/langchain-copilot/src/internal/prompt.ts:58-76 | the pushes and joins equal the specification `PromptText` |
| PromptBuilder.InstructionsNonEmpty | packages/langchain-copilot/src/internal/prompt.ts:64-72 | every instruction pushed is non-empty |
| PromptBuilder.InstructionsIncluded | packages/langchain-copilot/src/internal/prompt.ts:66-72 | the tool instruction is there iff tools are given; the structured one iff structured output is asked for |
| PromptBuilder.JoinKept | packages/langchain-copilot/src/internal/prompt.ts:75 | joining the non-empty of two parts |
| PromptBuilder.PromptLayout | packages/langchain-copilot/src/internal/prompt.ts:74-75 | the instructions, a blank line, then the conversation, each left out when empty |
| PromptBuilder.RepairPromptEndsWithAnswer | packages/langchain-copilot/src/internal/prompt.ts:78-85 | the repair prompt is the three fixed lines, then the answer to fix, last |
| PromptBuilder.RepairPromptInjective | packages/langchain-copilot/src/internal/prompt.ts:78-85 | different answers give different repair prompts |
| ChatModel.NewModel | packages/langchain-copilot/src/copilot-chat-model.ts:43-52 | defaults: an empty client configuration, choice "auto", one parse retry |
| ChatModel.BindTools | packages/langchain-copilot/src/copilot-chat-model.ts:58-70 | keeps the client settings and client, binds the tools, resets retries and logger; a later call's choice still wins, else the bound choice acts as the original did |
| ChatModel.MergeIdentities | packages/langchain-copilot/src/copilot-chat-model.ts:275-278 | spreading nothing changes nothing; spreading the same overrides twice is spreading once |
| ChatModel.ClientConfig | packages/langchain-copilot/src/copilot-chat-model.ts:275-281 | the spread configuration, with `silent` and `noColor` true unless set |
| ChatModel.CreateClient | packages/langchain-copilot/src/copilot-chat-model.ts:270-284 | the injected client only for empty overrides; otherwise a new client over the spread configuration, failing iff it does not validate |
| ChatModel.PromptConfig | packages/langchain-copilot/src/copilot-chat-model.ts:417 | prompts run with the model's settings plus `silent` and `noColor` |
| ChatModel.PromptsRunQuiet | packages/langchain-copilot/src/copilot-chat-model.ts:417 | every prompt's command line carries `--silent` and `--no-color` |
| ChatModel.RunPrompt | packages/langchain-copilot/src/copilot-chat-model.ts:286-292 | `runPrompt` through `executePrompt` equals the specification `PromptResult` |
| ChatModel.PromptIgnoresInjectedClient | packages/langchain-copilot/src/copilot-chat-model.ts:270-292 | prompts never use the injected client, because the overrides are never empty |
| ChatModel.Retry | packages/langchain-copilot/src/copilot-chat-model.ts:294-390 | at most `retries` repairs, numbered from the next attempt, the first for the failed answer; a good answer needs none; each failure's kind is logged; a success is some answer that reads; a read failure means every retry was used |
| ChatModel.ValidationFailuresClassified | packages/langchain-copilot/src/copilot-chat-model.ts:311 | every failed validation is logged as a validation error |
| ChatModel.PrefixedValidation | packages/langchain-copilot/src/copilot-chat-model.ts:311 | a message with the validation prefix is a validation error |
| ChatModel.ToolAttempt | packages/langchain-copilot/src/copilot-chat-model.ts:351-354 | a reply that parses and passes the tool check is returned as parsed; an accepted reply passes the tool check; parse and check failures pass through unchanged |
| ChatModel.ToolErrorKind | packages/langchain-copilot/src/copilot-chat-model.ts:357 | a validation error iff the reply broke the choice or named an unknown tool |
| ChatModel.ExpectedToolCallClassified | packages/langchain-copilot/src/copilot-chat-model.ts:357 | the required-call failure is logged as the corrected kind says |
| ChatModel.UnknownToolClassified | packages/langchain-copilot/src/copilot-chat-model.ts:357 | the unknown-tool failure is logged as the corrected kind says |
| ChatModel.UnparsableMisclassified | packages/langchain-copilot/src/copilot-chat-model.ts:357 | an unreadable reply is logged as a validation error by the message test, where its origin says parse error |
| ChatModel.RepairAfterLayout | packages/langchain-copilot/src/copilot-chat-model.ts:371-374 | a tool repair prompt is the call's prompt, a blank line, then the repair request |
| ChatModel.ToolPromptNonEmpty | packages/langchain-copilot/src/copilot-chat-model.ts:371 | with tools the base prompt is never empty, so it is never filtered out |
| ChatModel.ToolRetry | packages/langchain-copilot/src/copilot-chat-model.ts:340-390 | a tool reply accepted after any number of repairs passes the tool check |
| ChatModel.BuildLlmOutput | packages/langchain-copilot/src/copilot-chat-model.ts:434-450 | prompt and completion tokens are the input and output counts; the total is their sum, NaN when either is; the CLI's metrics are passed on |
| ChatModel.PlainGeneration | packages/langchain-copilot/src/copilot-chat-model.ts:189-198 | off the tool path the text is the CLI's answer, with no calls |
| ChatModel.GeneratedCallsAreBound | packages/langchain-copilot/src/copilot-chat-model.ts:145-186 | calls appear only on the tool path, every call names a bound tool, and a required call leaves the text empty |
| ChatModel.PlainPrompt | packages/langchain-copilot/src/copilot-chat-model.ts:136-138 | without tools the prompt is the conversation alone |
| ChatModel.StructuredPromptLayout | packages/langchain-copilot/src/copilot-chat-model.ts:86-95 | the structured prompt is the instruction (schema and name, no description), then the conversation |
| ChatModel.InvokeStructured | packages/langchain-copilot/src/copilot-chat-model.ts:86-128 | a structured answer comes from a successful first run, keeps that run's output as raw, and its value passes Ajv or comes out of zod's parse |

## Left out

- I/O is given as parameters:
  - running the CLI (`CommandExecutor`, its spawn, timeout and stream handling) is the `Executor` function, which either completes with exit code, stdout and stderr or rejects with a `CopilotError` (a timeout, or a CLI that cannot be spawned); which of these a real run gives is not modelled;
  - the session-state directory (`access`, `readdir`, `readFile`, `stat`, the home directory) is the `SessionStore` value; a failing `readdir` is its `readdirFailure`, passed on as a `FileSystemError` carrying the message only;
  - the paths are relative to that directory.
- Libraries are given as functions:
  - YAML parsing, and the `Date` conversion of `created_at`/`updated_at` to millisecond timestamps, are the `yaml` function of the store;
  - `JSON.parse`, `JSON.stringify` (including key order and indentation), number formatting, zod, `zodToJsonSchema` and Ajv are the `Library` bundle;
  - their results are not modelled.
- `Library.typeErrorText`: the TypeError message the engine throws when reading a property of a `null` tool call or reply, or when calling `map` on a non-array, is one uninterpreted text.
- An invalid `Date` (NaN timestamp) in the session comparator is not modelled: timestamps are integers.
- Floating point: counts and durations are exact rationals, so IEEE rounding of `parseFloat` and of `x * 1000` is not modelled. `Math.round` is `floor(x + 1/2)`, which agrees with JavaScript for the non-negative values that occur.
- `TokenCount`: the `|| 0` fallback is modelled; NaN from a scaled count stays NaN, as in the source.
- Regular expressions: each of the nine patterns is a sequence of greedy elements matched without backtracking and searched leftmost. For these patterns, backtracking cannot change the match the source gets, because each greedy run is followed by a character it cannot consume.
- Case-insensitive matching and `toLowerCase` fold ASCII letters only.
- The lazy fence pattern of `extractJson` is modelled for the tags "json" and nothing. A tag is recognised case-insensitively, and white space is skipped after it.
- Static `CopilotClient.listSessions`, `getSession`, `getMostRecentSession` and `sessionExists` are the `SessionManager` operations. Each only creates a manager and delegates.
- `CopilotClient.constructor`: requires a valid configuration. The throwing path is `NewClient`.
- The default `CommandExecutor` and the client's own `SessionManager` are the parameters of `Client.Prompt`.
- `normalizeBoundTools` and the conversion of LangChain and OpenAI tool formats are not modelled. `bindTools` takes tools already in the `CopilotToolDefinition` form, because the conversion is LangChain's `convertToOpenAITool`.
- `coerceMessages` and the message classes are not modelled. A message is its role, content, name, tool call id and tool calls.
- `_streamResponseChunks` is not modelled: it streams through a different executor (`stream-executor.ts`) and re-chunks text.
- Logging is not modelled:
  - `log`, `logEvent` and the log payloads;
  - `getModelName`, which only feeds the logs;
  - `_llmType`.
  - The retry loops record the kind of each failure they would log, as `kinds`.
- The `randomUUID` ids of generated tool calls are not modelled. Calls keep their name and arguments.
- `maxParseRetries` that is not a whole number is not modelled: retries are integers.
- `ListOptions.limit` that is not a whole number is not modelled: the limit is an integer. `slice` would truncate a fractional limit and treat `NaN` and `Infinity` as no limit; every caller passes a whole number.
- JsonValues.JsString: `String(v)` of an object with its own `toString` key, or an array holding one, is a TypeError in JavaScript but "[object Object]" here. The tool reply reader checks `StringThrows` first and fails. Message content does not: see the next two lines.
- PromptBuilder.PartString: a part whose `text` is an object with its own `toString` key throws in `contentToString`, but is written as "[object Object]" here. Message content comes from the caller's LangChain messages, not from the CLI, and the prompt is a string throughout the chat model.
- PromptBuilder.ContentToString: the same TypeError for such a part of array content is not modelled, for the same reason.
- `Merge`: an override key present with the value `undefined` is treated as absent. `Object.keys` would count it, so `createClient` would then skip the injected client.
- `BuildLlmOutput`: the `?? 0` fallbacks are modelled as no-ops, because `parseCliOutput` always sets both counts.
- `withStructuredOutput` with `includeRaw` returns the raw answer beside the parsed value (`StructuredAnswer`); without it, only `parsed` is used. The `AIMessage` wrapper is not modelled.
- `ToolRetry`: logs each failure with the corrected classification `ToolErrorKind`. The classification as written is kept as `ToolErrorKindOfMessage`; see Findings.

## Findings

| source | as written | input that shows it | evidently intended | confidence | as-written member | corrected member |
|---|---|---|---|---|---|---|
| packages/langchain-copilot/src/copilot-chat-model.ts:357 | a tool failure is logged as `validation_error` whenever its message contains "tool" | a reply that is a JSON object with no `type`, no calls and no string `content` fails with "Unable to parse tool response JSON.", which contains "tool" and is logged as `validation_error` | an unreadable reply is a `parse_error`; only a broken choice or an unknown tool is a `validation_error` | medium, not executed | ChatModel.UnparsableMisclassified | ChatModel.ToolErrorKind |
