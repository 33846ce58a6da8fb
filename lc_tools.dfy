/** The tool-calling protocol of the LangChain adapter: the tool choice as
    the adapter keeps it, the tool list shown to the model, the instruction
    that explains the reply format, the reading of a reply, and the check of
    a reply against the choice and the declared tools. */
module ToolsAdapter {
  import opened Wrappers
  import opened Text
  import opened JsonValues
  import opened StructuredOutput

  /** `InternalToolChoice`. */
  datatype ToolChoice = ChoiceAuto | ChoiceNone | ChoiceRequired | ChoiceNamed(name: string)

  /** A bound tool: a name, maybe a description, maybe a parameter schema. */
  datatype ToolDefinition = ToolDefinition(name: string, description: Option<string>, schema: Option<Schema>)

  /** A tool as the prompt lists it. */
  datatype ToolPrompt = ToolPrompt(name: string, description: string, parameters: Option<Json>)

  datatype ToolCall = ToolCall(name: string, args: Json)

  /** What a reply asks for: a final answer or a list of tool calls. */
  datatype ToolResponse = Final(content: string) | ToolCalls(calls: seq<ToolCall>)

  /** Why reading or checking a reply failed: the JSON could not be
      extracted or parsed, the engine threw a TypeError (a property read of
      `null`, or `map` on something that is not an array), the JSON is no
      tool reply, or the reply breaks the choice or names an unknown tool. */
  datatype ToolError =
    | ExtractFailed(message: string)
    | EngineTypeError
    | Unparsable
    | ExpectedToolCall
    | UnknownTool(name: string)

  const UnparsableMessage := "Unable to parse tool response JSON."
  const ExpectedToolCallMessage := "Expected a tool call but got a final response."
  const UnknownToolPrefix := "Unknown tool requested: "

  /** The message of the thrown error. */
  function ErrorMessage(e: ToolError, lib: Library): string {
    match e
    case ExtractFailed(m) => m
    case EngineTypeError => lib.typeErrorText
    case Unparsable => UnparsableMessage
    case ExpectedToolCall => ExpectedToolCallMessage
    case UnknownTool(name) => UnknownToolPrefix + name
  }

  // ---------------------------------------------------------------------
  // Tool choice
  // ---------------------------------------------------------------------

  /** The choice a value names when it is an object: its `name` when that is
      a non-empty string. */
  function NamedObject(v: Json): Option<string> {
    if v.JObject? && "name" in v.fields && v.fields["name"].JString? && v.fields["name"].s != ""
    then Some(v.fields["name"].s)
    else None
  }

  /** `normalizeToolChoice`. */
  function NormalizeToolChoice(choice: Option<Json>): (r: ToolChoice)
    ensures r.ChoiceNamed? ==> r.name != ""
    ensures !Truthy(choice) ==> r == ChoiceAuto
    ensures r == ChoiceNone <==> choice == Some(JString("none"))
    ensures r == ChoiceRequired <==> choice == Some(JString("any")) || choice == Some(JString("required"))
    ensures (choice.Some? && choice.value.JString? && choice.value.s !in ["", "auto", "none", "any", "required"])
              ==> r == ChoiceNamed(choice.value.s)
    ensures choice.Some? && choice.value.JObject? ==>
              r == (if NamedObject(choice.value).Some? then ChoiceNamed(NamedObject(choice.value).value) else ChoiceAuto)
  {
    if !Truthy(choice) then ChoiceAuto
    else
      match choice.value
      case JString(s) =>
        if s == "auto" then ChoiceAuto
        else if s == "none" then ChoiceNone
        else if s == "any" || s == "required" then ChoiceRequired
        else ChoiceNamed(s)
      case JObject(_) =>
        var name := NamedObject(choice.value);
        if name.Some? then ChoiceNamed(name.value) else ChoiceAuto
      case _ => ChoiceAuto
  }

  /** A choice written back as the value a caller would pass for it. */
  function ChoiceJson(c: ToolChoice): Json {
    match c
    case ChoiceAuto => JString("auto")
    case ChoiceNone => JString("none")
    case ChoiceRequired => JString("required")
    case ChoiceNamed(name) => JObject(map["name" := JString(name)])
  }

  /** A choice `normalizeToolChoice` can return. */
  predicate ValidChoice(c: ToolChoice) {
    c.ChoiceNamed? ==> c.name != ""
  }

  /** Every choice `normalizeToolChoice` can return is mapped to itself. */
  lemma NormalizeKeepsOwnOutputs(c: ToolChoice)
    requires ValidChoice(c)
    ensures NormalizeToolChoice(Some(ChoiceJson(c))) == c
  {
    if c.ChoiceNamed? {
      assert NamedObject(ChoiceJson(c)) == Some(c.name);
    }
  }

  /** So normalizing twice is normalizing once. */
  lemma NormalizeIdempotent(choice: Option<Json>)
    ensures NormalizeToolChoice(Some(ChoiceJson(NormalizeToolChoice(choice)))) == NormalizeToolChoice(choice)
  {
    NormalizeKeepsOwnOutputs(NormalizeToolChoice(choice));
  }

  // ---------------------------------------------------------------------
  // Tool list
  // ---------------------------------------------------------------------

  /** One tool as the prompt lists it. */
  function NormalizeTool(tool: ToolDefinition, lib: Library): (r: ToolPrompt)
    ensures r.name == tool.name
    ensures r.description == (if tool.description.Some? then tool.description.value else "")
    ensures r.parameters.None? <==> tool.schema.None?
    ensures tool.schema.Some? && tool.schema.value.JsonSchema? ==> r.parameters == Some(tool.schema.value.json)
  {
    ToolPrompt(tool.name, tool.description.GetOr(""), SchemaToJson(tool.schema, lib))
  }

  /** `normalizeTools`: each tool in turn. */
  function NormalizeTools(tools: seq<ToolDefinition>, lib: Library): (r: seq<ToolPrompt>)
    ensures |r| == |tools|
    ensures forall i :: 0 <= i < |tools| ==> r[i] == NormalizeTool(tools[i], lib)
  {
    seq(|tools|, i requires 0 <= i < |tools| => NormalizeTool(tools[i], lib))
  }

  function ToolNames(tools: seq<ToolPrompt>): set<string> {
    set i | 0 <= i < |tools| :: tools[i].name
  }

  function DefinitionNames(tools: seq<ToolDefinition>): set<string> {
    set i | 0 <= i < |tools| :: tools[i].name
  }

  /** Normalizing keeps exactly the declared names. */
  lemma NormalizedNames(tools: seq<ToolDefinition>, lib: Library)
    ensures ToolNames(NormalizeTools(tools, lib)) == DefinitionNames(tools)
  {
    var r := NormalizeTools(tools, lib);
    forall n | n in DefinitionNames(tools) ensures n in ToolNames(r) {
      var i :| 0 <= i < |tools| && tools[i].name == n;
      assert r[i].name == n;
    }
  }

  // ---------------------------------------------------------------------
  // Instruction
  // ---------------------------------------------------------------------

  /** A listed tool as a JSON object; `parameters` is left out when absent. */
  function ToolJson(tool: ToolPrompt): Json {
    var fields := map["name" := JString(tool.name), "description" := JString(tool.description)];
    JObject(if tool.parameters.Some? then fields["parameters" := tool.parameters.value] else fields)
  }

  function ToolsJson(tools: seq<ToolPrompt>): Json {
    JArray(seq(|tools|, i requires 0 <= i < |tools| => ToolJson(tools[i])))
  }

  const IntroLine := "You can call tools to help answer the user."
  const ListLine := "Available tools (JSON):"
  const CallFormatLine := "When calling a tool, respond with ONLY this JSON object:"
  const CallExample := "{\"type\":\"tool_call\",\"tool_calls\":[{\"name\":\"TOOL_NAME\",\"arguments\":{...}}]}"
  const FinalFormatLine := "When answering normally, respond with ONLY this JSON object:"
  const FinalExample := "{\"type\":\"final\",\"content\":\"YOUR_RESPONSE\"}"
  const RequiredLine := "You must call at least one tool."
  const NoToolsLine := "Do not call tools. Always respond with a final answer JSON object."

  function NamedLine(name: string): string {
    "You must call the tool named \"" + name + "\"."
  }

  /** The seven fixed lines, the tool list third. */
  function BaseLines(toolList: string): (r: seq<string>)
    ensures |r| == 7 && r[2] == toolList
  {
    [IntroLine, ListLine, toolList, CallFormatLine, CallExample, FinalFormatLine, FinalExample]
  }

  /** The line the choice adds, if any. */
  function ChoiceLines(choice: ToolChoice): seq<string> {
    match choice
    case ChoiceRequired => [RequiredLine]
    case ChoiceNamed(name) => if name != "" then [NamedLine(name)] else []
    case ChoiceNone => [NoToolsLine]
    case ChoiceAuto => []
  }

  function InstructionLines(tools: seq<ToolPrompt>, choice: ToolChoice, lib: Library): seq<string> {
    BaseLines(lib.stringify(ToolsJson(tools))) + ChoiceLines(choice)
  }

  /** The instruction `buildToolInstruction` returns. */
  function ToolInstruction(tools: seq<ToolPrompt>, choice: ToolChoice, lib: Library): string {
    Join(InstructionLines(tools, choice, lib), "\n")
  }

  /** `buildToolInstruction`: the fixed lines, then the choice's line. */
  method BuildToolInstruction(tools: seq<ToolPrompt>, choice: ToolChoice, lib: Library) returns (r: string)
    ensures r == ToolInstruction(tools, choice, lib)
  {
    var toolList := lib.stringify(ToolsJson(tools));
    var base := BaseLines(toolList);
    if choice == ChoiceRequired {
      base := base + [RequiredLine];
    } else if choice.ChoiceNamed? && choice.name != "" {
      base := base + [NamedLine(choice.name)];
    } else if choice == ChoiceNone {
      base := base + [NoToolsLine];
    } else {
      assert ChoiceLines(choice) == [];
      assert base + [] == base;
    }
    r := Join(base, "\n");
  }

  /** The instruction is the seven fixed lines with the tool list third,
      and one more line exactly when the choice is "required", names a tool
      or is "none". */
  lemma InstructionShape(tools: seq<ToolPrompt>, choice: ToolChoice, lib: Library)
    ensures var lines := InstructionLines(tools, choice, lib);
      && lines[..7] == BaseLines(lib.stringify(ToolsJson(tools)))
      && lines[2] == lib.stringify(ToolsJson(tools))
      && (|lines| == 8 <==> choice == ChoiceRequired || choice == ChoiceNone || (choice.ChoiceNamed? && choice.name != ""))
      && (|lines| == 7 <==> choice == ChoiceAuto || choice == ChoiceNamed(""))
  {
    var base := BaseLines(lib.stringify(ToolsJson(tools)));
    assert (base + ChoiceLines(choice))[..7] == base;
  }

  // ---------------------------------------------------------------------
  // Reading a reply
  // ---------------------------------------------------------------------

  /** Whether `String(call.name ?? "")` throws for an entry. */
  predicate NameThrows(call: Json) {
    Get(call, "name").Some? && StringThrows(Get(call, "name").value)
  }

  /** One entry of the calls list read as a call: the name as a string,
      the arguments from `arguments`, else `args`, else `{}`; the TypeError
      when the name cannot be converted to a string. */
  function ReadCall(call: Json, lib: Library): (r: Result<ToolCall, ToolError>)
    requires call != JNull
    ensures r.Failure? <==> NameThrows(call)
    ensures r.Failure? ==> r.error == EngineTypeError
    ensures r.Success? && Get(call, "name").Some? && Get(call, "name").value.JString? ==>
      r.value.name == Get(call, "name").value.s
    ensures r.Success? && Get(call, "arguments").Some? && Get(call, "arguments").value != JNull ==>
      r.value.args == Get(call, "arguments").value
  {
    var args := OrElse(Get(call, "arguments"), OrElse(Get(call, "args"), Some(JObject(map[]))));
    match StringOr(Get(call, "name"), lib)
    case None => Failure(EngineTypeError)
    case Some(name) => Success(ToolCall(name, args.GetOr(JObject(map[]))))
  }

  /** `calls?.map(...) ?? []`: nothing for a missing or `null` list, a
      TypeError for a list that is no array, holds a `null` entry or an
      entry whose name cannot be converted to a string. */
  function ReadCalls(calls: Option<Json>, lib: Library): (r: Result<seq<ToolCall>, ToolError>)
    ensures calls.None? || calls == Some(JNull) ==> r == Success([])
    ensures r.Success? && calls.Some? && calls.value.JArray? ==>
      && |r.value| == |calls.value.items|
      && forall i :: 0 <= i < |r.value| ==>
           && calls.value.items[i] != JNull && ReadCall(calls.value.items[i], lib).Success?
           && r.value[i] == ReadCall(calls.value.items[i], lib).value
    ensures r.Failure? ==> r.error == EngineTypeError
    ensures r.Failure? <==>
      calls.Some? && calls.value != JNull &&
      (!calls.value.JArray? || JNull in calls.value.items ||
       exists i :: 0 <= i < |calls.value.items| && NameThrows(calls.value.items[i]))
  {
    if calls.None? || calls.value == JNull then Success([])
    else if !calls.value.JArray? then Failure(EngineTypeError)
    else
      var items := calls.value.items;
      if JNull in items then Failure(EngineTypeError)
      else if exists i :: 0 <= i < |items| && NameThrows(items[i]) then Failure(EngineTypeError)
      else Success(seq(|items|, i requires 0 <= i < |items| => ReadCall(items[i], lib).value))
  }

  /** The parsed JSON read as a reply: a "final" type first, then a
      "tool_call" type or a truthy `tool_calls` or `toolCalls`, then a string
      `content`. */
  function Classify(parsed: Json, lib: Library): (r: Result<ToolResponse, ToolError>) {
    if parsed == JNull then Failure(EngineTypeError)
    else
      var kind := Get(parsed, "type");
      if kind == Some(JString("final")) then
        match StringOr(Get(parsed, "content"), lib)
        case None => Failure(EngineTypeError)
        case Some(content) => Success(Final(content))
      else if kind == Some(JString("tool_call")) || Truthy(Get(parsed, "tool_calls")) || Truthy(Get(parsed, "toolCalls")) then
        var calls :- ReadCalls(OrElse(Get(parsed, "tool_calls"), Get(parsed, "toolCalls")), lib);
        Success(ToolCalls(calls))
      else
        var content := Get(parsed, "content");
        if content.Some? && content.value.JString? then Success(Final(content.value.s))
        else Failure(Unparsable)
  }

  /** `parseToolResponse`. */
  function ParseToolResponse(raw: string, lib: Library): (r: Result<ToolResponse, ToolError>)
    ensures ExtractJson(raw, lib).Failure? ==> r == Failure(ExtractFailed(ExtractJson(raw, lib).error))
    ensures ExtractJson(raw, lib).Success? ==> r == Classify(ExtractJson(raw, lib).value, lib)
  {
    match ExtractJson(raw, lib)
    case Failure(m) => Failure(ExtractFailed(m))
    case Success(parsed) => Classify(parsed, lib)
  }

  /** A reply written as the JSON the instruction asks for. */
  function CallJson(call: ToolCall): Json {
    JObject(map["name" := JString(call.name), "arguments" := call.args])
  }

  function ResponseJson(response: ToolResponse): Json {
    match response
    case Final(content) => JObject(map["type" := JString("final"), "content" := JString(content)])
    case ToolCalls(calls) =>
      JObject(map["type" := JString("tool_call"),
                  "tool_calls" := JArray(seq(|calls|, i requires 0 <= i < |calls| => CallJson(calls[i])))])
  }

  /** Calls whose arguments are not `null` (a `null` would be replaced by
      `args` or `{}`). */
  predicate ArgsGiven(response: ToolResponse) {
    response.ToolCalls? ==> forall i :: 0 <= i < |response.calls| ==> response.calls[i].args != JNull
  }

  /** Reading a reply written in the instructed format gives back that
      reply. */
  lemma ClassifyRoundTrip(response: ToolResponse, lib: Library)
    requires ArgsGiven(response)
    ensures Classify(ResponseJson(response), lib) == Success(response)
  {
    var parsed := ResponseJson(response);
    if response.ToolCalls? {
      var calls := response.calls;
      var items := seq(|calls|, i requires 0 <= i < |calls| => CallJson(calls[i]));
      assert Get(parsed, "type") == Some(JString("tool_call"));
      assert OrElse(Get(parsed, "tool_calls"), Get(parsed, "toolCalls")) == Some(JArray(items));
      assert JNull !in items;
      assert forall i :: 0 <= i < |items| ==> Get(items[i], "name") == Some(JString(calls[i].name));
      var read := ReadCalls(Some(JArray(items)), lib);
      assert read.Success?;
      assert forall i :: 0 <= i < |calls| ==> read.value[i] == calls[i] by {
        forall i | 0 <= i < |calls| ensures read.value[i] == calls[i] {
          assert read.value[i] == ReadCall(items[i], lib).value;
          assert Get(items[i], "arguments") == Some(calls[i].args);
          assert Get(items[i], "name") == Some(JString(calls[i].name));
        }
      }
      assert read.value == calls;
    }
  }

  /** The same through `parseToolResponse`, whatever surrounds the JSON text,
      once the JSON parser reads the extracted text as that reply. */
  lemma ParseRoundTrip(raw: string, response: ToolResponse, lib: Library)
    requires ArgsGiven(response)
    requires ExtractJson(raw, lib) == Success(ResponseJson(response))
    ensures ParseToolResponse(raw, lib) == Success(response)
  {
    ClassifyRoundTrip(response, lib);
  }

  /** A "final" type wins over any calls listed beside it: the reply is
      `String(content ?? "")`, "" without content, and the TypeError when
      the content cannot be converted to a string. */
  lemma FinalTypeWins(parsed: Json, lib: Library)
    requires parsed.JObject? && Get(parsed, "type") == Some(JString("final"))
    ensures Classify(parsed, lib).Failure? <==>
      "content" in parsed.fields && StringThrows(parsed.fields["content"])
    ensures Classify(parsed, lib).Failure? ==> Classify(parsed, lib).error == EngineTypeError
    ensures Classify(parsed, lib).Success? ==>
      Classify(parsed, lib) == Success(Final(StringOr(Get(parsed, "content"), lib).value))
    ensures !("content" in parsed.fields) ==> Classify(parsed, lib) == Success(Final(""))
  {
  }

  /** The replies `{"type":"final","content":{"toString":"x"}}` and
      `{"tool_calls":[{"name":{"toString":1}}]}` are TypeErrors: the content
      and the call name cannot be converted to strings. */
  lemma OwnToStringReplies(lib: Library)
    ensures var content := JObject(map["toString" := JString("x")]);
      Classify(JObject(map["type" := JString("final"), "content" := content]), lib) == Failure(EngineTypeError)
    ensures var call := JObject(map["name" := JObject(map["toString" := JNumber(1.0)])]);
      Classify(JObject(map["tool_calls" := JArray([call])]), lib) == Failure(EngineTypeError)
  {
    var content := JObject(map["toString" := JString("x")]);
    var final := JObject(map["type" := JString("final"), "content" := content]);
    assert Get(final, "type") == Some(JString("final"));
    assert StringThrows(content);
    var call := JObject(map["name" := JObject(map["toString" := JNumber(1.0)])]);
    var calls := JObject(map["tool_calls" := JArray([call])]);
    assert Get(calls, "type") == None;
    assert Get(calls, "tool_calls") == Some(JArray([call]));
    assert NameThrows([call][0]);
    CallsWithoutFinalType(calls, [call], lib);
  }

  /** When the type is not "final", a calls list under `tool_calls`, or
      under `toolCalls` when `tool_calls` is missing or `null`, makes the
      reply a list of calls, one per entry and in order, whatever the type
      says. */
  lemma CallsWithoutFinalType(parsed: Json, items: seq<Json>, lib: Library)
    requires parsed.JObject? && Get(parsed, "type") != Some(JString("final"))
    requires OrElse(Get(parsed, "tool_calls"), Get(parsed, "toolCalls")) == Some(JArray(items))
    ensures Classify(parsed, lib).Failure? <==>
      JNull in items || exists i :: 0 <= i < |items| && NameThrows(items[i])
    ensures Classify(parsed, lib).Failure? ==> Classify(parsed, lib).error == EngineTypeError
    ensures Classify(parsed, lib).Success? ==>
      && Classify(parsed, lib).value.ToolCalls?
      && |Classify(parsed, lib).value.calls| == |items|
      && forall i :: 0 <= i < |items| ==> Classify(parsed, lib).value.calls[i] == ReadCall(items[i], lib).value
  {
    assert Truthy(Get(parsed, "tool_calls")) || Truthy(Get(parsed, "toolCalls"));
  }

  /** A reply that lists its calls only under the camel-case key
      `toolCalls`, with no type at all, is read as those calls. */
  lemma CamelCaseCalls(parsed: Json, items: seq<Json>, lib: Library)
    requires parsed.JObject? && !("type" in parsed.fields) && !("tool_calls" in parsed.fields)
    requires Get(parsed, "toolCalls") == Some(JArray(items)) && JNull !in items
    ensures Classify(parsed, lib).Success? <==> forall i :: 0 <= i < |items| ==> !NameThrows(items[i])
    ensures Classify(parsed, lib).Success? ==>
      && Classify(parsed, lib).value.ToolCalls?
      && |Classify(parsed, lib).value.calls| == |items|
      && forall i :: 0 <= i < |items| ==> Classify(parsed, lib).value.calls[i] == ReadCall(items[i], lib).value
  {
    CallsWithoutFinalType(parsed, items, lib);
  }

  /** A reply that is neither "final" nor a call reply is a final answer
      exactly when its `content` is a string, and then that string is the
      answer, without `String(...)` conversion. */
  lemma ContentFallback(parsed: Json, lib: Library)
    requires parsed.JObject? && Get(parsed, "type") != Some(JString("final"))
    requires Get(parsed, "type") != Some(JString("tool_call"))
    requires !Truthy(Get(parsed, "tool_calls")) && !Truthy(Get(parsed, "toolCalls"))
    ensures Classify(parsed, lib).Success? <==> "content" in parsed.fields && parsed.fields["content"].JString?
    ensures Classify(parsed, lib).Success? ==> Classify(parsed, lib) == Success(Final(parsed.fields["content"].s))
    ensures Classify(parsed, lib).Failure? ==> Classify(parsed, lib).error == Unparsable
  {
  }

  /** Without a type, calls or string content, the reply is rejected with
      "Unable to parse tool response JSON.". */
  lemma UnparsableReply(parsed: Json, lib: Library)
    requires parsed.JObject? && !("type" in parsed.fields) && !("tool_calls" in parsed.fields)
    requires !("toolCalls" in parsed.fields)
    requires !("content" in parsed.fields) || !parsed.fields["content"].JString?
    ensures Classify(parsed, lib) == Failure(Unparsable)
    ensures ErrorMessage(Classify(parsed, lib).error, lib) == UnparsableMessage
  {
  }

  // ---------------------------------------------------------------------
  // Checking a reply
  // ---------------------------------------------------------------------

  /** The name of the first call that names no allowed tool. */
  function FirstUnknown(calls: seq<ToolCall>, allowed: set<string>): (r: Option<string>)
    ensures r.None? <==> forall i :: 0 <= i < |calls| ==> calls[i].name in allowed
    ensures r.Some? ==> exists i :: 0 <= i < |calls| && calls[i].name == r.value && r.value !in allowed
                                 && forall j :: 0 <= j < i ==> calls[j].name in allowed
  {
    if calls == [] then None
    else if calls[0].name !in allowed then Some(calls[0].name)
    else
      var rest := FirstUnknown(calls[1..], allowed);
      assert forall i :: 1 <= i < |calls| ==> calls[i] == calls[1..][i - 1];
      rest
  }

  /** What `assertToolResponse` throws, if anything. */
  function ToolCheck(parsed: ToolResponse, choice: ToolChoice, tools: Option<seq<ToolPrompt>>): Outcome<ToolError> {
    if choice == ChoiceRequired && !parsed.ToolCalls? then Fail(ExpectedToolCall)
    else if !parsed.ToolCalls? then Pass
    else if tools.Some? && |tools.value| > 0 then
      match FirstUnknown(parsed.calls, ToolNames(tools.value))
      case Some(name) => Fail(UnknownTool(name))
      case None => Pass
    else Pass
  }

  /** `assertToolResponse`: the choice first, then each call in order
      against the set of declared names. */
  method AssertToolResponse(parsed: ToolResponse, choice: ToolChoice, tools: Option<seq<ToolPrompt>>)
    returns (r: Outcome<ToolError>)
    ensures r == ToolCheck(parsed, choice, tools)
  {
    if choice == ChoiceRequired && !parsed.ToolCalls? {
      return Fail(ExpectedToolCall);
    }
    if !parsed.ToolCalls? {
      return Pass;
    }
    if tools.Some? && |tools.value| > 0 {
      var allowed := set i | 0 <= i < |tools.value| :: tools.value[i].name;
      var calls := parsed.calls;
      for i := 0 to |calls|
        invariant FirstUnknown(calls, allowed) == FirstUnknown(calls[i..], allowed)
      {
        assert calls[i..][0] == calls[i] && calls[i..][1..] == calls[i + 1..];
        if calls[i].name !in allowed {
          return Fail(UnknownTool(calls[i].name));
        }
      }
      assert calls[|calls|..] == [];
    }
    return Pass;
  }

  /** A reply passes exactly when it is not a final answer under a
      "required" choice and, when tools are declared, every call names one
      of them; a failing check names the first unknown call. */
  lemma ToolCheckPasses(parsed: ToolResponse, choice: ToolChoice, tools: Option<seq<ToolPrompt>>)
    ensures ToolCheck(parsed, choice, tools) == Pass <==>
      && (choice == ChoiceRequired ==> parsed.ToolCalls?)
      && (parsed.ToolCalls? && tools.Some? && |tools.value| > 0 ==>
            forall i :: 0 <= i < |parsed.calls| ==> parsed.calls[i].name in ToolNames(tools.value))
    ensures ToolCheck(parsed, choice, tools).Fail? && ToolCheck(parsed, choice, tools).error.UnknownTool? ==>
      exists i :: 0 <= i < |parsed.calls| && parsed.calls[i].name == ToolCheck(parsed, choice, tools).error.name
                  && parsed.calls[i].name !in ToolNames(tools.value)
                  && forall j :: 0 <= j < i ==> parsed.calls[j].name in ToolNames(tools.value)
  {
  }

  /** A final answer passes unless a tool call is required; without declared
      tools any call names pass. */
  lemma FinalAndUndeclared(parsed: ToolResponse, choice: ToolChoice, tools: Option<seq<ToolPrompt>>)
    ensures parsed.Final? ==> (ToolCheck(parsed, choice, tools) == Pass <==> choice != ChoiceRequired)
    ensures parsed.ToolCalls? && (tools.None? || tools.value == []) ==> ToolCheck(parsed, choice, tools) == Pass
  {
  }
}
