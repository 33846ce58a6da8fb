/** The prompt the LangChain adapter sends to the CLI: the conversation
    written out as labelled blocks, preceded by the tool and structured-output
    instructions when they apply, and the fixed prompt that asks the model to
    repair an answer that was not valid JSON. */
module PromptBuilder {
  import opened Wrappers
  import opened Text
  import opened JsonValues
  import opened StructuredOutput
  import opened ToolsAdapter

  /** The message kinds `_getType()` reports, any other kind kept by name. */
  datatype Role = SystemRole | HumanRole | ToolRole | AiRole | OtherRole(kind: string)

  /** A conversation message: its content as a JSON value (a string, an
      array of parts, or another value), the tool name and call id a tool
      message may carry, and the tool calls an assistant message may carry. */
  datatype Message = Message(
    role: Role,
    content: Json,
    name: Option<string>,
    toolCallId: Option<string>,
    toolCalls: seq<Json>)

  const Separator := "\n\n"

  // ---------------------------------------------------------------------
  // Messages
  // ---------------------------------------------------------------------

  /** One part of an array content: a string as it is, an object with a
      `text` field as `String(text)`, anything else as JSON. */
  function PartString(part: Json, lib: Library): (r: string)
    ensures part.JString? ==> r == part.s
    ensures part.JObject? && "text" in part.fields ==> r == JsString(part.fields["text"], lib)
  {
    if part.JString? then part.s
    else if part.JObject? && "text" in part.fields then JsString(part.fields["text"], lib)
    else lib.stringify(part)
  }

  function PartStrings(parts: seq<Json>, lib: Library): (r: seq<string>)
    ensures |r| == |parts|
    ensures forall i :: 0 <= i < |parts| ==> r[i] == PartString(parts[i], lib)
  {
    seq(|parts|, i requires 0 <= i < |parts| => PartString(parts[i], lib))
  }

  /** `contentToString`. */
  function ContentToString(content: Json, lib: Library): (r: string)
    ensures content.JString? ==> r == content.s
    ensures content == JNull ==> r == ""
    ensures content.JObject? ==> r == lib.stringify(content)
  {
    match content
    case JString(s) => s
    case JArray(parts) => Concat(PartStrings(parts, lib))
    case JObject(_) => lib.stringify(content)
    case JNull => ""
    case _ => JsString(content, lib)
  }

  /** Array content is written part by part: the content of two runs of
      parts is the content of the first followed by that of the second. */
  lemma ContentOfJoinedParts(a: seq<Json>, b: seq<Json>, lib: Library)
    ensures ContentToString(JArray(a + b), lib) == ContentToString(JArray(a), lib) + ContentToString(JArray(b), lib)
  {
    assert PartStrings(a + b, lib) == PartStrings(a, lib) + PartStrings(b, lib);
    ConcatAppend(PartStrings(a, lib), PartStrings(b, lib));
  }

  /** Array content made of strings is their concatenation. */
  lemma {:induction false} StringParts(parts: seq<Json>, lib: Library)
    requires forall i :: 0 <= i < |parts| ==> parts[i].JString?
    ensures ContentToString(JArray(parts), lib) == Concat(seq(|parts|, i requires 0 <= i < |parts| => parts[i].s))
  {
    if |parts| > 0 {
      var n := |parts| - 1;
      StringParts(parts[..n], lib);
      ContentOfJoinedParts(parts[..n], [parts[n]], lib);
      assert parts[..n] + [parts[n]] == parts;
      var strings := seq(|parts|, i requires 0 <= i < |parts| => parts[i].s);
      assert strings[..n] == seq(n, i requires 0 <= i < n => parts[..n][i].s);
      assert Concat(PartStrings([parts[n]], lib)) == parts[n].s by {
        assert PartStrings([parts[n]], lib) == [parts[n].s];
        assert Concat([parts[n].s]) == Concat([]) + parts[n].s;
      }
    }
  }

  /** The label of a tool message: `name ?? tool_call_id ?? "tool"`. */
  function ToolLabel(message: Message): (r: string)
    ensures message.name.Some? ==> r == message.name.value
    ensures message.name.None? && message.toolCallId.Some? ==> r == message.toolCallId.value
    ensures message.name.None? && message.toolCallId.None? ==> r == "tool"
  {
    message.name.GetOr(message.toolCallId.GetOr("tool"))
  }

  /** The heading written before a message's text. */
  function Heading(message: Message): (r: string)
    ensures EndsWith(r, ":\n")
  {
    match message.role
    case SystemRole => "System:\n"
    case HumanRole => "User:\n"
    case ToolRole => "Tool (" + ToolLabel(message) + "):\n"
    case AiRole => "Assistant:\n"
    case OtherRole(_) => "Message:\n"
  }

  /** The block of tool calls after an assistant message's text, only when
      it carries some. */
  function ToolCallBlock(message: Message, lib: Library): (r: string)
    ensures r == "" <==> message.role != AiRole || message.toolCalls == []
  {
    if message.role == AiRole && |message.toolCalls| > 0
    then "\n\nTool Calls:\n" + lib.stringify(JArray(message.toolCalls))
    else ""
  }

  /** One message written out: the heading, the text, and the tool calls. */
  function FormatMessage(message: Message, lib: Library): (r: string)
    ensures var head := Heading(message);
      var text := ContentToString(message.content, lib);
      && |head| + |text| <= |r|
      && r[..|head|] == head && r[|head|..|head| + |text|] == text
      && (|r| == |head| + |text| <==> message.role != AiRole || message.toolCalls == [])
  {
    Heading(message) + ContentToString(message.content, lib) + ToolCallBlock(message, lib)
  }

  function FormattedMessages(messages: seq<Message>, lib: Library): (r: seq<string>)
    ensures |r| == |messages|
    ensures forall i :: 0 <= i < |messages| ==> r[i] == FormatMessage(messages[i], lib)
  {
    seq(|messages|, i requires 0 <= i < |messages| => FormatMessage(messages[i], lib))
  }

  /** `formatMessages`: the messages written out, separated by blank lines. */
  function FormatMessages(messages: seq<Message>, lib: Library): string {
    Join(FormattedMessages(messages, lib), Separator)
  }

  /** A message added to a conversation adds a blank line and its block at
      the end, leaving what was written for the earlier messages unchanged. */
  lemma FormatAppended(messages: seq<Message>, message: Message, lib: Library)
    ensures FormatMessages(messages + [message], lib)
      == if messages == [] then FormatMessage(message, lib)
         else FormatMessages(messages, lib) + Separator + FormatMessage(message, lib)
  {
    var all := FormattedMessages(messages + [message], lib);
    if messages != [] {
      JoinSplitAt(all, Separator, |messages|);
      assert all[..|messages|] == FormattedMessages(messages, lib);
      assert all[|messages|..] == [FormatMessage(message, lib)];
    } else {
      assert all == [FormatMessage(message, lib)];
    }
  }

  // ---------------------------------------------------------------------
  // The prompt
  // ---------------------------------------------------------------------

  predicate HasTools(tools: Option<seq<ToolPrompt>>) {
    tools.Some? && |tools.value| > 0
  }

  /** The instructions, in order: the tool instruction when tools are bound
      (the choice defaulting to "auto"), then the structured instruction when
      structured output is asked for. */
  function Instructions(tools: Option<seq<ToolPrompt>>, choice: Option<ToolChoice>,
                        structured: Option<StructuredConfig>, lib: Library): seq<string> {
    (if HasTools(tools) then [ToolInstruction(tools.value, choice.GetOr(ChoiceAuto), lib)] else [])
    + (if structured.Some? then [StructuredInstruction(structured.value, lib)] else [])
  }

  /** The prompt `buildPrompt` returns. */
  function PromptText(messages: seq<Message>, tools: Option<seq<ToolPrompt>>, choice: Option<ToolChoice>,
                      structured: Option<StructuredConfig>, lib: Library): string {
    Join(NonEmpty([Join(Instructions(tools, choice, structured, lib), Separator), FormatMessages(messages, lib)]), Separator)
  }

  /** `buildPrompt`: collects the instructions, then joins them and the
      conversation, leaving out an empty side. */
  method BuildPrompt(messages: seq<Message>, tools: Option<seq<ToolPrompt>>, choice: Option<ToolChoice>,
                     structured: Option<StructuredConfig>, lib: Library) returns (r: string)
    ensures r == PromptText(messages, tools, choice, structured, lib)
  {
    var instructions: seq<string> := [];
    if tools.Some? && |tools.value| > 0 {
      var toolInstruction := BuildToolInstruction(tools.value, choice.GetOr(ChoiceAuto), lib);
      instructions := instructions + [toolInstruction];
    }
    if structured.Some? {
      instructions := instructions + [StructuredInstruction(structured.value, lib)];
    }
    var serialized := FormatMessages(messages, lib);
    r := Join(NonEmpty([Join(instructions, Separator), serialized]), Separator);
  }

  /** A join whose first part is non-empty is non-empty. */
  lemma JoinOfNonEmptyFirst(parts: seq<string>, sep: string)
    requires parts != [] && parts[0] != ""
    ensures Join(parts, sep) != ""
  {
    if |parts| > 1 {
      assert |Join(parts, sep)| >= |parts[0]|;
    }
  }

  /** Both instructions are non-empty text. */
  lemma InstructionsNonEmpty(tools: Option<seq<ToolPrompt>>, choice: Option<ToolChoice>,
                             structured: Option<StructuredConfig>, lib: Library)
    ensures forall k :: 0 <= k < |Instructions(tools, choice, structured, lib)| ==>
      Instructions(tools, choice, structured, lib)[k] != ""
  {
    if HasTools(tools) {
      var lines := InstructionLines(tools.value, choice.GetOr(ChoiceAuto), lib);
      assert lines[0] == IntroLine;
      JoinOfNonEmptyFirst(lines, "\n");
    }
    if structured.Some? {
      var config := structured.value;
      var lines := [SchemaLine, Header(config.name), DescriptionLine(config.description), SchemaText(config.schema, lib)];
      assert lines[0] != "";
      assert NonEmpty(lines)[0] == SchemaLine;
      JoinOfNonEmptyFirst(NonEmpty(lines), "\n");
    }
  }

  /** The instructions present: the tool instruction exactly when tools are
      bound, first; the structured instruction exactly when asked for, last. */
  lemma InstructionsIncluded(tools: Option<seq<ToolPrompt>>, choice: Option<ToolChoice>,
                             structured: Option<StructuredConfig>, lib: Library)
    ensures var ins := Instructions(tools, choice, structured, lib);
      && |ins| == (if HasTools(tools) then 1 else 0) + (if structured.Some? then 1 else 0)
      && (HasTools(tools) ==> ins[0] == ToolInstruction(tools.value, choice.GetOr(ChoiceAuto), lib))
      && (structured.Some? ==> ins[|ins| - 1] == StructuredInstruction(structured.value, lib))
  {
  }

  /** `.filter(Boolean).join` of two parts. */
  lemma JoinKept(a: string, b: string, sep: string)
    ensures Join(NonEmpty([a, b]), sep)
      == if a == "" then b else if b == "" then a else a + sep + b
  {
    assert [a, b][1..] == [b];
    assert [b][1..] == [];
    assert NonEmpty([b]) == (if b == "" then [] else [b]);
    if a != "" && b != "" {
      assert NonEmpty([a, b]) == [a, b];
    }
  }

  /** The layout of the prompt: with no instructions it is exactly the
      conversation; otherwise the instructions, separated by blank lines,
      come first, then a blank line and the conversation unless that is
      empty. */
  lemma PromptLayout(messages: seq<Message>, tools: Option<seq<ToolPrompt>>, choice: Option<ToolChoice>,
                     structured: Option<StructuredConfig>, lib: Library)
    ensures var instructions := Join(Instructions(tools, choice, structured, lib), Separator);
      var serialized := FormatMessages(messages, lib);
      var prompt := PromptText(messages, tools, choice, structured, lib);
      && (!HasTools(tools) && structured.None? ==> prompt == serialized)
      && (HasTools(tools) || structured.Some? ==>
            prompt == if serialized == "" then instructions else instructions + Separator + serialized)
  {
    var ins := Instructions(tools, choice, structured, lib);
    var instructions := Join(ins, Separator);
    JoinKept(instructions, FormatMessages(messages, lib), Separator);
    if HasTools(tools) || structured.Some? {
      InstructionsNonEmpty(tools, choice, structured, lib);
      JoinOfNonEmptyFirst(ins, Separator);
    } else {
      assert ins == [];
    }
  }

  // ---------------------------------------------------------------------
  // Repair
  // ---------------------------------------------------------------------

  const RepairLines := ["You must return ONLY valid JSON.",
                        "No prose. No Markdown. No code fences.",
                        "Fix the following output so it is valid JSON:"]

  /** What comes before the answer in a repair prompt. */
  const RepairPrefix := RepairLines[0] + Separator + RepairLines[1] + Separator + RepairLines[2] + Separator

  /** `buildRepairPrompt`: the three fixed lines and the answer, separated by
      blank lines. */
  function RepairPrompt(raw: string): string {
    Join(RepairLines + [raw], Separator)
  }

  /** The answer to repair is the last part of the repair prompt, after a
      fixed prefix, so it can be read back unchanged. */
  lemma RepairPromptEndsWithAnswer(raw: string)
    ensures RepairPrompt(raw) == RepairPrefix + raw
    ensures RepairPrompt(raw)[|RepairPrefix|..] == raw
  {
    var parts := RepairLines + [raw];
    JoinCons(parts[0], parts[1..], Separator);
    assert [parts[0]] + parts[1..] == parts;
    JoinCons(parts[1], parts[2..], Separator);
    assert [parts[1]] + parts[2..] == parts[1..];
    JoinCons(parts[2], parts[3..], Separator);
    assert [parts[2]] + parts[3..] == parts[2..];
    assert parts[3..] == [raw];
  }

  /** Different answers give different repair prompts. */
  lemma RepairPromptInjective(a: string, b: string)
    requires RepairPrompt(a) == RepairPrompt(b)
    ensures a == b
  {
    RepairPromptEndsWithAnswer(a);
    RepairPromptEndsWithAnswer(b);
  }
}
