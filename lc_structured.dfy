/** Structured output: the instruction that asks the model for JSON matching
    a schema, the location of the JSON in the model's answer (the inside of
    the first Markdown code fence when there is one, then the span from the
    first opening bracket to the last closing bracket of the same kind), and
    validation against the schema. */
module StructuredOutput {
  import opened Wrappers
  import opened Text
  import opened JsonValues

  /** `StructuredConfig`: the schema, and an optional name and description. */
  datatype StructuredConfig = StructuredConfig(schema: Schema, name: Option<string>, description: Option<string>)

  const Fence := "```"
  const NoJsonMessage := "No JSON object found in model response."
  const ValidationPrefix := "Structured output validation failed: "
  const SchemaLine := "Return ONLY valid JSON that matches the following schema."
  const DefaultHeader := "Return JSON that matches the schema."

  // ---------------------------------------------------------------------
  // The instruction

  /** A string option used as a condition: present and non-empty. */
  predicate Given(s: Option<string>) {
    s.Some? && s.value != ""
  }

  function Header(name: Option<string>): (r: string)
    ensures r != ""
  {
    if Given(name) then "Return JSON for: " + name.value else DefaultHeader
  }

  function DescriptionLine(description: Option<string>): (r: string)
    ensures r == "" <==> !Given(description)
  {
    if Given(description) then "Description: " + description.value else ""
  }

  /** The schema as JSON text, "{}" when the schema converts to a falsy
      value. */
  function SchemaText(schema: Schema, lib: Library): string {
    var json := SchemaToJson(Some(schema), lib);
    if Truthy(json) then lib.stringify(json.value) else "{}"
  }

  /** `buildStructuredInstruction`: the non-empty lines joined by newlines. */
  function StructuredInstruction(config: StructuredConfig, lib: Library): string {
    Join(NonEmpty([SchemaLine, Header(config.name), DescriptionLine(config.description), SchemaText(config.schema, lib)]), "\n")
  }

  /** The lines of the instruction: the fixed first line, the header
      naming the schema when a name is given, the description line only when
      a description is given, then the schema text (unless it is empty). */
  lemma StructuredLines(config: StructuredConfig, lib: Library)
    ensures var schemaText := SchemaText(config.schema, lib);
      StructuredInstruction(config, lib)
        == Join([SchemaLine, Header(config.name)]
                 + (if Given(config.description) then ["Description: " + config.description.value] else [])
                 + (if schemaText == "" then [] else [schemaText]), "\n")
  {
    KeptLines(SchemaLine, Header(config.name), DescriptionLine(config.description), SchemaText(config.schema, lib));
  }

  /** `.filter(Boolean)` of four lines, the first two non-empty. */
  lemma KeptLines(a: string, b: string, c: string, d: string)
    requires a != "" && b != ""
    ensures NonEmpty([a, b, c, d]) == [a, b] + (if c == "" then [] else [c]) + (if d == "" then [] else [d])
  {
    var ab, cd := [a, b], [c, d];
    assert NonEmpty(ab) == [a, b] by {
      assert ab == [a] + [b];
      NonEmptyAppend([a], [b]);
      NonEmptyOne(a);
      NonEmptyOne(b);
    }
    assert NonEmpty(cd) == (if c == "" then [] else [c]) + (if d == "" then [] else [d]) by {
      assert cd == [c] + [d];
      NonEmptyAppend([c], [d]);
      NonEmptyOne(c);
      NonEmptyOne(d);
    }
    assert [a, b, c, d] == ab + cd;
    NonEmptyAppend(ab, cd);
  }

  // ---------------------------------------------------------------------
  // Locating the JSON

  /** "json" in any case starts at `i`. */
  predicate JsonTagAt(raw: string, i: nat) {
    && i + 4 <= |raw|
    && LowerChar(raw[i]) == 'j' && LowerChar(raw[i + 1]) == 's'
    && LowerChar(raw[i + 2]) == 'o' && LowerChar(raw[i + 3]) == 'n'
  }

  lemma FenceStart(raw: string, i: int)
    requires OccursAt(raw, Fence, i)
    ensures raw[i] == '`' && !IsSpace(raw[i])
  {
    assert raw[i..i + 3][0] == raw[i];
  }

  lemma NotInTag(raw: string, i: nat, k: nat)
    requires JsonTagAt(raw, i) && i <= k < i + 4
    ensures raw[k] != '`'
  {
  }

  /** The bounds of the group of the first match of
      /```(?:json)?\s*([\s\S]*?)```/i: after the first fence, an optional
      "json" tag in any case and white space, up to the next fence. */
  function FenceBody(raw: string): (r: Option<(nat, nat)>)
    ensures r.Some? ==> r.value.0 <= r.value.1 && OccursAt(raw, Fence, r.value.1)
    ensures r.Some? ==> forall i :: r.value.0 <= i < r.value.1 ==> !OccursAt(raw, Fence, i)
  {
    var p := IndexOf(raw, Fence);
    if p < 0 then None
    else
      var close := IndexOfFrom(raw, Fence, p + 3);
      if close < 0 then None
      else
        var tag := if JsonTagAt(raw, p + 3) then p + 7 else p + 3;
        var q := SpanFrom(raw, tag, IsSpace);
        assert close >= q by {
          FenceStart(raw, close);
          if close < tag {
            NotInTag(raw, p + 3, close);
          }
        }
        var e := IndexOfFrom(raw, Fence, q);
        Some((q, e))
  }

  /** There is a fenced block exactly when two fences occur without
      overlapping. */
  lemma FenceBodyFound(raw: string)
    ensures FenceBody(raw).Some? <==> exists p, q :: OccursAt(raw, Fence, p) && OccursAt(raw, Fence, q) && p + 3 <= q
  {
    var p := IndexOf(raw, Fence);
    if p >= 0 && IndexOfFrom(raw, Fence, p + 3) < 0 {
      forall p', q | OccursAt(raw, Fence, p') && p' + 3 <= q
        ensures !OccursAt(raw, Fence, q)
      {
        assert p <= p';
      }
    }
  }

  /** The text searched for JSON: the fenced block's inside, else the whole
      answer. */
  function Candidate(raw: string): (c: string)
    ensures |c| <= |raw|
  {
    match FenceBody(raw)
    case Some((q, e)) => raw[q..e]
    case None => raw
  }

  predicate IsOpening(c: char) {
    c == '{' || c == '['
  }

  function Closer(c: char): char {
    if c == '[' then ']' else '}'
  }

  /** `start`: the first "{" or the first "[", whichever comes first, or -1
      when there is neither. */
  function FirstOpening(c: string): (r: int)
    ensures -1 <= r < |c|
    ensures r == -1 <==> forall k :: 0 <= k < |c| ==> !IsOpening(c[k])
    ensures r >= 0 ==> IsOpening(c[r]) && forall k :: 0 <= k < r ==> !IsOpening(c[k])
  {
    var objectStart := IndexOfChar(c, '{');
    var arrayStart := IndexOfChar(c, '[');
    if objectStart == -1 then arrayStart
    else if arrayStart == -1 then objectStart
    else if objectStart < arrayStart then objectStart else arrayStart
  }

  /** The span `[start, end]` handed on: `end` is the last "]" when `start`
      is the first "[", else the last "}"; none when `start` is -1 or `end`
      does not lie after `start`. */
  function JsonSpan(c: string): (r: Option<(nat, nat)>)
    ensures r.None? <==>
      (FirstOpening(c) == -1 || forall k :: FirstOpening(c) < k < |c| ==> c[k] != Closer(c[FirstOpening(c)]))
    ensures r.Some? ==> r.value.0 == FirstOpening(c) && r.value.0 < r.value.1 < |c|
    ensures r.Some? ==> c[r.value.1] == Closer(c[r.value.0])
    ensures r.Some? ==> forall k :: r.value.1 < k < |c| ==> c[k] != Closer(c[r.value.0])
  {
    var start := FirstOpening(c);
    var arrayStart := IndexOfChar(c, '[');
    var end := if start == arrayStart then LastIndexOfChar(c, ']') else LastIndexOfChar(c, '}');
    if start == -1 || end == -1 || end <= start then None else Some((start, end))
  }

  /** The text `extractJson` hands to `JSON.parse`. */
  function JsonText(raw: string): Option<string> {
    SpanText(Candidate(raw))
  }

  /** The trimmed span of a candidate, if it has one. */
  function SpanText(c: string): Option<string> {
    match JsonSpan(c)
    case Some((s, e)) => Some(Trim(c[s..e + 1]))
    case None => None
  }

  /** `extractJson`: "No JSON object found…" when no span is found, else
      what `JSON.parse` makes of the span. */
  function ExtractJson(raw: string, lib: Library): (r: Result<Json, string>)
    ensures JsonText(raw).None? ==> r == Failure(NoJsonMessage)
    ensures JsonText(raw).Some? ==> r == lib.parse(JsonText(raw).value)
  {
    match JsonText(raw)
    case None => Failure(NoJsonMessage)
    case Some(text) => lib.parse(text)
  }

  /** JSON text as the instruction asks for it: one object or array, with
      no code fence in it. */
  predicate BareJson(t: string) {
    && |t| >= 2
    && ((t[0] == '{' && t[|t| - 1] == '}') || (t[0] == '[' && t[|t| - 1] == ']'))
    && NoBacktick(t, 0, |t|)
  }

  predicate NoBacktick(s: string, lo: int, hi: int) {
    forall k :: lo <= k < hi && 0 <= k < |s| ==> s[k] != '`'
  }

  /** The first fence at or after `from`, when only backtick-free text lies
      before it. */
  lemma FenceAfter(raw: string, from: nat, close: nat)
    requires from <= close && OccursAt(raw, Fence, close) && NoBacktick(raw, from, close)
    ensures IndexOfFrom(raw, Fence, from) == close
  {
    forall i | from <= i < close
      ensures !OccursAt(raw, Fence, i)
    {
      assert raw[i] != '`';
      assert i + 3 <= |raw| ==> raw[i..i + 3][0] == raw[i];
    }
  }

  lemma NoFenceWithoutBacktick(raw: string)
    requires NoBacktick(raw, 0, |raw|)
    ensures FenceBody(raw).None?
  {
    forall p | 0 <= p
      ensures !OccursAt(raw, Fence, p)
    {
      assert p < |raw| ==> raw[p] != '`';
      assert p + 3 <= |raw| ==> raw[p..p + 3][0] == raw[p];
    }
  }

  /** The span of a candidate whose last closer of the first opening
      bracket's kind is at `e`. */
  lemma JsonSpanAt(c: string, e: nat)
    requires 0 <= FirstOpening(c) < e < |c|
    requires c[e] == Closer(c[FirstOpening(c)])
    requires forall k :: e < k < |c| ==> c[k] != Closer(c[FirstOpening(c)])
    ensures JsonSpan(c) == Some((FirstOpening(c), e))
  {
    var start := FirstOpening(c);
    var span := JsonSpan(c);
    assert span.Some? by {
      assert c[e] == Closer(c[start]);
    }
    assert span.value.1 == e by {
      var f := span.value.1;
      assert c[f] == Closer(c[start]);
      assert !(e < f) && !(f < e);
    }
  }

  /** The JSON text of an answer whose candidate is `c`, when the last
      closer of the first opening bracket's kind is at `e`. */
  lemma SpanTextAt(c: string, e: nat)
    requires 0 <= FirstOpening(c) < e < |c|
    requires c[e] == Closer(c[FirstOpening(c)])
    requires forall k :: e < k < |c| ==> c[k] != Closer(c[FirstOpening(c)])
    ensures SpanText(c) == Some(Trim(c[FirstOpening(c)..e + 1]))
  {
    JsonSpanAt(c, e);
  }

  /** Unless two fences occur without overlapping (no fence at all, or one
      left unclosed), the whole answer is searched. */
  lemma WholeCandidate(raw: string)
    requires forall p, q :: OccursAt(raw, Fence, p) && OccursAt(raw, Fence, q) ==> q < p + 3
    ensures Candidate(raw) == raw
  {
    FenceBodyFound(raw);
  }

  lemma TrimBare(t: string)
    requires BareJson(t)
    ensures Trim(t) == t
  {
  }

  /** An answer that is exactly the JSON is handed to the parser whole. */
  lemma BareAnswer(t: string)
    requires BareJson(t)
    ensures JsonText(t) == Some(t)
  {
    NoFenceWithoutBacktick(t);
    assert FirstOpening(t) == 0;
    SpanTextAt(t, |t| - 1);
    assert t[0..|t|] == t;
    TrimBare(t);
  }

  /** The layout of an answer with prose around the JSON. */
  lemma ProseLayout(before: string, t: string, after: string)
    requires BareJson(t)
    requires forall k :: 0 <= k < |before| ==> !IsOpening(before[k]) && before[k] != '`'
    requires forall k :: 0 <= k < |after| ==> after[k] != Closer(t[0]) && after[k] != '`'
    ensures var raw := before + t + after;
      var e := |before| + |t| - 1;
      && NoBacktick(raw, 0, |raw|)
      && FirstOpening(raw) == |before|
      && raw[e] == Closer(raw[|before|])
      && (forall k :: e < k < |raw| ==> raw[k] != Closer(raw[|before|]))
      && raw[|before|..e + 1] == t
  {
    var raw := before + t + after;
    var s, e := |before|, |before| + |t| - 1;
    assert raw[..s] == before && raw[s..e + 1] == t && raw[e + 1..] == after;
    forall k | 0 <= k < |raw|
      ensures raw[k] != '`'
    {
      if k < s {
        assert raw[k] == raw[..s][k];
      } else if k <= e {
        assert raw[k] == raw[s..e + 1][k - s];
      } else {
        assert raw[k] == raw[e + 1..][k - e - 1];
      }
    }
    forall k | 0 <= k < s
      ensures !IsOpening(raw[k])
    {
      assert raw[k] == raw[..s][k];
    }
    assert raw[s] == t[0] && raw[e] == t[|t| - 1];
    forall k | e < k < |raw|
      ensures raw[k] != Closer(t[0])
    {
      assert raw[k] == raw[e + 1..][k - e - 1];
    }
  }

  /** Prose around the JSON, free of brackets and backticks, is cut away. */
  lemma AnswerWithProse(before: string, t: string, after: string)
    requires BareJson(t)
    requires forall k :: 0 <= k < |before| ==> !IsOpening(before[k]) && before[k] != '`'
    requires forall k :: 0 <= k < |after| ==> after[k] != Closer(t[0]) && after[k] != '`'
    ensures JsonText(before + t + after) == Some(t)
  {
    var raw := before + t + after;
    ProseLayout(before, t, after);
    NoFenceWithoutBacktick(raw);
    SpanTextAt(raw, |before| + |t| - 1);
    TrimBare(t);
  }

  /** Where the fences of a fenced answer are, and what lies between. */
  lemma FencedLayout(before: string, t: string, after: string)
    requires BareJson(t)
    requires NoBacktick(before, 0, |before|)
    ensures var raw := before + "```json\n" + t + "\n```" + after;
      var p := |before|;
      var q := p + 8;
      var close := q + |t| + 1;
      && OccursAt(raw, Fence, p) && OccursAt(raw, Fence, close)
      && NoBacktick(raw, 0, p) && NoBacktick(raw, p + 3, close)
      && JsonTagAt(raw, p + 3) && IsSpace(raw[p + 7]) && !IsSpace(raw[q])
      && raw[q..close] == t + "\n"
  {
    var raw := before + "```json\n" + t + "\n```" + after;
    var p := |before|;
    var q := p + 8;
    var close := q + |t| + 1;
    assert raw[..p] == before;
    assert raw[p..q] == "```json\n";
    assert raw[q..close] == t + "\n";
    assert raw[close..close + 3] == Fence;
    assert raw[p..p + 3] == Fence;
    forall k | 0 <= k < p
      ensures raw[k] != '`'
    {
      assert raw[k] == raw[..p][k];
    }
    forall k | p + 3 <= k < close
      ensures raw[k] != '`'
    {
      if k < q {
        assert raw[k] == raw[p..q][k - p];
      } else {
        assert raw[k] == raw[q..close][k - q];
      }
    }
    assert raw[p + 3] == raw[p..q][3] && raw[p + 4] == raw[p..q][4];
    assert raw[p + 5] == raw[p..q][5] && raw[p + 6] == raw[p..q][6];
    assert raw[p + 7] == raw[p..q][7];
    assert raw[q] == t[0];
  }

  /** A fence at `p`, backtick-free text before it, the "json" tag and a
      newline, then text starting with a non-space character and free of
      backticks up to the next fence at `close`: the block is what lies
      between. */
  lemma FenceBodyOfLayout(raw: string, p: nat, close: nat)
    requires OccursAt(raw, Fence, p) && OccursAt(raw, Fence, close) && p + 8 <= close
    requires NoBacktick(raw, 0, p) && NoBacktick(raw, p + 3, close)
    requires JsonTagAt(raw, p + 3) && IsSpace(raw[p + 7]) && !IsSpace(raw[p + 8])
    ensures FenceBody(raw) == Some((p + 8, close))
    ensures Candidate(raw) == raw[p + 8..close]
  {
    FenceAfter(raw, 0, p);
    FenceAfter(raw, p + 3, close);
    assert SpanFrom(raw, p + 7, IsSpace) == p + 8;
    FenceAfter(raw, p + 8, close);
  }

  /** The fenced block of a fenced answer is the JSON and the newline after
      it. */
  lemma FencedCandidate(before: string, t: string, after: string)
    requires BareJson(t)
    requires NoBacktick(before, 0, |before|)
    ensures Candidate(before + "```json\n" + t + "\n```" + after) == t + "\n"
  {
    var raw := before + "```json\n" + t + "\n```" + after;
    var p := |before|;
    FencedLayout(before, t, after);
    FenceBodyOfLayout(raw, p, p + 9 + |t|);
  }

  /** The body of a fence, the JSON and its line break, gives back the JSON. */
  lemma FenceBodyText(t: string)
    requires BareJson(t)
    ensures SpanText(t + "\n") == Some(t)
  {
    var c := t + "\n";
    assert c[0] == t[0] && c[|t| - 1] == t[|t| - 1] && c[|t|] == '\n';
    assert FirstOpening(c) == 0;
    forall k | |t| - 1 < k < |c|
      ensures c[k] != Closer(c[0])
    {
      assert k == |t|;
    }
    SpanTextAt(c, |t| - 1);
    assert c[0..|t|] == t;
    TrimBare(t);
  }

  /** A fenced answer ("```json", a newline, the JSON, a newline, "```"),
      possibly after backtick-free prose, is found inside its fence. */
  lemma FencedAnswer(before: string, t: string, after: string)
    requires BareJson(t)
    requires NoBacktick(before, 0, |before|)
    ensures JsonText(before + "```json\n" + t + "\n```" + after) == Some(t)
  {
    FencedCandidate(before, t, after);
    FenceBodyText(t);
  }

  // ---------------------------------------------------------------------
  // Validation

  /** `validateStructured`: zod's parse result, or the value itself once Ajv
      accepts it; a failure is reported after a fixed prefix, with
      "unknown error" when Ajv gives no error text. */
  function ValidateStructured(value: Json, schema: Schema, lib: Library): (r: Result<Json, string>)
    ensures r.Failure? ==> StartsWith(r.error, ValidationPrefix)
    ensures schema.JsonSchema? ==> (r.Success? <==> lib.ajvCheck(schema.json, value).None?)
    ensures schema.JsonSchema? && r.Success? ==> r.value == value
    ensures schema.ZodSchema? ==> (r.Success? <==> lib.zodParse(schema.handle, value).Success?)
    ensures schema.ZodSchema? && r.Success? ==> r.value == lib.zodParse(schema.handle, value).value
    ensures schema.ZodSchema? && r.Failure? ==> r.error == ValidationPrefix + lib.zodParse(schema.handle, value).error
    ensures schema.JsonSchema? && r.Failure? ==>
      var errors := lib.ajvCheck(schema.json, value).value;
      r.error == ValidationPrefix + (if errors == "" then "unknown error" else errors)
  {
    match schema
    case ZodSchema(handle) =>
      (match lib.zodParse(handle, value)
       case Success(data) => Success(data)
       case Failure(message) => Failure(ValidationPrefix + message))
    case JsonSchema(json) =>
      (match lib.ajvCheck(json, value)
       case None => Success(value)
       case Some(errors) => Failure(ValidationPrefix + (if errors == "" then "unknown error" else errors)))
  }
}
