/** The parser of the Copilot CLI's standard output
    (packages/copilot-agent/src/executor/output-parser.ts): it separates the
    agent's answer from the statistics block the CLI prints after it and reads
    the premium-request estimate, the durations, the code-change counts and
    the per-model token line out of that block.

    The specification `CliOutput` states the result declaratively: where the
    block starts (`StatsStart`), what the answer is, and, for every metric,
    the value read from the LAST line of the block that carries it. The method
    `ParseCliOutput` is the source's imperative scan, with its backward
    search, its bounded walk back with `break`s and its forward loop that
    overwrites fields of a mutable result, proved equal to that
    specification. */
module OutputParser {
  import opened Wrappers
  import opened Text
  import opened Numbers
  import opened LinePatterns

  datatype UsageMetrics = UsageMetrics(
    inputTokens: JsNumber,
    outputTokens: JsNumber,
    cacheReadTokens: JsNumber,
    premiumRequests: JsNumber,
    model: string)

  datatype DurationMetrics = DurationMetrics(apiSeconds: JsNumber, wallSeconds: JsNumber)

  datatype CodeChangeMetrics = CodeChangeMetrics(linesAdded: JsNumber, linesRemoved: JsNumber)

  datatype ParsedOutput = ParsedOutput(
    response: string,
    usage: UsageMetrics,
    duration: DurationMetrics,
    codeChanges: CodeChangeMetrics)

  /** The `Partial<UsageMetrics>` that `parseUsageLine` fills in. */
  datatype UsageLine = UsageLine(
    model: Option<string>,
    inputTokens: Option<JsNumber>,
    outputTokens: Option<JsNumber>,
    cacheReadTokens: Option<JsNumber>,
    premiumRequests: Option<JsNumber>)

  const Zero: JsNumber := Num(0.0)

  /** The result before any line is read: every metric 0, no model. */
  const Defaults: ParsedOutput :=
    ParsedOutput("", UsageMetrics(Zero, Zero, Zero, Zero, ""), DurationMetrics(Zero, Zero), CodeChangeMetrics(Zero, Zero))

  const TotalUsageMarker := "Total usage est:"
  const UsageByModelMarker := "Usage by model:"

  // ---------------------------------------------------------------------
  // parseUsageLine and parseTokenCount

  /** `/^\s*(\S+)/`: the first run of non-white-space characters of the line. */
  function ModelToken(line: string): (r: Option<string>)
    ensures r.Some? ==> r.value != [] && forall k :: 0 <= k < |r.value| ==> !IsSpace(r.value[k])
    ensures r.Some? ==> exists a :: 0 <= a && a + |r.value| <= |line| && IsBlank(line[..a])
                                    && line[a..a + |r.value|] == r.value
                                    && (a + |r.value| == |line| || IsSpace(line[a + |r.value|]))
    ensures r.None? <==> IsBlank(line)
  {
    var a := SpanFrom(line, 0, IsSpace);
    var b := SpanFrom(line, a, NotSpace);
    assert IsBlank(line[..a]);
    if b == a then None else Some(line[a..b])
  }

  /** A JavaScript number multiplied by a positive factor and rounded with
      `Math.round`; NaN stays NaN. */
  function ScaleRound(x: JsNumber, factor: real): (r: JsNumber)
    requires x.Num? ==> x.value >= 0.0
    requires factor >= 0.0
    ensures r.NaN? <==> x.NaN?
    ensures r.Num? ==> r.value >= 0.0 && r.value == r.value.Floor as real
  {
    match x
    case NaN => NaN
    case Num(v) => Num(Round(v * factor) as real)
  }

  /** `parseTokenCount`: a count with an optional `k` (thousands) or `m`
      (millions) suffix, rounded to the nearest integer; without a suffix the
      integer prefix, 0 when there is none. */
  function TokenCount(value: string): (r: JsNumber)
    ensures r.Num? ==> r.value >= 0.0 && r.value == r.value.Floor as real
  {
    var normalized := Trim(Lower(value));
    if EndsWith(normalized, "k") then ScaleRound(ParseFloat(normalized[..|normalized| - 1]), 1000.0)
    else if EndsWith(normalized, "m") then ScaleRound(ParseFloat(normalized[..|normalized| - 1]), 1000000.0)
    else
      var n := ParseIntPrefix(normalized);
      if Truthy(n) then n else Zero
  }

  /** The first group of a match of `pat` in `line`, read by `read`. */
  function FirstGroup(line: string, pat: Pattern, read: string -> JsNumber): Option<JsNumber>
    requires GroupCount(pat) >= 1
  {
    match Search(line, pat)
    case None => None
    case Some(g) => Some(read(g[0]))
  }

  /** `parseUsageLine`: model name, token counts and the per-model premium
      estimate, each present only when its pattern matches. */
  function ParseUsageLine(line: string): UsageLine {
    UsageLine(
      ModelToken(line),
      FirstGroup(line, InputTokens, TokenCount),
      FirstGroup(line, OutputTokens, TokenCount),
      FirstGroup(line, CacheReadTokens, TokenCount),
      FirstGroup(line, ModelPremium, ParseFloat))
  }

  // ---------------------------------------------------------------------
  // What one stats line contributes, if anything

  /** The line is the per-model usage line. */
  predicate IsUsageLine(line: string) {
    Contains(line, "input,") && Contains(line, "output")
  }

  function PremiumOf(line: string): Option<JsNumber> {
    FirstGroup(line, TotalUsage, ParseFloat)
  }

  function ApiSecondsOf(line: string): Option<JsNumber> {
    FirstGroup(line, ApiDuration, ParseFloat)
  }

  function WallSecondsOf(line: string): Option<JsNumber> {
    FirstGroup(line, WallDuration, ParseFloat)
  }

  function CodeChangesOf(line: string): Option<CodeChangeMetrics> {
    match Search(line, CodeChanges)
    case None => None
    case Some(g) => Some(CodeChangeMetrics(ParseIntPrefix(g[0]), ParseIntPrefix(g[1])))
  }

  function ModelOf(line: string): (r: Option<string>)
    ensures r.Some? ==> IsUsageLine(line) && r.value != []
  {
    if IsUsageLine(line) then ParseUsageLine(line).model else None
  }

  /** A token count of the usage line, kept only when it is truthy. */
  function Truthful(t: Option<JsNumber>): (r: Option<JsNumber>)
    ensures r.Some? ==> Truthy(r.value) && r == t
    ensures t.Some? && Truthy(t.value) ==> r == t
  {
    if t.Some? && Truthy(t.value) then t else None
  }

  function InputOf(line: string): (r: Option<JsNumber>)
    ensures r.Some? ==> IsUsageLine(line) && Truthy(r.value)
  {
    if IsUsageLine(line) then Truthful(ParseUsageLine(line).inputTokens) else None
  }

  function OutputOf(line: string): (r: Option<JsNumber>)
    ensures r.Some? ==> IsUsageLine(line) && Truthy(r.value)
  {
    if IsUsageLine(line) then Truthful(ParseUsageLine(line).outputTokens) else None
  }

  function CacheOf(line: string): (r: Option<JsNumber>)
    ensures r.Some? ==> IsUsageLine(line) && Truthy(r.value)
  {
    if IsUsageLine(line) then Truthful(ParseUsageLine(line).cacheReadTokens) else None
  }

  /** The value of the last of the lines `lines[lo..hi]` that `f` reads one
      from. */
  function LastSome<T>(lines: seq<string>, lo: nat, hi: nat, f: string -> Option<T>): Option<T>
    requires lo <= hi <= |lines|
    decreases hi
  {
    if hi == lo then None
    else
      var last := f(lines[hi - 1]);
      if last.Some? then last else LastSome(lines, lo, hi - 1, f)
  }

  /** Last match wins: `LastSome` is the value of a line of the range that
      has one, with no later line having one, and it is None exactly when no
      line has one. */
  lemma {:induction false} LastSomeIsLast<T>(lines: seq<string>, lo: nat, hi: nat, f: string -> Option<T>)
    requires lo <= hi <= |lines|
    ensures LastSome(lines, lo, hi, f).None? <==> forall k :: lo <= k < hi ==> f(lines[k]).None?
    ensures LastSome(lines, lo, hi, f).Some? ==>
      exists k :: lo <= k < hi && f(lines[k]) == LastSome(lines, lo, hi, f)
                  && forall k' :: k < k' < hi ==> f(lines[k']).None?
    decreases hi
  {
    if hi > lo && f(lines[hi - 1]).None? {
      LastSomeIsLast(lines, lo, hi - 1, f);
    }
  }

  /** The metrics read from the stats lines `lines[lo..hi]`: for each one,
      the last line that carries it, or the default. */
  function StatsOf(lines: seq<string>, lo: nat, hi: nat, response: string): ParsedOutput
    requires lo <= hi <= |lines|
  {
    ParsedOutput(
      response,
      UsageMetrics(
        LastSome(lines, lo, hi, InputOf).GetOr(Zero),
        LastSome(lines, lo, hi, OutputOf).GetOr(Zero),
        LastSome(lines, lo, hi, CacheOf).GetOr(Zero),
        LastSome(lines, lo, hi, PremiumOf).GetOr(Zero),
        LastSome(lines, lo, hi, ModelOf).GetOr("")),
      DurationMetrics(LastSome(lines, lo, hi, ApiSecondsOf).GetOr(Zero), LastSome(lines, lo, hi, WallSecondsOf).GetOr(Zero)),
      LastSome(lines, lo, hi, CodeChangesOf).GetOr(CodeChangeMetrics(Zero, Zero)))
  }

  // ---------------------------------------------------------------------
  // Where the stats block starts

  predicate HasSentinel(line: string) {
    Contains(line, TotalUsageMarker) || Contains(line, UsageByModelMarker)
  }

  predicate HasTotal(line: string) {
    Contains(line, TotalUsageMarker)
  }

  predicate IsBlankLine(line: string) {
    Trim(line) == ""
  }

  /** Index of the last line holding a sentinel, or -1. */
  function LastSentinel(lines: seq<string>): (r: int)
    ensures -1 <= r < |lines|
    ensures r >= 0 ==> HasSentinel(lines[r])
    ensures forall k :: r < k < |lines| ==> !HasSentinel(lines[k])
  {
    if lines == [] then -1
    else if HasSentinel(lines[|lines| - 1]) then |lines| - 1
    else LastSentinel(lines[..|lines| - 1])
  }

  /** How far back from the sentinel line `i` the block is looked for. */
  function WalkLimit(i: nat): nat {
    if i >= 10 then i - 10 else 0
  }

  /** The walk back from line `j` towards `lo`: it stops just after a
      `blank` line above `i`, or on a `stop` line; if it runs out of lines
      the block starts at `i`. */
  function Walk(blank: string -> bool, stop: string -> bool, lines: seq<string>, i: nat, j: int, lo: nat): (r: nat)
    requires lo <= i < |lines| && lo - 1 <= j <= i
    ensures lo <= r <= i
    decreases j - lo + 1
  {
    if j < lo then i
    else if blank(lines[j]) && j < i then j + 1
    else if stop(lines[j]) then j
    else Walk(blank, stop, lines, i, j - 1, lo)
  }

  /** Where the walk stops, stated without the walk: no blank line and no
      stop line is passed over, and the line it stops at is one of the three
      cases. */
  lemma {:induction false} WalkStops(blank: string -> bool, stop: string -> bool, lines: seq<string>, i: nat, j: int, lo: nat)
    requires lo <= i < |lines| && lo - 1 <= j <= i
    requires forall k :: j < k <= i ==> !stop(lines[k])
    requires forall k :: j < k < i ==> !blank(lines[k])
    ensures var r := Walk(blank, stop, lines, i, j, lo);
      && (forall k :: r <= k < i ==> !blank(lines[k]))
      && (forall k :: r < k <= i ==> !stop(lines[k]))
      && (|| stop(lines[r])
          || (lo < r && r - 1 < i && blank(lines[r - 1]))
          || (r == i && forall k :: lo <= k <= i ==> !stop(lines[k]) && (k < i ==> !blank(lines[k]))))
    decreases j - lo + 1
  {
    if j >= lo && !(blank(lines[j]) && j < i) && !stop(lines[j]) {
      WalkStops(blank, stop, lines, i, j - 1, lo);
    }
  }

  /** The first line of the stats block whose sentinel is on line `i`. */
  function BlockStart(lines: seq<string>, i: nat): (r: nat)
    requires i < |lines|
    ensures WalkLimit(i) <= r <= i
    ensures forall k :: r <= k < i ==> !IsBlankLine(lines[k])
    ensures forall k :: r < k <= i ==> !HasTotal(lines[k])
    ensures || HasTotal(lines[r])
            || (WalkLimit(i) < r && r - 1 < i && IsBlankLine(lines[r - 1]))
            || (r == i && forall k :: WalkLimit(i) <= k <= i ==> !HasTotal(lines[k]) && (k < i ==> !IsBlankLine(lines[k])))
  {
    WalkStops(IsBlankLine, HasTotal, lines, i, i, WalkLimit(i));
    Walk(IsBlankLine, HasTotal, lines, i, i, WalkLimit(i))
  }

  /** The index of the first stats line, or -1 when there is no stats block. */
  function StatsStart(lines: seq<string>): (r: int)
    ensures -1 <= r < |lines|
    ensures r == -1 <==> forall k :: 0 <= k < |lines| ==> !HasSentinel(lines[k])
  {
    var i := LastSentinel(lines);
    if i < 0 then -1 else BlockStart(lines, i)
  }

  /** What `parseCliOutput(stdout)` returns. */
  function CliOutput(stdout: string): ParsedOutput {
    var lines := Split(stdout, '\n');
    var start := StatsStart(lines);
    var response := if start > 0 then Trim(Join(lines[..start], "\n")) else Trim(stdout);
    if start >= 0 then StatsOf(lines, start, |lines|, response) else Defaults.(response := response)
  }

  // ---------------------------------------------------------------------
  // The imperative parser

  /** An empty line carries no metric. */
  lemma EmptyLineCarriesNothing()
    ensures PremiumOf("").None? && ApiSecondsOf("").None? && WallSecondsOf("").None?
    ensures CodeChangesOf("").None? && ModelOf("").None?
    ensures InputOf("").None? && OutputOf("").None? && CacheOf("").None?
  {
    assert !IsUsageLine("") by {
      assert !OccursAt("", "input,", 0);
    }
  }

  /** Skipping an empty line does not change the result. */
  lemma EmptyLineSkipped(lines: seq<string>, lo: nat, hi: nat, response: string)
    requires lo <= hi < |lines| && lines[hi] == ""
    ensures StatsOf(lines, lo, hi + 1, response) == StatsOf(lines, lo, hi, response)
  {
    EmptyLineCarriesNothing();
  }

  /** No line, no metric: the defaults. */
  lemma StatsOfEmptyRange(lines: seq<string>, lo: nat, response: string)
    requires lo <= |lines|
    ensures StatsOf(lines, lo, lo, response) == Defaults.(response := response)
  {
  }

  /** The bounded walk back from the sentinel line `i`. */
  method WalkBack(lines: seq<string>, i: nat) returns (statsStartIndex: nat)
    requires i < |lines|
    ensures statsStartIndex == BlockStart(lines, i)
  {
    statsStartIndex := i;
    var lo := WalkLimit(i);
    var j := i;
    while j >= lo
      invariant lo - 1 <= j <= i
      invariant statsStartIndex == i
      invariant Walk(IsBlankLine, HasTotal, lines, i, j, lo) == BlockStart(lines, i)
      decreases j
    {
      if IsBlankLine(lines[j]) && j < i {
        statsStartIndex := j + 1;
        return;
      }
      if HasTotal(lines[j]) {
        statsStartIndex := j;
        return;
      }
      j := j - 1;
    }
  }

  /** The backward search for the stats block: the last sentinel line, then
      the walk back from it. */
  method FindStatsStart(lines: seq<string>) returns (statsStartIndex: int)
    ensures statsStartIndex == StatsStart(lines)
  {
    statsStartIndex := -1;
    var i := |lines| - 1;
    while i >= 0
      invariant -1 <= i < |lines|
      invariant statsStartIndex == -1
      invariant forall k :: i < k < |lines| ==> !HasSentinel(lines[k])
      decreases i
    {
      var line := lines[i];
      if HasSentinel(line) {
        assert LastSentinel(lines) == i;
        statsStartIndex := WalkBack(lines, i);
        return;
      }
      i := i - 1;
    }
  }

  /** The body of the forward loop for a non-empty stats line `lines[hi]`:
      every metric the line carries overwrites the one stored so far. */
  method ReadStatsLine(result: ParsedOutput, lines: seq<string>, ghost lo: nat, hi: nat) returns (next: ParsedOutput)
    requires lo <= hi < |lines|
    requires result == StatsOf(lines, lo, hi, result.response)
    ensures next == StatsOf(lines, lo, hi + 1, result.response)
  {
    var line := lines[hi];
    var usage, duration, codeChanges := result.usage, result.duration, result.codeChanges;

    var usageMatch := PremiumOf(line);
    if usageMatch.Some? {
      usage := usage.(premiumRequests := usageMatch.value);
    }

    var apiDurationMatch := ApiSecondsOf(line);
    if apiDurationMatch.Some? {
      duration := duration.(apiSeconds := apiDurationMatch.value);
    }

    var wallDurationMatch := WallSecondsOf(line);
    if wallDurationMatch.Some? {
      duration := duration.(wallSeconds := wallDurationMatch.value);
    }

    var codeChangesMatch := CodeChangesOf(line);
    if codeChangesMatch.Some? {
      codeChanges := codeChangesMatch.value;
    }

    usage := ReadUsageLine(usage, lines, lo, hi);
    next := ParsedOutput(result.response, usage, duration, codeChanges);
  }

  /** The per-model usage line: the model name and every non-zero token count
      it carries overwrite the stored ones. */
  method ReadUsageLine(usage: UsageMetrics, lines: seq<string>, ghost lo: nat, hi: nat) returns (next: UsageMetrics)
    requires lo <= hi < |lines|
    requires usage.model == LastSome(lines, lo, hi, ModelOf).GetOr("")
    requires usage.inputTokens == LastSome(lines, lo, hi, InputOf).GetOr(Zero)
    requires usage.outputTokens == LastSome(lines, lo, hi, OutputOf).GetOr(Zero)
    requires usage.cacheReadTokens == LastSome(lines, lo, hi, CacheOf).GetOr(Zero)
    ensures next.premiumRequests == usage.premiumRequests
    ensures next.model == LastSome(lines, lo, hi + 1, ModelOf).GetOr("")
    ensures next.inputTokens == LastSome(lines, lo, hi + 1, InputOf).GetOr(Zero)
    ensures next.outputTokens == LastSome(lines, lo, hi + 1, OutputOf).GetOr(Zero)
    ensures next.cacheReadTokens == LastSome(lines, lo, hi + 1, CacheOf).GetOr(Zero)
  {
    var line := lines[hi];
    next := usage;
    if IsUsageLine(line) {
      var usageInfo := ParseUsageLine(line);
      if usageInfo.model.Some? && usageInfo.model.value != "" {
        next := next.(model := usageInfo.model.value);
      }
      if usageInfo.inputTokens.Some? && Truthy(usageInfo.inputTokens.value) {
        next := next.(inputTokens := usageInfo.inputTokens.value);
      }
      if usageInfo.outputTokens.Some? && Truthy(usageInfo.outputTokens.value) {
        next := next.(outputTokens := usageInfo.outputTokens.value);
      }
      if usageInfo.cacheReadTokens.Some? && Truthy(usageInfo.cacheReadTokens.value) {
        next := next.(cacheReadTokens := usageInfo.cacheReadTokens.value);
      }
    }
  }

  /** `parseCliOutput`. */
  method ParseCliOutput(stdout: string) returns (result: ParsedOutput)
    ensures result == CliOutput(stdout)
  {
    var lines := Split(stdout, '\n');
    result := Defaults;

    // Find where the stats section starts.
    var statsStartIndex := FindStatsStart(lines);

    // Extract the response: everything before the stats.
    if statsStartIndex > 0 {
      result := result.(response := Trim(Join(lines[..statsStartIndex], "\n")));
    } else {
      result := result.(response := Trim(stdout));
    }

    // Parse the stats lines, if there are any.
    if statsStartIndex >= 0 {
      result := ReadStats(lines, statsStartIndex, result.response);
    }
  }

  /** The forward loop over the stats lines `lines[start..]`; empty lines are
      skipped. */
  method ReadStats(lines: seq<string>, start: nat, response: string) returns (result: ParsedOutput)
    requires start <= |lines|
    ensures result == StatsOf(lines, start, |lines|, response)
  {
    result := Defaults.(response := response);
    StatsOfEmptyRange(lines, start, response);
    var i := start;
    while i < |lines|
      invariant start <= i <= |lines|
      invariant result == StatsOf(lines, start, i, response)
    {
      var line := lines[i];
      if line == "" {
        EmptyLineSkipped(lines, start, i, response);
        i := i + 1;
        continue;
      }
      result := ReadStatsLine(result, lines, start, i);
      i := i + 1;
    }
  }
}
