/** The first sample of the output parser's test suite, read line by line
    and then as a whole: an answer, two blank lines and the stats block that
    the CLI prints after it. */
module OutputParserSample {
  import opened Wrappers
  import opened Text
  import opened Numbers
  import opened LinePatterns
  import opened OutputParser
  import opened OutputParserProps

  // The sample's lines, written in pieces.
  const Answer := "Hello — current session ID: " + "837b431a-5881-42ea-bda5-7e8d586d7e91."
  const PremiumText := TotalUsageMarker + "       " + "0" + " " + "Premium" + " requests"
  const ApiText := "Total duration (API):" + "  " + "6" + "s"
  const WallText := "Total duration (wall):" + " " + "12" + "s"
  const ChangesText := "Total code changes:" + "    " + "0" + " " + "lines added," + " " + "0" + " " + "lines removed"
  const ByModelText := UsageByModelMarker
  const ModelText := "    " + "gpt-5-mini" + "           " + "12.1k" + " input, " + "293" + " output, " + "2.6k"
                     + " cache read" + " (Est. 0 Premium requests)"

  /** The lines of the sample, as `stdout.split('\n')` gives them. */
  const SampleLines: seq<string> :=
    [Answer, "", "", PremiumText, ApiText, WallText, ChangesText, ByModelText, ModelText]

  // ---------------------------------------------------------------------
  // Each stats line on its own

  lemma PremiumTextReads()
    ensures PremiumOf(PremiumText) == Some(Num(0.0))
  {
    assert NatToString(0) == "0";
    assert PremiumText == TotalUsageMarker + "       " + NatToString(0) + " " + "Premium" + " requests";
    PremiumLine(PremiumText, "       ", 0, " ", " requests");
  }

  lemma ApiTextReads()
    ensures ApiSecondsOf(ApiText) == Some(Num(6.0))
  {
    assert NatToString(6) == "6";
    assert ApiText == "Total duration (API):" + "  " + NatToString(6) + "s" + "";
    ApiDurationLine(ApiText, "  ", 6, "");
  }

  lemma WallTextReads()
    ensures WallSecondsOf(WallText) == Some(Num(12.0))
  {
    assert NatToString(12) == "12";
    assert WallText == "Total duration (wall):" + " " + NatToString(12) + "s" + "";
    WallDurationLine(WallText, " ", 12, "");
  }

  lemma ChangesTextReads()
    ensures CodeChangesOf(ChangesText) == Some(CodeChangeMetrics(Num(0.0), Num(0.0)))
  {
    var z := NatToString(0);
    assert z == "0";
    assert ChangesText == "Total code changes:" + "    " + z + " " + "lines added," + " " + z + " " + "lines removed" + "";
    CodeChangesLine(ChangesText, "    ", 0, " ", " ", 0, " ", "");
  }

  lemma ModelNameOfSample()
    ensures IsModelName("gpt-5-mini")
  {
    var model := "gpt-5-mini";
    assert forall k :: 0 <= k < |model| - 1 ==> IsDecimalChar(model[k]) ==> k == 4;
    assert StopsCount(model[5]);
  }

  lemma ModelTextReads()
    ensures IsUsageLine(ModelText)
    ensures ModelOf(ModelText) == Some("gpt-5-mini")
    ensures InputOf(ModelText) == Some(Num(12100.0))
    ensures OutputOf(ModelText) == Some(Num(293.0))
    ensures CacheOf(ModelText) == Some(Num(2600.0))
  {
    var a, b, c := "12.1k", "293", "2.6k";
    assert IsCountText(a) && IsCountText(b) && IsCountText(c);
    ModelNameOfSample();
    UsageLineRead(ModelText, "    ", "gpt-5-mini", "           ", a, b, c, " (Est. 0 Premium requests)");
    ThousandsExample(a);
    PlainCountExample();
    CacheExample(c);
  }

  // ---------------------------------------------------------------------
  // Lines that carry no value

  /** The line lacks the letter or sign `c` in either case. */
  predicate Lacks(s: string, c: char) {
    && c !in s && !('A' <= c <= 'Z')
    && ('a' <= c <= 'z' ==> (c as int - 32) as char !in s)
  }

  /** A line that lacks `c` has no character that lower-cases to it. */
  lemma LowerAbsent(s: string, c: char)
    requires Lacks(s, c)
    ensures forall k :: 0 <= k < |s| ==> LowerChar(s[k]) != c
  {
    forall k | 0 <= k < |s|
      ensures LowerChar(s[k]) != c
    {
      assert s[k] in s;
    }
  }

  /** A line lacking one character of `sub` does not contain `sub`. */
  lemma NotContains(s: string, sub: string, q: nat)
    requires q < |sub| && sub[q] !in s
    ensures !Contains(s, sub)
  {
    ContainsIff(s, sub);
  }

  /** A pattern opening with text that holds a character the line lacks
      is not found. */
  lemma AbsentNotFound(s: string, pat: Pattern, q: nat, c: char)
    requires pat != [] && pat[0].Lit? && q < |pat[0].text| && LowerChar(pat[0].text[q]) == c
    requires Lacks(s, c)
    ensures Search(s, pat).None?
  {
    LowerAbsent(s, c);
    NoMatchWithout(s, pat, q);
  }

  /** Each reader finds nothing on a line lacking a character of its
      pattern's opening text. */
  lemma NoPremiumWithout(s: string, q: nat, c: char)
    requires q < |TotalUsage[0].text| && LowerChar(TotalUsage[0].text[q]) == c && Lacks(s, c)
    ensures PremiumOf(s).None?
  {
    AbsentNotFound(s, TotalUsage, q, c);
  }

  lemma NoApiSecondsWithout(s: string, q: nat, c: char)
    requires q < |ApiDuration[0].text| && LowerChar(ApiDuration[0].text[q]) == c && Lacks(s, c)
    ensures ApiSecondsOf(s).None?
  {
    AbsentNotFound(s, ApiDuration, q, c);
  }

  lemma NoWallSecondsWithout(s: string, q: nat, c: char)
    requires q < |WallDuration[0].text| && LowerChar(WallDuration[0].text[q]) == c && Lacks(s, c)
    ensures WallSecondsOf(s).None?
  {
    AbsentNotFound(s, WallDuration, q, c);
  }

  lemma NoCodeChangesWithout(s: string, q: nat, c: char)
    requires q < |CodeChanges[0].text| && LowerChar(CodeChanges[0].text[q]) == c && Lacks(s, c)
    ensures CodeChangesOf(s).None?
  {
    AbsentNotFound(s, CodeChanges, q, c);
  }

  // The characters each line lacks, one fact at a time.

  lemma AnswerHasNoBreak()
    ensures Lacks(Answer, '\n')
  {
  }

  lemma PremiumTextHasNoBreak()
    ensures Lacks(PremiumText, '\n')
  {
  }

  lemma ApiTextHasNoBreak()
    ensures Lacks(ApiText, '\n')
  {
  }

  lemma ApiTextLacksG()
    ensures Lacks(ApiText, 'g')
  {
  }

  lemma WallTextHasNoBreak()
    ensures Lacks(WallText, '\n')
  {
  }

  lemma WallTextLacksG()
    ensures Lacks(WallText, 'g')
  {
  }

  lemma WallTextLacksP()
    ensures Lacks(WallText, 'p')
  {
  }

  lemma ChangesTextHasNoBreak()
    ensures Lacks(ChangesText, '\n')
  {
  }

  lemma ChangesTextLacksU()
    ensures Lacks(ChangesText, 'u')
  {
  }

  lemma ByModelTextHasNoBreak()
    ensures Lacks(ByModelText, '\n')
  {
  }

  lemma ByModelTextLacksT()
    ensures Lacks(ByModelText, 't')
  {
  }

  lemma ModelTextHasNoBreak()
    ensures Lacks(ModelText, '\n')
  {
  }

  lemma ModelTextLacksColon()
    ensures Lacks(ModelText, ':')
  {
  }

  /** The line after "Total usage est:" carries no premium total. */
  lemma ApiTextHasNoEarlier()
    ensures PremiumOf(ApiText).None?
  {
    ApiTextLacksG();
    NoPremiumWithout(ApiText, 9, 'g');
  }

  /** "Total duration (wall):" carries neither reading of the lines above it. */
  lemma WallTextHasNoEarlier()
    ensures PremiumOf(WallText).None? && ApiSecondsOf(WallText).None?
  {
    WallTextLacksG();
    WallTextLacksP();
    NoPremiumWithout(WallText, 9, 'g');
    NoApiSecondsWithout(WallText, 17, 'p');
  }

  /** "Total code changes:" carries none of the readings of the lines above it. */
  lemma ChangesTextHasNoEarlier()
    ensures PremiumOf(ChangesText).None? && ApiSecondsOf(ChangesText).None? && WallSecondsOf(ChangesText).None?
  {
    ChangesTextLacksU();
    NoPremiumWithout(ChangesText, 6, 'u');
    NoApiSecondsWithout(ChangesText, 7, 'u');
    NoWallSecondsWithout(ChangesText, 7, 'u');
  }

  /** "Usage by model:" carries none of the totals. */
  lemma ByModelTextHasNoTotals()
    ensures PremiumOf(ByModelText).None? && ApiSecondsOf(ByModelText).None?
    ensures WallSecondsOf(ByModelText).None? && CodeChangesOf(ByModelText).None?
  {
    ByModelTextLacksT();
    NoPremiumWithout(ByModelText, 0, 't');
    NoApiSecondsWithout(ByModelText, 0, 't');
    NoWallSecondsWithout(ByModelText, 0, 't');
    NoCodeChangesWithout(ByModelText, 0, 't');
  }

  /** The model's usage line carries none of the totals. */
  lemma ModelTextHasNoTotals()
    ensures PremiumOf(ModelText).None? && ApiSecondsOf(ModelText).None?
    ensures WallSecondsOf(ModelText).None? && CodeChangesOf(ModelText).None?
  {
    ModelTextLacksColon();
    NoPremiumWithout(ModelText, 15, ':');
    NoApiSecondsWithout(ModelText, 20, ':');
    NoWallSecondsWithout(ModelText, 21, ':');
    NoCodeChangesWithout(ModelText, 18, ':');
  }

  // ---------------------------------------------------------------------
  // The whole sample

  /** No line of the sample holds a line break. */
  lemma NoLineBreaks()
    ensures forall k :: 0 <= k < |SampleLines| ==> '\n' !in SampleLines[k]
  {
    AnswerHasNoBreak();
    PremiumTextHasNoBreak();
    ApiTextHasNoBreak();
    WallTextHasNoBreak();
    ChangesTextHasNoBreak();
    ByModelTextHasNoBreak();
    ModelTextHasNoBreak();
    var lines := SampleLines;
    assert lines[0] == Answer && lines[1] == lines[2] == "";
    assert lines[3] == PremiumText && lines[4] == ApiText && lines[5] == WallText;
    assert lines[6] == ChangesText && lines[7] == ByModelText && lines[8] == ModelText;
  }

  /** A stats line is not blank: it starts with a letter or a space-free
      character. */
  lemma NotBlankLine(line: string)
    requires line != [] && !IsSpace(line[0])
    ensures !IsBlankLine(line)
  {
  }

  /** Lines 3 to 6 are not blank. */
  lemma StatsLinesNotBlank()
    ensures !IsBlankLine(PremiumText) && !IsBlankLine(ApiText) && !IsBlankLine(WallText) && !IsBlankLine(ChangesText)
  {
    assert PremiumText[0] == ApiText[0] == WallText[0] == ChangesText[0] == 'T';
    NotBlankLine(ChangesText);
    NotBlankLine(WallText);
    NotBlankLine(ApiText);
    NotBlankLine(PremiumText);
  }

  /** The sentinel of the sample is "Usage by model:" on line 7. */
  lemma SampleSentinel()
    ensures LastSentinel(SampleLines) == 7
  {
    var lines := SampleLines;
    ModelTextLacksColon();
    assert ':' == TotalUsageMarker[15] == UsageByModelMarker[14];
    NotContains(ModelText, TotalUsageMarker, 15);
    NotContains(ModelText, UsageByModelMarker, 14);
    assert OccursAt(ByModelText, UsageByModelMarker, 0);
    ContainsIff(ByModelText, UsageByModelMarker);
    assert lines[..8][7] == ByModelText;
  }

  /** Which of the lines 3 to 7 hold "Total usage est:". */
  lemma SampleTotals()
    ensures HasTotal(PremiumText)
    ensures !HasTotal(ApiText) && !HasTotal(WallText) && !HasTotal(ChangesText) && !HasTotal(ByModelText)
  {
    ApiTextLacksG();
    WallTextLacksG();
    ChangesTextLacksU();
    ByModelTextLacksT();
    assert 'T' == TotalUsageMarker[0] && 'u' == TotalUsageMarker[6] && 'g' == TotalUsageMarker[9];
    NotContains(ByModelText, TotalUsageMarker, 0);
    NotContains(ChangesText, TotalUsageMarker, 6);
    NotContains(WallText, TotalUsageMarker, 9);
    NotContains(ApiText, TotalUsageMarker, 9);
    assert OccursAt(PremiumText, TotalUsageMarker, 0);
    ContainsIff(PremiumText, TotalUsageMarker);
  }

  /** Nine lines whose last sentinel is line 7 and whose only total line
      among lines 3 to 7 is line 3, with no blank line between them: the
      block starts at line 3. */
  lemma StartFromLines(lines: seq<string>)
    requires |lines| == 9 && LastSentinel(lines) == 7
    requires HasTotal(lines[3]) && !IsBlankLine(lines[3])
    requires !HasTotal(lines[4]) && !HasTotal(lines[5]) && !HasTotal(lines[6]) && !HasTotal(lines[7])
    requires !IsBlankLine(lines[4]) && !IsBlankLine(lines[5]) && !IsBlankLine(lines[6])
    ensures StatsStart(lines) == 3
  {
    var w := Walk(IsBlankLine, HasTotal, lines, 7, 3, 0);
    assert w == 3;
    assert Walk(IsBlankLine, HasTotal, lines, 7, 4, 0) == w;
    assert Walk(IsBlankLine, HasTotal, lines, 7, 5, 0) == w;
    assert Walk(IsBlankLine, HasTotal, lines, 7, 6, 0) == w;
  }

  /** The walk back from the sentinel stops at "Total usage est:" on
      line 3. */
  lemma SampleStart()
    ensures StatsStart(SampleLines) == 3
  {
    SampleSentinel();
    SampleTotals();
    StatsLinesNotBlank();
    var lines := SampleLines;
    assert lines[3] == PremiumText && lines[4] == ApiText && lines[5] == WallText;
    assert lines[6] == ChangesText && lines[7] == ByModelText;
    StartFromLines(lines);
  }

  /** Trimming text that starts and ends with a printing character and is
      followed only by white space gives the text back. */
  lemma TrimBlankTail(x: string, b: string)
    requires x != [] && !IsSpace(x[0]) && !IsSpace(x[|x| - 1]) && IsBlank(b)
    ensures Trim(x + b) == x
  {
    var s := x + b;
    assert s[0] == x[0] && s[|x| - 1] == x[|x| - 1];
    SpanEndsAt(s, 0, 0, IsSpace);
    var j := BackSpan(s, 0, |s|);
    assert s[0..|x|] == x;
  }

  /** The answer above the stats block is the first line: the two blank
      lines after it are trimmed away. */
  lemma SampleResponse()
    ensures Trim(Join(SampleLines[..3], "\n")) == Answer
  {
    var lines := SampleLines[..3];
    assert lines == [Answer, "", ""];
    assert lines[1..] == ["", ""] && lines[1..][1..] == [""];
    assert Join(lines[1..][1..], "\n") == "";
    assert Join(lines[1..], "\n") == "" + "\n" + "";
    assert Join(lines, "\n") == Answer + "\n" + ("" + "\n" + "");
    assert Answer + "\n" + ("" + "\n" + "") == Answer + "\n\n";
    assert Answer[0] == 'H' && Answer[|Answer| - 1] == '.';
    TrimBlankTail(Answer, "\n\n");
  }

  /** Among nine lines, the value read from stats line `k` when no later
      line has one. */
  lemma LastOfNine<T>(lines: seq<string>, f: string -> Option<T>, k: nat)
    requires |lines| == 9 && 3 <= k < 9 && f(lines[k]).Some?
    requires k < 4 ==> f(lines[4]).None?
    requires k < 5 ==> f(lines[5]).None?
    requires k < 6 ==> f(lines[6]).None?
    requires k < 7 ==> f(lines[7]).None?
    requires k < 8 ==> f(lines[8]).None?
    ensures LastSome(lines, 3, 9, f) == f(lines[k])
  {
    LastSomeAt(lines, 3, 9, f, k);
  }

  /** The output of a stdout whose lines are found and read as the
      sample's. */
  lemma OutputFromFacts(stdout: string, lines: seq<string>, response: string)
    requires Split(stdout, '\n') == lines && |lines| == 9 && StatsStart(lines) == 3
    requires Trim(Join(lines[..3], "\n")) == response
    requires LastSome(lines, 3, 9, PremiumOf) == Some(Num(0.0))
    requires LastSome(lines, 3, 9, ApiSecondsOf) == Some(Num(6.0))
    requires LastSome(lines, 3, 9, WallSecondsOf) == Some(Num(12.0))
    requires LastSome(lines, 3, 9, CodeChangesOf) == Some(CodeChangeMetrics(Num(0.0), Num(0.0)))
    requires LastSome(lines, 3, 9, ModelOf) == Some("gpt-5-mini")
    requires LastSome(lines, 3, 9, InputOf) == Some(Num(12100.0))
    requires LastSome(lines, 3, 9, OutputOf) == Some(Num(293.0))
    requires LastSome(lines, 3, 9, CacheOf) == Some(Num(2600.0))
    ensures CliOutput(stdout) == SampleParsed(response)
  {
  }

  /** What the test expects of the sample. */
  function SampleParsed(response: string): ParsedOutput {
    ParsedOutput(
      response,
      UsageMetrics(Num(12100.0), Num(293.0), Num(2600.0), Num(0.0), "gpt-5-mini"),
      DurationMetrics(Num(6.0), Num(12.0)),
      CodeChangeMetrics(Num(0.0), Num(0.0)))
  }

  /** `parseCliOutput` on the sample: the answer is the first line, the
      model and token counts come from the usage line (12.1k and 2.6k
      scaled by 1000), and the premium total, both durations and the code
      changes come from their own lines. */
  lemma SampleOutput(stdout: string)
    requires stdout == Join(SampleLines, "\n")
    ensures CliOutput(stdout) == SampleParsed(Answer)
  {
    var lines := SampleLines;
    NoLineBreaks();
    SplitJoin(lines, '\n');
    SampleStart();
    SampleResponse();
    assert lines[3] == PremiumText && lines[4] == ApiText && lines[5] == WallText;
    assert lines[6] == ChangesText && lines[7] == ByModelText && lines[8] == ModelText;
    PremiumTextReads();
    ApiTextReads();
    WallTextReads();
    ChangesTextReads();
    ApiTextHasNoEarlier();
    WallTextHasNoEarlier();
    ChangesTextHasNoEarlier();
    ByModelTextHasNoTotals();
    ModelTextHasNoTotals();
    LastOfNine(lines, PremiumOf, 3);
    LastOfNine(lines, ApiSecondsOf, 4);
    LastOfNine(lines, WallSecondsOf, 5);
    LastOfNine(lines, CodeChangesOf, 6);
    ModelTextReads();
    LastOfNine(lines, ModelOf, 8);
    LastOfNine(lines, InputOf, 8);
    LastOfNine(lines, OutputOf, 8);
    LastOfNine(lines, CacheOf, 8);
    OutputFromFacts(stdout, lines, Answer);
  }
}
