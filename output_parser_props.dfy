/** What `parseCliOutput` promises, proved about its specification
    `OutputParser.CliOutput` (which `OutputParser.ParseCliOutput` computes). */
module OutputParserProps {
  import opened Wrappers
  import opened Text
  import opened Numbers
  import opened LinePatterns
  import opened OutputParser

  // ---------------------------------------------------------------------
  // The answer and the stats block

  /** Without a "Total usage est:" or "Usage by model:" line the whole
      trimmed output is the answer and every metric keeps its default. */
  lemma NoStatsBlock(stdout: string)
    requires forall k :: 0 <= k < |Split(stdout, '\n')| ==> !HasSentinel(Split(stdout, '\n')[k])
    ensures CliOutput(stdout) == Defaults.(response := Trim(stdout))
  {
  }

  /** When the stats block starts below the first line, the answer is the
      trimmed text of the lines above it, and the output is exactly those
      lines, a line break, and the block. When the block starts on the first
      line the answer is the whole trimmed output. */
  lemma ResponsePrecedesStats(stdout: string)
    ensures var lines := Split(stdout, '\n');
      var start := StatsStart(lines);
      && (start > 0 ==>
            && CliOutput(stdout).response == Trim(Join(lines[..start], "\n"))
            && stdout == Join(lines[..start], "\n") + "\n" + Join(lines[start..], "\n"))
      && (start == 0 ==> CliOutput(stdout).response == Trim(stdout))
  {
    var lines := Split(stdout, '\n');
    var start := StatsStart(lines);
    if start > 0 {
      JoinSplitAt(lines, "\n", start);
    }
  }

  // ---------------------------------------------------------------------
  // Last match wins

  /** A line that carries a value, with no later line carrying one, gives the
      value of `LastSome`. */
  lemma {:induction false} LastSomeAt<T>(lines: seq<string>, lo: nat, hi: nat, f: string -> Option<T>, k: nat)
    requires lo <= k < hi <= |lines|
    requires f(lines[k]).Some?
    requires forall k' :: k < k' < hi ==> f(lines[k']).None?
    ensures LastSome(lines, lo, hi, f) == f(lines[k])
    decreases hi
  {
    if k < hi - 1 {
      LastSomeAt(lines, lo, hi - 1, f, k);
    }
  }

  /** Once the stats block is found, every metric comes from the stats lines
      `lines[start..]`. */
  lemma CliOutputReadsStatsBlock(stdout: string)
    requires StatsStart(Split(stdout, '\n')) >= 0
    ensures var lines := Split(stdout, '\n');
      CliOutput(stdout) == StatsOf(lines, StatsStart(lines), |lines|, CliOutput(stdout).response)
  {
  }

  /** Last match wins: the premium total is the one of the last
      "Total usage est:" line of the block. */
  lemma PremiumLastMatchWins(lines: seq<string>, lo: nat, hi: nat, response: string, k: nat)
    requires lo <= k < hi <= |lines|
    ensures var r := StatsOf(lines, lo, hi, response);
      (PremiumOf(lines[k]).Some? && (forall k' :: k < k' < hi ==> PremiumOf(lines[k']).None?) ==>
            r.usage.premiumRequests == PremiumOf(lines[k]).value)
  {
    if PremiumOf(lines[k]).Some? && (forall k' :: k < k' < hi ==> PremiumOf(lines[k']).None?) {
      LastSomeAt(lines, lo, hi, PremiumOf, k);
    }
  }

  /** Last match wins: each duration is the one of the last line of the
      block that carries it. */
  lemma DurationLastMatchWins(lines: seq<string>, lo: nat, hi: nat, response: string, k: nat)
    requires lo <= k < hi <= |lines|
    ensures var r := StatsOf(lines, lo, hi, response);
      && (ApiSecondsOf(lines[k]).Some? && (forall k' :: k < k' < hi ==> ApiSecondsOf(lines[k']).None?) ==>
            r.duration.apiSeconds == ApiSecondsOf(lines[k]).value)
      && (WallSecondsOf(lines[k]).Some? && (forall k' :: k < k' < hi ==> WallSecondsOf(lines[k']).None?) ==>
            r.duration.wallSeconds == WallSecondsOf(lines[k]).value)
  {
    if ApiSecondsOf(lines[k]).Some? && (forall k' :: k < k' < hi ==> ApiSecondsOf(lines[k']).None?) {
      LastSomeAt(lines, lo, hi, ApiSecondsOf, k);
    }
    if WallSecondsOf(lines[k]).Some? && (forall k' :: k < k' < hi ==> WallSecondsOf(lines[k']).None?) {
      LastSomeAt(lines, lo, hi, WallSecondsOf, k);
    }
  }

  /** Last match wins: the code changes are those of the last line of the
      block that carries them. */
  lemma CodeChangesLastMatchWins(lines: seq<string>, lo: nat, hi: nat, response: string, k: nat)
    requires lo <= k < hi <= |lines|
    ensures var r := StatsOf(lines, lo, hi, response);
      (CodeChangesOf(lines[k]).Some? && (forall k' :: k < k' < hi ==> CodeChangesOf(lines[k']).None?) ==>
            r.codeChanges == CodeChangesOf(lines[k]).value)
  {
    if CodeChangesOf(lines[k]).Some? && (forall k' :: k < k' < hi ==> CodeChangesOf(lines[k']).None?) {
      LastSomeAt(lines, lo, hi, CodeChangesOf, k);
    }
  }

  /** Last match wins: the model is the one named by the last usage line of
      the block. */
  lemma ModelLastMatchWins(lines: seq<string>, lo: nat, hi: nat, response: string, k: nat)
    requires lo <= k < hi <= |lines|
    ensures var r := StatsOf(lines, lo, hi, response);
      (ModelOf(lines[k]).Some? && (forall k' :: k < k' < hi ==> ModelOf(lines[k']).None?) ==>
            r.usage.model == ModelOf(lines[k]).value)
  {
    if ModelOf(lines[k]).Some? && (forall k' :: k < k' < hi ==> ModelOf(lines[k']).None?) {
      LastSomeAt(lines, lo, hi, ModelOf, k);
    }
  }

  /** Last match wins: each token count is the last non-zero one read from a
      usage line of the block. */
  lemma TokensLastMatchWins(lines: seq<string>, lo: nat, hi: nat, response: string, k: nat)
    requires lo <= k < hi <= |lines|
    ensures var r := StatsOf(lines, lo, hi, response);
      && (InputOf(lines[k]).Some? && (forall k' :: k < k' < hi ==> InputOf(lines[k']).None?) ==>
            r.usage.inputTokens == InputOf(lines[k]).value)
      && (OutputOf(lines[k]).Some? && (forall k' :: k < k' < hi ==> OutputOf(lines[k']).None?) ==>
            r.usage.outputTokens == OutputOf(lines[k]).value)
      && (CacheOf(lines[k]).Some? && (forall k' :: k < k' < hi ==> CacheOf(lines[k']).None?) ==>
            r.usage.cacheReadTokens == CacheOf(lines[k]).value)
  {
    if InputOf(lines[k]).Some? && (forall k' :: k < k' < hi ==> InputOf(lines[k']).None?) {
      LastSomeAt(lines, lo, hi, InputOf, k);
    }
    if OutputOf(lines[k]).Some? && (forall k' :: k < k' < hi ==> OutputOf(lines[k']).None?) {
      LastSomeAt(lines, lo, hi, OutputOf, k);
    }
    if CacheOf(lines[k]).Some? && (forall k' :: k < k' < hi ==> CacheOf(lines[k']).None?) {
      LastSomeAt(lines, lo, hi, CacheOf, k);
    }
  }

  /** The premium total comes only from a "Total usage est: N Premium" line:
      without one it stays 0, whatever "Est. N Premium" the per-model line
      carries. */
  lemma PremiumOnlyFromTotalLine(stdout: string)
    requires forall k :: 0 <= k < |Split(stdout, '\n')| ==> Search(Split(stdout, '\n')[k], TotalUsage).None?
    ensures CliOutput(stdout).usage.premiumRequests == Num(0.0)
  {
    var lines := Split(stdout, '\n');
    var start := StatsStart(lines);
    if start >= 0 {
      LastSomeIsLast(lines, start, |lines|, PremiumOf);
    }
  }

  /** A token count of 0 on a usage line does not overwrite the count read
      before it; a non-zero one does. */
  lemma ZeroCountKeepsEarlier(lines: seq<string>, lo: nat, hi: nat, response: string)
    requires lo <= hi < |lines|
    requires IsUsageLine(lines[hi])
    ensures ParseUsageLine(lines[hi]).inputTokens == Some(Num(0.0)) ==>
      StatsOf(lines, lo, hi + 1, response).usage.inputTokens == StatsOf(lines, lo, hi, response).usage.inputTokens
    ensures ParseUsageLine(lines[hi]).inputTokens.Some? && Truthy(ParseUsageLine(lines[hi]).inputTokens.value) ==>
      StatsOf(lines, lo, hi + 1, response).usage.inputTokens == ParseUsageLine(lines[hi]).inputTokens.value
  {
  }

  // ---------------------------------------------------------------------
  // Token counts

  /** Digits and dots are unchanged by lower-casing. */
  lemma LowerDigits(ds: string)
    requires forall k :: 0 <= k < |ds| ==> IsDecimalChar(ds[k])
    ensures Lower(ds) == ds
  {
  }

  /** A number of digits and dots followed by `k` or `m` is read as that
      number scaled by a thousand or a million. */
  lemma TokenCountSuffixed(ds: string, suffix: char, factor: real)
    requires |ds| >= 1 && forall k :: 0 <= k < |ds| ==> IsDecimalChar(ds[k])
    requires (suffix == 'k' && factor == 1000.0) || (suffix == 'm' && factor == 1000000.0)
    ensures TokenCount(ds + [suffix]) == ScaleRound(ParseFloat(ds), factor)
  {
    var v := ds + [suffix];
    assert Trim(Lower(v)) == v by {
      LowerDigits(ds);
      assert Lower(v) == v;
      assert v[0] == ds[0] && v[|v| - 1] == suffix;
    }
    assert v[..|v| - 1] == ds;
    assert v[|v| - 1..] == [suffix];
    if suffix == 'm' {
      assert !EndsWith(v, "k");
    }
  }

  /** A whole number of thousands written with a `k` reads back as that many
      thousands. */
  lemma TokenCountThousands(n: nat)
    ensures TokenCount(NatToString(n) + "k") == Num((n * 1000) as real)
  {
    var ds := NatToString(n);
    TokenCountSuffixed(ds, 'k', 1000.0);
    ParseFloatOfDigits(ds);
    DigitsOfNat(n);
    ScaleThousands(n);
  }

  /** A whole number of millions written with an `m` reads back as that many
      millions. */
  lemma TokenCountMillions(n: nat)
    ensures TokenCount(NatToString(n) + "m") == Num((n * 1000000) as real)
  {
    var ds := NatToString(n);
    TokenCountSuffixed(ds, 'm', 1000000.0);
    ParseFloatOfDigits(ds);
    DigitsOfNat(n);
    ScaleMillions(n);
  }

  /** Scaling a whole number by a thousand and rounding gives the exact
      product. */
  lemma ScaleThousands(n: nat)
    ensures ScaleRound(Num(n as real), 1000.0) == Num((n * 1000) as real)
  {
    var x := n as real * 1000.0;
    assert x == (n * 1000) as real;
    assert Round(x) == n * 1000;
  }

  /** Scaling a whole number by a million and rounding gives the exact
      product. */
  lemma ScaleMillions(n: nat)
    ensures ScaleRound(Num(n as real), 1000000.0) == Num((n * 1000000) as real)
  {
    var x := n as real * 1000000.0;
    assert x == (n * 1000000) as real;
    assert Round(x) == n * 1000000;
  }

  /** A count without a suffix reads back as itself. */
  lemma TokenCountPlain(n: nat)
    ensures TokenCount(NatToString(n)) == Num(n as real)
  {
    var ds := NatToString(n);
    LowerDigits(ds);
    assert Trim(ds) == ds;
    assert !EndsWith(ds, "k") && !EndsWith(ds, "m");
    ParseIntOfDigits(ds);
    DigitsOfNat(n);
  }

  /** `parseFloat` of a number with one decimal. */
  lemma ParseOneDecimal(whole: string, frac: char)
    requires |whole| >= 1 && forall k :: 0 <= k < |whole| ==> IsDigit(whole[k])
    requires IsDigit(frac)
    ensures ParseFloat(whole + "." + [frac]) == Num(DigitsValue(whole) as real + (frac as int - '0' as int) as real / 10.0)
  {
    var s := whole + "." + [frac];
    assert SpanFrom(s, 0, IsDigit) == |whole| by {
      assert forall k :: 0 <= k < |whole| ==> s[k] == whole[k];
      assert s[|whole|] == '.';
    }
    assert s[..|whole|] == whole;
    assert SpanFrom(s, |whole| + 1, IsDigit) == |s|;
    assert s[|whole| + 1..|s|] == [frac];
    assert FractionValue([frac]) == (frac as int - '0' as int) as real / 10.0 by {
      assert [frac][1..] == [];
    }
  }

  /** A number with one decimal followed by `k` or `m` is read as that
      number scaled by a thousand or a million. */
  lemma TokenCountDecimal(whole: string, frac: char, suffix: char, factor: real)
    requires |whole| >= 1 && forall k :: 0 <= k < |whole| ==> IsDigit(whole[k])
    requires IsDigit(frac)
    requires (suffix == 'k' && factor == 1000.0) || (suffix == 'm' && factor == 1000000.0)
    ensures TokenCount(whole + "." + [frac] + [suffix])
         == ScaleRound(Num(DigitsValue(whole) as real + (frac as int - '0' as int) as real / 10.0), factor)
  {
    var ds := whole + "." + [frac];
    assert forall k :: 0 <= k < |ds| ==> IsDecimalChar(ds[k]);
    TokenCountSuffixed(ds, suffix, factor);
    ParseOneDecimal(whole, frac);
  }

  /** The value of a one-digit string. */
  lemma OneDigit(d: char)
    requires IsDigit(d)
    ensures DigitsValue([d]) == d as int - '0' as int
  {
    assert [d][..0] == [];
  }

  /** The value of a two-digit string. */
  lemma TwoDigits(d: char, e: char)
    requires IsDigit(d) && IsDigit(e)
    ensures DigitsValue([d, e]) == 10 * (d as int - '0' as int) + (e as int - '0' as int)
  {
    assert [d, e][..1] == [d];
    OneDigit(d);
  }

  /** "12.1k input" on the usage line reads 12100. */
  lemma ThousandsExample(count: string)
    requires count == "12.1k"
    ensures TokenCount(count) == Num(12100.0)
  {
    assert TokenCount(count) == ScaleRound(Num(12.0 + 0.1), 1000.0) by {
      assert count == "12" + "." + ['1'] + ['k'];
      TokenCountDecimal("12", '1', 'k', 1000.0);
      TwoDigits('1', '2');
    }
    assert Round(12.1 * 1000.0) == 12100;
  }

  /** "2.6k cache read" reads 2600. */
  lemma CacheExample(count: string)
    requires count == "2.6k"
    ensures TokenCount(count) == Num(2600.0)
  {
    assert count == "2" + "." + ['6'] + ['k'];
    TokenCountDecimal("2", '6', 'k', 1000.0);
    OneDigit('2');
    assert Round(2.6 * 1000.0) == 2600;
  }

  /** "1.5m" reads 1500000. */
  lemma MillionsExample(count: string)
    requires count == "1.5m"
    ensures TokenCount(count) == Num(1500000.0)
  {
    assert count == "1" + "." + ['5'] + ['m'];
    TokenCountDecimal("1", '5', 'm', 1000000.0);
    OneDigit('1');
    assert Round(1.5 * 1000000.0) == 1500000;
  }

  /** A plain count on the usage line: "293 output" reads 293. */
  lemma PlainCountExample()
    ensures TokenCount("293") == Num(293.0)
  {
    assert NatToString(293) == "293";
    TokenCountPlain(293);
  }

  // ---------------------------------------------------------------------
  // What a stats line reads as

  /** A match at the very start of the line gives `Search` its groups. */
  lemma SearchFromStart(line: string, pat: Pattern, groups: seq<string>, end: nat)
    requires MatchAt(line, 0, pat) == Some(Match(groups, end))
    ensures Search(line, pat) == Some(groups)
  {
    SearchIsLeftmost(line, pat);
  }

  /** "Total usage est:  N Premium requests" reads N premium requests,
      whatever white space surrounds the number and whatever follows
      "Premium". */
  lemma PremiumLine(line: string, pad: string, n: nat, gap: string, rest: string)
    requires IsBlank(pad) && IsBlank(gap)
    requires line == TotalUsageMarker + pad + NatToString(n) + gap + "Premium" + rest
    ensures PremiumOf(line) == Some(Num(n as real))
  {
    var ds, pat, tail := NatToString(n), TotalUsage, TotalUsage[5..];
    assert line == [] + pat[0].text + pad + ds + gap + pat[4].text + rest;
    var b, c, d, g := LabelledPieces(line, [], pad, ds, gap, rest, pat);
    LabelledGroup(line, 0, b, c, d, g, pat, tail);
    assert tail == [] && MatchAt(line, g, tail) == Some(Match([], g));
    assert [ds] + [] == [ds];
    SearchFromStart(line, pat, [ds], g);
    ParseFloatOfDigits(ds);
    DigitsOfNat(n);
  }

  /** "Total duration (API):  Ns" reads N seconds. */
  lemma ApiDurationLine(line: string, pad: string, n: nat, rest: string)
    requires IsBlank(pad)
    requires line == "Total duration (API):" + pad + NatToString(n) + "s" + rest
    ensures ApiSecondsOf(line) == Some(Num(n as real))
  {
    var ds, pat, tail := NatToString(n), ApiDuration, ApiDuration[4..];
    assert line == [] + pat[0].text + pad + ds + pat[3].text + rest;
    var b, c, g := UnitPieces(line, [], pad, ds, rest, pat);
    UnitGroup(line, 0, b, c, g, pat, tail);
    assert tail == [] && MatchAt(line, g, tail) == Some(Match([], g));
    assert [ds] + [] == [ds];
    SearchFromStart(line, pat, [ds], g);
    ParseFloatOfDigits(ds);
    DigitsOfNat(n);
  }

  /** "Total duration (wall): Ns" reads N seconds. */
  lemma WallDurationLine(line: string, pad: string, n: nat, rest: string)
    requires IsBlank(pad)
    requires line == "Total duration (wall):" + pad + NatToString(n) + "s" + rest
    ensures WallSecondsOf(line) == Some(Num(n as real))
  {
    var ds, pat, tail := NatToString(n), WallDuration, WallDuration[4..];
    assert line == [] + pat[0].text + pad + ds + pat[3].text + rest;
    var b, c, g := UnitPieces(line, [], pad, ds, rest, pat);
    UnitGroup(line, 0, b, c, g, pat, tail);
    assert tail == [] && MatchAt(line, g, tail) == Some(Match([], g));
    assert [ds] + [] == [ds];
    SearchFromStart(line, pat, [ds], g);
    ParseFloatOfDigits(ds);
    DigitsOfNat(n);
  }

  /** The layout of a "Total code changes:" line: the two halves of the
      pattern, each a tag, a number and a word. */
  lemma CodeChangesPieces(line: string, pad: string, added: string, gap: string, pad2: string, removed: string, gap2: string, rest: string)
    returns (b: nat, c: nat, d: nat, g: nat, b2: nat, c2: nat, d2: nat, g2: nat)
    requires IsBlank(pad) && IsBlank(gap) && IsBlank(pad2) && IsBlank(gap2)
    requires |added| >= 1 && forall k :: 0 <= k < |added| ==> IsDigit(added[k])
    requires |removed| >= 1 && forall k :: 0 <= k < |removed| ==> IsDigit(removed[k])
    requires line == "Total code changes:" + pad + added + gap + "lines added," + pad2 + removed + gap2 + "lines removed" + rest
    ensures LabelledAt(line, 0, b, c, d, CodeChanges) && line[b..c] == added && g == d + |CodeChanges[4].text|
    ensures LabelledAt(line, d, b2, c2, d2, CodeChanges[4..]) && line[b2..c2] == removed
    ensures g2 == d2 + |CodeChanges[8].text| && g2 <= |line|
  {
    var pat := CodeChanges;
    var t, w, w2 := pat[0].text, pat[4].text, pat[8].text;
    var head := t + pad + added + gap;
    var tail := pad2 + removed + gap2 + w2 + rest;
    assert line == [] + t + pad + added + gap + w + tail;
    b, c, d, g := LabelledPieces(line, [], pad, added, gap, tail, pat);
    assert line == head + w + pad2 + removed + gap2 + w2 + rest;
    assert |head| == d;
    b2, c2, d2, g2 := LabelledPieces(line, head, pad2, removed, gap2, rest, pat[4..]);
  }

  /** "Total code changes:  A lines added, R lines removed" reads A lines
      added and R lines removed. */
  lemma CodeChangesLine(line: string, pad: string, a: nat, gap: string, pad2: string, r: nat, gap2: string, rest: string)
    requires IsBlank(pad) && IsBlank(gap) && IsBlank(pad2) && IsBlank(gap2)
    requires line == "Total code changes:" + pad + NatToString(a) + gap + "lines added," + pad2 + NatToString(r) + gap2 + "lines removed" + rest
    ensures CodeChangesOf(line) == Some(CodeChangeMetrics(Num(a as real), Num(r as real)))
  {
    var da, dr := NatToString(a), NatToString(r);
    var b, c, d, g, b2, c2, d2, g2 := CodeChangesPieces(line, pad, da, gap, pad2, dr, gap2, rest);
    TwoLabelledGroups(line, b, c, d, g, b2, c2, d2, g2, CodeChanges, CodeChanges[4..], CodeChanges[5..]);
    SearchFromStart(line, CodeChanges, [da, dr], g2);
    ParseIntOfDigits(da);
    ParseIntOfDigits(dr);
    DigitsOfNat(a);
    DigitsOfNat(r);
  }

  // ---------------------------------------------------------------------
  // The per-model usage line

  /** A character that ends a number inside a model name so that the
      number cannot be read as a token count: it is not part of a number,
      not white space, not a magnitude letter and not the first letter of
      "input", "output" or "cache". */
  predicate StopsCount(ch: char) {
    && !IsSpace(ch) && !IsDecimalChar(ch) && !IsMagnitude(ch)
    && LowerChar(ch) != 'i' && LowerChar(ch) != 'o' && LowerChar(ch) != 'c'
  }

  /** A model name as the usage line prints it: one word, in which every
      number either ends the name or is followed by a character that stops
      it ("gpt-5-mini", "gpt-5.2", "claude-sonnet-4.5"). */
  predicate IsModelName(model: string) {
    && model != []
    && (forall k :: 0 <= k < |model| ==> !IsSpace(model[k]))
    && (forall k :: 0 <= k < |model| - 1 ==> IsDecimalChar(model[k]) ==> IsDecimalChar(model[k + 1]) || StopsCount(model[k + 1]))
  }

  /** A token count as the usage line prints it: digits and dots, then
      possibly a magnitude letter ("293", "12.1k", "1.5m"). */
  predicate IsCountText(x: string) {
    && |x| >= 1 && IsDecimalChar(x[0])
    && (forall k :: 0 <= k < |x| - 1 ==> IsDecimalChar(x[k]))
    && (IsDecimalChar(x[|x| - 1]) || IsMagnitude(x[|x| - 1]))
  }

  /** Inside a model name no count pattern matches: every number there is
      stopped before a word could follow it. */
  lemma ModelNoMatch(s: string, lo: nat, hi: nat, p: nat, pat: Pattern)
    requires lo <= hi < p < |s|
    requires |pat| >= 3 && pat[0] == Group(true, true) && pat[1] == Spaces && pat[2].Lit? && pat[2].text != []
    requires var w := LowerChar(pat[2].text[0]); w == 'i' || w == 'o' || w == 'c'
    requires forall k :: lo <= k < hi - 1 ==> IsDecimalChar(s[k]) ==> IsDecimalChar(s[k + 1]) || StopsCount(s[k + 1])
    requires forall k :: hi <= k < p ==> IsSpace(s[k])
    requires IsDecimalChar(s[p])
    ensures forall i :: lo <= i < hi ==> MatchAt(s, i, pat).None?
  {
    forall i | lo <= i < hi
      ensures MatchAt(s, i, pat).None?
    {
      if !IsDecimalChar(s[i]) {
        MatchGroupFails(s, i, pat);
      } else {
        var j := SpanFrom(s, i, IsDecimalChar);
        assert IsSpace(s[hi]);
        assert j <= hi;
        if j < hi {
          assert IsDecimalChar(s[j - 1]);
          RunFails(s, i, j, j, j, pat);
        } else {
          RunFails(s, i, hi, hi, p, pat);
        }
      }
    }
  }

  /** Inside a count followed by a space and a word other than the one the
      pattern looks for, the pattern does not match. */
  lemma CountNoMatch(s: string, p: nat, q: nat, pat: Pattern)
    requires p < q && q + 1 < |s|
    requires |pat| >= 3 && pat[0] == Group(true, true) && pat[1] == Spaces && pat[2].Lit? && pat[2].text != []
    requires IsCountText(s[p..q])
    requires IsSpace(s[q]) && !IsSpace(s[q + 1]) && LowerChar(s[q + 1]) != LowerChar(pat[2].text[0])
    ensures forall i :: p <= i < q ==> MatchAt(s, i, pat).None?
  {
    var j := if IsMagnitude(s[q - 1]) then q - 1 else q;
    assert forall k :: p <= k < j ==> IsDecimalChar(s[k]) by {
      assert forall k :: p <= k < j ==> s[k] == s[p..q][k - p];
    }
    forall i | p <= i < q
      ensures MatchAt(s, i, pat).None?
    {
      if i >= j {
        MatchGroupFails(s, i, pat);
      } else {
        RunFails(s, i, j, q, q + 1, pat);
      }
    }
  }

  /** A count, a space and the word of the pattern: the count is captured
      and matching goes on after the word. */
  lemma CountThenWord(s: string, p: nat, q: nat, g: nat, pat: Pattern, rest: Pattern)
    requires p < q && q + 1 <= g <= |s|
    requires |pat| >= 3 && pat[0] == Group(true, true) && pat[1] == Spaces && pat[2].Lit? && rest == pat[3..]
    requires IsCountText(s[p..q])
    requires var w := pat[2].text; w != [] && !IsSpace(w[0]) && !IsMagnitude(w[0]) && g == q + 1 + |w|
    requires IsSpace(s[q]) && s[q + 1..g] == pat[2].text
    ensures MatchAt(s, p, pat) == Prefixed(s[p..q], MatchAt(s, g, rest))
  {
    var j := if IsMagnitude(s[q - 1]) then q - 1 else q;
    assert forall k :: p <= k < j ==> IsDecimalChar(s[k]) by {
      assert forall k :: p <= k < j ==> s[k] == s[p..q][k - p];
    }
    GroupThenWord(s, p, j, q, q + 1, g, pat, rest);
  }

  /** The characters of the white space, model name and white space that
      open a usage line. */
  lemma HeadPieces(head: string, lead: string, model: string, gap: string)
    requires head == lead + model + gap
    ensures forall k :: 0 <= k < |lead| ==> head[k] == lead[k]
    ensures forall k :: |lead| <= k < |lead| + |model| ==> head[k] == model[k - |lead|]
    ensures forall k :: |lead| + |model| <= k < |head| ==> head[k] == gap[k - |lead| - |model|]
  {
    var p1 := lead + model;
    assert forall k :: 0 <= k < |p1| ==> head[k] == p1[k];
  }

  /** Where the three counts and their words sit in the rest of a usage
      line. */
  lemma CountPieces(rest: string, a: string, b: string, c: string, tail: string)
    returns (q: nat, r: nat, t: nat, u: nat, v: nat)
    requires rest == a + " input, " + b + " output, " + c + " cache read" + tail
    ensures q == |a| && r == q + 8 + |b| && t == r + 9 && u == t + |c| && v == u + 11 && v <= |rest|
    ensures rest[..q] == a && rest[q + 8..r] == b && rest[t..u] == c
    ensures rest[q..q + 8] == " input, " && rest[r..t] == " output, " && rest[u..v] == " cache read"
  {
    var p3 := a;
    var p4 := p3 + " input, ";
    var p5 := p4 + b;
    var p6 := p5 + " output, ";
    var p7 := p6 + c;
    var p8 := p7 + " cache read";
    q, r, t, u, v := |p3|, |p5|, |p6|, |p7|, |p8|;
    assert forall k :: 0 <= k < |p8| ==> rest[k] == p8[k];
    assert forall k :: 0 <= k < |p7| ==> rest[k] == p7[k];
    assert forall k :: 0 <= k < |p6| ==> rest[k] == p6[k];
    assert forall k :: 0 <= k < |p5| ==> rest[k] == p5[k];
    assert forall k :: 0 <= k < |p4| ==> rest[k] == p4[k];
    assert rest[..q] == a;
    assert rest[q + 8..r] == b;
    assert rest[t..u] == c;
    assert rest[q..q + 8] == " input, ";
    assert rest[r..t] == " output, ";
    assert rest[u..v] == " cache read";
  }

  /** A slice of the second part of a concatenation. */
  lemma SliceOfRest(line: string, head: string, rest: string, i: nat, j: nat)
    requires line == head + rest && i <= j <= |rest|
    ensures line[|head| + i..|head| + j] == rest[i..j]
  {
    assert forall k | |head| + i <= k < |head| + j :: line[k] == rest[k - |head|];
  }

  /** The characters of the opening of a usage line. */
  lemma HeadOfLine(line: string, head: string, rest: string, lead: string, model: string, gap: string)
    requires line == head + rest && head == lead + model + gap
    ensures forall k :: 0 <= k < |lead| ==> line[k] == lead[k]
    ensures forall k :: |lead| <= k < |lead| + |model| ==> line[k] == model[k - |lead|]
    ensures forall k :: |lead| + |model| <= k < |head| ==> line[k] == gap[k - |lead| - |model|]
  {
    HeadPieces(head, lead, model, gap);
    assert forall k :: 0 <= k < |head| ==> line[k] == head[k];
  }

  /** Where the counts and their words sit in a usage line. */
  lemma RestOfLine(line: string, head: string, rest: string, a: string, b: string, c: string, tail: string)
    returns (q: nat, r: nat, t: nat, u: nat, v: nat)
    requires line == head + rest && rest == a + " input, " + b + " output, " + c + " cache read" + tail
    ensures q == |head| + |a| && r == q + 8 + |b| && t == r + 9 && u == t + |c| && v == u + 11 && v <= |line|
    ensures line[|head|..q] == a && line[q + 8..r] == b && line[t..u] == c
    ensures line[q..q + 8] == " input, " && line[r..t] == " output, " && line[u..v] == " cache read"
  {
    var q0, r0, t0, u0, v0 := CountPieces(rest, a, b, c, tail);
    var p := |head|;
    q, r, t, u, v := p + q0, p + r0, p + t0, p + u0, p + v0;
    SliceOfRest(line, head, rest, 0, q0);
    SliceOfRest(line, head, rest, q0, q0 + 8);
    SliceOfRest(line, head, rest, q0 + 8, r0);
    SliceOfRest(line, head, rest, r0, t0);
    SliceOfRest(line, head, rest, t0, u0);
    SliceOfRest(line, head, rest, u0, v0);
  }

  /** Where the pieces of a usage line start and end. */
  lemma UsagePieces(line: string, lead: string, model: string, gap: string, a: string, b: string, c: string, tail: string)
    returns (m: nat, p: nat, q: nat, r: nat, t: nat, u: nat, v: nat)
    requires line == lead + model + gap + a + " input, " + b + " output, " + c + " cache read" + tail
    ensures m == |lead| + |model| && p == m + |gap| && q == p + |a|
    ensures r == q + 8 + |b| && t == r + 9 && u == t + |c| && v == u + 11 && v <= |line|
    ensures forall k :: 0 <= k < |lead| ==> line[k] == lead[k]
    ensures forall k :: |lead| <= k < m ==> line[k] == model[k - |lead|]
    ensures forall k :: m <= k < p ==> line[k] == gap[k - m]
    ensures line[p..q] == a && line[q + 8..r] == b && line[t..u] == c
    ensures line[q..q + 8] == " input, " && line[r..t] == " output, " && line[u..v] == " cache read"
  {
    var head := lead + model + gap;
    var rest := a + " input, " + b + " output, " + c + " cache read" + tail;
    assert line == head + rest;
    HeadOfLine(line, head, rest, lead, model, gap);
    m, p := |lead| + |model|, |head|;
    q, r, t, u, v := RestOfLine(line, head, rest, a, b, c, tail);
  }

  /** Where the pieces of a usage line are: white space before `lo`, the
      model name up to `m`, white space up to `p`, the input count up to
      `q`, " input, ", the output count up to `r`, " output, ", the cache
      count from `t` to `u` and " cache read" up to `v`. */
  predicate UsageLayout(s: string, lo: nat, m: nat, p: nat, q: nat, r: nat, t: nat, u: nat, v: nat) {
    && lo < m < p < q && q + 8 < r && t == r + 9 && t < u && v == u + 11 && v <= |s|
    && (forall k :: 0 <= k < lo ==> IsSpace(s[k]))
    && (forall k :: lo <= k < m ==> !IsSpace(s[k]))
    && (forall k :: lo <= k < m - 1 ==> IsDecimalChar(s[k]) ==> IsDecimalChar(s[k + 1]) || StopsCount(s[k + 1]))
    && (forall k :: m <= k < p ==> IsSpace(s[k]))
    && IsCountText(s[p..q]) && IsCountText(s[q + 8..r]) && IsCountText(s[t..u])
    && s[q..q + 8] == " input, " && s[r..t] == " output, " && s[u..v] == " cache read"
  }

  /** A piece of a known slice is the same piece of the line. */
  lemma PieceOf(s: string, a: nat, b: nat, lit: string, c: nat, d: nat)
    requires a <= b <= |s| && s[a..b] == lit && c <= d <= |lit|
    ensures s[a + c..a + d] == lit[c..d]
  {
    assert forall k | a + c <= k < a + d :: s[k] == s[a..b][k - a];
  }

  /** No count pattern matches before the model name ends: the line starts
      with white space and the model name's numbers are stopped. */
  lemma NoCountBeforeFirst(s: string, lo: nat, m: nat, p: nat, q: nat, r: nat, t: nat, u: nat, v: nat, pat: Pattern)
    requires UsageLayout(s, lo, m, p, q, r, t, u, v)
    requires |pat| >= 3 && pat[0] == Group(true, true) && pat[1] == Spaces && pat[2].Lit? && pat[2].text != []
    requires var w := LowerChar(pat[2].text[0]); w == 'i' || w == 'o' || w == 'c'
    ensures forall i :: 0 <= i < p ==> MatchAt(s, i, pat).None?
  {
    assert IsDecimalChar(s[p]) by {
      assert s[p] == s[p..q][0];
    }
    NoDigitsNoMatch(s, 0, lo, pat);
    ModelNoMatch(s, lo, m, p, pat);
    NoDigitsNoMatch(s, m, p, pat);
  }

  /** A three-element count pattern that matches at `a`, and nowhere
      before, is what a search finds. */
  lemma CountFoundAt(s: string, a: nat, b: nat, pat: Pattern)
    requires |pat| == 3 && pat[0] == Group(true, true) && pat[1] == Spaces && pat[2].Lit?
    requires var w := pat[2].text; w != [] && !IsSpace(w[0]) && !IsMagnitude(w[0])
    requires a < b && b + 1 + |pat[2].text| <= |s| && IsCountText(s[a..b])
    requires IsSpace(s[b]) && s[b + 1..b + 1 + |pat[2].text|] == pat[2].text
    requires forall i :: 0 <= i < a ==> MatchAt(s, i, pat).None?
    ensures Search(s, pat) == Some([s[a..b]])
  {
    var g, tail := b + 1 + |pat[2].text|, pat[3..];
    assert tail == [] && MatchAt(s, g, tail) == Some(Match([], g));
    assert MatchAt(s, a, pat) == Some(Match([s[a..b]], g)) by {
      CountThenWord(s, a, b, g, pat, tail);
      assert [s[a..b]] + [] == [s[a..b]];
    }
    SearchFindsAt(s, pat, a);
  }

  /** No pattern for the output or cache count matches before the output
      count: the input count is followed by "input". */
  lemma NoCountBeforeSecond(s: string, lo: nat, m: nat, p: nat, q: nat, r: nat, t: nat, u: nat, v: nat, pat: Pattern)
    requires UsageLayout(s, lo, m, p, q, r, t, u, v)
    requires |pat| >= 3 && pat[0] == Group(true, true) && pat[1] == Spaces && pat[2].Lit? && pat[2].text != []
    requires var w := LowerChar(pat[2].text[0]); w == 'o' || w == 'c'
    ensures forall i :: 0 <= i < q + 8 ==> MatchAt(s, i, pat).None?
  {
    NoCountBeforeFirst(s, lo, m, p, q, r, t, u, v, pat);
    assert forall i :: p <= i < q ==> MatchAt(s, i, pat).None? by {
      assert s[q] == ' ' && s[q + 1] == 'i' by {
        assert s[q] == s[q..q + 8][0] && s[q + 1] == s[q..q + 8][1];
      }
      CountNoMatch(s, p, q, pat);
    }
    assert forall k :: q <= k < q + 8 ==> !IsDecimalChar(s[k]) by {
      assert forall k :: q <= k < q + 8 ==> s[k] == s[q..q + 8][k - q];
    }
    NoDigitsNoMatch(s, q, q + 8, pat);
  }

  /** `/([\d.]+[km]?)\s*input/i` finds the input count. */
  lemma InputCountFound(s: string, lo: nat, m: nat, p: nat, q: nat, r: nat, t: nat, u: nat, v: nat, pat: Pattern)
    requires UsageLayout(s, lo, m, p, q, r, t, u, v)
    requires |pat| == 3 && pat[0] == Group(true, true) && pat[1] == Spaces && pat[2] == Lit("input")
    ensures Search(s, pat) == Some([s[p..q]])
  {
    NoCountBeforeFirst(s, lo, m, p, q, r, t, u, v, pat);
    assert IsSpace(s[q]) && s[q + 1..q + 6] == pat[2].text by {
      assert " input, "[1..6] == "input";
      assert s[q] == s[q..q + 8][0];
      PieceOf(s, q, q + 8, " input, ", 1, 6);
    }
    CountFoundAt(s, p, q, pat);
  }

  /** `/([\d.]+[km]?)\s*output/i` finds the output count. */
  lemma OutputCountFound(s: string, lo: nat, m: nat, p: nat, q: nat, r: nat, t: nat, u: nat, v: nat, pat: Pattern)
    requires UsageLayout(s, lo, m, p, q, r, t, u, v)
    requires |pat| == 3 && pat[0] == Group(true, true) && pat[1] == Spaces && pat[2] == Lit("output")
    ensures Search(s, pat) == Some([s[q + 8..r]])
  {
    NoCountBeforeSecond(s, lo, m, p, q, r, t, u, v, pat);
    assert IsSpace(s[r]) && s[r + 1..r + 7] == pat[2].text by {
      assert " output, "[1..7] == "output";
      assert s[r] == s[r..t][0];
      PieceOf(s, r, t, " output, ", 1, 7);
    }
    CountFoundAt(s, q + 8, r, pat);
  }

  /** White space and then a word match to the end of the word. */
  lemma SpaceThenWord(s: string, g: nat, e: nat, pat: Pattern)
    requires |pat| == 2 && pat[0] == Spaces && pat[1].Lit?
    requires var w := pat[1].text; w != [] && !IsSpace(w[0]) && e == g + 1 + |w| <= |s|
    requires IsSpace(s[g]) && s[g + 1..e] == pat[1].text
    ensures MatchAt(s, g, pat) == Some(Match([], e))
  {
    var word, tail := pat[1..], pat[2..];
    assert s[g + 1] == s[g + 1..e][0];
    MatchSpacesStep(s, g, g + 1, pat, word);
    MatchLitStep(s, g + 1, e, word, tail);
    assert tail == [];
  }

  /** No count before the third is followed by "cache". */
  lemma NoCountBeforeThird(s: string, lo: nat, m: nat, p: nat, q: nat, r: nat, t: nat, u: nat, v: nat, pat: Pattern)
    requires UsageLayout(s, lo, m, p, q, r, t, u, v)
    requires |pat| >= 3 && pat[0] == Group(true, true) && pat[1] == Spaces && pat[2].Lit? && pat[2].text != []
    requires LowerChar(pat[2].text[0]) == 'c'
    ensures forall i :: 0 <= i < t ==> MatchAt(s, i, pat).None?
  {
    NoCountBeforeSecond(s, lo, m, p, q, r, t, u, v, pat);
    assert forall i :: q + 8 <= i < r ==> MatchAt(s, i, pat).None? by {
      assert s[r] == ' ' && s[r + 1] == 'o' by {
        assert s[r] == s[r..t][0] && s[r + 1] == s[r..t][1];
      }
      CountNoMatch(s, q + 8, r, pat);
    }
    assert forall k :: r <= k < t ==> !IsDecimalChar(s[k]) by {
      assert forall k :: r <= k < t ==> s[k] == s[r..t][k - r];
    }
    NoDigitsNoMatch(s, r, t, pat);
  }

  /** `/([\d.]+[km]?)\s*cache\s*read/i` finds the cache count: the counts
      before it are followed by "input" and "output", not "cache". */
  lemma CacheCountFound(s: string, lo: nat, m: nat, p: nat, q: nat, r: nat, t: nat, u: nat, v: nat, pat: Pattern)
    requires UsageLayout(s, lo, m, p, q, r, t, u, v)
    requires |pat| == 5 && pat[0] == Group(true, true) && pat[1] == Spaces && pat[2] == Lit("cache")
    requires pat[3] == Spaces && pat[4] == Lit("read")
    ensures Search(s, pat) == Some([s[t..u]])
  {
    var g, rest := u + 6, pat[3..];
    NoCountBeforeThird(s, lo, m, p, q, r, t, u, v, pat);
    assert IsSpace(s[u]) && s[u + 1..g] == pat[2].text && IsSpace(s[g]) && s[g + 1..v] == pat[4].text by {
      assert " cache read"[1..6] == "cache" && " cache read"[7..11] == "read";
      assert s[u] == s[u..v][0] && s[g] == s[u..v][6];
      PieceOf(s, u, v, " cache read", 1, 6);
      PieceOf(s, u, v, " cache read", 7, 11);
    }
    assert MatchAt(s, g, rest) == Some(Match([], v)) by {
      SpaceThenWord(s, g, v, rest);
    }
    assert MatchAt(s, t, pat) == Some(Match([s[t..u]], v)) by {
      assert pat[2].text[0] == 'c' && |pat[2].text| == 5;
      CountThenWord(s, t, u, g, pat, rest);
      assert [s[t..u]] + [] == [s[t..u]];
    }
    SearchFindsAt(s, pat, t);
  }

  /** `/^\s*(\S+)/` reads the model name: white space up to `lo`, then
      non-white-space up to `m`, then white space. */
  lemma ModelTokenAt(s: string, lo: nat, m: nat)
    requires lo < m < |s| && IsSpace(s[m])
    requires forall k :: 0 <= k < lo ==> IsSpace(s[k])
    requires forall k :: lo <= k < m ==> !IsSpace(s[k])
    ensures ModelToken(s) == Some(s[lo..m])
  {
    SpanEndsAt(s, 0, lo, IsSpace);
    SpanEndsAt(s, lo, m, NotSpace);
  }

  /** The layout of a usage line built from its pieces. */
  lemma UsageLayoutOf(line: string, lead: string, model: string, gap: string, a: string, b: string, c: string, tail: string)
    returns (m: nat, p: nat, q: nat, r: nat, t: nat, u: nat, v: nat)
    requires IsBlank(lead) && IsModelName(model) && gap != [] && IsBlank(gap)
    requires IsCountText(a) && IsCountText(b) && IsCountText(c)
    requires line == lead + model + gap + a + " input, " + b + " output, " + c + " cache read" + tail
    ensures UsageLayout(line, |lead|, m, p, q, r, t, u, v)
    ensures line[|lead|..m] == model && line[p..q] == a && line[q + 8..r] == b && line[t..u] == c
  {
    m, p, q, r, t, u, v := UsagePieces(line, lead, model, gap, a, b, c, tail);
    assert line[|lead|..m] == model by {
      assert forall k | 0 <= k < |model| :: line[|lead|..m][k] == line[|lead| + k];
    }
  }

  /** A line laid out as a usage line passes the usage-line test. */
  lemma UsageTestAt(s: string, lo: nat, m: nat, p: nat, q: nat, r: nat, t: nat, u: nat, v: nat)
    requires UsageLayout(s, lo, m, p, q, r, t, u, v)
    ensures IsUsageLine(s)
  {
    assert " input, "[1..7] == "input," && " output, "[1..7] == "output";
    PieceOf(s, q, q + 8, " input, ", 1, 7);
    PieceOf(s, r, t, " output, ", 1, 7);
    assert OccursAt(s, "input,", q + 1) && OccursAt(s, "output", r + 1);
    ContainsIff(s, "input,");
    ContainsIff(s, "output");
  }

  /** The readers of a usage line return what its searches find. */
  lemma ReadersOf(s: string, model: string, x: string, y: string, z: string)
    requires IsUsageLine(s) && ModelToken(s) == Some(model)
    requires Search(s, InputTokens) == Some([x])
    requires Search(s, OutputTokens) == Some([y])
    requires Search(s, CacheReadTokens) == Some([z])
    ensures ModelOf(s) == Some(model)
    ensures InputOf(s) == Truthful(Some(TokenCount(x)))
    ensures OutputOf(s) == Truthful(Some(TokenCount(y)))
    ensures CacheOf(s) == Truthful(Some(TokenCount(z)))
  {
  }

  /** The searches of `parseUsageLine` on a line laid out as a usage line
      find its three counts. */
  lemma UsageSearchesAt(s: string, lo: nat, m: nat, p: nat, q: nat, r: nat, t: nat, u: nat, v: nat)
    requires UsageLayout(s, lo, m, p, q, r, t, u, v)
    ensures Search(s, InputTokens) == Some([s[p..q]])
    ensures Search(s, OutputTokens) == Some([s[q + 8..r]])
    ensures Search(s, CacheReadTokens) == Some([s[t..u]])
  {
    InputCountFound(s, lo, m, p, q, r, t, u, v, InputTokens);
    OutputCountFound(s, lo, m, p, q, r, t, u, v, OutputTokens);
    CacheCountFound(s, lo, m, p, q, r, t, u, v, CacheReadTokens);
  }

  /** A usage line with a model name, then white space, then the three
      counts each followed by its word is read as that model with those
      counts, whatever follows. */
  lemma UsageLineRead(line: string, lead: string, model: string, gap: string, a: string, b: string, c: string, tail: string)
    requires IsBlank(lead) && IsModelName(model) && gap != [] && IsBlank(gap)
    requires IsCountText(a) && IsCountText(b) && IsCountText(c)
    requires line == lead + model + gap + a + " input, " + b + " output, " + c + " cache read" + tail
    ensures IsUsageLine(line)
    ensures ModelOf(line) == Some(model)
    ensures InputOf(line) == Truthful(Some(TokenCount(a)))
    ensures OutputOf(line) == Truthful(Some(TokenCount(b)))
    ensures CacheOf(line) == Truthful(Some(TokenCount(c)))
  {
    var m, p, q, r, t, u, v := UsageLayoutOf(line, lead, model, gap, a, b, c, tail);
    var lo := |lead|;
    UsageTestAt(line, lo, m, p, q, r, t, u, v);
    ModelTokenAt(line, lo, m);
    UsageSearchesAt(line, lo, m, p, q, r, t, u, v);
    ReadersOf(line, model, a, b, c);
  }
}
