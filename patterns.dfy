/** The regular expressions of the CLI output parser, each written as the
    sequence of greedy elements it is made of and searched for leftmost, as
    `String.prototype.match` does.

    Every pattern here is a chain of literals, `\s*`, `\d+` or `[\d.]+`
    groups and an optional `[km]`, each element followed either by the end of
    the pattern or by an element whose first character the preceding element
    cannot consume (a literal starting with a letter other than k or m, or a
    space). Under that shape giving back characters from a greedy element
    never lets the rest match, so matching each element greedily without
    backtracking finds the same match, with the same groups, as the
    backtracking regular-expression engine. Literals compare with ASCII case
    folding: every pattern of the parser carries the `i` flag. */
module LinePatterns {
  import opened Wrappers
  import opened Text

  datatype Elem =
    | Lit(text: string)                    // literal text, case-insensitive
    | Spaces                               // \s*
    | Group(dots: bool, magnitude: bool)   // ( \d+ ) or ( [\d.]+ ), then [km]? inside the group

  type Pattern = seq<Elem>

  /** A successful match: the captured groups, in order, and where the match
      ends. */
  datatype Match = Match(groups: seq<string>, end: nat)

  predicate IsDecimalChar(c: char) {
    IsDigit(c) || c == '.'
  }

  predicate IsMagnitude(c: char) {
    c == 'k' || c == 'm' || c == 'K' || c == 'M'
  }

  /** The number of capture groups of a pattern. */
  function GroupCount(pat: Pattern): nat {
    if pat == [] then 0 else (if pat[0].Group? then 1 else 0) + GroupCount(pat[1..])
  }

  /** The pattern matched against `s` starting exactly at `i`. */
  function MatchAt(s: string, i: nat, pat: Pattern): (r: Option<Match>)
    requires i <= |s|
    ensures r.Some? ==> i <= r.value.end <= |s| && |r.value.groups| == GroupCount(pat)
    decreases pat
  {
    if pat == [] then Some(Match([], i))
    else match pat[0]
      case Lit(t) =>
        if i + |t| <= |s| && EqualsIgnoreCase(s[i..i + |t|], t) then MatchAt(s, i + |t|, pat[1..]) else None
      case Spaces =>
        MatchAt(s, SpanFrom(s, i, IsSpace), pat[1..])
      case Group(dots, magnitude) =>
        var j := SpanFrom(s, i, if dots then IsDecimalChar else IsDigit);
        if j == i then None
        else
          var k := if magnitude && j < |s| && IsMagnitude(s[j]) then j + 1 else j;
          match MatchAt(s, k, pat[1..])
          case None => None
          case Some(m) => Some(Match([s[i..k]] + m.groups, m.end))
  }

  /** The first `at(i)` that is present, for `i` from `from` up to `last`. */
  function FirstFrom<T>(at: nat -> Option<T>, from: nat, last: nat): Option<T>
    decreases last + 1 - from
  {
    if from > last then None
    else if at(from).Some? then at(from)
    else FirstFrom(at, from + 1, last)
  }

  /** `FirstFrom` is None exactly when nothing in range is present, and
      otherwise the value at a position before which nothing is present. */
  lemma {:induction false} FirstFromIsFirst<T>(at: nat -> Option<T>, from: nat, last: nat)
    ensures FirstFrom(at, from, last).None? <==> forall i :: from <= i <= last ==> at(i).None?
    ensures FirstFrom(at, from, last).Some? ==>
      exists i :: (&& from <= i <= last && at(i) == FirstFrom(at, from, last)
                   && forall i' :: from <= i' < i ==> at(i').None?)
    decreases last + 1 - from
  {
    if from <= last && at(from).None? {
      FirstFromIsFirst(at, from + 1, last);
    }
  }

  /** The pattern matched at each position of `s`. */
  function MatchesIn(s: string, pat: Pattern): nat -> Option<Match> {
    (i: nat) => if i <= |s| then MatchAt(s, i, pat) else None
  }

  /** The first match starting at `from` or later. */
  function SearchFrom(s: string, pat: Pattern, from: nat): Option<Match> {
    FirstFrom(MatchesIn(s, pat), from, |s|)
  }

  /** `s.match(pattern)` for a pattern without the `g` flag: the groups of
      the leftmost match, or None. */
  function Search(s: string, pat: Pattern): (r: Option<seq<string>>)
    ensures r.Some? ==> |r.value| == GroupCount(pat)
  {
    FirstFromIsFirst(MatchesIn(s, pat), 0, |s|);
    var m := SearchFrom(s, pat, 0);
    if m.None? then None else Some(m.value.groups)
  }

  /** Each position's entry of `MatchesIn` is the match at that position. */
  lemma MatchesInAt(s: string, pat: Pattern, i: nat)
    requires i <= |s|
    ensures MatchesIn(s, pat)(i) == MatchAt(s, i, pat)
  {
  }

  /** `Search` is None exactly when the pattern matches nowhere. */
  lemma SearchNoneIff(s: string, pat: Pattern)
    ensures Search(s, pat).None? <==> forall i :: 0 <= i <= |s| ==> MatchAt(s, i, pat).None?
  {
    var at := MatchesIn(s, pat);
    FirstFromIsFirst(at, 0, |s|);
    assert Search(s, pat).None? <==> FirstFrom(at, 0, |s|).None?;
    if FirstFrom(at, 0, |s|).None? {
      forall i | 0 <= i <= |s|
        ensures MatchAt(s, i, pat).None?
      {
        MatchesInAt(s, pat, i);
      }
    } else {
      var i :| 0 <= i <= |s| && at(i) == FirstFrom(at, 0, |s|);
      MatchesInAt(s, pat, i);
    }
  }

  /** A reported match comes from a position before which none matches, so
      a match at the very start of the string is the one reported. */
  lemma SearchIsLeftmost(s: string, pat: Pattern)
    requires Search(s, pat).Some?
    ensures exists i :: (&& 0 <= i <= |s| && MatchAt(s, i, pat).Some?
                         && MatchAt(s, i, pat).value.groups == Search(s, pat).value
                         && forall i' :: 0 <= i' < i ==> MatchAt(s, i', pat).None?)
    ensures MatchAt(s, 0, pat).Some? ==> Search(s, pat).value == MatchAt(s, 0, pat).value.groups
  {
    var at := MatchesIn(s, pat);
    FirstFromIsFirst(at, 0, |s|);
    var i :| && 0 <= i <= |s| && at(i) == FirstFrom(at, 0, |s|)
             && forall i' :: 0 <= i' < i ==> at(i').None?;
    MatchesInAt(s, pat, i);
    assert Search(s, pat).value == at(i).value.groups;
    forall i' | 0 <= i' < i
      ensures MatchAt(s, i', pat).None?
    {
      MatchesInAt(s, pat, i');
    }
    if MatchAt(s, 0, pat).Some? {
      MatchesInAt(s, pat, 0);
    }
  }

  /** A match of the rest of a pattern with the group `g` captured in
      front of its groups. */
  function Prefixed(g: string, m: Option<Match>): (r: Option<Match>)
    ensures r.Some? <==> m.Some?
    ensures r.Some? ==> r.value.groups == [g] + m.value.groups && r.value.end == m.value.end
  {
    match m
    case None => None
    case Some(x) => Some(Match([g] + x.groups, x.end))
  }

  /** A greedy run is determined by where it stops: every character up to
      `j` qualifies and the one at `j`, if any, does not. */
  lemma SpanEndsAt(s: string, i: nat, j: nat, p: char -> bool)
    requires i <= j <= |s|
    requires forall k :: i <= k < j ==> p(s[k])
    requires j == |s| || !p(s[j])
    ensures SpanFrom(s, i, p) == j
  {
  }

  /** `s[i..j]` is the run a group captures up to its magnitude letter:
      digits, or digits and dots, ending where the run ends. */
  predicate IsCountRun(s: string, i: nat, j: nat, dots: bool) {
    && i < j <= |s|
    && (forall k :: i <= k < j ==> if dots then IsDecimalChar(s[k]) else IsDigit(s[k]))
    && (j == |s| || !IsDecimalChar(s[j]))
  }

  /** A literal present verbatim at `i` is stepped over. */
  lemma MatchLitStep(s: string, i: nat, j: nat, pat: Pattern, rest: Pattern)
    requires pat != [] && pat[0].Lit? && rest == pat[1..]
    requires j == i + |pat[0].text| <= |s| && s[i..j] == pat[0].text
    ensures MatchAt(s, i, pat) == MatchAt(s, j, rest)
  {
  }

  /** A literal fails at `i` when one of its characters differs, ignoring
      case, from the character of `s` it is compared with. */
  lemma MatchLitFails(s: string, i: nat, pat: Pattern, q: nat)
    requires i <= |s| && pat != [] && pat[0].Lit? && q < |pat[0].text|
    requires i + q < |s| && LowerChar(s[i + q]) != LowerChar(pat[0].text[q])
    ensures MatchAt(s, i, pat).None?
  {
    var t := pat[0].text;
    if i + |t| <= |s| {
      assert Lower(s[i..i + |t|])[q] != Lower(t)[q];
    }
  }

  /** `\s*` consumes exactly the run of white space from `i` to `j`. */
  lemma MatchSpacesStep(s: string, i: nat, j: nat, pat: Pattern, rest: Pattern)
    requires pat != [] && pat[0] == Spaces && rest == pat[1..]
    requires i <= j <= |s|
    requires forall k :: i <= k < j ==> IsSpace(s[k])
    requires j == |s| || !IsSpace(s[j])
    ensures MatchAt(s, i, pat) == MatchAt(s, j, rest)
  {
    SpanEndsAt(s, i, j, IsSpace);
  }

  /** A group captures the run from `i` to `j`, and the magnitude letter
      after it when it takes one (then the capture ends at `e`). */
  lemma MatchGroupStep(s: string, i: nat, j: nat, e: nat, pat: Pattern, rest: Pattern)
    requires pat != [] && pat[0].Group? && rest == pat[1..]
    requires IsCountRun(s, i, j, pat[0].dots)
    requires e == if pat[0].magnitude && j < |s| && IsMagnitude(s[j]) then j + 1 else j
    ensures MatchAt(s, i, pat) == Prefixed(s[i..e], MatchAt(s, e, rest))
  {
    SpanEndsAt(s, i, j, if pat[0].dots then IsDecimalChar else IsDigit);
  }

  /** A group cannot start on a character that is neither a digit nor a
      dot. */
  lemma MatchGroupFails(s: string, i: nat, pat: Pattern)
    requires i <= |s| && pat != [] && pat[0].Group?
    requires i == |s| || !IsDecimalChar(s[i])
    ensures MatchAt(s, i, pat).None?
  {
    SpanEndsAt(s, i, i, if pat[0].dots then IsDecimalChar else IsDigit);
  }

  /** The match found at `p`, with no match before it, is the one `Search`
      reports. */
  lemma SearchFindsAt(s: string, pat: Pattern, p: nat)
    requires p <= |s| && MatchAt(s, p, pat).Some?
    requires forall i :: 0 <= i < p ==> MatchAt(s, i, pat).None?
    ensures Search(s, pat) == Some(MatchAt(s, p, pat).value.groups)
  {
    SearchNoneIff(s, pat);
    SearchIsLeftmost(s, pat);
  }

  /** A pattern opening with a literal matches nowhere in a string that has
      no character equal, ignoring case, to one of the literal's. */
  lemma NoMatchWithout(s: string, pat: Pattern, q: nat)
    requires pat != [] && pat[0].Lit? && q < |pat[0].text|
    requires forall k :: 0 <= k < |s| ==> LowerChar(s[k]) != LowerChar(pat[0].text[q])
    ensures Search(s, pat).None?
  {
    forall i | 0 <= i <= |s|
      ensures MatchAt(s, i, pat).None?
    {
      if i + q < |s| {
        MatchLitFails(s, i, pat, q);
      }
    }
    SearchNoneIff(s, pat);
  }

  /** `s` holds, from `i`, a count whose run ends at `j` and whose
      magnitude letter, if any, ends at `e`, then white space up to `f` and
      the word of `pat` at `f`. */
  predicate CountWordAt(s: string, i: nat, j: nat, e: nat, f: nat, pat: Pattern) {
    && |pat| >= 3 && pat[0].Group? && pat[1] == Spaces && pat[2].Lit?
    && IsCountRun(s, i, j, pat[0].dots)
    && (e == j || (e == j + 1 && j < |s| && pat[0].magnitude && IsMagnitude(s[j])))
    && e <= f <= |s| && (forall k :: e <= k < f ==> IsSpace(s[k]))
    && pat[2].text != [] && f + |pat[2].text| <= |s| && s[f..f + |pat[2].text|] == pat[2].text
    && !IsSpace(pat[2].text[0]) && !IsMagnitude(pat[2].text[0])
  }

  /** A group, white space and a word: the group captures `s[i..e]` and
      matching goes on at `g`, after the word. */
  lemma GroupThenWord(s: string, i: nat, j: nat, e: nat, f: nat, g: nat, pat: Pattern, rest: Pattern)
    requires CountWordAt(s, i, j, e, f, pat) && g == f + |pat[2].text| && rest == pat[3..]
    ensures MatchAt(s, i, pat) == Prefixed(s[i..e], MatchAt(s, g, rest))
  {
    var p1, p2 := pat[1..], pat[2..];
    CountWordSteps(s, i, j, e, f, pat);
    MatchLitStep(s, f, g, p2, rest);
    MatchSpacesStep(s, e, f, p1, p2);
    MatchGroupStep(s, i, j, e, pat, p1);
  }

  /** The layout facts `GroupThenWord` passes on to its steps. */
  lemma CountWordSteps(s: string, i: nat, j: nat, e: nat, f: nat, pat: Pattern)
    requires CountWordAt(s, i, j, e, f, pat)
    ensures pat[1..][1..] == pat[2..] && pat[2..][1..] == pat[3..]
    ensures e < |s| && !IsSpace(s[f])
    ensures e == if pat[0].magnitude && j < |s| && IsMagnitude(s[j]) then j + 1 else j
  {
    var w := pat[2].text;
    assert s[f] == w[0];
    assert !IsMagnitude(s[e]) by {
      if e < f {
        assert IsSpace(s[e]);
      }
    }
  }

  /** `s` holds, from `i`, the tag of `pat`, white space up to `b`, a number
      whose run ends at `c`, white space up to `d` and the word of `pat`. */
  predicate LabelledAt(s: string, i: nat, b: nat, c: nat, d: nat, pat: Pattern) {
    && |pat| >= 5 && pat[0].Lit? && pat[1] == Spaces && pat[2].Group? && !pat[2].magnitude
    && pat[3] == Spaces && pat[4].Lit?
    && i + |pat[0].text| <= b <= |s| && s[i..i + |pat[0].text|] == pat[0].text
    && (forall k :: i + |pat[0].text| <= k < b ==> IsSpace(s[k]))
    && IsCountRun(s, b, c, pat[2].dots)
    && c <= d <= |s| && (forall k :: c <= k < d ==> IsSpace(s[k]))
    && pat[4].text != [] && d + |pat[4].text| <= |s| && s[d..d + |pat[4].text|] == pat[4].text
    && !IsSpace(pat[4].text[0]) && !IsMagnitude(pat[4].text[0])
  }

  /** A literal tag, white space, a group, white space and a word: the
      group captures `s[b..c]` and matching goes on at `g`, after the
      word. */
  lemma LabelledGroup(s: string, i: nat, b: nat, c: nat, d: nat, g: nat, pat: Pattern, rest: Pattern)
    requires LabelledAt(s, i, b, c, d, pat) && g == d + |pat[4].text| && rest == pat[5..]
    ensures MatchAt(s, i, pat) == Prefixed(s[b..c], MatchAt(s, g, rest))
  {
    var a := i + |pat[0].text|;
    var p1, p2 := pat[1..], pat[2..];
    LabelledSteps(s, i, b, c, d, pat);
    GroupThenWord(s, b, c, c, d, g, p2, rest);
    MatchSpacesStep(s, a, b, p1, p2);
    MatchLitStep(s, i, a, pat, p1);
  }

  /** The layout facts `LabelledGroup` passes on to its steps. */
  lemma LabelledSteps(s: string, i: nat, b: nat, c: nat, d: nat, pat: Pattern)
    requires LabelledAt(s, i, b, c, d, pat)
    ensures CountWordAt(s, b, c, c, d, pat[2..])
    ensures pat[2..][3..] == pat[5..] && pat[1..][1..] == pat[2..]
    ensures !IsSpace(s[b])
  {
  }

  /** A line laid out as consecutive pieces (a tag, white space, a number,
      white space and a word, after `pre`) has the layout `LabelledGroup`
      reads, with the number from `b` to `c` and the word ending at `g`. */
  lemma LabelledPieces(s: string, pre: string, pad: string, num: string, gap: string, rest: string, pat: Pattern)
    returns (b: nat, c: nat, d: nat, g: nat)
    requires |pat| >= 5 && pat[0].Lit? && pat[1] == Spaces && pat[2].Group? && !pat[2].magnitude
    requires pat[3] == Spaces && pat[4].Lit?
    requires s == pre + pat[0].text + pad + num + gap + pat[4].text + rest
    requires IsBlank(pad) && IsBlank(gap)
    requires |num| >= 1 && forall k :: 0 <= k < |num| ==> IsDigit(num[k])
    requires var w := pat[4].text; w != [] && !IsSpace(w[0]) && !IsDecimalChar(w[0]) && !IsMagnitude(w[0])
    ensures LabelledAt(s, |pre|, b, c, d, pat) && s[b..c] == num
    ensures g == d + |pat[4].text| && g + |rest| == |s|
  {
    var t, w := pat[0].text, pat[4].text;
    var p1 := pre + t;
    var p2 := p1 + pad;
    var p3 := p2 + num;
    var p4 := p3 + gap;
    var p5 := p4 + w;
    b, c, d, g := |p2|, |p3|, |p4|, |p5|;
    var i := |pre|;
    assert forall k :: 0 <= k < |p5| ==> s[k] == p5[k];
    assert forall k :: 0 <= k < |p4| ==> s[k] == p4[k];
    assert forall k :: 0 <= k < |p3| ==> s[k] == p3[k];
    assert forall k :: 0 <= k < |p2| ==> s[k] == p2[k];
    assert s[i..i + |t|] == t;
    assert s[b..c] == num;
    assert s[d..d + |w|] == w;
    assert IsCountRun(s, b, c, pat[2].dots);
  }

  /** Two tagged groups in a row, the word of the first being the tag of
      the second, matched from the start of `s` and ending the pattern. */
  lemma TwoLabelledGroups(s: string, b: nat, c: nat, d: nat, g: nat, b2: nat, c2: nat, d2: nat, g2: nat,
                          pat: Pattern, second: Pattern, tail: Pattern)
    requires |pat| == 9 && second == pat[4..] && tail == pat[5..]
    requires LabelledAt(s, 0, b, c, d, pat) && g == d + |pat[4].text|
    requires LabelledAt(s, d, b2, c2, d2, second) && g2 == d2 + |pat[8].text| && g2 <= |s|
    ensures MatchAt(s, 0, pat) == Some(Match([s[b..c], s[b2..c2]], g2))
  {
    var end := second[5..];
    var m1, m2, m3 := MatchAt(s, g, tail), MatchAt(s, d, second), MatchAt(s, g2, end);
    assert second[0] == pat[4] && second[1..] == tail && second[4] == pat[8] && end == [];
    LabelledGroup(s, 0, b, c, d, g, pat, tail);
    MatchLitStep(s, d, g, second, tail);
    LabelledGroup(s, d, b2, c2, d2, g2, second, end);
    assert m3 == Some(Match([], g2));
    assert [s[b..c]] + ([s[b2..c2]] + []) == [s[b..c], s[b2..c2]];
  }

  /** `s` holds, from `i`, the tag of `pat`, white space up to `b`, a number
      whose run ends at `c` and the unit of `pat` right after it. */
  predicate UnitAt(s: string, i: nat, b: nat, c: nat, pat: Pattern) {
    && |pat| >= 4 && pat[0].Lit? && pat[1] == Spaces && pat[2].Group? && !pat[2].magnitude && pat[3].Lit?
    && i + |pat[0].text| <= b <= |s| && s[i..i + |pat[0].text|] == pat[0].text
    && (forall k :: i + |pat[0].text| <= k < b ==> IsSpace(s[k]))
    && IsCountRun(s, b, c, pat[2].dots)
    && c + |pat[3].text| <= |s| && s[c..c + |pat[3].text|] == pat[3].text
  }

  /** A literal tag, white space, a group and a unit right after it: the
      group captures `s[b..c]` and matching goes on at `g`, after the
      unit. */
  lemma UnitGroup(s: string, i: nat, b: nat, c: nat, g: nat, pat: Pattern, rest: Pattern)
    requires UnitAt(s, i, b, c, pat) && g == c + |pat[3].text| && rest == pat[4..]
    ensures MatchAt(s, i, pat) == Prefixed(s[b..c], MatchAt(s, g, rest))
  {
    var a := i + |pat[0].text|;
    var p1, p2, p3 := pat[1..], pat[2..], pat[3..];
    UnitSteps(s, i, b, c, pat);
    MatchLitStep(s, c, g, p3, rest);
    MatchGroupStep(s, b, c, c, p2, p3);
    MatchSpacesStep(s, a, b, p1, p2);
    MatchLitStep(s, i, a, pat, p1);
  }

  /** The layout facts `UnitGroup` passes on to its steps. */
  lemma UnitSteps(s: string, i: nat, b: nat, c: nat, pat: Pattern)
    requires UnitAt(s, i, b, c, pat)
    ensures pat[1..][1..] == pat[2..] && pat[2..][1..] == pat[3..] && pat[3..][1..] == pat[4..]
    ensures !IsSpace(s[b])
  {
  }

  /** A line laid out as consecutive pieces (a tag, white space, a number
      and a unit, after `pre`) has the layout `UnitGroup` reads, with the
      number from `b` to `c` and the unit ending at `g`. */
  lemma UnitPieces(s: string, pre: string, pad: string, num: string, rest: string, pat: Pattern)
    returns (b: nat, c: nat, g: nat)
    requires |pat| >= 4 && pat[0].Lit? && pat[1] == Spaces && pat[2].Group? && !pat[2].magnitude && pat[3].Lit?
    requires s == pre + pat[0].text + pad + num + pat[3].text + rest
    requires IsBlank(pad)
    requires |num| >= 1 && forall k :: 0 <= k < |num| ==> IsDigit(num[k])
    requires var u := pat[3].text; u != [] && !IsDecimalChar(u[0])
    ensures UnitAt(s, |pre|, b, c, pat) && s[b..c] == num
    ensures g == c + |pat[3].text| && g + |rest| == |s|
  {
    var t, u := pat[0].text, pat[3].text;
    var p1 := pre + t;
    var p2 := p1 + pad;
    var p3 := p2 + num;
    var p4 := p3 + u;
    b, c, g := |p2|, |p3|, |p4|;
    var i := |pre|;
    assert forall k :: 0 <= k < |p4| ==> s[k] == p4[k];
    assert forall k :: 0 <= k < |p3| ==> s[k] == p3[k];
    assert forall k :: 0 <= k < |p2| ==> s[k] == p2[k];
    assert s[i..i + |t|] == t;
    assert s[b..c] == num;
    assert s[c..c + |u|] == u;
    assert IsCountRun(s, b, c, pat[2].dots);
  }

  /** A group whose run, magnitude letter and following white space end on
      a character other than the first of the word: no match at `i`. */
  lemma RunFails(s: string, i: nat, j: nat, e: nat, f: nat, pat: Pattern)
    requires |pat| >= 3 && pat[0].Group? && pat[1] == Spaces && pat[2].Lit? && pat[2].text != []
    requires IsCountRun(s, i, j, pat[0].dots)
    requires e == if pat[0].magnitude && j < |s| && IsMagnitude(s[j]) then j + 1 else j
    requires e <= f <= |s| && (forall k :: e <= k < f ==> IsSpace(s[k])) && (f == |s| || !IsSpace(s[f]))
    requires f == |s| || LowerChar(s[f]) != LowerChar(pat[2].text[0])
    ensures MatchAt(s, i, pat).None?
  {
    var p1, p2 := pat[1..], pat[2..];
    assert p1[1..] == p2;
    MatchGroupStep(s, i, j, e, pat, p1);
    MatchSpacesStep(s, e, f, p1, p2);
    if f < |s| {
      MatchLitFails(s, f, p2, 0);
    }
  }

  /** No group starts in a stretch without digits or dots. */
  lemma NoDigitsNoMatch(s: string, lo: nat, hi: nat, pat: Pattern)
    requires lo <= hi <= |s| && pat != [] && pat[0].Group?
    requires forall k :: lo <= k < hi ==> !IsDecimalChar(s[k])
    ensures forall i :: lo <= i < hi ==> MatchAt(s, i, pat).None?
  {
    forall i | lo <= i < hi
      ensures MatchAt(s, i, pat).None?
    {
      MatchGroupFails(s, i, pat);
    }
  }

  // The patterns of output-parser.ts.

  /** /Total usage est:\s*([\d.]+)\s*Premium/i */
  const TotalUsage: Pattern := [Lit("Total usage est:"), Spaces, Group(true, false), Spaces, Lit("Premium")]
  /** /Total duration \(API\):\s*([\d.]+)s/i */
  const ApiDuration: Pattern := [Lit("Total duration (API):"), Spaces, Group(true, false), Lit("s")]
  /** /Total duration \(wall\):\s*([\d.]+)s/i */
  const WallDuration: Pattern := [Lit("Total duration (wall):"), Spaces, Group(true, false), Lit("s")]
  /** /Total code changes:\s*([\d]+)\s*lines added,\s*([\d]+)\s*lines removed/i */
  const CodeChanges: Pattern :=
    [Lit("Total code changes:"), Spaces, Group(false, false), Spaces, Lit("lines added,"),
     Spaces, Group(false, false), Spaces, Lit("lines removed")]
  /** /([\d.]+[km]?)\s*input/i */
  const InputTokens: Pattern := [Group(true, true), Spaces, Lit("input")]
  /** /([\d.]+[km]?)\s*output/i */
  const OutputTokens: Pattern := [Group(true, true), Spaces, Lit("output")]
  /** /([\d.]+[km]?)\s*cache\s*read/i */
  const CacheReadTokens: Pattern := [Group(true, true), Spaces, Lit("cache"), Spaces, Lit("read")]
  /** /Est\.\s*([\d.]+)\s*Premium/i */
  const ModelPremium: Pattern := [Lit("Est."), Spaces, Group(true, false), Spaces, Lit("Premium")]
}
