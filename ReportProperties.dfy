/** What the report parser promises, proved about its specification
    `ParseLineSpec` / `ParseLines` / `ParseSpec`, which `ReportParser.Parse`
    is proved to compute. */
module ReportProperties {
  import opened Wrappers
  import opened StringOps
  import opened Patterns
  import opened Parser

  // ---------------------------------------------------------------------
  // One line: which patterns can match it, and how it is classified.
  // ---------------------------------------------------------------------

  /** A line some counts pattern matches starts with a digit. */
  lemma CountsLineStartsWithDigit(pat: seq<Token>, line: string)
    requires pat == FeaturesPattern || pat == ScenariosPattern || pat == StepsPattern
    requires MatchPrefix(pat, line).Some?
    ensures line != [] && IsDigit(line[0])
  {
    var m := MatchPrefix(pat, line).value;
    LeadingDigits(pat, m, line);
  }

  /** A line the `Took` pattern matches starts with `"Took "`. */
  lemma TookLineStartsWithTook(line: string)
    requires MatchPrefix(TookPattern, line).Some?
    ensures StartsWith(line, "Took ")
  {
    DecomposesTail(TookPattern, MatchPrefix(TookPattern, line).value, line);
  }

  lemma CharAfter(line: string, k: nat, text: string, j: nat)
    requires k <= |line| && StartsWith(line[k..], text) && j < |text|
    ensures k + j < |line| && line[k + j] == text[j]
  {
    assert line[k..][j] == text[j];
  }

  /** After the leading digits a features line has `" f"`, a scenarios line `" sc"`, a steps line `" st"`. */
  lemma WordAfterDigits(line: string)
    ensures MatchPrefix(FeaturesPattern, line).Some? ==> CharAt(line, RunLength(Digit, line) + 1) == 'f'
    ensures MatchPrefix(ScenariosPattern, line).Some? ==>
      CharAt(line, RunLength(Digit, line) + 1) == 's' && CharAt(line, RunLength(Digit, line) + 2) == 'c'
    ensures MatchPrefix(StepsPattern, line).Some? ==>
      CharAt(line, RunLength(Digit, line) + 1) == 's' && CharAt(line, RunLength(Digit, line) + 2) == 't'
  {
    var k := RunLength(Digit, line);
    var f := MatchPrefix(FeaturesPattern, line);
    var s := MatchPrefix(ScenariosPattern, line);
    var st := MatchPrefix(StepsPattern, line);
    assert FeaturesPattern[1].text == " feature" && ScenariosPattern[1].text == " scenario";
    if f.Some? {
      LeadingDigits(FeaturesPattern, f.value, line);
      CharAfter(line, k, " feature", 1);
    }
    if s.Some? {
      LeadingDigits(ScenariosPattern, s.value, line);
      CharAfter(line, k, " scenario", 1);
      CharAfter(line, k, " scenario", 2);
    }
    if st.Some? {
      LeadingDigits(StepsPattern, st.value, line);
      CharAfter(line, k, " step", 1);
      CharAfter(line, k, " step", 2);
    }
  }

  /** The character at `i`, or a space past the end. No letter is a space,
      so `CharAt(line, i) == 'f'` also says that `i < |line|`. Keeping the
      index behind this function keeps `line[i]` out of the proofs that
      unfold `MatchPrefix`, which otherwise become far more expensive. */
  function CharAt(line: string, i: nat): char
  {
    if i < |line| then line[i] else ' '
  }

  /** No line matches two of the four summary patterns, so the order in
      which `_parse_summary` tries them never decides anything. */
  lemma AtMostOnePatternMatches(line: string)
    ensures !(MatchPrefix(FeaturesPattern, line).Some? && MatchPrefix(ScenariosPattern, line).Some?)
    ensures !(MatchPrefix(FeaturesPattern, line).Some? && MatchPrefix(StepsPattern, line).Some?)
    ensures !(MatchPrefix(ScenariosPattern, line).Some? && MatchPrefix(StepsPattern, line).Some?)
    ensures !(MatchPrefix(TookPattern, line).Some? &&
              (MatchPrefix(FeaturesPattern, line).Some? || MatchPrefix(ScenariosPattern, line).Some? ||
               MatchPrefix(StepsPattern, line).Some?))
  {
    WordAfterDigits(line);
    if MatchPrefix(TookPattern, line).Some? {
      TookLineStartsWithTook(line);
      assert !IsDigit(line[0]);
      if MatchPrefix(FeaturesPattern, line).Some? { CountsLineStartsWithDigit(FeaturesPattern, line); }
      if MatchPrefix(ScenariosPattern, line).Some? { CountsLineStartsWithDigit(ScenariosPattern, line); }
      if MatchPrefix(StepsPattern, line).Some? { CountsLineStartsWithDigit(StepsPattern, line); }
    }
  }

  /** A line that matches a summary pattern has none of the prefixes
      `_parse_line` looks for, so it always reaches `_parse_summary`. */
  lemma SummaryLinesAreUnprefixed(line: string)
    requires MatchPrefix(FeaturesPattern, line).Some? || MatchPrefix(ScenariosPattern, line).Some? ||
             MatchPrefix(StepsPattern, line).Some? || MatchPrefix(TookPattern, line).Some?
    ensures !StartsWith(line, FEATURE_PREFIX) && !StartsWith(line, SCENARIO_PREFIX) && !IsStepText(line)
  {
    if MatchPrefix(TookPattern, line).Some? {
      TookLineStartsWithTook(line);
      assert line[1] == 'o';
    } else if MatchPrefix(FeaturesPattern, line).Some? {
      CountsLineStartsWithDigit(FeaturesPattern, line);
    } else if MatchPrefix(ScenariosPattern, line).Some? {
      CountsLineStartsWithDigit(ScenariosPattern, line);
    } else {
      CountsLineStartsWithDigit(StepsPattern, line);
    }
  }

  /** Prefix classification comes first: a line starting with `Feature:`,
      `Scenario:`, `Given`, `When` or `Then` never touches the summary. */
  lemma PrefixedLineKeepsSummary(r: TestReport, line: string)
    requires StartsWith(line, FEATURE_PREFIX) || StartsWith(line, SCENARIO_PREFIX) || IsStepText(line)
    ensures ParseLineSpec(r, line).summary == r.summary
  {
  }

  // ---------------------------------------------------------------------
  // The shapes of the summary lines and what they set.
  // ---------------------------------------------------------------------

  lemma CountsPatternSeparated(noun: string)
    ensures Separated(CountsPattern(noun))
  {
    var pat := CountsPattern(noun);
    assert Separated(pat[8..]);
    assert Separated(pat[7..]) by { assert pat[7..][1..] == pat[8..]; }
    assert Separated(pat[6..]) by { assert pat[6..][1..] == pat[7..]; }
    assert Separated(pat[5..]) by { assert pat[5..][1..] == pat[6..]; }
    assert Separated(pat[4..]) by { assert pat[4..][1..] == pat[5..]; }
    assert Separated(pat[3..]) by { assert pat[3..][1..] == pat[4..]; }
    assert Separated(pat[2..]) by { assert pat[2..][1..] == pat[3..]; }
    assert Separated(pat[1..]) by { assert pat[1..][1..] == pat[2..]; }
    assert (" " + noun)[0] == ' ';
    assert pat[0..] == pat;
  }

  lemma StepsPatternSeparated()
    ensures Separated(StepsPattern)
  {
  }

  lemma DigitsFit(a: string)
    requires a != [] && AllDigits(a)
    ensures Fits(OneOrMore(Digit), a)
  {
    forall k | 0 <= k < |a| ensures InClass(Digit, a[k]) {
      assert IsDigit(a[k]);
    }
  }

  /** The counts line behave prints: `<a> <noun><s> passed, <b> failed, <c> skipped`. */
  function CountsLine(noun: string, a: string, s: string, b: string, c: string): string
  {
    a + " " + noun + s + " passed, " + b + " failed, " + c + " skipped"
  }

  /** The steps line behave prints: `<a> step<s> passed, <b> failed, <c> skipped, <d> undefined`. */
  function StepsLine(a: string, s: string, b: string, c: string, d: string): string
  {
    a + " step" + s + " passed, " + b + " failed, " + c + " skipped, " + d + " undefined"
  }

  /** The pieces of a counts line, glued together, are that line. */
  lemma CountsLineConcat(noun: string, a: string, s: string, b: string, c: string, tail: string)
    ensures Concat([a, " " + noun, s, " passed, ", b, " failed, ", c, " skipped"]) + tail
         == CountsLine(noun, a, s, b, c) + tail
  {
    ConcatEight(a, " " + noun, s, " passed, ", b, " failed, ", c, " skipped");
  }

  /** A line `<a> <noun><s> passed, <b> failed, <c> skipped<tail>` matches
      the counts pattern, with exactly these pieces. */
  lemma CountsLineMatches(noun: string, a: string, s: string, b: string, c: string, tail: string)
    requires a != [] && AllDigits(a) && b != [] && AllDigits(b) && c != [] && AllDigits(c)
    requires s == "" || s == "s"
    ensures MatchPrefix(CountsPattern(noun), CountsLine(noun, a, s, b, c) + tail)
         == Some(Match([a, " " + noun, s, " passed, ", b, " failed, ", c, " skipped"], tail))
  {
    var pat := CountsPattern(noun);
    var ps := [a, " " + noun, s, " passed, ", b, " failed, ", c, " skipped"];
    var line := CountsLine(noun, a, s, b, c) + tail;
    CountsLineConcat(noun, a, s, b, c, tail);
    DigitsFit(a); DigitsFit(b); DigitsFit(c);
    assert forall i | 0 <= i < |pat| :: Fits(pat[i], ps[i]);
    CountsPatternSeparated(noun);
    MatchComplete(pat, Match(ps, tail), line);
  }

  /** The pieces of a steps line, glued together, are that line. */
  lemma StepsLineConcat(a: string, s: string, b: string, c: string, d: string, tail: string)
    ensures Concat([a, " step", s, " passed, ", b, " failed, ", c, " skipped, ", d, " undefined"]) + tail
         == StepsLine(a, s, b, c, d) + tail
  {
    ConcatTen(a, " step", s, " passed, ", b, " failed, ", c, " skipped, ", d, " undefined");
  }

  /** A line `<a> step<s> passed, <b> failed, <c> skipped, <d> undefined<tail>`
      matches the steps pattern, with exactly these pieces. */
  lemma StepsLineMatches(a: string, s: string, b: string, c: string, d: string, tail: string)
    requires a != [] && AllDigits(a) && b != [] && AllDigits(b) && c != [] && AllDigits(c) && d != [] && AllDigits(d)
    requires s == "" || s == "s"
    ensures MatchPrefix(StepsPattern, StepsLine(a, s, b, c, d) + tail)
         == Some(Match([a, " step", s, " passed, ", b, " failed, ", c, " skipped, ", d, " undefined"], tail))
  {
    var pat := StepsPattern;
    var ps := [a, " step", s, " passed, ", b, " failed, ", c, " skipped, ", d, " undefined"];
    var line := StepsLine(a, s, b, c, d) + tail;
    StepsLineConcat(a, s, b, c, d, tail);
    DigitsFit(a); DigitsFit(b); DigitsFit(c); DigitsFit(d);
    assert forall i | 0 <= i < |pat| :: Fits(pat[i], ps[i]);
    StepsPatternSeparated();
    MatchComplete(pat, Match(ps, tail), line);
  }

  /** `"Took " + x`, with `x` non-empty and free of newlines, matches the
      time pattern and captures `x`. */
  lemma TookLineMatches(x: string)
    requires x != [] && '\n' !in x
    ensures MatchPrefix(TookPattern, "Took " + x) == Some(Match(["Took ", x], ""))
  {
    var ps := ["Took ", x];
    assert Concat(ps) + "" == "Took " + x by {
      assert ps[0..] == ps && ps[2..] == [];
      ConcatAt(ps, 0); ConcatAt(ps, 1);
    }
    assert Separated(TookPattern) by {
      assert TookPattern[1..][1..] == [];
    }
    assert forall i | 0 <= i < 2 :: Fits(TookPattern[i], ps[i]);
    MatchComplete(TookPattern, Match(ps, ""), "Took " + x);
  }

  // ---------------------------------------------------------------------
  // What `_parse_summary` does when each pattern matches.
  // ---------------------------------------------------------------------

  /** A features match sets the three feature counters to its first, second
      and third numbers (groups 1, 3 and 4) and nothing else. */
  lemma SummaryOfFeaturesMatch(s: TestSummary, line: string)
    requires MatchPrefix(FeaturesPattern, line).Some?
    ensures var ps := MatchPrefix(FeaturesPattern, line).value.pieces;
      AllDigits(ps[0]) && AllDigits(ps[4]) && AllDigits(ps[6]) &&
      SummaryStep(s, line) == s.(featuresPassed := DecimalValue(ps[0]), featuresFailed := DecimalValue(ps[4]),
                                 featuresSkipped := DecimalValue(ps[6]))
  {
  }

  /** A scenarios match sets the three scenario counters and nothing else. */
  lemma SummaryOfScenariosMatch(s: TestSummary, line: string)
    requires MatchPrefix(ScenariosPattern, line).Some?
    ensures var ps := MatchPrefix(ScenariosPattern, line).value.pieces;
      AllDigits(ps[0]) && AllDigits(ps[4]) && AllDigits(ps[6]) &&
      SummaryStep(s, line) == s.(scenariosPassed := DecimalValue(ps[0]), scenariosFailed := DecimalValue(ps[4]),
                                 scenariosSkipped := DecimalValue(ps[6]))
  {
    AtMostOnePatternMatches(line);
    CountsGroups("scenario", MatchPrefix(ScenariosPattern, line).value, line);
  }

  /** A steps match sets the four step counters (groups 1 to 4) and nothing else. */
  lemma SummaryOfStepsMatch(s: TestSummary, line: string)
    requires MatchPrefix(StepsPattern, line).Some?
    ensures var ps := MatchPrefix(StepsPattern, line).value.pieces;
      AllDigits(ps[0]) && AllDigits(ps[4]) && AllDigits(ps[6]) && AllDigits(ps[8]) &&
      SummaryStep(s, line) == s.(stepsPassed := DecimalValue(ps[0]), stepsFailed := DecimalValue(ps[4]),
                                 stepsSkipped := DecimalValue(ps[6]), stepsUndefined := DecimalValue(ps[8]))
  {
    AtMostOnePatternMatches(line);
    StepsGroups(MatchPrefix(StepsPattern, line).value, line);
  }

  /** A `Took` match sets the elapsed time to the captured text and nothing else. */
  lemma SummaryOfTookMatch(s: TestSummary, line: string)
    requires MatchPrefix(TookPattern, line).Some?
    ensures SummaryStep(s, line) == s.(timeTaken := MatchPrefix(TookPattern, line).value.pieces[1])
  {
    AtMostOnePatternMatches(line);
    TookGroups(MatchPrefix(TookPattern, line).value, line);
  }

  /** A features line overwrites the three feature counters with its numbers
      and changes nothing else in the report. */
  lemma FeaturesLineSetsFeatureCounts(r: TestReport, a: string, s: string, b: string, c: string, tail: string)
    requires a != [] && AllDigits(a) && b != [] && AllDigits(b) && c != [] && AllDigits(c)
    requires s == "" || s == "s"
    ensures ParseLineSpec(r, CountsLine("feature", a, s, b, c) + tail)
         == r.(summary := r.summary.(featuresPassed := DecimalValue(a), featuresFailed := DecimalValue(b),
                                     featuresSkipped := DecimalValue(c)))
  {
    var line := CountsLine("feature", a, s, b, c) + tail;
    CountsLineMatches("feature", a, s, b, c, tail);
    SummaryLinesAreUnprefixed(line);
    SummaryOfFeaturesMatch(r.summary, line);
  }

  /** A scenarios line overwrites the three scenario counters and nothing else. */
  lemma ScenariosLineSetsScenarioCounts(r: TestReport, a: string, s: string, b: string, c: string, tail: string)
    requires a != [] && AllDigits(a) && b != [] && AllDigits(b) && c != [] && AllDigits(c)
    requires s == "" || s == "s"
    ensures ParseLineSpec(r, CountsLine("scenario", a, s, b, c) + tail)
         == r.(summary := r.summary.(scenariosPassed := DecimalValue(a), scenariosFailed := DecimalValue(b),
                                     scenariosSkipped := DecimalValue(c)))
  {
    var line := CountsLine("scenario", a, s, b, c) + tail;
    CountsLineMatches("scenario", a, s, b, c, tail);
    SummaryLinesAreUnprefixed(line);
    SummaryOfScenariosMatch(r.summary, line);
  }

  /** A steps match sets the four step counters of the report to its numbers. */
  lemma ParseLineOfStepsMatch(r: TestReport, line: string, ps: seq<string>, tail: string)
    requires MatchPrefix(StepsPattern, line) == Some(Match(ps, tail))
    ensures |ps| == 10 && AllDigits(ps[0]) && AllDigits(ps[4]) && AllDigits(ps[6]) && AllDigits(ps[8])
    ensures ParseLineSpec(r, line)
         == r.(summary := r.summary.(stepsPassed := DecimalValue(ps[0]), stepsFailed := DecimalValue(ps[4]),
                                     stepsSkipped := DecimalValue(ps[6]), stepsUndefined := DecimalValue(ps[8])))
  {
    ParseLineOfSummaryLine(r, line);
    SummaryOfStepsMatch(r.summary, line);
  }

  /** A steps line overwrites the four step counters and nothing else. */
  lemma StepsLineSetsStepCounts(r: TestReport, a: string, s: string, b: string, c: string, d: string, tail: string)
    requires a != [] && AllDigits(a) && b != [] && AllDigits(b) && c != [] && AllDigits(c) && d != [] && AllDigits(d)
    requires s == "" || s == "s"
    ensures ParseLineSpec(r, StepsLine(a, s, b, c, d) + tail)
         == r.(summary := r.summary.(stepsPassed := DecimalValue(a), stepsFailed := DecimalValue(b),
                                     stepsSkipped := DecimalValue(c), stepsUndefined := DecimalValue(d)))
  {
    var line := StepsLine(a, s, b, c, d) + tail;
    StepsLineMatches(a, s, b, c, d, tail);
    ParseLineOfStepsMatch(r, line, [a, " step", s, " passed, ", b, " failed, ", c, " skipped, ", d, " undefined"], tail);
  }

  /** A line some summary pattern matches goes to `_parse_summary`. */
  lemma ParseLineOfSummaryLine(r: TestReport, line: string)
    requires MatchPrefix(FeaturesPattern, line).Some? || MatchPrefix(ScenariosPattern, line).Some? ||
             MatchPrefix(StepsPattern, line).Some? || MatchPrefix(TookPattern, line).Some?
    ensures ParseLineSpec(r, line) == r.(summary := SummaryStep(r.summary, line))
  {
    SummaryLinesAreUnprefixed(line);
  }

  /** `"Took " + x` sets the elapsed time to `x` verbatim and nothing else. */
  lemma TookLineSetsTime(r: TestReport, x: string)
    requires x != [] && '\n' !in x
    ensures ParseLineSpec(r, "Took " + x) == r.(summary := r.summary.(timeTaken := x))
  {
    TookLineMatches(x);
    SummaryLinesAreUnprefixed("Took " + x);
    SummaryOfTookMatch(r.summary, "Took " + x);
  }
}
