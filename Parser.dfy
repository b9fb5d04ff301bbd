/** The report parser: it rebuilds a `TestReport` from the console text of
    one behave run, one stripped line at a time. `ReportParser` is the
    stateful object; `ParseLineSpec`, `ParseLines` and `ParseSpec` are the
    pure fold it is proved to compute. */
module Parser {
  import opened Wrappers
  import opened StringOps
  import opened Patterns

  /** The ten counters and the elapsed time of a run. */
  datatype TestSummary = TestSummary(
    featuresPassed: int, featuresFailed: int, featuresSkipped: int,
    scenariosPassed: int, scenariosFailed: int, scenariosSkipped: int,
    stepsPassed: int, stepsFailed: int, stepsSkipped: int, stepsUndefined: int,
    timeTaken: string)

  /** The feature and scenario names (the last of each), the step lines in
      order, and the summary. */
  datatype TestReport = TestReport(feature: string, scenario: string, steps: seq<string>, summary: TestSummary)

  const DefaultSummary: TestSummary := TestSummary(0, 0, 0, 0, 0, 0, 0, 0, 0, 0, "")
  const DefaultReport: TestReport := TestReport("", "", [], DefaultSummary)

  predicate NonNegative(s: TestSummary)
  {
    s.featuresPassed >= 0 && s.featuresFailed >= 0 && s.featuresSkipped >= 0 &&
    s.scenariosPassed >= 0 && s.scenariosFailed >= 0 && s.scenariosSkipped >= 0 &&
    s.stepsPassed >= 0 && s.stepsFailed >= 0 && s.stepsSkipped >= 0 && s.stepsUndefined >= 0
  }

  const FEATURE_PREFIX: string := "Feature:"
  const SCENARIO_PREFIX: string := "Scenario:"

  /** `(\d+) <noun>(s?) passed, (\d+) failed, (\d+) skipped` */
  function CountsPattern(noun: string): seq<Token>
  {
    [OneOrMore(Digit), Literal(" " + noun), Optional("s", true), Literal(" passed, "),
     OneOrMore(Digit), Literal(" failed, "), OneOrMore(Digit), Literal(" skipped")]
  }

  /** A counts pattern has four capturing groups, the second of them the
      optional `s` that `(s?)` captures. */
  lemma CountsPatternCaptures(noun: string)
    ensures |CountsPattern(noun)| == 8 && CapturesBetween(CountsPattern(noun), 0, 8) == 4
    ensures CountsPattern(noun)[2].Optional? && Captures(CountsPattern(noun)[2])
  {
    var p := CountsPattern(noun);
    assert CapturesBetween(p, 7, 8) == 0;
    assert CapturesBetween(p, 6, 8) == 1;
    assert CapturesBetween(p, 5, 8) == 1;
    assert CapturesBetween(p, 4, 8) == 2;
    assert CapturesBetween(p, 3, 8) == 2;
    assert CapturesBetween(p, 2, 8) == 3;
    assert CapturesBetween(p, 1, 8) == 3;
  }

  const FeaturesPattern: seq<Token> := CountsPattern("feature")
  const ScenariosPattern: seq<Token> := CountsPattern("scenario")

  /** `(\d+) steps? passed, (\d+) failed, (\d+) skipped, (\d+) undefined` */
  const StepsPattern: seq<Token> :=
    [OneOrMore(Digit), Literal(" step"), Optional("s", false), Literal(" passed, "),
     OneOrMore(Digit), Literal(" failed, "), OneOrMore(Digit), Literal(" skipped, "),
     OneOrMore(Digit), Literal(" undefined")]

  /** `Took (.+)` */
  const TookPattern: seq<Token> := [Literal("Took "), OneOrMore(AnyButNewline)]

  /** In a counts pattern the groups are 1 to 4 with group 2 the optional
      `s`, so groups 1, 3 and 4 are tokens 0, 4 and 6: the digit runs. */
  lemma CountsGroups(noun: string, m: Match, line: string)
    requires Decomposes(CountsPattern(noun), m, line)
    ensures GroupIndexFrom(CountsPattern(noun), 0, 1) == 0 && GroupIndexFrom(CountsPattern(noun), 0, 2) == 2
    ensures GroupIndexFrom(CountsPattern(noun), 0, 3) == 4 && GroupIndexFrom(CountsPattern(noun), 0, 4) == 6
    ensures Group(CountsPattern(noun), m, 1) == m.pieces[0] && Group(CountsPattern(noun), m, 2) == m.pieces[2]
    ensures Group(CountsPattern(noun), m, 3) == m.pieces[4] && Group(CountsPattern(noun), m, 4) == m.pieces[6]
    ensures AllDigits(m.pieces[0]) && AllDigits(m.pieces[4]) && AllDigits(m.pieces[6])
  {
    var pat := CountsPattern(noun);
    assert GroupIndexFrom(pat, 6, 1) == 6;
    assert GroupIndexFrom(pat, 5, 1) == 6;
    assert GroupIndexFrom(pat, 4, 2) == 6;
    assert GroupIndexFrom(pat, 3, 2) == 6;
    assert GroupIndexFrom(pat, 2, 3) == 6;
    assert GroupIndexFrom(pat, 1, 3) == 6;
    assert GroupIndexFrom(pat, 4, 1) == 4;
    assert GroupIndexFrom(pat, 3, 1) == 4;
    assert GroupIndexFrom(pat, 2, 2) == 4;
    assert GroupIndexFrom(pat, 1, 2) == 4;
    assert GroupIndexFrom(pat, 2, 1) == 2;
    assert GroupIndexFrom(pat, 1, 1) == 2;
    assert Fits(pat[0], m.pieces[0]) && Fits(pat[4], m.pieces[4]) && Fits(pat[6], m.pieces[6]);
  }

  /** In the steps pattern `steps?` captures nothing, so groups 1 to 4 are
      tokens 0, 4, 6 and 8, the digit runs. */
  lemma StepsGroups(m: Match, line: string)
    requires Decomposes(StepsPattern, m, line)
    ensures GroupIndexFrom(StepsPattern, 0, 1) == 0 && GroupIndexFrom(StepsPattern, 0, 2) == 4
    ensures GroupIndexFrom(StepsPattern, 0, 3) == 6 && GroupIndexFrom(StepsPattern, 0, 4) == 8
    ensures GroupIndexFrom(StepsPattern, 0, 5) == |StepsPattern|
    ensures Group(StepsPattern, m, 1) == m.pieces[0] && Group(StepsPattern, m, 2) == m.pieces[4]
    ensures Group(StepsPattern, m, 3) == m.pieces[6] && Group(StepsPattern, m, 4) == m.pieces[8]
    ensures AllDigits(m.pieces[0]) && AllDigits(m.pieces[4]) && AllDigits(m.pieces[6]) && AllDigits(m.pieces[8])
  {
  }

  /** Group 1 of a `Took` line is the text after `"Took "`. */
  lemma TookGroups(m: Match, line: string)
    requires Decomposes(TookPattern, m, line)
    ensures GroupIndexFrom(TookPattern, 0, 1) == 1
    ensures Group(TookPattern, m, 1) == m.pieces[1]
  {
  }

  /** What `_parse_summary` does to the summary for one line: the four
      patterns are tried in order and the first that matches overwrites its
      fields with its groups, converted by `int()`. */
  function SummaryStep(s: TestSummary, line: string): (r: TestSummary)
    ensures NonNegative(s) ==> NonNegative(r)
  {
    var featureMatch := MatchPrefix(FeaturesPattern, line);
    var scenarioMatch := MatchPrefix(ScenariosPattern, line);
    var stepsMatch := MatchPrefix(StepsPattern, line);
    var timeMatch := MatchPrefix(TookPattern, line);
    if featureMatch.Some? then
      var m := featureMatch.value;
      CountsGroups("feature", m, line);
      s.(featuresPassed := DecimalValue(Group(FeaturesPattern, m, 1)),
         featuresFailed := DecimalValue(Group(FeaturesPattern, m, 3)),
         featuresSkipped := DecimalValue(Group(FeaturesPattern, m, 4)))
    else if scenarioMatch.Some? then
      var m := scenarioMatch.value;
      CountsGroups("scenario", m, line);
      s.(scenariosPassed := DecimalValue(Group(ScenariosPattern, m, 1)),
         scenariosFailed := DecimalValue(Group(ScenariosPattern, m, 3)),
         scenariosSkipped := DecimalValue(Group(ScenariosPattern, m, 4)))
    else if stepsMatch.Some? then
      var m := stepsMatch.value;
      StepsGroups(m, line);
      s.(stepsPassed := DecimalValue(Group(StepsPattern, m, 1)),
         stepsFailed := DecimalValue(Group(StepsPattern, m, 2)),
         stepsSkipped := DecimalValue(Group(StepsPattern, m, 3)),
         stepsUndefined := DecimalValue(Group(StepsPattern, m, 4)))
    else if timeMatch.Some? then
      var m := timeMatch.value;
      TookGroups(m, line);
      s.(timeTaken := Group(TookPattern, m, 1))
    else s
  }

  /** The step keywords that make a line a step line. */
  predicate IsStepText(line: string)
  {
    StartsWith(line, "Given") || StartsWith(line, "When") || StartsWith(line, "Then")
  }

  /** What `_parse_line` does with one stripped line: `Feature:` is tested
      first, then `Scenario:`, then the step keywords, and any other line
      goes to `_parse_summary`. */
  function ParseLineSpec(r: TestReport, line: string): (r': TestReport)
    ensures r'.steps == r.steps || r'.steps == r.steps + [line]
    ensures NonNegative(r.summary) ==> NonNegative(r'.summary)
  {
    if StartsWith(line, FEATURE_PREFIX) then r.(feature := Strip(line[|FEATURE_PREFIX|..]))
    else if StartsWith(line, SCENARIO_PREFIX) then r.(scenario := Strip(line[|SCENARIO_PREFIX|..]))
    else if IsStepText(line) then r.(steps := r.steps + [line])
    else r.(summary := SummaryStep(r.summary, line))
  }

  /** The loop of `parse`: each raw line, stripped, handed to `_parse_line`
      in input order, starting from report `r`. */
  function ParseLines(r: TestReport, lines: seq<string>): TestReport
  {
    if lines == [] then r
    else ParseLineSpec(ParseLines(r, lines[..|lines| - 1]), Strip(lines[|lines| - 1]))
  }

  /** `parse` on a parser whose report so far is `r`. */
  function ParseFrom(r: TestReport, report: string): TestReport
  {
    ParseLines(r, Split(report))
  }

  /** `ReportParser(report).parse()`. */
  function ParseSpec(report: string): TestReport
  {
    ParseFrom(DefaultReport, report)
  }

  /** `ReportParser`: the report text and the `TestReport` it fills in. */
  class ReportParser {
    var report: string
    var parsedData: TestReport

    ghost predicate Valid()
      reads this
    {
      NonNegative(parsedData.summary)
    }

    constructor (report: string)
      ensures Valid()
      ensures this.report == report && parsedData == DefaultReport
    {
      this.report := report;
      parsedData := DefaultReport;
    }

    /** `parse`: runs `_parse_line` over the stripped lines and returns the report. */
    method Parse() returns (r: TestReport)
      requires Valid()
      modifies this
      ensures Valid()
      ensures report == old(report)
      ensures parsedData == ParseFrom(old(parsedData), report)
      ensures r == parsedData
    {
      var lines := Split(report);
      for i := 0 to |lines|
        invariant Valid()
        invariant report == old(report)
        invariant parsedData == ParseLines(old(parsedData), lines[..i])
      {
        assert lines[..i + 1][..i] == lines[..i];
        ParseLine(Strip(lines[i]));
      }
      assert lines[..|lines|] == lines;
      r := parsedData;
    }

    /** `_parse_line`. */
    method ParseLine(line: string)
      requires Valid()
      modifies this
      ensures Valid()
      ensures report == old(report)
      ensures parsedData == ParseLineSpec(old(parsedData), line)
    {
      if StartsWith(line, FEATURE_PREFIX) {
        parsedData := parsedData.(feature := Strip(line[|FEATURE_PREFIX|..]));
      } else if StartsWith(line, SCENARIO_PREFIX) {
        parsedData := parsedData.(scenario := Strip(line[|SCENARIO_PREFIX|..]));
      } else if IsStepText(line) {
        parsedData := parsedData.(steps := parsedData.steps + [line]);
      } else {
        ParseSummary(line);
      }
    }

    /** `_parse_summary`: overwrites the fields of the first pattern that matches. */
    method ParseSummary(line: string)
      requires Valid()
      modifies this
      ensures Valid()
      ensures report == old(report)
      ensures parsedData == old(parsedData).(summary := SummaryStep(old(parsedData).summary, line))
    {
      var featureMatch := MatchPrefix(FeaturesPattern, line);
      var scenarioMatch := MatchPrefix(ScenariosPattern, line);
      var stepsMatch := MatchPrefix(StepsPattern, line);
      var timeMatch := MatchPrefix(TookPattern, line);
      if featureMatch.Some? {
        var m := featureMatch.value;
        CountsGroups("feature", m, line);
        parsedData := parsedData.(summary := parsedData.summary.(featuresPassed := DecimalValue(Group(FeaturesPattern, m, 1))));
        parsedData := parsedData.(summary := parsedData.summary.(featuresFailed := DecimalValue(Group(FeaturesPattern, m, 3))));
        parsedData := parsedData.(summary := parsedData.summary.(featuresSkipped := DecimalValue(Group(FeaturesPattern, m, 4))));
      } else if scenarioMatch.Some? {
        var m := scenarioMatch.value;
        CountsGroups("scenario", m, line);
        parsedData := parsedData.(summary := parsedData.summary.(scenariosPassed := DecimalValue(Group(ScenariosPattern, m, 1))));
        parsedData := parsedData.(summary := parsedData.summary.(scenariosFailed := DecimalValue(Group(ScenariosPattern, m, 3))));
        parsedData := parsedData.(summary := parsedData.summary.(scenariosSkipped := DecimalValue(Group(ScenariosPattern, m, 4))));
      } else if stepsMatch.Some? {
        var m := stepsMatch.value;
        StepsGroups(m, line);
        parsedData := parsedData.(summary := parsedData.summary.(stepsPassed := DecimalValue(Group(StepsPattern, m, 1))));
        parsedData := parsedData.(summary := parsedData.summary.(stepsFailed := DecimalValue(Group(StepsPattern, m, 2))));
        parsedData := parsedData.(summary := parsedData.summary.(stepsSkipped := DecimalValue(Group(StepsPattern, m, 3))));
        parsedData := parsedData.(summary := parsedData.summary.(stepsUndefined := DecimalValue(Group(StepsPattern, m, 4))));
      } else if timeMatch.Some? {
        var m := timeMatch.value;
        TookGroups(m, line);
        parsedData := parsedData.(summary := parsedData.summary.(timeTaken := Group(TookPattern, m, 1)));
      }
    }
  }
}
