/** What `parse` promises about the whole report: every field is
    overwritten by the last line that sets it, the steps are exactly the
    step lines in order, unrecognised lines change nothing, and the
    counters never go negative. */
module ParseProperties {
  import opened Wrappers
  import opened StringOps
  import opened Patterns
  import opened Parser
  import opened ReportProperties

  /** The overwritable parts of a report: the two names, the three groups
      of counters a summary line sets together, and the elapsed time. */
  datatype Field = FeatureName | ScenarioName | FeatureCounts | ScenarioCounts | StepCounts | TimeTaken

  datatype FieldValue = Text(text: string) | Numbers(numbers: seq<int>)

  function FieldOf(f: Field, r: TestReport): FieldValue
  {
    // One case per field, so that each case unfolds `Assigns` for that field only.
    match f
    case FeatureName => Text(r.feature)
    case ScenarioName => Text(r.scenario)
    case FeatureCounts => Numbers([r.summary.featuresPassed, r.summary.featuresFailed, r.summary.featuresSkipped])
    case ScenarioCounts => Numbers([r.summary.scenariosPassed, r.summary.scenariosFailed, r.summary.scenariosSkipped])
    case StepCounts =>
      Numbers([r.summary.stepsPassed, r.summary.stepsFailed, r.summary.stepsSkipped, r.summary.stepsUndefined])
    case TimeTaken => Text(r.summary.timeTaken)
  }

  /** The value a stripped line writes into field `f`, read off the line's
      own shape alone (its prefix, or the numbers of the one summary
      pattern it fits), without the order in which `_parse_line` and
      `_parse_summary` test things. */
  function Assigns(f: Field, line: string): Option<FieldValue>
  {
    // One case per field, so that each case unfolds `Assigns` for that field only.
    match f
    case FeatureName =>
      if StartsWith(line, FEATURE_PREFIX) then Some(Text(Strip(line[|FEATURE_PREFIX|..]))) else None
    case ScenarioName =>
      if StartsWith(line, SCENARIO_PREFIX) then Some(Text(Strip(line[|SCENARIO_PREFIX|..]))) else None
    case FeatureCounts =>
      var m := MatchPrefix(FeaturesPattern, line);
      if m.Some? then
        CountsGroups("feature", m.value, line);
        var ps := m.value.pieces;
        Some(Numbers([DecimalValue(ps[0]), DecimalValue(ps[4]), DecimalValue(ps[6])]))
      else None
    case ScenarioCounts =>
      var m := MatchPrefix(ScenariosPattern, line);
      if m.Some? then
        CountsGroups("scenario", m.value, line);
        var ps := m.value.pieces;
        Some(Numbers([DecimalValue(ps[0]), DecimalValue(ps[4]), DecimalValue(ps[6])]))
      else None
    case StepCounts =>
      var m := MatchPrefix(StepsPattern, line);
      if m.Some? then
        StepsGroups(m.value, line);
        var ps := m.value.pieces;
        Some(Numbers([DecimalValue(ps[0]), DecimalValue(ps[4]), DecimalValue(ps[6]), DecimalValue(ps[8])]))
      else None
    case TimeTaken =>
      var m := MatchPrefix(TookPattern, line);
      if m.Some? then Some(Text(m.value.pieces[1])) else None
  }

  lemma PrefixesExclusive(line: string)
    ensures !(StartsWith(line, FEATURE_PREFIX) && StartsWith(line, SCENARIO_PREFIX))
    ensures StartsWith(line, FEATURE_PREFIX) || StartsWith(line, SCENARIO_PREFIX) ==> !IsStepText(line)
  {
    if StartsWith(line, FEATURE_PREFIX) { assert line[0] == 'F'; }
    if StartsWith(line, SCENARIO_PREFIX) { assert line[0] == 'S'; }
  }

  /** A line without a summary shape assigns no counters and no time. */
  lemma NoSummaryShape(line: string)
    requires StartsWith(line, FEATURE_PREFIX) || StartsWith(line, SCENARIO_PREFIX) || IsStepText(line)
    ensures MatchPrefix(FeaturesPattern, line).None? && MatchPrefix(ScenariosPattern, line).None?
    ensures MatchPrefix(StepsPattern, line).None? && MatchPrefix(TookPattern, line).None?
  {
    if MatchPrefix(FeaturesPattern, line).Some? || MatchPrefix(ScenariosPattern, line).Some? ||
       MatchPrefix(StepsPattern, line).Some? || MatchPrefix(TookPattern, line).Some? {
      SummaryLinesAreUnprefixed(line);
    }
  }

  /** One line changes field `f` exactly when it assigns it, and then to
      the value it assigns; whatever `_parse_line` does with the line. */
  lemma LineEffect(f: Field, r: TestReport, line: string)
    ensures FieldOf(f, ParseLineSpec(r, line)) ==
      if Assigns(f, line).Some? then Assigns(f, line).value else FieldOf(f, r)
  {
    PrefixesExclusive(line);
    if StartsWith(line, FEATURE_PREFIX) || StartsWith(line, SCENARIO_PREFIX) || IsStepText(line) {
      NoSummaryShape(line);
    } else {
      AtMostOnePatternMatches(line);
      if MatchPrefix(FeaturesPattern, line).Some? {
        SummaryOfFeaturesMatch(r.summary, line);
      } else if MatchPrefix(ScenariosPattern, line).Some? {
        SummaryOfScenariosMatch(r.summary, line);
      } else if MatchPrefix(StepsPattern, line).Some? {
        SummaryOfStepsMatch(r.summary, line);
      } else if MatchPrefix(TookPattern, line).Some? {
        SummaryOfTookMatch(r.summary, line);
      }
    }
    // One case per field, so that each case unfolds `Assigns` for that field only.
    match f
    case FeatureName =>
    case ScenarioName =>
    case FeatureCounts =>
    case ScenarioCounts =>
    case StepCounts =>
    case TimeTaken =>
  }

  /** What each line, stripped, writes into field `f`, in input order. */
  function Writes(f: Field, lines: seq<string>): (ws: seq<Option<FieldValue>>)
    ensures |ws| == |lines|
  {
    seq(|lines|, j requires 0 <= j < |lines| => Assigns(f, Strip(lines[j])))
  }

  /** The last present value in `ws`. */
  function LastSome(ws: seq<Option<FieldValue>>): Option<FieldValue>
  {
    if ws == [] then None
    else if ws[|ws| - 1].Some? then ws[|ws| - 1]
    else LastSome(ws[..|ws| - 1])
  }

  /** The value of the last line, in input order, that assigns field `f`;
      `None` exactly when no line assigns it. */
  function LastAssigned(f: Field, lines: seq<string>): Option<FieldValue>
  {
    LastSome(Writes(f, lines))
  }

  lemma {:induction false} LastSomeNone(ws: seq<Option<FieldValue>>)
    ensures LastSome(ws).None? <==> forall j :: 0 <= j < |ws| ==> ws[j].None?
  {
    if ws != [] {
      var init := ws[..|ws| - 1];
      LastSomeNone(init);
      assert forall j :: 0 <= j < |init| ==> init[j] == ws[j];
    }
  }

  lemma {:induction false} LastSomeIsLast(ws: seq<Option<FieldValue>>, i: nat)
    requires i < |ws| && ws[i].Some?
    requires forall j :: i < j < |ws| ==> ws[j].None?
    ensures LastSome(ws) == ws[i]
  {
    if i < |ws| - 1 {
      var init := ws[..|ws| - 1];
      assert forall j :: i < j < |init| ==> init[j] == ws[j];
      assert init[i] == ws[i];
      LastSomeIsLast(init, i);
    }
  }

  lemma LastAssignedNone(f: Field, lines: seq<string>)
    ensures LastAssigned(f, lines).None? <==> forall j :: 0 <= j < |lines| ==> Assigns(f, Strip(lines[j])).None?
  {
    var ws := Writes(f, lines);
    LastSomeNone(ws);
    assert forall j :: 0 <= j < |lines| ==> ws[j] == Assigns(f, Strip(lines[j]));
  }

  /** `LastAssigned` is the value of the line after which no line assigns `f`. */
  lemma LastAssignedIsLastWriter(f: Field, lines: seq<string>, i: nat)
    requires i < |lines| && Assigns(f, Strip(lines[i])).Some?
    requires forall j :: i < j < |lines| ==> Assigns(f, Strip(lines[j])).None?
    ensures LastAssigned(f, lines) == Assigns(f, Strip(lines[i]))
  {
    var ws := Writes(f, lines);
    assert forall j :: i < j < |lines| ==> ws[j].None?;
    LastSomeIsLast(ws, i);
  }

  /** The last line either assigns `f` or leaves the answer to the lines before it. */
  lemma LastAssignedStep(f: Field, lines: seq<string>)
    requires lines != []
    ensures var here := Assigns(f, Strip(lines[|lines| - 1]));
      LastAssigned(f, lines) == if here.Some? then here else LastAssigned(f, lines[..|lines| - 1])
  {
    assert Writes(f, lines)[..|lines| - 1] == Writes(f, lines[..|lines| - 1]);
  }

  /** Fields are overwritten, not accumulated: after `parse`, each field
      holds what the last line of its kind assigned, or what it held
      before when no line assigns it. */
  lemma {:induction false} FieldIsLastAssigned(f: Field, r: TestReport, lines: seq<string>)
    ensures FieldOf(f, ParseLines(r, lines)) ==
      if LastAssigned(f, lines).Some? then LastAssigned(f, lines).value else FieldOf(f, r)
  {
    if lines != [] {
      var init := lines[..|lines| - 1];
      FieldIsLastAssigned(f, r, init);
      LineEffect(f, ParseLines(r, init), Strip(lines[|lines| - 1]));
      LastAssignedStep(f, lines);
    }
  }

  /** The same promise by position: when line `i` is the last one that
      assigns `f`, the parsed field is what line `i` assigns (so `feature`
      is the stripped remainder of the last `Feature:` line, and each
      counter is the number on the last summary line of its kind). */
  lemma LastLineOfItsKindWins(f: Field, r: TestReport, lines: seq<string>, i: nat)
    requires i < |lines| && Assigns(f, Strip(lines[i])).Some?
    requires forall j :: i < j < |lines| ==> Assigns(f, Strip(lines[j])).None?
    ensures FieldOf(f, ParseLines(r, lines)) == Assigns(f, Strip(lines[i])).value
  {
    FieldIsLastAssigned(f, r, lines);
    LastAssignedIsLastWriter(f, lines, i);
  }

  /** A field no line assigns keeps its starting value; from a new parser
      that is `""` for the names and the time, and `0` for every counter. */
  lemma UnassignedFieldKept(f: Field, r: TestReport, lines: seq<string>)
    requires forall j :: 0 <= j < |lines| ==> Assigns(f, Strip(lines[j])).None?
    ensures FieldOf(f, ParseLines(r, lines)) == FieldOf(f, r)
  {
    FieldIsLastAssigned(f, r, lines);
    LastAssignedNone(f, lines);
  }

  /** The stripped lines that start with `Given`, `When` or `Then`, in input order. */
  function StepLines(lines: seq<string>): (s: seq<string>)
    ensures |s| <= |lines|
    ensures forall k :: 0 <= k < |s| ==> IsStepText(s[k])
  {
    if lines == [] then []
    else
      var line := Strip(lines[|lines| - 1]);
      StepLines(lines[..|lines| - 1]) + (if IsStepText(line) then [line] else [])
  }

  /** Every line, stripped. */
  function Stripped(lines: seq<string>): (s: seq<string>)
    ensures |s| == |lines| && forall k :: 0 <= k < |s| ==> s[k] == Strip(lines[k])
  {
    if lines == [] then [] else Stripped(lines[..|lines| - 1]) + [Strip(lines[|lines| - 1])]
  }

  /** `StepLines` holds a string exactly when it is a stripped input line
      that starts with a step keyword. */
  lemma {:induction false} StepLinesMembers(lines: seq<string>, s: string)
    ensures s in StepLines(lines) <==> IsStepText(s) && s in Stripped(lines)
  {
    if lines != [] {
      StepLinesMembers(lines[..|lines| - 1], s);
    }
  }

  /** `steps` grows by exactly the step lines, in input order. */
  lemma {:induction false} StepsAreTheStepLines(r: TestReport, lines: seq<string>)
    ensures ParseLines(r, lines).steps == r.steps + StepLines(lines)
  {
    if lines != [] {
      var init := lines[..|lines| - 1];
      StepsAreTheStepLines(r, init);
      PrefixesExclusive(Strip(lines[|lines| - 1]));
    }
  }

  /** From a new parser, `steps` is exactly the step lines of the text, so
      there are as many steps as step lines. */
  lemma ParsedStepsAreStepLines(report: string)
    ensures ParseSpec(report).steps == StepLines(Split(report))
  {
    StepsAreTheStepLines(DefaultReport, Split(report));
  }

  /** From a new parser, each field holds what the last line of its kind
      assigned, or its default (`""`, or `0` for each counter) when no line
      of its kind exists. */
  lemma ParsedFieldIsLastAssigned(f: Field, report: string)
    ensures FieldOf(f, ParseSpec(report)) ==
      if LastAssigned(f, Split(report)).Some? then LastAssigned(f, Split(report)).value
      else match f
        case FeatureName => Text("")
        case ScenarioName => Text("")
        case FeatureCounts => Numbers([0, 0, 0])
        case ScenarioCounts => Numbers([0, 0, 0])
        case StepCounts => Numbers([0, 0, 0, 0])
        case TimeTaken => Text("")
  {
    FieldIsLastAssigned(f, DefaultReport, Split(report));
  }

  /** A stripped line `_parse_line` does nothing with. */
  predicate Unrecognised(line: string)
  {
    !StartsWith(line, FEATURE_PREFIX) && !StartsWith(line, SCENARIO_PREFIX) && !IsStepText(line) &&
    MatchPrefix(FeaturesPattern, line).None? && MatchPrefix(ScenariosPattern, line).None? &&
    MatchPrefix(StepsPattern, line).None? && MatchPrefix(TookPattern, line).None?
  }

  /** Lines that match nothing are dropped without a trace. */
  lemma {:induction false} UnrecognisedLinesChangeNothing(r: TestReport, lines: seq<string>)
    requires forall k :: 0 <= k < |lines| ==> Unrecognised(Strip(lines[k]))
    ensures ParseLines(r, lines) == r
  {
    if lines != [] {
      var init := lines[..|lines| - 1];
      assert forall k :: 0 <= k < |init| ==> init[k] == lines[k];
      UnrecognisedLinesChangeNothing(r, init);
    }
  }

  /** The empty line is unrecognised, and so is every all-whitespace line
      once stripped, since it strips to the empty line. */
  lemma EmptyLineUnrecognised()
    ensures Unrecognised("")
  {
    assert MatchPrefix(TookPattern, "") == None;
  }

  /** A text made only of whitespace, the empty text included, parses to
      the default report. */
  lemma BlankTextParsesToDefault(report: string)
    requires AllSpace(report)
    ensures ParseSpec(report) == DefaultReport
  {
    var lines := Split(report);
    BlankLinesOfBlankText(lines);
    forall k | 0 <= k < |lines| ensures Unrecognised(Strip(lines[k])) {
      StripOfBlank(lines[k]);
      EmptyLineUnrecognised();
    }
    UnrecognisedLinesChangeNothing(DefaultReport, lines);
  }

  /** The lines of a whitespace-only text are whitespace-only. */
  lemma {:induction false} BlankLinesOfBlankText(lines: seq<string>)
    requires |lines| >= 1 && AllSpace(JoinLines(lines))
    ensures forall k :: 0 <= k < |lines| ==> AllSpace(lines[k])
  {
    if |lines| > 1 {
      var t := JoinLines(lines);
      var rest := JoinLines(lines[1..]);
      assert t == lines[0] + "\n" + rest;
      assert forall c :: 0 <= c < |lines[0]| ==> lines[0][c] == t[c];
      assert forall c :: 0 <= c < |rest| ==> rest[c] == t[|lines[0]| + 1 + c];
      BlankLinesOfBlankText(lines[1..]);
      assert forall k :: 1 <= k < |lines| ==> lines[k] == lines[1..][k - 1];
    }
  }

  lemma LineKeepsNonNegative(r: TestReport, line: string)
    requires NonNegative(r.summary)
    ensures NonNegative(ParseLineSpec(r, line).summary)
  {
  }

  /** The counters of a parsed report are never negative. */
  lemma {:induction false} CountersStayNonNegative(r: TestReport, lines: seq<string>)
    requires NonNegative(r.summary)
    ensures NonNegative(ParseLines(r, lines).summary)
  {
    if lines != [] {
      CountersStayNonNegative(r, lines[..|lines| - 1]);
      LineKeepsNonNegative(ParseLines(r, lines[..|lines| - 1]), Strip(lines[|lines| - 1]));
    }
  }

  /** A report is its fields together with its steps. */
  lemma SameFieldsSameReport(a: TestReport, b: TestReport)
    requires a.steps == b.steps
    requires FieldOf(FeatureName, a) == FieldOf(FeatureName, b) && FieldOf(ScenarioName, a) == FieldOf(ScenarioName, b)
    requires FieldOf(FeatureCounts, a) == FieldOf(FeatureCounts, b)
    requires FieldOf(ScenarioCounts, a) == FieldOf(ScenarioCounts, b)
    requires FieldOf(StepCounts, a) == FieldOf(StepCounts, b) && FieldOf(TimeTaken, a) == FieldOf(TimeTaken, b)
    ensures a == b
  {
    assert a.summary == b.summary;
  }

  /** Re-reading the same lines leaves every field as the first reading set it. */
  lemma ReparseKeepsField(f: Field, r: TestReport, lines: seq<string>)
    ensures FieldOf(f, ParseLines(ParseLines(r, lines), lines)) == FieldOf(f, ParseLines(r, lines))
  {
    var once := ParseLines(r, lines);
    FieldIsLastAssigned(f, r, lines);
    FieldIsLastAssigned(f, once, lines);
  }

  /** Reading the same lines again appends their step lines once more and
      changes nothing else. */
  lemma ReparseAppendsSteps(r: TestReport, lines: seq<string>)
    ensures var once := ParseLines(r, lines);
      ParseLines(once, lines) == once.(steps := once.steps + StepLines(lines))
  {
    var once := ParseLines(r, lines);
    StepsAreTheStepLines(once, lines);
    forall f: Field ensures FieldOf(f, ParseLines(once, lines)) == FieldOf(f, once) {
      ReparseKeepsField(f, r, lines);
    }
    OnlyStepsGrew(once, ParseLines(once, lines), StepLines(lines));
  }

  /** A report whose fields are those of `once` and whose steps are those of
      `once` followed by `extra` is `once` with `extra` appended to its steps. */
  lemma OnlyStepsGrew(once: TestReport, twice: TestReport, extra: seq<string>)
    requires twice.steps == once.steps + extra
    requires forall f: Field :: FieldOf(f, twice) == FieldOf(f, once)
    ensures twice == once.(steps := once.steps + extra)
  {
    var target := once.(steps := once.steps + extra);
    assert FieldOf(FeatureName, twice) == FieldOf(FeatureName, once);
    assert FieldOf(ScenarioName, twice) == FieldOf(ScenarioName, once);
    assert FieldOf(FeatureCounts, twice) == FieldOf(FeatureCounts, once);
    assert FieldOf(ScenarioCounts, twice) == FieldOf(ScenarioCounts, once);
    assert FieldOf(StepCounts, twice) == FieldOf(StepCounts, once);
    assert FieldOf(TimeTaken, twice) == FieldOf(TimeTaken, once);
    SameFieldsSameReport(twice, target);
  }

  /** Calling `parse` a second time on the same parser appends every step
      line again, while every other field keeps the value the first call
      gave it. */
  lemma ParseTwice(report: string)
    ensures var once := ParseSpec(report);
      ParseFrom(once, report) == once.(steps := once.steps + StepLines(Split(report)))
  {
    ReparseAppendsSteps(DefaultReport, Split(report));
  }
}
