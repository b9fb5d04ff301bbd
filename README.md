# Testopia report parser and errors, in Dafny

Testopia runs behave test suites and reads behave's console output back
into a `TestReport`. The report holds:
- the feature name;
- the scenario name;
- the step lines;
- a `TestSummary` of ten counters and the elapsed time.

This project models two parts of it.

The report parser (`ReportParser`) is modelled first:
- `parse` splits the report text on `"\n"` and strips each line.
- `_parse_line` sorts each line by its prefix (`Feature:`, `Scenario:`, `Given`/`When`/`Then`).
- `_parse_summary` matches every other line against four regular expressions (features, scenarios, steps, `Took …`). The first one that matches overwrites its fields: its counters, or the elapsed time for `Took …`.
- Anything else is dropped.

The error classes are modelled second: the `ExitCode` constants and the four error constructors, each with its exit code and its default help text.

The modules are:
- `Wrappers`: `Option`.
- `StringOps`: the Python string built-ins the parser uses:
  - `str.split("\n")`, with `Split`/`JoinLines` and their round trip;
  - `str.strip()` over CPython's whitespace set;
  - `startswith`;
  - `int()` on digit strings, with a decimal round trip.
- `Patterns`: the fragment of `re.match` that the four patterns need: literals, optional literals, and greedy `+` runs with backtracking.
  - `MatchPrefix` is sound: any match it returns splits the line into fitting pieces.
  - For "separated" patterns it is also complete: every such split whose final run takes all it can is the match it returns.
  - Capture groups are numbered as Python numbers them.
- `Parser`: the report datatypes and the four patterns.
  - The pure specification is `ParseLineSpec` for `_parse_line` and `SummaryStep` for `_parse_summary`. `ParseLines`/`ParseSpec` fold it over the lines.
  - The class `ReportParser` has the methods `Parse`, `ParseLine` and `ParseSummary`. Each method updates `parsedData` in place and is proved equal to the specification.
- `ReportProperties`: what one line does:
  - the patterns exclude each other;
  - prefix lines never touch the summary;
  - each summary line shape sets exactly its counters, or the time.
- `ParseProperties`: what a whole report does:
  - every field is overwritten by the last line of its kind;
  - `steps` is exactly the step lines in order;
  - unrecognised and blank input changes nothing;
  - counters stay non-negative;
  - re-parsing duplicates only the steps.
- `Errors`: the exit codes, the error constructors, and the inverse maps between subclass and exit code.

The data model follows the source's records:
- `Parser.TestSummary` is the `TestSummary` dataclass (testopia/parser.py:11-23): ten `int` counters and the `time_taken` string, each defaulting to `0` or `""`.
- `Parser.TestReport` is the `TestReport` dataclass (testopia/parser.py:26-31): the feature and scenario names, the list of step lines and a summary.
- `Parser.DefaultSummary` and `Parser.DefaultReport` are the values the dataclasses' defaults give, which `ReportParser.__init__` starts from (testopia/parser.py:57).
- `Parser.FeaturesPattern` and `Parser.ScenariosPattern` are `Parser.CountsPattern` for `feature` and `scenario`, the regular expressions at testopia/parser.py:81 and 84.
- `Parser.StepsPattern` is the regular expression at testopia/parser.py:87, where `steps?` does not capture.
- `Parser.TookPattern` is `Took (.+)` at testopia/parser.py:89.
- `Errors.SUCCESS`, `RUNTIME_ERROR`, `INPUT_ERROR` and `TEST_FAILURE` are the `ExitCode` members 0 to 3 (testopia/errors.py:4-10).
- `Errors.DEFAULT_HELP_TEXT` is the help text `TestopiaBaseError.__init__` substitutes for `None` (testopia/errors.py:25-30).
- `Errors.TestopiaError` is one error object: its class (`Errors.ErrorKind`), `message`, `exit_code`, `help_text` and the `args` that `Exception.__init__` keeps (testopia/errors.py:13-32).

In the code, `scenario` is a single string that the last `Scenario:` line overwrites (testopia/parser.py:29, 69). The model follows the code.

## Model

| member | source | states |
|---|---|---|
| Parser.SummaryStep | testopia/parser.py:79-105 | `_parse_summary` on the summary: the four patterns are tried in the order features, scenarios, steps, time, and the first that matches overwrites its fields with `int()` of its groups, or the time with group 1; non-negative counters stay non-negative |
| Parser.ParseLineSpec | testopia/parser.py:65-77 | `_parse_line` on the report: `Feature:`, then `Scenario:`, then the step keywords, else `_parse_summary`; `steps` either stays as it was or gains exactly the line, and non-negative counters stay non-negative |
| Parser.ParseLines | testopia/parser.py:61-62 | the loop of `parse`: `_parse_line` applied to each stripped line in input order, the specification `ReportParser.Parse` is proved to compute |
| Parser.ParseFrom | testopia/parser.py:59-63 | `parse` on a parser whose report so far is `r`: that loop over the pieces of `report.split("\n")` |
| Parser.ParseSpec | testopia/parser.py:54-63 | `ReportParser(report).parse()`: the loop run from the default report |
| Parser.ReportParser.constructor | testopia/parser.py:54-57 | a new parser keeps its report text and starts from the default report: counters 0, names and time `""`, no steps |
| Parser.ReportParser.Parse | testopia/parser.py:59-63 | after `parse`, `parsed_data` is the fold of `_parse_line` over the stripped lines of `report.split("\n")`, from the state before the call; the returned report is `parsed_data`; the text is unchanged |
| Parser.ReportParser.ParseLine | testopia/parser.py:65-77 | `_parse_line` in place: `Feature:` then `Scenario:` set the stripped remainder, `Given`/`When`/`Then` lines are appended to `steps`, everything else goes to `_parse_summary` |
| Parser.ReportParser.ParseSummary | testopia/parser.py:79-105 | `_parse_summary` in place: only the summary changes, and it changes as the first matching pattern in the order features, scenarios, steps, time says |
| Parser.CountsPatternCaptures | testopia/parser.py:80-85 | `Parser.CountsPattern` is `(\d+) <noun>(s?) passed, (\d+) failed, (\d+) skipped` as tokens: it has four capturing groups, and the second of them is the optional `s`, which `(s?)` captures |
| Parser.CountsGroups | testopia/parser.py:80-98 | in the features and scenarios patterns `m.group(1)` to `m.group(4)` are the pieces 0, 2, 4 and 6: group 2 is the optional `s`, and groups 1, 3 and 4 are the three digit runs |
| Parser.StepsGroups | testopia/parser.py:86-103 | in the steps pattern `steps?` captures nothing, so `m.group(1)` to `m.group(4)` are the four digit runs and there is no group 5 |
| Parser.TookGroups | testopia/parser.py:89-105 | `m.group(1)` of `Took (.+)` is the text after `"Took "` |
| StringOps.StartsWith | testopia/parser.py:66-73 | `str.startswith`: the prefix is no longer than the string and equals its first characters |
| StringOps.StripLeading | testopia/parser.py:62 | `lstrip()`: a suffix of the string with only whitespace before it, which is empty or starts with a non-whitespace character |
| StringOps.StripTrailing | testopia/parser.py:62 | `rstrip()`: a prefix of the string with only whitespace after it, which is empty or ends with a non-whitespace character |
| StringOps.DecimalValue | testopia/parser.py:92-103 | `int()` of a string of decimal digits, most significant first, leading zeros allowed; an `n`-digit string is worth less than `10^n` |
| StringOps.Split | testopia/parser.py:60 | `split("\n")` gives at least one piece, no piece holds a newline, and joining the pieces with `"\n"` gives the text back |
| StringOps.SplitJoin | testopia/parser.py:60 | splitting a join of newline-free lines gives those lines back |
| StringOps.Strip | testopia/parser.py:62-69 | `strip()` never lengthens a line, and its result starts and ends with a non-whitespace character unless it is empty |
| StringOps.StripIsBothStrips | testopia/parser.py:62 | `strip()` is `lstrip()` followed by `rstrip()` |
| StringOps.StripIsTrimmedSlice | testopia/parser.py:62 | `strip()` keeps the slice of the line that starts after its leading whitespace, with only whitespace after it |
| StringOps.StripIdempotent | testopia/parser.py:62-67 | stripping twice is stripping once |
| StringOps.StripOfBlank | testopia/parser.py:62 | a whitespace-only line strips to `""` |
| StringOps.DecimalRoundTrip | testopia/parser.py:92-103 | `int()` recovers every count from its decimal rendering |
| Patterns.RunLength | testopia/parser.py:81 | the length of the longest run in a class at the start of the text, maximal |
| Patterns.MatchPrefix | testopia/parser.py:80-89 | `re.match` is sound: a match splits the line into one fitting piece per token, followed by the unmatched rest |
| Patterns.MatchRun | testopia/parser.py:80-89 | the backtracking of a greedy `+`: the longest run is tried first and then gives back one character at a time; any match it returns splits the line into fitting pieces |
| Patterns.Group | testopia/parser.py:92-105 | `m.group(n)`: the piece matched by the token that forms group `n` |
| Patterns.GroupIndexFrom | testopia/parser.py:92-105 | the token that forms group `n` is a capturing token, inside the pattern, or past its end when there is no such group |
| Patterns.GroupIndexIsNthCapture | testopia/parser.py:92-105 | groups are numbered from 1 in pattern order: group `n` is the capturing token with exactly `n - 1` capturing tokens before it, and it is missing only when fewer than `n` tokens capture |
| Patterns.MatchComplete | testopia/parser.py:80-89 | for a separated pattern, every split into fitting pieces whose final run is maximal is the match `re.match` returns |
| Patterns.LeadingDigits | testopia/parser.py:81 | a leading `(\d+)` takes all of the line's leading digits, and the next literal follows them |
| ReportProperties.CountsLineStartsWithDigit | testopia/parser.py:80-88 | a line that a counts or steps pattern matches starts with a digit |
| ReportProperties.TookLineStartsWithTook | testopia/parser.py:89 | a line that the time pattern matches starts with `"Took "` |
| ReportProperties.WordAfterDigits | testopia/parser.py:80-88 | on a line a counts or steps pattern matches, the word after the leading digits and the space begins with `f`, `sc` or `st` respectively |
| ReportProperties.AtMostOnePatternMatches | testopia/parser.py:80-105 | no line matches two of the four summary patterns |
| ReportProperties.SummaryLinesAreUnprefixed | testopia/parser.py:66-89 | a line that a summary pattern matches starts with none of `Feature:`, `Scenario:`, `Given`, `When`, `Then` |
| ReportProperties.PrefixedLineKeepsSummary | testopia/parser.py:66-77 | prefix classification comes first: a prefixed line never changes the summary |
| ReportProperties.CountsPatternSeparated | testopia/parser.py:81-84 | the features and scenarios patterns are separated, so their greedy match is unique |
| ReportProperties.StepsPatternSeparated | testopia/parser.py:87 | the steps pattern is separated |
| ReportProperties.CountsLineMatches | testopia/parser.py:80-85 | `<a> <noun><s> passed, <b> failed, <c> skipped`, followed by anything, matches with the pieces `a`, `s`, `b`, `c` |
| ReportProperties.StepsLineMatches | testopia/parser.py:86-88 | `<a> step<s> passed, <b> failed, <c> skipped, <d> undefined`, followed by anything, matches with the pieces `a`, `b`, `c`, `d` |
| ReportProperties.TookLineMatches | testopia/parser.py:89 | `"Took " + x` with `x` non-empty matches, capturing `x` in full |
| ReportProperties.SummaryOfFeaturesMatch | testopia/parser.py:91-94 | a features match sets the three feature counters from groups 1, 3 and 4, and nothing else |
| ReportProperties.SummaryOfScenariosMatch | testopia/parser.py:95-98 | a scenarios match sets the three scenario counters from groups 1, 3 and 4, and nothing else |
| ReportProperties.SummaryOfStepsMatch | testopia/parser.py:99-103 | a steps match sets the four step counters from groups 1 to 4, and nothing else |
| ReportProperties.SummaryOfTookMatch | testopia/parser.py:104-105 | a time match sets the elapsed time to group 1, and nothing else |
| ReportProperties.FeaturesLineSetsFeatureCounts | testopia/parser.py:80-94 | the report after a features line is the report before it with `features_passed`/`failed`/`skipped` set to `int(a)`, `int(b)`, `int(c)` |
| ReportProperties.ScenariosLineSetsScenarioCounts | testopia/parser.py:83-98 | the same for a scenarios line and the three scenario counters |
| ReportProperties.StepsLineSetsStepCounts | testopia/parser.py:86-103 | a steps line sets the four step counters to `int(a)` … `int(d)`, and nothing else |
| ReportProperties.ParseLineOfStepsMatch | testopia/parser.py:99-103 | any steps match sets the four step counters of the report to its digit pieces |
| ReportProperties.ParseLineOfSummaryLine | testopia/parser.py:76-77 | a line a summary pattern matches reaches `_parse_summary` |
| ReportProperties.TookLineSetsTime | testopia/parser.py:89-105 | `"Took " + x` sets `time_taken` to `x` verbatim, and nothing else |
| ParseProperties.PrefixesExclusive | testopia/parser.py:66-75 | no line starts with both `Feature:` and `Scenario:`, and such a line is not a step line |
| ParseProperties.NoSummaryShape | testopia/parser.py:66-89 | a prefixed line matches no summary pattern |
| ParseProperties.LineEffect | testopia/parser.py:65-105 | one line changes a field exactly when its own shape assigns that field, and then to the assigned value |
| ParseProperties.Writes | testopia/parser.py:61-62 | one write per input line, in input order |
| ParseProperties.LastSomeNone | testopia/parser.py:61-62 | the last present write is missing exactly when every write is missing |
| ParseProperties.LastSomeIsLast | testopia/parser.py:61-62 | a present write with none after it is the last present write |
| ParseProperties.LastAssignedNone | testopia/parser.py:61-62 | no line of a field's kind exists exactly when no line assigns that field |
| ParseProperties.LastAssignedIsLastWriter | testopia/parser.py:61-62 | the last assignment is the value of the last line of the field's kind |
| ParseProperties.LastAssignedStep | testopia/parser.py:61-62 | the last line either assigns the field or leaves the answer to the lines before it |
| ParseProperties.FieldIsLastAssigned | testopia/parser.py:59-105 | fields are overwritten, not accumulated: each holds what the last line of its kind assigned, or its earlier value if there is no such line |
| ParseProperties.LastLineOfItsKindWins | testopia/parser.py:66-105 | the same by position: `feature` is the stripped remainder of the last `Feature:` line, `scenario` of the last `Scenario:` line, and each counter group is the numbers of the last summary line of its kind |
| ParseProperties.UnassignedFieldKept | testopia/parser.py:59-105 | a field that no line assigns keeps its value |
| ParseProperties.ParsedFieldIsLastAssigned | testopia/parser.py:59-105 | from a new parser, each field is its last assignment, or `""`/`0` if there is none |
| ParseProperties.StepLinesMembers | testopia/parser.py:70-75 | a string is among the step lines exactly when it is a stripped input line starting with `Given`, `When` or `Then` |
| ParseProperties.Stripped | testopia/parser.py:61-62 | the stripped lines, one per input line, in order |
| ParseProperties.StepsAreTheStepLines | testopia/parser.py:60-75 | `steps` grows by exactly the step lines, in input order |
| ParseProperties.ParsedStepsAreStepLines | testopia/parser.py:54-75 | from a new parser, `steps` is the step lines, so there are as many steps as step lines |
| ParseProperties.UnrecognisedLinesChangeNothing | testopia/parser.py:76-105 | lines that match nothing leave the report unchanged |
| ParseProperties.EmptyLineUnrecognised | testopia/parser.py:66-89 | the empty line matches no prefix and no pattern |
| ParseProperties.BlankTextParsesToDefault | testopia/parser.py:54-63 | a text of only whitespace, the empty text included, parses to the default report |
| ParseProperties.BlankLinesOfBlankText | testopia/parser.py:60 | the lines of a whitespace-only text are whitespace-only |
| ParseProperties.LineKeepsNonNegative | testopia/parser.py:91-105 | one line never makes a counter negative |
| ParseProperties.CountersStayNonNegative | testopia/parser.py:91-105 | the counters after `parse` are non-negative |
| ParseProperties.SameFieldsSameReport | testopia/parser.py:26-31 | a report is determined by its fields and its steps |
| ParseProperties.ReparseKeepsField | testopia/parser.py:59-63 | re-reading the same lines leaves every field as the first reading set it |
| ParseProperties.ReparseAppendsSteps | testopia/parser.py:59-75 | reading the same lines again appends their step lines once more and changes nothing else |
| ParseProperties.OnlyStepsGrew | testopia/parser.py:26-31 | a report with the fields of another and its steps extended is that report with the steps extended |
| ParseProperties.ParseTwice | testopia/parser.py:57-75 | a second `parse()` on the same parser appends every step line again and changes nothing else |
| Errors.IsExitCode | testopia/errors.py:4-19 | the four members of `ExitCode`, which the base error asks for but does not check |
| Errors.FixedExitCode | testopia/errors.py:4-71 | only the three subclasses fix an exit code; it is a member of `ExitCode` and never `SUCCESS` |
| Errors.KindOfExitCode | testopia/errors.py:7-10 | exactly the failing `ExitCode` members name a subclass |
| Errors.ExitCodeIdentifiesKind | testopia/errors.py:8-71 | subclass and exit code determine each other, in both directions |
| Errors.ExitCodesDistinct | testopia/errors.py:7-10 | the three error exit codes are pairwise distinct and none is `SUCCESS = 0` |
| Errors.NewBaseError | testopia/errors.py:21-32 | the error keeps its message and exit code, its `args` are `(message,)`, and a missing help text becomes the default one while a given one is kept unchanged |
| Errors.NewSubclassError | testopia/errors.py:38-71 | a subclass error is the base error with that subclass's own exit code |
| Errors.NewRuntimeError | testopia/errors.py:38-45 | `TestopiaRuntimeError` keeps the message, has exit code 1, and defaults its help text |
| Errors.NewInputError | testopia/errors.py:51-58 | `TestopiaInputError` keeps the message, has exit code 2, and defaults its help text |
| Errors.NewTestFailure | testopia/errors.py:64-71 | `TestopiaTestFailure` keeps the message, has exit code 3, and defaults its help text |
| Errors.SubclassErrorExitCode | testopia/errors.py:45-71 | a subclass error's exit code is a failing `ExitCode` member that names its class |
| Errors.DefaultHelpText | testopia/errors.py:25-31 | the help text is the default exactly when none was given or the default was given; the default contains a line break (`\n`) |

## Left out

- `testopia/runner.py` is not part of this model. It swaps `sys.stdout`, creates directories, writes `results.txt`, configures logging and hands the run to behave's `Configuration`/`Runner`. All of that is I/O and process-wide state around a foreign engine. The report text it captures is a parameter of `ReportParser` here.
- `TestReport.display` is not modelled: it only prints coloured text.
- `main.py`, `test.py` and the sample behave hooks and steps are drivers and engine callbacks, not parser logic.
- `StringOps.DecimalValue`: does not model CPython's limit on `int()` of long decimal strings. Since CPython 3.11 (and the matching 3.7–3.10 security releases), `int()` raises `ValueError` on more than 4300 digits (`sys.get_int_max_str_digits()`), and testopia/parser.py:92-103 does not catch it. So `parse()` raises on a line such as 4301 digits followed by `" features passed, 0 failed, 0 skipped"`, while the model sets `featuresPassed` to that number. The limit is a setting of the running interpreter, not of the parser.
- Strings: Dafny's `char` cannot hold the lone surrogate code points a Python `str` may contain, so reports holding them are outside the model.
- Whitespace: `strip()` uses CPython's full whitespace set. `StringOps.IsDigit` and `DecimalValue` accept ASCII digits only, while Python's `\d` and `int()` also accept other Unicode decimal digits.
- Regular expressions: `Patterns` models only the constructs the four patterns use. It is not a general `re` engine.
- `Parser.ReportParser.Parse`: the returned report is a value. In Python it is the same object as `parsed_data`, so a caller who mutates it also mutates the parser. That aliasing is not modelled.
- `Parser.ReportParser.Parse` requires `Valid()` (non-negative counters). A new parser establishes it and every method keeps it. The Python code has no such check, but its counters come only from `int()` of digit runs.
- Errors: the error values are modelled, not Python's raising and catching of exceptions. `str(error)` is modelled only through `args`.
