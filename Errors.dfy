/** Testopia's error classes: each carries a message, the process exit
    code it stands for and a help text shown to the user. */
module Errors {
  import opened Wrappers

  /** `ExitCode`. */
  const SUCCESS: int := 0
  const RUNTIME_ERROR: int := 1
  const INPUT_ERROR: int := 2
  const TEST_FAILURE: int := 3

  /** The help text an error carries when none is given. */
  const DEFAULT_HELP_TEXT: string :=
    "Help is available with --help. Use the -v flag to increase output verbosity\n" +
    "For more help, check the STF Documentation: " +
    "https://docs.arene.com/Vertex/stf/user_manual/overview/"

  /** The members of `ExitCode`; the base error asks for one of these but
      does not check it. */
  predicate IsExitCode(code: int)
  {
    code == SUCCESS || code == RUNTIME_ERROR || code == INPUT_ERROR || code == TEST_FAILURE
  }

  /** Which class raised the error. */
  datatype ErrorKind = BaseError | RuntimeError | InputError | TestFailure

  /** An error object; `args` is what `Exception.__init__` keeps. */
  datatype TestopiaError = TestopiaError(
    kind: ErrorKind,
    message: string,
    exitCode: int,
    helpText: string,
    args: seq<string>)

  /** The exit code a subclass always passes to the base class; the base
      class itself takes any code. */
  function FixedExitCode(kind: ErrorKind): (code: Option<int>)
    ensures code.Some? <==> kind != BaseError
    ensures code.Some? ==> IsExitCode(code.value) && code.value != SUCCESS
  {
    match kind
    case BaseError => None
    case RuntimeError => Some(RUNTIME_ERROR)
    case InputError => Some(INPUT_ERROR)
    case TestFailure => Some(TEST_FAILURE)
  }

  /** The subclass a failing exit code stands for. */
  function KindOfExitCode(code: int): (kind: Option<ErrorKind>)
    ensures kind.Some? <==> IsExitCode(code) && code != SUCCESS
  {
    if code == RUNTIME_ERROR then Some(RuntimeError)
    else if code == INPUT_ERROR then Some(InputError)
    else if code == TEST_FAILURE then Some(TestFailure)
    else None
  }

  /** Each subclass has its own failing exit code, and each failing exit code
      its own subclass: the two maps are inverse to each other. */
  lemma ExitCodeIdentifiesKind(kind: ErrorKind, code: int)
    ensures FixedExitCode(kind) == Some(code) <==> KindOfExitCode(code) == Some(kind)
  {
  }

  /** Two subclasses never share an exit code, and none of them reports success. */
  lemma ExitCodesDistinct(k1: ErrorKind, k2: ErrorKind)
    requires k1 != BaseError && k2 != BaseError
    ensures FixedExitCode(k1) != Some(SUCCESS)
    ensures k1 != k2 ==> FixedExitCode(k1) != FixedExitCode(k2)
  {
    ExitCodeIdentifiesKind(k1, FixedExitCode(k1).value);
    ExitCodeIdentifiesKind(k2, FixedExitCode(k2).value);
  }

  /** `TestopiaBaseError.__init__`: keeps the message and the exit code,
      and replaces a missing help text by the default one. */
  function NewBaseError(message: string, exitCode: int, helpText: Option<string>): (e: TestopiaError)
    ensures e.kind == BaseError && e.message == message && e.exitCode == exitCode
    ensures helpText.Some? ==> e.helpText == helpText.value
    ensures helpText.None? ==> e.helpText == DEFAULT_HELP_TEXT
    ensures e.args == [e.message]
  {
    var help := if helpText.None? then DEFAULT_HELP_TEXT else helpText.value;
    TestopiaError(BaseError, message, exitCode, help, [message])
  }

  /** The subclasses: the base error with the subclass's own exit code. */
  function NewSubclassError(kind: ErrorKind, message: string, helpText: Option<string>): (e: TestopiaError)
    requires kind != BaseError
    ensures e.kind == kind && e.message == message && e.args == [message]
    ensures FixedExitCode(kind) == Some(e.exitCode)
    ensures e.helpText == NewBaseError(message, e.exitCode, helpText).helpText
  {
    NewBaseError(message, FixedExitCode(kind).value, helpText).(kind := kind)
  }

  /** `TestopiaRuntimeError.__init__`. */
  function NewRuntimeError(message: string, helpText: Option<string>): (e: TestopiaError)
    ensures e.kind == RuntimeError && e.message == message && e.exitCode == RUNTIME_ERROR
    ensures helpText.Some? ==> e.helpText == helpText.value
    ensures helpText.None? ==> e.helpText == DEFAULT_HELP_TEXT
  {
    NewSubclassError(RuntimeError, message, helpText)
  }

  /** `TestopiaInputError.__init__`. */
  function NewInputError(message: string, helpText: Option<string>): (e: TestopiaError)
    ensures e.kind == InputError && e.message == message && e.exitCode == INPUT_ERROR
    ensures helpText.Some? ==> e.helpText == helpText.value
    ensures helpText.None? ==> e.helpText == DEFAULT_HELP_TEXT
  {
    NewSubclassError(InputError, message, helpText)
  }

  /** `TestopiaTestFailure.__init__`. */
  function NewTestFailure(message: string, helpText: Option<string>): (e: TestopiaError)
    ensures e.kind == TestFailure && e.message == message && e.exitCode == TEST_FAILURE
    ensures helpText.Some? ==> e.helpText == helpText.value
    ensures helpText.None? ==> e.helpText == DEFAULT_HELP_TEXT
  {
    NewSubclassError(TestFailure, message, helpText)
  }

  /** An error a subclass raised tells its class back from its exit code
      alone, and never reports success. */
  lemma SubclassErrorExitCode(kind: ErrorKind, message: string, helpText: Option<string>)
    requires kind != BaseError
    ensures var e := NewSubclassError(kind, message, helpText);
      KindOfExitCode(e.exitCode) == Some(kind) && e.exitCode != SUCCESS && IsExitCode(e.exitCode)
  {
    var e := NewSubclassError(kind, message, helpText);
    ExitCodeIdentifiesKind(kind, e.exitCode);
  }

  /** The default help text is the two-line hint, and only an explicit
      help text replaces it. */
  lemma DefaultHelpText(message: string, exitCode: int, helpText: Option<string>)
    ensures NewBaseError(message, exitCode, helpText).helpText == DEFAULT_HELP_TEXT <==>
      helpText.None? || helpText.value == DEFAULT_HELP_TEXT
    ensures '\n' in DEFAULT_HELP_TEXT
  {
    assert DEFAULT_HELP_TEXT[75] == '\n';
  }
}
