/**
 * `execute_code`: the language gate, the choice of runner, and how the
 * finished process is reported as `{output, error}`. The process itself (the
 * temporary file, the interpreter, the 10-second limit) is an input here.
 */
module Execution {
  import opened Wrappers
  import opened Text
  import opened Languages

  /** What the handler reads of a finished process. */
  datatype ProcessResult = ProcessResult(stdout: string, stderr: string, returncode: int)

  /**
   * How running the code ended. `Completed`: the process finished and its
   * temporary file was removed. `TimedOut`: it hit the time limit. `Raised`:
   * something else raised, whether writing the temporary file, starting the
   * process, or removing the file after the process finished.
   */
  datatype RunOutcome = Completed(result: ProcessResult) | TimedOut | Raised(message: string)

  /** The program the code is handed to. */
  datatype Runner = PythonInterpreter | Node

  /** The `{output, error}` response. */
  datatype ExecuteResponse = ExecuteResponse(output: string, error: bool)

  const NoOutputMessage: string := "Code executed successfully (no output)"

  const TimeoutMessage: string := "Execution timed out (10s limit)"

  /** The message for a language the handler does not run; it lists the supported ones. */
  function UnsupportedMessage(language: string): (m: string)
    ensures m == "Language '" + language + "' execution not supported. Supported: python, javascript, typescript"
  {
    assert SupportedLanguages[1..] == ["javascript", "typescript"];
    assert SupportedLanguages[1..][1..] == ["typescript"];
    "Language '" + language + "' execution not supported. Supported: " + Join(", ", SupportedLanguages)
  }

  /** Python runs under the interpreter, JavaScript and TypeScript under node, nothing else runs. */
  function RunnerFor(language: string): (runner: Option<Runner>)
    ensures runner.Some? <==> IsSupported(language)
    ensures runner == Some(PythonInterpreter) <==> language == "python"
  {
    if language == "python" then Some(PythonInterpreter)
    else if language in ["javascript", "typescript"] then Some(Node)
    else None
  }

  /**
   * How a finished process is shown: never an empty output; the standard output
   * first, then the standard error on a new line when there is any; the
   * no-output message when both are empty; an error exactly when the return
   * code is not 0.
   */
  function Shown(res: ProcessResult): (r: ExecuteResponse)
    ensures r.output != ""
    ensures r.error <==> res.returncode != 0
    ensures res.stdout <= r.output
    ensures res.stderr != "" ==> EndsWith(r.output, "\n" + res.stderr)
    ensures res.stderr != "" ==> |r.output| == |res.stdout| + 1 + |res.stderr|
    ensures res.stderr == "" && res.stdout != "" ==> r.output == res.stdout
    ensures r.output == NoOutputMessage <==>
              (res.stdout == "" && res.stderr == "") || (res.stdout == NoOutputMessage && res.stderr == "")
  {
    var joined := if res.stderr != "" then res.stdout + "\n" + res.stderr else res.stdout;
    assert res.stderr != "" ==> joined[|res.stdout|] == '\n';
    assert '\n' !in NoOutputMessage;
    ExecuteResponse(if joined == "" then NoOutputMessage else joined, res.returncode != 0)
  }

  /**
   * `execute_code` once the caller is known. `run` is how running the code
   * ended; it is consulted only for a supported language. `runner` is the
   * program chosen to run the code, `None` for a refused language; a `Raised`
   * outcome may come from writing the temporary file, before that program
   * is started, or from removing that file after it finished.
   */
  method ExecuteCode(language: string, run: RunOutcome) returns (r: ExecuteResponse, runner: Option<Runner>)
    ensures runner == RunnerFor(language)
    ensures !IsSupported(language) ==> r == ExecuteResponse(UnsupportedMessage(language), true)
    ensures IsSupported(language) && run.TimedOut? ==> r == ExecuteResponse(TimeoutMessage, true)
    ensures IsSupported(language) && run.Raised? ==> r == ExecuteResponse(run.message, true)
    ensures IsSupported(language) && run.Completed? ==> r == Shown(run.result)
  {
    if language !in SupportedLanguages {
      return ExecuteResponse(UnsupportedMessage(language), true), None;
    }
    if language == "python" {
      runner := Some(PythonInterpreter);
    } else {
      runner := Some(Node);
    }
    match run {
      case TimedOut =>
        r := ExecuteResponse(TimeoutMessage, true);
      case Raised(message) =>
        r := ExecuteResponse(message, true);
      case Completed(result) =>
        var output := result.stdout;
        if result.stderr != "" {
          output := output + "\n" + result.stderr;
        }
        r := ExecuteResponse(if output == "" then NoOutputMessage else output, result.returncode != 0);
    }
  }
}
