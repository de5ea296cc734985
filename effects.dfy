/** What the outside world answers. Subprocesses and HTTP requests are not
    run by the model: their outcomes are values handed to it. */
module Effects {
  import opened Wrappers

  /** An argument vector: the program name first when the oracle runs any
      program, only the arguments when it stands for one program. */
  type Argv = seq<string>

  /** The result of `Command::output()`: either the process could not be
      started, or it ran and exited with an optional code (no code when a
      signal ended it) and its captured, decoded output. */
  datatype CmdOutcome =
    | SpawnError(message: string)
    | Exited(code: Option<int>, stdout: string, stderr: string)
  {
    /** `ExitStatus::success`: the process ran and exited with code 0. */
    predicate Success() {
      Exited? && code == Some(0)
    }

    /** The captured output as the steps report it: `"{stdout}\n{stderr}"`. */
    function Combined(): string
      requires Exited?
    {
      stdout + "\n" + stderr
    }
  }

  /** The machine the update workflow drives: what each command line
      (program name first) answers, and how long it takes to answer. Within
      one workflow every command line is issued at most once, so one answer
      per line is enough. */
  datatype Shell = Shell(run: Argv -> CmdOutcome, tookMs: Argv -> nat)

  /** An HTTP request as the providers build it. */
  datatype HttpRequest = HttpRequest(
    httpMethod: string,
    url: string,
    headers: seq<(string, string)>,
    userAgent: Option<string>,
    timeoutMs: nat)

  /** What `reqwest` reports for a sent request: it timed out, failed, or a
      response arrived with a status (its number and its `Display` text) and
      a body that decodes into a `T` or fails to with a message. */
  datatype HttpOutcome<T> =
    | SendTimeout
    | SendError(message: string)
    | Response(status: nat, statusText: string, body: Result<T, string>)
  {
    /** `StatusCode::is_success`: 200 to 299. */
    predicate StatusSuccess()
      requires Response?
    {
      200 <= status <= 299
    }
  }

  /** The HTTP client: building it may fail with a message; once built, it
      answers each request with an outcome. */
  datatype HttpClient<T> = HttpClient(buildError: Option<string>, send: HttpRequest -> HttpOutcome<T>)
}
