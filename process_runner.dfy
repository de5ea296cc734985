/** Running an external command with a time limit: spawn it, poll until it
    exits or the limit passes (then kill it), and hand back its trimmed
    output and exit code. */
module ProcessRunner {
  import opened Wrappers
  import opened Text

  datatype ProcessCapture = ProcessCapture(stdout: string, stderr: string, exitCode: int)

  /** `execute_process_with_timeout(command, args, timeout)` as the
      callers see it: a capture, or the error that kept it from running. */
  type ProcessOracle = (string, seq<string>, nat) -> Result<ProcessCapture, string>

  /** The exit code reported for a process killed at the time limit. */
  const TimeoutExitCode: int := -1000

  // ---------------------------------------------------------------------
  // The command line

  /** The names that are batch scripts on Windows. */
  const ScriptNames: seq<string> := ["npm", "pnpm", "yarn", "npx", "bun", "deno", "pip", "pipx", "uv",
                                     "conda", "flutter", "dart", "az", "gcloud", "gemini", "codex",
                                     "code", "claude"]

  /** `needs_cmd_wrapper`: only on Windows, for ".cmd"/".bat" files and for
      the known script names, all compared in lower case. */
  function NeedsCmdWrapper(command: string, onWindows: bool): (b: bool)
    ensures !onWindows ==> !b
    ensures b <==> onWindows && (EndsWith(ToLower(command), ".cmd") || EndsWith(ToLower(command), ".bat")
                                 || ToLower(command) in ScriptNames)
  {
    if !onWindows then false
    else
      var lower := ToLower(command);
      EndsWith(lower, ".cmd") || EndsWith(lower, ".bat") || lower in ScriptNames
  }

  lemma NeedsCmdWrapperExamples()
    ensures NeedsCmdWrapper("NPM", true) && NeedsCmdWrapper("build.Bat", true)
    ensures !NeedsCmdWrapper("git", true) && !NeedsCmdWrapper("npm", false)
  {
    var npm := ToLower("NPM");
    assert npm == ScriptNames[0];
    var bat := ToLower("build.Bat");
    assert bat[|bat| - 4..] == ".bat";
    var git := ToLower("git");
    assert git == "git";
    assert git !in ScriptNames;
  }

  /** `create_command_with_args`: the program and arguments actually run. */
  function CommandLine(command: string, args: seq<string>, onWindows: bool): (line: (string, seq<string>))
    ensures NeedsCmdWrapper(command, onWindows) ==> line == ("cmd", ["/C", command] + args)
    ensures !NeedsCmdWrapper(command, onWindows) ==> line == (command, args)
  {
    if NeedsCmdWrapper(command, onWindows) then ("cmd", ["/C", command] + args) else (command, args)
  }

  /** Either way the same command receives the same arguments: the wrapper
      only puts "cmd /C" in front. */
  lemma CommandLineKeepsCall(command: string, args: seq<string>, onWindows: bool)
    ensures var (program, argv) := CommandLine(command, args, onWindows);
            [program] + argv == [command] + args
            || (program == "cmd" && |argv| == |args| + 2 && argv[0] == "/C" && argv[1..] == [command] + args)
  {
  }

  // ---------------------------------------------------------------------
  // The poll loop

  /** What `try_wait` answers at one poll. */
  datatype WaitAnswer = WaitFailed(message: string) | StillRunning | Finished(code: Option<int>)

  /** A child process as the runner sees it: whether it could be spawned,
      what each poll answers, the elapsed time read after each poll that
      found it running, and the text of its two streams (decoded). */
  datatype ChildProcess = ChildProcess(
    spawnError: Option<string>,
    tryWait: nat -> WaitAnswer,
    elapsedAt: nat -> nat,
    stdoutText: string,
    stderrText: string)

  /** The runner sleeps between polls, so the clock reads later each time. */
  ghost predicate ClockTicks(p: ChildProcess) {
    forall j, k :: j < k ==> p.elapsedAt(j) < p.elapsedAt(k)
  }

  /** `timeout_ms.max(1)`. */
  function EffectiveTimeoutMs(timeoutMs: nat): (t: nat)
    ensures t >= 1 && t >= timeoutMs
    ensures t == timeoutMs || (timeoutMs == 0 && t == 1)
  {
    if timeoutMs < 1 then 1 else timeoutMs
  }

  /** The capture handed back, with the streams trimmed as `decode_bytes`
      leaves them. */
  function CaptureOf(p: ChildProcess, exitCode: int): ProcessCapture {
    ProcessCapture(Trim(p.stdoutText), Trim(p.stderrText), exitCode)
  }

  /** The outcome of the loop from poll `k` on. A capture always carries
      the trimmed streams, and its code is the exit code, -1 for an exit
      without one, or the timeout code. */
  function PollFrom(p: ChildProcess, timeout: nat, k: nat): (r: Result<ProcessCapture, string>)
    requires ClockTicks(p)
    ensures r.Ok? ==> r.value.stdout == Trim(p.stdoutText) && r.value.stderr == Trim(p.stderrText)
    ensures r.Ok? ==> r.value.exitCode == TimeoutExitCode
                      || exists j :: k <= j && p.tryWait(j).Finished? && r.value.exitCode == p.tryWait(j).code.GetOr(-1)
    ensures r.Err? ==> exists j :: k <= j && p.tryWait(j) == WaitFailed(r.error)
    decreases if p.elapsedAt(k) < timeout then timeout - p.elapsedAt(k) else 0
  {
    match p.tryWait(k)
    case WaitFailed(message) => Err(message)
    case Finished(code) => Ok(CaptureOf(p, code.GetOr(-1)))
    case StillRunning =>
      if p.elapsedAt(k) >= timeout then Ok(CaptureOf(p, TimeoutExitCode))
      else
        assert p.elapsedAt(k) < p.elapsedAt(k + 1);
        PollFrom(p, timeout, k + 1)
  }

  /** `execute_process_with_timeout_in_dir`: a spawn failure is an error
      with its message; otherwise the poll loop decides. */
  function ExecuteProcessSpec(p: ChildProcess, timeoutMs: nat): (r: Result<ProcessCapture, string>)
    requires ClockTicks(p)
  {
    if p.spawnError.Some? then Err(p.spawnError.value) else PollFrom(p, EffectiveTimeoutMs(timeoutMs), 0)
  }

  /** The poll loop itself. */
  method ExecuteProcess(p: ChildProcess, timeoutMs: nat) returns (r: Result<ProcessCapture, string>)
    requires ClockTicks(p)
    ensures r == ExecuteProcessSpec(p, timeoutMs)
  {
    if p.spawnError.Some? {
      return Err(p.spawnError.value);
    }
    var timeout := if timeoutMs < 1 then 1 else timeoutMs;
    var k := 0;
    while true
      invariant PollFrom(p, timeout, k) == ExecuteProcessSpec(p, timeoutMs)
      decreases if p.elapsedAt(k) < timeout then timeout - p.elapsedAt(k) else 0
    {
      match p.tryWait(k)
      case WaitFailed(message) =>
        return Err(message);
      case Finished(code) =>
        return Ok(CaptureOf(p, code.GetOr(-1)));
      case StillRunning =>
        if p.elapsedAt(k) >= timeout {
          return Ok(CaptureOf(p, TimeoutExitCode));
        }
        assert p.elapsedAt(k) < p.elapsedAt(k + 1);
        k := k + 1;
    }
  }

  /** Polls that find the process still running within the limit only
      lead on to the next poll. */
  lemma {:induction false} RunningPolls(p: ChildProcess, timeout: nat, k: nat, m: nat)
    requires ClockTicks(p) && k <= m
    requires forall j :: k <= j < m ==> p.tryWait(j) == StillRunning && p.elapsedAt(j) < timeout
    ensures PollFrom(p, timeout, k) == PollFrom(p, timeout, m)
    decreases m - k
  {
    if k < m {
      assert p.tryWait(k) == StillRunning && p.elapsedAt(k) < timeout;
      assert PollFrom(p, timeout, k) == PollFrom(p, timeout, k + 1);
      RunningPolls(p, timeout, k + 1, m);
    }
  }

  /** A process still running when the limit passes is killed and reported
      as a capture with the timeout code: an `Ok`, not an error. A process
      that exits first reports its code, or -1 when it has none. */
  lemma LimitIsNotAnError(p: ChildProcess, timeoutMs: nat, m: nat)
    requires ClockTicks(p) && p.spawnError.None?
    requires forall j :: 0 <= j < m ==>
               p.tryWait(j) == StillRunning && p.elapsedAt(j) < EffectiveTimeoutMs(timeoutMs)
    ensures p.tryWait(m) == StillRunning && p.elapsedAt(m) >= EffectiveTimeoutMs(timeoutMs) ==>
              ExecuteProcessSpec(p, timeoutMs) == Ok(CaptureOf(p, TimeoutExitCode))
    ensures p.tryWait(m).Finished? ==>
              ExecuteProcessSpec(p, timeoutMs) == Ok(CaptureOf(p, p.tryWait(m).code.GetOr(-1)))
  {
    RunningPolls(p, EffectiveTimeoutMs(timeoutMs), 0, m);
  }

  // ---------------------------------------------------------------------
  // Mapping a capture to text

  /** `run_command_with_timeout`'s reading of a capture: a zero exit gives
      stdout, or stderr when stdout is empty; any other exit is an error
      carrying the code and stderr, or stdout when stderr is empty. */
  function CaptureText(output: Result<ProcessCapture, string>): (r: Result<string, string>)
    ensures output.Err? ==> r == Err(output.error)
    ensures output.Ok? ==> (r.Ok? <==> output.value.exitCode == 0)
    ensures r.Ok? && output.value.stdout != [] ==> r.value == output.value.stdout
    ensures r.Ok? && output.value.stdout == [] ==> r.value == output.value.stderr
    ensures r.Err? && output.Ok? ==>
              var detail := if output.value.stderr == [] then output.value.stdout else output.value.stderr;
              r.error == "执行命令失败（返回码 " + IntToString(output.value.exitCode) + "）：" + detail
  {
    match output
    case Err(e) => Err(e)
    case Ok(capture) =>
      if capture.exitCode == 0 then
        Ok(if capture.stdout == [] then capture.stderr else capture.stdout)
      else
        var detail := if capture.stderr == [] then capture.stdout else capture.stderr;
        Err("执行命令失败（返回码 " + IntToString(capture.exitCode) + "）：" + detail)
  }

  /** `run_command_with_timeout`. A command at its time limit reports the
      timeout code, so it comes back as an error carrying "-1000". */
  method RunCommandWithTimeout(p: ChildProcess, timeoutMs: nat) returns (r: Result<string, string>)
    requires ClockTicks(p)
    ensures r == CaptureText(ExecuteProcessSpec(p, timeoutMs))
  {
    var output := ExecuteProcess(p, timeoutMs);
    r := CaptureText(output);
  }

  /** Whatever text is reported is one of the two trimmed streams, and a
      successful command with any output reports some. */
  lemma ReportedTextIsAStream(p: ChildProcess, timeoutMs: nat)
    requires ClockTicks(p)
    ensures var r := CaptureText(ExecuteProcessSpec(p, timeoutMs));
            r.Ok? ==> ((r.value == Trim(p.stdoutText) || r.value == Trim(p.stderrText))
                       && (r.value == [] ==> Trim(p.stdoutText) == [] && Trim(p.stderrText) == []))
  {
  }
}
