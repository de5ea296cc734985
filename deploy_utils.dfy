/** Validators and output helpers shared by the deploy steps. */
module DeployUtils {
  import opened Wrappers
  import opened Text
  import opened Contracts
  import opened ProcessRunner

  // ---------------------------------------------------------------------
  // Validators. Each demands ASCII characters only, so the byte length
  // Rust bounds equals the character count used here.

  predicate IsGitRefChar(c: char) {
    IsAsciiAlphanumeric(c) || c == '_' || c == '-' || c == '/' || c == '.'
  }

  predicate IsImageRefChar(c: char) {
    IsAsciiAlphanumeric(c) || c == '.' || c == '_' || c == '-' || c == '/' || c == ':' || c == '@'
  }

  predicate IsIdentifierChar(c: char) {
    IsAsciiAlphanumeric(c) || c == '.' || c == '_' || c == '-'
  }

  /** `is_safe_git_ref`. */
  predicate IsSafeGitRef(value: string) {
    value != [] && |value| <= 128 && forall i :: 0 <= i < |value| ==> IsGitRefChar(value[i])
  }

  /** `is_safe_docker_image_ref`. */
  predicate IsSafeDockerImageRef(value: string) {
    value != [] && |value| <= 256 && forall i :: 0 <= i < |value| ==> IsImageRefChar(value[i])
  }

  /** `is_safe_identifier`. */
  predicate IsSafeIdentifier(value: string) {
    value != [] && |value| <= 128 && forall i :: 0 <= i < |value| ==> IsIdentifierChar(value[i])
  }

  /** Every safe identifier is also a safe git ref and a safe image ref. */
  lemma SafeIdentifierIsSafeRef(value: string)
    ensures IsSafeIdentifier(value) ==> IsSafeGitRef(value) && IsSafeDockerImageRef(value)
  {
  }

  /** None of the validators lets whitespace or a shell metacharacter
      through, and an image ref may carry a digest or a tag that a git ref
      may not. */
  lemma ValidatorExamples()
    ensures IsSafeGitRef("feature/login-1.2") && !IsSafeGitRef("main; rm -rf /")
    ensures IsSafeDockerImageRef("nginx@sha256:abc") && !IsSafeGitRef("nginx:1.25")
    ensures !IsSafeIdentifier("") && !IsSafeIdentifier("web app")
  {
    assert !IsGitRefChar("main; rm -rf /"[4]);
    assert !IsGitRefChar("nginx:1.25"[5]);
    assert !IsIdentifierChar("web app"[3]);
  }

  // ---------------------------------------------------------------------
  // Directories

  /** What the file system says about a path. */
  datatype DirProbe = Missing | NotADirectory | Directory

  /** `ensure_existing_dir`: the trimmed path when it names a directory;
      the messages quote the raw text. */
  function EnsureExistingDir(raw: string, what: string, probe: string -> DirProbe): (r: Result<string, string>)
    ensures r.Ok? <==> probe(Trim(raw)) == Directory
    ensures r.Ok? ==> r.value == Trim(raw)
    ensures probe(Trim(raw)) == Missing ==> r == Err(what + "不存在: " + raw)
    ensures probe(Trim(raw)) == NotADirectory ==> r == Err(what + "不是目录: " + raw)
  {
    var path := Trim(raw);
    match probe(path)
    case Missing => Err(what + "不存在: " + raw)
    case NotADirectory => Err(what + "不是目录: " + raw)
    case Directory => Ok(path)
  }

  // ---------------------------------------------------------------------
  // Text helpers

  /** `normalize_remote_name`: the trimmed name, "origin" when blank. */
  function NormalizeRemoteName(value: string): (name: string)
    ensures name != []
    ensures IsBlank(value) <==> name == "origin" && Trim(value) != "origin"
    ensures !IsBlank(value) ==> name == Trim(value)
  {
    var trimmed := Trim(value);
    if trimmed == [] then "origin" else trimmed
  }

  /** The trimmed, non-empty pieces, in order. */
  function NonEmptyTrimmed(pieces: seq<string>): (lines: seq<string>)
    ensures |lines| <= |pieces|
    ensures forall k :: 0 <= k < |lines| ==> lines[k] != [] && Trim(lines[k]) == lines[k]
  {
    if pieces == [] then []
    else
      var rest := NonEmptyTrimmed(pieces[1..]);
      var line := Trim(pieces[0]);
      TrimIdempotent(pieces[0]);
      if line == [] then rest else [line] + rest
  }

  /** `split_non_empty_lines`: split on '\n', trim, drop the empty lines. */
  function SplitNonEmptyLines(raw: string): (lines: seq<string>)
    ensures forall k :: 0 <= k < |lines| ==> lines[k] != [] && Trim(lines[k]) == lines[k]
  {
    NonEmptyTrimmed(Split(raw, '\n'))
  }

  /** Lines are kept in order and none is lost: each non-blank piece gives
      exactly one line. */
  lemma {:induction false} NonEmptyTrimmedCount(pieces: seq<string>)
    ensures |NonEmptyTrimmed(pieces)| == |FilterBlank(pieces)|
    ensures forall k :: 0 <= k < |FilterBlank(pieces)| ==> NonEmptyTrimmed(pieces)[k] == Trim(FilterBlank(pieces)[k])
  {
    if pieces != [] {
      var rest := pieces[1..];
      NonEmptyTrimmedCount(rest);
      var lines, kept := NonEmptyTrimmed(pieces), FilterBlank(pieces);
      var restLines, restKept := NonEmptyTrimmed(rest), FilterBlank(rest);
      if IsBlank(pieces[0]) {
        assert lines == restLines && kept == restKept;
      } else {
        assert lines == [Trim(pieces[0])] + restLines;
        assert kept == [pieces[0]] + restKept;
        forall k | 0 <= k < |kept|
          ensures lines[k] == Trim(kept[k])
        {
          if k > 0 {
            assert lines[k] == restLines[k - 1] && kept[k] == restKept[k - 1];
          }
        }
      }
    }
  }

  /** The pieces that are not blank, untrimmed. */
  function FilterBlank(pieces: seq<string>): (kept: seq<string>)
    ensures forall k :: 0 <= k < |kept| ==> !IsBlank(kept[k]) && kept[k] in pieces
  {
    if pieces == [] then []
    else if IsBlank(pieces[0]) then FilterBlank(pieces[1..])
    else [pieces[0]] + FilterBlank(pieces[1..])
  }

  /** `prefer_error_output`: trimmed stderr, else trimmed stdout, else a
      fixed "no output" text; never empty. */
  function PreferErrorOutput(capture: ProcessCapture): (text: string)
    ensures text != []
    ensures !IsBlank(capture.stderr) ==> text == Trim(capture.stderr)
    ensures IsBlank(capture.stderr) && !IsBlank(capture.stdout) ==> text == Trim(capture.stdout)
    ensures IsBlank(capture.stderr) && IsBlank(capture.stdout) ==> text == "无输出"
  {
    if !IsBlank(capture.stderr) then Trim(capture.stderr)
    else if !IsBlank(capture.stdout) then Trim(capture.stdout)
    else "无输出"
  }

  /** The command text recorded for a run: `"{command} {args joined}"`. */
  function CommandText(command: string, args: seq<string>): string {
    command + " " + Join(args, " ")
  }

  /** The chunks of `format_command_output`: the header "$ cmd args" with
      the exit code, then the trimmed stdout and the "[stderr]" block, each
      only when not blank. */
  function OutputChunks(command: string, args: seq<string>, capture: ProcessCapture): (chunks: seq<string>)
    ensures 1 <= |chunks| <= 3
    ensures chunks[0] == "$ " + CommandText(command, args) + "\nexit=" + IntToString(capture.exitCode)
    ensures |chunks| == 1 + (if IsBlank(capture.stdout) then 0 else 1) + (if IsBlank(capture.stderr) then 0 else 1)
    ensures !IsBlank(capture.stdout) ==> chunks[1] == Trim(capture.stdout)
    ensures !IsBlank(capture.stderr) ==> chunks[|chunks| - 1] == "[stderr]\n" + Trim(capture.stderr)
  {
    var header := "$ " + CommandText(command, args) + "\nexit=" + IntToString(capture.exitCode);
    var out := Trim(capture.stdout);
    var err := "[stderr]\n" + Trim(capture.stderr);
    if IsBlank(capture.stdout) && IsBlank(capture.stderr) then [header]
    else if IsBlank(capture.stdout) then [header, err]
    else if IsBlank(capture.stderr) then [header, out]
    else [header, out, err]
  }

  /** `format_command_output`: the chunks joined by a blank line. */
  function FormatCommandOutput(command: string, args: seq<string>, capture: ProcessCapture): string {
    Join(OutputChunks(command, args, capture), "\n\n")
  }

  /** A capture with nothing on either stream formats as its header alone. */
  lemma FormatQuietCapture(command: string, args: seq<string>, capture: ProcessCapture)
    requires IsBlank(capture.stdout) && IsBlank(capture.stderr)
    ensures FormatCommandOutput(command, args, capture)
              == "$ " + CommandText(command, args) + "\nexit=" + IntToString(capture.exitCode)
  {
  }

  // ---------------------------------------------------------------------
  // Recording and running a command

  /** One command as the deploy steps issue it. */
  datatype DeployCall = DeployCall(command: string, args: seq<string>, timeoutMs: nat, dir: Option<string>)

  /** What running each call gives: a capture, or the runner's error. */
  type Executor = DeployCall -> Result<ProcessCapture, string>

  /** `run_deploy_command`: record the command text, then run it. */
  method RunDeployCommand(call: DeployCall, exec: Executor, records: seq<string>)
    returns (records': seq<string>, r: Result<ProcessCapture, string>)
    ensures records' == records + [CommandText(call.command, call.args)]
    ensures r == exec(call)
  {
    records' := records + [CommandText(call.command, call.args)];
    r := exec(call);
  }

  /** `resolve_deploy_project_path`: the compose project path in compose
      mode, the build context otherwise, trimmed; blank is an error. */
  function ResolveDeployProjectPath(profile: DeployProfile): (r: Result<string, string>)
    ensures var chosen := if profile.mode == "compose" then profile.compose.projectPath
                          else profile.run.buildContext;
            (r.Ok? <==> !IsBlank(chosen))
            && (r.Ok? ==> r.value == Trim(chosen))
            && (r.Err? ==> r.error == "缺少项目目录配置。")
  {
    var value := if profile.mode == "compose" then Trim(profile.compose.projectPath)
                 else Trim(profile.run.buildContext);
    if value == [] then Err("缺少项目目录配置。") else Ok(value)
  }
}
