/** Tool detection: run a tool's version command, decide whether it is
    installed from the exit code and output, and fall back to path and
    service probes when the command cannot be started at all. */
module ToolsDetect {
  import opened Wrappers
  import opened Text
  import opened Contracts
  import opened ProcessRunner

  const ToolDetectTimeoutMs: nat := 1_500
  const AiToolDetectTimeoutMs: nat := 4_500

  const MissingCommandMessage: string := "未检测到该命令，可能未安装或未配置到系统环境变量"
  const PathFoundVersion: string := "通过路径检测到已安装"
  const ServiceFoundVersion: string := "通过服务检测到已安装"

  /** One entry of the tool table. */
  datatype ToolSpec = ToolSpec(name: string, command: string, category: string, args: seq<string>,
                               installKey: Option<string>)

  /** The outside world detection consults: the process runner, the
      Windows executable-path probe for "cmake.exe" and the Windows
      service probe by name pattern. */
  datatype DetectEnv = DetectEnv(exec: ProcessOracle, cmakePath: Option<string>,
                                 serviceByPattern: string -> Option<string>)

  // ---------------------------------------------------------------------
  // Text helpers

  /** The index of the first piece that `holds` rejects, or the length
      when it accepts every piece. */
  function FirstRejected(pieces: seq<string>, holds: string -> bool): (i: nat)
    ensures i <= |pieces|
    ensures i < |pieces| ==> !holds(pieces[i])
    ensures forall j :: 0 <= j < i ==> holds(pieces[j])
  {
    if pieces == [] || !holds(pieces[0]) then 0
    else
      var rest := pieces[1..];
      var k := FirstRejected(rest, holds);
      assert forall j :: 1 <= j <= k ==> pieces[j] == rest[j - 1];
      1 + k
  }

  /** The first piece that is not blank, trimmed. */
  function FirstNonBlank(pieces: seq<string>): (r: Option<string>)
    ensures r.None? <==> forall k :: 0 <= k < |pieces| ==> IsBlank(pieces[k])
    ensures r.Some? ==> r.value != [] && Trim(r.value) == r.value
    ensures r.Some? ==> exists k :: 0 <= k < |pieces| && r.value == Trim(pieces[k])
                                    && forall j :: 0 <= j < k ==> IsBlank(pieces[j])
  {
    var i := FirstRejected(pieces, IsBlank);
    if i == |pieces| then None
    else
      var line := pieces[i];
      assert !IsBlank(line);
      TrimIdempotent(line);
      Some(Trim(line))
  }

  /** `first_line`: the first line that is not empty once trimmed. */
  function FirstLine(raw: string): (r: Option<string>)
    ensures r.Some? ==> r.value != [] && Trim(r.value) == r.value
  {
    FirstNonBlank(Lines(raw))
  }

  /** `first_line` is None exactly when every line is blank, and otherwise
      it is the first non-blank line, trimmed. */
  lemma FirstLineIsFirstNonBlankLine(raw: string)
    ensures var lines := Lines(raw);
            (FirstLine(raw).None? <==> forall k :: 0 <= k < |lines| ==> IsBlank(lines[k]))
            && (FirstLine(raw).Some? ==>
                  exists k :: 0 <= k < |lines| && FirstLine(raw).value == Trim(lines[k])
                              && forall j :: 0 <= j < k ==> IsBlank(lines[j]))
  {
    var lines := Lines(raw);
    assert FirstLine(raw) == FirstNonBlank(lines);
  }

  /** `p` occurs in `s` whenever a text containing `p` does. */
  lemma ContainsInner(s: string, x: string, p: string, y: string)
    requires Contains(s, x + p + y)
    ensures Contains(s, p)
  {
    var w := x + p + y;
    var offset := |x|;
    assert forall k :: 0 <= k < |p| ==> p[k] == w[offset + k];
    var i :| OccursAt(s, w, i);
    assert forall k :: 0 <= k < |w| ==> s[i + k] == w[k] by {
      assert s[i..i + |w|] == w;
    }
    assert s[i + offset..i + offset + |p|] == p;
    assert OccursAt(s, p, i + offset);
  }

  /** The English markers; the longer two are built around the shorter. */
  const NotRecognized: string := "not recognized"
  const AsInternalCommand: string := " as an internal or external command"

  /** `is_missing_command_detail`: the Windows messages verbatim, the
      English ones in any letter case. */
  predicate IsMissingCommandDetail(detail: string) {
    var lowered := ToLower(detail);
    Contains(detail, "不是内部或外部命令")
    || Contains(detail, "系统找不到指定的文件")
    || Contains(lowered, NotRecognized + AsInternalCommand)
    || Contains(lowered, "is " + NotRecognized)
    || Contains(lowered, "command not found")
    || Contains(lowered, "no such file or directory")
  }

  /** The test detection applies to an error text: the missing-command
      markers, and also a bare "not recognized". */
  predicate IsCommandNotFound(text: string) {
    IsMissingCommandDetail(text)
    || Contains(text, "不是内部或外部命令")
    || Contains(text, "系统找不到指定的文件")
    || Contains(ToLower(text), NotRecognized)
    || Contains(ToLower(text), "command not found")
  }

  /** The detection test adds exactly one marker to the helper's: the
      longer English markers all contain "not recognized", so the test is
      the helper or a bare "not recognized". */
  lemma CommandNotFoundIsMissingOrNotRecognized(text: string)
    ensures IsCommandNotFound(text) <==> IsMissingCommandDetail(text) || Contains(ToLower(text), NotRecognized)
    ensures IsMissingCommandDetail(text) ==> IsCommandNotFound(text)
  {
    var lowered := ToLower(text);
    if Contains(lowered, NotRecognized + AsInternalCommand) {
      assert [] + NotRecognized + AsInternalCommand == NotRecognized + AsInternalCommand;
      ContainsInner(lowered, [], NotRecognized, AsInternalCommand);
    }
    if Contains(lowered, "is " + NotRecognized) {
      assert "is " + NotRecognized + [] == "is " + NotRecognized;
      ContainsInner(lowered, "is ", NotRecognized, []);
    }
  }

  // ---------------------------------------------------------------------
  // The main detection

  /** The probe timeout: longer for the AI tools. */
  function DetectTimeout(category: string): (t: nat)
    ensures t == (if category == "AI" then AiToolDetectTimeoutMs else ToolDetectTimeoutMs)
    ensures ToolDetectTimeoutMs <= t <= AiToolDetectTimeoutMs
  {
    if category == "AI" then AiToolDetectTimeoutMs else ToolDetectTimeoutMs
  }

  /** The output detection reads: stdout, or stderr when stdout is empty. */
  function RawOutput(output: ProcessCapture): string {
    if output.stdout != [] then output.stdout else output.stderr
  }

  /** The installed decision: a clean exit, or a run cut off at the time
      limit that had already printed a line. */
  predicate IsInstalled(output: ProcessCapture) {
    output.exitCode == 0 || (output.exitCode == TimeoutExitCode && FirstLine(RawOutput(output)).Some?)
  }

  /** Why a tool whose command ran is not installed. */
  function FailureDetails(output: ProcessCapture): (d: string)
    ensures IsCommandNotFound(output.stderr) ==> d == MissingCommandMessage
    ensures !IsCommandNotFound(output.stderr) && output.stderr != [] ==>
              d == "返回码 " + IntToString(output.exitCode) + "，" + output.stderr
    ensures !IsCommandNotFound(output.stderr) && output.stderr == [] ==>
              d == "命令执行失败（返回码 " + IntToString(output.exitCode) + "）"
  {
    if IsCommandNotFound(output.stderr) then MissingCommandMessage
    else if output.stderr != [] then "返回码 " + IntToString(output.exitCode) + "，" + output.stderr
    else "命令执行失败（返回码 " + IntToString(output.exitCode) + "）"
  }

  /** `resolve_tool_path`: the first line `where` prints, if it exits 0. */
  function ResolveToolPath(command: string, exec: ProcessOracle): (r: Option<string>)
    ensures r.Some? ==> exec("where", [command], ToolDetectTimeoutMs).Ok?
                        && exec("where", [command], ToolDetectTimeoutMs).value.exitCode == 0
                        && r == FirstLine(exec("where", [command], ToolDetectTimeoutMs).value.stdout)
  {
    match exec("where", [command], ToolDetectTimeoutMs)
    case Err(_) => None
    case Ok(result) => if result.exitCode != 0 then None else FirstLine(result.stdout)
  }

  /** The status of a tool whose command ran. */
  function Detected(spec: ToolSpec, output: ProcessCapture, exec: ProcessOracle): ToolStatus {
    var installed := IsInstalled(output);
    ToolStatus(spec.name, spec.command, spec.category, installed,
               if installed then FirstLine(RawOutput(output)) else None,
               if installed then None else Some(FailureDetails(output)),
               spec.installKey,
               if installed then ResolveToolPath(spec.command, exec) else None)
  }

  // ---------------------------------------------------------------------
  // The fallback when the command cannot be started

  /** `detect_tool_version_from_path`: the first line the found binary
      prints with the tool's own arguments. */
  function VersionFromPath(path: string, args: seq<string>, exec: ProcessOracle): Option<string> {
    match exec(path, args, ToolDetectTimeoutMs)
    case Err(_) => None
    case Ok(output) => FirstLine(if output.stdout == [] then output.stderr else output.stdout)
  }

  /** A tool found by a service probe. */
  function FoundByService(spec: ToolSpec, service: string, exec: ProcessOracle): ToolStatus {
    ToolStatus(spec.name, spec.command, spec.category, true, Some(ServiceFoundVersion),
               Some("检测到服务：" + service), spec.installKey, ResolveToolPath(spec.command, exec))
  }

  /** `detect_tool_with_fallback`: cmake is looked for on disk, mysql and
      postgresql among the services; anything else, or a probe that finds
      nothing, is reported not installed with the spawn error explained. */
  function Fallback(spec: ToolSpec, error: string, env: DetectEnv): (s: ToolStatus)
    ensures s.name == spec.name && s.command == spec.command && s.category == spec.category
    ensures s.installKey == spec.installKey
  {
    var installKey := if spec.installKey.Some? then spec.installKey.value else "";
    if installKey == "cmake" && env.cmakePath.Some? then
      var path := env.cmakePath.value;
      var version := VersionFromPath(path, spec.args, env.exec);
      ToolStatus(spec.name, spec.command, spec.category, true,
                 if version.Some? then version else Some(PathFoundVersion),
                 Some("检测路径：" + path), spec.installKey, Some(path))
    else if installKey == "mysql" && env.serviceByPattern("*mysql*").Some? then
      FoundByService(spec, env.serviceByPattern("*mysql*").value, env.exec)
    else if installKey == "postgresql" && env.serviceByPattern("*postgres*").Some? then
      FoundByService(spec, env.serviceByPattern("*postgres*").value, env.exec)
    else
      ToolStatus(spec.name, spec.command, spec.category, false, None,
                 Some(if IsCommandNotFound(error) then MissingCommandMessage else error),
                 spec.installKey, None)
  }

  /** `detect_tool`. */
  function DetectTool(spec: ToolSpec, env: DetectEnv): (s: ToolStatus)
    ensures s.name == spec.name && s.command == spec.command && s.category == spec.category
    ensures s.installKey == spec.installKey
    ensures var run := env.exec(spec.command, spec.args, DetectTimeout(spec.category));
            (run.Ok? ==> s == Detected(spec, run.value, env.exec))
            && (run.Err? ==> s == Fallback(spec, run.error, env))
  {
    match env.exec(spec.command, spec.args, DetectTimeout(spec.category))
    case Ok(output) => Detected(spec, output, env.exec)
    case Err(error) => Fallback(spec, error, env)
  }

  // ---------------------------------------------------------------------
  // Properties

  /** When the command ran, the tool is installed exactly on a clean exit
      or on a run cut off at the time limit whose output (stdout, or
      stderr when stdout is empty) has a non-blank line. */
  lemma DetectedInstalledIff(spec: ToolSpec, output: ProcessCapture, exec: ProcessOracle)
    ensures var raw := if output.stdout != [] then output.stdout else output.stderr;
            (Detected(spec, output, exec).installed <==>
               output.exitCode == 0
               || (output.exitCode == TimeoutExitCode
                   && exists k :: 0 <= k < |Lines(raw)| && !IsBlank(Lines(raw)[k])))
  {
    FirstLineIsFirstNonBlankLine(RawOutput(output));
  }

  /** When the command ran, details are given exactly when the tool is not
      installed; an installed tool reports the first output line as its
      version and the `where` answer as its path, a missing one neither. */
  lemma DetectedFields(spec: ToolSpec, output: ProcessCapture, exec: ProcessOracle)
    ensures var s := Detected(spec, output, exec);
            (s.details.None? <==> s.installed)
            && (s.installed ==> s.version == FirstLine(RawOutput(output))
                                && s.installPath == ResolveToolPath(spec.command, exec))
            && (!s.installed ==> s.version.None? && s.installPath.None? && s.details == Some(FailureDetails(output)))
  {
  }

  /** A tool that timed out is installed exactly when it printed a
      non-blank line, and then that line is its version. */
  lemma TimedOutNeedsOutput(spec: ToolSpec, output: ProcessCapture, exec: ProcessOracle)
    requires output.exitCode == TimeoutExitCode
    ensures var s := Detected(spec, output, exec);
            (s.installed <==> s.version.Some?)
            && (s.installed ==> s.version == FirstLine(RawOutput(output)) && s.version.value != [])
  {
  }

  /** Whatever path detection takes, a tool reported not installed has no
      version and no path but has details, and a reported version is never
      blank. */
  lemma NotInstalledHasOnlyDetails(spec: ToolSpec, env: DetectEnv)
    ensures var s := DetectTool(spec, env);
            (!s.installed ==> s.version.None? && s.installPath.None? && s.details.Some?)
            && (s.version.Some? ==> s.version.value != [])
  {
    match env.exec(spec.command, spec.args, DetectTimeout(spec.category))
    case Ok(output) =>
    case Err(error) =>
      var installKey := if spec.installKey.Some? then spec.installKey.value else "";
      if installKey == "cmake" && env.cmakePath.Some? {
        assert PathFoundVersion != [];
      } else {
        assert ServiceFoundVersion != [];
      }
  }

  /** When the command cannot be started the tool counts as installed only
      if its install key is cmake, mysql or postgresql and the matching
      probe found it; otherwise the details are the missing-command message
      or the spawn error itself. */
  lemma SpawnFailureFallback(spec: ToolSpec, env: DetectEnv)
    requires env.exec(spec.command, spec.args, DetectTimeout(spec.category)).Err?
    ensures var error := env.exec(spec.command, spec.args, DetectTimeout(spec.category)).error;
            var s := DetectTool(spec, env);
            var key := if spec.installKey.Some? then spec.installKey.value else "";
            (s.installed <==> (key == "cmake" && env.cmakePath.Some?)
                              || (key == "mysql" && env.serviceByPattern("*mysql*").Some?)
                              || (key == "postgresql" && env.serviceByPattern("*postgres*").Some?))
            && (key == "cmake" && env.cmakePath.Some? ==> s.installPath == env.cmakePath && s.version.Some?)
            && (!s.installed ==> s.installPath.None?
                                 && s.details == Some(if IsCommandNotFound(error) then MissingCommandMessage else error))
  {
  }
}
