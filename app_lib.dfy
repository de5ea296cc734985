/** The older monolithic entry point: its response envelope, its own
    Docker argument table, the mapping of a finished command to text, and
    its winget-only install over its own, smaller item table. Each differs
    in small ways from the newer modules, and the lemmas here say exactly
    where. */
module AppLib {
  import opened Wrappers
  import opened Text
  import opened Contracts
  import opened ProcessRunner
  import opened DeployUtils
  import DockerActions
  import Install

  // ---------------------------------------------------------------------
  // The response envelope

  /** `with_timing`, with the measured time as a parameter. */
  function WithTiming<T>(result: Result<T, string>, elapsedMs: nat): (resp: CommandResponse<T>)
    ensures resp.ok <==> result.Ok?
    ensures resp.ok <==> resp.data.Some?
    ensures resp.ok <==> resp.error.None?
    ensures resp.elapsedMs == elapsedMs
  {
    match result
    case Ok(data) => CommandResponse(true, Some(data), None, elapsedMs)
    case Err(error) => CommandResponse(false, None, Some(error), elapsedMs)
  }

  /** What a response says happened. */
  function ResponseResult<T>(resp: CommandResponse<T>): Result<T, string>
    requires resp.ok <==> resp.data.Some?
    requires resp.ok <==> resp.error.None?
  {
    if resp.ok then Ok(resp.data.value) else Err(resp.error.value)
  }

  /** The envelope loses nothing: the result can be read back from it. */
  lemma WithTimingRoundTrip<T>(result: Result<T, string>, elapsedMs: nat)
    ensures ResponseResult(WithTiming(result, elapsedMs)) == result
  {
  }

  // ---------------------------------------------------------------------
  // Docker

  const LegacyUnsafeTargetError: string := "容器标识不合法，仅允许字母、数字、点、下划线、中划线"

  /** The actions this table takes with a target. */
  predicate IsLegacyTargetAction(action: string) {
    action == "start" || action == "stop" || action == "restart" || action == "logs"
  }

  /** This module's `build_docker_args`: the same overview actions, but only
      start, stop, restart and logs on a target. */
  function LegacyBuildDockerArgs(action: string, target: Option<string>): (r: Result<seq<string>, string>)
    ensures r.Ok? <==> DockerActions.IsOverviewAction(action)
                       || (IsLegacyTargetAction(action) && target.Some? && IsSafeIdentifier(target.value))
    ensures IsLegacyTargetAction(action) && target.None? ==> r == Err("动作 " + action + " 需要提供容器名称或 ID")
    ensures IsLegacyTargetAction(action) && target.Some? && !IsSafeIdentifier(target.value) ==> r == Err(LegacyUnsafeTargetError)
    ensures !DockerActions.IsOverviewAction(action) && !IsLegacyTargetAction(action) ==> r == Err("未支持的 Docker 动作: " + action)
  {
    if DockerActions.IsOverviewAction(action) then Ok(DockerActions.OverviewArgs(action))
    else if IsLegacyTargetAction(action) then
      match target
      case None => Err("动作 " + action + " 需要提供容器名称或 ID")
      case Some(t) =>
        if !IsSafeIdentifier(t) then Err(LegacyUnsafeTargetError)
        else if action == "logs" then Ok(["logs", "--tail", "200", t])
        else Ok([action, t])
    else Err("未支持的 Docker 动作: " + action)
  }

  /** Where the two Docker tables agree and differ: on every action this
      one accepts the arguments are the same; run, rm and rmi are refused
      here; the unsafe-target message differs only in its comma. */
  lemma LegacyDockerArgsAgree(action: string, target: Option<string>, nowMs: nat)
    ensures LegacyBuildDockerArgs(action, target).Ok? ==>
              LegacyBuildDockerArgs(action, target) == DockerActions.BuildDockerArgs(action, target, nowMs)
    ensures action in ["run", "rm", "rmi"] ==>
              LegacyBuildDockerArgs(action, target) == Err("未支持的 Docker 动作: " + action)
    ensures LegacyBuildDockerArgs(action, target).Err? && !(action in ["run", "rm", "rmi"]) ==>
              DockerActions.BuildDockerArgs(action, target, nowMs).Err?
  {
  }

  /** `is_safe_identifier` here is the deploy validator: non-empty, at most
      128 characters, each an ASCII letter or digit or one of . _ -. */
  lemma SafeIdentifierMeaning(value: string)
    ensures IsSafeIdentifier(value) <==>
              value != [] && |value| <= 128
              && forall i :: 0 <= i < |value| ==>
                   (('a' <= value[i] <= 'z') || ('A' <= value[i] <= 'Z') || ('0' <= value[i] <= '9')
                    || value[i] == '.' || value[i] == '_' || value[i] == '-')
  {
  }

  // ---------------------------------------------------------------------
  // Running a command without a time limit

  /** A finished command as this module sees it: decoded, trimmed output
      and the exit code, absent when the process was ended by a signal. */
  datatype LegacyOutput = LegacyOutput(stdout: string, stderr: string, code: Option<int>)

  /** Starting a command and waiting for it: the output, or the error that
      kept it from starting. */
  type LegacyRunner = (string, seq<string>) -> Result<LegacyOutput, string>

  /** Rust's debug text of an optional exit code. */
  function DebugCode(code: Option<int>): string {
    match code
    case Some(c) => "Some(" + IntToString(c) + ")"
    case None => "None"
  }

  /** `run_command`'s reading of a finished command: on success stdout, or
      stderr when stdout is empty; on failure an error with the debug code
      and stderr, or stdout when stderr is empty. */
  function RunCommandText(output: Result<LegacyOutput, string>): (r: Result<string, string>)
    ensures output.Err? ==> r == Err(output.error)
    ensures output.Ok? ==> (r.Ok? <==> output.value.code == Some(0))
    ensures r.Ok? ==> r.value == (if output.value.stdout == [] then output.value.stderr else output.value.stdout)
    ensures r.Err? && output.Ok? ==>
              r.error == "执行命令失败（返回码 " + DebugCode(output.value.code) + "）："
                         + (if output.value.stderr == [] then output.value.stdout else output.value.stderr)
  {
    match output
    case Err(e) => Err(e)
    case Ok(o) =>
      if o.code == Some(0) then Ok(if o.stdout == [] then o.stderr else o.stdout)
      else
        Err("执行命令失败（返回码 " + DebugCode(o.code) + "）：" + (if o.stderr == [] then o.stdout else o.stderr))
  }

  /** `execute_process`: a missing exit code is reported as -1. */
  function ExecuteProcess(output: Result<LegacyOutput, string>): (r: Result<ProcessCapture, string>)
    ensures output.Err? ==> r == Err(output.error)
    ensures output.Ok? ==> r.Ok? && r.value.stdout == output.value.stdout && r.value.stderr == output.value.stderr
    ensures output.Ok? ==> r.value.exitCode == (if output.value.code.Some? then output.value.code.value else -1)
  {
    var o :- output;
    Ok(ProcessCapture(o.stdout, o.stderr, if o.code.Some? then o.code.value else -1))
  }

  /** The two readings of a finished command agree on whether it succeeded
      and on the text of a success; only the failure text differs, in how
      it prints the code. */
  lemma RunCommandAgreesWithRunner(output: Result<LegacyOutput, string>)
    ensures RunCommandText(output).Ok? <==> CaptureText(ExecuteProcess(output)).Ok?
    ensures RunCommandText(output).Ok? ==> RunCommandText(output) == CaptureText(ExecuteProcess(output))
    ensures output.Err? ==> RunCommandText(output) == CaptureText(ExecuteProcess(output))
  {
  }

  /** This module's `execute_docker_action`: no time limit. */
  function LegacyExecuteDockerAction(action: string, target: Option<string>, run: LegacyRunner)
    : (r: Result<DockerCommandResult, string>)
    ensures LegacyBuildDockerArgs(action, target).Err? ==> r == Err(LegacyBuildDockerArgs(action, target).error)
    ensures r.Ok? ==> r.value.action == action
                      && r.value.command == DockerActions.DockerCommandText(LegacyBuildDockerArgs(action, target).value)
  {
    var args :- LegacyBuildDockerArgs(action, target);
    var capture :- ExecuteProcess(run("docker", args));
    Ok(DockerCommandResult(action, DockerActions.DockerCommandText(args), capture.stdout, capture.stderr, capture.exitCode))
  }

  // ---------------------------------------------------------------------
  // Installing with winget only

  /** This module's own `install_specs`: the winget items only, without
      the npm-only coding assistants of the newer table. */
  const LegacyInstallSpecs: seq<Install.InstallSpec> := [
    Install.InstallSpec("nodejs-lts", "OpenJS.NodeJS.LTS"),
    Install.InstallSpec("pnpm", "pnpm.pnpm"),
    Install.InstallSpec("yarn", "Yarn.Yarn"),
    Install.InstallSpec("bun", "Oven-sh.Bun"),
    Install.InstallSpec("deno", "DenoLand.Deno"),
    Install.InstallSpec("python", "Python.Python.3.12"),
    Install.InstallSpec("pipx", "pipx.pipx"),
    Install.InstallSpec("uv", "astral-sh.uv"),
    Install.InstallSpec("miniconda", "Anaconda.Miniconda3"),
    Install.InstallSpec("go", "GoLang.Go"),
    Install.InstallSpec("openjdk", "Microsoft.OpenJDK.21"),
    Install.InstallSpec("maven", "Apache.Maven"),
    Install.InstallSpec("gradle", "Gradle.Gradle"),
    Install.InstallSpec("rustup", "Rustlang.Rustup"),
    Install.InstallSpec("git", "Git.Git"),
    Install.InstallSpec("gh", "GitHub.cli"),
    Install.InstallSpec("docker-desktop", "Docker.DockerDesktop"),
    Install.InstallSpec("kubectl", "Kubernetes.kubectl"),
    Install.InstallSpec("helm", "Helm.Helm"),
    Install.InstallSpec("terraform", "Hashicorp.Terraform"),
    Install.InstallSpec("dotnet-sdk", "Microsoft.DotNet.SDK.8"),
    Install.InstallSpec("powershell", "Microsoft.PowerShell"),
    Install.InstallSpec("vscode", "Microsoft.VisualStudioCode"),
    Install.InstallSpec("aws-cli", "Amazon.AWSCLI"),
    Install.InstallSpec("azure-cli", "Microsoft.AzureCLI"),
    Install.InstallSpec("gcloud-cli", "Google.CloudSDK"),
    Install.InstallSpec("flutter", "Flutter.Flutter"),
    Install.InstallSpec("dart", "DartSDK.Dart"),
    Install.InstallSpec("android-platform-tools", "Google.AndroidPlatformTools"),
    Install.InstallSpec("android-studio", "Google.AndroidStudio"),
    Install.InstallSpec("cmake", "Kitware.CMake"),
    Install.InstallSpec("sqlite", "SQLite.SQLite"),
    Install.InstallSpec("postgresql", "PostgreSQL.PostgreSQL"),
    Install.InstallSpec("mysql", "Oracle.MySQL"),
    Install.InstallSpec("mongodb-shell", "MongoDB.Shell"),
    Install.InstallSpec("redis", "Redis.Redis")
  ]

  /** The legacy table is the newer table without its last three entries,
      the items the newer module installs with npm alone. */
  lemma LegacyTableIsWingetPrefix()
    ensures |Install.InstallSpecs| == |LegacyInstallSpecs| + 3
    ensures LegacyInstallSpecs == Install.InstallSpecs[..|LegacyInstallSpecs|]
    ensures forall i :: |LegacyInstallSpecs| <= i < |Install.InstallSpecs| ==>
              Install.NodePackageName(Install.InstallSpecs[i].key).Some?
  {
  }

  /** The entry of an item key in this module's table. */
  function LegacyFindSpec(key: string): (r: Option<Install.InstallSpec>)
    ensures r.None? <==> forall i :: 0 <= i < |LegacyInstallSpecs| ==> LegacyInstallSpecs[i].key != key
    ensures r.Some? ==> r.value.key == key && r.value in LegacyInstallSpecs
  {
    Install.FindSpecIn(LegacyInstallSpecs, key)
  }

  /** What this module's `execute_install_item` reports. */
  function LegacyInstallResult(key: string, installPath: Option<string>, run: LegacyRunner): Result<InstallResult, string> {
    var spec :- (if LegacyFindSpec(key).Some? then Ok(LegacyFindSpec(key).value) else Err("未找到可安装项：" + key));
    var _ :- (if RunCommandText(run("winget", ["--version"])).Ok? then Ok(()) else Err(Install.WingetMissingError));
    var args := Install.WingetInstallArgs(spec.packageId, installPath);
    var capture :- ExecuteProcess(run("winget", args));
    Ok(InstallResult(key, spec.packageId, "winget " + Join(args, " "), capture.stdout, capture.stderr, capture.exitCode))
  }

  /** This module's `execute_install_item`: look the item up, require
      winget, build the arguments, pushing the location when a non-blank
      path is given, and run them. */
  method ExecuteInstallItem(key: string, installPath: Option<string>, run: LegacyRunner)
    returns (r: Result<InstallResult, string>)
    ensures r == LegacyInstallResult(key, installPath, run)
  {
    var spec := LegacyFindSpec(key);
    if spec.None? {
      return Err("未找到可安装项：" + key);
    }
    if RunCommandText(run("winget", ["--version"])).Err? {
      return Err(Install.WingetMissingError);
    }
    var args := LegacyWingetArgs(spec.value.packageId, installPath);
    var capture := ExecuteProcess(run("winget", args));
    if capture.Err? {
      return Err(capture.error);
    }
    r := Ok(InstallResult(key, spec.value.packageId, "winget " + Join(args, " "),
                          capture.value.stdout, capture.value.stderr, capture.value.exitCode));
  }

  /** The install arguments, pushing "--location" and the trimmed path
      when a non-blank path is given. */
  method LegacyWingetArgs(packageId: string, installPath: Option<string>) returns (args: seq<string>)
    ensures args == Install.WingetInstallArgs(packageId, installPath)
  {
    args := ["install", "--id", packageId, "--exact", "--silent",
             "--accept-source-agreements", "--accept-package-agreements"];
    ghost var base := Install.WingetInstallBase(packageId);
    assert args == base;
    if installPath.Some? {
      var path := Trim(installPath.value);
      if path != [] {
        args := args + ["--location"];
        args := args + [path];
        assert args == base + ["--location", path];
      }
    }
  }

  /** The older install refuses unknown items first and then a machine
      without winget; a reported install ran winget with the install
      arguments, carrying "--location" and the trimmed path exactly when a
      non-blank path was given. */
  lemma LegacyInstallShape(key: string, installPath: Option<string>, run: LegacyRunner)
    ensures LegacyFindSpec(key).None? ==> LegacyInstallResult(key, installPath, run) == Err("未找到可安装项：" + key)
    ensures LegacyFindSpec(key).Some? && RunCommandText(run("winget", ["--version"])).Err? ==>
              LegacyInstallResult(key, installPath, run) == Err(Install.WingetMissingError)
    ensures LegacyInstallResult(key, installPath, run).Ok? ==>
              var args := Install.WingetInstallArgs(LegacyFindSpec(key).value.packageId, installPath);
              LegacyInstallResult(key, installPath, run).value.command == "winget " + Join(args, " ")
              && ("--location" in args[7..] <==> installPath.Some? && !IsBlank(installPath.value))
  {
    if LegacyInstallResult(key, installPath, run).Ok? {
      Install.WingetLocationIffPath(LegacyFindSpec(key).value.packageId, installPath);
    }
  }

  /** None of the coding assistants is in this module's table. */
  lemma LegacyLacksClaudeCode()
    ensures LegacyFindSpec("claude-code").None?
  {
    assert forall i :: 0 <= i < |LegacyInstallSpecs| ==> LegacyInstallSpecs[i].key != "claude-code";
  }

  lemma LegacyLacksCodexCli()
    ensures LegacyFindSpec("codex-cli").None?
  {
    assert forall i :: 0 <= i < |LegacyInstallSpecs| ==> LegacyInstallSpecs[i].key != "codex-cli";
  }

  lemma LegacyLacksGeminiCli()
    ensures LegacyFindSpec("gemini-cli").None?
  {
    assert forall i :: 0 <= i < |LegacyInstallSpecs| ==> LegacyInstallSpecs[i].key != "gemini-cli";
  }

  /** The coding assistants the newer module installs with npm. */
  predicate NpmOnlyItem(key: string) {
    key == "claude-code" || key == "codex-cli" || key == "gemini-cli"
  }

  /** The newer table knows the coding assistants and installs them with
      npm. */
  lemma NpmOnlyItemsAreNewerItems(key: string)
    requires NpmOnlyItem(key)
    ensures Install.FindSpec(key).Some? && Install.NodePackageName(key).Some?
  {
    if key == "claude-code" {
      assert Install.InstallSpecs[36].key == key;
    } else if key == "codex-cli" {
      assert Install.InstallSpecs[37].key == key;
    } else {
      assert Install.InstallSpecs[38].key == key;
    }
  }

  /** The coding assistants are not in this module's table. */
  lemma LegacyLacksNpmOnlyItems(key: string)
    requires NpmOnlyItem(key)
    ensures LegacyFindSpec(key).None?
  {
    if key == "claude-code" {
      LegacyLacksClaudeCode();
    } else if key == "codex-cli" {
      LegacyLacksCodexCli();
    } else {
      LegacyLacksGeminiCli();
    }
  }

  /** So the older install refuses the coding assistants as unknown items
      before it looks for winget. */
  lemma LegacyRefusesNpmOnlyItems(key: string, installPath: Option<string>, run: LegacyRunner)
    requires NpmOnlyItem(key)
    ensures LegacyInstallResult(key, installPath, run) == Err("未找到可安装项：" + key)
  {
    LegacyLacksNpmOnlyItems(key);
  }
}
