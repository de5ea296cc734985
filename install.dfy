/** Installing and uninstalling market items: look the item up in the
    install table, choose how to install it (a global npm package, the
    direct Python installer, or winget), run the plan and report it. */
module Install {
  import opened Wrappers
  import opened Text
  import opened Contracts
  import opened ProcessRunner

  const WingetInstallTimeoutMs: nat := 20 * 60 * 1_000
  const WingetProbeTimeoutMs: nat := 1_500

  const WingetMissingError: string := "未检测到 winget，请先安装 App Installer"
  const NpmMissingError: string := "未找到 npm 命令。请确认安装的是官方 Node.js（含 npm），并重启应用后重试。"
  const DefaultPythonDir: string := "C:\\Python312"
  const PythonPackageId: string := "Python.Python.3.12"

  /** An installable item and its winget package id. */
  datatype InstallSpec = InstallSpec(key: string, packageId: string)

  /** What to run to install or uninstall an item. */
  datatype InstallPlan = InstallPlan(command: string, args: seq<string>, packageId: string)

  /** `install_specs`. */
  const InstallSpecs: seq<InstallSpec> := [
    InstallSpec("nodejs-lts", "OpenJS.NodeJS.LTS"),
    InstallSpec("pnpm", "pnpm.pnpm"),
    InstallSpec("yarn", "Yarn.Yarn"),
    InstallSpec("bun", "Oven-sh.Bun"),
    InstallSpec("deno", "DenoLand.Deno"),
    InstallSpec("python", "Python.Python.3.12"),
    InstallSpec("pipx", "pipx.pipx"),
    InstallSpec("uv", "astral-sh.uv"),
    InstallSpec("miniconda", "Anaconda.Miniconda3"),
    InstallSpec("go", "GoLang.Go"),
    InstallSpec("openjdk", "Microsoft.OpenJDK.21"),
    InstallSpec("maven", "Apache.Maven"),
    InstallSpec("gradle", "Gradle.Gradle"),
    InstallSpec("rustup", "Rustlang.Rustup"),
    InstallSpec("git", "Git.Git"),
    InstallSpec("gh", "GitHub.cli"),
    InstallSpec("docker-desktop", "Docker.DockerDesktop"),
    InstallSpec("kubectl", "Kubernetes.kubectl"),
    InstallSpec("helm", "Helm.Helm"),
    InstallSpec("terraform", "Hashicorp.Terraform"),
    InstallSpec("dotnet-sdk", "Microsoft.DotNet.SDK.8"),
    InstallSpec("powershell", "Microsoft.PowerShell"),
    InstallSpec("vscode", "Microsoft.VisualStudioCode"),
    InstallSpec("aws-cli", "Amazon.AWSCLI"),
    InstallSpec("azure-cli", "Microsoft.AzureCLI"),
    InstallSpec("gcloud-cli", "Google.CloudSDK"),
    InstallSpec("flutter", "Flutter.Flutter"),
    InstallSpec("dart", "DartSDK.Dart"),
    InstallSpec("android-platform-tools", "Google.AndroidPlatformTools"),
    InstallSpec("android-studio", "Google.AndroidStudio"),
    InstallSpec("cmake", "Kitware.CMake"),
    InstallSpec("sqlite", "SQLite.SQLite"),
    InstallSpec("postgresql", "PostgreSQL.PostgreSQL"),
    InstallSpec("mysql", "Oracle.MySQL"),
    InstallSpec("mongodb-shell", "MongoDB.Shell"),
    InstallSpec("redis", "Redis.Redis"),
    InstallSpec("claude-code", "@anthropic-ai/claude-code"),
    InstallSpec("codex-cli", "@openai/codex"),
    InstallSpec("gemini-cli", "@google/gemini-cli")
  ]

  // ---------------------------------------------------------------------
  // Looking an item up

  /** The first entry of `specs` with the given key. */
  function FindSpecIn(specs: seq<InstallSpec>, key: string): (r: Option<InstallSpec>)
    ensures r.None? <==> forall i :: 0 <= i < |specs| ==> specs[i].key != key
    ensures r.Some? ==> r.value.key == key && r.value in specs
  {
    if specs == [] then None
    else if specs[0].key == key then Some(specs[0])
    else FindSpecIn(specs[1..], key)
  }

  /** The install-table entry of an item key. */
  function FindSpec(key: string): (r: Option<InstallSpec>)
    ensures r.None? <==> forall i :: 0 <= i < |InstallSpecs| ==> InstallSpecs[i].key != key
    ensures r.Some? ==> r.value.key == key && r.value in InstallSpecs
  {
    FindSpecIn(InstallSpecs, key)
  }

  // ---------------------------------------------------------------------
  // Plans

  /** `node_package_name`: the npm package of the items installed with npm. */
  function NodePackageName(key: string): (r: Option<string>)
    ensures r.Some? <==> key in ["pnpm", "yarn", "claude-code", "codex-cli", "gemini-cli"]
    ensures r.Some? ==> r.value != []
  {
    match key
    case "pnpm" => Some("pnpm")
    case "yarn" => Some("yarn")
    case "claude-code" => Some("@anthropic-ai/claude-code")
    case "codex-cli" => Some("@openai/codex")
    case "gemini-cli" => Some("@google/gemini-cli")
    case _ => None
  }

  /** `build_npm_global_install_plan`. */
  function NpmGlobalInstallPlan(npmPackage: string): InstallPlan {
    InstallPlan("npm", ["install", "-g", npmPackage], "npm:" + npmPackage)
  }

  /** The directory the Python installer targets: the trimmed path, or the
      default when the path is absent or blank. */
  function PythonInstallDir(installPath: Option<string>): (dir: string)
    ensures dir != []
    ensures installPath.None? || IsBlank(installPath.value) ==> dir == DefaultPythonDir
    ensures installPath.Some? && !IsBlank(installPath.value) ==> dir == Trim(installPath.value)
  {
    if installPath.Some? && Trim(installPath.value) != [] then Trim(installPath.value) else DefaultPythonDir
  }

  /** `build_python_direct_install_plan`; `script` is the PowerShell
      download-and-install script written for a target directory. */
  function PythonDirectInstallPlan(installPath: Option<string>, script: string -> string): InstallPlan {
    InstallPlan("powershell",
                ["-NoProfile", "-ExecutionPolicy", "Bypass", "-WindowStyle", "Hidden", "-Command",
                 script(PythonInstallDir(installPath))],
                PythonPackageId)
  }

  /** The fixed part of a winget install command line. */
  function WingetInstallBase(packageId: string): seq<string> {
    ["install", "--id", packageId, "--exact", "--silent", "--accept-source-agreements", "--accept-package-agreements"]
  }

  /** The winget install arguments: the fixed part, then the location when
      a non-blank path is given. */
  function WingetInstallArgs(packageId: string, installPath: Option<string>): seq<string> {
    if installPath.Some? && Trim(installPath.value) != [] then
      WingetInstallBase(packageId) + ["--location", Trim(installPath.value)]
    else WingetInstallBase(packageId)
  }

  /** The winget probe: `winget --version` runs and exits 0. */
  predicate WingetAvailable(exec: ProcessOracle) {
    CaptureText(exec("winget", ["--version"], WingetProbeTimeoutMs)).Ok?
  }

  /** The plan `resolve_install_plan` chooses. */
  function InstallPlanFor(key: string, packageId: string, installPath: Option<string>,
                          exec: ProcessOracle, script: string -> string): Result<InstallPlan, string>
  {
    if NodePackageName(key).Some? then Ok(NpmGlobalInstallPlan(NodePackageName(key).value))
    else if key == "python" then Ok(PythonDirectInstallPlan(installPath, script))
    else if WingetAvailable(exec) then Ok(InstallPlan("winget", WingetInstallArgs(packageId, installPath), packageId))
    else Err(WingetMissingError)
  }

  /** `resolve_install_plan`: npm items first, then Python, and only then
      the winget probe; the winget arguments grow by the location when a
      non-blank path is given. */
  method ResolveInstallPlan(key: string, packageId: string, installPath: Option<string>,
                            exec: ProcessOracle, script: string -> string)
    returns (r: Result<InstallPlan, string>)
    ensures r == InstallPlanFor(key, packageId, installPath, exec, script)
  {
    var nodePackage := NodePackageName(key);
    if nodePackage.Some? {
      return Ok(NpmGlobalInstallPlan(nodePackage.value));
    }
    if key == "python" {
      return Ok(PythonDirectInstallPlan(installPath, script));
    }
    var wingetAvailable := CaptureText(exec("winget", ["--version"], WingetProbeTimeoutMs)).Ok?;
    if wingetAvailable {
      var args := WingetInstallBase(packageId);
      if installPath.Some? {
        var path := Trim(installPath.value);
        if path != [] {
          args := args + ["--location", path];
        }
      }
      return Ok(InstallPlan("winget", args, packageId));
    }
    return Err(WingetMissingError);
  }

  /** `resolve_uninstall_plan`. */
  function UninstallPlanFor(key: string, packageId: string, exec: ProcessOracle): Result<InstallPlan, string> {
    if NodePackageName(key).Some? then
      var npmPackage := NodePackageName(key).value;
      Ok(InstallPlan("npm", ["uninstall", "-g", npmPackage], "npm:" + npmPackage))
    else if WingetAvailable(exec) then
      Ok(InstallPlan("winget", ["uninstall", "--id", packageId, "--exact", "--silent", "--purge"], packageId))
    else Err(WingetMissingError)
  }

  // ---------------------------------------------------------------------
  // Running a plan

  /** The command line reported for a plan. */
  function PlanCommandText(plan: InstallPlan): string {
    plan.command + " " + Join(plan.args, " ")
  }

  /** An npm plan that cannot start because npm is missing gets a hint to
      install Node.js; every other spawn error is passed on. */
  function SpawnError(command: string, error: string): (message: string)
    ensures command != "npm" ==> message == error
    ensures message == error || message == NpmMissingError
  {
    var lowered := ToLower(error);
    if command == "npm"
       && (Contains(lowered, "not found") || Contains(lowered, "not recognized")
           || Contains(error, "系统找不到指定的文件") || Contains(error, "找不到文件"))
    then NpmMissingError
    else error
  }

  /** What `execute_install_item` reports. */
  function InstallItemResult(key: string, installPath: Option<string>, exec: ProcessOracle,
                             script: string -> string): Result<InstallResult, string>
  {
    var spec :- (if FindSpec(key).Some? then Ok(FindSpec(key).value) else Err("未找到可安装项：" + key));
    var plan :- InstallPlanFor(spec.key, spec.packageId, installPath, exec, script);
    match exec(plan.command, plan.args, WingetInstallTimeoutMs)
    case Err(error) => Err(SpawnError(plan.command, error))
    case Ok(capture) =>
      Ok(InstallResult(key, plan.packageId, PlanCommandText(plan), capture.stdout, capture.stderr, capture.exitCode))
  }

  /** `execute_install_item`. */
  method ExecuteInstallItem(key: string, installPath: Option<string>, exec: ProcessOracle, script: string -> string)
    returns (r: Result<InstallResult, string>)
    ensures r == InstallItemResult(key, installPath, exec, script)
  {
    var spec := FindSpec(key);
    if spec.None? {
      return Err("未找到可安装项：" + key);
    }
    var plan := ResolveInstallPlan(spec.value.key, spec.value.packageId, installPath, exec, script);
    if plan.Err? {
      return Err(plan.error);
    }
    var p := plan.value;
    match exec(p.command, p.args, WingetInstallTimeoutMs)
    case Err(error) =>
      r := Err(SpawnError(p.command, error));
    case Ok(capture) =>
      r := Ok(InstallResult(key, p.packageId, PlanCommandText(p), capture.stdout, capture.stderr, capture.exitCode));
  }

  /** `execute_uninstall_item`; a spawn error is passed on as it is. */
  function ExecuteUninstallItem(key: string, exec: ProcessOracle): (r: Result<UninstallResult, string>)
    ensures FindSpec(key).None? ==> r == Err("未找到可卸载项：" + key)
  {
    var spec :- (if FindSpec(key).Some? then Ok(FindSpec(key).value) else Err("未找到可卸载项：" + key));
    var plan :- UninstallPlanFor(spec.key, spec.packageId, exec);
    var capture :- exec(plan.command, plan.args, WingetInstallTimeoutMs);
    Ok(UninstallResult(key, plan.packageId, PlanCommandText(plan), capture.stdout, capture.stderr, capture.exitCode))
  }

  // ---------------------------------------------------------------------
  // Probes

  /** What the file system says about a directory. */
  datatype PathProbe = PathProbe(pathExists: bool, isDir: bool, writable: bool)

  /** `validate_install_path`: blank, missing, not a directory and not
      writable are reported in that order; the free space is never
      measured. */
  function ValidateInstallPath(path: string, probe: string -> PathProbe): (v: PathValidationResult)
    ensures v.valid <==> v.error.None?
    ensures v.valid <==> !IsBlank(path) && probe(Trim(path)).pathExists && probe(Trim(path)).isDir
                         && probe(Trim(path)).writable
    ensures v.availableSpaceGb.None?
    ensures v.writable ==> v.pathExists
  {
    var trimmed := Trim(path);
    if trimmed == [] then PathValidationResult(false, false, false, None, Some("路径不能为空"))
    else
      var p := probe(trimmed);
      if !p.pathExists then PathValidationResult(false, false, false, None, Some("路径不存在"))
      else if !p.isDir then PathValidationResult(false, true, false, None, Some("路径必须是目录"))
      else if !p.writable then PathValidationResult(false, true, false, None, Some("目录不可写，请检查权限"))
      else PathValidationResult(true, true, true, None, None)
  }

  /** `check_winget_available`: the trimmed version on success, the error
      otherwise; never an error of its own. */
  function CheckWingetAvailable(exec: ProcessOracle): (s: WingetStatus)
    ensures s.available <==> WingetAvailable(exec)
    ensures s.available <==> s.version.Some? && s.error.None?
    ensures !s.available ==> s.version.None? && s.error.Some?
  {
    match CaptureText(exec("winget", ["--version"], WingetProbeTimeoutMs))
    case Ok(output) => WingetStatus(true, Some(Trim(output)), None)
    case Err(error) => WingetStatus(false, None, Some(error))
  }

  // ---------------------------------------------------------------------
  // Properties

  /** Every item installed with npm is in the install table. */
  lemma NpmItemsAreListed(key: string)
    requires NodePackageName(key).Some?
    ensures FindSpec(key).Some?
  {
    if key == "pnpm" { assert InstallSpecs[1].key == key; }
    else if key == "yarn" { assert InstallSpecs[2].key == key; }
    else if key == "claude-code" { assert InstallSpecs[36].key == key; }
    else if key == "codex-cli" { assert InstallSpecs[37].key == key; }
    else { assert InstallSpecs[38].key == key; }
  }

  /** An item missing from the table is refused with the same error
      whatever the machine would say: nothing is probed or run. */
  lemma UnknownItemRefused(key: string, installPath: Option<string>, exec: ProcessOracle, script: string -> string)
    requires forall i :: 0 <= i < |InstallSpecs| ==> InstallSpecs[i].key != key
    ensures InstallItemResult(key, installPath, exec, script) == Err("未找到可安装项：" + key)
    ensures ExecuteUninstallItem(key, exec) == Err("未找到可卸载项：" + key)
  {
  }

  /** The plan choice: npm items get `npm install -g` and Python the direct
      installer, both whatever the winget probe would say; every other item
      needs winget. */
  lemma InstallPlanChoice(key: string, packageId: string, installPath: Option<string>,
                          exec: ProcessOracle, script: string -> string)
    ensures var r := InstallPlanFor(key, packageId, installPath, exec, script);
            (NodePackageName(key).Some? ==>
               r == Ok(InstallPlan("npm", ["install", "-g", NodePackageName(key).value], "npm:" + NodePackageName(key).value)))
            && (NodePackageName(key).None? && key == "python" ==>
                  r.Ok? && r.value.command == "powershell" && r.value.packageId == PythonPackageId
                  && r.value.args[|r.value.args| - 1] == script(PythonInstallDir(installPath)))
            && (NodePackageName(key).None? && key != "python" ==>
                  (r.Ok? <==> WingetAvailable(exec))
                  && (r.Ok? ==> r.value.command == "winget" && r.value.packageId == packageId
                                && r.value.args == WingetInstallArgs(packageId, installPath))
                  && (r.Err? ==> r.error == WingetMissingError))
  {
  }

  /** The winget arguments are the seven fixed ones, followed by
      "--location" and the trimmed path exactly when the path is not blank. */
  lemma WingetLocationIffPath(packageId: string, installPath: Option<string>)
    ensures var args := WingetInstallArgs(packageId, installPath);
            args[..7] == ["install", "--id", packageId, "--exact", "--silent",
                          "--accept-source-agreements", "--accept-package-agreements"]
            && (|args| == 9 <==> installPath.Some? && !IsBlank(installPath.value))
            && (|args| != 9 ==> |args| == 7)
            && (|args| == 9 ==> args[7] == "--location" && args[8] == Trim(installPath.value))
  {
  }

  /** The Python plan installs "Python.Python.3.12" into the trimmed path
      when one is given and into C:\Python312 otherwise. */
  lemma PythonPlanDirectory(installPath: Option<string>, script: string -> string)
    ensures var plan := PythonDirectInstallPlan(installPath, script);
            plan.packageId == PythonPackageId && |plan.args| == 7
            && (installPath.None? || IsBlank(installPath.value) ==> plan.args[6] == script("C:\\Python312"))
            && (installPath.Some? && !IsBlank(installPath.value) ==> plan.args[6] == script(Trim(installPath.value)))
  {
  }

  /** Uninstalling: `npm uninstall -g` for npm items, otherwise winget
      uninstall with purge when winget answers, an error when it does not. */
  lemma UninstallPlanChoice(key: string, packageId: string, exec: ProcessOracle)
    ensures var r := UninstallPlanFor(key, packageId, exec);
            (NodePackageName(key).Some? ==>
               r == Ok(InstallPlan("npm", ["uninstall", "-g", NodePackageName(key).value], "npm:" + NodePackageName(key).value)))
            && (NodePackageName(key).None? ==>
                  (r.Ok? <==> WingetAvailable(exec))
                  && (r.Ok? ==> r.value == InstallPlan("winget", ["uninstall", "--id", packageId, "--exact", "--silent", "--purge"], packageId))
                  && (r.Err? ==> r.error == WingetMissingError))
  {
  }

  /** A reported install names the requested item and the plan's package,
      shows the plan's command line, and carries the capture of running
      exactly that plan. */
  lemma InstallReportsPlan(key: string, installPath: Option<string>, exec: ProcessOracle, script: string -> string)
    requires InstallItemResult(key, installPath, exec, script).Ok?
    ensures var r := InstallItemResult(key, installPath, exec, script).value;
            var spec := FindSpec(key).value;
            var plan := InstallPlanFor(spec.key, spec.packageId, installPath, exec, script).value;
            FindSpec(key).Some?
            && InstallPlanFor(spec.key, spec.packageId, installPath, exec, script).Ok?
            && r.itemKey == key && r.packageId == plan.packageId && r.command == PlanCommandText(plan)
            && exec(plan.command, plan.args, WingetInstallTimeoutMs).Ok?
            && r.exitCode == exec(plan.command, plan.args, WingetInstallTimeoutMs).value.exitCode
  {
  }
}
