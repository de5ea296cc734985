/** The three deploy steps (pull the code, stop the old container, deploy
    the new one), each a short run of commands that stops at the first
    command exiting non-zero. */
module DeploySteps {
  import opened Wrappers
  import opened Text
  import opened Contracts
  import opened ProcessRunner
  import opened DeployUtils
  import opened DeployArgs
  import opened DeployStages

  const DeployGitTimeoutMs: nat := 90_000
  const DeployDockerTimeoutMs: nat := 120_000

  const GitDisabledMessage: string := "已禁用代码拉取，步骤跳过。"
  const NoBranchError: string := "未选择分支，无法执行代码拉取。"
  const UnsafeBranchError: string := "分支名称包含非法字符。"
  const UnsafeRunContainerError: string := "Run 模式容器名称不合法。"

  // ---------------------------------------------------------------------
  // pull_code

  /** The selected branch, trimmed; absent when missing or blank. */
  function SelectedBranch(request: DeployStepRequest): (b: Option<string>)
    ensures b.Some? <==> request.selectedBranch.Some? && !IsBlank(request.selectedBranch.value)
    ensures b.Some? ==> b.value == Trim(request.selectedBranch.value)
  {
    match request.selectedBranch
    case None => None
    case Some(value) => if Trim(value) == [] then None else Some(Trim(value))
  }

  function FetchCall(remote: string, dir: string): DeployCall {
    DeployCall("git", ["fetch", "--prune", remote], DeployGitTimeoutMs, Some(dir))
  }

  function CheckoutCall(branch: string, dir: string): DeployCall {
    DeployCall("git", ["checkout", branch], DeployGitTimeoutMs, Some(dir))
  }

  function PullCall(remote: string, branch: string, dir: string): DeployCall {
    DeployCall("git", ["pull", "--ff-only", remote, branch], DeployGitTimeoutMs, Some(dir))
  }

  /** `execute_pull_code_step` as a specification: a disabled pull is
      skipped; otherwise the branch, project path and directory are checked,
      then fetch, checkout and pull run in the project directory. */
  function PullCodeSpec(request: DeployStepRequest, env: DeployEnv): (r: Result<DeployStepResult, string>)
    ensures r.Ok? ==> r.value.step == "pull_code"
  {
    if !request.profile.git.enabled then
      Ok(DeployStepResult("pull_code", true, true, [], GitDisabledMessage, None, env.elapsedMs))
    else
      var branch := SelectedBranch(request);
      if branch.None? then Err(NoBranchError)
      else if !IsSafeGitRef(branch.value) then Err(UnsafeBranchError)
      else
        match ResolveDeployProjectPath(request.profile)
        case Err(e) => Err(e)
        case Ok(path) =>
          match EnsureExistingDir(path, "拉取代码目录", env.dirs)
          case Err(e) => Err(e)
          case Ok(dir) =>
            var remote := NormalizeRemoteName(request.profile.git.remote);
            Staged("pull_code", [Ok(FetchCall(remote, dir)), Ok(CheckoutCall(branch.value, dir)),
                                 Ok(PullCall(remote, branch.value, dir))], env)
  }

  /** Runs fetch, checkout and pull, stopping at the first failure. */
  method RunGitCommands(fetch: DeployCall, checkout: DeployCall, pull: DeployCall, env: DeployEnv)
    returns (r: Result<DeployStepResult, string>)
    ensures r == Staged("pull_code", [Ok(fetch), Ok(checkout), Ok(pull)], env)
  {
    ghost var stages: seq<Result<DeployCall, string>> := [Ok(fetch), Ok(checkout), Ok(pull)];
    assert stages[1..] == [Ok(checkout), Ok(pull)] && stages[1..][1..] == [Ok(pull)];
    var commands: seq<string>, outputs: seq<string> := [], [];

    var fetched, commands1, outputs1 := RunRecorded(fetch, env.exec, commands, outputs);
    if fetched.Err? {
      ContinueFails("pull_code", [], stages, env, fetched.error);
      return Err(fetched.error);
    }
    commands, outputs := commands1, outputs1;
    TextsSnoc([], fetched.value);
    if fetched.value.capture.exitCode != 0 {
      ContinueStop("pull_code", [], stages, env, fetched.value);
      return Ok(Finish("pull_code", commands, outputs, fetched.value.capture, env));
    }
    ContinueStep("pull_code", [], stages, env, fetched.value);
    ghost var done := [fetched.value];

    var checkedOut, commands2, outputs2 := RunRecorded(checkout, env.exec, commands, outputs);
    if checkedOut.Err? {
      ContinueFails("pull_code", done, stages[1..], env, checkedOut.error);
      return Err(checkedOut.error);
    }
    commands, outputs := commands2, outputs2;
    TextsSnoc(done, checkedOut.value);
    if checkedOut.value.capture.exitCode != 0 {
      ContinueStop("pull_code", done, stages[1..], env, checkedOut.value);
      return Ok(Finish("pull_code", commands, outputs, checkedOut.value.capture, env));
    }
    ContinueStep("pull_code", done, stages[1..], env, checkedOut.value);
    done := done + [checkedOut.value];

    var pulled, commands3, outputs3 := RunRecorded(pull, env.exec, commands, outputs);
    if pulled.Err? {
      ContinueFails("pull_code", done, stages[1..][1..], env, pulled.error);
      return Err(pulled.error);
    }
    commands, outputs := commands3, outputs3;
    TextsSnoc(done, pulled.value);
    ContinueStop("pull_code", done, stages[1..][1..], env, pulled.value);
    r := Ok(Finish("pull_code", commands, outputs, pulled.value.capture, env));
  }

  /** `execute_pull_code_step`. */
  method PullCode(request: DeployStepRequest, env: DeployEnv) returns (r: Result<DeployStepResult, string>)
    ensures r == PullCodeSpec(request, env)
  {
    if !request.profile.git.enabled {
      return Ok(DeployStepResult("pull_code", true, true, [], GitDisabledMessage, None, env.elapsedMs));
    }
    var branch := SelectedBranch(request);
    if branch.None? {
      return Err(NoBranchError);
    }
    if !IsSafeGitRef(branch.value) {
      return Err(UnsafeBranchError);
    }
    var projectPath :- ResolveDeployProjectPath(request.profile);
    var projectDir :- EnsureExistingDir(projectPath, "拉取代码目录", env.dirs);
    var remote := NormalizeRemoteName(request.profile.git.remote);
    r := RunGitCommands(FetchCall(remote, projectDir), CheckoutCall(branch.value, projectDir),
                        PullCall(remote, branch.value, projectDir), env);
  }

  /** With git enabled, a missing, blank or unsafe branch is an error before
      any command runs; a step that gets to run reports fetch, then
      checkout, then pull, up to the first that failed, and is ok exactly
      when all three exited 0. */
  lemma PullCodeOrder(request: DeployStepRequest, env: DeployEnv)
    requires request.profile.git.enabled
    ensures SelectedBranch(request).None? ==> PullCodeSpec(request, env) == Err(NoBranchError)
    ensures SelectedBranch(request).Some? && !IsSafeGitRef(SelectedBranch(request).value) ==>
              PullCodeSpec(request, env) == Err(UnsafeBranchError)
    ensures PullCodeSpec(request, env).Ok? ==>
              var branch := SelectedBranch(request).value;
              var dir := ResolveDeployProjectPath(request.profile).value;
              var remote := NormalizeRemoteName(request.profile.git.remote);
              IsSafeGitRef(branch) && env.dirs(dir) == Directory
              && GitRunReported(PullCodeSpec(request, env).value,
                                FetchCall(remote, dir), CheckoutCall(branch, dir), PullCall(remote, branch, dir), env)
  {
    if PullCodeSpec(request, env).Ok? {
      var branch := SelectedBranch(request).value;
      var path := ResolveDeployProjectPath(request.profile).value;
      assert Trim(path) == path by {
        TrimIdempotent(request.profile.compose.projectPath);
        TrimIdempotent(request.profile.run.buildContext);
      }
      var remote := NormalizeRemoteName(request.profile.git.remote);
      GitRunReport(FetchCall(remote, path), CheckoutCall(branch, path), PullCall(remote, branch, path), env);
    }
  }

  /** The step ran fetch, checkout and pull in order, reports the ones it
      got to, and is ok exactly when all three exited 0. */
  predicate GitRunReported(res: DeployStepResult, fetch: DeployCall, checkout: DeployCall, pull: DeployCall, env: DeployEnv) {
    var calls := [fetch, checkout, pull];
    1 <= |res.commands| <= 3
    && (forall i :: 0 <= i < |res.commands| ==> res.commands[i] == CallText(calls[i]))
    && (res.ok <==> forall i :: 0 <= i < 3 ==> env.exec(calls[i]).Ok? && env.exec(calls[i]).value.exitCode == 0)
  }

  lemma GitRunReport(fetch: DeployCall, checkout: DeployCall, pull: DeployCall, env: DeployEnv)
    requires Staged("pull_code", [Ok(fetch), Ok(checkout), Ok(pull)], env).Ok?
    ensures GitRunReported(Staged("pull_code", [Ok(fetch), Ok(checkout), Ok(pull)], env).value, fetch, checkout, pull, env)
  {
    var stages: seq<Result<DeployCall, string>> := [Ok(fetch), Ok(checkout), Ok(pull)];
    var calls := [fetch, checkout, pull];
    var res := Staged("pull_code", stages, env).value;
    StagedCommands("pull_code", stages, env);
    forall i | 0 <= i < |res.commands|
      ensures res.commands[i] == CallText(calls[i])
    {
      assert stages[i] == Ok(calls[i]);
    }
    StagedOkIff("pull_code", stages, env);
    assert AllStagesSucceed(stages, env.exec) <==>
           forall i :: 0 <= i < 3 ==> env.exec(calls[i]).Ok? && env.exec(calls[i]).value.exitCode == 0 by {
      assert forall i :: 0 <= i < 3 ==> stages[i] == Ok(calls[i]);
    }
  }

  /** A disabled pull reports success, skipped, with no command run. */
  lemma DisabledPullRunsNothing(request: DeployStepRequest, env: DeployEnv)
    requires !request.profile.git.enabled
    ensures var r := PullCodeSpec(request, env);
            r.Ok? && r.value.ok && r.value.skipped && r.value.commands == [] && r.value.error.None?
  {
  }

  // ---------------------------------------------------------------------
  // stop_old

  /** The messages `docker rm -f` gives for a container that is not there. */
  predicate MissingContainer(text: string) {
    Contains(text, "no such container") || Contains(text, "not found") || Contains(text, "找不到")
  }

  function RemoveCall(containerName: string): DeployCall {
    DeployCall("docker", ["rm", "-f", containerName], DeployDockerTimeoutMs, None)
  }

  /** The run-mode removal of the old container: a removal that fails
      because the container does not exist counts as done, skipped. */
  function RemoveOldContainer(name: string, env: DeployEnv): (r: Result<DeployStepResult, string>)
    ensures r.Ok? ==> r.value.step == "stop_old"
  {
    var call := RemoveCall(name);
    match env.exec(call)
    case Err(e) => Err(e)
    case Ok(capture) =>
      if capture.exitCode != 0 && MissingContainer(ToLower(PreferErrorOutput(capture))) then
        Ok(DeployStepResult("stop_old", true, true, [CallText(call)], CallOutput(call, capture), None,
                            env.elapsedMs))
      else Staged("stop_old", [Ok(call)], env)
  }

  /** `execute_stop_old_step` as a specification. In compose mode the
      project is stopped in its directory; in run mode a safe container
      name is removed. */
  function StopOldSpec(profile: DeployProfile, env: DeployEnv): (r: Result<DeployStepResult, string>)
    ensures r.Ok? ==> r.value.step == "stop_old"
  {
    if profile.mode == "compose" then
      match ResolveDeployProjectPath(profile)
      case Err(e) => Err(e)
      case Ok(path) =>
        match EnsureExistingDir(path, "Compose 项目目录", env.dirs)
        case Err(e) => Err(e)
        case Ok(dir) =>
          Staged("stop_old", [Ok(DeployCall("docker", ComposeStopArgs(profile.compose), DeployDockerTimeoutMs, Some(dir)))], env)
    else
      var name := Trim(profile.run.containerName);
      if !IsSafeIdentifier(name) then Err(UnsafeRunContainerError)
      else RemoveOldContainer(name, env)
  }

  /** Runs a single command as the whole step. */
  method RunSingle(step: string, call: DeployCall, env: DeployEnv) returns (r: Result<DeployStepResult, string>)
    ensures r == Staged(step, [Ok(call)], env)
  {
    var run, commands, outputs := RunRecorded(call, env.exec, [], []);
    if run.Err? {
      ContinueFails(step, [], [Ok(call)], env, run.error);
      return Err(run.error);
    }
    TextsSnoc([], run.value);
    ContinueStop(step, [], [Ok(call)], env, run.value);
    r := Ok(Finish(step, commands, outputs, run.value.capture, env));
  }

  /** `execute_stop_old_step`. */
  method StopOld(profile: DeployProfile, env: DeployEnv) returns (r: Result<DeployStepResult, string>)
    ensures r == StopOldSpec(profile, env)
  {
    if profile.mode == "compose" {
      var projectPath :- ResolveDeployProjectPath(profile);
      var projectDir :- EnsureExistingDir(projectPath, "Compose 项目目录", env.dirs);
      var call := DeployCall("docker", ComposeStopArgs(profile.compose), DeployDockerTimeoutMs, Some(projectDir));
      r := RunSingle("stop_old", call, env);
      return;
    }
    var containerName := Trim(profile.run.containerName);
    if !IsSafeIdentifier(containerName) {
      return Err(UnsafeRunContainerError);
    }
    r := RemoveContainer(containerName, env);
  }

  /** `docker rm -f` on the old container, and how its failure is read. */
  method RemoveContainer(containerName: string, env: DeployEnv) returns (r: Result<DeployStepResult, string>)
    ensures r == RemoveOldContainer(containerName, env)
  {
    var call := RemoveCall(containerName);
    var run, commands, outputs := RunRecorded(call, env.exec, [], []);
    if run.Err? {
      return Err(run.error);
    }
    var capture := run.value.capture;
    assert env.exec(call) == Ok(capture) && commands == [CallText(call)];
    var combined := ToLower(PreferErrorOutput(capture));
    var missingContainer := MissingContainer(combined);
    if capture.exitCode != 0 && missingContainer {
      return Ok(DeployStepResult("stop_old", true, true, commands, CallOutput(call, capture), None, env.elapsedMs));
    }
    TextsSnoc([], run.value);
    ContinueStop("stop_old", [], [Ok(call)], env, run.value);
    r := Ok(Finish("stop_old", commands, outputs, capture, env));
  }

  /** In run mode only a safe container name is removed, the step reports
      the one `rm -f` command, and it is ok exactly when the removal
      succeeded or failed because there was nothing to remove, the second
      case being reported as skipped. */
  lemma StopOldRunMode(profile: DeployProfile, env: DeployEnv)
    requires profile.mode != "compose" && StopOldSpec(profile, env).Ok?
    ensures IsSafeIdentifier(Trim(profile.run.containerName))
    ensures var call := RemoveCall(Trim(profile.run.containerName));
            var res := StopOldSpec(profile, env).value;
            env.exec(call).Ok?
            && res.commands == [CallText(call)]
            && (res.ok <==> env.exec(call).value.exitCode == 0
                            || MissingContainer(ToLower(PreferErrorOutput(env.exec(call).value))))
            && (res.skipped <==> env.exec(call).value.exitCode != 0
                                 && MissingContainer(ToLower(PreferErrorOutput(env.exec(call).value))))
  {
    var call := RemoveCall(Trim(profile.run.containerName));
    var capture := env.exec(call).value;
    if !(capture.exitCode != 0 && MissingContainer(ToLower(PreferErrorOutput(capture)))) {
      ContinueStop("stop_old", [], [Ok(call)], env, Ran(call, capture));
    }
  }

  /** In compose mode the step needs the project directory to exist, and
      is the single compose stop command run in that directory; what such
      a step reports is stated by `SingleStageReport`. */
  lemma StopOldComposeMode(profile: DeployProfile, env: DeployEnv)
    requires profile.mode == "compose" && StopOldSpec(profile, env).Ok?
    ensures env.dirs(Trim(profile.compose.projectPath)) == Directory
    ensures var call := DeployCall("docker", ComposeStopArgs(profile.compose), DeployDockerTimeoutMs,
                                   Some(Trim(profile.compose.projectPath)));
            StopOldSpec(profile, env) == Staged("stop_old", [Ok(call)], env)
  {
    TrimIdempotent(profile.compose.projectPath);
  }

  // ---------------------------------------------------------------------
  // deploy_new

  /** Pulling the image, in pull mode. */
  function PullStage(imageRef: string): Result<DeployCall, string> {
    match PullArgs(imageRef)
    case Err(e) => Err(e)
    case Ok(args) => Ok(DeployCall("docker", args, DeployDockerTimeoutMs, None))
  }

  /** Building the image in the build context, in build mode. */
  function BuildStage(run: DeployRunConfig, imageRef: string, dirs: string -> DirProbe): Result<DeployCall, string> {
    match EnsureExistingDir(Trim(run.buildContext), "构建目录", dirs)
    case Err(e) => Err(e)
    case Ok(dir) =>
      match BuildArgs(run, imageRef)
      case Err(e) => Err(e)
      case Ok(args) => Ok(DeployCall("docker", args, DeployDockerTimeoutMs, Some(dir)))
  }

  /** Running the container. */
  function RunStage(run: DeployRunConfig, imageRef: string): Result<DeployCall, string> {
    match RunDeployArgs(run, imageRef)
    case Err(e) => Err(e)
    case Ok(args) => Ok(DeployCall("docker", args, DeployDockerTimeoutMs, None))
  }

  /** The run-mode stages once the image reference resolved: the pull (pull
      mode) or the build (build mode), then the run. Any other image source
      resolved its reference as a pull would but pulls nothing. */
  function ImageStages(run: DeployRunConfig, imageRef: string, dirs: string -> DirProbe): (stages: seq<Result<DeployCall, string>>)
    ensures stages != []
  {
    if run.imageSource == "pull" then [PullStage(imageRef), RunStage(run, imageRef)]
    else if run.imageSource == "build" then [BuildStage(run, imageRef, dirs), RunStage(run, imageRef)]
    else [RunStage(run, imageRef)]
  }

  /** `execute_deploy_new_step` as a specification. */
  function DeployNewSpec(profile: DeployProfile, env: DeployEnv): (r: Result<DeployStepResult, string>)
    ensures r.Ok? ==> r.value.step == "deploy_new"
  {
    if profile.mode == "compose" then
      match ResolveDeployProjectPath(profile)
      case Err(e) => Err(e)
      case Ok(path) =>
        match EnsureExistingDir(path, "Compose 项目目录", env.dirs)
        case Err(e) => Err(e)
        case Ok(dir) =>
          Staged("deploy_new", [Ok(DeployCall("docker", ComposeUpArgs(profile.compose), DeployDockerTimeoutMs, Some(dir)))], env)
    else
      match ResolveRunImageRef(profile.run)
      case Err(e) => Err(e)
      case Ok(imageRef) => Staged("deploy_new", ImageStages(profile.run, imageRef, env.dirs), env)
  }

  /** Prepares and runs the container as the last stage. */
  method RunContainer(profile: DeployProfile, imageRef: string, env: DeployEnv,
                      commands: seq<string>, outputs: seq<string>, ghost done: seq<Ran>)
    returns (r: Result<DeployStepResult, string>)
    requires commands == Texts(done) && outputs == Outputs(done)
    ensures r == Continue("deploy_new", done, [RunStage(profile.run, imageRef)], env)
  {
    var runArgs := BuildRunDeployArgs(profile, imageRef);
    if runArgs.Err? {
      ContinueFails("deploy_new", done, [RunStage(profile.run, imageRef)], env, runArgs.error);
      return Err(runArgs.error);
    }
    var call := DeployCall("docker", runArgs.value, DeployDockerTimeoutMs, None);
    var run, commands', outputs' := RunRecorded(call, env.exec, commands, outputs);
    if run.Err? {
      ContinueFails("deploy_new", done, [RunStage(profile.run, imageRef)], env, run.error);
      return Err(run.error);
    }
    TextsSnoc(done, run.value);
    ContinueStop("deploy_new", done, [RunStage(profile.run, imageRef)], env, run.value);
    r := Ok(Finish("deploy_new", commands', outputs', run.value.capture, env));
  }

  /** Runs the pull or build stage, then the container unless it failed. */
  method RunImageThenContainer(profile: DeployProfile, imageRef: string, call: DeployCall, env: DeployEnv)
    returns (r: Result<DeployStepResult, string>)
    ensures r == Staged("deploy_new", [Ok(call), RunStage(profile.run, imageRef)], env)
  {
    ghost var stages: seq<Result<DeployCall, string>> := [Ok(call), RunStage(profile.run, imageRef)];
    assert stages[1..] == [RunStage(profile.run, imageRef)];
    var run, commands, outputs := RunRecorded(call, env.exec, [], []);
    if run.Err? {
      ContinueFails("deploy_new", [], stages, env, run.error);
      return Err(run.error);
    }
    TextsSnoc([], run.value);
    if run.value.capture.exitCode != 0 {
      ContinueStop("deploy_new", [], stages, env, run.value);
      return Ok(Finish("deploy_new", commands, outputs, run.value.capture, env));
    }
    ContinueStep("deploy_new", [], stages, env, run.value);
    r := RunContainer(profile, imageRef, env, commands, outputs, [run.value]);
  }

  /** `execute_deploy_new_step`. */
  method DeployNew(profile: DeployProfile, env: DeployEnv) returns (r: Result<DeployStepResult, string>)
    ensures r == DeployNewSpec(profile, env)
  {
    if profile.mode == "compose" {
      var projectPath :- ResolveDeployProjectPath(profile);
      var projectDir :- EnsureExistingDir(projectPath, "Compose 项目目录", env.dirs);
      var call := DeployCall("docker", ComposeUpArgs(profile.compose), DeployDockerTimeoutMs, Some(projectDir));
      r := RunSingle("deploy_new", call, env);
      return;
    }
    var imageRef :- ResolveRunImageRef(profile.run);
    ghost var stages := ImageStages(profile.run, imageRef, env.dirs);
    if profile.run.imageSource == "pull" {
      ResolvedRefIsAccepted(profile.run);
      var pullArgs := PullArgs(imageRef).value;
      r := RunImageThenContainer(profile, imageRef, DeployCall("docker", pullArgs, DeployDockerTimeoutMs, None), env);
      return;
    }
    if profile.run.imageSource == "build" {
      var buildDir := EnsureExistingDir(Trim(profile.run.buildContext), "构建目录", env.dirs);
      if buildDir.Err? {
        ContinueFails("deploy_new", [], stages, env, buildDir.error);
        return Err(buildDir.error);
      }
      ResolvedRefIsAccepted(profile.run);
      var buildArgs := BuildArgs(profile.run, imageRef).value;
      var call := DeployCall("docker", buildArgs, DeployDockerTimeoutMs, Some(buildDir.value));
      r := RunImageThenContainer(profile, imageRef, call, env);
      return;
    }
    assert [] + [] == Texts([]) && [] == Outputs([]);
    r := RunContainer(profile, imageRef, env, [], [], []);
  }

  /** In run mode, a pull or build that fails stops the step before the
      container is run: the step is not ok, reports that one command, and
      its error is that command's preferred output. */
  lemma FailedImageStopsDeploy(profile: DeployProfile, env: DeployEnv)
    requires profile.mode != "compose" && ResolveRunImageRef(profile.run).Ok?
    requires profile.run.imageSource == "pull" || profile.run.imageSource == "build"
    ensures var imageRef := ResolveRunImageRef(profile.run).value;
            var stage := ImageStages(profile.run, imageRef, env.dirs)[0];
            stage.Ok? && env.exec(stage.value).Ok? && env.exec(stage.value).value.exitCode != 0 ==>
              DeployNewSpec(profile, env).Ok?
              && !DeployNewSpec(profile, env).value.ok
              && DeployNewSpec(profile, env).value.commands == [CallText(stage.value)]
              && DeployNewSpec(profile, env).value.error == Some(PreferErrorOutput(env.exec(stage.value).value))
  {
    var imageRef := ResolveRunImageRef(profile.run).value;
    var stages := ImageStages(profile.run, imageRef, env.dirs);
    if stages[0].Ok? && env.exec(stages[0].value).Ok? && env.exec(stages[0].value).value.exitCode != 0 {
      var ran := Ran(stages[0].value, env.exec(stages[0].value).value);
      ContinueStop("deploy_new", [], stages, env, ran);
      assert Texts([] + [ran]) == [CallText(ran.call)];
    }
  }

  /** A deploy that runs to completion in run mode ends with the container
      run: the last command reported is the `docker run` for the resolved
      image, and in pull or build mode it came after the image command
      succeeded. */
  lemma DeployEndsWithRun(profile: DeployProfile, env: DeployEnv)
    requires profile.mode != "compose" && DeployNewSpec(profile, env).Ok? && DeployNewSpec(profile, env).value.ok
    ensures var imageRef := ResolveRunImageRef(profile.run).value;
            var res := DeployNewSpec(profile, env).value;
            RunStage(profile.run, imageRef).Ok?
            && res.commands != []
            && res.commands[|res.commands| - 1] == CallText(RunStage(profile.run, imageRef).value)
            && |res.commands| == (if profile.run.imageSource in {"pull", "build"} then 2 else 1)
  {
    var imageRef := ResolveRunImageRef(profile.run).value;
    var stages := ImageStages(profile.run, imageRef, env.dirs);
    StagedReport("deploy_new", stages, env);
    StagedOkIff("deploy_new", stages, env);
    RunStagesFaithful(stages, env.exec);
    assert stages[|stages| - 1] == RunStage(profile.run, imageRef);
  }

  // ---------------------------------------------------------------------
  // Dispatch

  /** `execute_deploy_step_internal` as a specification. */
  function DeployStepSpec(request: DeployStepRequest, env: DeployEnv): (r: Result<DeployStepResult, string>)
    ensures request.step !in {"pull_code", "stop_old", "deploy_new"} ==> r == Err("未支持的部署步骤: " + request.step)
    ensures r.Ok? ==> r.value.step == request.step
  {
    if request.step == "pull_code" then PullCodeSpec(request, env)
    else if request.step == "stop_old" then StopOldSpec(request.profile, env)
    else if request.step == "deploy_new" then DeployNewSpec(request.profile, env)
    else Err("未支持的部署步骤: " + request.step)
  }

  /** `execute_deploy_step_internal`. */
  method ExecuteDeployStep(request: DeployStepRequest, env: DeployEnv) returns (r: Result<DeployStepResult, string>)
    ensures r == DeployStepSpec(request, env)
  {
    match request.step
    case "pull_code" => r := PullCode(request, env);
    case "stop_old" => r := StopOld(request.profile, env);
    case "deploy_new" => r := DeployNew(request.profile, env);
    case _ => r := Err("未支持的部署步骤: " + request.step);
  }
}
