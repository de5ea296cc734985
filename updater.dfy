/** The in-place update of a container: pull the code, build the image,
    put the running container aside, start the new one and wait for it to
    run, rolling back to the previous container when the new one fails. */
module Updater {
  import opened Wrappers
  import opened Text
  import opened Effects
  import opened Contracts
  import opened VersionErrors
  import opened HealthCheck
  import opened VersionRollback

  // ---------------------------------------------------------------------
  // Container name

  /** The container name of a `docker run` argument list from index `i` on:
      the token after the first "--name" that has a successor, else "". */
  function NameFrom(args: seq<string>, i: nat): (name: string)
    requires i <= |args|
    ensures (forall j :: i <= j < |args| - 1 ==> args[j] != "--name") ==> name == ""
    ensures forall j :: (i <= j < |args| - 1 && args[j] == "--name"
                         && (forall k :: i <= k < j ==> args[k] != "--name")) ==> name == args[j + 1]
    decreases |args| - i
  {
    if i + 1 >= |args| then ""
    else if args[i] == "--name" then args[i + 1]
    else NameFrom(args, i + 1)
  }

  function ContainerNameOf(args: seq<string>): string {
    NameFrom(args, 0)
  }

  /** `extract_container_name`: the indexed scan over the run arguments. */
  method ExtractContainerName(args: seq<string>) returns (name: string)
    ensures name == ContainerNameOf(args)
  {
    var i := 0;
    while i < |args|
      invariant 0 <= i <= |args|
      invariant NameFrom(args, i) == ContainerNameOf(args)
    {
      if args[i] == "--name" && i + 1 < |args| {
        return args[i + 1];
      }
      i := i + 1;
    }
    return "";
  }

  /** The separate-token form is recognised; "--name=web" and a trailing
      "--name" are not. */
  lemma ContainerNameExamples()
    ensures ContainerNameOf(["-d", "--name", "web", "-p", "80:80"]) == "web"
    ensures ContainerNameOf(["--name", "a", "--name", "b"]) == "a"
    ensures ContainerNameOf(["--name=web", "-d"]) == ""
    ensures ContainerNameOf(["-d", "--name"]) == ""
  {
    var a := ["-d", "--name", "web", "-p", "80:80"];
    assert a[0] != "--name" && a[1] == "--name";
    var b := ["--name", "a", "--name", "b"];
    assert b[0] == "--name";
    var c := ["--name=web", "-d"];
    assert c[0] != "--name" by { assert |c[0]| != |"--name"|; }
    var d := ["-d", "--name"];
    assert d[0] != "--name";
  }

  // ---------------------------------------------------------------------
  // The command steps

  function GitPullArgv(w: UpdateWorkflowConfig): Argv {
    ["git", "-C", w.gitPullPath, "pull", "--ff-only", "origin", w.gitBranch]
  }

  function DockerBuildArgv(w: UpdateWorkflowConfig): Argv {
    ["docker", "build", "-t", w.newImageTag, "-f", w.dockerfile, w.buildContext]
  }

  function DockerRunArgv(w: UpdateWorkflowConfig): Argv {
    ["docker", "run"] + w.runArgs + [w.newImageTag]
  }

  /** One command step: a command that cannot be started is a failed step
      with the given message prefix; otherwise the log records the command,
      the combined output, and the output again as the error when the exit
      was not successful. */
  function CommandStep(step: string, spawnPrefix: string, command: string, argv: Argv, sh: Shell)
    : (r: Result<UpdateStepLog, VersionError>)
    ensures r.Err? <==> sh.run(argv).SpawnError?
    ensures r.Err? ==> r.error == VersionError.StepFailed(step, spawnPrefix + sh.run(argv).message)
    ensures r.Ok? ==> r.value.step == step && r.value.command == Some(command) && !r.value.skipped
    ensures r.Ok? ==> (r.value.ok <==> sh.run(argv).Success())
    ensures r.Ok? ==> r.value.output == sh.run(argv).Combined()
    ensures r.Ok? ==> r.value.error == if r.value.ok then None else Some(r.value.output)
  {
    var out := sh.run(argv);
    if out.SpawnError? then
      Err(VersionError.StepFailed(step, spawnPrefix + out.message))
    else
      var ok := out.Success();
      Ok(UpdateStepLog(step, Some(command), ok, false, out.Combined(),
                       if ok then None else Some(out.Combined()), sh.tookMs(argv)))
  }

  /** `git_pull`. */
  function GitPull(w: UpdateWorkflowConfig, sh: Shell): Result<UpdateStepLog, VersionError> {
    CommandStep("git_pull", "Failed to execute git pull: ",
                "git -C " + w.gitPullPath + " pull --ff-only origin " + w.gitBranch, GitPullArgv(w), sh)
  }

  /** `docker_build`. */
  function DockerBuild(w: UpdateWorkflowConfig, sh: Shell): Result<UpdateStepLog, VersionError> {
    CommandStep("docker_build", "Failed to execute docker build: ",
                "docker build -t " + w.newImageTag + " -f " + w.dockerfile + " " + w.buildContext,
                DockerBuildArgv(w), sh)
  }

  /** `docker_run`: the command text joins the run arguments with spaces. */
  function DockerRun(w: UpdateWorkflowConfig, sh: Shell): Result<UpdateStepLog, VersionError> {
    CommandStep("docker_run", "Failed to execute docker run: ",
                "docker run " + Join(w.runArgs, " ") + " " + w.newImageTag, DockerRunArgv(w), sh)
  }

  /** The wait, in whole seconds, granted to the health check. */
  function HealthWaitSeconds(t: UpdateTimeoutConfig): nat {
    t.healthCheckMs / 1000
  }

  function HealthyLog(name: string): (log: UpdateStepLog)
    ensures log.step == "health_check" && log.ok && log.error.None?
  {
    UpdateStepLog("health_check", Some("docker inspect " + name), true, false, "Container is healthy", None, 0)
  }

  function UnhealthyLog(name: string, t: UpdateTimeoutConfig): (log: UpdateStepLog)
    ensures log.step == "health_check" && !log.ok && !log.skipped
    ensures log.error == Some("Health check failed after " + NatToString(HealthWaitSeconds(t)) + " seconds")
  {
    UpdateStepLog("health_check", Some("docker inspect " + name), false, false, "",
                  Some("Health check failed after " + NatToString(HealthWaitSeconds(t)) + " seconds"),
                  t.healthCheckMs)
  }

  /** What the workflow needs from the machine: the command answers, and
      for the health check the elapsed time read before each poll and what
      each poll's inspection answers. */
  datatype World = World(sh: Shell, healthClock: nat -> nat, healthInspect: nat -> CmdOutcome)

  /** The health checker of the new container. */
  function CheckerOf(w: UpdateWorkflowConfig, t: UpdateTimeoutConfig): HealthChecker {
    NewHealthChecker(ContainerNameOf(w.runArgs), HealthWaitSeconds(t))
  }

  /** The health clock is read at least one polling interval apart. */
  ghost predicate Sleeps(w: UpdateWorkflowConfig, t: UpdateTimeoutConfig, world: World) {
    ClockAdvances(CheckerOf(w, t), world.healthClock)
  }

  // ---------------------------------------------------------------------
  // The pipeline, as written

  type Outcome = Result<(seq<UpdateStepLog>, RollbackResult), VersionError>

  /** The steps before the new container: the git pull, the build and the
      backup, each appending its log. The flag says whether the pipeline
      goes on to `docker run`; when it does not, the last log is a failure. */
  function BeforeRun(w: UpdateWorkflowConfig, operationId: string, sh: Shell)
    : (r: Result<(seq<UpdateStepLog>, bool), VersionError>)
    ensures r.Ok? ==> 1 <= |r.value.0| <= 3
    ensures r.Ok? ==> forall k :: 0 <= k < |r.value.0| ==> r.value.0[k].step == PipelineOrder[k]
    ensures r.Ok? ==> (r.value.1 <==> |r.value.0| == 3 && (r.value.0[2].ok || r.value.0[2].skipped))
    ensures r.Ok? ==> forall k :: 0 <= k < |r.value.0| - 1 ==> r.value.0[k].ok
    ensures r.Ok? && !r.value.1 ==> !r.value.0[|r.value.0| - 1].ok && !r.value.0[|r.value.0| - 1].skipped
  {
    var git :- GitPull(w, sh);
    if !git.ok then Ok(([git], false)) else
    var build :- DockerBuild(w, sh);
    if !build.ok then Ok(([git, build], false)) else
    var backup :- BackupContainer(NewRollbackManager(ContainerNameOf(w.runArgs), operationId), sh);
    Ok(([git, build, backup], backup.ok || backup.skipped))
  }

  /** The steps from `docker run` on, after the logs so far: a run that
      fails, or cannot be started, or a container that never comes up,
      restores the backup. */
  function FromRun(w: UpdateWorkflowConfig, t: UpdateTimeoutConfig, operationId: string, world: World,
                   logs: seq<UpdateStepLog>)
    : (r: Outcome)
    requires Sleeps(w, t, world)
  {
    var name := ContainerNameOf(w.runArgs);
    var mgr := NewRollbackManager(name, operationId);
    match DockerRun(w, world.sh)
    case Err(_) => Ok((logs, Rollback(mgr, world.sh)))
    case Ok(run) =>
      if !run.ok then Ok((logs + [run], Rollback(mgr, world.sh)))
      else if HealthFrom(CheckerOf(w, t), world.healthClock, world.healthInspect, 0).Ok? then
        Ok((logs + [run, HealthyLog(name)], NoRollback))
      else
        Ok((logs + [run, UnhealthyLog(name, t)], Rollback(mgr, world.sh)))
  }

  /** `UpdateOrchestrator::execute`: the logs and rollback of one update. */
  function ExecuteSpec(w: UpdateWorkflowConfig, t: UpdateTimeoutConfig, operationId: string, world: World)
    : (r: Outcome)
    requires Sleeps(w, t, world)
  {
    var (logs, goOn) :- BeforeRun(w, operationId, world.sh);
    if !goOn then Ok((logs, NoRollback)) else FromRun(w, t, operationId, world, logs)
  }

  /** `UpdateOrchestrator::execute`: each step's log is appended in turn; a
      step that fails before the container is replaced stops the update as
      it is, one that fails after restores the backup. */
  method Execute(w: UpdateWorkflowConfig, t: UpdateTimeoutConfig, operationId: string, world: World)
    returns (r: Outcome)
    requires Sleeps(w, t, world)
    ensures r == ExecuteSpec(w, t, operationId, world)
  {
    var logs: seq<UpdateStepLog> := [];
    var name := ExtractContainerName(w.runArgs);
    var mgr := NewRollbackManager(name, operationId);

    var git := GitPull(w, world.sh);
    if git.Err? {
      return Err(git.error);
    }
    logs := logs + [git.value];
    assert logs == [git.value];
    if !git.value.ok {
      return Ok((logs, NoRollback));
    }

    var build := DockerBuild(w, world.sh);
    if build.Err? {
      return Err(build.error);
    }
    logs := logs + [build.value];
    assert logs == [git.value, build.value];
    if !build.value.ok {
      return Ok((logs, NoRollback));
    }

    var backup := BackupContainer(mgr, world.sh);
    if backup.Err? {
      return Err(backup.error);
    }
    logs := logs + [backup.value];
    assert logs == [git.value, build.value, backup.value];
    assert BeforeRun(w, operationId, world.sh) == Ok((logs, backup.value.ok || backup.value.skipped));
    if !backup.value.ok && !backup.value.skipped {
      return Ok((logs, NoRollback));
    }

    r := RunAndWatch(w, t, operationId, world, mgr, logs);
  }

  /** The second half of `execute`: start the new container, wait for it,
      and either clean up the backup or restore it. */
  method RunAndWatch(w: UpdateWorkflowConfig, t: UpdateTimeoutConfig, operationId: string, world: World,
                     mgr: RollbackManager, logs0: seq<UpdateStepLog>)
    returns (r: Outcome)
    requires Sleeps(w, t, world)
    requires mgr == NewRollbackManager(ContainerNameOf(w.runArgs), operationId)
    ensures r == FromRun(w, t, operationId, world, logs0)
  {
    var logs := logs0;
    var run := DockerRun(w, world.sh);
    if run.Err? {
      return Ok((logs, Rollback(mgr, world.sh)));
    }
    logs := logs + [run.value];
    if !run.value.ok {
      return Ok((logs, Rollback(mgr, world.sh)));
    }

    var checker := NewHealthChecker(mgr.containerName, t.healthCheckMs / 1000);
    var healthy := WaitUntilHealthy(checker, world.healthClock, world.healthInspect);
    if healthy.Err? {
      logs := logs + [UnhealthyLog(mgr.containerName, t)];
      assert logs == logs0 + [run.value, UnhealthyLog(mgr.containerName, t)];
      return Ok((logs, Rollback(mgr, world.sh)));
    }
    logs := logs + [HealthyLog(mgr.containerName)];
    assert logs == logs0 + [run.value, HealthyLog(mgr.containerName)];

    // The backup is no longer needed; a failure to remove it is ignored.
    var _ := CleanupBackup(mgr, world.sh);
    return Ok((logs, NoRollback));
  }

  // ---------------------------------------------------------------------
  // Properties of the pipeline

  /** The steps in the order the pipeline runs them. */
  const PipelineOrder: seq<string> := ["git_pull", "docker_build", "backup_container", "docker_run", "health_check"]

  function StepsOf(logs: seq<UpdateStepLog>): (steps: seq<string>)
    ensures |steps| == |logs|
    ensures forall k :: 0 <= k < |logs| ==> steps[k] == logs[k].step
  {
    seq(|logs|, k requires 0 <= k < |logs| => logs[k].step)
  }

  /** Logs are only appended, in pipeline order, each step at most once
      and at least the first. */
  lemma LogsFollowPipelineOrder(w: UpdateWorkflowConfig, t: UpdateTimeoutConfig, operationId: string, world: World)
    requires Sleeps(w, t, world)
    ensures var r := ExecuteSpec(w, t, operationId, world);
            r.Ok? ==> 1 <= |r.value.0| && StepsOf(r.value.0) == PipelineOrder[..|r.value.0|]
  {
    var r := ExecuteSpec(w, t, operationId, world);
    var before := BeforeRun(w, operationId, world.sh);
    if before.Ok? && before.value.1 {
      FromRunFollowsOrder(w, t, operationId, world, before.value.0);
    }
    if r.Ok? {
      var steps := StepsOf(r.value.0);
      assert forall k :: 0 <= k < |steps| ==> steps[k] == PipelineOrder[k];
    }
  }

  /** From `docker run` on, the run and then the health check are appended
      after the three earlier steps. */
  lemma FromRunFollowsOrder(w: UpdateWorkflowConfig, t: UpdateTimeoutConfig, operationId: string, world: World,
                            logs: seq<UpdateStepLog>)
    requires Sleeps(w, t, world)
    requires |logs| == 3 && forall k :: 0 <= k < 3 ==> logs[k].step == PipelineOrder[k]
    ensures var r := FromRun(w, t, operationId, world, logs);
            r.Ok? && 3 <= |r.value.0| <= 5 && forall k :: 0 <= k < |r.value.0| ==> r.value.0[k].step == PipelineOrder[k]
  {
  }

  /** Only a git pull, a build or a backup rename that cannot be started
      makes the whole update an error. */
  lemma HardErrors(w: UpdateWorkflowConfig, t: UpdateTimeoutConfig, operationId: string, world: World)
    requires Sleeps(w, t, world)
    ensures var mgr := NewRollbackManager(ContainerNameOf(w.runArgs), operationId);
            var sh := world.sh;
            ExecuteSpec(w, t, operationId, world).Err? <==>
              sh.run(GitPullArgv(w)).SpawnError?
              || (sh.run(GitPullArgv(w)).Success() && sh.run(DockerBuildArgv(w)).SpawnError?)
              || (sh.run(GitPullArgv(w)).Success() && sh.run(DockerBuildArgv(w)).Success()
                  && sh.run(ExistsArgv(mgr)).Success() && sh.run(BackupArgv(mgr)).SpawnError?)
  {
  }

  /** A restore is attempted exactly when the pipeline got as far as the
      new container and that container did not come up: `docker run`
      failed, could not be started, or the health check gave up. Every
      earlier stop leaves the rollback not attempted. */
  lemma RollbackOnlyAfterRun(w: UpdateWorkflowConfig, t: UpdateTimeoutConfig, operationId: string, world: World)
    requires Sleeps(w, t, world)
    ensures var r := ExecuteSpec(w, t, operationId, world);
            r.Ok? ==>
              (r.value.1.attempted <==>
                 ReachedRun(w, operationId, world.sh)
                 && (!world.sh.run(DockerRunArgv(w)).Success()
                     || HealthFrom(CheckerOf(w, t), world.healthClock, world.healthInspect, 0).Err?))
    ensures var r := ExecuteSpec(w, t, operationId, world);
            r.Ok? && !r.value.1.attempted ==> r.value.1 == NoRollback
  {
  }

  /** The git pull and the build succeeded and the backup was made or
      skipped, so `docker run` is issued. */
  predicate ReachedRun(w: UpdateWorkflowConfig, operationId: string, sh: Shell) {
    var backup := BackupContainer(NewRollbackManager(ContainerNameOf(w.runArgs), operationId), sh);
    sh.run(GitPullArgv(w)).Success() && sh.run(DockerBuildArgv(w)).Success()
    && backup.Ok? && (backup.value.ok || backup.value.skipped)
  }

  // ---------------------------------------------------------------------
  // The response

  /** `update_image_and_restart`'s answer: successful when every log is
      ok or skipped, with the new image as the final reference exactly
      then. */
  function Respond(operationId: string, imageKey: string, newImageTag: string,
                   logs: seq<UpdateStepLog>, rollback: RollbackResult)
    : (resp: UpdateImageAndRestartResponse)
    ensures resp.success <==> forall k :: 0 <= k < |logs| ==> logs[k].ok || logs[k].skipped
    ensures resp.finalImageRef.Some? <==> resp.success
    ensures resp.success ==> resp.finalImageRef == Some(newImageTag)
    ensures resp.stepLogs == logs && resp.rollback == rollback
    ensures resp.operationId == operationId && resp.imageKey == imageKey
  {
    var success := forall k :: 0 <= k < |logs| ==> logs[k].ok || logs[k].skipped;
    UpdateImageAndRestartResponse(operationId, imageKey, success,
                                  if success then Some(newImageTag) else None, logs, rollback)
  }

  /** The operation identifier: the requested one, else "op-" and the
      Unix time in seconds. */
  function OperationId(request: UpdateImageAndRestartRequest, unixSeconds: int): (id: string)
    ensures request.operationId.Some? ==> id == request.operationId.value
    ensures request.operationId.None? ==> StartsWith(id, "op-") && id[3..] == IntToString(unixSeconds)
  {
    match request.operationId
    case Some(id) => id
    case None =>
      var id := "op-" + IntToString(unixSeconds);
      assert id[..3] == "op-" && id[3..] == IntToString(unixSeconds);
      id
  }

  /** The image key: "repository:tag". */
  function ImageKey(image: ImageSelection): (key: string)
    ensures |key| == |image.repository| + 1 + |image.tag|
    ensures StartsWith(key, image.repository) && key[|image.repository|] == ':'
    ensures key[|image.repository| + 1..] == image.tag
  {
    var key := image.repository + ":" + image.tag;
    assert key[..|image.repository|] == image.repository;
    key
  }

  /** `update_image_and_restart`, with the wall clock as `unixSeconds`. */
  method UpdateImageAndRestart(request: UpdateImageAndRestartRequest, unixSeconds: int, world: World)
    returns (r: Result<UpdateImageAndRestartResponse, VersionError>)
    requires Sleeps(request.workflow, request.timeouts, world)
    ensures var id := OperationId(request, unixSeconds);
            var e := ExecuteSpec(request.workflow, request.timeouts, id, world);
            r == if e.Err? then Err(e.error)
                 else Ok(Respond(id, ImageKey(request.image), request.workflow.newImageTag, e.value.0, e.value.1))
  {
    var id := OperationId(request, unixSeconds);
    var e := Execute(request.workflow, request.timeouts, id, world);
    if e.Err? {
      return Err(e.error);
    }
    var (logs, rollback) := e.value;
    return Ok(Respond(id, ImageKey(request.image), request.workflow.newImageTag, logs, rollback));
  }

  /** A `docker run` that cannot be started rolls back without logging a
      failed run, so the update is reported successful, with the new image
      as its final reference, although the new container never ran and the
      old one was put back. */
  lemma UnstartedRunReportsSuccess(w: UpdateWorkflowConfig, t: UpdateTimeoutConfig, operationId: string,
                                   world: World)
    requires Sleeps(w, t, world)
    requires ReachedRun(w, operationId, world.sh) && world.sh.run(DockerRunArgv(w)).SpawnError?
    ensures var r := ExecuteSpec(w, t, operationId, world);
            r.Ok? && r.value.1.attempted
            && Respond(operationId, "", w.newImageTag, r.value.0, r.value.1).success
            && Respond(operationId, "", w.newImageTag, r.value.0, r.value.1).finalImageRef == Some(w.newImageTag)
  {
    var mgr := NewRollbackManager(ContainerNameOf(w.runArgs), operationId);
    var git, build, backup := GitPull(w, world.sh), DockerBuild(w, world.sh), BackupContainer(mgr, world.sh);
    var r := ExecuteSpec(w, t, operationId, world);
    assert r == Ok(([git.value, build.value, backup.value], Rollback(mgr, world.sh)));
    var logs := r.value.0;
    assert forall k :: 0 <= k < |logs| ==> logs[k].ok || logs[k].skipped;
  }

  // ---------------------------------------------------------------------
  // The pipeline with a failed run always logged

  /** The failed-run log of a `docker run` that could not be started. */
  function UnstartedRunLog(w: UpdateWorkflowConfig, message: string): (log: UpdateStepLog)
    ensures log.step == "docker_run" && !log.ok && !log.skipped
  {
    UpdateStepLog("docker_run", Some("docker run " + Join(w.runArgs, " ") + " " + w.newImageTag), false, false,
                  "", Some("Failed to execute docker run: " + message), 0)
  }

  /** The steps from `docker run` on, with a run that cannot be started
      logged as a failed run. */
  function FromRunCorrected(w: UpdateWorkflowConfig, t: UpdateTimeoutConfig, operationId: string, world: World,
                            logs: seq<UpdateStepLog>)
    : (r: Outcome)
    requires Sleeps(w, t, world)
  {
    var mgr := NewRollbackManager(ContainerNameOf(w.runArgs), operationId);
    if world.sh.run(DockerRunArgv(w)).SpawnError? then
      Ok((logs + [UnstartedRunLog(w, world.sh.run(DockerRunArgv(w)).message)], Rollback(mgr, world.sh)))
    else
      FromRun(w, t, operationId, world, logs)
  }

  /** The update with every stop after the backup logged as a failure. */
  function ExecuteCorrected(w: UpdateWorkflowConfig, t: UpdateTimeoutConfig, operationId: string, world: World)
    : (r: Outcome)
    requires Sleeps(w, t, world)
  {
    var (logs, goOn) :- BeforeRun(w, operationId, world.sh);
    if !goOn then Ok((logs, NoRollback)) else FromRunCorrected(w, t, operationId, world, logs)
  }

  /** With the failed run logged, the update is reported successful
      exactly when the new container was seen running: all five steps are
      logged, the last a passed health check, and nothing was rolled back. */
  lemma CorrectedSuccessMeansHealthy(w: UpdateWorkflowConfig, t: UpdateTimeoutConfig, operationId: string,
                                     world: World, imageKey: string)
    requires Sleeps(w, t, world)
    ensures var r := ExecuteCorrected(w, t, operationId, world);
            r.Ok? ==>
              (Respond(operationId, imageKey, w.newImageTag, r.value.0, r.value.1).success <==>
                 |r.value.0| == 5 && r.value.0[4].step == "health_check" && r.value.0[4].ok)
    ensures var r := ExecuteCorrected(w, t, operationId, world);
            r.Ok? && Respond(operationId, imageKey, w.newImageTag, r.value.0, r.value.1).success ==>
              !r.value.1.attempted
              && HealthFrom(CheckerOf(w, t), world.healthClock, world.healthInspect, 0).Ok?
  {
    var r := ExecuteCorrected(w, t, operationId, world);
    var before := BeforeRun(w, operationId, world.sh);
    if before.Ok? {
      var logs := before.value.0;
      if !before.value.1 {
        FailedLastStep(operationId, imageKey, w.newImageTag, r, |logs|);
      } else {
        CorrectedFromRunSuccess(w, t, operationId, world, imageKey, logs);
      }
    }
  }

  /** After three steps that passed, the corrected steps from `docker run`
      on end in success exactly when the container was seen running. */
  lemma CorrectedFromRunSuccess(w: UpdateWorkflowConfig, t: UpdateTimeoutConfig, operationId: string,
                                world: World, imageKey: string, logs: seq<UpdateStepLog>)
    requires Sleeps(w, t, world)
    requires |logs| == 3 && forall k :: 0 <= k < 3 ==> logs[k].ok || logs[k].skipped
    ensures var r := FromRunCorrected(w, t, operationId, world, logs);
            r.Ok?
            && (Respond(operationId, imageKey, w.newImageTag, r.value.0, r.value.1).success <==>
                  |r.value.0| == 5 && r.value.0[4].step == "health_check" && r.value.0[4].ok)
            && (Respond(operationId, imageKey, w.newImageTag, r.value.0, r.value.1).success ==>
                  !r.value.1.attempted
                  && HealthFrom(CheckerOf(w, t), world.healthClock, world.healthInspect, 0).Ok?)
  {
    var r := FromRunCorrected(w, t, operationId, world, logs);
    var run := DockerRun(w, world.sh);
    if run.Err? || !run.value.ok {
      FailedLastStep(operationId, imageKey, w.newImageTag, r, 4);
    } else if HealthFrom(CheckerOf(w, t), world.healthClock, world.healthInspect, 0).Err? {
      FailedLastStep(operationId, imageKey, w.newImageTag, r, 5);
    } else {
      var all := r.value.0;
      assert all == logs + [run.value, all[4]];
      assert forall k :: 0 <= k < 5 ==> all[k].ok || all[k].skipped;
    }
  }

  /** An outcome whose last of `n` logs is a failure is not successful. */
  lemma FailedLastStep(operationId: string, imageKey: string, newImageTag: string, r: Outcome, n: nat)
    requires 1 <= n
    requires r.Ok? ==> |r.value.0| == n && !r.value.0[n - 1].ok && !r.value.0[n - 1].skipped
    ensures r.Ok? ==> !Respond(operationId, imageKey, newImageTag, r.value.0, r.value.1).success
  {
  }

  /** Both pipelines agree except when `docker run` cannot be started. */
  lemma CorrectedAgreesOtherwise(w: UpdateWorkflowConfig, t: UpdateTimeoutConfig, operationId: string, world: World)
    requires Sleeps(w, t, world)
    requires !world.sh.run(DockerRunArgv(w)).SpawnError?
    ensures ExecuteCorrected(w, t, operationId, world) == ExecuteSpec(w, t, operationId, world)
  {
  }
}
