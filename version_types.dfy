/** Step identifiers of the update workflow and the backup record of a
    container. */
module VersionTypes {
  import opened Wrappers
  import opened Text

  datatype UpdateStep =
    | GitPull
    | DockerBuild
    | DockerStop
    | DockerRename
    | DockerRun
    | HealthCheck
    | Rollback

  /** `UpdateStep::as_str`: the snake_case name, which reads back to the
      same step. */
  function StepName(step: UpdateStep): (name: string)
    ensures StepOfName(name) == Some(step)
  {
    match step
    case GitPull => "git_pull"
    case DockerBuild => "docker_build"
    case DockerStop => "docker_stop"
    case DockerRename => "docker_rename"
    case DockerRun => "docker_run"
    case HealthCheck => "health_check"
    case Rollback => "rollback"
  }

  /** Reads a step name back. */
  function StepOfName(name: string): Option<UpdateStep> {
    if name == "git_pull" then Some(GitPull)
    else if name == "docker_build" then Some(DockerBuild)
    else if name == "docker_stop" then Some(DockerStop)
    else if name == "docker_rename" then Some(DockerRename)
    else if name == "docker_run" then Some(DockerRun)
    else if name == "health_check" then Some(HealthCheck)
    else if name == "rollback" then Some(Rollback)
    else None
  }

  /** Distinct steps have distinct names. */
  lemma StepNameInjective(a: UpdateStep, b: UpdateStep)
    ensures StepName(a) == StepName(b) ==> a == b
  {
    assert StepOfName(StepName(a)) == Some(a);
    assert StepOfName(StepName(b)) == Some(b);
  }

  /** The name given to the renamed copy of a container during an update:
      `{container}-backup-{operation}`. */
  function BackupName(container: string, operationId: string): (name: string)
    ensures StartsWith(name, container) && EndsWith(name, operationId)
    ensures |name| == |container| + 8 + |operationId|
  {
    var name := container + "-backup-" + operationId;
    assert name[..|container|] == container;
    assert name[|name| - |operationId|..] == operationId;
    name
  }

  /** Within one container, different operations give different backup
      names, and the operation can be read back from the name. */
  lemma BackupNameInjective(container: string, op1: string, op2: string)
    ensures BackupName(container, op1) == BackupName(container, op2) ==> op1 == op2
  {
    var n1 := BackupName(container, op1);
    var n2 := BackupName(container, op2);
    if n1 == n2 {
      assert op1 == n1[|container| + 8..];
      assert op2 == n2[|container| + 8..];
    }
  }

  datatype ContainerBackup = ContainerBackup(
    originalName: string, backupName: string, imageRef: string, createdAtMs: nat)

  /** `ContainerBackup::new`, with the wall clock passed in as `nowMs`. */
  function NewContainerBackup(originalName: string, operationId: string, imageRef: string, nowMs: nat)
    : (b: ContainerBackup)
    ensures b.originalName == originalName && b.imageRef == imageRef && b.createdAtMs == nowMs
    ensures b.backupName == BackupName(originalName, operationId)
  {
    ContainerBackup(originalName, BackupName(originalName, operationId), imageRef, nowMs)
  }
}
