/** The records exchanged between the front end and the back end.
    Floating-point metrics are only copied around, so they are `real` here. */
module Contracts {
  import opened Wrappers

  // ---------------------------------------------------------------------
  // System sampling

  datatype DiskSnapshot = DiskSnapshot(
    name: string, mountPoint: string, totalGb: real, usedGb: real, usagePercent: real)

  datatype SystemSnapshot = SystemSnapshot(
    hostName: string,
    osName: string,
    osVersion: string,
    buildNumber: string,
    architecture: string,
    uptimeSeconds: nat,
    cpuModel: string,
    cpuCores: nat,
    cpuLogicalCores: nat,
    cpuUsagePercent: real,
    totalMemoryGb: real,
    usedMemoryGb: real,
    memoryUsagePercent: real,
    disks: seq<DiskSnapshot>,
    sampleMode: Option<string>,
    sampledAtMs: Option<nat>,
    isStale: Option<bool>)

  datatype SystemRealtimeSnapshot = SystemRealtimeSnapshot(
    uptimeSeconds: nat,
    cpuUsagePercent: real,
    totalMemoryGb: real,
    usedMemoryGb: real,
    memoryUsagePercent: real,
    sampleMode: Option<string>,
    sampledAtMs: Option<nat>,
    isStale: Option<bool>)

  // ---------------------------------------------------------------------
  // Tools, docker, install

  datatype ToolStatus = ToolStatus(
    name: string,
    command: string,
    category: string,
    installed: bool,
    version: Option<string>,
    details: Option<string>,
    installKey: Option<string>,
    installPath: Option<string>)

  datatype DockerCommandResult = DockerCommandResult(
    action: string, command: string, stdout: string, stderr: string, exitCode: int)

  datatype InstallResult = InstallResult(
    itemKey: string, packageId: string, command: string,
    stdout: string, stderr: string, exitCode: int)

  datatype UninstallResult = UninstallResult(
    itemKey: string, packageId: string, command: string,
    stdout: string, stderr: string, exitCode: int)

  datatype PathValidationResult = PathValidationResult(
    valid: bool, pathExists: bool, writable: bool, availableSpaceGb: Option<real>, error: Option<string>)

  datatype WingetStatus = WingetStatus(available: bool, version: Option<string>, error: Option<string>)

  /** The envelope every command answers with. */
  datatype CommandResponse<T> = CommandResponse(ok: bool, data: Option<T>, error: Option<string>, elapsedMs: nat)

  // ---------------------------------------------------------------------
  // Deploy

  datatype DeployGitConfig = DeployGitConfig(enabled: bool, remote: string)

  datatype DeployComposeConfig = DeployComposeConfig(
    projectPath: string, composeFile: string, service: string)

  datatype DeployRunConfig = DeployRunConfig(
    paramMode: string,
    containerName: string,
    imageRef: string,
    imageSource: string,
    buildContext: string,
    dockerfile: string,
    imageTag: string,
    portsText: string,
    envText: string,
    volumesText: string,
    restartPolicy: string,
    extraArgs: string,
    templateArgs: string)

  datatype DeployProfile = DeployProfile(
    id: string,
    name: string,
    mode: string,
    git: DeployGitConfig,
    compose: DeployComposeConfig,
    run: DeployRunConfig)

  datatype DeployStepRequest = DeployStepRequest(
    profile: DeployProfile, step: string, selectedBranch: Option<string>)

  datatype DeployStepResult = DeployStepResult(
    step: string,
    ok: bool,
    skipped: bool,
    commands: seq<string>,
    output: string,
    error: Option<string>,
    elapsedMs: nat)

  // ---------------------------------------------------------------------
  // Version checking

  datatype ImageSelection = ImageSelection(
    imageId: Option<string>,
    repository: string,
    tag: string,
    containerName: Option<string>,
    projectPath: Option<string>)

  datatype VersionSourceKind = DockerHub | GithubRelease | LocalGit | CustomApi

  datatype DockerHubSourceConfig = DockerHubSourceConfig(
    namespace: string, repository: string, includePrerelease: bool, tagRegex: Option<string>)

  datatype GithubReleaseSourceConfig = GithubReleaseSourceConfig(
    owner: string, repo: string, includePrerelease: bool, token: Option<string>)

  datatype LocalGitSourceConfig = LocalGitSourceConfig(
    repoPath: string, branch: string, versionFile: Option<string>)

  datatype HttpHeaderPair = HttpHeaderPair(key: string, value: string)

  datatype CustomApiSourceConfig = CustomApiSourceConfig(
    endpoint: string,
    httpMethod: string,
    headers: seq<HttpHeaderPair>,
    versionField: string,
    notesField: Option<string>,
    publishedAtField: Option<string>)

  datatype VersionSourceConfig =
    | DockerHubSource(dockerHub: DockerHubSourceConfig)
    | GithubReleaseSource(github: GithubReleaseSourceConfig)
    | LocalGitSource(localGit: LocalGitSourceConfig)
    | CustomApiSource(customApi: CustomApiSourceConfig)
  {
    /** The kind of source a configuration describes. */
    function Kind(): VersionSourceKind {
      match this
      case DockerHubSource(_) => DockerHub
      case GithubReleaseSource(_) => GithubRelease
      case LocalGitSource(_) => LocalGit
      case CustomApiSource(_) => CustomApi
    }
  }

  datatype CheckImageVersionRequest = CheckImageVersionRequest(
    image: ImageSelection,
    sources: seq<VersionSourceConfig>,
    timeoutMs: Option<nat>,
    overallTimeoutMs: Option<nat>)

  datatype VersionCandidate = VersionCandidate(
    source: VersionSourceKind,
    version: string,
    digest: Option<string>,
    releaseNotes: Option<string>,
    publishedAt: Option<string>,
    rawReference: Option<string>)

  datatype SourceCheckResult = SourceCheckResult(
    source: VersionSourceKind,
    ok: bool,
    errorCode: Option<string>,
    errorMessage: Option<string>,
    latest: Option<VersionCandidate>,
    elapsedMs: nat)

  datatype CheckImageVersionResponse = CheckImageVersionResponse(
    imageKey: string,
    currentVersion: Option<string>,
    hasUpdate: bool,
    recommended: Option<VersionCandidate>,
    results: seq<SourceCheckResult>,
    checkedAtMs: nat)

  // ---------------------------------------------------------------------
  // Update workflow

  datatype UpdateWorkflowConfig = UpdateWorkflowConfig(
    gitPullPath: string,
    gitBranch: string,
    buildContext: string,
    dockerfile: string,
    newImageTag: string,
    runArgs: seq<string>,
    healthCheckCmd: Option<seq<string>>)

  datatype UpdateTimeoutConfig = UpdateTimeoutConfig(
    gitPullMs: nat, dockerBuildMs: nat, dockerStopMs: nat, dockerRunMs: nat, healthCheckMs: nat)

  datatype RollbackPolicy = RollbackPolicy(enabled: bool, keepBackupMinutes: nat)

  datatype UpdateImageAndRestartRequest = UpdateImageAndRestartRequest(
    operationId: Option<string>,
    image: ImageSelection,
    source: VersionSourceKind,
    targetVersion: string,
    workflow: UpdateWorkflowConfig,
    timeouts: UpdateTimeoutConfig,
    rollback: RollbackPolicy)

  datatype UpdateStepLog = UpdateStepLog(
    step: string,
    command: Option<string>,
    ok: bool,
    skipped: bool,
    output: string,
    error: Option<string>,
    elapsedMs: nat)

  datatype RollbackResult = RollbackResult(
    attempted: bool, restored: bool, backupContainer: Option<string>, error: Option<string>)

  /** `RollbackResult::default()`: nothing attempted. */
  const NoRollback := RollbackResult(false, false, None, None)

  datatype UpdateImageAndRestartResponse = UpdateImageAndRestartResponse(
    operationId: string,
    imageKey: string,
    success: bool,
    finalImageRef: Option<string>,
    stepLogs: seq<UpdateStepLog>,
    rollback: RollbackResult)
}
