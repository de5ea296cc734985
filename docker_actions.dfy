/** Docker actions: the argument table for each action, running one
    action, and the overview batch that shares a time budget between
    several actions. */
module DockerActions {
  import opened Wrappers
  import opened Text
  import opened Contracts
  import opened ProcessRunner
  import opened DeployUtils

  const DockerActionTimeoutMs: nat := 10_000
  const DockerBatchTimeoutMs: nat := 25_000

  const UnsafeTargetError: string := "容器标识不合法,仅允许字母、数字、点、下划线、中划线"
  const BatchTimeoutMessage: string := "批量刷新超时(25000ms)"

  /** Actions that take no target. */
  predicate IsOverviewAction(action: string) {
    action == "version" || action == "info" || action == "ps" || action == "images"
    || action == "stats" || action == "system_df" || action == "compose_ls"
  }

  /** Actions on one container or image, named by the target. */
  predicate IsTargetAction(action: string) {
    action == "run" || action == "start" || action == "stop" || action == "restart"
    || action == "logs" || action == "rm" || action == "rmi"
  }

  /** The fixed arguments of an action that takes no target. */
  function OverviewArgs(action: string): (args: seq<string>)
    requires IsOverviewAction(action)
    ensures args != []
  {
    match action
    case "version" => ["--version"]
    case "info" => ["info"]
    case "ps" => ["ps", "--format", "table {{.ID}}\t{{.Names}}\t{{.Status}}\t{{.Ports}}"]
    case "images" => ["images", "--format", "table {{.Repository}}\t{{.Tag}}\t{{.ID}}\t{{.Size}}"]
    case "stats" => ["stats", "--no-stream", "--format", "table {{.Name}}\t{{.CPUPerc}}\t{{.MemUsage}}\t{{.NetIO}}"]
    case "system_df" => ["system", "df"]
    case "compose_ls" => ["compose", "ls"]
  }

  /** The arguments of an action on a validated target; `run` starts a new
      container named after the current time. */
  function TargetArgs(action: string, target: string, nowMs: nat): (args: seq<string>)
    requires IsTargetAction(action)
    ensures |args| >= 2 && args[0] == action && args[|args| - 1] == target
  {
    match action
    case "run" => ["run", "-d", "--name", "dep-run-" + NatToString(nowMs), target]
    case "logs" => ["logs", "--tail", "200", target]
    case _ => [action, target]
  }

  /** `build_docker_args`, with the clock reading `run` uses as a
      parameter. */
  function BuildDockerArgs(action: string, target: Option<string>, nowMs: nat): (r: Result<seq<string>, string>)
    ensures r.Ok? <==> IsOverviewAction(action) || (IsTargetAction(action) && target.Some? && IsSafeIdentifier(target.value))
    ensures IsOverviewAction(action) ==> r == Ok(OverviewArgs(action))
    ensures IsTargetAction(action) && target.None? ==> r == Err("动作 " + action + " 需要提供容器名称或 ID")
    ensures IsTargetAction(action) && target.Some? && !IsSafeIdentifier(target.value) ==> r == Err(UnsafeTargetError)
    ensures IsTargetAction(action) && r.Ok? ==> r.value == TargetArgs(action, target.value, nowMs)
    ensures !IsOverviewAction(action) && !IsTargetAction(action) ==> r == Err("未支持的 Docker 动作: " + action)
  {
    if IsOverviewAction(action) then Ok(OverviewArgs(action))
    else if IsTargetAction(action) then
      match target
      case None => Err("动作 " + action + " 需要提供容器名称或 ID")
      case Some(t) => if !IsSafeIdentifier(t) then Err(UnsafeTargetError) else Ok(TargetArgs(action, t, nowMs))
    else Err("未支持的 Docker 动作: " + action)
  }

  // ---------------------------------------------------------------------
  // Running an action

  /** Runs `docker` with the given arguments and timeout. */
  type DockerRunner = (seq<string>, nat) -> Result<ProcessCapture, string>

  /** The command line reported for a run. */
  function DockerCommandText(args: seq<string>): string {
    "docker " + Join(args, " ")
  }

  /** `execute_docker_action`: build the arguments, run them, and report
      the capture as it came. */
  function ExecuteDockerAction(action: string, target: Option<string>, timeoutMs: nat, nowMs: nat,
                               run: DockerRunner): (r: Result<DockerCommandResult, string>)
    ensures BuildDockerArgs(action, target, nowMs).Err? ==> r == Err(BuildDockerArgs(action, target, nowMs).error)
    ensures BuildDockerArgs(action, target, nowMs).Ok? ==>
              var args := BuildDockerArgs(action, target, nowMs).value;
              (r.Ok? <==> run(args, timeoutMs).Ok?)
              && (r.Err? ==> r.error == run(args, timeoutMs).error)
              && (r.Ok? ==> r.value.action == action && r.value.command == DockerCommandText(args)
                            && r.value.stdout == run(args, timeoutMs).value.stdout
                            && r.value.stderr == run(args, timeoutMs).value.stderr
                            && r.value.exitCode == run(args, timeoutMs).value.exitCode)
  {
    var args :- BuildDockerArgs(action, target, nowMs);
    var capture :- run(args, timeoutMs);
    Ok(DockerCommandResult(action, DockerCommandText(args), capture.stdout, capture.stderr, capture.exitCode))
  }

  // ---------------------------------------------------------------------
  // The overview batch

  /** The actions of an overview: seven for "full", five otherwise. */
  function OverviewActions(mode: string): (actions: seq<string>)
    ensures |actions| == (if mode == "full" then 7 else 5)
    ensures forall i :: 0 <= i < |actions| ==> IsOverviewAction(actions[i])
  {
    if mode == "full" then ["version", "info", "ps", "images", "stats", "compose_ls", "system_df"]
    else ["version", "ps", "images", "stats", "compose_ls"]
  }

  /** The result standing in for an action that did not run. */
  function Placeholder(action: string, message: string): DockerCommandResult {
    DockerCommandResult(action, "docker " + action, "", message, -1)
  }

  /** What is left of the batch budget for one action, capped at the
      single-action timeout. */
  function RemainingTimeout(elapsedMs: nat): (t: nat)
    requires elapsedMs < DockerBatchTimeoutMs
    ensures 1 <= t <= DockerActionTimeoutMs
    ensures elapsedMs + t <= DockerBatchTimeoutMs
    ensures t == DockerActionTimeoutMs || elapsedMs + t == DockerBatchTimeoutMs
  {
    var remain := DockerBatchTimeoutMs - elapsedMs;
    if remain < DockerActionTimeoutMs then remain else DockerActionTimeoutMs
  }

  /** One action of the batch, started `elapsedMs` into it. */
  function BatchEntry(action: string, elapsedMs: nat, nowMs: nat, run: DockerRunner): DockerCommandResult {
    if elapsedMs >= DockerBatchTimeoutMs then Placeholder(action, BatchTimeoutMessage)
    else
      match ExecuteDockerAction(action, None, RemainingTimeout(elapsedMs), nowMs, run)
      case Ok(result) => result
      case Err(error) => Placeholder(action, error)
  }

  /** The batch over `actions`, where `elapsedAt(i)` is the time spent
      before action i starts. */
  function BatchResults(actions: seq<string>, elapsedAt: nat -> nat, nowMs: nat, run: DockerRunner): (results: seq<DockerCommandResult>)
    ensures |results| == |actions|
  {
    if actions == [] then []
    else
      var n := |actions| - 1;
      BatchResults(actions[..n], elapsedAt, nowMs, run) + [BatchEntry(actions[n], elapsedAt(n), nowMs, run)]
  }

  /** `execute_docker_overview_batch`, with the clock as `elapsedAt` and
      `nowMs`. */
  method ExecuteDockerOverviewBatch(mode: string, elapsedAt: nat -> nat, nowMs: nat, run: DockerRunner)
    returns (r: Result<seq<DockerCommandResult>, string>)
    ensures r == Ok(BatchResults(OverviewActions(mode), elapsedAt, nowMs, run))
  {
    var actions := OverviewActions(mode);
    var results: seq<DockerCommandResult> := [];
    var i := 0;
    while i < |actions|
      invariant 0 <= i <= |actions|
      invariant results == BatchResults(actions[..i], elapsedAt, nowMs, run)
    {
      var action := actions[i];
      var elapsedMs := elapsedAt(i);
      var entry;
      if elapsedMs >= DockerBatchTimeoutMs {
        entry := Placeholder(action, BatchTimeoutMessage);
      } else {
        var remainTimeout := RemainingTimeout(elapsedMs);
        match ExecuteDockerAction(action, None, remainTimeout, nowMs, run)
        case Ok(result) => entry := result;
        case Err(error) => entry := Placeholder(action, error);
      }
      assert actions[..i + 1][..i] == actions[..i];
      results := results + [entry];
      i := i + 1;
    }
    assert actions[..i] == actions;
    r := Ok(results);
  }

  /** Entry i of the batch is action i, started `elapsedAt(i)` in. */
  lemma {:induction false} BatchResultsAt(actions: seq<string>, elapsedAt: nat -> nat, nowMs: nat, run: DockerRunner, i: nat)
    requires i < |actions|
    ensures BatchResults(actions, elapsedAt, nowMs, run)[i] == BatchEntry(actions[i], elapsedAt(i), nowMs, run)
    decreases |actions|
  {
    var n := |actions| - 1;
    if i < n {
      BatchResultsAt(actions[..n], elapsedAt, nowMs, run, i);
    }
  }

  /** Every entry names its action, in order. Once the budget is spent an
      action is not run and reports exit -1 with the timeout message;
      before that it runs with the rest of the budget, at most 10 s, and
      a failure to run becomes an exit -1 entry carrying the error. */
  lemma BatchEntryBudget(action: string, elapsedMs: nat, nowMs: nat, run: DockerRunner)
    requires IsOverviewAction(action)
    ensures var e := BatchEntry(action, elapsedMs, nowMs, run);
            e.action == action
            && (elapsedMs >= DockerBatchTimeoutMs ==> e == Placeholder(action, BatchTimeoutMessage))
            && (elapsedMs < DockerBatchTimeoutMs ==>
                  var args := OverviewArgs(action);
                  var t := RemainingTimeout(elapsedMs);
                  (run(args, t).Err? ==> e == Placeholder(action, run(args, t).error))
                  && (run(args, t).Ok? ==> e.command == DockerCommandText(args)
                                           && e.exitCode == run(args, t).value.exitCode))
  {
  }

  /** The batch has one entry per action of the mode, in order, and no
      overview action fails for want of a target. */
  lemma OverviewBatchShape(mode: string, elapsedAt: nat -> nat, nowMs: nat, run: DockerRunner)
    ensures var actions := OverviewActions(mode);
            var results := BatchResults(actions, elapsedAt, nowMs, run);
            |results| == (if mode == "full" then 7 else 5)
            && forall i :: 0 <= i < |results| ==> results[i].action == actions[i]
                                                   && BuildDockerArgs(actions[i], None, nowMs).Ok?
  {
    var actions := OverviewActions(mode);
    forall i | 0 <= i < |actions|
      ensures BatchResults(actions, elapsedAt, nowMs, run)[i].action == actions[i]
    {
      BatchResultsAt(actions, elapsedAt, nowMs, run, i);
      BatchEntryBudget(actions[i], elapsedAt(i), nowMs, run);
    }
  }

  /** With a clock that never goes back, once one action finds the budget
      spent, every later action is a timeout placeholder and runs nothing. */
  lemma BudgetSpentStaysSpent(actions: seq<string>, elapsedAt: nat -> nat, nowMs: nat, run: DockerRunner, k: nat)
    requires forall i, j :: i <= j ==> elapsedAt(i) <= elapsedAt(j)
    requires k < |actions| && elapsedAt(k) >= DockerBatchTimeoutMs
    ensures forall j :: k <= j < |actions| ==>
              BatchResults(actions, elapsedAt, nowMs, run)[j] == Placeholder(actions[j], BatchTimeoutMessage)
  {
    forall j | k <= j < |actions|
      ensures BatchResults(actions, elapsedAt, nowMs, run)[j] == Placeholder(actions[j], BatchTimeoutMessage)
    {
      BatchResultsAt(actions, elapsedAt, nowMs, run, j);
      assert elapsedAt(k) <= elapsedAt(j);
    }
  }
}
