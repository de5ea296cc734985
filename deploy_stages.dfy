/** The shape shared by the deploy steps: a list of stages (each a
    command, or the error its preparation raised) run in order, stopping at
    the first command that exits non-zero, and the step result built from
    what ran. */
module DeployStages {
  import opened Wrappers
  import opened Text
  import opened Contracts
  import opened ProcessRunner
  import opened DeployUtils

  /** What a step can observe of the machine: the command runner, the file
      system's answer for each directory, and the elapsed time it reports. */
  datatype DeployEnv = DeployEnv(exec: Executor, dirs: string -> DirProbe, elapsedMs: nat)

  // ---------------------------------------------------------------------
  // The reference behaviour: a list of stages run in order

  /** A command that ran, with what it gave. */
  datatype Ran = Ran(call: DeployCall, capture: ProcessCapture)

  /** Running one call: its capture, or the runner's error. */
  function RanOf(call: DeployCall, exec: Executor): (r: Result<Ran, string>)
    ensures r.Ok? <==> exec(call).Ok?
    ensures r.Ok? ==> r.value == Ran(call, exec(call).value)
    ensures r.Err? ==> r.error == exec(call).error
  {
    match exec(call)
    case Err(e) => Err(e)
    case Ok(capture) => Ok(Ran(call, capture))
  }

  /** Run the stages in order. A stage is a command, or the error its
      preparation raised; an error, or a command the runner cannot run,
      ends everything with that error. A command exiting non-zero stops the
      run: the later stages are neither prepared nor run. */
  function RunStages(stages: seq<Result<DeployCall, string>>, exec: Executor): (r: Result<seq<Ran>, string>)
    requires stages != []
    ensures r.Ok? ==> 1 <= |r.value| <= |stages|
  {
    match stages[0]
    case Err(e) => Err(e)
    case Ok(call) =>
      var first :- RanOf(call, exec);
      if first.capture.exitCode != 0 || |stages| == 1 then Ok([first])
      else
        var rest :- RunStages(stages[1..], exec);
        Ok([first] + rest)
  }

  /** What RunStages reports is what happened: the commands are the first
      stages, in order, each run once; all but the last exited 0; and the
      run stopped early only at a command exiting non-zero. */
  lemma {:induction false} RunStagesFaithful(stages: seq<Result<DeployCall, string>>, exec: Executor)
    requires stages != [] && RunStages(stages, exec).Ok?
    ensures var ran := RunStages(stages, exec).value;
            (forall i :: 0 <= i < |ran| ==> stages[i] == Ok(ran[i].call) && exec(ran[i].call) == Ok(ran[i].capture))
            && (forall i :: 0 <= i < |ran| - 1 ==> ran[i].capture.exitCode == 0)
            && (|ran| < |stages| ==> ran[|ran| - 1].capture.exitCode != 0)
  {
    var ran := RunStages(stages, exec).value;
    var first := RanOf(stages[0].value, exec).value;
    if first.capture.exitCode != 0 || |stages| == 1 {
      assert ran == [first];
    } else {
      var rest := RunStages(stages[1..], exec).value;
      assert ran == [first] + rest;
      RunStagesFaithful(stages[1..], exec);
      forall i | 1 <= i < |ran|
        ensures stages[i] == Ok(ran[i].call) && exec(ran[i].call) == Ok(ran[i].capture)
      {
        assert ran[i] == rest[i - 1] && stages[i] == stages[1..][i - 1];
      }
    }
  }

  /** A stage that cannot be prepared, reached after commands that all ran
      and exited 0, is the step's error: the commands already run are not
      reported. */
  lemma {:induction false} RunStagesReachesError(stages: seq<Result<DeployCall, string>>, exec: Executor, k: nat)
    requires k < |stages| && stages[k].Err?
    requires forall i :: 0 <= i < k ==>
               stages[i].Ok? && exec(stages[i].value).Ok? && exec(stages[i].value).value.exitCode == 0
    ensures RunStages(stages, exec) == Err(stages[k].error)
  {
    if k > 0 {
      assert stages[0].Ok? && exec(stages[0].value).Ok? && exec(stages[0].value).value.exitCode == 0;
      assert forall i :: 0 <= i < k - 1 ==> stages[1..][i] == stages[i + 1];
      RunStagesReachesError(stages[1..], exec, k - 1);
    }
  }

  /** The text recorded for a call. */
  function CallText(call: DeployCall): string {
    CommandText(call.command, call.args)
  }

  /** The output block recorded for a call. */
  function CallOutput(call: DeployCall, capture: ProcessCapture): string {
    FormatCommandOutput(call.command, call.args, capture)
  }

  /** The recorded text of each command that ran, in order. */
  function Texts(ran: seq<Ran>): (texts: seq<string>)
    ensures |texts| == |ran|
  {
    if ran == [] then [] else Texts(ran[..|ran| - 1]) + [CallText(ran[|ran| - 1].call)]
  }

  /** The output block of each command that ran, in order. */
  function Outputs(ran: seq<Ran>): (outputs: seq<string>)
    ensures |outputs| == |ran|
  {
    if ran == [] then [] else Outputs(ran[..|ran| - 1]) + [CallOutput(ran[|ran| - 1].call, ran[|ran| - 1].capture)]
  }

  lemma {:induction false} TextsAt(ran: seq<Ran>)
    ensures forall i :: 0 <= i < |ran| ==> Texts(ran)[i] == CallText(ran[i].call)
  {
    if ran != [] {
      TextsAt(ran[..|ran| - 1]);
    }
  }

  lemma TextsSnoc(ran: seq<Ran>, x: Ran)
    ensures Texts(ran + [x]) == Texts(ran) + [CallText(x.call)]
    ensures Outputs(ran + [x]) == Outputs(ran) + [CallOutput(x.call, x.capture)]
  {
    assert (ran + [x])[..|ran|] == ran;
  }

  /** `build_deploy_step_result` after the last command: ok exactly when it
      exited 0, with its preferred output as the error otherwise. */
  function Finish(step: string, commands: seq<string>, outputs: seq<string>, last: ProcessCapture, env: DeployEnv): DeployStepResult {
    DeployStepResult(step, last.exitCode == 0, false, commands, Join(outputs, "\n\n"),
                     if last.exitCode == 0 then None else Some(PreferErrorOutput(last)), env.elapsedMs)
  }

  function FinishRan(step: string, ran: seq<Ran>, env: DeployEnv): DeployStepResult
    requires ran != []
  {
    Finish(step, Texts(ran), Outputs(ran), ran[|ran| - 1].capture, env)
  }

  /** The step's result when `done` already ran and `rest` remains. */
  function Continue(step: string, done: seq<Ran>, rest: seq<Result<DeployCall, string>>, env: DeployEnv): (r: Result<DeployStepResult, string>)
    requires rest != []
    ensures r.Ok? ==> r.value.step == step && !r.value.skipped
  {
    match RunStages(rest, env.exec)
    case Err(e) => Err(e)
    case Ok(more) => Ok(FinishRan(step, done + more, env))
  }

  /** The step's result after running its stages. */
  function Staged(step: string, stages: seq<Result<DeployCall, string>>, env: DeployEnv): Result<DeployStepResult, string>
    requires stages != []
  {
    Continue(step, [], stages, env)
  }

  lemma ContinueStep(step: string, done: seq<Ran>, rest: seq<Result<DeployCall, string>>, env: DeployEnv, ran: Ran)
    requires |rest| >= 2 && rest[0] == Ok(ran.call) && env.exec(ran.call) == Ok(ran.capture)
    requires ran.capture.exitCode == 0
    ensures Continue(step, done, rest, env) == Continue(step, done + [ran], rest[1..], env)
  {
    assert RanOf(ran.call, env.exec) == Ok(ran);
    match RunStages(rest[1..], env.exec)
    case Err(e) =>
    case Ok(more) =>
      assert done + ([ran] + more) == done + [ran] + more;
  }

  lemma ContinueStop(step: string, done: seq<Ran>, rest: seq<Result<DeployCall, string>>, env: DeployEnv, ran: Ran)
    requires rest != [] && rest[0] == Ok(ran.call) && env.exec(ran.call) == Ok(ran.capture)
    requires ran.capture.exitCode != 0 || |rest| == 1
    ensures Continue(step, done, rest, env) == Ok(FinishRan(step, done + [ran], env))
  {
    assert RanOf(ran.call, env.exec) == Ok(ran);
  }

  lemma ContinueFails(step: string, done: seq<Ran>, rest: seq<Result<DeployCall, string>>, env: DeployEnv, e: string)
    requires rest != []
    requires rest[0] == Err(e) || (rest[0].Ok? && env.exec(rest[0].value) == Err(e))
    ensures Continue(step, done, rest, env) == Err(e)
  {
  }

  /** Every stage is a command that ran and exited 0. */
  predicate AllStagesSucceed(stages: seq<Result<DeployCall, string>>, exec: Executor) {
    forall i :: 0 <= i < |stages| ==>
      stages[i].Ok? && exec(stages[i].value).Ok? && exec(stages[i].value).value.exitCode == 0
  }

  /** Every stage ran and every command exited 0 exactly when the run got
      through all stages and the last command exited 0. */
  lemma RunStagesAllOk(stages: seq<Result<DeployCall, string>>, exec: Executor)
    requires stages != [] && RunStages(stages, exec).Ok?
    ensures var ran := RunStages(stages, exec).value;
            (ran[|ran| - 1].capture.exitCode == 0 ==> |ran| == |stages|)
            && (ran[|ran| - 1].capture.exitCode == 0 <==> AllStagesSucceed(stages, exec))
  {
    var ran := RunStages(stages, exec).value;
    RunStagesFaithful(stages, exec);
    if ran[|ran| - 1].capture.exitCode == 0 {
      forall i | 0 <= i < |stages|
        ensures stages[i].Ok? && exec(stages[i].value).Ok? && exec(stages[i].value).value.exitCode == 0
      {
        assert stages[i] == Ok(ran[i].call);
      }
    }
  }

  lemma StagedIsFinishRan(step: string, stages: seq<Result<DeployCall, string>>, env: DeployEnv)
    requires stages != [] && Staged(step, stages, env).Ok?
    ensures RunStages(stages, env.exec).Ok?
    ensures Staged(step, stages, env).value == FinishRan(step, RunStages(stages, env.exec).value, env)
  {
    var ran := RunStages(stages, env.exec).value;
    assert [] + ran == ran;
  }

  /** What a staged step reports: its name, unskipped, the commands that
      ran, their output blocks joined by blank lines, ok exactly when the
      last command exited 0, and that command's preferred output as the
      error otherwise. */
  lemma StagedReport(step: string, stages: seq<Result<DeployCall, string>>, env: DeployEnv)
    requires stages != [] && Staged(step, stages, env).Ok?
    ensures RunStages(stages, env.exec).Ok?
    ensures var res := Staged(step, stages, env).value;
            var ran := RunStages(stages, env.exec).value;
            var last := ran[|ran| - 1].capture;
            res.step == step && !res.skipped
            && res.commands == Texts(ran)
            && res.output == Join(Outputs(ran), "\n\n")
            && res.ok == (last.exitCode == 0)
            && res.error == (if last.exitCode == 0 then None else Some(PreferErrorOutput(last)))
            && res.elapsedMs == env.elapsedMs
  {
    StagedIsFinishRan(step, stages, env);
  }

  /** A step of one command reports that command, and is ok exactly when
      it exits 0. */
  lemma SingleStageReport(step: string, call: DeployCall, env: DeployEnv)
    requires Staged(step, [Ok(call)], env).Ok?
    ensures env.exec(call).Ok?
    ensures var res := Staged(step, [Ok(call)], env).value;
            res.commands == [CallText(call)] && !res.skipped
            && res.ok == (env.exec(call).value.exitCode == 0)
  {
    var stages := [Ok(call)];
    RunOneStage(call, env.exec);
    StagedReport(step, stages, env);
    var one := Ran(call, env.exec(call).value);
    TextsOfOne(one);
  }

  lemma RunOneStage(call: DeployCall, exec: Executor)
    ensures RunStages([Ok(call)], exec)
              == if exec(call).Ok? then Ok([Ran(call, exec(call).value)]) else Err(exec(call).error)
  {
  }

  lemma TextsOfOne(one: Ran)
    ensures Texts([one]) == [CallText(one.call)]
  {
    assert [one][..0] == [];
  }

  /** A staged step is ok exactly when every stage ran and every command
      exited 0. */
  lemma StagedOkIff(step: string, stages: seq<Result<DeployCall, string>>, env: DeployEnv)
    requires stages != [] && Staged(step, stages, env).Ok?
    ensures Staged(step, stages, env).value.ok <==> AllStagesSucceed(stages, env.exec)
  {
    StagedReport(step, stages, env);
    RunStagesAllOk(stages, env.exec);
  }

  /** A staged step reports between one command and all of them: the
      texts of the first stages, in order. */
  lemma StagedCommands(step: string, stages: seq<Result<DeployCall, string>>, env: DeployEnv)
    requires stages != [] && Staged(step, stages, env).Ok?
    ensures var commands := Staged(step, stages, env).value.commands;
            1 <= |commands| <= |stages|
            && forall i :: 0 <= i < |commands| ==> stages[i].Ok? && commands[i] == CallText(stages[i].value)
  {
    StagedReport(step, stages, env);
    var ran := RunStages(stages, env.exec).value;
    RunStagesFaithful(stages, env.exec);
    TextsAt(ran);
  }

  // ---------------------------------------------------------------------
  // Running the commands the way the source does

  /** `run_deploy_command` followed by recording its output block. */
  method RunRecorded(call: DeployCall, exec: Executor, commands: seq<string>, outputs: seq<string>)
    returns (r: Result<Ran, string>, commands': seq<string>, outputs': seq<string>)
    ensures r == RanOf(call, exec)
    ensures commands' == commands + [CallText(call)]
    ensures r.Ok? ==> outputs' == outputs + [CallOutput(call, r.value.capture)]
  {
    var result;
    commands', result := RunDeployCommand(call, exec, commands);
    match result
    case Err(e) =>
      r, outputs' := Err(e), outputs;
    case Ok(capture) =>
      r, outputs' := Ok(Ran(call, capture)), outputs + [FormatCommandOutput(call.command, call.args, capture)];
  }
}
