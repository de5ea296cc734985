/** The argument lists handed to `docker` by the deploy steps: pulling and
    building an image, running a container from a form or from a template,
    and stopping or starting a compose project. */
module DeployArgs {
  import opened Wrappers
  import opened Text
  import opened Contracts
  import opened DeployUtils

  const ContainerNameError: string := "容器名称不合法，仅允许字母、数字、点、下划线、中划线。"
  const EmptyTemplateError: string := "高级模板参数不能为空。"
  const ImagePlaceholder: string := "{{IMAGE}}"
  const ContainerPlaceholder: string := "{{CONTAINER}}"

  /** A non-empty string with no whitespace at either end. */
  predicate IsWord(a: string) {
    a != [] && !IsWhitespace(a[0]) && !IsWhitespace(a[|a| - 1])
  }

  /** Every argument is a word. */
  predicate Words(args: seq<string>) {
    forall k :: 0 <= k < |args| ==> IsWord(args[k])
  }

  /** A word is exactly a non-empty string that trimming leaves alone. */
  lemma WordIsTrimmed(a: string)
    ensures IsWord(a) <==> a != [] && Trim(a) == a
  {
    if IsWord(a) {
      TrimStartOfTrimmed(a);
      TrimEndOfTrimmed(a);
    }
  }

  lemma WordsConcat(a: seq<string>, b: seq<string>)
    requires Words(a) && Words(b)
    ensures Words(a + b)
  {
    assert forall k :: |a| <= k < |a + b| ==> (a + b)[k] == b[k - |a|];
  }

  /** A non-empty string without whitespace is its own trim. */
  lemma TrimOfToken(s: string)
    requires s != [] && NoWhitespace(s)
    ensures Trim(s) == s
  {
    TrimStartOfTrimmed(s);
    TrimEndOfTrimmed(s);
  }

  /** Trimming and dropping empty pieces changes nothing on the tokens of
      `split_whitespace`, so the `trim`/`filter` after it is redundant. */
  lemma {:induction false} TokensAreKept(tokens: seq<string>)
    requires forall k :: 0 <= k < |tokens| ==> tokens[k] != [] && NoWhitespace(tokens[k])
    ensures NonEmptyTrimmed(tokens) == tokens
  {
    if tokens != [] {
      TokensAreKept(tokens[1..]);
      KeepFirstToken(tokens[0], tokens[1..]);
      assert tokens == [tokens[0]] + tokens[1..];
    }
  }

  lemma KeepFirstToken(first: string, rest: seq<string>)
    requires first != [] && NoWhitespace(first)
    ensures NonEmptyTrimmed([first] + rest) == [first] + NonEmptyTrimmed(rest)
  {
    TrimOfToken(first);
    assert ([first] + rest)[1..] == rest;
  }

  /** The tokens of a string as `split_whitespace().map(trim).filter(non-empty)`
      yields them. */
  function Tokens(s: string): (tokens: seq<string>)
    ensures Words(tokens)
  {
    NonEmptyTrimmed(SplitWhitespace(s))
  }

  lemma TokensAreSplitWhitespace(s: string)
    ensures Tokens(s) == SplitWhitespace(s)
  {
    var pieces := SplitWhitespace(s);
    SplitWhitespaceTokens(s);
    TokensAreKept(pieces);
    assert Tokens(s) == NonEmptyTrimmed(pieces);
  }

  // ---------------------------------------------------------------------
  // Pull and build

  /** `build_run_image_pull_args`. */
  function PullArgs(imageRef: string): (r: Result<seq<string>, string>)
    ensures r.Ok? <==> IsSafeDockerImageRef(imageRef)
    ensures r.Ok? ==> r.value == ["pull", imageRef]
    ensures r.Err? ==> r.error == "镜像引用包含非法字符。"
  {
    if !IsSafeDockerImageRef(imageRef) then Err("镜像引用包含非法字符。") else Ok(["pull", imageRef])
  }

  /** `build_run_image_build_args`: tag the image, name the Dockerfile when
      one is configured, and build the current directory. */
  function BuildArgs(run: DeployRunConfig, imageRef: string): (r: Result<seq<string>, string>)
    ensures r.Ok? <==> IsSafeDockerImageRef(imageRef)
    ensures r.Err? ==> r.error == "镜像 Tag 不合法。"
    ensures r.Ok? ==> |r.value| == (if IsBlank(run.dockerfile) then 4 else 6)
    ensures r.Ok? ==> r.value[..3] == ["build", "-t", imageRef] && r.value[|r.value| - 1] == "."
    ensures r.Ok? && !IsBlank(run.dockerfile) ==> r.value[3..5] == ["-f", Trim(run.dockerfile)]
  {
    if !IsSafeDockerImageRef(imageRef) then Err("镜像 Tag 不合法。")
    else
      if IsBlank(run.dockerfile) then Ok(["build", "-t", imageRef, "."])
      else Ok(["build", "-t", imageRef, "-f", Trim(run.dockerfile), "."])
  }

  /** `resolve_run_image_ref`: the trimmed tag in build mode, the trimmed
      image reference otherwise; each must be present and safe. */
  function ResolveRunImageRef(run: DeployRunConfig): (r: Result<string, string>)
    ensures var raw := if run.imageSource == "build" then run.imageTag else run.imageRef;
            (r.Ok? <==> !IsBlank(raw) && IsSafeDockerImageRef(Trim(raw)))
            && (r.Ok? ==> r.value == Trim(raw))
    ensures run.imageSource == "build" && IsBlank(run.imageTag) ==> r == Err("构建模式缺少镜像 Tag。")
    ensures run.imageSource == "build" && !IsBlank(run.imageTag) && !IsSafeDockerImageRef(Trim(run.imageTag))
            ==> r == Err("构建模式镜像 Tag 包含非法字符。")
    ensures run.imageSource != "build" && IsBlank(run.imageRef) ==> r == Err("拉取模式缺少镜像引用。")
    ensures run.imageSource != "build" && !IsBlank(run.imageRef) && !IsSafeDockerImageRef(Trim(run.imageRef))
            ==> r == Err("镜像引用包含非法字符。")
  {
    if run.imageSource == "build" then
      var tag := Trim(run.imageTag);
      if tag == [] then Err("构建模式缺少镜像 Tag。")
      else if !IsSafeDockerImageRef(tag) then Err("构建模式镜像 Tag 包含非法字符。")
      else Ok(tag)
    else
      var imageRef := Trim(run.imageRef);
      if imageRef == [] then Err("拉取模式缺少镜像引用。")
      else if !IsSafeDockerImageRef(imageRef) then Err("镜像引用包含非法字符。")
      else Ok(imageRef)
  }

  /** A resolved reference is never refused later: pulling it and building
      it both produce their argument lists. */
  lemma ResolvedRefIsAccepted(run: DeployRunConfig)
    requires ResolveRunImageRef(run).Ok?
    ensures PullArgs(ResolveRunImageRef(run).value).Ok?
    ensures BuildArgs(run, ResolveRunImageRef(run).value).Ok?
  {
  }

  // ---------------------------------------------------------------------
  // Run from the form

  /** One `flag value` pair per line, in order. */
  function Flags(flag: string, lines: seq<string>): (args: seq<string>)
    ensures |args| == 2 * |lines|
  {
    if lines == [] then []
    else Flags(flag, lines[..|lines| - 1]) + [flag, lines[|lines| - 1]]
  }

  /** Each line sits right after its own flag: line `k` is argument
      `2k + 1`, and argument `2k` is the flag. */
  lemma {:induction false} FlagsArePairs(flag: string, lines: seq<string>)
    ensures forall k :: 0 <= k < |lines| ==>
              Flags(flag, lines)[2 * k] == flag && Flags(flag, lines)[2 * k + 1] == lines[k]
  {
    if lines != [] {
      var init := lines[..|lines| - 1];
      FlagsArePairs(flag, init);
      assert forall k :: 0 <= k < |init| ==> init[k] == lines[k];
    }
  }

  lemma FlagsAreWords(flag: string, lines: seq<string>)
    requires IsWord(flag) && Words(lines)
    ensures Words(Flags(flag, lines))
  {
    var args := Flags(flag, lines);
    FlagsArePairs(flag, lines);
    forall i | 0 <= i < |args|
      ensures IsWord(args[i])
    {
      var k := i / 2;
      assert 0 <= k < |lines|;
      if i % 2 == 0 {
        assert i == 2 * k && args[2 * k] == flag;
      } else {
        assert i == 2 * k + 1 && args[2 * k + 1] == lines[k];
      }
    }
  }

  /** `--restart <policy>` when a policy is configured. */
  function RestartArgs(run: DeployRunConfig): seq<string> {
    if IsBlank(run.restartPolicy) then [] else ["--restart", Trim(run.restartPolicy)]
  }

  /** The free-form extra arguments, split on whitespace. */
  function ExtraArgs(run: DeployRunConfig): seq<string> {
    if IsBlank(run.extraArgs) then [] else Tokens(run.extraArgs)
  }

  /** The form's command from its parts. */
  function FormArgsOf(name: string, restart: seq<string>, ports: seq<string>, envs: seq<string>,
                      volumes: seq<string>, extra: seq<string>, imageRef: string): seq<string> {
    ["run", "-d", "--name", name] + restart + Flags("-p", ports) + Flags("-e", envs) + Flags("-v", volumes)
    + extra + [imageRef]
  }

  /** `build_run_form_args`: `run -d --name <container>`, the restart
      policy, one `-p`, `-e` and `-v` pair per non-empty line of the ports,
      environment and volumes texts, the extra arguments, and the image. */
  function RunFormArgs(run: DeployRunConfig, imageRef: string): (r: Result<seq<string>, string>)
    ensures r.Ok? <==> IsSafeIdentifier(Trim(run.containerName))
    ensures r.Err? ==> r.error == ContainerNameError
  {
    var name := Trim(run.containerName);
    if !IsSafeIdentifier(name) then Err(ContainerNameError)
    else
      Ok(FormArgsOf(name, RestartArgs(run), SplitNonEmptyLines(run.portsText), SplitNonEmptyLines(run.envText),
                    SplitNonEmptyLines(run.volumesText), ExtraArgs(run), imageRef))
  }

  /** Appends one `flag line` pair per line, as the `for` loops do. */
  method PushFlags(args: seq<string>, flag: string, lines: seq<string>) returns (out: seq<string>)
    ensures out == args + Flags(flag, lines)
  {
    out := args;
    var i := 0;
    while i < |lines|
      invariant 0 <= i <= |lines|
      invariant out == args + Flags(flag, lines[..i])
    {
      assert lines[..i + 1][..i] == lines[..i];
      out := out + [flag, lines[i]];
      i := i + 1;
    }
    assert lines[..|lines|] == lines;
  }

  /** The form builder, pushing onto the argument vector step by step;
      the restart policy and the extra arguments are pushed only when
      configured (`RestartArgs`, `ExtraArgs`). */
  method BuildRunFormArgs(run: DeployRunConfig, imageRef: string) returns (r: Result<seq<string>, string>)
    ensures r == RunFormArgs(run, imageRef)
  {
    var name := Trim(run.containerName);
    if !IsSafeIdentifier(name) {
      return Err(ContainerNameError);
    }
    var args := ["run", "-d", "--name", name] + RestartArgs(run);
    args := PushFlags(args, "-p", SplitNonEmptyLines(run.portsText));
    args := PushFlags(args, "-e", SplitNonEmptyLines(run.envText));
    args := PushFlags(args, "-v", SplitNonEmptyLines(run.volumesText));
    args := args + ExtraArgs(run);
    args := args + [imageRef];
    r := Ok(args);
  }

  lemma FormArgsOfFrame(name: string, restart: seq<string>, ports: seq<string>, envs: seq<string>,
                        volumes: seq<string>, extra: seq<string>, imageRef: string)
    ensures var args := FormArgsOf(name, restart, ports, envs, volumes, extra, imageRef);
            |args| >= 5 && args[..4] == ["run", "-d", "--name", name] && args[|args| - 1] == imageRef
  {
  }

  lemma {:induction false} FormArgsOfWords(name: string, restart: seq<string>, ports: seq<string>,
                                           envs: seq<string>, volumes: seq<string>, extra: seq<string>,
                                           imageRef: string)
    requires IsWord(name) && IsWord(imageRef)
    requires Words(restart) && Words(ports) && Words(envs) && Words(volumes) && Words(extra)
    ensures Words(FormArgsOf(name, restart, ports, envs, volumes, extra, imageRef))
  {
    var head := ["run", "-d", "--name", name];
    assert Words(head);
    FlagsAreWords("-p", ports);
    FlagsAreWords("-e", envs);
    FlagsAreWords("-v", volumes);
    var a := head + restart;
    WordsConcat(head, restart);
    var b := a + Flags("-p", ports);
    WordsConcat(a, Flags("-p", ports));
    var c := b + Flags("-e", envs);
    WordsConcat(b, Flags("-e", envs));
    var d := c + Flags("-v", volumes);
    WordsConcat(c, Flags("-v", volumes));
    var e := d + extra;
    WordsConcat(d, extra);
    WordsConcat(e, [imageRef]);
  }

  /** Non-empty trimmed lines are words. */
  lemma LinesAreWords(text: string)
    ensures Words(SplitNonEmptyLines(text))
  {
    var lines := SplitNonEmptyLines(text);
    forall k | 0 <= k < |lines|
      ensures IsWord(lines[k])
    {
      WordIsTrimmed(lines[k]);
    }
  }

  /** The form's command starts `run -d --name <container>` and ends with
      the image. */
  lemma FormArgsFrame(run: DeployRunConfig, imageRef: string)
    requires RunFormArgs(run, imageRef).Ok?
    ensures var args := RunFormArgs(run, imageRef).value;
            |args| >= 5
            && args[..4] == ["run", "-d", "--name", Trim(run.containerName)]
            && args[|args| - 1] == imageRef
  {
    FormArgsOfFrame(Trim(run.containerName), RestartArgs(run), SplitNonEmptyLines(run.portsText),
                    SplitNonEmptyLines(run.envText), SplitNonEmptyLines(run.volumesText), ExtraArgs(run), imageRef);
  }

  /** When the image reference is a word, every argument of the form's
      command is one: no blank line or stray space ever reaches docker. */
  lemma FormArgsAreWords(run: DeployRunConfig, imageRef: string)
    requires RunFormArgs(run, imageRef).Ok? && IsWord(imageRef)
    ensures Words(RunFormArgs(run, imageRef).value)
  {
    var name := Trim(run.containerName);
    var restart, ports, envs, volumes, extra := RestartArgs(run), SplitNonEmptyLines(run.portsText),
      SplitNonEmptyLines(run.envText), SplitNonEmptyLines(run.volumesText), ExtraArgs(run);
    assert RunFormArgs(run, imageRef).value == FormArgsOf(name, restart, ports, envs, volumes, extra, imageRef);
    TrimmedIsWord(run.containerName);
    RestartIsWords(run);
    LinesAreWords(run.portsText);
    LinesAreWords(run.envText);
    LinesAreWords(run.volumesText);
    FormArgsOfWords(name, restart, ports, envs, volumes, extra, imageRef);
  }

  lemma RestartIsWords(run: DeployRunConfig)
    ensures Words(RestartArgs(run))
  {
    if !IsBlank(run.restartPolicy) {
      TrimmedIsWord(run.restartPolicy);
      RestartPairIsWords(Trim(run.restartPolicy));
    }
  }

  /** The trim of a non-blank string is a word. */
  lemma TrimmedIsWord(s: string)
    requires !IsBlank(s)
    ensures IsWord(Trim(s))
  {
  }

  lemma RestartPairIsWords(policy: string)
    requires IsWord(policy)
    ensures Words(["--restart", policy])
  {
  }


  // ---------------------------------------------------------------------
  // Run from the template

  /** The template with both placeholders filled in, split into tokens. */
  function TemplateTokens(run: DeployRunConfig, imageRef: string): seq<string> {
    var filled := ReplaceAll(ReplaceAll(run.templateArgs, ImagePlaceholder, imageRef),
                             ContainerPlaceholder, Trim(run.containerName));
    Tokens(filled)
  }

  /** `build_run_template_args`: the filled-in template's tokens, with
      `run` put in front unless the template already starts with it. */
  function RunTemplateArgs(run: DeployRunConfig, imageRef: string): (r: Result<seq<string>, string>)
    ensures r.Ok? <==> IsSafeIdentifier(Trim(run.containerName)) && TemplateTokens(run, imageRef) != []
    ensures !IsSafeIdentifier(Trim(run.containerName)) ==> r == Err(ContainerNameError)
    ensures IsSafeIdentifier(Trim(run.containerName)) && TemplateTokens(run, imageRef) == [] ==>
              r == Err(EmptyTemplateError)
    ensures r.Ok? ==> r.value != [] && r.value[0] == "run"
    ensures r.Ok? ==> r.value == (if TemplateTokens(run, imageRef)[0] == "run" then TemplateTokens(run, imageRef)
                                  else ["run"] + TemplateTokens(run, imageRef))
  {
    var name := Trim(run.containerName);
    if !IsSafeIdentifier(name) then Err(ContainerNameError)
    else
      var tokens := TemplateTokens(run, imageRef);
      if tokens == [] then Err(EmptyTemplateError)
      else if tokens[0] != "run" then Ok(["run"] + tokens)
      else Ok(tokens)
  }

  /** Every argument of the template's command is a word. */
  lemma TemplateArgsAreWords(run: DeployRunConfig, imageRef: string)
    requires RunTemplateArgs(run, imageRef).Ok?
    ensures Words(RunTemplateArgs(run, imageRef).value)
  {
    var tokens := TemplateTokens(run, imageRef);
    if tokens[0] != "run" {
      PrependRunKeepsWords(tokens);
    }
  }

  lemma PrependRunKeepsWords(tokens: seq<string>)
    requires Words(tokens)
    ensures Words(["run"] + tokens)
  {
    assert Words(["run"]);
    WordsConcat(["run"], tokens);
  }

  /** A template without placeholders runs its own whitespace-separated
      words, with a single `run` at the front. */
  lemma TemplateWithoutPlaceholders(run: DeployRunConfig, imageRef: string)
    requires IsSafeIdentifier(Trim(run.containerName))
    requires !Contains(run.templateArgs, ImagePlaceholder) && !Contains(run.templateArgs, ContainerPlaceholder)
    requires SplitWhitespace(run.templateArgs) != []
    ensures var words := SplitWhitespace(run.templateArgs);
            RunTemplateArgs(run, imageRef)
              == Ok(if words[0] == "run" then words else ["run"] + words)
  {
    ReplaceAllAbsent(run.templateArgs, ImagePlaceholder, imageRef);
    ReplaceAllAbsent(run.templateArgs, ContainerPlaceholder, Trim(run.containerName));
    TokensAreSplitWhitespace(run.templateArgs);
  }

  // ---------------------------------------------------------------------
  // Dispatch

  /** The arguments of `docker run` in either parameter mode. */
  function RunDeployArgs(run: DeployRunConfig, imageRef: string): Result<seq<string>, string> {
    if run.paramMode == "template" then RunTemplateArgs(run, imageRef) else RunFormArgs(run, imageRef)
  }

  /** `build_run_deploy_args`. */
  method BuildRunDeployArgs(profile: DeployProfile, imageRef: string) returns (r: Result<seq<string>, string>)
    ensures r == RunDeployArgs(profile.run, imageRef)
  {
    if profile.run.paramMode == "template" {
      return RunTemplateArgs(profile.run, imageRef);
    }
    r := BuildRunFormArgs(profile.run, imageRef);
  }

  /** In either mode, a container is only ever run under a safe name, the
      command is `run …`, and (for a resolved image) every argument is a
      word. */
  lemma DeployArgsAreSafe(run: DeployRunConfig, imageRef: string)
    requires RunDeployArgs(run, imageRef).Ok?
    ensures IsSafeIdentifier(Trim(run.containerName))
    ensures RunDeployArgs(run, imageRef).value[0] == "run"
    ensures IsWord(imageRef) ==> Words(RunDeployArgs(run, imageRef).value)
  {
    if run.paramMode != "template" {
      FormArgsFrame(run, imageRef);
      if IsWord(imageRef) {
        FormArgsAreWords(run, imageRef);
      }
    } else {
      TemplateArgsAreWords(run, imageRef);
    }
  }

  // ---------------------------------------------------------------------
  // Compose

  /** `-f <file>` when a compose file is configured. */
  function ComposeFileArgs(compose: DeployComposeConfig): seq<string> {
    if IsBlank(compose.composeFile) then [] else ["-f", Trim(compose.composeFile)]
  }

  /** The service name when one is configured; all services otherwise. */
  function ServiceArgs(compose: DeployComposeConfig): seq<string> {
    if IsBlank(compose.service) then [] else [Trim(compose.service)]
  }

  /** `build_compose_stop_args`. */
  function ComposeStopArgs(compose: DeployComposeConfig): seq<string> {
    ["compose"] + ComposeFileArgs(compose) + ["stop"] + ServiceArgs(compose)
  }

  /** `build_compose_up_args`. */
  function ComposeUpArgs(compose: DeployComposeConfig): seq<string> {
    ["compose"] + ComposeFileArgs(compose) + ["up", "-d", "--build", "--force-recreate"] + ServiceArgs(compose)
  }

  /** Stopping and starting address the same compose file and the same
      service: the two commands differ only in their verb. */
  lemma ComposeCommandsAgree(compose: DeployComposeConfig)
    ensures var n := 1 + |ComposeFileArgs(compose)|;
            var stop := ComposeStopArgs(compose);
            var up := ComposeUpArgs(compose);
            |stop| == n + 1 + |ServiceArgs(compose)| && |up| == n + 4 + |ServiceArgs(compose)|
            && stop[..n] == up[..n]
            && stop[n] == "stop" && up[n..n + 4] == ["up", "-d", "--build", "--force-recreate"]
            && stop[n + 1..] == up[n + 4..] == ServiceArgs(compose)
  {
    var n := 1 + |ComposeFileArgs(compose)|;
    assert ComposeStopArgs(compose)[n + 1..] == ServiceArgs(compose);
    assert ComposeUpArgs(compose)[n + 4..] == ServiceArgs(compose);
  }

  /** The compose file is named right after `compose` exactly when one is
      configured, and the service comes last exactly when one is. */
  lemma ComposeTargets(compose: DeployComposeConfig)
    ensures var stop := ComposeStopArgs(compose);
            stop[0] == "compose"
            && (IsBlank(compose.composeFile) ==> stop[1] == "stop")
            && (!IsBlank(compose.composeFile) ==> stop[1..3] == ["-f", Trim(compose.composeFile)])
            && (IsBlank(compose.service) ==> stop[|stop| - 1] == "stop")
            && (!IsBlank(compose.service) ==> stop[|stop| - 1] == Trim(compose.service))
  {
    var file, service := ComposeFileArgs(compose), ServiceArgs(compose);
    StopArgsShape(file, service);
  }

  /** Where the parts of a compose stop command land. */
  lemma StopArgsShape(file: seq<string>, service: seq<string>)
    requires |file| == 0 || |file| == 2
    requires |service| <= 1
    ensures var stop := ["compose"] + file + ["stop"] + service;
            stop[0] == "compose"
            && (file == [] ==> stop[1] == "stop")
            && (file != [] ==> stop[1..3] == file)
            && stop[|stop| - 1] == if service == [] then "stop" else service[0]
  {
    var head, tail := ["compose"] + file, ["stop"] + service;
    var stop := ["compose"] + file + ["stop"] + service;
    assert stop == head + tail;
    assert stop[0] == head[0];
    if file == [] {
      assert stop[1] == tail[0];
    } else {
      assert stop[1..3] == head[1..3];
    }
    assert stop[|stop| - 1] == tail[|tail| - 1];
  }
}
