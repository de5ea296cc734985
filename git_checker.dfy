/** The local-Git version source: a checked-out repository whose remote
    branch is compared with the local HEAD. */
module GitCheckerSource {
  import opened Wrappers
  import opened Text
  import opened Contracts
  import opened Effects
  import opened VersionErrors

  /** Git operations may be slow: this source asks for 30 seconds. */
  const GitTimeoutMs: nat := 30000

  /** The largest `usize` of the 64-bit targets the application ships for. */
  const UsizeMax: nat := 0xFFFF_FFFF_FFFF_FFFF

  /** What the checker sees of the machine: whether the repository path and
      its `.git` entry exist, the version file under the repository (absent,
      unreadable with a message, or its contents), and `git` run in the
      repository with the given arguments. */
  datatype GitEnv = GitEnv(
    pathExists: bool,
    gitDirExists: bool,
    readFile: string -> Option<Result<string, string>>,
    git: Argv -> CmdOutcome)

  /** `validate_repo_path`. */
  function ValidateRepoPath(config: LocalGitSourceConfig, env: GitEnv): (r: Result<Unit, VersionError>)
    ensures r.Ok? <==> env.pathExists && env.gitDirExists
    ensures !env.pathExists ==>
              r == Err(VersionError.InvalidInput("Git repository path does not exist: " + config.repoPath))
    ensures env.pathExists && !env.gitDirExists ==>
              r == Err(VersionError.InvalidInput("Not a Git repository: " + config.repoPath))
  {
    if !env.pathExists then
      Err(VersionError.InvalidInput("Git repository path does not exist: " + config.repoPath))
    else if !env.gitDirExists then
      Err(VersionError.InvalidInput("Not a Git repository: " + config.repoPath))
    else
      Ok(Unit)
  }

  /** `execute_git_command`: the trimmed standard output of a successful run;
      a run that could not start is an I/O error, one that failed is a failed
      step named after the command line and carrying its standard error. */
  function GitCommand(env: GitEnv, args: Argv): (r: Result<string, VersionError>)
    ensures r.Ok? <==> env.git(args).Success()
    ensures r.Ok? ==> r.value == Trim(env.git(args).stdout)
    ensures env.git(args).Exited? && !env.git(args).Success() ==>
              r == Err(VersionError.StepFailed("git " + Join(args, " "), env.git(args).stderr))
    ensures env.git(args).SpawnError? ==> r == Err(VersionError.Io(env.git(args).message))
  {
    match env.git(args)
    case SpawnError(m) => Err(VersionError.Io(m))
    case Exited(code, out, err) =>
      if code == Some(0) then Ok(Trim(out))
      else Err(VersionError.StepFailed("git " + Join(args, " "), err))
  }

  /** `usize::from_str` over the digits after an optional '+': the first
      non-digit is an invalid digit, and a value past `UsizeMax` overflows,
      whichever the left-to-right scan meets first. */
  function ParseUsize(s: string): (r: Result<nat, string>)
    ensures r.Ok? ==> r.value <= UsizeMax
  {
    if s == [] then Err("cannot parse integer from empty string")
    else if s[0] == '+' && |s| == 1 then Err("invalid digit found in string")
    else if s[0] == '+' then ParseDigits(s[1..], 0)
    else ParseDigits(s, 0)
  }

  function ParseDigits(s: string, acc: nat): (r: Result<nat, string>)
    requires acc <= UsizeMax
    ensures r.Ok? ==> r.value <= UsizeMax
  {
    if s == [] then Ok(acc)
    else if !IsAsciiDigit(s[0]) then Err("invalid digit found in string")
    else if acc * 10 + DigitValue(s[0]) > UsizeMax then Err("number too large to fit in target type")
    else ParseDigits(s[1..], acc * 10 + DigitValue(s[0]))
  }

  /** Scanning a concatenation continues from where the first part left off. */
  lemma {:induction false} ParseDigitsAppend(a: string, b: string, acc: nat)
    requires acc <= UsizeMax
    ensures ParseDigits(a, acc).Ok? ==> ParseDigits(a + b, acc) == ParseDigits(b, ParseDigits(a, acc).value)
  {
    if a != [] {
      assert (a + b)[0] == a[0];
      assert (a + b)[1..] == a[1..] + b;
      if IsAsciiDigit(a[0]) && acc * 10 + DigitValue(a[0]) <= UsizeMax {
        ParseDigitsAppend(a[1..], b, acc * 10 + DigitValue(a[0]));
      }
    } else {
      assert a + b == b;
    }
  }

  /** Parsing reads back the decimal form of every `usize`. */
  lemma {:induction false} ParseUsizeOfNatToString(n: nat)
    requires n <= UsizeMax
    ensures ParseUsize(NatToString(n)) == Ok(n)
  {
    ParseDigitsOfNatToString(n);
    assert NatToString(n)[0] != '+';
  }

  lemma {:induction false} ParseDigitsOfNatToString(n: nat)
    requires n <= UsizeMax
    ensures ParseDigits(NatToString(n), 0) == Ok(n)
  {
    if n >= 10 {
      ParseDigitsOfNatToString(n / 10);
      ParseDigitsAppend(NatToString(n / 10), [DigitChar(n % 10)], 0);
    }
  }

  /** Parsing rejects a count that carries a sign other than '+', or a space. */
  lemma ParseUsizeExamples()
    ensures ParseUsize("") == Err("cannot parse integer from empty string")
    ensures ParseUsize("+") == Err("invalid digit found in string")
    ensures ParseUsize("-1") == Err("invalid digit found in string")
    ensures ParseUsize("+12") == Ok(12)
  {
    assert "+12"[1..] == "12" && "12"[1..] == "2" && "2"[1..] == [];
  }

  /** `get_latest_tag`: the first line of the (trimmed) tag listing. */
  function FirstListedTag(output: string): (tag: Option<string>)
    ensures tag.Some? <==> Lines(output) != []
    ensures tag.Some? ==> tag.value == Lines(output)[0]
  {
    var lines := Lines(output);
    if lines == [] then None else Some(lines[0])
  }

  /** The release notes: how far the local branch lags and the newest
      subject when it lags, otherwise just the subject when there is one. */
  function ReleaseNotes(commitsBehind: nat, latestMessage: Option<string>): (notes: Option<string>)
    ensures notes.None? <==> commitsBehind == 0 && latestMessage.None?
    ensures commitsBehind > 0 ==>
              notes == Some(NatToString(commitsBehind) + BehindText + latestMessage.GetOr("(no message)"))
    ensures commitsBehind == 0 ==> notes == latestMessage
  {
    if commitsBehind > 0 then
      Some(NatToString(commitsBehind) + BehindText + latestMessage.GetOr("(no message)"))
    else
      latestMessage
  }

  const BehindText: string := " commits behind. Latest: "

  /** A lagging branch's notes can be read back: they open with the lag in
      decimal, ended by the first non-digit, and close with the newest
      subject, or "(no message)" when there is none. */
  lemma ReleaseNotesReadBack(commitsBehind: nat, latestMessage: Option<string>)
    requires commitsBehind > 0
    ensures var notes := ReleaseNotes(commitsBehind, latestMessage).value;
            var k := |NatToString(commitsBehind)|;
            k < |notes| && AllDigits(notes[..k]) && !IsAsciiDigit(notes[k])
            && DigitsValue(notes[..k]) == commitsBehind
            && notes[k + |BehindText|..] == latestMessage.GetOr("(no message)")
  {
    var digits := NatToString(commitsBehind);
    var notes := ReleaseNotes(commitsBehind, latestMessage).value;
    assert notes == digits + BehindText + latestMessage.GetOr("(no message)");
    assert notes[..|digits|] == digits;
    assert notes[|digits|] == ' ';
    assert notes[|digits| + |BehindText|..] == latestMessage.GetOr("(no message)");
    DigitsValueOfNatToString(commitsBehind);
  }

  lemma ReleaseNotesExamples()
    ensures ReleaseNotes(3, Some("fix")) == Some("3" + BehindText + "fix")
    ensures ReleaseNotes(3, None) == Some("3" + BehindText + "(no message)")
    ensures ReleaseNotes(0, None) == None
  {
    var three := NatToString(3);
    assert three == [DigitChar(3)] == "3";
  }

  /** The remote commit must be long enough to shorten to eight characters
      (Git prints forty-character hashes). */
  predicate RemoteCommitSliceable(config: LocalGitSourceConfig, env: GitEnv) {
    var out := env.git(["rev-parse", "origin/" + config.branch]);
    out.Success() ==> |Trim(out.stdout)| >= 8
  }

  /** Validation, the fetch and the two commit lookups, in that order; the
      first failure is the answer. */
  function Commits(config: LocalGitSourceConfig, env: GitEnv): (r: Result<(string, string), VersionError>)
    ensures r.Ok? <==> ValidateRepoPath(config, env).Ok? && env.git(["fetch", "--tags", "--prune", "origin"]).Success()
                       && env.git(["rev-parse", "HEAD"]).Success()
                       && env.git(["rev-parse", "origin/" + config.branch]).Success()
    ensures r.Ok? ==> r.value == (Trim(env.git(["rev-parse", "HEAD"]).stdout),
                                  Trim(env.git(["rev-parse", "origin/" + config.branch]).stdout))
    ensures ValidateRepoPath(config, env).Err? ==> r == ValidateRepoPath(config, env).PropagateFailure()
    ensures ValidateRepoPath(config, env).Ok? && !env.git(["fetch", "--tags", "--prune", "origin"]).Success() ==>
              r == GitCommand(env, ["fetch", "--tags", "--prune", "origin"]).PropagateFailure()
  {
    var _ :- ValidateRepoPath(config, env);
    var _ :- GitCommand(env, ["fetch", "--tags", "--prune", "origin"]);
    var local :- GitCommand(env, ["rev-parse", "HEAD"]);
    var remote :- GitCommand(env, ["rev-parse", "origin/" + config.branch]);
    Ok((local, remote))
  }

  /** `read_version_from_file`: the trimmed contents of the configured
      version file when it exists; no file configured or none on disk is no
      version; a failed read is an I/O error. */
  function FileVersion(config: LocalGitSourceConfig, env: GitEnv): (r: Result<Option<string>, VersionError>)
    ensures config.versionFile.None? ==> r == Ok(None)
    ensures config.versionFile.Some? ==>
              r == match env.readFile(config.versionFile.value)
                case None => Ok(None)
                case Some(Err(m)) => Err(VersionError.Io(m))
                case Some(Ok(content)) => Ok(Some(Trim(content)))
    ensures r.Ok? && r.value.Some? ==> r.value.value == Trim(r.value.value)
  {
    match config.versionFile
    case None => Ok(None)
    case Some(f) =>
      match env.readFile(f)
      case None => Ok(None)
      case Some(Err(m)) => Err(VersionError.Io(m))
      case Some(Ok(content)) => TrimIdempotent(content); Ok(Some(Trim(content)))
  }

  /** The version priority: the version file, else the newest tag (the tag
      listing only runs when there is no file version), else the remote
      commit shortened to eight characters. */
  function ChooseVersion(config: LocalGitSourceConfig, env: GitEnv, remote: string): (r: Result<string, VersionError>)
    requires |remote| >= 8
    ensures FileVersion(config, env).Err? ==> r == FileVersion(config, env).PropagateFailure()
    ensures FileVersion(config, env).Ok? && FileVersion(config, env).value.Some? ==>
              r == Ok(FileVersion(config, env).value.value)
    ensures FileVersion(config, env).Ok? && FileVersion(config, env).value.None? ==>
              var tags := GitCommand(env, ["tag", "--sort=-v:refname"]);
              r == if tags.Err? then tags.PropagateFailure()
                   else if FirstListedTag(tags.value).Some? then Ok(FirstListedTag(tags.value).value)
                   else Ok(remote[..8])
  {
    var fileVersion :- FileVersion(config, env);
    if fileVersion.Some? then Ok(fileVersion.value)
    else
      var tags :- GitCommand(env, ["tag", "--sort=-v:refname"]);
      Ok(FirstListedTag(tags).GetOr(remote[..8]))
  }

  /** `get_commits_behind`: `rev-list --count local..remote`, parsed. */
  function CommitsBehind(env: GitEnv, local: string, remote: string): (r: Result<nat, VersionError>)
    ensures var out := GitCommand(env, ["rev-list", "--count", local + ".." + remote]);
      && (out.Err? ==> r == out.PropagateFailure())
      && (out.Ok? && ParseUsize(out.value).Ok? ==> r == Ok(ParseUsize(out.value).value))
      && (out.Ok? && ParseUsize(out.value).Err? ==>
            r == Err(VersionError.Parse("Failed to parse commit count: " + ParseUsize(out.value).error)))
  {
    var countText :- GitCommand(env, ["rev-list", "--count", local + ".." + remote]);
    match ParseUsize(countText)
    case Ok(n) => Ok(n)
    case Err(e) => Err(VersionError.Parse("Failed to parse commit count: " + e))
  }

  /** `get_latest_commit_message`, whose failure is tolerated. */
  function LatestMessage(env: GitEnv, remote: string): (m: Option<string>)
    ensures m.Some? <==> env.git(["log", "-1", "--pretty=format:%s", remote]).Success()
    ensures m.Some? ==> m.value == Trim(env.git(["log", "-1", "--pretty=format:%s", remote]).stdout)
  {
    var message := GitCommand(env, ["log", "-1", "--pretty=format:%s", remote]);
    if message.Ok? then Some(message.value) else None
  }

  /** `fetch_latest`: the commits, the version, the lag and the notes; the
      digest is the full remote commit and the reference names the branch and
      the short hash. Only the subject lookup may fail without failing the
      check. */
  function FetchLatest(config: LocalGitSourceConfig, env: GitEnv): (r: Result<VersionCandidate, VersionError>)
    requires RemoteCommitSliceable(config, env)
    ensures Commits(config, env).Err? ==> r == Commits(config, env).PropagateFailure()
    ensures Commits(config, env).Ok? && ChooseVersion(config, env, Commits(config, env).value.1).Err? ==>
              r == ChooseVersion(config, env, Commits(config, env).value.1).PropagateFailure()
    ensures Commits(config, env).Ok? && ChooseVersion(config, env, Commits(config, env).value.1).Ok?
            && CommitsBehind(env, Commits(config, env).value.0, Commits(config, env).value.1).Err? ==>
              r == CommitsBehind(env, Commits(config, env).value.0, Commits(config, env).value.1).PropagateFailure()
    ensures r.Ok? <==> Commits(config, env).Ok?
                       && ChooseVersion(config, env, Commits(config, env).value.1).Ok?
                       && CommitsBehind(env, Commits(config, env).value.0, Commits(config, env).value.1).Ok?
    ensures r.Ok? ==>
              var (local, remote) := Commits(config, env).value;
              r.value == VersionCandidate(
                LocalGit, ChooseVersion(config, env, remote).value, Some(remote),
                ReleaseNotes(CommitsBehind(env, local, remote).value, LatestMessage(env, remote)),
                None, Some(config.branch + "@" + remote[..8]))
  {
    var (local, remote) :- Commits(config, env);
    var version :- ChooseVersion(config, env, remote);
    var behind :- CommitsBehind(env, local, remote);
    Ok(VersionCandidate(LocalGit, version, Some(remote), ReleaseNotes(behind, LatestMessage(env, remote)), None,
                        Some(config.branch + "@" + remote[..8])))
  }

  /** The unit test: a repository path that does not exist is refused. */
  lemma MissingPathRefused(readFile: string -> Option<Result<string, string>>, git: Argv -> CmdOutcome)
    ensures ValidateRepoPath(LocalGitSourceConfig("/nonexistent/path", "main", None),
                             GitEnv(false, false, readFile, git)).Err?
  {
  }
}
