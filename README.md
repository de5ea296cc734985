# DevEnvProbe core, modelled in Dafny

DevEnvProbe is a desktop tool for developers. It samples the machine, detects
installed tools, drives Docker, installs packages with winget, npm or pip,
deploys projects from git, and runs a version engine. The engine checks
container images against several version sources. It then updates a running
container and rolls it back when the update fails.

This project models the deterministic core of that program. Each module
follows one source file:

- The version engine:
  - error taxonomy (`VersionErrors`), step names and backup records (`VersionTypes`);
  - the runtime cache and update locks (`VersionState`);
  - the four version sources (`DockerHubSource`, `GithubSource`, `CustomApiSource`, `GitCheckerSource`);
  - the multi-source checker (`VersionChecker`);
  - the health check (`HealthCheck`), the backup and rollback manager (`VersionRollback`);
  - the update pipeline (`Updater`).
- The deploy helpers: validators, output shaping and path resolution (`DeployUtils`); argument builders (`DeployArgs`); the stages of one deploy step (`DeployStages`, `DeploySteps`).
- Docker actions and the overview batch (`DockerActions`).
- The process runner with its time limit and `cmd /C` wrapping (`ProcessRunner`).
- Tool detection (`ToolsDetect`).
- The install planner (`Install`).
- The runtime sample cache (`Runtime`).
- The older monolithic entry point (`AppLib`).

Shared modules:

- `Wrappers`: `Option` and `Result`.
- `Text`: the parts of Rust's `str` API that the code relies on.
- `Contracts`: the records exchanged with the front end.
- `Effects`: the world the code talks to.

The world is passed in as values:

- Every external command is an oracle parameter: a function from the argument vector to its outcome (a spawn error, or an exit code with stdout and stderr).
- HTTP clients, JSON decoding, the regular-expression engine, the file system and the clocks are parameters too.
- A clock is a sequence of readings indexed by poll or action number, so a loop that sleeps and polls is a recursion over those readings.

Classes are used where the source mutates shared state in place:

- `VersionState.VersionRuntimeState`: the version cache and the lock table.
- `Runtime.AppRuntimeState`: the sample cache.

The operations that the source writes as step-by-step code are methods with loops or straight-line steps. Each is proved equal to a specification function, and the properties are lemmas about those functions.

## Model

| member | source | states |
|---|---|---|
| VersionTypes.StepName | src-tauri/src/version/types.rs:29-39 | each update step's snake_case name reads back to that step |
| VersionTypes.StepNameInjective | src-tauri/src/version/types.rs:29-39 | distinct steps have distinct names |
| VersionTypes.BackupName | src-tauri/src/version/types.rs:57 | the backup name starts with the container name, ends with the operation id, and is 8 characters ("-backup-") longer than both together |
| VersionTypes.BackupNameInjective | src-tauri/src/version/types.rs:57 | for one container, distinct operations give distinct backup names |
| VersionTypes.NewContainerBackup | src-tauri/src/version/types.rs:55-65 | the record keeps the original name and image, takes the clock reading, and names the backup `{name}-backup-{operation}` |
| VersionErrors.CodeStr | src-tauri/src/version/errors.rs:16-26 | each machine code string starts with "VERSION_" and reads back to its code |
| VersionErrors.CodeStrInjective | src-tauri/src/version/errors.rs:16-26 | distinct codes have distinct machine strings |
| VersionErrors.CodeMessage | src-tauri/src/version/errors.rs:28-38 | each code's user sentence is non-empty and contains no ':' |
| VersionErrors.CodeMessageInjective | src-tauri/src/version/errors.rs:28-38 | distinct codes have distinct user sentences |
| VersionErrors.VersionError.Code | src-tauri/src/version/errors.rs:78-91 | Io, Http and Parse map to SourceUnavailable, and every other variant maps to the code of its own name, in both directions |
| VersionErrors.DiffersAt | src-tauri/src/version/errors.rs:44-74 | a text that differs from a Display prefix at some position does not start with that prefix |
| VersionErrors.ParseDisplayRoundTrip | src-tauri/src/version/errors.rs:44-74 | for every variant except StepFailed, the Display text determines the error: parsing it gives the same error back |
| VersionErrors.ParseDisplayFirst | src-tauri/src/version/errors.rs:44-52 | the round trip for InvalidInput, SourceTimeout and SourceUnavailable |
| VersionErrors.ParseDisplaySecond | src-tauri/src/version/errors.rs:53-65 | the round trip for NoValidSourceResult, UpdateConflict and RollbackFailed |
| VersionErrors.ParseDisplayThird | src-tauri/src/version/errors.rs:67-74 | the round trip for Io, Http and Parse |
| VersionErrors.SameTextBeforeColon | src-tauri/src/version/errors.rs:93-95 | two colon-free sentences, each followed by ':' at the head of the same text, are equal |
| VersionErrors.UserMessageNamesCode | src-tauri/src/version/errors.rs:93-95 | the user message starts with `sentence + ": "` for exactly one code: the error's own |
| VersionState.FreshInterval | src-tauri/src/version/state.rs:15-20 | an entry is fresh exactly when the clock lies in [stamp, stamp + limit]: a stamp in the future counts as expired |
| VersionState.TryLockSpec | src-tauri/src/version/state.rs:90-125 | taking a lock succeeds exactly when no live lock holds the key. On success the key maps to the caller's fresh lock. On failure the error names the holder and that lock stays. Every other key keeps exactly its live lock, and every remaining lock is live |
| VersionState.LockExcludes | src-tauri/src/version/state.rs:90-125 | after one operation takes the lock, any attempt within 15 minutes fails and names that operation |
| VersionState.StaleLockIsTakenOver | src-tauri/src/version/state.rs:93-102 | once a lock is more than 15 minutes old, another operation takes it |
| VersionState.UnlockThenLockSucceeds | src-tauri/src/version/state.rs:128-131 | after a key is released, the next attempt on it succeeds |
| VersionState.CacheThenLookup | src-tauri/src/version/state.rs:66-87 | an entry just cached is served while the TTL lasts and not after |
| VersionState.CacheOtherKeys | src-tauri/src/version/state.rs:78-87 | caching one key leaves every other key's answer unchanged |
| VersionState.RetainedKeepsAnswers | src-tauri/src/version/state.rs:135-138 | cleanup with the same TTL and clock never changes what a lookup answers |
| VersionState.VersionRuntimeState.constructor | src-tauri/src/version/state.rs:58-63 | both tables start empty |
| VersionState.VersionRuntimeState.GetCachedCheck | src-tauri/src/version/state.rs:66-75 | it returns the key's response exactly when the key is cached and the clock lies in [stamp, stamp + ttl] |
| VersionState.VersionRuntimeState.CacheCheck | src-tauri/src/version/state.rs:78-87 | only the key's entry changes, and it is stamped with the clock; the locks are untouched |
| VersionState.VersionRuntimeState.TryLockUpdate | src-tauri/src/version/state.rs:90-125 | the loop removes exactly the expired locks; the result and the new table are those of TryLock; the cache is untouched |
| VersionState.VersionRuntimeState.UnlockUpdate | src-tauri/src/version/state.rs:128-131 | only the key's lock is dropped, whoever holds it |
| VersionState.VersionRuntimeState.CleanupCache | src-tauri/src/version/state.rs:135-138 | the cache keeps exactly its unexpired entries |
| VersionState.LockScenario | src-tauri/src/version/state.rs:146-162 | op-123 takes the lock, op-456 is refused with op-123 named, and after the release op-789 takes it |
| VersionState.CacheScenario | src-tauri/src/version/state.rs:165-186 | a fresh entry is served with a 60-second TTL, and is not served with a zero TTL once the clock has moved on |
| DockerHubSource.BuildApiUrl | src-tauri/src/version/docker_hub.rs:29-34 | the tag-listing URL starts with the Docker Hub repositories endpoint and ends with "/tags" |
| DockerHubSource.FilterTags | src-tauri/src/version/docker_hub.rs:37-48 | a tag is kept exactly when it is in the input and its name passes the pattern (any tag passes when there is no pattern or it does not compile); nothing is added |
| DockerHubSource.FilterWithoutPatternKeepsAll | src-tauri/src/version/docker_hub.rs:41-46 | with no pattern, or one that does not compile, the filter keeps the whole listing in order |
| DockerHubSource.InsertNewestFirst | src-tauri/src/version/docker_hub.rs:51 | inserting into a newest-first list keeps it newest first and is a permutation of the list plus the new tag, which goes ahead of its equals |
| DockerHubSource.SortNewestFirst | src-tauri/src/version/docker_hub.rs:51 | the sort by `last_updated`, newest first, returns a sorted permutation of its input |
| DockerHubSource.FirstNewest | src-tauri/src/version/docker_hub.rs:50-53 | the chosen tag is in the list, is at least as new as every tag, and no earlier tag is as new as it |
| DockerHubSource.SortFrontIsFirstNewest | src-tauri/src/version/docker_hub.rs:50-53 | the stable sort puts in front exactly the earliest of the newest tags |
| DockerHubSource.FilterAndSortTags | src-tauri/src/version/docker_hub.rs:36-54 | there is no choice exactly when no tag passes the filter; otherwise the choice is the earliest newest tag that passes |
| DockerHubSource.PrereleaseSwitchIgnored | src-tauri/src/version/docker_hub.rs:36-54 | the `include_prerelease` setting does not change the choice |
| DockerHubSource.RegexSelectionExample | src-tauri/src/version/docker_hub.rs:135-166 | with a pattern that accepts the version tags and refuses "latest", "1.22.0" is chosen |
| DockerHubSource.FetchLatestSpec | src-tauri/src/version/docker_hub.rs:63-111 | a client build failure is an Http error; a timeout, and only a timeout, gives a timeout error, "Docker Hub API timeout: " and the URL; a transport error gives an unavailable source "Docker Hub API error: " and the error, and a non-2xx status gives "Docker Hub API returned status: " and the status text; a 2xx body that does not decode gives the parse error "Failed to parse Docker Hub response: " and the decoding error; a decoded listing gives the earliest newest matching tag with its digest, date and `namespace/repository:tag` reference, or "No matching tags found" |
| DockerHubSource.FetchLatest | src-tauri/src/version/docker_hub.rs:100-110 | every candidate it returns comes from Docker Hub and has no release notes |
| DockerHubSource.ApiUrlExample | src-tauri/src/version/docker_hub.rs:118-132 | library/nginx gives the URL the unit test expects |
| GithubSource.ApiUrlExample | src-tauri/src/version/github.rs:117-131 | nginx/nginx gives the releases URL the unit test expects |
| GithubSource.FilterReleases | src-tauri/src/version/github.rs:34-48 | the answer is the first release in listing order that is not a draft and not an unwanted prerelease; there is none exactly when no release qualifies |
| GithubSource.FilterExample | src-tauri/src/version/github.rs:133-174 | with prereleases excluded, a stable release ahead of a prerelease and a draft is chosen |
| GithubSource.NoResortExample | src-tauri/src/version/github.rs:34-48 | when prereleases are allowed, a prerelease listed first wins over a later stable release; when they are excluded, the stable release wins |
| GithubSource.RequestHeaders | src-tauri/src/version/github.rs:66-73 | Accept comes first, and an Authorization header with the bearer token is present exactly when a token is configured |
| GithubSource.FetchLatestSpec | src-tauri/src/version/github.rs:57-110 | a client build failure is an Http error; only a timeout gives a timeout error, "GitHub API timeout: " and the URL; a transport error gives an unavailable source "GitHub API error: " and the error, and a non-2xx status gives "GitHub API returned status: " and the status text; a 2xx body that does not decode gives the parse error "Failed to parse GitHub response: " and the decoding error; a decoded listing gives the first qualifying release with its body as notes, its date and its release-page reference, or "No matching releases found" |
| GithubSource.FetchLatest | src-tauri/src/version/github.rs:99-109 | every candidate it returns comes from GitHub and has no digest |
| CustomApiSource.ValidateUrl | src-tauri/src/version/custom_api.rs:16-25 | an endpoint is accepted exactly when it starts with "http://" or "https://"; a refusal is an InvalidInput error |
| CustomApiSource.ValidateUrlExamples | src-tauri/src/version/custom_api.rs:134-162 | an https endpoint passes, and "ftp://…" and an upper-case "HTTP://…" are refused |
| CustomApiSource.ExtractField | src-tauri/src/version/custom_api.rs:27-31 | a value is found exactly when the document is an object whose field holds a JSON string, and it is that string |
| CustomApiSource.ExtractFieldExample | src-tauri/src/version/custom_api.rs:164-180 | the version and notes fields are read, and a missing field gives nothing |
| CustomApiSource.RequestMethod | src-tauri/src/version/custom_api.rs:50-59 | a method is accepted exactly when its upper-case form is GET or POST, and the request uses that upper-case form |
| CustomApiSource.RequestMethodExamples | src-tauri/src/version/custom_api.rs:50-59 | "get" is sent as GET and "PUT" is refused |
| CustomApiSource.RequestMethodFoldsCase | src-tauri/src/version/custom_api.rs:50 | the method is upper-cased before it is matched: "Post" is sent as POST, and so is "po" followed by the "st" ligature, whose upper case is "ST". Upper-casing is modelled for ASCII letters and for the non-ASCII characters that can help spell GET or POST |
| CustomApiSource.FirstInvalidHeader | src-tauri/src/version/custom_api.rs:64-71 | the index found is the first header whose name holds a character other than a letter, a digit, '-' or '_'; there is none exactly when every name passes |
| CustomApiSource.HeaderPairs | src-tauri/src/version/custom_api.rs:72 | the request carries every configured header, in order, as its key and value |
| CustomApiSource.CandidateOf | src-tauri/src/version/custom_api.rs:97-126 | a candidate is built exactly when the version field is a string; it takes the optional notes and date fields only when configured, and its reference is the endpoint; otherwise it is the "Version field '…' not found" parse error |
| CustomApiSource.CheckHeaders | src-tauri/src/version/custom_api.rs:63-73 | the loop refuses the first header with a bad name, naming it; when every name passes it returns all headers in order |
| CustomApiSource.FetchLatest | src-tauri/src/version/custom_api.rs:40-127 | the checks run in order, and the first failure is the answer: URL scheme, client build, HTTP method, header names. After them the send outcome decides: a timeout error, an unavailable source, a status error, a parse error, or the candidate read from the JSON |
| GitCheckerSource.ValidateRepoPath | src-tauri/src/version/git_checker.rs:17-35 | the repository passes exactly when the path exists and holds `.git`; each failure names the path with its own message |
| GitCheckerSource.GitCommand | src-tauri/src/version/git_checker.rs:37-53 | the result is ok exactly when git exits 0, and is then the trimmed stdout; a failed run is a StepFailed named "git " plus the arguments, carrying stderr; a spawn failure is an Io error |
| GitCheckerSource.ParseUsize | src-tauri/src/version/git_checker.rs:76-78 | the `usize` parse accepts only values that fit in 64 bits |
| GitCheckerSource.ParseDigits | src-tauri/src/version/git_checker.rs:76-78 | the digit scan never yields a value past the 64-bit maximum |
| GitCheckerSource.ParseDigitsAppend | src-tauri/src/version/git_checker.rs:76-78 | scanning a concatenation resumes from where the first part left off |
| GitCheckerSource.ParseUsizeOfNatToString | src-tauri/src/version/git_checker.rs:74-79 | the decimal text of every commit count that fits in a `usize` parses back to that count |
| GitCheckerSource.ParseDigitsOfNatToString | src-tauri/src/version/git_checker.rs:76-78 | the digit scan reads back the decimal text of every 64-bit value |
| GitCheckerSource.ParseUsizeExamples | src-tauri/src/version/git_checker.rs:76-78 | the empty text, a lone '+' and "-1" are refused, with Rust's messages; "+12" is 12 |
| GitCheckerSource.FirstListedTag | src-tauri/src/version/git_checker.rs:69-72 | the newest tag is the first line of the listing, and there is none exactly when the listing has no lines |
| GitCheckerSource.ReleaseNotes | src-tauri/src/version/git_checker.rs:130-138 | there are no notes exactly when the branch is not behind and there is no subject; when behind, the notes are exactly "N commits behind. Latest: " followed by the subject, or by "(no message)" when there is none; otherwise they are the subject |
| GitCheckerSource.ReleaseNotesReadBack | src-tauri/src/version/git_checker.rs:130-136 | a lagging branch's notes read back: the leading run of digits is the lag, and what follows " commits behind. Latest: " is the subject or "(no message)" |
| GitCheckerSource.ReleaseNotesExamples | src-tauri/src/version/git_checker.rs:130-138 | three commits behind with or without a subject, and zero behind without one |
| GitCheckerSource.Commits | src-tauri/src/version/git_checker.rs:106-113 | the commit pair is read exactly when validation, the fetch and both rev-parse runs succeed; it is the trimmed local and remote hashes, and the first failure is the error |
| GitCheckerSource.FileVersion | src-tauri/src/version/git_checker.rs:85-95 | no file configured or none on disk gives no version; a failed read is an Io error; otherwise the trimmed contents, which are their own trim |
| GitCheckerSource.ChooseVersion | src-tauri/src/version/git_checker.rs:116-122 | the file version comes first; the tag listing runs only without one, and its first tag comes second; otherwise the first eight characters of the remote hash |
| GitCheckerSource.CommitsBehind | src-tauri/src/version/git_checker.rs:74-79 | the count is the parsed output of `rev-list --count local..remote`; a parse failure is "Failed to parse commit count: " plus Rust's message |
| GitCheckerSource.LatestMessage | src-tauri/src/version/git_checker.rs:81-83 | the latest subject is present exactly when `git log -1` succeeds, and is its trimmed output |
| GitCheckerSource.FetchLatest | src-tauri/src/version/git_checker.rs:104-150 | the result is ok exactly when the commits, the version and the lag are all read; otherwise it is the error of the first of the three that failed, in that order. The candidate carries that version, the full remote hash as digest, the lag-and-subject notes, and `branch@short-hash` |
| GitCheckerSource.MissingPathRefused | src-tauri/src/version/git_checker.rs:161-171 | a repository path that does not exist is refused |
| VersionChecker.BuildImageKey | src-tauri/src/version/checker.rs:19-21 | the key starts with the repository, ends with ':' and the tag, and is one character longer than the two |
| VersionChecker.TagOfImageKey | src-tauri/src/version/checker.rs:19-21 | a tag without ':' is read back from its key, even when the repository itself holds a registry port |
| VersionChecker.ImageKeyExamples | src-tauri/src/version/checker.rs:184-188 | "nginx:latest" and "library/redis:7.0" |
| VersionChecker.CheckSingleSource | src-tauri/src/version/checker.rs:34-75 | the record names its source and elapsed time. It is ok exactly when the fetch returned a candidate, which it then carries. A fetch error gives that error's code string and user message. A timeout gives the SourceTimeout code and the message "Source check timeout after N ms", with N the configured timeout in milliseconds and no space before "ms" |
| VersionChecker.Rank | src-tauri/src/version/checker.rs:80-85 | each source kind has its own place in the order local Git, GitHub, Docker Hub, custom API |
| VersionChecker.FirstOkOfKind | src-tauri/src/version/checker.rs:88 | the found result is the first successful result of that kind; there is none exactly when no result of that kind succeeded |
| VersionChecker.SelectRecommended | src-tauri/src/version/checker.rs:78-96 | the nested scan returns the recommendation defined by the priority order |
| VersionChecker.FirstOkIsFound | src-tauri/src/version/checker.rs:88 | the result where the scan stops is the one `find` returns |
| VersionChecker.RecommendedSpec | src-tauri/src/version/checker.rs:78-96 | for results built by the checker, there is a recommendation exactly when some source succeeded; it is the candidate of a successful result, and no successful result has a higher priority |
| VersionChecker.FirstOkOfKindSwap | src-tauri/src/version/checker.rs:88 | swapping two neighbouring results of different kinds does not change the first successful result of any kind |
| VersionChecker.SwapKeepsFirstOk | src-tauri/src/version/checker.rs:88 | after such a swap, the first successful result of a kind is still the same one |
| VersionChecker.SwapKeepsNoOk | src-tauri/src/version/checker.rs:88 | such a swap does not create a successful result of a kind |
| VersionChecker.RecommendedIgnoresKindOrder | src-tauri/src/version/checker.rs:78-96 | the recommendation depends only on the order among results of the same kind, not on how the kinds are interleaved |
| VersionChecker.PriorityExample | src-tauri/src/version/checker.rs:190-228 | a local Git result listed after a Docker Hub result is still recommended |
| VersionChecker.SourceResults | src-tauri/src/version/checker.rs:122-132 | there is one result per configured source, in order, each from its own outcome, and success always comes with a candidate |
| VersionChecker.CheckSources | src-tauri/src/version/checker.rs:111-144 | an empty source list is refused first; an expired overall timeout gives "Overall version check timeout after Nms", with the default of 15000 |
| VersionChecker.CheckSourcesSpec | src-tauri/src/version/checker.rs:111-178 | with sources and no overall timeout, the check succeeds exactly when some provider returned a version, and fails otherwise with NoValidSourceResult. A success carries the key, the current tag, the clock, one result per source and a highest-priority recommendation, with an update flagged exactly when its version differs from the tag |
| VersionChecker.SomeSourceSucceeded | src-tauri/src/version/checker.rs:147-149 | some result is ok exactly when some provider answered with a version |
| VersionChecker.CheckImageVersion | src-tauri/src/version/checker.rs:99-178 | a fresh cached response is returned, and nothing changes. Otherwise the answer is that of CheckSources, and only a success is cached under the image key. The locks are never touched |
| HealthCheck.NewHealthChecker | src-tauri/src/version/health_check.rs:14-20 | the checker keeps the name and the wait limit, and polls once a second |
| HealthCheck.CheckContainerStatus | src-tauri/src/version/health_check.rs:46-67 | a poll answers exactly when the inspection exits 0, and answers true exactly when the trimmed status is "running". A spawn failure is "Failed to inspect container: …" and any other failure is "Container … not found", both as the health_check step |
| HealthCheck.HealthFrom | src-tauri/src/version/health_check.rs:22-44 | every failure of the wait is a failed health_check step |
| HealthCheck.WaitUntilHealthy | src-tauri/src/version/health_check.rs:22-44 | the polling loop, whose clock reads at least one interval later after each sleep, ends with the outcome HealthFrom defines |
| HealthCheck.PollsUntilDecided | src-tauri/src/version/health_check.rs:35-40 | a run of polls within the limit that each find the container present but not running does not change the outcome |
| HealthCheck.PendingPollsContinue | src-tauri/src/version/health_check.rs:37-40 | each such poll leads on to the next |
| HealthCheck.PollContinues | src-tauri/src/version/health_check.rs:37-40 | one such poll leads on to the next |
| HealthCheck.WaitOutcomes | src-tauri/src/version/health_check.rs:22-67 | after only pending polls, the wait succeeds at a poll within the limit that sees "running", reports the container missing at a failed inspection, and gives up with "did not become healthy within N seconds" once the limit has passed |
| HealthCheck.AtLeastOnePoll | src-tauri/src/version/health_check.rs:26-36 | the elapsed-time test is strict, so with a zero limit a first poll at time 0 that sees "running" still succeeds |
| HealthCheck.RunningLine | src-tauri/src/version/health_check.rs:65-66 | the status line "running\n" that docker prints trims to "running" |
| HealthCheck.ThirdPollSucceeds | src-tauri/src/version/health_check.rs:22-44 | two polls that see "created" and a third that sees "running", all within the limit, end in success |
| HealthCheck.PollDecides | src-tauri/src/version/health_check.rs:35-40 | a successful poll within the limit either ends the wait ("running") or leads on to the next poll |
| HealthCheck.StatusWords | src-tauri/src/version/health_check.rs:65-66 | "created" reads as not running and "running" as running |
| VersionRollback.NewRollbackManager | src-tauri/src/version/rollback.rs:13-19 | the manager keeps the container name, and its backup name is `{name}-backup-{operation}`, never the container's own name |
| VersionRollback.BackupContainer | src-tauri/src/version/rollback.rs:22-95 | the step fails hard exactly when the container exists and the rename cannot be started. A container that cannot be inspected skips the backup, reported as ok. An inspection that cannot be started is a failed log. Otherwise the log is ok exactly when the rename succeeds, and names the inspect or rename command line |
| VersionRollback.SkippedBackupIgnoresRename | src-tauri/src/version/rollback.rs:31-43 | when the container is absent the rename is never issued: its outcome cannot change the result |
| VersionRollback.Rollback | src-tauri/src/version/rollback.rs:98-186 | the restore is always reported as attempted, for the backup name. It succeeds exactly when the rename back and the start both succeed, and has an error exactly when it fails. Each of the four failures carries its own message |
| VersionRollback.RollbackDependsOnlyOnRestore | src-tauri/src/version/rollback.rs:101-132 | the removal of the failed container never affects the result, and the start is issued only after a successful rename back |
| VersionRollback.CleanupBackup | src-tauri/src/version/rollback.rs:189-213 | the cleanup succeeds exactly when `docker rm -f` of the backup succeeds; each failure is a failed cleanup_backup step carrying the spawn error or the command's output |
| VersionRollback.Renamed | src-tauri/src/version/rollback.rs:59-63 | a rename takes effect only when the old name exists and the new one is free |
| VersionRollback.BackupThenRollbackRestoresNames | src-tauri/src/version/rollback.rs:58-63 | backing up, starting a new container, removing it and renaming the backup back leaves exactly the container names there were before |
| Updater.NameFrom | src-tauri/src/version/updater.rs:262-269 | the name is the token after the first "--name" that has a successor, and empty when there is none |
| Updater.ExtractContainerName | src-tauri/src/version/updater.rs:262-269 | the indexed loop returns that name |
| Updater.ContainerNameExamples | src-tauri/src/version/updater.rs:262-269 | "--name web" gives "web", the first of two names wins, and "--name=web" and a trailing "--name" give "" |
| Updater.CommandStep | src-tauri/src/version/updater.rs:128-260 | a git pull, build or run that cannot be started is that step's StepFailed error with its prefix. Otherwise the log names the step and the command line, is ok exactly when the exit succeeded, and carries the combined output, repeated as the error on failure |
| Updater.HealthyLog | src-tauri/src/version/updater.rs:96-105 | the passed health check log is ok and has no error |
| Updater.UnhealthyLog | src-tauri/src/version/updater.rs:107-116 | the failed health check log says "Health check failed after N seconds", with N the whole seconds of the limit |
| Updater.BeforeRun | src-tauri/src/version/updater.rs:51-76 | pull, build and backup append one to three logs in pipeline order, each earlier log passed. The update goes on exactly when all three were logged and the backup was made or skipped; when it stops, the last log is a failure |
| Updater.Execute | src-tauri/src/version/updater.rs:46-126 | the step-by-step pipeline produces the logs and rollback the specification defines |
| Updater.RunAndWatch | src-tauri/src/version/updater.rs:78-125 | the run, the health wait, and the cleanup or restore produce the outcome from `docker run` on |
| Updater.StepsOf | src-tauri/src/version/updater.rs:46-126 | the steps named by a list of logs, one per log and in order |
| Updater.LogsFollowPipelineOrder | src-tauri/src/version/updater.rs:46-126 | the logs of every completed update are a non-empty prefix of git_pull, docker_build, backup_container, docker_run, health_check |
| Updater.FromRunFollowsOrder | src-tauri/src/version/updater.rs:78-125 | after the three earlier logs, the run and the health check are appended in order, giving three to five logs |
| Updater.HardErrors | src-tauri/src/version/updater.rs:46-91 | the update is an error exactly when the git pull, the build or the backup rename cannot be started, each only after the earlier steps passed |
| Updater.RollbackOnlyAfterRun | src-tauri/src/version/updater.rs:78-125 | a restore is attempted exactly when `docker run` was issued and either it failed or the container never ran; every other completed update reports the default, unattempted rollback |
| Updater.Respond | src-tauri/src/version/updater.rs:18-31 | the update is reported successful exactly when every log passed or was skipped, and then, and only then, the new image is the final reference |
| Updater.OperationId | src-tauri/src/version/updater.rs:13 | the requested identifier is kept; without one it is "op-" followed by the Unix time in seconds |
| Updater.ImageKey | src-tauri/src/version/updater.rs:14 | the key is the repository, ':', then the tag |
| Updater.UpdateImageAndRestart | src-tauri/src/version/updater.rs:12-33 | the pipeline's hard error is returned as is; otherwise the response wraps its logs and rollback under the operation id and image key |
| Updater.UnstartedRunReportsSuccess | src-tauri/src/version/updater.rs:79-91 | as written, a `docker run` that cannot be started rolls back but logs nothing, so the update is reported successful, with the new image as final reference |
| Updater.UnstartedRunLog | src-tauri/src/version/updater.rs:228-232 | a run that could not be started is logged as a failed docker_run step |
| Updater.CorrectedSuccessMeansHealthy | src-tauri/src/version/updater.rs:46-126 | with that failure logged, an update is successful exactly when five logs were written and the last is a passed health check; a successful update did not roll back and its container was seen running |
| Updater.CorrectedFromRunSuccess | src-tauri/src/version/updater.rs:78-125 | after three passed steps, the corrected steps from `docker run` on succeed exactly when the container was seen running |
| Updater.FailedLastStep | src-tauri/src/version/updater.rs:20 | a list of logs whose last entry failed is never a success |
| Updater.CorrectedAgreesOtherwise | src-tauri/src/version/updater.rs:79-91 | the corrected pipeline differs from the original only when `docker run` cannot be started |
| DeployUtils.SafeIdentifierIsSafeRef | src-tauri/src/deploy/utils.rs:6-28 | every safe identifier is also a safe git ref and a safe image ref |
| DeployUtils.ValidatorExamples | src-tauri/src/deploy/utils.rs:6-28 | a branch path passes and a command injection does not; an image digest passes as an image ref, but a tag is not a git ref; the empty name and a name with a space are refused |
| DeployUtils.EnsureExistingDir | src-tauri/src/deploy/utils.rs:30-39 | the trimmed path is returned exactly when it names a directory; a missing path and a non-directory each give their own message, quoting the raw text |
| DeployUtils.NormalizeRemoteName | src-tauri/src/deploy/utils.rs:41-48 | the remote is never empty; a blank name becomes "origin", any other name is trimmed |
| DeployUtils.NonEmptyTrimmed | src-tauri/src/deploy/utils.rs:51-54 | every line kept is non-empty and already trimmed, and there are no more lines than pieces |
| DeployUtils.SplitNonEmptyLines | src-tauri/src/deploy/utils.rs:50-55 | every line returned is non-empty and trimmed |
| DeployUtils.NonEmptyTrimmedCount | src-tauri/src/deploy/utils.rs:50-55 | exactly one line is returned per non-blank piece, in order: the trim of that piece |
| DeployUtils.FilterBlank | src-tauri/src/deploy/utils.rs:53 | every piece kept is non-blank and comes from the input |
| DeployUtils.PreferErrorOutput | src-tauri/src/deploy/utils.rs:75-85 | the text is never empty: trimmed stderr when it is not blank, else trimmed stdout, else "无输出" |
| DeployUtils.OutputChunks | src-tauri/src/deploy/utils.rs:57-73 | the header "$ command args" with the exit code comes first; the trimmed stdout and the "[stderr]" block follow, each exactly when that stream is not blank |
| DeployUtils.FormatQuietCapture | src-tauri/src/deploy/utils.rs:57-73 | with both streams blank, the formatted output is the header alone |
| DeployUtils.RunDeployCommand | src-tauri/src/deploy/utils.rs:87-96 | the command line is appended to the records before the run, and the result is the runner's |
| DeployUtils.ResolveDeployProjectPath | src-tauri/src/deploy/utils.rs:118-130 | in compose mode the compose project path is used, otherwise the build context; the trimmed value is returned exactly when it is not blank, else "缺少项目目录配置。" |
| DeployArgs.WordIsTrimmed | src-tauri/src/deploy/utils.rs:50-55 | a word (non-empty, with no whitespace at either end) is exactly a non-empty string that trimming leaves alone |
| DeployArgs.TokensAreKept | src-tauri/src/deploy/args.rs:58-60 | trimming and dropping empty pieces changes nothing on whitespace-free tokens |
| DeployArgs.Tokens | src-tauri/src/deploy/args.rs:79-83 | every token that `split_whitespace`, `trim` and `filter` produce is a word |
| DeployArgs.TokensAreSplitWhitespace | src-tauri/src/deploy/args.rs:79-83 | the `trim` and `filter` after `split_whitespace` are redundant: the tokens are exactly the whitespace-separated pieces |
| DeployArgs.PullArgs | src-tauri/src/deploy/args.rs:4-10 | the pull arguments are `pull <ref>` exactly when the reference is a safe image reference; otherwise the illegal-character message |
| DeployArgs.BuildArgs | src-tauri/src/deploy/args.rs:96-108 | the build is allowed exactly for a safe image reference. It is `build -t <ref>`, then `-f <trimmed Dockerfile>` exactly when one is configured, then "." |
| DeployArgs.ResolveRunImageRef | src-tauri/src/deploy/args.rs:110-130 | build mode takes the trimmed tag and other modes the trimmed image reference. It is returned exactly when it is non-blank and safe, and each of the four refusals has its own message |
| DeployArgs.ResolvedRefIsAccepted | src-tauri/src/deploy/args.rs:4-10 | a resolved reference is never refused later by the pull or the build |
| DeployArgs.Flags | src-tauri/src/deploy/args.rs:38-51 | each line adds exactly two arguments |
| DeployArgs.FlagsArePairs | src-tauri/src/deploy/args.rs:38-51 | argument 2k is the flag and argument 2k+1 is line k |
| DeployArgs.FlagsAreWords | src-tauri/src/deploy/args.rs:38-51 | flag pairs made from words are words |
| DeployArgs.RunFormArgs | src-tauri/src/deploy/args.rs:20-66 | the form's command is built exactly when the trimmed container name is a safe identifier; otherwise the container-name message |
| DeployArgs.PushFlags | src-tauri/src/deploy/args.rs:38-51 | the `for` loop appends exactly one flag and line pair per line, in order |
| DeployArgs.BuildRunFormArgs | src-tauri/src/deploy/args.rs:20-66 | pushing the arguments step by step gives the form's command |
| DeployArgs.LinesAreWords | src-tauri/src/deploy/utils.rs:50-55 | every non-empty trimmed line is a word |
| DeployArgs.FormArgsFrame | src-tauri/src/deploy/args.rs:26-31 | the form's command starts `run -d --name <container>` and ends with the image |
| DeployArgs.FormArgsAreWords | src-tauri/src/deploy/args.rs:20-66 | when the image reference is a word, every argument of the form's command is a word: no blank line or stray space reaches docker |
| DeployArgs.RestartIsWords | src-tauri/src/deploy/args.rs:33-36 | the restart arguments are words |
| DeployArgs.RunTemplateArgs | src-tauri/src/deploy/args.rs:68-94 | the template's command is built exactly when the name is safe and the filled template has a token; the two refusals have their own messages. The command is the filled template's tokens, with one "run" put in front exactly when the first token is not "run", so it always starts with a single added or kept "run" |
| DeployArgs.TemplateArgsAreWords | src-tauri/src/deploy/args.rs:68-94 | every argument of the template's command is a word |
| DeployArgs.TemplateWithoutPlaceholders | src-tauri/src/deploy/args.rs:74-91 | a template without placeholders runs its own whitespace-separated words, with exactly one "run" in front |
| DeployArgs.BuildRunDeployArgs | src-tauri/src/deploy/args.rs:12-18 | the template mode uses the template and every other mode the form |
| DeployArgs.DeployArgsAreSafe | src-tauri/src/deploy/args.rs:12-94 | in either mode a container is run only under a safe name, the command starts with "run", and for an image reference that is a word every argument is a word |
| DeployArgs.ComposeCommandsAgree | src-tauri/src/deploy/args.rs:132-161 | the compose stop and up commands address the same file and service and differ only in the verb |
| DeployArgs.ComposeTargets | src-tauri/src/deploy/args.rs:132-143 | `-f <file>` follows "compose" exactly when a compose file is configured, and the service comes last exactly when one is configured |
| DeployStages.RanOf | src-tauri/src/deploy/utils.rs:87-96 | running one deploy command gives its capture exactly when the process runner could start it, and its error otherwise |
| DeployStages.RunStages | src-tauri/src/deploy/steps.rs:50-99 | a step's commands run one after the other; between one and all of the stages are reported |
| DeployStages.RunStagesFaithful | src-tauri/src/deploy/steps.rs:50-99 | the commands that ran are the first stages in order, all but the last exited 0, and the run stops early only at a non-zero exit |
| DeployStages.RunStagesReachesError | src-tauri/src/deploy/steps.rs:193-230 | a stage whose arguments cannot be built, reached after every earlier command succeeded, makes the step that error |
| DeployStages.RunStagesAllOk | src-tauri/src/deploy/steps.rs:89-99 | the last command exited 0 exactly when every stage ran and exited 0 |
| DeployStages.StagedReport | src-tauri/src/deploy/utils.rs:98-116 | a step that ran reports its command lines, the outputs joined by a blank line, ok exactly when the last exit was 0, and then no error, otherwise the preferred error output |
| DeployStages.SingleStageReport | src-tauri/src/deploy/steps.rs:108-127 | a one-command step reports that command, its output, and ok exactly when it exited 0 |
| DeployStages.StagedOkIff | src-tauri/src/deploy/steps.rs:50-99 | a step is ok exactly when every one of its stages ran and exited 0 |
| DeployStages.StagedCommands | src-tauri/src/deploy/utils.rs:87-96 | a step records between one and all of its command lines, and they are those of the first stages in order |
| DeployStages.RunRecorded | src-tauri/src/deploy/utils.rs:87-96 | a command line is recorded, the command run, and its output appended to the step's outputs |
| DeploySteps.SelectedBranch | src-tauri/src/deploy/steps.rs:35-40 | the trimmed branch is present exactly when one was selected and it is not blank |
| DeploySteps.PullCodeSpec | src-tauri/src/deploy/steps.rs:18-102 | a successful pull-code step is reported as "pull_code" |
| DeploySteps.RunGitCommands | src-tauri/src/deploy/steps.rs:50-101 | fetch, checkout and pull run as the stages of the step, stopping at the first failure |
| DeploySteps.PullCode | src-tauri/src/deploy/steps.rs:18-102 | the pull-code step computes what its specification says |
| DeploySteps.PullCodeOrder | src-tauri/src/deploy/steps.rs:35-101 | a missing or blank branch and an unsafe branch are refused before any command; a step that runs reports fetch, checkout and pull in order, in an existing project directory, and is ok exactly when all three exited 0 |
| DeploySteps.GitRunReport | src-tauri/src/deploy/steps.rs:50-101 | the three git commands are reported in order up to the first failure, and the step is ok exactly when all three exited 0 |
| DeploySteps.DisabledPullRunsNothing | src-tauri/src/deploy/steps.rs:23-33 | with git disabled the step succeeds, skipped, having run nothing |
| DeploySteps.RemoveOldContainer | src-tauri/src/deploy/steps.rs:134-163 | removing the old container is reported as "stop_old" |
| DeploySteps.StopOldSpec | src-tauri/src/deploy/steps.rs:104-164 | a successful stop-old step is reported as "stop_old" |
| DeploySteps.RunSingle | src-tauri/src/deploy/steps.rs:112-126 | one command is run as the whole step |
| DeploySteps.StopOld | src-tauri/src/deploy/steps.rs:104-164 | the stop-old step computes what its specification says |
| DeploySteps.RemoveContainer | src-tauri/src/deploy/steps.rs:134-163 | `docker rm -f` runs on the container, and its failure is read as the specification says |
| DeploySteps.StopOldRunMode | src-tauri/src/deploy/steps.rs:129-163 | only a safe container name is removed; the step reports the one `rm -f`, is ok exactly when it exited 0 or the container was missing, and is skipped exactly in the second case |
| DeploySteps.StopOldComposeMode | src-tauri/src/deploy/steps.rs:108-127 | in compose mode the project directory exists and the step is the compose stop command run there |
| DeploySteps.ImageStages | src-tauri/src/deploy/steps.rs:193-231 | a run-mode deploy has at least one stage |
| DeploySteps.DeployNewSpec | src-tauri/src/deploy/steps.rs:166-247 | a successful deploy-new step is reported as "deploy_new" |
| DeploySteps.RunContainer | src-tauri/src/deploy/steps.rs:230-246 | the container is run as the last stage of the step |
| DeploySteps.RunImageThenContainer | src-tauri/src/deploy/steps.rs:195-246 | the pull or build runs, then the container unless it failed |
| DeploySteps.DeployNew | src-tauri/src/deploy/steps.rs:166-247 | the deploy-new step computes what its specification says |
| DeploySteps.FailedImageStopsDeploy | src-tauri/src/deploy/steps.rs:195-228 | a failing pull or build ends the step before the run: not ok, that one command reported, its preferred error output as the error |
| DeploySteps.DeployEndsWithRun | src-tauri/src/deploy/steps.rs:193-246 | a successful run-mode deploy ends with the `docker run` for the resolved image, after the pull or build when there is one |
| DeploySteps.DeployStepSpec | src-tauri/src/deploy/steps.rs:9-16 | an unknown step is refused with its name, and any result carries the step asked for |
| DeploySteps.ExecuteDeployStep | src-tauri/src/deploy/steps.rs:9-16 | dispatching a step computes what its specification says |
| DockerActions.OverviewArgs | src-tauri/src/docker/mod.rs:11-30 | every overview action has a non-empty argument list |
| DockerActions.TargetArgs | src-tauri/src/docker/mod.rs:37-58 | a target action's arguments start with the action and end with the target |
| DockerActions.BuildDockerArgs | src-tauri/src/docker/mod.rs:9-64 | arguments are built exactly for an overview action, or a target action with a safe target; a missing target, an unsafe target and an unknown action each give their own error |
| DockerActions.ExecuteDockerAction | src-tauri/src/docker/mod.rs:66-81 | argument errors and spawn errors are passed on; a result names the action, the `docker ...` command line and the capture as it came |
| DockerActions.OverviewActions | src-tauri/src/docker/mod.rs:84-87 | the full mode has seven actions and any other mode five, all of them overview actions |
| DockerActions.RemainingTimeout | src-tauri/src/docker/mod.rs:105 | each action gets the rest of the 25 s batch budget, capped at 10 s, and never overruns the budget |
| DockerActions.BatchResults | src-tauri/src/docker/mod.rs:92-118 | the batch has one entry per action |
| DockerActions.ExecuteDockerOverviewBatch | src-tauri/src/docker/mod.rs:83-121 | the loop produces the batch its specification describes, and never fails |
| DockerActions.BatchResultsAt | src-tauri/src/docker/mod.rs:92-118 | entry i is the i-th action run at the time the clock shows then |
| DockerActions.BatchEntryBudget | src-tauri/src/docker/mod.rs:93-117 | once the budget is spent an action becomes a timeout entry with exit -1; before that it runs with the remaining time, and a failure to run becomes an exit -1 entry carrying the error |
| DockerActions.OverviewBatchShape | src-tauri/src/docker/mod.rs:83-121 | the batch lists the mode's actions in order, and none of them needs a target |
| DockerActions.BudgetSpentStaysSpent | src-tauri/src/docker/mod.rs:93-103 | with a clock that never goes back, after one action finds the budget spent every later action is a timeout entry |
| ProcessRunner.NeedsCmdWrapper | src-tauri/src/process_runner.rs:125-141 | only on Windows, and exactly for a `.cmd`/`.bat` name or one of the listed script tools, compared case-insensitively |
| ProcessRunner.NeedsCmdWrapperExamples | src-tauri/src/process_runner.rs:125-141 | "NPM" and "build.Bat" are wrapped on Windows; "git" is not, and nothing is wrapped elsewhere |
| ProcessRunner.CommandLine | src-tauri/src/process_runner.rs:143-175 | a wrapped command becomes `cmd /C <command> <args>`, any other runs as given |
| ProcessRunner.CommandLineKeepsCall | src-tauri/src/process_runner.rs:143-175 | the program and arguments are kept, with at most `cmd /C` put in front |
| ProcessRunner.EffectiveTimeoutMs | src-tauri/src/process_runner.rs:70 | the limit is the one given, raised to 1 ms when zero |
| ProcessRunner.PollFrom | src-tauri/src/process_runner.rs:73-122 | a capture carries the trimmed streams and either the timeout code or the exit code of a finished poll (-1 without one); an error is one a poll reported |
| ProcessRunner.ExecuteProcess | src-tauri/src/process_runner.rs:58-123 | the spawn-and-poll loop computes what its specification says |
| ProcessRunner.RunningPolls | src-tauri/src/process_runner.rs:93-120 | polls that find the process still running inside the limit change nothing about the outcome |
| ProcessRunner.LimitIsNotAnError | src-tauri/src/process_runner.rs:94-116 | reaching the limit gives a capture with exit code -1000, not an error; a process that exits first reports its code, or -1 without one |
| ProcessRunner.CaptureText | src-tauri/src/process_runner.rs:25-48 | spawn errors pass on; a command succeeds exactly when it exited 0, with stdout or, when that is empty, stderr; a failure names the exit code and stderr, or stdout when stderr is empty |
| ProcessRunner.RunCommandWithTimeout | src-tauri/src/process_runner.rs:25-48 | running with a time limit and reading the capture as text is that composition |
| ProcessRunner.ReportedTextIsAStream | src-tauri/src/process_runner.rs:33-38 | reported text is one of the two trimmed streams, and is empty only when both are |
| ToolsDetect.FirstRejected | src-tauri/src/tools/detect.rs:211-216 | the index returned is the first piece the test rejects, or the length when it accepts them all |
| ToolsDetect.FirstNonBlank | src-tauri/src/tools/detect.rs:211-216 | absent exactly when every piece is blank; otherwise the first non-blank piece, trimmed |
| ToolsDetect.FirstLine | src-tauri/src/tools/detect.rs:211-216 | a line found is non-empty and already trimmed |
| ToolsDetect.FirstLineIsFirstNonBlankLine | src-tauri/src/tools/detect.rs:211-216 | absent exactly when every line is blank; otherwise the first non-blank line, trimmed |
| ToolsDetect.CommandNotFoundIsMissingOrNotRecognized | src-tauri/src/tools/detect.rs:33-37 | the not-found test is the missing-command helper plus one extra marker, a bare "not recognized" |
| ToolsDetect.DetectTimeout | src-tauri/src/tools/detect.rs:10-14 | the AI tools get the longer probe limit and every other category the shorter one |
| ToolsDetect.FailureDetails | src-tauri/src/tools/detect.rs:30-46 | a missing command gives the fixed message; otherwise the exit code with stderr, or the exit code alone when stderr is empty |
| ToolsDetect.ResolveToolPath | src-tauri/src/tools/detect.rs:63-70 | a path is given only when `where` ran and exited 0, and it is the first line it printed |
| ToolsDetect.Fallback | src-tauri/src/tools/detect.rs:72-154 | the fallback status keeps the tool's name, command, category and install key |
| ToolsDetect.DetectTool | src-tauri/src/tools/detect.rs:8-61 | the probe runs with the category's limit; a run that started is read from its capture and one that did not goes to the fallback, and the tool's identity is kept |
| ToolsDetect.DetectedInstalledIff | src-tauri/src/tools/detect.rs:21-29 | a tool whose command ran is installed exactly on exit 0, or on a timeout whose output has a non-blank line |
| ToolsDetect.DetectedFields | src-tauri/src/tools/detect.rs:30-57 | details are given exactly when the tool is not installed; an installed tool has the first output line as version and the `where` answer as path, a missing one neither |
| ToolsDetect.TimedOutNeedsOutput | src-tauri/src/tools/detect.rs:27-29 | a timed-out tool is installed exactly when it has a version, and that version is its first non-blank line |
| ToolsDetect.NotInstalledHasOnlyDetails | src-tauri/src/tools/detect.rs:8-154 | on every path a tool that is not installed has details and no version or path, and a version is never empty |
| ToolsDetect.SpawnFailureFallback | src-tauri/src/tools/detect.rs:72-154 | when the command cannot start, the tool counts as installed only for cmake found on disk or mysql/postgresql found as a service; otherwise the details are the missing-command message or the error itself |
| Install.FindSpecIn | src-tauri/src/install/mod.rs:182-185 | absent exactly when no entry has the key; otherwise an entry of the table with that key |
| Install.FindSpec | src-tauri/src/install/mod.rs:20-185 | looking up the fixed install table finds an entry exactly when one has the key |
| Install.NodePackageName | src-tauri/src/install/mod.rs:256-265 | exactly pnpm, yarn, claude-code, codex-cli and gemini-cli have an npm package, and it is never empty |
| Install.PythonInstallDir | src-tauri/src/install/mod.rs:276-279 | the trimmed path when one is given and not blank, `C:\Python312` otherwise |
| Install.ResolveInstallPlan | src-tauri/src/install/mod.rs:214-254 | the plan is chosen as its specification says: npm items, then Python, then winget when its probe answers |
| Install.SpawnError | src-tauri/src/install/mod.rs:188-202 | only an npm plan that cannot start gets the install-Node.js hint; every other spawn error passes on unchanged |
| Install.ExecuteInstallItem | src-tauri/src/install/mod.rs:181-212 | looking the item up, choosing the plan and running it computes what its specification says |
| Install.ExecuteUninstallItem | src-tauri/src/install/mod.rs:346-363 | an item missing from the table is refused with its key |
| Install.ValidateInstallPath | src-tauri/src/install/mod.rs:438-499 | a path is valid exactly when it is not blank and its trimmed form exists, is a directory and is writable; errors come exactly with invalid paths, and no free space is ever reported |
| Install.CheckWingetAvailable | src-tauri/src/install/mod.rs:516-534 | winget is available exactly when `winget --version` succeeds, and then a version and no error are given; otherwise an error and no version |
| Install.NpmItemsAreListed | src-tauri/src/install/mod.rs:20-179 | every item installed with npm is in the install table |
| Install.UnknownItemRefused | src-tauri/src/install/mod.rs:181-185 | an item missing from the table is refused, for install and uninstall alike, whatever the machine would answer |
| Install.InstallPlanChoice | src-tauri/src/install/mod.rs:214-254 | npm items get `npm install -g` and Python the direct installer, whatever winget would say; any other item gets the winget install exactly when winget answers, and otherwise the winget-missing error |
| Install.WingetLocationIffPath | src-tauri/src/install/mod.rs:231-244 | the seven fixed winget arguments are followed by "--location" and the trimmed path exactly when the path is not blank |
| Install.PythonPlanDirectory | src-tauri/src/install/mod.rs:275-344 | the Python plan installs "Python.Python.3.12" into the trimmed path, or into `C:\Python312` when none is given |
| Install.UninstallPlanChoice | src-tauri/src/install/mod.rs:365-394 | npm items get `npm uninstall -g`; any other item gets winget uninstall with purge exactly when winget answers, and otherwise the winget-missing error |
| Install.InstallReportsPlan | src-tauri/src/install/mod.rs:181-212 | a reported install names the item and the plan's package, shows the plan's command line and carries the exit code of running exactly that plan |
| Runtime.AppRuntimeState.constructor | src-tauri/src/runtime/mod.rs:7-18 | the cache starts empty and consistent |
| Runtime.AppRuntimeState.GetSnapshot | src-tauri/src/runtime/mod.rs:21-23 | the cached snapshot |
| Runtime.AppRuntimeState.GetRealtime | src-tauri/src/runtime/mod.rs:25-27 | the cached realtime sample |
| Runtime.AppRuntimeState.UpdateSnapshot | src-tauri/src/runtime/mod.rs:29-52 | the snapshot is stored stamped with mode, time and stale flag, its realtime view replaces the cached one, and the two views stay consistent |
| Runtime.AppRuntimeState.UpdateRealtime | src-tauri/src/runtime/mod.rs:54-76 | the stamped sample is stored, a cached snapshot takes its metrics and marks, and the two views stay consistent |
| Runtime.MergeRealtimeRoundTrip | src-tauri/src/runtime/mod.rs:54-76 | merging a snapshot's own realtime view back changes nothing, and the realtime view of a merged snapshot is the sample merged in |
| Runtime.MergeKeepsMachine | src-tauri/src/runtime/mod.rs:62-71 | a realtime sample changes only metrics and marks, never the machine's description |
| Runtime.StampsAgree | src-tauri/src/runtime/mod.rs:29-52 | after a snapshot update the realtime view carries the new mode, time and stale flag and the snapshot's metrics |
| AppLib.WithTiming | src-tauri/src/lib.rs:149-169 | a response is ok exactly when the operation succeeded, and then carries data and no error, otherwise an error and no data; the measured time is carried as given |
| AppLib.WithTimingRoundTrip | src-tauri/src/lib.rs:149-169 | the operation's result can be read back from its response |
| AppLib.LegacyBuildDockerArgs | src-tauri/src/lib.rs:974-1017 | arguments are built exactly for an overview action, or start/stop/restart/logs with a safe target; each refusal has its own message |
| AppLib.LegacyDockerArgsAgree | src-tauri/src/lib.rs:974-1017 | on every action this table accepts it builds the same arguments as the newer one; run, rm and rmi are refused as unknown here; whatever it refuses otherwise the newer one refuses too |
| AppLib.SafeIdentifierMeaning | src-tauri/src/lib.rs:1019-1025 | a safe identifier is non-empty, at most 128 characters, each an ASCII letter or digit or one of `.`, `_`, `-` |
| AppLib.RunCommandText | src-tauri/src/lib.rs:1062-1084 | spawn errors pass on; success exactly on exit code 0, with stdout or, when empty, stderr; a failure shows the debug form of the code and stderr, or stdout when stderr is empty |
| AppLib.ExecuteProcess | src-tauri/src/lib.rs:1049-1060 | the capture keeps both streams, and a missing exit code becomes -1 |
| AppLib.RunCommandAgreesWithRunner | src-tauri/src/lib.rs:1049-1084 | this reading and the time-limited runner's agree on success, on the success text and on spawn errors; only the failure text differs |
| AppLib.LegacyExecuteDockerAction | src-tauri/src/lib.rs:895-906 | argument errors pass on; a result names the action and the `docker ...` command line of the arguments built |
| AppLib.LegacyTableIsWingetPrefix | src-tauri/src/lib.rs:584-731 | this module's own install table is the newer table without its last three entries, and those three are the items the newer module installs with npm |
| AppLib.LegacyFindSpec | src-tauri/src/lib.rs:909-912 | looking up this module's own table finds an entry exactly when one has the key |
| AppLib.NpmOnlyItemsAreNewerItems | src-tauri/src/install/mod.rs:20-185 | the newer table knows claude-code, codex-cli and gemini-cli, and installs them with npm |
| AppLib.LegacyLacksNpmOnlyItems | src-tauri/src/lib.rs:584-731 | claude-code, codex-cli and gemini-cli are not in this module's table |
| AppLib.LegacyRefusesNpmOnlyItems | src-tauri/src/lib.rs:908-912 | the older install refuses claude-code, codex-cli and gemini-cli as unknown items, before it probes winget |
| AppLib.ExecuteInstallItem | src-tauri/src/lib.rs:908-942 | looking the item up, probing winget and running the install computes what its specification says |
| AppLib.LegacyWingetArgs | src-tauri/src/lib.rs:917-930 | the arguments are the same winget install arguments the newer install module builds |
| AppLib.LegacyInstallShape | src-tauri/src/lib.rs:908-942 | unknown items are refused first, then a machine without winget; a reported install shows the winget command line, with "--location" exactly when a non-blank path was given |

## Left out

- Concurrency: the checker's concurrent fan-out and its per-source and overall timers are not modelled. The model takes each provider's outcome and the overall expiry as inputs. The mutexes and `RwLock`s around the two caches are not modelled either; each class method is one atomic step.
- Subprocesses, HTTP and JSON: every external command, HTTP request and JSON body is an oracle or an already-parsed record. Request building, status handling beyond success or failure, and JSON decoding are not modelled.
- Regular expressions: the regex engine is a parameter that says whether a pattern compiles and whether it matches.
- Clocks: `SystemTime`, `Instant`, `chrono` and `current_timestamp_ms` are readings passed in. Sleeping is not modelled; a loop's successive clock readings are a sequence. `VersionChecker.CheckImageVersion` takes one reading `now` and uses it for the cache freshness test, the response's `checked_at_ms` and the cache entry's `cached_at`. The source reads the clock again after the fan-out for the last two (checker.rs:168, state.rs:84), so there they are later than the freshness test by the checks' duration.
- File system: directory, `.git`, version-file and writability probes are functions passed in. `check_path_writable`'s temporary file is not modelled.
- Byte decoding: `decode_bytes` (UTF-8, then GBK, then lossy) is not modelled. A capture's streams are the already-decoded text, and `Trim` of it is applied where the runner trims.
- The process runner's spawn and `try_wait` calls: they are a recorded child process. Killing the child on timeout and reading its pipes are not modelled, so `ProcessRunner.ExecuteProcess` reads the streams as given.
- Unicode: lower-casing and `is_alphanumeric` are modelled on ASCII only. Upper-casing (`Text.ToUpper`) covers the ASCII letters and the non-ASCII characters that can help spell GET or POST ('ſ', 'ﬅ', 'ﬆ'); other non-ASCII letters are kept unchanged. Rust applies them to all of Unicode, so header keys and error texts with non-ASCII letters are outside the model. `len()` counts bytes in Rust and characters here; every length bound in the validators applies to ASCII-only text, where the two agree.
- Floating point: the `f64` metrics of the runtime snapshots are `real` values that are only copied.
- Integer widths: exit codes and millisecond counts are unbounded `int`/`nat`. The source's `u64` and `i32` never overflow on the values involved.
- `VersionRollback.Rollback`: does not model the local `logs` vector that `rollback` fills and never returns.
- User-interface commands: directory pickers, window handling, single-instance handling, `install_app_installer`, the `where`/`Program Files` search for cmake and the Windows service probe are left out. The last two are parameters of tool detection.
- `list_git_branches_internal`: not modelled, because it is git I/O followed only by sorting and deduplication.
- Install tables: `default_tool_specs` is not modelled. Both `install_specs` tables are transcribed as constants: the install module's 39 entries as `Install.InstallSpecs` and the older entry point's 36 as `AppLib.LegacyInstallSpecs`.
- `build_python_direct_install_plan`: the PowerShell script text is a parameter; only the target directory and the package id are modelled.
- `first_line` in src-tauri/src/lib.rs:1103-1108: it is the same function as the one in tools/detect.rs. It is modelled once, as `ToolsDetect.FirstLine`.
- `execute_process_with_timeout` in the test at src-tauri/src/process_runner.rs:219-233: the test expects an error on timeout, but the code returns a capture with exit code -1000. The model follows the code (`ProcessRunner.LimitIsNotAnError`).
- `DockerHubSource.FetchLatest` and `GithubSource.FetchLatest`: their own contracts state only part of the outcome. The full outcome is stated by the `DockerHubSource.FetchLatestSpec` and `GithubSource.FetchLatestSpec` lemmas beside them.
- `GitCheckerSource.FetchLatest` requires `RemoteCommitSliceable`: the remote commit hash must have at least eight characters. The source slices `remote_commit[..8]` (git_checker.rs:121 and 140), which panics on a shorter hash; that panic is not modelled. Git prints forty-character hashes.
- `Updater.UpdateImageAndRestart`: keeps the as-written pipeline. It follows the source, including the behaviour under "## Findings"; the corrected pipeline is `Updater.ExecuteCorrected`.

## Findings

| source | as written | input that shows it | evidently intended | confidence | as-written member | corrected member |
|---|---|---|---|---|---|---|
| src-tauri/src/version/updater.rs:79-91 | when `docker run` cannot be spawned, the pipeline rolls back but appends no log. Success is computed from the logs alone, so the update is reported successful, with the new image as the final reference. | git pull, docker build and the backup succeed, and the `docker run` command fails to start | the failed run is logged as a failed docker_run step and the update is reported as failed | not executed | Updater.UnstartedRunReportsSuccess | Updater.CorrectedSuccessMeansHealthy |
