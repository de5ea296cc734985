/** Waiting for a freshly started container to report the "running" state:
    poll `docker inspect`, sleeping between polls, until it runs, cannot be
    inspected, or the wait is over. */
module HealthCheck {
  import opened Wrappers
  import opened Text
  import opened Effects
  import opened VersionErrors

  datatype HealthChecker = HealthChecker(containerName: string, maxWaitSeconds: nat, checkIntervalMs: nat)

  /** `HealthChecker::new`: polls once a second. */
  function NewHealthChecker(containerName: string, maxWaitSeconds: nat): (c: HealthChecker)
    ensures c.containerName == containerName && c.maxWaitSeconds == maxWaitSeconds
    ensures c.checkIntervalMs == 1000
  {
    HealthChecker(containerName, maxWaitSeconds, 1000)
  }

  /** The command of one poll. */
  function InspectArgv(c: HealthChecker): Argv {
    ["docker", "inspect", "--format", "{{.State.Status}}", c.containerName]
  }

  /** `check_container_status`: whether the trimmed status is "running"; a
      failed inspection means the container is missing. Every error is a
      failed "health_check" step. */
  function CheckContainerStatus(c: HealthChecker, out: CmdOutcome): (r: Result<bool, VersionError>)
    ensures r.Ok? <==> out.Success()
    ensures r == Ok(true) <==> out.Success() && Trim(out.stdout) == "running"
    ensures out.SpawnError? ==>
              r == Err(VersionError.StepFailed("health_check", "Failed to inspect container: " + out.message))
    ensures out.Exited? && !out.Success() ==>
              r == Err(VersionError.StepFailed("health_check", "Container " + c.containerName + " not found"))
  {
    match out
    case SpawnError(e) =>
      Err(VersionError.StepFailed("health_check", "Failed to inspect container: " + e))
    case Exited(code, stdout, _) =>
      if code != Some(0) then
        Err(VersionError.StepFailed("health_check", "Container " + c.containerName + " not found"))
      else
        Ok(Trim(stdout) == "running")
  }

  /** The wait limit in milliseconds. */
  function LimitMs(c: HealthChecker): nat {
    c.maxWaitSeconds * 1000
  }

  /** The elapsed-time readings taken before each poll: every poll after
      another follows a sleep of at least the interval. */
  ghost predicate ClockAdvances(c: HealthChecker, elapsedAt: nat -> nat) {
    c.checkIntervalMs > 0 && forall j, k :: j < k ==> elapsedAt(j) + c.checkIntervalMs <= elapsedAt(k)
  }

  /** The outcome of the wait from poll `k` on, given the elapsed time read
      before each poll and what each poll's inspection printed. */
  function HealthFrom(c: HealthChecker, elapsedAt: nat -> nat, inspect: nat -> CmdOutcome, k: nat)
    : (r: Result<Unit, VersionError>)
    requires ClockAdvances(c, elapsedAt)
    ensures r.Err? ==> r.error.StepFailed? && r.error.step == "health_check"
    decreases if elapsedAt(k) <= LimitMs(c) then LimitMs(c) - elapsedAt(k) + 1 else 0
  {
    if elapsedAt(k) > LimitMs(c) then
      Err(VersionError.StepFailed("health_check", "Container " + c.containerName
          + " did not become healthy within " + NatToString(c.maxWaitSeconds) + " seconds"))
    else
      match CheckContainerStatus(c, inspect(k))
      case Ok(true) => Ok(Unit)
      case Ok(false) =>
        assert elapsedAt(k) + c.checkIntervalMs <= elapsedAt(k + 1);
        HealthFrom(c, elapsedAt, inspect, k + 1)
      case Err(e) => Err(e)
  }

  /** `wait_until_healthy`: the polling loop. */
  method WaitUntilHealthy(c: HealthChecker, elapsedAt: nat -> nat, inspect: nat -> CmdOutcome)
    returns (r: Result<Unit, VersionError>)
    requires ClockAdvances(c, elapsedAt)
    ensures r == HealthFrom(c, elapsedAt, inspect, 0)
  {
    var k := 0;
    while true
      invariant HealthFrom(c, elapsedAt, inspect, k) == HealthFrom(c, elapsedAt, inspect, 0)
      decreases if elapsedAt(k) <= LimitMs(c) then LimitMs(c) - elapsedAt(k) + 1 else 0
    {
      if elapsedAt(k) > LimitMs(c) {
        return Err(VersionError.StepFailed("health_check", "Container " + c.containerName
                   + " did not become healthy within " + NatToString(c.maxWaitSeconds) + " seconds"));
      }
      var status := CheckContainerStatus(c, inspect(k));
      match status
      case Ok(true) =>
        return Ok(Unit);
      case Ok(false) =>
        assert elapsedAt(k) + c.checkIntervalMs <= elapsedAt(k + 1);
        k := k + 1;
      case Err(e) =>
        return Err(e);
    }
  }

  /** Poll `j` happens within the limit and finds the container present
      but not running. */
  predicate StillPending(c: HealthChecker, elapsedAt: nat -> nat, inspect: nat -> CmdOutcome, j: nat) {
    elapsedAt(j) <= LimitMs(c) && CheckContainerStatus(c, inspect(j)) == Ok(false)
  }

  /** Polls that find the container present but not yet running, within
      the limit, only lead on to the next poll. */
  lemma {:induction false} PollsUntilDecided(c: HealthChecker, elapsedAt: nat -> nat, inspect: nat -> CmdOutcome,
                                             k: nat, m: nat)
    requires ClockAdvances(c, elapsedAt) && k <= m
    requires forall j :: k <= j < m ==> StillPending(c, elapsedAt, inspect, j)
    ensures HealthFrom(c, elapsedAt, inspect, k) == HealthFrom(c, elapsedAt, inspect, m)
  {
    PendingPollsContinue(c, elapsedAt, inspect, k, m);
    SameAlong((j: nat) => HealthFrom(c, elapsedAt, inspect, j), k, m);
  }

  /** Each of a run of pending polls leads on to the next. */
  lemma PendingPollsContinue(c: HealthChecker, elapsedAt: nat -> nat, inspect: nat -> CmdOutcome, k: nat, m: nat)
    requires ClockAdvances(c, elapsedAt)
    requires forall j :: k <= j < m ==> StillPending(c, elapsedAt, inspect, j)
    ensures forall j :: k <= j < m ==> HealthFrom(c, elapsedAt, inspect, j) == HealthFrom(c, elapsedAt, inspect, j + 1)
  {
    forall j | k <= j < m
      ensures HealthFrom(c, elapsedAt, inspect, j) == HealthFrom(c, elapsedAt, inspect, j + 1)
    {
      PollContinues(c, elapsedAt, inspect, j);
    }
  }

  /** A sequence of values that never changes from one index to the next
      has the same value at both ends. */
  lemma {:induction false} SameAlong<T>(f: nat -> T, k: nat, m: nat)
    requires k <= m
    requires forall j :: k <= j < m ==> f(j) == f(j + 1)
    ensures f(k) == f(m)
    decreases m - k
  {
    if k < m {
      SameAlong(f, k + 1, m);
    }
  }

  /** A poll within the limit that finds the container present but not
      running leads on to the next poll. */
  lemma PollContinues(c: HealthChecker, elapsedAt: nat -> nat, inspect: nat -> CmdOutcome, k: nat)
    requires ClockAdvances(c, elapsedAt)
    requires StillPending(c, elapsedAt, inspect, k)
    ensures HealthFrom(c, elapsedAt, inspect, k) == HealthFrom(c, elapsedAt, inspect, k + 1)
  {
  }

  /** The wait succeeds exactly at a poll within the limit that sees
      "running", after only polls that saw the container present but not
      running; it reports the missing container at the first failed
      inspection; and it gives up once the limit has passed. */
  lemma WaitOutcomes(c: HealthChecker, elapsedAt: nat -> nat, inspect: nat -> CmdOutcome, m: nat)
    requires ClockAdvances(c, elapsedAt)
    requires forall j :: 0 <= j < m ==> StillPending(c, elapsedAt, inspect, j)
    ensures elapsedAt(m) <= LimitMs(c) && inspect(m).Success() && Trim(inspect(m).stdout) == "running" ==>
              HealthFrom(c, elapsedAt, inspect, 0) == Ok(Unit)
    ensures elapsedAt(m) <= LimitMs(c) && inspect(m).Exited? && !inspect(m).Success() ==>
              HealthFrom(c, elapsedAt, inspect, 0)
                == Err(VersionError.StepFailed("health_check", "Container " + c.containerName + " not found"))
    ensures elapsedAt(m) > LimitMs(c) ==>
              HealthFrom(c, elapsedAt, inspect, 0)
                == Err(VersionError.StepFailed("health_check", "Container " + c.containerName
                       + " did not become healthy within " + NatToString(c.maxWaitSeconds) + " seconds"))
  {
    PollsUntilDecided(c, elapsedAt, inspect, 0, m);
  }

  /** Whenever the first reading is within the limit, the container is
      inspected at least once: a first poll that sees "running" succeeds
      even with a zero limit. */
  lemma AtLeastOnePoll(name: string, elapsedAt: nat -> nat, inspect: nat -> CmdOutcome)
    requires ClockAdvances(NewHealthChecker(name, 0), elapsedAt)
    requires elapsedAt(0) == 0 && inspect(0) == Exited(Some(0), "running\n", "")
    ensures HealthFrom(NewHealthChecker(name, 0), elapsedAt, inspect, 0) == Ok(Unit)
  {
    var c := NewHealthChecker(name, 0);
    RunningLine();
    assert CheckContainerStatus(c, inspect(0)) == Ok(true);
    assert elapsedAt(0) <= LimitMs(c);
  }

  /** The status line `docker inspect` prints for a running container. */
  lemma RunningLine()
    ensures Trim("running\n") == "running"
  {
    var line, word := "running\n", "running";
    assert TrimStart(line) == line by { assert !IsWhitespace(line[0]); }
    assert line[..|line| - 1] == word;
    assert TrimEnd(word) == word by { assert !IsWhitespace(word[|word| - 1]); }
    assert TrimEnd(line) == TrimEnd(word) by { assert IsWhitespace(line[|line| - 1]); }
  }

  /** Two polls that see "created", then one that sees "running", all
      within the wait: the third poll succeeds. */
  lemma ThirdPollSucceeds(c: HealthChecker, elapsedAt: nat -> nat, inspect: nat -> CmdOutcome)
    requires ClockAdvances(c, elapsedAt) && elapsedAt(2) <= LimitMs(c)
    requires inspect(0) == inspect(1) == Exited(Some(0), "created", "")
    requires inspect(2) == Exited(Some(0), "running", "")
    ensures HealthFrom(c, elapsedAt, inspect, 0) == Ok(Unit)
  {
    StatusWords(c);
    assert elapsedAt(0) + c.checkIntervalMs <= elapsedAt(2);
    assert elapsedAt(1) + c.checkIntervalMs <= elapsedAt(2);
    assert CheckContainerStatus(c, inspect(0)) == Ok(false);
    assert CheckContainerStatus(c, inspect(1)) == Ok(false);
    forall j | 0 <= j < 2
      ensures StillPending(c, elapsedAt, inspect, j)
    {
      assert j == 0 || j == 1;
    }
    WaitOutcomes(c, elapsedAt, inspect, 2);
  }

  /** One poll within the limit: "running" ends the wait, another status
      leads on to the next poll. */
  lemma PollDecides(c: HealthChecker, elapsedAt: nat -> nat, inspect: nat -> CmdOutcome, k: nat)
    requires ClockAdvances(c, elapsedAt) && elapsedAt(k) <= LimitMs(c) && inspect(k).Success()
    ensures Trim(inspect(k).stdout) == "running" ==> HealthFrom(c, elapsedAt, inspect, k) == Ok(Unit)
    ensures Trim(inspect(k).stdout) != "running" ==>
              HealthFrom(c, elapsedAt, inspect, k) == HealthFrom(c, elapsedAt, inspect, k + 1)
  {
  }

  /** How one poll reads the two statuses of the example above. */
  lemma StatusWords(c: HealthChecker)
    ensures CheckContainerStatus(c, Exited(Some(0), "created", "")) == Ok(false)
    ensures CheckContainerStatus(c, Exited(Some(0), "running", "")) == Ok(true)
  {
    TrimStartOfTrimmed("created");
    TrimEndOfTrimmed("created");
    TrimStartOfTrimmed("running");
    TrimEndOfTrimmed("running");
    assert "created"[0] != "running"[0];
  }
}
