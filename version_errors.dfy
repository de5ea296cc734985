/** The error taxonomy of the version engine: seven machine codes, each
    with a fixed user message, and the error values that map onto them. */
module VersionErrors {
  import opened Wrappers
  import opened Text

  datatype VersionErrorCode =
    | InvalidInput
    | SourceTimeout
    | SourceUnavailable
    | NoValidSourceResult
    | UpdateConflict
    | StepFailed
    | RollbackFailed

  /** `VersionErrorCode::as_str`; the string names the code uniquely. */
  function CodeStr(c: VersionErrorCode): (s: string)
    ensures CodeOfStr(s) == Some(c)
    ensures StartsWith(s, "VERSION_")
  {
    match c
    case InvalidInput => "VERSION_INVALID_INPUT"
    case SourceTimeout => "VERSION_SOURCE_TIMEOUT"
    case SourceUnavailable => "VERSION_SOURCE_UNAVAILABLE"
    case NoValidSourceResult => "VERSION_NO_VALID_SOURCE_RESULT"
    case UpdateConflict => "VERSION_UPDATE_CONFLICT"
    case StepFailed => "VERSION_STEP_FAILED"
    case RollbackFailed => "VERSION_ROLLBACK_FAILED"
  }

  /** Reads a machine code back. */
  function CodeOfStr(s: string): Option<VersionErrorCode> {
    if s == "VERSION_INVALID_INPUT" then Some(VersionErrorCode.InvalidInput)
    else if s == "VERSION_SOURCE_TIMEOUT" then Some(VersionErrorCode.SourceTimeout)
    else if s == "VERSION_SOURCE_UNAVAILABLE" then Some(VersionErrorCode.SourceUnavailable)
    else if s == "VERSION_NO_VALID_SOURCE_RESULT" then Some(VersionErrorCode.NoValidSourceResult)
    else if s == "VERSION_UPDATE_CONFLICT" then Some(VersionErrorCode.UpdateConflict)
    else if s == "VERSION_STEP_FAILED" then Some(VersionErrorCode.StepFailed)
    else if s == "VERSION_ROLLBACK_FAILED" then Some(VersionErrorCode.RollbackFailed)
    else None
  }

  /** Distinct codes have distinct machine strings. */
  lemma CodeStrInjective(a: VersionErrorCode, b: VersionErrorCode)
    requires CodeStr(a) == CodeStr(b)
    ensures a == b
  {
    assert CodeOfStr(CodeStr(a)) == Some(a);
  }

  /** `VersionErrorCode::user_message`: a fixed, non-empty sentence that
      never contains the ": " used to join it to the details. */
  function CodeMessage(c: VersionErrorCode): (m: string)
    ensures m != [] && ':' !in m
  {
    var m := match c
      case InvalidInput => "输入参数无效，请检查配置"
      case SourceTimeout => "版本检查超时，请稍后重试"
      case SourceUnavailable => "版本源不可用，请检查网络连接"
      case NoValidSourceResult => "所有版本源检查失败，请检查配置"
      case UpdateConflict => "该镜像正在更新中，请稍后重试"
      case StepFailed => "更新步骤执行失败"
      case RollbackFailed => "回滚失败，请手动恢复";
    m
  }

  datatype VersionError =
    | InvalidInput(message: string)
    | SourceTimeout(message: string)
    | SourceUnavailable(message: string)
    | NoValidSourceResult
    | UpdateConflict(message: string)
    | StepFailed(step: string, message: string)
    | RollbackFailed(message: string)
    | Io(message: string)
    | Http(message: string)
    | Parse(message: string)
  {
    /** `VersionError::code`: transport-level errors (Io, Http, Parse) all
        count as an unavailable source; the other variants keep their name. */
    function Code(): (c: VersionErrorCode)
      ensures (Io? || Http? || Parse?) ==> c == VersionErrorCode.SourceUnavailable
      ensures c == VersionErrorCode.InvalidInput <==> InvalidInput?
      ensures c == VersionErrorCode.SourceTimeout <==> SourceTimeout?
      ensures c == VersionErrorCode.SourceUnavailable <==> (SourceUnavailable? || Io? || Http? || Parse?)
      ensures c == VersionErrorCode.NoValidSourceResult <==> NoValidSourceResult?
      ensures c == VersionErrorCode.UpdateConflict <==> UpdateConflict?
      ensures c == VersionErrorCode.StepFailed <==> StepFailed?
      ensures c == VersionErrorCode.RollbackFailed <==> RollbackFailed?
    {
      match this
      case InvalidInput(_) => VersionErrorCode.InvalidInput
      case SourceTimeout(_) => VersionErrorCode.SourceTimeout
      case SourceUnavailable(_) => VersionErrorCode.SourceUnavailable
      case NoValidSourceResult => VersionErrorCode.NoValidSourceResult
      case UpdateConflict(_) => VersionErrorCode.UpdateConflict
      case StepFailed(_, _) => VersionErrorCode.StepFailed
      case RollbackFailed(_) => VersionErrorCode.RollbackFailed
      case Io(_) | Http(_) | Parse(_) => VersionErrorCode.SourceUnavailable
    }

    /** The `Display` text of the error. */
    function Display(): string {
      match this
      case InvalidInput(m) => "Invalid input: " + m
      case SourceTimeout(m) => "Source timeout: " + m
      case SourceUnavailable(m) => "Source unavailable: " + m
      case NoValidSourceResult => "No valid source result"
      case UpdateConflict(m) => "Update conflict: " + m
      case StepFailed(step, m) => "Step failed: " + step + " - " + m
      case RollbackFailed(m) => "Rollback failed: " + m
      case Io(m) => "IO error: " + m
      case Http(m) => "HTTP error: " + m
      case Parse(m) => "Parse error: " + m
    }

    /** `VersionError::user_message`: the code's sentence, ": ", then the
        Display text. */
    function UserMessage(): string {
      CodeMessage(Code()) + ": " + Display()
    }
  }

  /** Reads an error back from its Display text. A StepFailed text is cut at
      its first " - ". */
  function ParseDisplay(s: string): Option<VersionError> {
    if StartsWith(s, "Invalid input: ") then Some(VersionError.InvalidInput(s[15..]))
    else if StartsWith(s, "Source timeout: ") then Some(VersionError.SourceTimeout(s[16..]))
    else if StartsWith(s, "Source unavailable: ") then Some(VersionError.SourceUnavailable(s[20..]))
    else if s == "No valid source result" then Some(VersionError.NoValidSourceResult)
    else if StartsWith(s, "Update conflict: ") then Some(VersionError.UpdateConflict(s[17..]))
    else if StartsWith(s, "Rollback failed: ") then Some(VersionError.RollbackFailed(s[17..]))
    else if StartsWith(s, "IO error: ") then Some(VersionError.Io(s[10..]))
    else if StartsWith(s, "HTTP error: ") then Some(VersionError.Http(s[12..]))
    else if StartsWith(s, "Parse error: ") then Some(VersionError.Parse(s[13..]))
    else None
  }

  /** A string whose `i`-th character differs from the pattern's does not
      start with the pattern. */
  lemma DiffersAt(s: string, p: string, i: nat)
    requires i < |s| && i < |p| && s[i] != p[i]
    ensures !StartsWith(s, p)
  {
    if |p| <= |s| {
      assert s[..|p|][i] == s[i];
    }
  }

  /** Apart from StepFailed, whose step and message run together, the Display
      text determines the error. */
  lemma ParseDisplayRoundTrip(e: VersionError)
    requires !e.StepFailed?
    ensures ParseDisplay(e.Display()) == Some(e)
  {
    if e.InvalidInput? || e.SourceTimeout? || e.SourceUnavailable? {
      ParseDisplayFirst(e);
    } else if e.NoValidSourceResult? || e.UpdateConflict? || e.RollbackFailed? {
      ParseDisplaySecond(e);
    } else {
      ParseDisplayThird(e);
    }
  }

  /** The round trip for InvalidInput, SourceTimeout, SourceUnavailable. */
  lemma ParseDisplayFirst(e: VersionError)
    requires e.InvalidInput? || e.SourceTimeout? || e.SourceUnavailable?
    ensures ParseDisplay(e.Display()) == Some(e)
  {
    var s := e.Display();
    match e
    case InvalidInput(m) =>
      assert s[..15] == "Invalid input: ";
    case SourceTimeout(m) =>
      DiffersAt(s, "Invalid input: ", 0);
      assert s[..16] == "Source timeout: ";
    case SourceUnavailable(m) =>
      DiffersAt(s, "Invalid input: ", 0);
      DiffersAt(s, "Source timeout: ", 7);
      assert s[..20] == "Source unavailable: ";
  }

  /** The round trip for NoValidSourceResult, UpdateConflict, RollbackFailed. */
  lemma ParseDisplaySecond(e: VersionError)
    requires e.NoValidSourceResult? || e.UpdateConflict? || e.RollbackFailed?
    ensures ParseDisplay(e.Display()) == Some(e)
  {
    var s := e.Display();
    match e
    case NoValidSourceResult =>
      DiffersAt(s, "Invalid input: ", 0);
      DiffersAt(s, "Source timeout: ", 0);
      DiffersAt(s, "Source unavailable: ", 0);
    case UpdateConflict(m) =>
      DiffersAt(s, "Invalid input: ", 0);
      DiffersAt(s, "Source timeout: ", 0);
      DiffersAt(s, "Source unavailable: ", 0);
      assert s[..17] == "Update conflict: ";
    case RollbackFailed(m) =>
      DiffersAt(s, "Invalid input: ", 0);
      DiffersAt(s, "Source timeout: ", 0);
      DiffersAt(s, "Source unavailable: ", 0);
      DiffersAt(s, "Update conflict: ", 0);
      assert s[..17] == "Rollback failed: ";
  }

  /** The round trip for Io, Http, Parse. */
  lemma ParseDisplayThird(e: VersionError)
    requires e.Io? || e.Http? || e.Parse?
    ensures ParseDisplay(e.Display()) == Some(e)
  {
    var s := e.Display();
    match e
    case Io(m) =>
      DiffersAt(s, "Invalid input: ", 1);
      DiffersAt(s, "Source timeout: ", 0);
      DiffersAt(s, "Source unavailable: ", 0);
      DiffersAt(s, "Update conflict: ", 0);
      DiffersAt(s, "Rollback failed: ", 0);
      assert s[..10] == "IO error: ";
    case Http(m) =>
      DiffersAt(s, "Invalid input: ", 0);
      DiffersAt(s, "Source timeout: ", 0);
      DiffersAt(s, "Source unavailable: ", 0);
      DiffersAt(s, "Update conflict: ", 0);
      DiffersAt(s, "Rollback failed: ", 0);
      DiffersAt(s, "IO error: ", 0);
      assert s[..12] == "HTTP error: ";
    case Parse(m) =>
      DiffersAt(s, "Invalid input: ", 0);
      DiffersAt(s, "Source timeout: ", 0);
      DiffersAt(s, "Source unavailable: ", 0);
      DiffersAt(s, "Update conflict: ", 0);
      DiffersAt(s, "Rollback failed: ", 0);
      DiffersAt(s, "IO error: ", 0);
      DiffersAt(s, "HTTP error: ", 0);
      assert s[..13] == "Parse error: ";
  }

  /** Two colon-free strings each followed by ':' at the head of the same
      text are equal. */
  lemma {:induction false} SameTextBeforeColon(a: string, b: string, x: string)
    requires ':' !in a && ':' !in b && x != [] && x[0] == ':'
    ensures StartsWith(a + x, b + ":") ==> a == b
  {
    var u := a + x;
    var n := |b|;
    if StartsWith(u, b + ":") {
      assert u[..n + 1] == b + ":";
      assert u[n] == u[..n + 1][n] == ':';
      assert n >= |a|;
      assert u[|a|] == ':';
      assert u[|a|] == u[..n + 1][|a|];
      assert |a| >= n;
      assert a == u[..|a|] == u[..n + 1][..n] == b;
    }
  }

  /** Distinct codes have distinct user sentences. */
  lemma CodeMessageInjective(a: VersionErrorCode, b: VersionErrorCode)
    ensures CodeMessage(a) == CodeMessage(b) ==> a == b
  {
  }

  /** The user message names exactly one code: the error's own. */
  lemma UserMessageNamesCode(e: VersionError, c: VersionErrorCode)
    ensures StartsWith(e.UserMessage(), CodeMessage(c) + ": ") <==> c == e.Code()
  {
    var own := CodeMessage(e.Code());
    var mine := CodeMessage(c);
    var rest := ": " + e.Display();
    assert e.UserMessage() == own + rest == (own + ": ") + e.Display();
    StartsWithConcat(own + ": ", e.Display());
    StartsWithShorter(own + rest, mine, ": ");
    assert mine + ": " == (mine + ":") + " ";
    StartsWithShorter(own + rest, mine + ":", " ");
    SameTextBeforeColon(own, mine, rest);
    CodeMessageInjective(c, e.Code());
  }
}
