/** The version check: ask every configured source for its latest version,
    recommend one by a fixed source priority, and cache the answer per
    image. Each source's answer (its fetch result, or the per-source
    timeout firing) and the expiry of the overall timeout are inputs. */
module VersionChecker {
  import opened Wrappers
  import opened Text
  import opened Contracts
  import opened VersionErrors
  import opened VersionState

  const DefaultSourceTimeoutMs: nat := 8000
  const DefaultOverallTimeoutMs: nat := 15000
  /** Check responses are served from the cache for 30 seconds. */
  const CheckCacheTtlMs: nat := 30_000

  /** `build_image_key`: repository, ':', tag. */
  function BuildImageKey(repository: string, tag: string): (key: string)
    ensures StartsWith(key, repository) && EndsWith(key, ":" + tag)
    ensures |key| == |repository| + 1 + |tag|
  {
    var key := repository + ":" + tag;
    assert key[..|repository|] == repository;
    assert key[|key| - |":" + tag|..] == ":" + tag;
    key
  }

  /** The text after the last ':' of a key (the whole key when it has none). */
  function TagOfKey(key: string): string {
    if key == [] || key[|key| - 1] == ':' then [] else TagOfKey(key[..|key| - 1]) + [key[|key| - 1]]
  }

  /** A tag without ':' is read back from its image key, whatever the
      repository (which may itself hold a registry port). */
  lemma {:induction false} TagOfImageKey(repository: string, tag: string)
    requires ':' !in tag
    ensures TagOfKey(BuildImageKey(repository, tag)) == tag
  {
    var key := BuildImageKey(repository, tag);
    if tag != [] {
      var shorter := tag[..|tag| - 1];
      assert key[..|key| - 1] == BuildImageKey(repository, shorter);
      assert ':' !in shorter by {
        assert forall c :: c in shorter ==> c in tag;
      }
      TagOfImageKey(repository, shorter);
      assert shorter + [tag[|tag| - 1]] == tag;
    }
  }

  lemma ImageKeyExamples()
    ensures BuildImageKey("nginx", "latest") == "nginx:latest"
    ensures BuildImageKey("library/redis", "7.0") == "library/redis:7.0"
  {
  }

  /** How one source's check ended: its fetch finished with a result, or
      the per-source timeout fired first; with the time it took. */
  datatype ProviderOutcome =
    | Fetched(result: Result<VersionCandidate, VersionError>, elapsedMs: nat)
    | TimedOut(elapsedMs: nat)

  /** `check_single_source`: the per-source result record. */
  function CheckSingleSource(kind: VersionSourceKind, outcome: ProviderOutcome, timeoutMs: nat)
    : (r: SourceCheckResult)
    ensures r.source == kind && r.elapsedMs == outcome.elapsedMs
    ensures r.ok <==> r.latest.Some?
    ensures r.ok <==> r.errorCode.None? && r.errorMessage.None?
    ensures r.ok <==> outcome.Fetched? && outcome.result.Ok?
    ensures r.ok ==> r.latest.value == outcome.result.value
    ensures outcome.TimedOut? ==>
              r.errorCode.Some? && CodeOfStr(r.errorCode.value) == Some(VersionErrorCode.SourceTimeout)
    ensures outcome.TimedOut? ==>
              r.errorMessage == Some("Source check timeout after " + NatToString(timeoutMs) + "ms")
    ensures outcome.Fetched? && outcome.result.Err? ==>
              && r.errorCode.Some? && CodeOfStr(r.errorCode.value) == Some(outcome.result.error.Code())
              && r.errorMessage == Some(outcome.result.error.UserMessage())
  {
    match outcome
    case Fetched(Ok(candidate), elapsed) =>
      SourceCheckResult(kind, true, None, None, Some(candidate), elapsed)
    case Fetched(Err(e), elapsed) =>
      SourceCheckResult(kind, false, Some(CodeStr(e.Code())), Some(e.UserMessage()), None, elapsed)
    case TimedOut(elapsed) =>
      SourceCheckResult(kind, false, Some(CodeStr(VersionErrorCode.SourceTimeout)),
                        Some("Source check timeout after " + NatToString(timeoutMs) + "ms"), None, elapsed)
  }

  /** The recommendation order: local Git, GitHub, Docker Hub, custom API. */
  const Priority: seq<VersionSourceKind> := [LocalGit, GithubRelease, DockerHub, CustomApi]

  function Rank(kind: VersionSourceKind): (n: nat)
    ensures n < |Priority| && Priority[n] == kind
  {
    match kind
    case LocalGit => 0
    case GithubRelease => 1
    case DockerHub => 2
    case CustomApi => 3
  }

  predicate OkOfKind(r: SourceCheckResult, kind: VersionSourceKind) {
    r.ok && r.source == kind
  }

  /** `results.iter().find(|r| r.ok && r.source == kind)`. */
  function FirstOkOfKind(results: seq<SourceCheckResult>, kind: VersionSourceKind): (found: Option<SourceCheckResult>)
    ensures found.None? <==> forall j :: 0 <= j < |results| ==> !OkOfKind(results[j], kind)
    ensures found.Some? ==> exists i :: 0 <= i < |results| && results[i] == found.value && OkOfKind(results[i], kind)
                              && forall j :: 0 <= j < i ==> !OkOfKind(results[j], kind)
  {
    if results == [] then None
    else if OkOfKind(results[0], kind) then
      assert results[0] == results[0];
      Some(results[0])
    else
      var rest := FirstOkOfKind(results[1..], kind);
      assert forall j :: 1 <= j < |results| ==> results[j] == results[1..][j - 1];
      if rest.Some? then
        var i :| 0 <= i < |results[1..]| && results[1..][i] == rest.value && OkOfKind(results[1..][i], kind)
                 && forall j :: 0 <= j < i ==> !OkOfKind(results[1..][j], kind);
        assert results[i + 1] == rest.value;
        rest
      else
        rest
  }

  /** The recommendation from priority position `p` on: the first kind, in
      priority order, whose first successful result carries a candidate. */
  function RecommendedFrom(results: seq<SourceCheckResult>, p: nat): Option<VersionCandidate>
    requires p <= |Priority|
    decreases |Priority| - p
  {
    if p == |Priority| then None
    else
      var found := FirstOkOfKind(results, Priority[p]);
      if found.Some? && found.value.latest.Some? then found.value.latest
      else RecommendedFrom(results, p + 1)
  }

  /** What `select_recommended` answers. */
  function Recommended(results: seq<SourceCheckResult>): Option<VersionCandidate> {
    RecommendedFrom(results, 0)
  }

  /** `select_recommended`: walk the priority order, looking up the first
      successful result of each kind. */
  method SelectRecommended(results: seq<SourceCheckResult>) returns (r: Option<VersionCandidate>)
    ensures r == Recommended(results)
  {
    var p := 0;
    while p < |Priority|
      invariant 0 <= p <= |Priority|
      invariant RecommendedFrom(results, p) == Recommended(results)
    {
      var kind := Priority[p];
      var i := 0;
      while i < |results| && !OkOfKind(results[i], kind)
        invariant 0 <= i <= |results|
        invariant forall j :: 0 <= j < i ==> !OkOfKind(results[j], kind)
      {
        i := i + 1;
      }
      if i < |results| {
        FirstOkIsFound(results, kind, i);
        if results[i].latest.Some? {
          return results[i].latest;
        }
      }
      p := p + 1;
    }
    r := None;
  }

  /** The first successful result of a kind is the one the scan stops at. */
  lemma FirstOkIsFound(results: seq<SourceCheckResult>, kind: VersionSourceKind, i: nat)
    requires i < |results| && OkOfKind(results[i], kind)
    requires forall j :: 0 <= j < i ==> !OkOfKind(results[j], kind)
    ensures FirstOkOfKind(results, kind) == Some(results[i])
  {
    var found := FirstOkOfKind(results, kind);
    var k :| 0 <= k < |results| && results[k] == found.value && OkOfKind(results[k], kind)
             && forall j :: 0 <= j < k ==> !OkOfKind(results[j], kind);
    assert k == i;
  }

  /** Results as `check_single_source` builds them: success and a
      candidate go together. */
  predicate WellFormed(results: seq<SourceCheckResult>) {
    forall j :: 0 <= j < |results| ==> (results[j].ok <==> results[j].latest.Some?)
  }

  /** With well-formed results there is a recommendation exactly when some
      source succeeded, and it is the candidate of a successful result such
      that no source of a higher priority succeeded. */
  lemma {:induction false} RecommendedSpec(results: seq<SourceCheckResult>, p: nat)
    requires p <= |Priority| && WellFormed(results)
    ensures var r := RecommendedFrom(results, p);
      && (r.Some? <==> exists j :: 0 <= j < |results| && results[j].ok && Rank(results[j].source) >= p)
      && (r.Some? ==> exists i :: 0 <= i < |results| && results[i].ok && results[i].latest == r
                        && Rank(results[i].source) >= p
                        && forall j :: 0 <= j < |results| && results[j].ok && Rank(results[j].source) >= p ==>
                             Rank(results[j].source) >= Rank(results[i].source))
    decreases |Priority| - p
  {
    if p < |Priority| {
      var found := FirstOkOfKind(results, Priority[p]);
      RecommendedSpec(results, p + 1);
      if found.Some? {
        var i :| 0 <= i < |results| && results[i] == found.value && OkOfKind(results[i], Priority[p])
                 && forall j :: 0 <= j < i ==> !OkOfKind(results[j], Priority[p]);
        assert Rank(results[i].source) == p;
      } else {
        forall j | 0 <= j < |results| && results[j].ok && Rank(results[j].source) >= p
          ensures Rank(results[j].source) >= p + 1
        {
          assert !OkOfKind(results[j], Priority[p]);
        }
      }
    }
  }

  /** Two neighbouring results swapped. */
  function SwapAt(results: seq<SourceCheckResult>, k: nat): (t: seq<SourceCheckResult>)
    requires k + 1 < |results|
    ensures |t| == |results| && multiset(t) == multiset(results)
    ensures t[k] == results[k + 1] && t[k + 1] == results[k]
    ensures forall j :: 0 <= j < |t| && j != k && j != k + 1 ==> t[j] == results[j]
  {
    var t := results[..k] + [results[k + 1], results[k]] + results[k + 2..];
    assert results == results[..k] + [results[k], results[k + 1]] + results[k + 2..];
    assert multiset([results[k + 1], results[k]]) == multiset([results[k], results[k + 1]]);
    t
  }

  lemma FirstOkOfKindSwap(results: seq<SourceCheckResult>, k: nat, kind: VersionSourceKind)
    requires k + 1 < |results| && results[k].source != results[k + 1].source
    ensures FirstOkOfKind(SwapAt(results, k), kind) == FirstOkOfKind(results, kind)
  {
    var found := FirstOkOfKind(results, kind);
    if found.Some? {
      var i :| 0 <= i < |results| && results[i] == found.value && OkOfKind(results[i], kind)
               && forall j :: 0 <= j < i ==> !OkOfKind(results[j], kind);
      SwapKeepsFirstOk(results, k, kind, i);
    } else {
      SwapKeepsNoOk(results, k, kind);
    }
  }

  /** The first result of a kind is still first after a swap of two
      results of different kinds. */
  lemma SwapKeepsFirstOk(results: seq<SourceCheckResult>, k: nat, kind: VersionSourceKind, i: nat)
    requires k + 1 < |results| && results[k].source != results[k + 1].source
    requires i < |results| && OkOfKind(results[i], kind)
    requires forall j :: 0 <= j < i ==> !OkOfKind(results[j], kind)
    ensures FirstOkOfKind(SwapAt(results, k), kind) == Some(results[i])
  {
    var t := SwapAt(results, k);
    if i == k {
      assert !OkOfKind(t[k], kind);
      assert forall j :: 0 <= j < k + 1 ==> !OkOfKind(t[j], kind);
      FirstOkIsFound(t, kind, k + 1);
    } else if i == k + 1 {
      assert forall j :: 0 <= j < k ==> !OkOfKind(t[j], kind);
      FirstOkIsFound(t, kind, k);
    } else if i < k {
      assert forall j :: 0 <= j < i ==> !OkOfKind(t[j], kind);
      FirstOkIsFound(t, kind, i);
    } else {
      forall j | 0 <= j < i ensures !OkOfKind(t[j], kind) {
        if j == k {
          assert t[j] == results[k + 1];
        } else if j == k + 1 {
          assert t[j] == results[k];
        }
      }
      FirstOkIsFound(t, kind, i);
    }
  }

  /** A swap neither creates nor removes a result of a kind. */
  lemma SwapKeepsNoOk(results: seq<SourceCheckResult>, k: nat, kind: VersionSourceKind)
    requires k + 1 < |results|
    requires forall j :: 0 <= j < |results| ==> !OkOfKind(results[j], kind)
    ensures FirstOkOfKind(SwapAt(results, k), kind).None?
  {
    var t := SwapAt(results, k);
    forall j | 0 <= j < |t| ensures !OkOfKind(t[j], kind) {
      if j == k {
        assert t[j] == results[k + 1];
      } else if j == k + 1 {
        assert t[j] == results[k];
      }
    }
  }

  /** Only the order among results of the same kind matters: exchanging two
      neighbouring results of different kinds leaves the recommendation as
      it was. */
  lemma {:induction false} RecommendedIgnoresKindOrder(results: seq<SourceCheckResult>, k: nat, p: nat)
    requires k + 1 < |results| && results[k].source != results[k + 1].source
    requires p <= |Priority|
    ensures RecommendedFrom(SwapAt(results, k), p) == RecommendedFrom(results, p)
    decreases |Priority| - p
  {
    if p < |Priority| {
      FirstOkOfKindSwap(results, k, Priority[p]);
      RecommendedIgnoresKindOrder(results, k, p + 1);
    }
  }

  /** The priority unit test: a Docker Hub result listed before a local Git
      result loses to it. */
  lemma PriorityExample(hub: VersionCandidate, git: VersionCandidate)
    ensures var results := [SourceCheckResult(DockerHub, true, None, None, Some(hub), 100),
                            SourceCheckResult(LocalGit, true, None, None, Some(git), 200)];
      Recommended(results) == Some(git)
  {
    var results := [SourceCheckResult(DockerHub, true, None, None, Some(hub), 100),
                    SourceCheckResult(LocalGit, true, None, None, Some(git), 200)];
    FirstOkIsFound(results, LocalGit, 1);
  }

  /** The per-source results of a run: one per configured source, in order. */
  function SourceResults(sources: seq<VersionSourceConfig>, outcomes: seq<ProviderOutcome>, timeoutMs: nat)
    : (results: seq<SourceCheckResult>)
    requires |outcomes| == |sources|
    ensures |results| == |sources| && WellFormed(results)
    ensures forall i :: 0 <= i < |sources| ==> results[i] == CheckSingleSource(sources[i].Kind(), outcomes[i], timeoutMs)
  {
    seq(|sources|, i requires 0 <= i < |sources| => CheckSingleSource(sources[i].Kind(), outcomes[i], timeoutMs))
  }

  /** `check_image_version` after a cache miss: refuse an empty source list,
      fail on the overall timeout, fail when no source succeeded, otherwise
      answer with every result, the recommendation and whether it differs
      from the current tag. */
  function CheckSources(request: CheckImageVersionRequest, outcomes: seq<ProviderOutcome>,
                        overallExpired: bool, now: nat): (r: Result<CheckImageVersionResponse, VersionError>)
    requires |outcomes| == |request.sources|
    ensures request.sources == [] ==>
              r == Err(VersionError.InvalidInput("At least one version source is required"))
    ensures request.sources != [] && overallExpired ==>
              r == Err(VersionError.SourceTimeout("Overall version check timeout after "
                       + NatToString(request.overallTimeoutMs.GetOr(DefaultOverallTimeoutMs)) + "ms"))
  {
    if request.sources == [] then
      Err(VersionError.InvalidInput("At least one version source is required"))
    else if overallExpired then
      Err(VersionError.SourceTimeout("Overall version check timeout after "
          + NatToString(request.overallTimeoutMs.GetOr(DefaultOverallTimeoutMs)) + "ms"))
    else
      var results := SourceResults(request.sources, outcomes, request.timeoutMs.GetOr(DefaultSourceTimeoutMs));
      if forall j :: 0 <= j < |results| ==> !results[j].ok then Err(VersionError.NoValidSourceResult)
      else
        var recommended := Recommended(results);
        var hasUpdate := recommended.Some? && recommended.value.version != request.image.tag;
        Ok(CheckImageVersionResponse(BuildImageKey(request.image.repository, request.image.tag),
                                     Some(request.image.tag), hasUpdate, recommended, results, now))
  }

  /** What a completed check reports: results one-to-one with the sources;
      it succeeds exactly when some source did; the recommendation is then
      present, comes from a successful source of the highest priority
      present, and an update is flagged exactly when its version differs
      from the current tag. */
  lemma CheckSourcesSpec(request: CheckImageVersionRequest, outcomes: seq<ProviderOutcome>,
                         overallExpired: bool, now: nat)
    requires |outcomes| == |request.sources|
    ensures var r := CheckSources(request, outcomes, overallExpired, now);
      var timeout := request.timeoutMs.GetOr(DefaultSourceTimeoutMs);
      request.sources != [] && !overallExpired ==>
        && (r.Ok? <==> exists i :: 0 <= i < |outcomes| && outcomes[i].Fetched? && outcomes[i].result.Ok?)
        && (r.Err? ==> r.error == VersionError.NoValidSourceResult)
        && (r.Ok? ==>
              && r.value.imageKey == BuildImageKey(request.image.repository, request.image.tag)
              && r.value.currentVersion == Some(request.image.tag)
              && r.value.checkedAtMs == now
              && |r.value.results| == |request.sources|
              && (forall i :: 0 <= i < |request.sources| ==>
                    r.value.results[i] == CheckSingleSource(request.sources[i].Kind(), outcomes[i], timeout))
              && r.value.recommended.Some?
              && (exists i :: 0 <= i < |r.value.results| && r.value.results[i].ok
                              && r.value.results[i].latest == r.value.recommended
                              && forall j :: 0 <= j < |r.value.results| && r.value.results[j].ok ==>
                                   Rank(r.value.results[j].source) >= Rank(r.value.results[i].source))
              && (r.value.hasUpdate <==> r.value.recommended.value.version != request.image.tag))
  {
    if request.sources != [] && !overallExpired {
      var timeout := request.timeoutMs.GetOr(DefaultSourceTimeoutMs);
      var results := SourceResults(request.sources, outcomes, timeout);
      RecommendedSpec(results, 0);
      SomeSourceSucceeded(request.sources, outcomes, timeout);
    }
  }

  /** A run has a successful result exactly when some provider answered
      with a version. */
  lemma SomeSourceSucceeded(sources: seq<VersionSourceConfig>, outcomes: seq<ProviderOutcome>, timeoutMs: nat)
    requires |outcomes| == |sources|
    ensures var results := SourceResults(sources, outcomes, timeoutMs);
      (exists i :: 0 <= i < |results| && results[i].ok)
        <==> (exists i :: 0 <= i < |outcomes| && outcomes[i].Fetched? && outcomes[i].result.Ok?)
  {
    var results := SourceResults(sources, outcomes, timeoutMs);
    forall i | 0 <= i < |outcomes|
      ensures results[i].ok <==> outcomes[i].Fetched? && outcomes[i].result.Ok?
    {
      assert results[i] == CheckSingleSource(sources[i].Kind(), outcomes[i], timeoutMs);
    }
  }

  /** `check_image_version`: a fresh cached answer for the image is returned
      before anything else is looked at; otherwise the sources are checked
      and a successful answer is cached under the image key. */
  method CheckImageVersion(state: VersionRuntimeState, request: CheckImageVersionRequest,
                           outcomes: seq<ProviderOutcome>, overallExpired: bool, now: nat)
    returns (r: Result<CheckImageVersionResponse, VersionError>)
    requires |outcomes| == |request.sources|
    modifies state
    ensures var key := BuildImageKey(request.image.repository, request.image.tag);
      var cached := CachedLookup(old(state.checkCache), key, CheckCacheTtlMs, now);
      && state.updateLocks == old(state.updateLocks)
      && (cached.Some? ==> r == Ok(cached.value) && state.checkCache == old(state.checkCache))
      && (cached.None? ==> r == CheckSources(request, outcomes, overallExpired, now))
      && (cached.None? && r.Ok? ==> state.checkCache == old(state.checkCache)[key := VersionCheckCache(r.value, now)])
      && (r.Err? ==> state.checkCache == old(state.checkCache))
  {
    var key := BuildImageKey(request.image.repository, request.image.tag);
    var cached := state.GetCachedCheck(key, CheckCacheTtlMs, now);
    if cached.Some? {
      return Ok(cached.value);
    }
    if request.sources == [] {
      return Err(VersionError.InvalidInput("At least one version source is required"));
    }
    var sourceTimeout := request.timeoutMs.GetOr(DefaultSourceTimeoutMs);
    var overallTimeout := request.overallTimeoutMs.GetOr(DefaultOverallTimeoutMs);
    if overallExpired {
      return Err(VersionError.SourceTimeout("Overall version check timeout after "
                                            + NatToString(overallTimeout) + "ms"));
    }
    var results := SourceResults(request.sources, outcomes, sourceTimeout);
    if forall j :: 0 <= j < |results| ==> !results[j].ok {
      return Err(VersionError.NoValidSourceResult);
    }
    var recommended := SelectRecommended(results);
    var hasUpdate := if recommended.Some? then recommended.value.version != request.image.tag else false;
    var response := CheckImageVersionResponse(key, Some(request.image.tag), hasUpdate, recommended, results, now);
    state.CacheCheck(key, response, now);
    r := Ok(response);
  }
}
