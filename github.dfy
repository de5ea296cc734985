/** The GitHub Releases version source: the first listed release that is
    neither a draft nor an unwanted prerelease. */
module GithubSource {
  import opened Wrappers
  import opened Text
  import opened Contracts
  import opened Effects
  import opened VersionErrors

  /** One entry of the release listing. */
  datatype ReleaseEntry = ReleaseEntry(
    tagName: string,
    name: Option<string>,
    body: Option<string>,
    publishedAt: Option<string>,
    prerelease: bool,
    draft: bool)

  const GithubTimeoutMs: nat := 8000

  /** `build_api_url`. */
  function BuildApiUrl(config: GithubReleaseSourceConfig): string {
    "https://api.github.com/repos/" + config.owner + "/" + config.repo + "/releases"
  }

  lemma ApiUrlExample()
    ensures BuildApiUrl(GithubReleaseSourceConfig("nginx", "nginx", false, None))
         == "https://api.github.com/repos/nginx/nginx/releases"
  {
  }

  /** A release `filter_releases` accepts. */
  predicate Qualifies(config: GithubReleaseSourceConfig, r: ReleaseEntry) {
    !r.draft && !(r.prerelease && !config.includePrerelease)
  }

  /** `filter_releases`: the first qualifying release in listing order, with
      no re-sorting. */
  function FilterReleases(config: GithubReleaseSourceConfig, releases: seq<ReleaseEntry>)
    : (r: Option<ReleaseEntry>)
    ensures r.None? <==> forall k :: 0 <= k < |releases| ==> !Qualifies(config, releases[k])
    ensures r.Some? ==> exists i :: 0 <= i < |releases| && releases[i] == r.value
                          && Qualifies(config, releases[i])
                          && forall k :: 0 <= k < i ==> !Qualifies(config, releases[k])
  {
    if releases == [] then None
    else if Qualifies(config, releases[0]) then
      assert releases[0] == releases[0];
      Some(releases[0])
    else
      var r := FilterReleases(config, releases[1..]);
      assert forall k :: 1 <= k < |releases| ==> releases[k] == releases[1..][k - 1];
      if r.Some? then
        var i :| 0 <= i < |releases[1..]| && releases[1..][i] == r.value
                 && Qualifies(config, releases[1..][i])
                 && forall k :: 0 <= k < i ==> !Qualifies(config, releases[1..][k]);
        assert releases[i + 1] == r.value;
        r
      else
        r
  }

  /** The filter unit test: a release, then a prerelease, then a draft;
      with prereleases excluded the first one is chosen. */
  lemma FilterExample()
    ensures var config := GithubReleaseSourceConfig("test", "test", false, None);
      var releases := [
        ReleaseEntry("v1.0.0", Some("Release 1.0.0"), None, Some("2023-01-01T00:00:00Z"), false, false),
        ReleaseEntry("v1.1.0-beta", Some("Beta 1.1.0"), None, Some("2023-01-02T00:00:00Z"), true, false),
        ReleaseEntry("v1.2.0", Some("Draft"), None, None, false, true)];
      FilterReleases(config, releases) == Some(releases[0])
  {
  }

  /** With prereleases allowed, a listed prerelease ahead of every stable
      release is chosen even when a later stable release exists. */
  lemma NoResortExample(stable: ReleaseEntry, pre: ReleaseEntry)
    requires !stable.draft && !stable.prerelease && !pre.draft && pre.prerelease
    ensures FilterReleases(GithubReleaseSourceConfig("o", "r", true, None), [pre, stable]) == Some(pre)
    ensures FilterReleases(GithubReleaseSourceConfig("o", "r", false, None), [pre, stable]) == Some(stable)
  {
    assert [pre, stable][1..] == [stable];
  }

  /** The headers of the request: Accept always, Authorization exactly when
      a token is configured. */
  function RequestHeaders(config: GithubReleaseSourceConfig): (headers: seq<(string, string)>)
    ensures |headers| >= 1 && headers[0] == ("Accept", "application/vnd.github+json")
    ensures (exists k :: 0 <= k < |headers| && headers[k].0 == "Authorization") <==> config.token.Some?
    ensures config.token.Some? ==> ("Authorization", "Bearer " + config.token.value) in headers
  {
    var base := [("Accept", "application/vnd.github+json")];
    assert |base[0].0| != |"Authorization"|;
    match config.token
    case None => base
    case Some(token) =>
      var headers := base + [("Authorization", "Bearer " + token)];
      assert headers[1].0 == "Authorization";
      headers
  }

  function BuildRequest(config: GithubReleaseSourceConfig): HttpRequest {
    HttpRequest("GET", BuildApiUrl(config), RequestHeaders(config), Some("DevEnvProbe/1.0"), GithubTimeoutMs)
  }

  /** `fetch_latest`, given what the HTTP exchange produced. */
  function FetchLatest(config: GithubReleaseSourceConfig, client: HttpClient<seq<ReleaseEntry>>)
    : (r: Result<VersionCandidate, VersionError>)
    ensures r.Ok? ==> r.value.source == GithubRelease && r.value.digest.None?
  {
    var url := BuildApiUrl(config);
    if client.buildError.Some? then Err(VersionError.Http(client.buildError.value))
    else match client.send(BuildRequest(config))
    case SendTimeout => Err(VersionError.SourceTimeout("GitHub API timeout: " + url))
    case SendError(e) => Err(VersionError.SourceUnavailable("GitHub API error: " + e))
    case Response(status, statusText, body) =>
      if !(200 <= status <= 299) then
        Err(VersionError.SourceUnavailable("GitHub API returned status: " + statusText))
      else if body.Err? then
        Err(VersionError.Parse("Failed to parse GitHub response: " + body.error))
      else
        match FilterReleases(config, body.value)
        case None => Err(VersionError.Parse("No matching releases found"))
        case Some(rel) =>
          Ok(VersionCandidate(GithubRelease, rel.tagName, None, rel.body, rel.publishedAt,
                              Some("https://github.com/" + config.owner + "/" + config.repo
                                   + "/releases/tag/" + rel.tagName)))
  }

  /** How the exchange decides the result: only a send timeout is a timeout
      error; the transport, status and decoding failures each have their own
      message; a decoded listing yields the first qualifying release, with its
      body as the release notes and its page as the reference, or a parse
      error when none qualifies. */
  lemma FetchLatestSpec(config: GithubReleaseSourceConfig, client: HttpClient<seq<ReleaseEntry>>)
    ensures var o := client.send(BuildRequest(config));
      var r := FetchLatest(config, client);
      && (client.buildError.Some? ==> r == Err(VersionError.Http(client.buildError.value)))
      && (client.buildError.None? ==>
      && (r.Err? && r.error.Code() == VersionErrorCode.SourceTimeout <==> o.SendTimeout?)
      && (o.SendError? || (o.Response? && !o.StatusSuccess()) ==>
            r.Err? && r.error.SourceUnavailable?)
      && (o.SendTimeout? ==> r == Err(VersionError.SourceTimeout("GitHub API timeout: " + BuildApiUrl(config))))
      && (o.SendError? ==> r == Err(VersionError.SourceUnavailable("GitHub API error: " + o.message)))
      && (o.Response? && !o.StatusSuccess() ==>
            r == Err(VersionError.SourceUnavailable("GitHub API returned status: " + o.statusText)))
      && (o.Response? && o.StatusSuccess() && o.body.Err? ==>
            r == Err(VersionError.Parse("Failed to parse GitHub response: " + o.body.error)))
      && (o.Response? && o.StatusSuccess() && o.body.Ok? ==>
            match FilterReleases(config, o.body.value)
            case None => r == Err(VersionError.Parse("No matching releases found"))
            case Some(rel) =>
              r.Ok? && r.value.version == rel.tagName && r.value.releaseNotes == rel.body
              && r.value.publishedAt == rel.publishedAt
              && r.value.rawReference == Some("https://github.com/" + config.owner + "/" + config.repo
                                              + "/releases/tag/" + rel.tagName)))
  {
  }
}
