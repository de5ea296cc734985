/** The Docker Hub version source: list an image's tags, keep those whose
    name matches the configured pattern, and pick the most recently updated
    one. */
module DockerHubSource {
  import opened Wrappers
  import opened Text
  import opened Contracts
  import opened Effects
  import opened VersionErrors

  /** One entry of the tag listing. */
  datatype DockerHubTag = DockerHubTag(name: string, lastUpdated: string, digest: Option<string>)

  /** The regular-expression engine, which the model does not implement:
      whether a pattern compiles, and whether a compiled pattern matches a
      text. */
  datatype RegexEngine = RegexEngine(compiles: string -> bool, isMatch: (string, string) -> bool)

  /** The provider's time limit (the default of every source). */
  const DockerHubTimeoutMs: nat := 8000

  /** `build_api_url`. */
  function BuildApiUrl(config: DockerHubSourceConfig): (url: string)
    ensures StartsWith(url, "https://hub.docker.com/v2/repositories/")
    ensures EndsWith(url, "/tags")
  {
    var url := "https://hub.docker.com/v2/repositories/" + config.namespace + "/" + config.repository + "/tags";
    StartsWithConcat("https://hub.docker.com/v2/repositories/", config.namespace + "/" + config.repository + "/tags");
    assert url == "https://hub.docker.com/v2/repositories/" + (config.namespace + "/" + config.repository + "/tags");
    assert url[|url| - 5..] == "/tags";
    url
  }

  /** The filter of `filter_and_sort_tags`: with a pattern that compiles, the
      name must match it; with no pattern, or one that does not compile,
      every tag passes. */
  predicate TagPasses(engine: RegexEngine, tagRegex: Option<string>, name: string) {
    match tagRegex
    case None => true
    case Some(pattern) => !engine.compiles(pattern) || engine.isMatch(pattern, name)
  }

  /** The tags that pass the filter, in input order. */
  function FilterTags(engine: RegexEngine, tagRegex: Option<string>, tags: seq<DockerHubTag>)
    : (kept: seq<DockerHubTag>)
    ensures |kept| <= |tags|
    ensures forall t :: t in kept <==> t in tags && TagPasses(engine, tagRegex, t.name)
  {
    if tags == [] then []
    else
      var rest := FilterTags(engine, tagRegex, tags[1..]);
      assert forall t :: t in tags <==> t == tags[0] || t in tags[1..];
      if TagPasses(engine, tagRegex, tags[0].name) then [tags[0]] + rest else rest
  }

  /** Without a usable pattern the filter keeps every tag. */
  lemma {:induction false} FilterWithoutPatternKeepsAll(engine: RegexEngine, tagRegex: Option<string>,
                                                       tags: seq<DockerHubTag>)
    requires tagRegex.None? || !engine.compiles(tagRegex.value)
    ensures FilterTags(engine, tagRegex, tags) == tags
  {
    if tags != [] {
      FilterWithoutPatternKeepsAll(engine, tagRegex, tags[1..]);
      assert [tags[0]] + tags[1..] == tags;
    }
  }

  /** `b.last_updated.cmp(&a.last_updated)` puts `a` no later than `b`. */
  predicate NewerOrEqual(a: DockerHubTag, b: DockerHubTag) {
    LexLe(b.lastUpdated, a.lastUpdated)
  }

  predicate SortedNewestFirst(s: seq<DockerHubTag>) {
    forall i :: 0 <= i < |s| - 1 ==> NewerOrEqual(s[i], s[i + 1])
  }

  /** Insert `t` into a list sorted newest first, ahead of every tag that is
      not strictly newer: `t` came first in the input, so a stable sort keeps
      it ahead of its equals. */
  function InsertNewestFirst(t: DockerHubTag, s: seq<DockerHubTag>): (r: seq<DockerHubTag>)
    requires SortedNewestFirst(s)
    ensures SortedNewestFirst(r)
    ensures multiset(r) == multiset(s) + multiset{t}
    ensures r[0] == (if s != [] && !NewerOrEqual(t, s[0]) then s[0] else t)
  {
    if s == [] || NewerOrEqual(t, s[0]) then
      [t] + s
    else
      var rest := InsertNewestFirst(t, s[1..]);
      assert s == [s[0]] + s[1..];
      LexLeTotal(s[0].lastUpdated, t.lastUpdated);
      [s[0]] + rest
  }

  /** `sort_by(|a, b| b.last_updated.cmp(&a.last_updated))`: Rust's stable
      sort, newest first, written as an insertion sort. */
  function SortNewestFirst(s: seq<DockerHubTag>): (r: seq<DockerHubTag>)
    ensures SortedNewestFirst(r)
    ensures multiset(r) == multiset(s)
    ensures |r| == |s|
  {
    if s == [] then []
    else
      assert s == [s[0]] + s[1..];
      InsertNewestFirst(s[0], SortNewestFirst(s[1..]))
  }

  /** The tag a newest-first stable sort puts in front: among the tags with
      the greatest `last_updated`, the earliest in input order. */
  function FirstNewest(s: seq<DockerHubTag>): (r: DockerHubTag)
    requires s != []
    ensures r in s
    ensures forall u :: u in s ==> NewerOrEqual(r, u)
    ensures exists i :: 0 <= i < |s| && s[i] == r && forall j :: 0 <= j < i ==> !NewerOrEqual(s[j], r)
  {
    if |s| == 1 then
      LexLeReflexive(s[0].lastUpdated);
      s[0]
    else
      var best := FirstNewest(s[1..]);
      assert forall u :: u in s ==> u == s[0] || u in s[1..];
      if !NewerOrEqual(s[0], best) then
        LexLeTotal(s[0].lastUpdated, best.lastUpdated);
        var i :| 0 <= i < |s[1..]| && s[1..][i] == best && forall j :: 0 <= j < i ==> !NewerOrEqual(s[1..][j], best);
        assert s[i + 1] == best;
        forall j | 0 <= j < i + 1 ensures !NewerOrEqual(s[j], best) {
          if j > 0 {
            assert s[j] == s[1..][j - 1];
          }
        }
        best
      else
        forall u | u in s ensures NewerOrEqual(s[0], u) {
          if u != s[0] {
            LexLeTransitive(u.lastUpdated, best.lastUpdated, s[0].lastUpdated);
          } else {
            LexLeReflexive(s[0].lastUpdated);
          }
        }
        assert s[0] == s[0];
        s[0]
  }

  /** The front of the sorted list is exactly the earliest newest tag. */
  lemma {:induction false} SortFrontIsFirstNewest(s: seq<DockerHubTag>)
    requires s != []
    ensures SortNewestFirst(s)[0] == FirstNewest(s)
  {
    if |s| > 1 {
      SortFrontIsFirstNewest(s[1..]);
    }
  }

  /** `filter_and_sort_tags`: filter, sort newest first, take the front. */
  function FilterAndSortTags(engine: RegexEngine, config: DockerHubSourceConfig, tags: seq<DockerHubTag>)
    : (r: Option<DockerHubTag>)
    ensures r.None? <==> FilterTags(engine, config.tagRegex, tags) == []
    ensures r.Some? ==> r.value == FirstNewest(FilterTags(engine, config.tagRegex, tags))
  {
    var sorted := SortNewestFirst(FilterTags(engine, config.tagRegex, tags));
    if sorted == [] then None
    else
      SortFrontIsFirstNewest(FilterTags(engine, config.tagRegex, tags));
      Some(sorted[0])
  }

  /** The `include_prerelease` switch plays no part in the choice. */
  lemma PrereleaseSwitchIgnored(engine: RegexEngine, config: DockerHubSourceConfig, tags: seq<DockerHubTag>)
    ensures FilterAndSortTags(engine, config, tags)
         == FilterAndSortTags(engine, config.(includePrerelease := !config.includePrerelease), tags)
  {
  }

  /** The tag-selection unit test: with a pattern that accepts "1.21.0" and
      "1.22.0" but not "latest", the newest accepted tag "1.22.0" wins. */
  lemma RegexSelectionExample(engine: RegexEngine)
    requires engine.compiles("^\\d+\\.\\d+\\.\\d+$")
    requires engine.isMatch("^\\d+\\.\\d+\\.\\d+$", "1.21.0")
    requires !engine.isMatch("^\\d+\\.\\d+\\.\\d+$", "latest")
    requires engine.isMatch("^\\d+\\.\\d+\\.\\d+$", "1.22.0")
    ensures var config := DockerHubSourceConfig("library", "nginx", false, Some("^\\d+\\.\\d+\\.\\d+$"));
      var tags := [DockerHubTag("1.21.0", "2023-01-01T00:00:00Z", None),
                   DockerHubTag("latest", "2023-01-02T00:00:00Z", None),
                   DockerHubTag("1.22.0", "2023-01-03T00:00:00Z", None)];
      FilterAndSortTags(engine, config, tags) == Some(tags[2])
  {
    var config := DockerHubSourceConfig("library", "nginx", false, Some("^\\d+\\.\\d+\\.\\d+$"));
    var tags := [DockerHubTag("1.21.0", "2023-01-01T00:00:00Z", None),
                 DockerHubTag("latest", "2023-01-02T00:00:00Z", None),
                 DockerHubTag("1.22.0", "2023-01-03T00:00:00Z", None)];
    var kept := FilterTags(engine, config.tagRegex, tags);
    assert tags[1..][1..] == [tags[2]];
    assert FilterTags(engine, config.tagRegex, [tags[2]]) == [tags[2]] by {
      assert [tags[2]][1..] == [];
    }
    assert FilterTags(engine, config.tagRegex, tags[1..]) == [tags[2]];
    assert kept == [tags[0], tags[2]];
    var older := tags[0].lastUpdated;
    var newer := tags[2].lastUpdated;
    assert older[..9] == newer[..9];
    LexLeFirstDifference(older, newer, 9);
    assert kept[1..] == [tags[2]];
    assert FirstNewest(kept) == tags[2];
  }

  /** The request `fetch_latest` sends. */
  function BuildRequest(config: DockerHubSourceConfig): HttpRequest {
    HttpRequest("GET", BuildApiUrl(config), [("Accept", "application/json")], None, DockerHubTimeoutMs)
  }

  /** `fetch_latest`, given what the HTTP exchange produced. */
  function FetchLatest(engine: RegexEngine, config: DockerHubSourceConfig,
                       client: HttpClient<seq<DockerHubTag>>)
    : (r: Result<VersionCandidate, VersionError>)
    ensures r.Ok? ==> r.value.source == DockerHub && r.value.releaseNotes.None?
  {
    var url := BuildApiUrl(config);
    if client.buildError.Some? then Err(VersionError.Http(client.buildError.value))
    else match client.send(BuildRequest(config))
    case SendTimeout => Err(VersionError.SourceTimeout("Docker Hub API timeout: " + url))
    case SendError(e) => Err(VersionError.SourceUnavailable("Docker Hub API error: " + e))
    case Response(status, statusText, body) =>
      if !(200 <= status <= 299) then
        Err(VersionError.SourceUnavailable("Docker Hub API returned status: " + statusText))
      else if body.Err? then
        Err(VersionError.Parse("Failed to parse Docker Hub response: " + body.error))
      else
        match FilterAndSortTags(engine, config, body.value)
        case None => Err(VersionError.Parse("No matching tags found"))
        case Some(tag) =>
          Ok(VersionCandidate(DockerHub, tag.name, tag.digest, None, Some(tag.lastUpdated),
                              Some(config.namespace + "/" + config.repository + ":" + tag.name)))
  }

  /** How the outcome of the exchange decides the result: a timeout is the
      only way to a timeout error, a failed transport or status gives an
      unavailable source, a body that does not decode gives a parse error,
      each with its own message, and a decoded listing gives the earliest
      newest matching tag with its digest and date, or a parse error when no
      tag matches. */
  lemma FetchLatestSpec(engine: RegexEngine, config: DockerHubSourceConfig,
                        client: HttpClient<seq<DockerHubTag>>)
    ensures var o := client.send(BuildRequest(config));
      var r := FetchLatest(engine, config, client);
      && (client.buildError.Some? ==> r == Err(VersionError.Http(client.buildError.value)))
      && (client.buildError.None? ==>
      && (r.Err? && r.error.Code() == VersionErrorCode.SourceTimeout <==> o.SendTimeout?)
      && (o.SendError? || (o.Response? && !o.StatusSuccess()) ==>
            r.Err? && r.error.SourceUnavailable?)
      && (o.SendTimeout? ==> r == Err(VersionError.SourceTimeout("Docker Hub API timeout: " + BuildApiUrl(config))))
      && (o.SendError? ==> r == Err(VersionError.SourceUnavailable("Docker Hub API error: " + o.message)))
      && (o.Response? && !o.StatusSuccess() ==>
            r == Err(VersionError.SourceUnavailable("Docker Hub API returned status: " + o.statusText)))
      && (o.Response? && o.StatusSuccess() && o.body.Err? ==>
            r == Err(VersionError.Parse("Failed to parse Docker Hub response: " + o.body.error)))
      && (o.Response? && o.StatusSuccess() && o.body.Ok? ==>
            var kept := FilterTags(engine, config.tagRegex, o.body.value);
            && (kept == [] ==> r == Err(VersionError.Parse("No matching tags found")))
            && (kept != [] ==>
                  var t := FirstNewest(kept);
                  r.Ok? && r.value.version == t.name && r.value.digest == t.digest
                  && r.value.publishedAt == Some(t.lastUpdated)
                  && r.value.rawReference == Some(config.namespace + "/" + config.repository + ":" + t.name))))
  {
  }

  lemma ApiUrlExample()
    ensures BuildApiUrl(DockerHubSourceConfig("library", "nginx", false, None))
         == "https://hub.docker.com/v2/repositories/library/nginx/tags"
  {
  }
}
