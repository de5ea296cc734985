/** The custom-endpoint version source: a user-configured HTTP endpoint whose
    JSON answer carries the version in a named top-level field. */
module CustomApiSource {
  import opened Wrappers
  import opened Text
  import opened Contracts
  import opened Effects
  import opened VersionErrors

  /** A decoded JSON document. */
  datatype Json =
    | JNull
    | JBool(b: bool)
    | JNumber(n: real)
    | JString(s: string)
    | JArray(items: seq<Json>)
    | JObject(fields: map<string, Json>)

  const CustomApiTimeoutMs: nat := 8000

  /** `validate_url`: only endpoints starting with "http://" or "https://"
      (case-sensitive) are accepted. */
  function ValidateUrl(endpoint: string): (r: Result<Unit, VersionError>)
    ensures r.Ok? <==> StartsWith(endpoint, "http://") || StartsWith(endpoint, "https://")
    ensures r.Err? ==> r.error.InvalidInput?
  {
    if !StartsWith(endpoint, "http://") && !StartsWith(endpoint, "https://") then
      Err(VersionError.InvalidInput("Invalid URL scheme: " + endpoint
                                    + ". Only http:// and https:// are allowed"))
    else
      Ok(Unit)
  }

  /** The URL unit tests. */
  lemma ValidateUrlExamples()
    ensures ValidateUrl("https://api.example.com/version").Ok?
    ensures ValidateUrl("ftp://invalid.com").Err?
    ensures ValidateUrl("HTTP://example.com").Err?
  {
    var good := "https://api.example.com/version";
    assert good[..8] == "https://";
    DiffersAt("ftp://invalid.com", "http://", 0);
    DiffersAt("ftp://invalid.com", "https://", 0);
    DiffersAt("HTTP://example.com", "http://", 0);
    DiffersAt("HTTP://example.com", "https://", 0);
  }

  /** `extract_field`: the field's text when the document is an object whose
      field holds a JSON string; nothing otherwise. */
  function ExtractField(json: Json, field: string): (r: Option<string>)
    ensures r.Some? <==> json.JObject? && field in json.fields && json.fields[field].JString?
    ensures r.Some? ==> r.value == json.fields[field].s
  {
    if json.JObject? && field in json.fields && json.fields[field].JString? then
      Some(json.fields[field].s)
    else
      None
  }

  /** The extraction unit test. */
  lemma ExtractFieldExample()
    ensures var doc := JObject(map["version" := JString("1.0.0"), "notes" := JString("Release notes")]);
      && ExtractField(doc, "version") == Some("1.0.0")
      && ExtractField(doc, "notes") == Some("Release notes")
      && ExtractField(doc, "missing") == None
  {
    var doc := JObject(map["version" := JString("1.0.0"), "notes" := JString("Release notes")]);
    assert "missing" !in doc.fields by {
      assert "missing" != "version" && "missing" != "notes";
    }
  }

  /** The request method: GET or POST after upper-casing, nothing else. */
  function RequestMethod(configured: string): (m: Option<string>)
    ensures m.Some? <==> ToUpper(configured) == "GET" || ToUpper(configured) == "POST"
    ensures m.Some? ==> m.value == ToUpper(configured)
  {
    var upper := ToUpper(configured);
    if upper == "GET" || upper == "POST" then Some(upper) else None
  }

  lemma RequestMethodExamples()
    ensures RequestMethod("get") == Some("GET")
    ensures RequestMethod("PUT") == None
  {
    assert ToUpper("get") == "GET" by {
      assert "get"[1..] == "et" && "et"[1..] == "t" && "t"[1..] == [];
    }
    assert ToUpper("PUT") == "PUT" by {
      assert "PUT"[1..] == "UT" && "UT"[1..] == "T" && "T"[1..] == [];
    }
  }

  /** Upper-casing follows Unicode: "Post" and "po" followed by the 'ﬆ'
      ligature are both POST. */
  lemma RequestMethodFoldsCase()
    ensures RequestMethod("Post") == Some("POST")
    ensures RequestMethod("poﬆ") == Some("POST")
  {
    assert ToUpper("Post") == "POST" by {
      assert "Post"[1..] == "ost" && "ost"[1..] == "st" && "st"[1..] == "t" && "t"[1..] == [];
    }
    assert ToUpper("poﬆ") == "POST" by {
      assert "poﬆ"[1..] == "oﬆ" && "oﬆ"[1..] == "ﬆ" && "ﬆ"[1..] == [];
    }
  }

  /** A header name the provider accepts: every character alphanumeric, '-'
      or '_' (the empty name passes). */
  predicate ValidHeaderKey(key: string) {
    forall i :: 0 <= i < |key| ==> IsAsciiAlphanumeric(key[i]) || key[i] == '-' || key[i] == '_'
  }

  /** The first configured header whose name is refused, if any. */
  function FirstInvalidHeader(headers: seq<HttpHeaderPair>): (r: Option<nat>)
    ensures r.None? <==> forall k :: 0 <= k < |headers| ==> ValidHeaderKey(headers[k].key)
    ensures r.Some? ==> r.value < |headers| && !ValidHeaderKey(headers[r.value].key)
                        && forall k :: 0 <= k < r.value ==> ValidHeaderKey(headers[k].key)
  {
    if headers == [] then None
    else if !ValidHeaderKey(headers[0].key) then Some(0)
    else
      var rest := FirstInvalidHeader(headers[1..]);
      assert forall k :: 1 <= k < |headers| ==> headers[k] == headers[1..][k - 1];
      if rest.Some? then Some(rest.value + 1) else None
  }

  /** The configured headers as request headers, in order. */
  function HeaderPairs(headers: seq<HttpHeaderPair>): (pairs: seq<(string, string)>)
    ensures |pairs| == |headers|
    ensures forall k :: 0 <= k < |headers| ==> pairs[k] == (headers[k].key, headers[k].value)
  {
    seq(|headers|, k requires 0 <= k < |headers| => (headers[k].key, headers[k].value))
  }

  /** The candidate built from a decoded answer. */
  function CandidateOf(config: CustomApiSourceConfig, json: Json): (r: Result<VersionCandidate, VersionError>)
    ensures r.Ok? <==> ExtractField(json, config.versionField).Some?
    ensures r.Ok? ==> r.value == VersionCandidate(
              CustomApi, ExtractField(json, config.versionField).value, None,
              if config.notesField.Some? then ExtractField(json, config.notesField.value) else None,
              if config.publishedAtField.Some? then ExtractField(json, config.publishedAtField.value) else None,
              Some(config.endpoint))
    ensures r.Err? ==> r.error == VersionError.Parse("Version field '" + config.versionField + "' not found in response")
  {
    match ExtractField(json, config.versionField)
    case None => Err(VersionError.Parse("Version field '" + config.versionField + "' not found in response"))
    case Some(version) =>
      var notes := match config.notesField
        case None => None
        case Some(f) => ExtractField(json, f);
      var published := match config.publishedAtField
        case None => None
        case Some(f) => ExtractField(json, f);
      Ok(VersionCandidate(CustomApi, version, None, notes, published, Some(config.endpoint)))
  }

  /** Each header name in turn: the first one refused ends the check with
      its name; when all pass, the request headers in order. */
  method CheckHeaders(configured: seq<HttpHeaderPair>) returns (r: Result<seq<(string, string)>, VersionError>)
    ensures FirstInvalidHeader(configured).None? ==> r == Ok(HeaderPairs(configured))
    ensures FirstInvalidHeader(configured).Some? ==>
              r == Err(VersionError.InvalidInput("Invalid header key: "
                                                 + configured[FirstInvalidHeader(configured).value].key))
  {
    var headers: seq<(string, string)> := [];
    var i := 0;
    while i < |configured|
      invariant 0 <= i <= |configured|
      invariant forall k :: 0 <= k < i ==> ValidHeaderKey(configured[k].key)
      invariant headers == HeaderPairs(configured[..i])
    {
      var header := configured[i];
      if !ValidHeaderKey(header.key) {
        assert FirstInvalidHeader(configured) == Some(i);
        return Err(VersionError.InvalidInput("Invalid header key: " + header.key));
      }
      headers := headers + [(header.key, header.value)];
      assert configured[..i + 1] == configured[..i] + [header];
      i := i + 1;
    }
    assert configured[..i] == configured;
    return Ok(headers);
  }

  /** `fetch_latest`: check the URL, build the client, check the method,
      then each header name in turn, send, and read the answer. */
  method FetchLatest(config: CustomApiSourceConfig, client: HttpClient<Json>)
    returns (r: Result<VersionCandidate, VersionError>)
    ensures ValidateUrl(config.endpoint).Err? ==> r == ValidateUrl(config.endpoint).PropagateFailure()
    ensures ValidateUrl(config.endpoint).Ok? && client.buildError.Some? ==>
              r == Err(VersionError.Http(client.buildError.value))
    ensures ValidateUrl(config.endpoint).Ok? && client.buildError.None? && RequestMethod(config.httpMethod).None? ==>
              r == Err(VersionError.InvalidInput("Unsupported HTTP method: " + config.httpMethod
                                                 + ". Only GET and POST are supported"))
    ensures ValidateUrl(config.endpoint).Ok? && client.buildError.None? && RequestMethod(config.httpMethod).Some?
            && FirstInvalidHeader(config.headers).Some? ==>
              r == Err(VersionError.InvalidInput("Invalid header key: "
                                                 + config.headers[FirstInvalidHeader(config.headers).value].key))
    ensures ValidateUrl(config.endpoint).Ok? && client.buildError.None? && RequestMethod(config.httpMethod).Some?
            && FirstInvalidHeader(config.headers).None? ==>
              var o := client.send(HttpRequest(RequestMethod(config.httpMethod).value, config.endpoint,
                                               HeaderPairs(config.headers), None, CustomApiTimeoutMs));
              r == match o
                case SendTimeout => Err(VersionError.SourceTimeout("Custom API timeout: " + config.endpoint))
                case SendError(e) => Err(VersionError.SourceUnavailable("Custom API error: " + e))
                case Response(status, statusText, body) =>
                  if !(200 <= status <= 299) then
                    Err(VersionError.SourceUnavailable("Custom API returned status: " + statusText))
                  else if body.Err? then
                    Err(VersionError.Parse("Failed to parse custom API response: " + body.error))
                  else
                    CandidateOf(config, body.value)
  {
    var checked := ValidateUrl(config.endpoint);
    if checked.Err? {
      return checked.PropagateFailure();
    }
    if client.buildError.Some? {
      return Err(VersionError.Http(client.buildError.value));
    }
    var httpMethod := RequestMethod(config.httpMethod);
    if httpMethod.None? {
      return Err(VersionError.InvalidInput("Unsupported HTTP method: " + config.httpMethod
                                           + ". Only GET and POST are supported"));
    }

    var headers := CheckHeaders(config.headers);
    if headers.Err? {
      return headers.PropagateFailure();
    }

    var request := HttpRequest(httpMethod.value, config.endpoint, headers.value, None, CustomApiTimeoutMs);
    match client.send(request)
    case SendTimeout =>
      r := Err(VersionError.SourceTimeout("Custom API timeout: " + config.endpoint));
    case SendError(e) =>
      r := Err(VersionError.SourceUnavailable("Custom API error: " + e));
    case Response(status, statusText, body) =>
      if !(200 <= status <= 299) {
        r := Err(VersionError.SourceUnavailable("Custom API returned status: " + statusText));
      } else if body.Err? {
        r := Err(VersionError.Parse("Failed to parse custom API response: " + body.error));
      } else {
        r := CandidateOf(config, body.value);
      }
  }
}
