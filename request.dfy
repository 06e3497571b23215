/** The transport-agnostic request dispatcher of `src/request.rs`: the
    wire-method model, URL and user-agent assembly, the request built step by
    step for a transport, and the classification of a response into a typed
    result or error.

    Everything the dispatcher hands to foreign code is a parameter here: the
    query-string encoder, the body serialiser, the JSON parsers (as
    "parses-as" oracles returning an optional value) and the transport's
    network round trip. */
module Request {
  import opened Prelude

  /** The HTTP verbs of the `http` crate that the dispatcher uses. */
  datatype HttpVerb = GET | POST | PATCH | PUT | DELETE

  /** The wire method: the verb is fixed by the tag, and only POST, PATCH and
      PUT carry a body. */
  datatype Method<Q, B> =
    | Get(query: Q)
    | Post(query: Q, body: B)
    | Patch(query: Q, body: B)
    | Put(query: Q, body: B)
    | Delete(query: Q)
  {
    /** `Method::query`: the query carried by every variant. */
    function Query(): (q: Q)
      ensures match this
              case Get(x) => q == x
              case Post(x, _) => q == x
              case Patch(x, _) => q == x
              case Put(x, _) => q == x
              case Delete(x) => q == x
    {
      query
    }

    /** The variants that carry a request body. */
    predicate HasBody() {
      Post? || Patch? || Put?
    }

    /** `Method::http_method`: the verb depends on the tag alone, each tag has
        its own verb, and the body-carrying tags are exactly those whose verb
        is POST, PATCH or PUT. */
    function HttpMethod(): (v: HttpVerb)
      ensures (v == GET <==> Get?) && (v == POST <==> Post?) && (v == PATCH <==> Patch?)
      ensures (v == PUT <==> Put?) && (v == DELETE <==> Delete?)
      ensures HasBody() <==> v in {POST, PATCH, PUT}
    {
      match this
      case Get(_) => GET
      case Post(_, _) => POST
      case Patch(_, _) => PATCH
      case Put(_, _) => PUT
      case Delete(_) => DELETE
    }
  }

  /** The structured error body the service returns (`MeilisearchError`),
      reduced to the two fields a caller inspects. */
  datatype MeilisearchError = MeilisearchError(errorCode: string, errorMessage: string)

  /** Which JSON parse failed when a `ParseError` is reported: the expected
      output type, or the service's error payload. */
  datatype ParseTarget = OutputValue | ServiceErrorPayload

  /** The library's error taxonomy as far as the dispatcher produces it. */
  datatype Error =
    | ParseError(failedAs: ParseTarget)
    | Meilisearch(service: MeilisearchError)
    | MeilisearchCommunication(statusCode: U16, message: Option<string>, url: string)
    | QueryEncoding(reason: string)
    | Transport(reason: string)

  const ContentType: string := "application/json"
  const AuthorizationHeader: string := "Authorization"
  const UserAgentHeader: string := "User-Agent"
  const UserAgentPrefix: string := "Meilisearch Rust (v"

  /** `qualified_version`: the user agent is the fixed prefix, the crate
      version (or "unknown" when the build did not record one) and a closing
      parenthesis. */
  function QualifiedVersion(version: Option<string>): (ua: string)
    ensures |ua| == |UserAgentPrefix| + |version.UnwrapOr("unknown")| + 1
    ensures ua[..|UserAgentPrefix|] == UserAgentPrefix && ua[|ua| - 1] == ')'
    ensures ua[|UserAgentPrefix|..|ua| - 1] == version.UnwrapOr("unknown")
  {
    UserAgentPrefix + version.UnwrapOr("unknown") + ")"
  }

  /** Reads the version back out of a user-agent string of the library's
      shape. */
  function VersionOf(ua: string): (v: Option<string>)
  {
    if |ua| > |UserAgentPrefix| && ua[..|UserAgentPrefix|] == UserAgentPrefix && ua[|ua| - 1] == ')'
    then Some(ua[|UserAgentPrefix|..|ua| - 1])
    else None
  }

  /** The user agent names the version it was built from: the version can be
      read back, and an absent version reads as "unknown". */
  lemma QualifiedVersionRoundTrip(version: Option<string>)
    ensures VersionOf(QualifiedVersion(version)) == Some(version.UnwrapOr("unknown"))
    ensures QualifiedVersion(None) == QualifiedVersion(Some("unknown"))
  {
  }

  /** The position of the first `c` in `s`, or `|s|` when there is none. */
  function IndexOfChar(s: string, c: char): (i: nat)
    ensures i <= |s|
    ensures i < |s| ==> s[i] == c
    ensures forall j :: 0 <= j < i ==> s[j] != c
  {
    if |s| == 0 then 0
    else if s[0] == c then 0
    else 1 + IndexOfChar(s[1..], c)
  }

  /** Splits a URL at its first `?` into the base and the query string. */
  function SplitQuery(full: string): (parts: (string, string))
  {
    var i := IndexOfChar(full, '?');
    if i == |full| then (full, "") else (full[..i], full[i + 1..])
  }

  /** `add_query_parameters`: an encoding failure is reported, an empty
      query string leaves the URL as it is, and otherwise the URL is followed
      by `?` and the encoded query. */
  function AddQueryParameters<Q>(url: string, query: Q, encode: Q -> Result<string, string>): (r: Result<string, Error>)
    ensures r.Err? <==> encode(query).Err?
    ensures r.Err? ==> r.error == QueryEncoding(encode(query).error)
    ensures r.Ok? ==> url <= r.value
    ensures r.Ok? ==> (r.value == url <==> encode(query).value == "")
    ensures r.Ok? && r.value != url ==> r.value[|url|] == '?' && r.value[|url| + 1..] == encode(query).value
  {
    match encode(query)
    case Err(e) => Err(QueryEncoding(e))
    case Ok(q) => if q == "" then Ok(url) else Ok(url + "?" + q)
  }

  /** For a base URL without a query string, the base and the encoded query
      can be recovered from the assembled URL. */
  lemma {:induction false} AddQueryParametersRoundTrip<Q>(url: string, query: Q, encode: Q -> Result<string, string>)
    requires '?' !in url
    requires encode(query).Ok?
    ensures AddQueryParameters(url, query, encode).Ok?
    ensures SplitQuery(AddQueryParameters(url, query, encode).value) == (url, encode(query).value)
  {
    var q := encode(query).value;
    var full := AddQueryParameters(url, query, encode).value;
    var i := IndexOfChar(full, '?');
    if q == "" {
      assert full == url;
    } else {
      assert full == url + "?" + q;
      assert full[|url|] == '?';
      assert full[..i] == url;
      assert full[i + 1..] == q;
    }
  }

  /** The request a transport is building (`RequestClient`): target URL, verb
      once set, and the headers set so far. */
  datatype RequestClient = RequestClient(url: string, verb: Option<HttpVerb>, headers: map<string, string>)
  {
    function WithMethod(v: HttpVerb): RequestClient {
      this.(verb := Some(v))
    }

    function WithUserAgentHeader(value: string): RequestClient {
      this.(headers := headers[UserAgentHeader := value])
    }

    function WithAuthorizationHeader(token: string): RequestClient {
      this.(headers := headers[AuthorizationHeader := token])
    }

    /** `add_body`: the body-carrying variants attach their serialised body
        with the content type; the others send none. */
    function AddBody<Q, B>(m: Method<Q, B>, contentType: string, encodeBody: B -> string): PreparedRequest {
      PreparedRequest(url, verb, headers,
        if m.HasBody() then Some(Body(contentType, encodeBody(m.body))) else None)
    }
  }

  function NewClient(url: string): RequestClient {
    RequestClient(url, None, map[])
  }

  datatype Body = Body(contentType: string, payload: string)

  /** What a transport sends. */
  datatype PreparedRequest = PreparedRequest(url: string, verb: Option<HttpVerb>, headers: map<string, string>, body: Option<Body>)

  /** What a transport returns: the status and the drained body text, which
      can itself fail. */
  datatype RawResponse = RawResponse(status: U16, text: Result<string, Error>)

  /** The request that `RequestClient::request` hands to the transport: the
      URL with its query string, the tag's verb, the user agent always, the
      bearer token exactly when an API key is given, and a body exactly for
      the body-carrying variants. */
  ghost predicate WellBuilt<Q, B>(p: PreparedRequest, url: string, apikey: Option<string>, m: Method<Q, B>,
                                  contentType: string, version: Option<string>,
                                  encodeQuery: Q -> Result<string, string>, encodeBody: B -> string)
  {
    && AddQueryParameters(url, m.Query(), encodeQuery) == Ok(p.url)
    && p.verb == Some(m.HttpMethod())
    && p.headers.Keys == (if apikey.Some? then {UserAgentHeader, AuthorizationHeader} else {UserAgentHeader})
    && p.headers[UserAgentHeader] == QualifiedVersion(version)
    && (apikey.Some? ==> p.headers[AuthorizationHeader] == "Bearer " + apikey.value)
    && (p.body.Some? <==> m.HasBody())
    && (m.HasBody() ==> p.body.value == Body(contentType, encodeBody(m.body)))
  }

  /** An empty body is read as the JSON literal `null`. */
  function EffectiveBody(body: string): (b: string)
    ensures body == "" ==> b == "null"
    ensures body != "" ==> b == body
  {
    if body == "" then "null" else body
  }

  /** `parse_response`: classifies `(status, expected status, body)` into the
      typed outcome. On the expected status only the output parse is
      consulted; otherwise a service error body wins whatever the status, and
      an unrecognised body is a communication error carrying the base URL
      from status 400 on and a parse error below it. */
  function ParseResponse<O>(status: U16, expected: U16, body: string, url: string,
                            parseOutput: string -> Option<O>,
                            parseServiceError: string -> Option<MeilisearchError>): (r: Result<O, Error>)
    ensures var b := EffectiveBody(body);
      && (r.Ok? <==> status == expected && parseOutput(b).Some?)
      && (r.Ok? ==> r.value == parseOutput(b).value)
      && (r == Err(ParseError(OutputValue)) <==> status == expected && parseOutput(b).None?)
      && (r.Err? && r.error.Meilisearch? <==> status != expected && parseServiceError(b).Some?)
      && (r.Err? && r.error.Meilisearch? ==> r.error.service == parseServiceError(b).value)
      && ((r == Err(MeilisearchCommunication(status, None, url)))
          <==> status != expected && parseServiceError(b).None? && status >= 400)
      && ((r == Err(ParseError(ServiceErrorPayload)))
          <==> status != expected && parseServiceError(b).None? && status < 400)
  {
    var b := EffectiveBody(body);
    if status == expected then
      match parseOutput(b)
      case Some(output) => Ok(output)
      case None => Err(ParseError(OutputValue))
    else
      match parseServiceError(b)
      case Some(e) => Err(Meilisearch(e))
      case None =>
        if status >= 400 then Err(MeilisearchCommunication(status, None, url))
        else Err(ParseError(ServiceErrorPayload))
  }

  /** An empty body and the body `null` are classified alike. */
  lemma ParseResponseEmptyBodyIsNull<O>(status: U16, expected: U16, url: string,
                                         parseOutput: string -> Option<O>,
                                         parseServiceError: string -> Option<MeilisearchError>)
    ensures ParseResponse(status, expected, "", url, parseOutput, parseServiceError)
         == ParseResponse(status, expected, "null", url, parseOutput, parseServiceError)
  {
  }

  /** On the expected status the service-error parser is never consulted:
      swapping it for any other parser changes nothing. */
  lemma ParseResponseExpectedIgnoresServiceParser<O>(status: U16, body: string, url: string,
                                                     parseOutput: string -> Option<O>,
                                                     p1: string -> Option<MeilisearchError>,
                                                     p2: string -> Option<MeilisearchError>)
    ensures ParseResponse(status, status, body, url, parseOutput, p1)
         == ParseResponse(status, status, body, url, parseOutput, p2)
  {
  }

  /** `RequestClient::request`: builds the request step by step, hands it to
      the transport, and classifies the response against the base URL. The
      request is returned as well, as `None` when the query could not be
      encoded and nothing was sent. */
  method Request<Q, B, O>(url: string, apikey: Option<string>, m: Method<Q, B>, contentType: string,
                          expected: U16, version: Option<string>,
                          encodeQuery: Q -> Result<string, string>, encodeBody: B -> string,
                          send: PreparedRequest -> Result<RawResponse, Error>,
                          parseOutput: string -> Option<O>,
                          parseServiceError: string -> Option<MeilisearchError>)
    returns (result: Result<O, Error>, sent: Option<PreparedRequest>)
    ensures sent.None? <==> encodeQuery(m.Query()).Err?
    ensures sent.None? ==> result == Err(QueryEncoding(encodeQuery(m.Query()).error))
    ensures sent.Some? ==> WellBuilt(sent.value, url, apikey, m, contentType, version, encodeQuery, encodeBody)
    ensures sent.Some? && send(sent.value).Err? ==> result == Err(send(sent.value).error)
    ensures sent.Some? && send(sent.value).Ok? && send(sent.value).value.text.Err?
            ==> result == Err(send(sent.value).value.text.error)
    ensures sent.Some? && send(sent.value).Ok? && send(sent.value).value.text.Ok?
            ==> var raw := send(sent.value).value;
                result == ParseResponse(raw.status, expected, raw.text.value, url, parseOutput, parseServiceError)
  {
    var target := AddQueryParameters(url, m.Query(), encodeQuery);
    if target.Err? {
      return Err(target.error), None;
    }
    var client := NewClient(target.value)
      .WithMethod(m.HttpMethod())
      .WithUserAgentHeader(QualifiedVersion(version));
    if apikey.Some? {
      client := client.WithAuthorizationHeader("Bearer " + apikey.value);
    }
    var request := client.AddBody(m, contentType, encodeBody);
    sent := Some(request);
    var response := send(request);
    if response.Err? {
      return Err(response.error), sent;
    }
    var status := response.value.status;
    var text := response.value.text;
    if text.Err? {
      return Err(text.error), sent;
    }
    result := ParseResponse(status, expected, text.value, url, parseOutput, parseServiceError);
  }

  /** The crate-level `request`: the dispatcher with the JSON content type. */
  method Execute<Q, B, O>(url: string, apikey: Option<string>, m: Method<Q, B>, expected: U16,
                          version: Option<string>,
                          encodeQuery: Q -> Result<string, string>, encodeBody: B -> string,
                          send: PreparedRequest -> Result<RawResponse, Error>,
                          parseOutput: string -> Option<O>,
                          parseServiceError: string -> Option<MeilisearchError>)
    returns (result: Result<O, Error>, sent: Option<PreparedRequest>)
    ensures sent.None? <==> encodeQuery(m.Query()).Err?
    ensures sent.None? ==> result == Err(QueryEncoding(encodeQuery(m.Query()).error))
    ensures sent.Some? ==> WellBuilt(sent.value, url, apikey, m, ContentType, version, encodeQuery, encodeBody)
    ensures sent.Some? && send(sent.value).Err? ==> result == Err(send(sent.value).error)
    ensures sent.Some? && send(sent.value).Ok? && send(sent.value).value.text.Err?
            ==> result == Err(send(sent.value).value.text.error)
    ensures sent.Some? && send(sent.value).Ok? && send(sent.value).value.text.Ok?
            ==> var raw := send(sent.value).value;
                result == ParseResponse(raw.status, expected, raw.text.value, url, parseOutput, parseServiceError)
  {
    result, sent := Request(url, apikey, m, ContentType, expected, version, encodeQuery, encodeBody,
                            send, parseOutput, parseServiceError);
  }
}
