/** Request construction (pagerduty/pagerduty.go:198-272): the query string
    appended to the path, the URL prefixed with the client's base URL, the
    header list, and the two entry points that build a request and hand it to
    the retry executor. */
module Requests {
  import opened Wrappers
  import opened Http
  import Retry

  const AcceptValue: string := "application/vnd.pagerduty+json;version=2"
  const ContentTypeValue: string := "application/json"
  const TokenPrefix: string := "Token token="

  /** The query options of a call: none, options that encode to `text`, or
      options the query encoder rejects. */
  datatype Query = NoQuery | Encoded(text: string) | Unencodable

  /** The request payload: none, or a value whose JSON encoding is
      `encoding` (None when the encoder fails). */
  datatype Payload = NoPayload | Payload(encoding: Option<seq<byte>>)

  /** The path with its encoded query appended after a `?`, when there is a
      non-empty one. */
  function WithQuery(path: string, query: Query): (r: Result<string, Error>)
    ensures r.Failure? <==> query.Unencodable?
    ensures r.Failure? ==> r.error == QueryEncodingFailed
    ensures r.Success? ==> |path| <= |r.value| && r.value[..|path|] == path
    ensures r.Success? && r.value != path ==> query.Encoded? && query.text != "" && r.value[|path|] == '?'
    ensures query.Encoded? && query.text != "" ==> r == Success(path + "?" + query.text)
    ensures query.NoQuery? || query == Encoded("") ==> r == Success(path)
  {
    match query
    case NoQuery => Success(path)
    case Unencodable => Failure(QueryEncodingFailed)
    case Encoded(text) => if text != "" then Success(path + "?" + text) else Success(path)
  }

  /** The position of the first `c` in `s`, or `|s|` when there is none. */
  function IndexOf(s: string, c: char): (i: nat)
    ensures i <= |s|
    ensures i < |s| ==> s[i] == c
    ensures forall j :: 0 <= j < i ==> s[j] != c
    decreases |s|
  {
    if |s| == 0 then 0
    else if s[0] == c then 0
    else 1 + IndexOf(s[1..], c)
  }

  /** Splits a URL at its first `?` into path and query. */
  function SplitQuery(url: string): (string, string)
  {
    var i := IndexOf(url, '?');
    if i < |url| then (url[..i], url[i + 1..]) else (url, "")
  }

  /** The path and the query text can be read back from the composed URL
      when the path holds no `?` of its own. */
  lemma QueryRoundTrip(path: string, text: string)
    requires forall i :: 0 <= i < |path| ==> path[i] != '?'
    ensures WithQuery(path, Encoded(text)).Success?
    ensures SplitQuery(WithQuery(path, Encoded(text)).value) == (path, text)
  {
    var u := WithQuery(path, Encoded(text)).value;
    var i := IndexOf(u, '?');
    if text != "" {
      assert u[|path|] == '?';
      assert i == |path|;
      assert u[..i] == path;
      assert u[i + 1..] == text;
    } else {
      assert i == |path|;
    }
  }

  /** The headers taken from the request options of kind "header", in order. */
  function OptionHeaders(options: seq<RequestOption>): (hs: seq<Header>)
    ensures |hs| <= |options|
    ensures forall h :: h in hs <==> exists o :: o in options && o.kind == "header" && h == Header(o.headerName, o.value)
  {
    if |options| == 0 then []
    else
      var rest := OptionHeaders(options[1..]);
      assert forall o :: o in options[1..] ==> o in options;
      assert forall o :: o in options ==> o == options[0] || o in options[1..];
      if options[0].kind == "header" then [Header(options[0].headerName, options[0].value)] + rest
      else rest
  }

  /** Option headers are taken option by option, keeping their order and
      any repeats: the headers of a concatenation are the concatenation of
      the headers. */
  lemma {:induction false} OptionHeadersConcat(a: seq<RequestOption>, b: seq<RequestOption>)
    ensures OptionHeaders(a + b) == OptionHeaders(a) + OptionHeaders(b)
    decreases |a|
  {
    if |a| == 0 {
      assert a + b == b;
    } else {
      assert (a + b)[1..] == a[1..] + b;
      OptionHeadersConcat(a[1..], b);
    }
  }

  /** A single option adds its header exactly when it is of kind "header". */
  lemma OptionHeadersOne(o: RequestOption)
    ensures OptionHeaders([o]) == if o.kind == "header" then [Header(o.headerName, o.value)] else []
  {
  }

  /** Two header options with the same name both reach the request, in order. */
  lemma RepeatedHeaderKept(name: string, v1: string, v2: string)
    ensures OptionHeaders([RequestOption("header", name, v1), RequestOption("header", name, v2)])
            == [Header(name, v1), Header(name, v2)]
  {
    var o1, o2 := RequestOption("header", name, v1), RequestOption("header", name, v2);
    assert [o1, o2] == [o1] + [o2];
    OptionHeadersConcat([o1], [o2]);
  }

  /** The headers every request carries after the optional ones. */
  function FixedHeaders(config: Config): (hs: seq<Header>)
    ensures |hs| == if config.userAgent != "" then 4 else 3
  {
    [ Header("Accept", AcceptValue),
      Header("Authorization", TokenPrefix + config.token),
      Header("Content-Type", ContentTypeValue) ]
    + (if config.userAgent != "" then [Header("User-Agent", config.userAgent)] else [])
  }

  /** The fixed headers are the API version's `Accept`, the token as
      `Authorization` and a JSON `Content-Type`, plus the configured
      `User-Agent`; they use only those four names, each at most once, and
      `User-Agent` exactly when one is configured. */
  lemma FixedHeaderNames(config: Config)
    ensures var hs := FixedHeaders(config);
      && Header("Accept", AcceptValue) in hs && Header("Content-Type", ContentTypeValue) in hs
      && Header("Authorization", TokenPrefix + config.token) in hs
      && (config.userAgent != "" ==> Header("User-Agent", config.userAgent) in hs)
      && (forall h :: h in hs ==> h.name in {"Accept", "Authorization", "Content-Type", "User-Agent"})
      && ((exists h :: h in hs && h.name == "User-Agent") <==> config.userAgent != "")
      && (forall i, j :: 0 <= i < j < |hs| ==> hs[i].name != hs[j].name)
  {
  }

  function HeaderNames(hs: seq<Header>): set<string>
  {
    set h | h in hs :: h.name
  }

  /** A request for `path` under the client's base URL, with the payload's
      JSON encoding as body; fails only when the payload does not encode. */
  function NewRequest(config: Config, httpMethod: string, path: string, payload: Payload, options: seq<RequestOption>): (r: Result<Request, Error>)
    ensures r.Failure? <==> payload.Payload? && payload.encoding.None?
    ensures r.Failure? ==> r.error == BodyEncodingFailed
    ensures r.Success? ==> r.value.httpMethod == httpMethod && r.value.url == config.baseUrl + path
    ensures r.Success? ==> r.value.body == if payload.Payload? then payload.encoding else None
    ensures r.Success? ==> r.value.headers == OptionHeaders(options) + FixedHeaders(config)
  {
    if payload.Payload? && payload.encoding.None? then Failure(BodyEncodingFailed)
    else
      var body := if payload.Payload? then payload.encoding else None;
      Success(Request(httpMethod, config.baseUrl + path, OptionHeaders(options) + FixedHeaders(config), body))
  }

  /** Every built request carries the API version's Accept header, the token
      as Authorization and a JSON Content-Type; it carries a User-Agent header
      exactly when one is configured, unless an option supplies one. */
  lemma RequestHeaders(config: Config, httpMethod: string, path: string, payload: Payload, options: seq<RequestOption>)
    requires NewRequest(config, httpMethod, path, payload, options).Success?
    ensures var hs := NewRequest(config, httpMethod, path, payload, options).value.headers;
      && Header("Accept", AcceptValue) in hs
      && Header("Authorization", TokenPrefix + config.token) in hs
      && Header("Content-Type", ContentTypeValue) in hs
    ensures (forall o :: o in options && o.kind == "header" ==> o.headerName != "User-Agent") ==>
              (("User-Agent" in HeaderNames(NewRequest(config, httpMethod, path, payload, options).value.headers))
               <==> config.userAgent != "")
  {
    var hs := NewRequest(config, httpMethod, path, payload, options).value.headers;
    var fixed := FixedHeaders(config);
    assert fixed[0] in hs && fixed[1] in hs && fixed[2] in hs;
    if config.userAgent != "" {
      assert fixed[3] in hs;
    }
    if forall o :: o in options && o.kind == "header" ==> o.headerName != "User-Agent" {
      assert forall h :: h in OptionHeaders(options) ==> h.name != "User-Agent";
      assert forall h :: h in hs ==> h in OptionHeaders(options) || h in fixed;
    }
  }

  /** The outcome of building a request and executing it. A query or payload
      that does not encode ends the call before any try. */
  function RequestDo(config: Config, httpMethod: string, path: string, query: Query, payload: Payload,
                     target: Target, options: seq<RequestOption>, server: nat -> Attempt): (o: Retry.Outcome)
    ensures o.tries == 0 <==> query.Unencodable? || (payload.Payload? && payload.encoding.None?)
    ensures o.tries == 0 ==> o.sleeps == 0 && o.result.Failure?
    ensures query.Unencodable? ==> o.result == Failure(QueryEncodingFailed)
    ensures !query.Unencodable? && payload.Payload? && payload.encoding.None? ==> o.result == Failure(BodyEncodingFailed)
    ensures o.tries > 0 ==> o == Retry.Run(NewRequest(config, httpMethod, WithQuery(path, query).value, payload, options).value, target, server)
  {
    match WithQuery(path, query)
    case Failure(e) => Retry.Outcome(Failure(e), 0, 0)
    case Success(url) =>
      match NewRequest(config, httpMethod, url, payload, options)
      case Failure(e) => Retry.Outcome(Failure(e), 0, 0)
      case Success(req) => Retry.Run(req, target, server)
  }

  /** `newRequestDoOptions`: compose the URL, build the request with the
      header options, and execute it. */
  method NewRequestDoOptions(config: Config, httpMethod: string, path: string, query: Query, payload: Payload,
                             target: Target, options: seq<RequestOption>, server: nat -> Attempt)
    returns (result: Result<Response, Error>, tries: nat, sleeps: nat)
    ensures Retry.Outcome(result, tries, sleeps) == RequestDo(config, httpMethod, path, query, payload, target, options, server)
  {
    var url := WithQuery(path, query);
    if url.Failure? {
      return Failure(url.error), 0, 0;
    }
    var req := NewRequest(config, httpMethod, url.value, payload, options);
    if req.Failure? {
      return Failure(req.error), 0, 0;
    }
    result, tries, sleeps := Retry.Do(req.value, target, server);
  }

  /** `newRequestDo`: the same without header options. */
  method NewRequestDo(config: Config, httpMethod: string, path: string, query: Query, payload: Payload,
                      target: Target, server: nat -> Attempt)
    returns (result: Result<Response, Error>, tries: nat, sleeps: nat)
    ensures Retry.Outcome(result, tries, sleeps) == RequestDo(config, httpMethod, path, query, payload, target, [], server)
    ensures result.Success? ==> result.value.request.headers == FixedHeaders(config)
  {
    result, tries, sleeps := NewRequestDoOptions(config, httpMethod, path, query, payload, target, [], server);
  }
}
