/** The client of pkg/unsent/client.go: its configuration, the generic `request`
    every resource operation goes through, and the verb helpers.

    What the network and `encoding/json` do is not modelled: each is an oracle
    field of `Io`, applied where the Go code calls it. */
module Client {
  import opened Wrappers
  import Strings
  import opened Errors

  const DefaultBaseURL: string := "https://api.unsent.dev"
  const VersionSuffix: string := "/v1"
  const MissingKeyMessage: string :=
    "missing API key. Pass it to NewClient or set UNSENT_API_KEY environment variable"
  const InternalError: string := "INTERNAL_ERROR"
  const InternalServerError: string := "INTERNAL_SERVER_ERROR"

  // ---------------------------------------------------------------------------
  // Configuration

  /** The `*http.Client` in use: the one `NewClient` makes, or one a caller passed. */
  datatype HttpClient = DefaultHttpClient | CustomHttpClient(id: nat)

  /** The fields of `Client` that an option or a request reads. */
  datatype Config = Config(key: string, url: string, raiseOnError: bool, httpClient: HttpClient)

  /** `ClientOption` closures: `WithBaseURL`, `WithHTTPClient`, `WithRaiseOnError`. */
  datatype ClientOption =
    | WithBaseURL(base: string)
    | WithHTTPClient(client: HttpClient)
    | WithRaiseOnError(raise: bool)

  /** What running one option does to the configuration. */
  function ApplyOption(c: Config, opt: ClientOption): Config {
    match opt
    case WithBaseURL(u) => c.(url := u + VersionSuffix)
    case WithHTTPClient(h) => c.(httpClient := h)
    case WithRaiseOnError(b) => c.(raiseOnError := b)
  }

  /** The options run one after the other, first to last. */
  function ApplyOptions(c: Config, opts: seq<ClientOption>): Config {
    if |opts| == 0 then c else ApplyOption(ApplyOptions(c, opts[..|opts| - 1]), opts[|opts| - 1])
  }

  /** The key `NewClient` uses: its argument, or the environment's when that is empty. */
  function ResolveKey(key: string, envKey: string): string {
    if key == "" then envKey else key
  }

  /** The configuration before the options run. */
  function InitialConfig(key: string, envBaseURL: string): Config {
    var base := if envBaseURL == "" then DefaultBaseURL else envBaseURL;
    Config(key, base + VersionSuffix, true, DefaultHttpClient)
  }

  /** What `NewClient` yields, with `UNSENT_API_KEY` and `UNSENT_BASE_URL` read
      from the environment as `envKey` and `envBaseURL`. */
  function Configure(key: string, envKey: string, envBaseURL: string, opts: seq<ClientOption>): Result<Config, string> {
    var k := ResolveKey(key, envKey);
    if k == "" then Failure(MissingKeyMessage)
    else Success(ApplyOptions(InitialConfig(k, envBaseURL), opts))
  }

  /** The last `WithBaseURL` decides the URL; no option changes the key. */
  lemma {:induction false} LastBaseURLWins(c: Config, opts: seq<ClientOption>, i: nat)
    requires i < |opts| && opts[i].WithBaseURL?
    requires forall j :: i < j < |opts| ==> !opts[j].WithBaseURL?
    ensures ApplyOptions(c, opts).url == opts[i].base + VersionSuffix
    ensures ApplyOptions(c, opts).key == c.key
  {
    var n := |opts|;
    if i < n - 1 {
      LastBaseURLWins(c, opts[..n - 1], i);
    } else {
      OptionsKeepKey(c, opts[..n - 1]);
    }
  }

  /** Without a `WithBaseURL`, the URL is the one the options started from. */
  lemma {:induction false} NoBaseURLKeepsURL(c: Config, opts: seq<ClientOption>)
    requires forall j :: 0 <= j < |opts| ==> !opts[j].WithBaseURL?
    ensures ApplyOptions(c, opts).url == c.url
    ensures ApplyOptions(c, opts).key == c.key
  {
    if |opts| > 0 {
      NoBaseURLKeepsURL(c, opts[..|opts| - 1]);
    }
  }

  lemma {:induction false} OptionsKeepKey(c: Config, opts: seq<ClientOption>)
    ensures ApplyOptions(c, opts).key == c.key
  {
    if |opts| > 0 {
      OptionsKeepKey(c, opts[..|opts| - 1]);
    }
  }

  /** The last `WithRaiseOnError` decides the flag; without one it stays true. */
  lemma {:induction false} RaiseOnErrorSetting(key: string, envBaseURL: string, opts: seq<ClientOption>, i: int)
    requires -1 <= i < |opts|
    requires i >= 0 ==> opts[i].WithRaiseOnError?
    requires forall j :: i < j < |opts| ==> !opts[j].WithRaiseOnError?
    ensures ApplyOptions(InitialConfig(key, envBaseURL), opts).raiseOnError
      == if i >= 0 then opts[i].raise else true
  {
    var n := |opts|;
    if n > 0 && i < n - 1 {
      RaiseOnErrorSetting(key, envBaseURL, opts[..n - 1], i);
    }
  }

  /** `NewClient` fails exactly when both the argument and the environment key are
      empty; otherwise the key is the first non-empty one and the URL is the base
      (last `WithBaseURL`, else `UNSENT_BASE_URL`, else the default) plus `/v1`. */
  lemma ConfigureOutcome(key: string, envKey: string, envBaseURL: string, opts: seq<ClientOption>)
    ensures Configure(key, envKey, envBaseURL, opts).Failure? <==> key == "" && envKey == ""
    ensures Configure(key, envKey, envBaseURL, opts).Failure? ==>
      Configure(key, envKey, envBaseURL, opts).error == MissingKeyMessage
    ensures Configure(key, envKey, envBaseURL, opts).Success? ==>
      var c := Configure(key, envKey, envBaseURL, opts).value;
      && c.key == (if key != "" then key else envKey)
      && ((forall j :: 0 <= j < |opts| ==> !opts[j].WithBaseURL?) ==>
            c.url == (if envBaseURL == "" then DefaultBaseURL else envBaseURL) + VersionSuffix)
  {
    var k := ResolveKey(key, envKey);
    if k != "" {
      OptionsKeepKey(InitialConfig(k, envBaseURL), opts);
      if forall j :: 0 <= j < |opts| ==> !opts[j].WithBaseURL? {
        NoBaseURLKeepsURL(InitialConfig(k, envBaseURL), opts);
      }
    }
  }

  /** The client object; its resource clients are left out (each only points back here). */
  class Client {
    var key: string
    var url: string
    var raiseOnError: bool
    var httpClient: HttpClient

    function Settings(): Config
      reads this
    {
      Config(key, url, raiseOnError, httpClient)
    }

    /** The struct literal of `NewClient`. */
    constructor (key: string, url: string)
      ensures Settings() == Config(key, url, true, DefaultHttpClient)
    {
      this.key := key;
      this.url := url;
      this.raiseOnError := true;
      this.httpClient := DefaultHttpClient;
    }

    /** `opt(client)`: one option closure run on the client. */
    method Apply(opt: ClientOption)
      modifies this
      ensures Settings() == ApplyOption(old(Settings()), opt)
    {
      match opt
      case WithBaseURL(u) => url := u + VersionSuffix;
      case WithHTTPClient(h) => httpClient := h;
      case WithRaiseOnError(b) => raiseOnError := b;
    }
  }

  /** `NewClient`, with the two environment variables passed in. */
  method NewClient(key: string, envKey: string, envBaseURL: string, opts: seq<ClientOption>)
    returns (client: Client?, err: Option<string>)
    ensures client == null <==> Configure(key, envKey, envBaseURL, opts).Failure?
    ensures client == null ==> err == Some(Configure(key, envKey, envBaseURL, opts).error)
    ensures client != null ==>
      fresh(client) && err.None? && client.Settings() == Configure(key, envKey, envBaseURL, opts).value
  {
    var k := key;
    if k == "" {
      k := envKey;
    }
    if k == "" {
      return null, Some(MissingKeyMessage);
    }
    var baseURL := envBaseURL;
    if baseURL == "" {
      baseURL := DefaultBaseURL;
    }
    client := new Client(k, baseURL + VersionSuffix);
    for i := 0 to |opts|
      invariant client.Settings() == ApplyOptions(InitialConfig(k, envBaseURL), opts[..i])
    {
      assert opts[..i + 1][..i] == opts[..i];
      client.Apply(opts[i]);
    }
    assert opts[..|opts|] == opts;
    err := None;
  }

  // ---------------------------------------------------------------------------
  // Requests

  datatype Verb = GET | POST | PUT | PATCH | DELETE

  function VerbName(v: Verb): string {
    match v
    case GET => "GET"
    case POST => "POST"
    case PUT => "PUT"
    case PATCH => "PATCH"
    case DELETE => "DELETE"
  }

  /** A request payload, reduced to its top-level JSON fields; `EmptyObject` is the
      `map[string]interface{}{}` that `Cancel` sends. */
  datatype Payload = EmptyObject | Document(fields: map<string, string>)

  /** `RequestOption` closures: both `WithHeader` and `WithIdempotencyKey` set a header. */
  datatype RequestOption = WithHeader(name: string, value: string)

  function WithIdempotencyKey(key: string): RequestOption {
    WithHeader("Idempotency-Key", key)
  }

  /** What a resource operation hands to `request`: verb, path, optional body, options. */
  datatype Call = Call(verb: Verb, path: string, body: Option<Payload>, opts: seq<RequestOption>)

  /** The verb helpers `Post`, `Get`, `Put`, `Patch` and `Delete`. */
  function Post(path: string, body: Payload, opts: seq<RequestOption>): Call {
    Call(POST, path, Some(body), opts)
  }

  function Get(path: string, opts: seq<RequestOption>): Call {
    Call(GET, path, None, opts)
  }

  function Put(path: string, body: Payload, opts: seq<RequestOption>): Call {
    Call(PUT, path, Some(body), opts)
  }

  function Patch(path: string, body: Payload, opts: seq<RequestOption>): Call {
    Call(PATCH, path, Some(body), opts)
  }

  function Delete(path: string, body: Option<Payload>, opts: seq<RequestOption>): Call {
    Call(DELETE, path, body, opts)
  }

  /** The request handed to the transport. Header names are taken as written. */
  datatype HttpRequest = HttpRequest(verb: string, url: string, headers: map<string, string>, body: Option<seq<byte>>)

  /** What the transport gives back: a failure of `Do` or of reading the body, or a
      status, its status line and the body bytes. */
  datatype TransportOutcome = TransportError(message: string) | Response(status: int, statusText: string, body: seq<byte>)

  /** The oracles `request` calls: JSON encoding of the body, `http.NewRequest`'s check
      of verb and URL, the transport, the flat and the nested error decodes, the
      decode of a success body, and the zero value of the result type. */
  datatype Io<T> = Io(
    marshal: Payload -> Result<seq<byte>, string>,
    newRequest: (string, string) -> Option<string>,
    transport: (HttpClient, HttpRequest) -> TransportOutcome,
    decodeFlat: seq<byte> -> Option<APIError>,
    decodeNested: seq<byte> -> Option<APIError>,
    decodeResult: seq<byte> -> Result<T, string>,
    zero: T)

  function DefaultHeaders(key: string): map<string, string> {
    map["Authorization" := "Bearer " + key, "Content-Type" := "application/json"]
  }

  /** The request options run after the default headers, first to last. */
  function ApplyRequestOptions(h: map<string, string>, opts: seq<RequestOption>): map<string, string> {
    if |opts| == 0 then h
    else ApplyRequestOptions(h, opts[..|opts| - 1])[opts[|opts| - 1].name := opts[|opts| - 1].value]
  }

  /** A header no option names keeps its value from before the options ran. */
  lemma {:induction false} HeaderUntouched(h: map<string, string>, opts: seq<RequestOption>, name: string)
    requires forall j :: 0 <= j < |opts| ==> opts[j].name != name
    ensures name in ApplyRequestOptions(h, opts) <==> name in h
    ensures name in h ==> ApplyRequestOptions(h, opts)[name] == h[name]
  {
    if |opts| > 0 {
      HeaderUntouched(h, opts[..|opts| - 1], name);
    }
  }

  /** A header that options name takes the value of the last option that names it. */
  lemma {:induction false} LastHeaderWins(h: map<string, string>, opts: seq<RequestOption>, i: nat)
    requires i < |opts|
    requires forall j :: i < j < |opts| ==> opts[j].name != opts[i].name
    ensures opts[i].name in ApplyRequestOptions(h, opts)
    ensures ApplyRequestOptions(h, opts)[opts[i].name] == opts[i].value
  {
    var n := |opts|;
    if i < n - 1 {
      LastHeaderWins(h, opts[..n - 1], i);
    }
  }

  /** Every request carries the bearer token and the JSON content type unless a request
      option overrides that header. */
  lemma DefaultHeadersKept(key: string, opts: seq<RequestOption>)
    ensures (forall j :: 0 <= j < |opts| ==> opts[j].name != "Authorization") ==>
      var r := ApplyRequestOptions(DefaultHeaders(key), opts);
      "Authorization" in r && r["Authorization"] == "Bearer " + key
    ensures (forall j :: 0 <= j < |opts| ==> opts[j].name != "Content-Type") ==>
      var r := ApplyRequestOptions(DefaultHeaders(key), opts);
      "Content-Type" in r && r["Content-Type"] == "application/json"
  {
    var h := DefaultHeaders(key);
    assert "Authorization" in h && "Content-Type" in h;
    if forall j :: 0 <= j < |opts| ==> opts[j].name != "Authorization" {
      HeaderUntouched(h, opts, "Authorization");
    }
    if forall j :: 0 <= j < |opts| ==> opts[j].name != "Content-Type" {
      HeaderUntouched(h, opts, "Content-Type");
    }
  }

  predicate IsSuccessStatus(status: int) {
    200 <= status < 300
  }

  /** The error of a non-2xx response: the flat `{code,message}` body when its code is
      set, else the nested `{"error":{...}}` one when its code is set, else a synthetic
      `INTERNAL_SERVER_ERROR` carrying the status line. */
  function NormalizeError(statusText: string, flat: Option<APIError>, nested: Option<APIError>): (e: APIError)
    ensures e.code != ""
    ensures (flat.Some? && e == flat.value) || (nested.Some? && e == nested.value)
      || e == APIError(InternalServerError, statusText)
  {
    if flat.Some? && flat.value.code != "" then flat.value
    else if nested.Some? && nested.value.code != "" then nested.value
    else APIError(InternalServerError, statusText)
  }

  /** Which shape wins: the flat body if it has a code; the nested one only if the flat
      one has none; a message-only flat body is dropped for the status line. */
  lemma ErrorShapePrecedence(statusText: string, flat: Option<APIError>, nested: Option<APIError>)
    ensures flat.Some? && flat.value.code != "" ==> NormalizeError(statusText, flat, nested) == flat.value
    ensures (flat.None? || flat.value.code == "") && nested.Some? && nested.value.code != "" ==>
      NormalizeError(statusText, flat, nested) == nested.value
    ensures (flat.None? || flat.value.code == "") && (nested.None? || nested.value.code == "") ==>
      NormalizeError(statusText, flat, nested) == APIError(InternalServerError, statusText)
  {
  }

  /** The decision `request` takes once the body has been read. */
  function Interpret<T>(raiseOnError: bool, status: int, statusText: string, body: seq<byte>,
      flat: Option<APIError>, nested: Option<APIError>, decoded: Result<T, string>, zero: T): Result<T, APIError>
  {
    if status < 200 || status >= 300 then
      var apiErr := NormalizeError(statusText, flat, nested);
      if raiseOnError then Failure(apiErr) else Failure(apiErr)
    else if |body| > 0 then
      match decoded
      case Failure(msg) => Failure(APIError(InternalError, msg))
      case Success(v) => Success(v)
    else Success(zero)
  }

  /** Success exactly for a 2xx status whose body is empty or decodes; an empty body
      gives the zero value; every other status is an error with a non-empty code, the
      same whatever `RaiseOnError` says; a body that does not decode is `INTERNAL_ERROR`. */
  lemma InterpretOutcome<T>(raiseOnError: bool, status: int, statusText: string, body: seq<byte>,
      flat: Option<APIError>, nested: Option<APIError>, decoded: Result<T, string>, zero: T)
    ensures var r := Interpret(raiseOnError, status, statusText, body, flat, nested, decoded, zero);
      && (r.Success? <==> IsSuccessStatus(status) && (|body| == 0 || decoded.Success?))
      && (IsSuccessStatus(status) && |body| == 0 ==> r == Success(zero))
      && (IsSuccessStatus(status) && |body| > 0 && decoded.Success? ==> r == Success(decoded.value))
      && (IsSuccessStatus(status) && |body| > 0 && decoded.Failure? ==>
            r == Failure(APIError(InternalError, decoded.error)))
      && (!IsSuccessStatus(status) ==> r == Failure(NormalizeError(statusText, flat, nested)) && r.error.code != "")
      && r == Interpret(!raiseOnError, status, statusText, body, flat, nested, decoded, zero)
  {
  }

  /** The segments a router reads from an absolute path. */
  function Segments(path: string): seq<string> {
    if |path| > 0 && path[0] == '/' then Strings.Split(path[1..], '/') else [path]
  }

  /** Identifiers are inserted into paths verbatim: as long as none holds a `/`, the
      path built from segments reads back as exactly those segments. */
  lemma SegmentsOfJoin(segs: seq<string>)
    requires |segs| >= 1
    requires forall i :: 0 <= i < |segs| ==> '/' !in segs[i]
    ensures Segments("/" + Strings.Join(segs, '/')) == segs
  {
    var path := "/" + Strings.Join(segs, '/');
    assert path[1..] == Strings.Join(segs, '/');
    Strings.SplitJoin(segs, '/');
  }

  /** The request the transport receives: the verb, the client URL followed by the
      path, the headers after the options, and the encoded body. */
  function Outgoing(c: Config, call: Call, body: Option<seq<byte>>): HttpRequest {
    HttpRequest(VerbName(call.verb), c.url + call.path, ApplyRequestOptions(DefaultHeaders(c.key), call.opts), body)
  }

  /** Everything `request` does, as a function of the client and the oracles. */
  function Perform<T>(c: Config, call: Call, io: Io<T>): Result<T, APIError> {
    var encoded := if call.body.Some? then Some(io.marshal(call.body.value)) else None;
    if encoded.Some? && encoded.value.Failure? then Failure(APIError(InternalError, encoded.value.error))
    else
      var body := if encoded.Some? then Some(encoded.value.value) else None;
      var bad := io.newRequest(VerbName(call.verb), c.url + call.path);
      if bad.Some? then Failure(APIError(InternalError, bad.value))
      else
        match io.transport(c.httpClient, Outgoing(c, call, body))
        case TransportError(msg) => Failure(APIError(InternalError, msg))
        case Response(status, text, bytes) =>
          Interpret(c.raiseOnError, status, text, bytes, io.decodeFlat(bytes), io.decodeNested(bytes),
            io.decodeResult(bytes), io.zero)
  }

  /** A failure before any response (encoding, request construction, transport) is an
      `INTERNAL_ERROR` carrying the underlying message. */
  lemma EarlyFailures<T>(c: Config, call: Call, io: Io<T>)
    ensures call.body.Some? && io.marshal(call.body.value).Failure? ==>
      Perform(c, call, io) == Failure(APIError(InternalError, io.marshal(call.body.value).error))
    ensures ((call.body.None? || io.marshal(call.body.value).Success?)
      && io.newRequest(VerbName(call.verb), c.url + call.path).Some?) ==>
      Perform(c, call, io) == Failure(APIError(InternalError, io.newRequest(VerbName(call.verb), c.url + call.path).value))
    ensures ((call.body.None? || io.marshal(call.body.value).Success?)
      && io.newRequest(VerbName(call.verb), c.url + call.path).None?) ==>
      var body := if call.body.Some? then Some(io.marshal(call.body.value).value) else None;
      var sent := io.transport(c.httpClient, Outgoing(c, call, body));
      sent.TransportError? ==> Perform(c, call, io) == Failure(APIError(InternalError, sent.message))
  {
  }

  /** `request`: encode the body, build the request, set the default headers, run the
      request options, send, then classify the response. */
  method Request<T>(client: Client, call: Call, io: Io<T>) returns (r: Result<T, APIError>)
    ensures r == Perform(client.Settings(), call, io)
  {
    var reqBody: Option<seq<byte>> := None;
    if call.body.Some? {
      var jsonData := io.marshal(call.body.value);
      if jsonData.Failure? {
        return Failure(APIError(InternalError, jsonData.error));
      }
      reqBody := Some(jsonData.value);
    }
    var verb := VerbName(call.verb);
    var url := client.url + call.path;
    var bad := io.newRequest(verb, url);
    if bad.Some? {
      return Failure(APIError(InternalError, bad.value));
    }
    var headers: map<string, string> := map[];
    headers := headers["Authorization" := "Bearer " + client.key];
    headers := headers["Content-Type" := "application/json"];
    for i := 0 to |call.opts|
      invariant headers == ApplyRequestOptions(DefaultHeaders(client.key), call.opts[..i])
    {
      assert call.opts[..i + 1][..i] == call.opts[..i];
      headers := headers[call.opts[i].name := call.opts[i].value];
    }
    assert call.opts[..|call.opts|] == call.opts;
    var resp := io.transport(client.httpClient, HttpRequest(verb, url, headers, reqBody));
    if resp.TransportError? {
      return Failure(APIError(InternalError, resp.message));
    }
    if resp.status < 200 || resp.status >= 300 {
      var apiErr: APIError;
      var flat := io.decodeFlat(resp.body);
      apiErr := if flat.Some? then flat.value else APIError("", "");
      if flat.None? || apiErr.code == "" {
        var nested := io.decodeNested(resp.body);
        if nested.Some? && nested.value.code != "" {
          apiErr := nested.value;
        } else {
          apiErr := APIError(InternalServerError, resp.statusText);
        }
      }
      if client.raiseOnError {
        return Failure(apiErr);
      }
      return Failure(apiErr);
    }
    var result := io.zero;
    if |resp.body| > 0 {
      var decoded := io.decodeResult(resp.body);
      if decoded.Failure? {
        return Failure(APIError(InternalError, decoded.error));
      }
      result := decoded.value;
    }
    return Success(result);
  }

  /** The error test of client_test.go: a 400 whose body decodes flat as
      `{BAD_REQUEST, fail}` yields exactly that error. */
  lemma FlatErrorReturnedUnchanged<T>(raiseOnError: bool, statusText: string, body: seq<byte>,
      nested: Option<APIError>, decoded: Result<T, string>, zero: T)
    ensures Interpret(raiseOnError, 400, statusText, body, Some(APIError("BAD_REQUEST", "fail")), nested, decoded, zero)
      == Failure(APIError("BAD_REQUEST", "fail"))
  {
  }
}
