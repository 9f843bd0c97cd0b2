/** pkg/unsent/suppressions.go: listing, adding and removing suppressed addresses. */
module Suppressions {
  import opened Wrappers
  import opened Errors
  import Strings
  import Fmt
  import AdHoc
  import Client

  /** `GetSuppressionsParams`: page and limit are float32, search and reason strings. */
  datatype GetSuppressionsParams = GetSuppressionsParams(
    page: Option<real>, limit: Option<real>, search: Option<string>, reason: Option<string>)

  /** `Suppression` (pkg/unsent/models.go). */
  datatype Suppression = Suppression(email: string, reason: string, source: string, createdAt: Fmt.Time)

  /** `GetSuppressionsResponse` (pkg/unsent/responses.go): the list sits under `data`. */
  datatype GetSuppressionsResponse = GetSuppressionsResponse(data: seq<Suppression>)

  const Prefix: string := "/suppressions?"

  /** The parameters of `List`, in the order its `if`s append them. */
  function ListParams(params: GetSuppressionsParams, f: Fmt.Formatters): seq<AdHoc.Param> {
    [ AdHoc.Param("page", params.page.Map(f.float32)),
      AdHoc.Param("limit", params.limit.Map(f.float32)),
      AdHoc.Param("search", params.search),
      AdHoc.Param("reason", params.reason) ]
  }

  lemma ListNoneSet(params: GetSuppressionsParams, f: Fmt.Formatters)
    ensures AdHoc.NoneSet(ListParams(params, f)) <==>
      params.page.None? && params.limit.None? && params.search.None? && params.reason.None?
  {
    var ps := ListParams(params, f);
    assert ps[2].text == params.search && ps[3].text == params.reason;
    assert ps[0].text.None? <==> params.page.None?;
    assert ps[1].text.None? <==> params.limit.None?;
  }

  /** The path `List` requests: `/suppressions?`, then `page=…&`, `limit=…&`,
      `search=…&`, `reason=…&` for each set parameter. */
  method ListCall(params: GetSuppressionsParams, f: Fmt.Formatters) returns (call: Client.Call)
    ensures call == Client.Get(AdHoc.WithParams(Prefix, ListParams(params, f)), [])
    ensures Strings.StartsWith(call.path, Prefix)
    ensures call.path == Prefix <==>
      params.page.None? && params.limit.None? && params.search.None? && params.reason.None?
    ensures !(params.page.None? && params.limit.None? && params.search.None? && params.reason.None?) ==>
      Strings.EndsWith(call.path, "&")
  {
    ghost var ps := ListParams(params, f);
    var path := Prefix;
    path := AdHoc.Append(path, "page", params.page.Map(f.float32));
    assert path == AdHoc.WithParams(Prefix, ps[..1]) by { AdHoc.WithParamsNext(Prefix, ps, 0); }
    path := AdHoc.Append(path, "limit", params.limit.Map(f.float32));
    assert path == AdHoc.WithParams(Prefix, ps[..2]) by { AdHoc.WithParamsNext(Prefix, ps, 1); }
    path := AdHoc.Append(path, "search", params.search);
    assert path == AdHoc.WithParams(Prefix, ps[..3]) by { AdHoc.WithParamsNext(Prefix, ps, 2); }
    path := AdHoc.Append(path, "reason", params.reason);
    assert path == AdHoc.WithParams(Prefix, ps) by {
      AdHoc.WithParamsNext(Prefix, ps, 3);
      assert ps[..4] == ps;
    }
    AdHoc.WithParamsBounds(Prefix, ps);
    ListNoneSet(params, f);
    call := Client.Get(path, []);
  }

  /** What `List` makes of the response: the error unchanged, or the `data` list. */
  function ListResult(resp: Result<GetSuppressionsResponse, APIError>): (r: Result<seq<Suppression>, APIError>)
    ensures r.Failure? <==> resp.Failure?
    ensures resp.Failure? ==> r.error == resp.error
    ensures resp.Success? ==> r.value == resp.value.data
  {
    match resp
    case Failure(err) => Failure(err)
    case Success(v) => Success(v.data)
  }

  /** `List`: send the GET and unwrap the envelope. */
  method List(client: Client.Client, params: GetSuppressionsParams, f: Fmt.Formatters,
      io: Client.Io<GetSuppressionsResponse>) returns (r: Result<seq<Suppression>, APIError>)
    ensures var call := Client.Get(AdHoc.WithParams(Prefix, ListParams(params, f)), []);
      r == ListResult(Client.Perform(client.Settings(), call, io))
  {
    var call := ListCall(params, f);
    var resp := Client.Request(client, call, io);
    if resp.Failure? {
      return Failure(resp.error);
    }
    return Success(resp.value.data);
  }

  /** An empty body on a 2xx leaves the zero envelope, so `List` returns an empty
      list; a decoded envelope gives exactly its `data`. */
  lemma ListSuccessIsData(raiseOnError: bool, status: int, statusText: string, body: seq<byte>,
      flat: Option<APIError>, nested: Option<APIError>, decoded: Result<GetSuppressionsResponse, string>)
    requires Client.IsSuccessStatus(status)
    ensures var zero := GetSuppressionsResponse([]);
      var r := ListResult(Client.Interpret(raiseOnError, status, statusText, body, flat, nested, decoded, zero));
      && (|body| == 0 ==> r == Success([]))
      && (|body| > 0 && decoded.Success? ==> r == Success(decoded.value.data))
      && (|body| > 0 && decoded.Failure? ==> r == Failure(APIError(Client.InternalError, decoded.error)))
  {
    Client.InterpretOutcome(raiseOnError, status, statusText, body, flat, nested, decoded, GetSuppressionsResponse([]));
  }

  /** `Add` posts the payload to `/suppressions`. */
  function Add(payload: Client.Payload): Client.Call {
    Client.Post("/suppressions", payload, [])
  }

  /** `Delete` puts the address in the path and sends no body. */
  function Delete(email: string): Client.Call {
    Client.Delete("/suppressions/email/" + email, None, [])
  }

  /** `Add` and `Delete` target different routes; a router splitting the `Delete` path
      on `/` reads the address back whenever it holds no `/`. */
  lemma Routes(email: string, payload: Client.Payload)
    requires '/' !in email
    ensures Add(payload).verb == Client.POST && Add(payload).body == Some(payload)
    ensures Delete(email).verb == Client.DELETE && Delete(email).body.None?
    ensures Add(payload).path != Delete(email).path
    ensures Client.Segments(Delete(email).path) == ["suppressions", "email", email]
  {
    DeleteSegments(email);
    assert |Add(payload).path| < |Delete(email).path|;
  }

  lemma DeleteSegments(email: string)
    requires '/' !in email
    ensures Client.Segments(Delete(email).path) == ["suppressions", "email", email]
  {
    var segs := ["suppressions", "email", email];
    assert Strings.Join(segs[1..], '/') == "email/" + email by {
      assert segs[1..][1..] == [email];
      assert segs[1..] == ["email", email];
      assert "email" + "/" == "email/";
    }
    assert Strings.Join(segs, '/') == "suppressions" + "/" + ("email/" + email);
    assert "/" + ("suppressions" + "/" + ("email/" + email)) == Delete(email).path;
    Client.SegmentsOfJoin(segs);
  }
}
