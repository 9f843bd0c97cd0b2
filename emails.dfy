/** pkg/unsent/emails.go: the calls `EmailsClient` hands to the generic request. */
module Emails {
  import opened Wrappers
  import Strings
  import Fmt
  import Query
  import AdHoc
  import Client

  /** `ListEmailsParams`: page and limit are strings, the dates times. */
  datatype ListEmailsParams = ListEmailsParams(
    page: Option<string>, limit: Option<string>, startDate: Option<Fmt.Time>, endDate: Option<Fmt.Time>)

  /** `GetBouncesParams`, `GetComplaintsParams`, `GetUnsubscribesParams`: float32 page and limit. */
  datatype ReportParams = ReportParams(page: Option<real>, limit: Option<real>)

  /** `GetEmailEventsParams`. */
  datatype GetEmailEventsParams = GetEmailEventsParams(
    page: Option<int>, limit: Option<int>, status: Option<string>, startDate: Option<Fmt.Time>)

  /** The three report listings that share one shape. */
  datatype Report = Bounces | Complaints | Unsubscribes

  /** `Create`: POST the payload to `/emails`. */
  function Create(payload: Client.Payload, opts: seq<Client.RequestOption>): Client.Call {
    Client.Post("/emails", payload, opts)
  }

  /** `Send` is an alias: the very call `Create` makes. */
  function Send(payload: Client.Payload, opts: seq<Client.RequestOption>): (c: Client.Call)
    ensures c == Create(payload, opts)
  {
    Create(payload, opts)
  }

  /** `Batch`: POST the list of emails to `/emails/batch`. */
  function Batch(emails: Client.Payload, opts: seq<Client.RequestOption>): Client.Call {
    Client.Post("/emails/batch", emails, opts)
  }

  /** The sending calls: `Send` makes exactly the call `Create` makes, a POST of the
      payload to `/emails`; `Batch` POSTs to `/emails/batch`; both pass the request
      options through untouched, and the two routes differ. */
  lemma SendingRoutes(payload: Client.Payload, opts: seq<Client.RequestOption>)
    ensures Send(payload, opts) == Create(payload, opts)
    ensures Create(payload, opts).verb == Client.POST && Create(payload, opts).body == Some(payload)
    ensures Create(payload, opts).opts == opts && Batch(payload, opts).opts == opts
    ensures Batch(payload, opts).verb == Client.POST && Batch(payload, opts).body == Some(payload)
    ensures Client.Segments(Create(payload, opts).path) == ["emails"]
    ensures Client.Segments(Batch(payload, opts).path) == ["emails", "batch"]
  {
    assert Client.Segments("/emails") == ["emails"] by {
      assert "/" + Strings.Join(["emails"], '/') == "/emails";
      Client.SegmentsOfJoin(["emails"]);
    }
    assert Client.Segments("/emails/batch") == ["emails", "batch"] by {
      assert Strings.Join(["emails", "batch"], '/') == "emails" + "/" + "batch" by {
        assert ["emails", "batch"][1..] == ["batch"];
      }
      assert "/" + ("emails" + "/" + "batch") == "/emails/batch";
      Client.SegmentsOfJoin(["emails", "batch"]);
    }
  }

  function EmailPath(emailID: string): string {
    "/emails/" + emailID
  }

  function Get(emailID: string): Client.Call {
    Client.Get(EmailPath(emailID), [])
  }

  function Update(emailID: string, payload: Client.Payload): Client.Call {
    Client.Patch(EmailPath(emailID), payload, [])
  }

  /** `Cancel` posts an empty JSON object. */
  function Cancel(emailID: string): Client.Call {
    Client.Post(EmailPath(emailID) + "/cancel", Client.EmptyObject, [])
  }

  /** Where the single-email calls go: `Get` and `Update` share `/emails/{id}` with
      GET and PATCH, `Cancel` POSTs `{}` to `/emails/{id}/cancel`, and a router reads
      the id back from the path whenever it holds no `/`. */
  lemma SingleEmailRoutes(emailID: string, payload: Client.Payload)
    requires '/' !in emailID
    ensures Get(emailID).verb == Client.GET && Get(emailID).body.None?
    ensures Update(emailID, payload).verb == Client.PATCH && Update(emailID, payload).body == Some(payload)
    ensures Get(emailID).path == Update(emailID, payload).path
    ensures Cancel(emailID).verb == Client.POST && Cancel(emailID).body == Some(Client.EmptyObject)
    ensures Client.Segments(Get(emailID).path) == ["emails", emailID]
    ensures Client.Segments(Cancel(emailID).path) == ["emails", emailID, "cancel"]
  {
    assert Strings.Join(["emails", emailID], '/') == "emails/" + emailID by {
      assert ["emails", emailID][1..] == [emailID];
    }
    assert "/" + Strings.Join(["emails", emailID], '/') == Get(emailID).path;
    Client.SegmentsOfJoin(["emails", emailID]);
    assert Strings.Join(["emails", emailID, "cancel"], '/') == "emails/" + emailID + "/cancel" by {
      assert ["emails", emailID, "cancel"][1..] == [emailID, "cancel"];
      assert [emailID, "cancel"][1..] == ["cancel"];
    }
    assert "/" + Strings.Join(["emails", emailID, "cancel"], '/') == Cancel(emailID).path;
    Client.SegmentsOfJoin(["emails", emailID, "cancel"]);
  }

  /** The parameters of `List`, in the order its `if`s append them. */
  function ListParams(params: ListEmailsParams, f: Fmt.Formatters): seq<AdHoc.Param> {
    [ AdHoc.Param("page", params.page),
      AdHoc.Param("limit", params.limit),
      AdHoc.Param("startDate", params.startDate.Map(f.utcLayout)),
      AdHoc.Param("endDate", params.endDate.Map(f.utcLayout)) ]
  }

  /** `List`: `/emails?`, then `page=…&`, `limit=…&`, `startDate=…&`, `endDate=…&` for
      each set parameter, page and limit verbatim; a GET without body. */
  method List(params: ListEmailsParams, f: Fmt.Formatters) returns (call: Client.Call)
    ensures call == Client.Get(AdHoc.WithParams("/emails?", ListParams(params, f)), [])
    ensures Strings.StartsWith(call.path, "/emails?")
    ensures call.path == "/emails?" <==>
      params.page.None? && params.limit.None? && params.startDate.None? && params.endDate.None?
    ensures !(params.page.None? && params.limit.None? && params.startDate.None? && params.endDate.None?) ==>
      Strings.EndsWith(call.path, "&")
  {
    ghost var ps := ListParams(params, f);
    var path := "/emails?";
    path := AdHoc.Append(path, "page", params.page);
    assert path == AdHoc.WithParams("/emails?", ps[..1]) by { AdHoc.WithParamsNext("/emails?", ps, 0); }
    path := AdHoc.Append(path, "limit", params.limit);
    assert path == AdHoc.WithParams("/emails?", ps[..2]) by { AdHoc.WithParamsNext("/emails?", ps, 1); }
    path := AdHoc.Append(path, "startDate", params.startDate.Map(f.utcLayout));
    assert path == AdHoc.WithParams("/emails?", ps[..3]) by { AdHoc.WithParamsNext("/emails?", ps, 2); }
    path := AdHoc.Append(path, "endDate", params.endDate.Map(f.utcLayout));
    assert path == AdHoc.WithParams("/emails?", ps) by {
      AdHoc.WithParamsNext("/emails?", ps, 3);
      assert ps[..4] == ps;
    }
    AdHoc.WithParamsBounds("/emails?", ps);
    ListNoneSet(params, f);
    call := Client.Get(path, []);
  }

  lemma ListNoneSet(params: ListEmailsParams, f: Fmt.Formatters)
    ensures AdHoc.NoneSet(ListParams(params, f)) <==>
      params.page.None? && params.limit.None? && params.startDate.None? && params.endDate.None?
  {
    var ps := ListParams(params, f);
    assert ps[0].text == params.page && ps[1].text == params.limit;
    assert ps[2].text.None? <==> params.startDate.None?;
    assert ps[3].text.None? <==> params.endDate.None?;
  }

  /** The test of emails_test.go: page "1" and limit "50" give
      `/emails?page=1&limit=50&`. */
  lemma ListPageAndLimit(f: Fmt.Formatters)
    ensures AdHoc.WithParams("/emails?", ListParams(ListEmailsParams(Some("1"), Some("50"), None, None), f))
      == "/emails?page=1&limit=50&"
  {
    var ps := ListParams(ListEmailsParams(Some("1"), Some("50"), None, None), f);
    assert AdHoc.WithParams("/emails?", ps[..1]) == "/emails?page=1&" by {
      AdHoc.WithParamsNext("/emails?", ps, 0);
      assert AdHoc.Step(ps[0]) == "page=1&";
    }
    assert AdHoc.WithParams("/emails?", ps[..2]) == "/emails?page=1&limit=50&" by {
      AdHoc.WithParamsNext("/emails?", ps, 1);
      assert AdHoc.Step(ps[1]) == "limit=50&";
    }
    assert AdHoc.WithParams("/emails?", ps[..3]) == "/emails?page=1&limit=50&" by {
      AdHoc.WithParamsNext("/emails?", ps, 2);
    }
    assert AdHoc.WithParams("/emails?", ps[..4]) == "/emails?page=1&limit=50&" by {
      AdHoc.WithParamsNext("/emails?", ps, 3);
    }
    assert ps[..4] == ps;
  }

  function ReportPrefix(report: Report): string {
    match report
    case Bounces => "/emails/bounces?"
    case Complaints => "/emails/complaints?"
    case Unsubscribes => "/emails/unsubscribes?"
  }

  function ReportParamList(params: ReportParams, f: Fmt.Formatters): seq<AdHoc.Param> {
    [ AdHoc.Param("page", params.page.Map(f.float32)),
      AdHoc.Param("limit", params.limit.Map(f.float32)) ]
  }

  /** `GetBounces`, `GetComplaints`, `GetUnsubscribes`: the report's prefix, then
      `page=…&` before `limit=…&`, both `%f`-formatted, each only when set. */
  method GetReport(report: Report, params: ReportParams, f: Fmt.Formatters) returns (call: Client.Call)
    ensures call == Client.Get(AdHoc.WithParams(ReportPrefix(report), ReportParamList(params, f)), [])
    ensures Strings.StartsWith(call.path, ReportPrefix(report))
    ensures call.path == ReportPrefix(report) <==> params.page.None? && params.limit.None?
  {
    ghost var ps := ReportParamList(params, f);
    var path := ReportPrefix(report);
    path := AdHoc.Append(path, "page", params.page.Map(f.float32));
    AdHoc.WithParamsNext(ReportPrefix(report), ps, 0);
    path := AdHoc.Append(path, "limit", params.limit.Map(f.float32));
    AdHoc.WithParamsNext(ReportPrefix(report), ps, 1);
    assert ps[..2] == ps;
    AdHoc.WithParamsBounds(ReportPrefix(report), ps);
    assert AdHoc.NoneSet(ps) <==> params.page.None? && params.limit.None? by {
      assert ps[0].text == params.page.Map(f.float32) && ps[1].text == params.limit.Map(f.float32);
    }
    call := Client.Get(path, []);
  }

  /** The parameter map `GetEvents` passes to `buildQueryParams`. */
  function EventsQueryMap(params: GetEmailEventsParams): map<string, Query.ParamValue> {
    map[
      "page" := Query.IntPtr(params.page),
      "limit" := Query.IntPtr(params.limit),
      "status" := Query.EnumPtr(Query.GetEmailEventsParamsStatus, params.status),
      "startDate" := Query.TimePtr(params.startDate)]
  }

  function EventsPath(emailID: string): string {
    "/emails/" + emailID + "/events"
  }

  /** The fragments a set field yields, listed in the struct's field order. */
  function EventsFragments(params: GetEmailEventsParams, f: Fmt.Formatters): seq<string> {
    (if params.page.Some? then ["page=" + Fmt.IntToDecimal(params.page.value)] else [])
    + (if params.limit.Some? then ["limit=" + Fmt.IntToDecimal(params.limit.value)] else [])
    + (if params.status.Some? then ["status=" + params.status.value] else [])
    + (if params.startDate.Some? then ["startDate=" + f.rfc3339(params.startDate.value)] else [])
  }

  /** `GetEvents`: `/emails/{id}/events`, with `?` and the query appended only when
      `buildQueryParams` returns something. */
  method GetEvents(emailID: string, params: GetEmailEventsParams, order: seq<string>, f: Fmt.Formatters)
    returns (call: Client.Call)
    requires Query.IsIterationOrder(order, EventsQueryMap(params))
    ensures call == Client.Get(Query.WithQuery(EventsPath(emailID), Query.QueryString(EventsQueryMap(params), order, f)), [])
    ensures call.path == EventsPath(emailID) <==>
      params.page.None? && params.limit.None? && params.status.None? && params.startDate.None?
  {
    var path := EventsPath(emailID);
    var query := Query.BuildQueryParams(EventsQueryMap(params), order, f);
    if query != "" {
      path := path + "?" + query;
    }
    EventsNoneContribute(params);
    call := Client.Get(path, []);
  }

  lemma EventsNoneContribute(params: GetEmailEventsParams)
    ensures Query.NoneContribute(EventsQueryMap(params)) <==>
      params.page.None? && params.limit.None? && params.status.None? && params.startDate.None?
  {
    var m := EventsQueryMap(params);
    assert m["page"] == Query.IntPtr(params.page);
    assert m["limit"] == Query.IntPtr(params.limit);
    assert m["status"] == Query.EnumPtr(Query.GetEmailEventsParamsStatus, params.status);
    assert m["startDate"] == Query.TimePtr(params.startDate);
  }

  /** The fragment each key of the `GetEvents` map adds. */
  lemma EventsFragmentOf(params: GetEmailEventsParams, f: Fmt.Formatters)
    ensures Query.FragmentOf(EventsQueryMap(params), "page", f) ==
      if params.page.Some? then ["page=" + Fmt.IntToDecimal(params.page.value)] else []
    ensures Query.FragmentOf(EventsQueryMap(params), "limit", f) ==
      if params.limit.Some? then ["limit=" + Fmt.IntToDecimal(params.limit.value)] else []
    ensures Query.FragmentOf(EventsQueryMap(params), "status", f) ==
      if params.status.Some? then ["status=" + params.status.value] else []
    ensures Query.FragmentOf(EventsQueryMap(params), "startDate", f) ==
      if params.startDate.Some? then ["startDate=" + f.rfc3339(params.startDate.value)] else []
  {
    var m := EventsQueryMap(params);
    assert m["page"] == Query.IntPtr(params.page) && "page" + "=" == "page=";
    assert m["limit"] == Query.IntPtr(params.limit) && "limit" + "=" == "limit=";
    assert m["status"] == Query.EnumPtr(Query.GetEmailEventsParamsStatus, params.status) && "status" + "=" == "status=";
    assert m["startDate"] == Query.TimePtr(params.startDate) && "startDate" + "=" == "startDate=";
  }

  /** Visited in the struct's field order, the map yields `EventsFragments`. */
  lemma EventsInFieldOrder(params: GetEmailEventsParams, f: Fmt.Formatters)
    ensures Query.Fragments(EventsQueryMap(params), ["page", "limit", "status", "startDate"], f)
      == EventsFragments(params, f)
  {
    var m := EventsQueryMap(params);
    var page, limit := Query.FragmentOf(m, "page", f), Query.FragmentOf(m, "limit", f);
    var status, start := Query.FragmentOf(m, "status", f), Query.FragmentOf(m, "startDate", f);
    assert Query.Fragments(m, ["page"], f) == page by {
      Query.FragmentsSnoc(m, [], "page", f);
      assert [] + ["page"] == ["page"];
    }
    assert Query.Fragments(m, ["page", "limit"], f) == page + limit by {
      Query.FragmentsSnoc(m, ["page"], "limit", f);
      assert ["page"] + ["limit"] == ["page", "limit"];
    }
    assert Query.Fragments(m, ["page", "limit", "status"], f) == page + limit + status by {
      Query.FragmentsSnoc(m, ["page", "limit"], "status", f);
      assert ["page", "limit"] + ["status"] == ["page", "limit", "status"];
    }
    assert Query.Fragments(m, ["page", "limit", "status", "startDate"], f) == page + limit + status + start by {
      Query.FragmentsSnoc(m, ["page", "limit", "status"], "startDate", f);
      assert ["page", "limit", "status"] + ["startDate"] == ["page", "limit", "status", "startDate"];
    }
    EventsFragmentOf(params, f);
  }

  /** Whatever order the map is visited in, the query holds exactly one fragment per
      set field among page, limit, status and startDate, and nothing else. */
  lemma EventsQueryContent(params: GetEmailEventsParams, order: seq<string>, f: Fmt.Formatters)
    requires Query.IsIterationOrder(order, EventsQueryMap(params))
    ensures multiset(Query.Fragments(EventsQueryMap(params), order, f)) == multiset(EventsFragments(params, f))
  {
    var canon := ["page", "limit", "status", "startDate"];
    assert Query.IsIterationOrder(canon, EventsQueryMap(params));
    Query.OrderIndependent(EventsQueryMap(params), order, canon, f);
    EventsInFieldOrder(params, f);
  }
}
