/** pkg/unsent/events.go: listing email events, the query built by `buildQueryParams`. */
module Events {
  import opened Wrappers
  import Fmt
  import Query
  import Client

  /** `GetEventsParams`. */
  datatype GetEventsParams = GetEventsParams(
    page: Option<int>, limit: Option<int>, status: Option<string>, startDate: Option<Fmt.Time>)

  const Path: string := "/events"

  /** The map `List` passes to `buildQueryParams`. */
  function QueryMap(params: GetEventsParams): map<string, Query.ParamValue> {
    map[
      "page" := Query.IntPtr(params.page),
      "limit" := Query.IntPtr(params.limit),
      "status" := Query.EnumPtr(Query.GetEventsParamsStatus, params.status),
      "startDate" := Query.TimePtr(params.startDate)]
  }

  predicate NoneSet(params: GetEventsParams) {
    params.page.None? && params.limit.None? && params.status.None? && params.startDate.None?
  }

  /** The fragments the set fields yield, listed in the struct's field order. */
  function ExpectedFragments(params: GetEventsParams, f: Fmt.Formatters): seq<string> {
    (if params.page.Some? then ["page=" + Fmt.IntToDecimal(params.page.value)] else [])
    + (if params.limit.Some? then ["limit=" + Fmt.IntToDecimal(params.limit.value)] else [])
    + (if params.status.Some? then ["status=" + params.status.value] else [])
    + (if params.startDate.Some? then ["startDate=" + f.rfc3339(params.startDate.value)] else [])
  }

  lemma QueryMapNoneContribute(params: GetEventsParams)
    ensures Query.NoneContribute(QueryMap(params)) <==> NoneSet(params)
  {
    var m := QueryMap(params);
    assert m["page"] == Query.IntPtr(params.page);
    assert m["limit"] == Query.IntPtr(params.limit);
    assert m["status"] == Query.EnumPtr(Query.GetEventsParamsStatus, params.status);
    assert m["startDate"] == Query.TimePtr(params.startDate);
  }

  /** `List`: `/events`, followed by `?` and the query only when the query is not
      empty; a GET without body. */
  method List(params: GetEventsParams, order: seq<string>, f: Fmt.Formatters) returns (call: Client.Call)
    requires Query.IsIterationOrder(order, QueryMap(params))
    ensures call == Client.Get(Query.WithQuery(Path, Query.QueryString(QueryMap(params), order, f)), [])
    ensures call.path == Path <==> NoneSet(params)
  {
    var path := Path;
    var query := Query.BuildQueryParams(QueryMap(params), order, f);
    if query != "" {
      path := path + "?" + query;
    }
    QueryMapNoneContribute(params);
    call := Client.Get(path, []);
  }

  lemma FragmentOfEach(params: GetEventsParams, f: Fmt.Formatters)
    ensures Query.FragmentOf(QueryMap(params), "page", f) ==
      if params.page.Some? then ["page=" + Fmt.IntToDecimal(params.page.value)] else []
    ensures Query.FragmentOf(QueryMap(params), "limit", f) ==
      if params.limit.Some? then ["limit=" + Fmt.IntToDecimal(params.limit.value)] else []
    ensures Query.FragmentOf(QueryMap(params), "status", f) ==
      if params.status.Some? then ["status=" + params.status.value] else []
    ensures Query.FragmentOf(QueryMap(params), "startDate", f) ==
      if params.startDate.Some? then ["startDate=" + f.rfc3339(params.startDate.value)] else []
  {
    var m := QueryMap(params);
    assert m["page"] == Query.IntPtr(params.page) && "page" + "=" == "page=";
    assert m["limit"] == Query.IntPtr(params.limit) && "limit" + "=" == "limit=";
    assert m["status"] == Query.EnumPtr(Query.GetEventsParamsStatus, params.status) && "status" + "=" == "status=";
    assert m["startDate"] == Query.TimePtr(params.startDate) && "startDate" + "=" == "startDate=";
  }

  lemma InFieldOrder(params: GetEventsParams, f: Fmt.Formatters)
    ensures Query.Fragments(QueryMap(params), ["page", "limit", "status", "startDate"], f)
      == ExpectedFragments(params, f)
  {
    var m := QueryMap(params);
    var page, limit := Query.FragmentOf(m, "page", f), Query.FragmentOf(m, "limit", f);
    var status, start := Query.FragmentOf(m, "status", f), Query.FragmentOf(m, "startDate", f);
    assert Query.Fragments(m, ["page"], f) == page by {
      Query.FragmentsSnoc(m, [], "page", f);
      assert [] + ["page"] == ["page"];
    }
    assert Query.Fragments(m, ["page", "limit"], f) == page + limit by {
      Query.FragmentsSnoc(m, ["page"], "limit", f);
      assert ["page"] + ["limit"] == ["page", "limit"];
    }
    assert Query.Fragments(m, ["page", "limit", "status"], f) == page + limit + status by {
      Query.FragmentsSnoc(m, ["page", "limit"], "status", f);
      assert ["page", "limit"] + ["status"] == ["page", "limit", "status"];
    }
    assert Query.Fragments(m, ["page", "limit", "status", "startDate"], f) == page + limit + status + start by {
      Query.FragmentsSnoc(m, ["page", "limit", "status"], "startDate", f);
      assert ["page", "limit", "status"] + ["startDate"] == ["page", "limit", "status", "startDate"];
    }
    FragmentOfEach(params, f);
  }

  /** Whatever order the map is visited in, the query holds one fragment per set
      field among page, limit, status and startDate, and nothing else. */
  lemma QueryContent(params: GetEventsParams, order: seq<string>, f: Fmt.Formatters)
    requires Query.IsIterationOrder(order, QueryMap(params))
    ensures multiset(Query.Fragments(QueryMap(params), order, f)) == multiset(ExpectedFragments(params, f))
  {
    var canon := ["page", "limit", "status", "startDate"];
    assert Query.IsIterationOrder(canon, QueryMap(params));
    Query.OrderIndependent(QueryMap(params), order, canon, f);
    InFieldOrder(params, f);
  }
}
