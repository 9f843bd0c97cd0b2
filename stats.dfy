/** pkg/unsent/stats.go: sending statistics over an optional date range. */
module Stats {
  import opened Wrappers
  import Fmt
  import Query
  import Client

  /** `GetStatsParams`. */
  datatype GetStatsParams = GetStatsParams(startDate: Option<Fmt.Time>, endDate: Option<Fmt.Time>)

  const Path: string := "/stats"

  /** The map `Get` passes to `buildQueryParams`. */
  function QueryMap(params: GetStatsParams): map<string, Query.ParamValue> {
    map["startDate" := Query.TimePtr(params.startDate), "endDate" := Query.TimePtr(params.endDate)]
  }

  /** Both dates in RFC 3339, for the ones that are set. */
  function ExpectedFragments(params: GetStatsParams, f: Fmt.Formatters): seq<string> {
    (if params.startDate.Some? then ["startDate=" + f.rfc3339(params.startDate.value)] else [])
    + (if params.endDate.Some? then ["endDate=" + f.rfc3339(params.endDate.value)] else [])
  }

  lemma QueryMapNoneContribute(params: GetStatsParams)
    ensures Query.NoneContribute(QueryMap(params)) <==> params.startDate.None? && params.endDate.None?
  {
    var m := QueryMap(params);
    assert m["startDate"] == Query.TimePtr(params.startDate);
    assert m["endDate"] == Query.TimePtr(params.endDate);
  }

  /** `Get`: `/stats`, followed by `?` and the query only when the query is not
      empty; a GET without body. */
  method Get(params: GetStatsParams, order: seq<string>, f: Fmt.Formatters) returns (call: Client.Call)
    requires Query.IsIterationOrder(order, QueryMap(params))
    ensures call == Client.Get(Query.WithQuery(Path, Query.QueryString(QueryMap(params), order, f)), [])
    ensures call.path == Path <==> params.startDate.None? && params.endDate.None?
  {
    var path := Path;
    var query := Query.BuildQueryParams(QueryMap(params), order, f);
    if query != "" {
      path := path + "?" + query;
    }
    QueryMapNoneContribute(params);
    call := Client.Get(path, []);
  }

  /** Visited in the struct's field order, the map yields `ExpectedFragments`. */
  lemma InFieldOrder(params: GetStatsParams, f: Fmt.Formatters)
    ensures Query.Fragments(QueryMap(params), ["startDate", "endDate"], f) == ExpectedFragments(params, f)
  {
    var m := QueryMap(params);
    assert Query.FragmentOf(m, "startDate", f) ==
      if params.startDate.Some? then ["startDate=" + f.rfc3339(params.startDate.value)] else [] by {
      assert m["startDate"] == Query.TimePtr(params.startDate) && "startDate" + "=" == "startDate=";
    }
    assert Query.FragmentOf(m, "endDate", f) ==
      if params.endDate.Some? then ["endDate=" + f.rfc3339(params.endDate.value)] else [] by {
      assert m["endDate"] == Query.TimePtr(params.endDate) && "endDate" + "=" == "endDate=";
    }
    assert Query.Fragments(m, ["startDate", "endDate"], f)
      == Query.FragmentOf(m, "startDate", f) + Query.FragmentOf(m, "endDate", f) by {
      Query.FragmentsSnoc(m, [], "startDate", f);
      Query.FragmentsSnoc(m, ["startDate"], "endDate", f);
      assert [] + ["startDate"] == ["startDate"];
      assert ["startDate"] + ["endDate"] == ["startDate", "endDate"];
    }
  }

  /** Whatever order the map is visited in, the query holds one RFC 3339 fragment per
      set date, and nothing else. */
  lemma QueryContent(params: GetStatsParams, order: seq<string>, f: Fmt.Formatters)
    requires Query.IsIterationOrder(order, QueryMap(params))
    ensures multiset(Query.Fragments(QueryMap(params), order, f)) == multiset(ExpectedFragments(params, f))
  {
    var canon := ["startDate", "endDate"];
    assert Query.IsIterationOrder(canon, QueryMap(params));
    Query.OrderIndependent(QueryMap(params), order, canon, f);
    InFieldOrder(params, f);
  }
}
