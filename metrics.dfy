/** pkg/unsent/metrics.go: performance metrics for an optional period. */
module Metrics {
  import opened Wrappers
  import Fmt
  import Query
  import Client

  /** `GetMetricsParams`: the period is a string enum. */
  datatype GetMetricsParams = GetMetricsParams(period: Option<string>)

  const Path: string := "/metrics"

  /** The map `Get` passes to `buildQueryParams`. */
  function QueryMap(params: GetMetricsParams): map<string, Query.ParamValue> {
    map["period" := Query.EnumPtr(Query.GetMetricsParamsPeriod, params.period)]
  }

  /** `Get`: `/metrics`, followed by `?` and the query only when the query is not
      empty; a GET without body. */
  method Get(params: GetMetricsParams, order: seq<string>, f: Fmt.Formatters) returns (call: Client.Call)
    requires Query.IsIterationOrder(order, QueryMap(params))
    ensures call == Client.Get(Query.WithQuery(Path, Query.QueryString(QueryMap(params), order, f)), [])
    ensures call.path == Path <==> params.period.None?
  {
    var path := Path;
    var query := Query.BuildQueryParams(QueryMap(params), order, f);
    if query != "" {
      path := path + "?" + query;
    }
    assert QueryMap(params)["period"] == Query.EnumPtr(Query.GetMetricsParamsPeriod, params.period);
    call := Client.Get(path, []);
  }

  /** With one key, the path is `/metrics` alone or `/metrics?period=` followed by the
      period verbatim, whatever the visiting order. */
  lemma PathOfPeriod(params: GetMetricsParams, order: seq<string>, f: Fmt.Formatters)
    requires Query.IsIterationOrder(order, QueryMap(params))
    ensures params.period.None? ==> Query.WithQuery(Path, Query.QueryString(QueryMap(params), order, f)) == Path
    ensures params.period.Some? ==>
      Query.WithQuery(Path, Query.QueryString(QueryMap(params), order, f)) == "/metrics?period=" + params.period.value
  {
    var m := QueryMap(params);
    var canon := ["period"];
    assert Query.IsIterationOrder(canon, m);
    Query.OrderIndependent(m, order, canon, f);
    assert Query.Fragments(m, canon, f) == Query.FragmentOf(m, "period", f) by {
      Query.FragmentsSnoc(m, [], "period", f);
      assert [] + ["period"] == canon;
    }
    assert m["period"] == Query.EnumPtr(Query.GetMetricsParamsPeriod, params.period);
    var frags := Query.Fragments(m, order, f);
    if params.period.Some? {
      var x := "period=" + params.period.value;
      assert "period" + "=" == "period=";
      assert multiset(frags) == multiset{x};
      assert |frags| == 1;
      assert frags[0] in multiset(frags);
      assert frags == [x];
      assert "/metrics" + "?" + x == "/metrics?period=" + params.period.value;
    } else {
      assert multiset(frags) == multiset{};
      assert |frags| == 0;
    }
  }
}
