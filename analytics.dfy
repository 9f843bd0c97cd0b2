/** pkg/unsent/analytics.go: overall analytics, a time series through
    `buildQueryParams`, and the reputation call with its ad-hoc query. */
module Analytics {
  import opened Wrappers
  import Strings
  import Fmt
  import Query
  import AdHoc
  import Client

  /** `GetTimeSeriesParams`. */
  datatype GetTimeSeriesParams = GetTimeSeriesParams(days: Option<int>, domain: Option<string>)

  /** `GetReputationParams`. */
  datatype GetReputationParams = GetReputationParams(domain: Option<string>)

  const TimeSeriesPath: string := "/analytics/time-series"
  const ReputationPrefix: string := "/analytics/reputation?"

  /** `Get`: a plain GET of `/analytics`. */
  function Get(): (call: Client.Call)
    ensures call.verb == Client.GET && call.body.None? && call.opts == []
    ensures call.path == "/analytics"
  {
    Client.Get("/analytics", [])
  }

  /** The map `GetTimeSeries` passes to `buildQueryParams`. */
  function TimeSeriesMap(params: GetTimeSeriesParams): map<string, Query.ParamValue> {
    map["days" := Query.IntPtr(params.days), "domain" := Query.StringPtr(params.domain)]
  }

  function TimeSeriesFragments(params: GetTimeSeriesParams): seq<string> {
    (if params.days.Some? then ["days=" + Fmt.IntToDecimal(params.days.value)] else [])
    + (if params.domain.Some? then ["domain=" + params.domain.value] else [])
  }

  lemma TimeSeriesNoneContribute(params: GetTimeSeriesParams)
    ensures Query.NoneContribute(TimeSeriesMap(params)) <==> params.days.None? && params.domain.None?
  {
    var m := TimeSeriesMap(params);
    assert m["days"] == Query.IntPtr(params.days);
    assert m["domain"] == Query.StringPtr(params.domain);
  }

  /** `GetTimeSeries`: `/analytics/time-series`, followed by `?` and the query only
      when the query is not empty; a GET without body. */
  method GetTimeSeries(params: GetTimeSeriesParams, order: seq<string>, f: Fmt.Formatters)
    returns (call: Client.Call)
    requires Query.IsIterationOrder(order, TimeSeriesMap(params))
    ensures call == Client.Get(Query.WithQuery(TimeSeriesPath, Query.QueryString(TimeSeriesMap(params), order, f)), [])
    ensures call.path == TimeSeriesPath <==> params.days.None? && params.domain.None?
  {
    var path := TimeSeriesPath;
    var query := Query.BuildQueryParams(TimeSeriesMap(params), order, f);
    if query != "" {
      path := path + "?" + query;
    }
    TimeSeriesNoneContribute(params);
    call := Client.Get(path, []);
  }

  /** Visited in the struct's field order, the map yields `TimeSeriesFragments`. */
  lemma TimeSeriesInFieldOrder(params: GetTimeSeriesParams, f: Fmt.Formatters)
    ensures Query.Fragments(TimeSeriesMap(params), ["days", "domain"], f) == TimeSeriesFragments(params)
  {
    var m := TimeSeriesMap(params);
    assert Query.FragmentOf(m, "days", f) ==
      if params.days.Some? then ["days=" + Fmt.IntToDecimal(params.days.value)] else [] by {
      assert m["days"] == Query.IntPtr(params.days) && "days" + "=" == "days=";
    }
    assert Query.FragmentOf(m, "domain", f) ==
      if params.domain.Some? then ["domain=" + params.domain.value] else [] by {
      assert m["domain"] == Query.StringPtr(params.domain) && "domain" + "=" == "domain=";
    }
    assert Query.Fragments(m, ["days", "domain"], f) == Query.FragmentOf(m, "days", f) + Query.FragmentOf(m, "domain", f) by {
      Query.FragmentsSnoc(m, [], "days", f);
      Query.FragmentsSnoc(m, ["days"], "domain", f);
      assert [] + ["days"] == ["days"];
      assert ["days"] + ["domain"] == ["days", "domain"];
    }
  }

  /** Whatever order the map is visited in, the query holds `days=` in decimal and
      `domain=` verbatim for the fields that are set, and nothing else. */
  lemma TimeSeriesQueryContent(params: GetTimeSeriesParams, order: seq<string>, f: Fmt.Formatters)
    requires Query.IsIterationOrder(order, TimeSeriesMap(params))
    ensures multiset(Query.Fragments(TimeSeriesMap(params), order, f)) == multiset(TimeSeriesFragments(params))
  {
    var canon := ["days", "domain"];
    assert Query.IsIterationOrder(canon, TimeSeriesMap(params));
    Query.OrderIndependent(TimeSeriesMap(params), order, canon, f);
    TimeSeriesInFieldOrder(params, f);
  }

  /** The domain is inserted without escaping: a domain holding `&` reads back as
      more than one fragment, so splitting recovers the fields only when it holds none. */
  lemma TimeSeriesReadsBack(params: GetTimeSeriesParams, order: seq<string>, f: Fmt.Formatters)
    requires Query.IsIterationOrder(order, TimeSeriesMap(params))
    requires params.days.Some? || params.domain.Some?
    requires params.domain.Some? ==> '&' !in params.domain.value
    ensures var parts := Strings.Split(Query.QueryString(TimeSeriesMap(params), order, f), '&');
      parts == Query.Fragments(TimeSeriesMap(params), order, f)
      && multiset(parts) == multiset(TimeSeriesFragments(params))
  {
    var m := TimeSeriesMap(params);
    TimeSeriesNoneContribute(params);
    Query.QueryEmptyIff(m, order, f);
    forall k | k in m && Query.Contributes(m[k])
      ensures '&' !in k && '&' !in Query.FormatValue(m[k], f).value
    {
      if k == "days" {
        Fmt.IntToDecimalChars(m[k].intTarget.value);
      }
    }
    Query.SplitQuery(m, order, f);
    TimeSeriesQueryContent(params, order, f);
  }

  /** `GetReputation`: `/analytics/reputation?`, then `domain=…&` when a domain is set. */
  method GetReputation(params: GetReputationParams) returns (call: Client.Call)
    ensures params.domain.None? ==> call == Client.Get(ReputationPrefix, [])
    ensures params.domain.Some? ==> call == Client.Get(ReputationPrefix + "domain=" + params.domain.value + "&", [])
    ensures call.path == AdHoc.WithParams(ReputationPrefix, [AdHoc.Param("domain", params.domain)])
  {
    var path := ReputationPrefix;
    path := AdHoc.Append(path, "domain", params.domain);
    assert [AdHoc.Param("domain", params.domain)][1..] == [];
    if params.domain.Some? {
      assert "domain" + "=" == "domain=";
    }
    call := Client.Get(path, []);
  }
}
