/** pkg/unsent/activity.go: the activity feed, paged through `buildQueryParams`. */
module Activity {
  import opened Wrappers
  import Strings
  import Fmt
  import Query
  import Client

  /** `GetActivityParams`. */
  datatype GetActivityParams = GetActivityParams(page: Option<int>, limit: Option<int>)

  const Path: string := "/activity"

  /** The map `Get` passes to `buildQueryParams`. */
  function QueryMap(params: GetActivityParams): map<string, Query.ParamValue> {
    map["page" := Query.IntPtr(params.page), "limit" := Query.IntPtr(params.limit)]
  }

  function ExpectedFragments(params: GetActivityParams): seq<string> {
    (if params.page.Some? then ["page=" + Fmt.IntToDecimal(params.page.value)] else [])
    + (if params.limit.Some? then ["limit=" + Fmt.IntToDecimal(params.limit.value)] else [])
  }

  lemma QueryMapNoneContribute(params: GetActivityParams)
    ensures Query.NoneContribute(QueryMap(params)) <==> params.page.None? && params.limit.None?
  {
    var m := QueryMap(params);
    assert m["page"] == Query.IntPtr(params.page);
    assert m["limit"] == Query.IntPtr(params.limit);
  }

  /** `Get`: `/activity`, followed by `?` and the query only when the query is not
      empty; a GET without body. */
  method Get(params: GetActivityParams, order: seq<string>, f: Fmt.Formatters) returns (call: Client.Call)
    requires Query.IsIterationOrder(order, QueryMap(params))
    ensures call == Client.Get(Query.WithQuery(Path, Query.QueryString(QueryMap(params), order, f)), [])
    ensures call.path == Path <==> params.page.None? && params.limit.None?
  {
    var path := Path;
    var query := Query.BuildQueryParams(QueryMap(params), order, f);
    if query != "" {
      path := path + "?" + query;
    }
    QueryMapNoneContribute(params);
    call := Client.Get(path, []);
  }

  /** Visited in the struct's field order, the map yields `ExpectedFragments`. */
  lemma InFieldOrder(params: GetActivityParams, f: Fmt.Formatters)
    ensures Query.Fragments(QueryMap(params), ["page", "limit"], f) == ExpectedFragments(params)
  {
    var m := QueryMap(params);
    assert Query.FragmentOf(m, "page", f) ==
      if params.page.Some? then ["page=" + Fmt.IntToDecimal(params.page.value)] else [] by {
      assert m["page"] == Query.IntPtr(params.page) && "page" + "=" == "page=";
    }
    assert Query.FragmentOf(m, "limit", f) ==
      if params.limit.Some? then ["limit=" + Fmt.IntToDecimal(params.limit.value)] else [] by {
      assert m["limit"] == Query.IntPtr(params.limit) && "limit" + "=" == "limit=";
    }
    assert Query.Fragments(m, ["page", "limit"], f) == Query.FragmentOf(m, "page", f) + Query.FragmentOf(m, "limit", f) by {
      Query.FragmentsSnoc(m, [], "page", f);
      Query.FragmentsSnoc(m, ["page"], "limit", f);
      assert [] + ["page"] == ["page"];
      assert ["page"] + ["limit"] == ["page", "limit"];
    }
  }

  /** Whatever order the map is visited in, the query holds `page=` and `limit=`
      with their decimal values for the fields that are set, and nothing else. */
  lemma QueryContent(params: GetActivityParams, order: seq<string>, f: Fmt.Formatters)
    requires Query.IsIterationOrder(order, QueryMap(params))
    ensures multiset(Query.Fragments(QueryMap(params), order, f)) == multiset(ExpectedFragments(params))
  {
    var canon := ["page", "limit"];
    assert Query.IsIterationOrder(canon, QueryMap(params));
    Query.OrderIndependent(QueryMap(params), order, canon, f);
    InFieldOrder(params, f);
  }

  /** Reading the query back: as soon as one field is set, splitting the query on `&`
      gives its fragments, one per set field and nothing else, since decimal numbers
      hold no `&`. */
  lemma QueryReadsBack(params: GetActivityParams, order: seq<string>, f: Fmt.Formatters)
    requires Query.IsIterationOrder(order, QueryMap(params))
    requires params.page.Some? || params.limit.Some?
    ensures var parts := Strings.Split(Query.QueryString(QueryMap(params), order, f), '&');
      parts == Query.Fragments(QueryMap(params), order, f)
      && multiset(parts) == multiset(ExpectedFragments(params))
  {
    var m := QueryMap(params);
    QueryMapNoneContribute(params);
    Query.QueryEmptyIff(m, order, f);
    forall k | k in m && Query.Contributes(m[k])
      ensures '&' !in k && '&' !in Query.FormatValue(m[k], f).value
    {
      assert k == "page" || k == "limit";
      Fmt.IntToDecimalChars(m[k].intTarget.value);
    }
    Query.SplitQuery(m, order, f);
    QueryContent(params, order, f);
  }
}
