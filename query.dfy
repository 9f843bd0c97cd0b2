/** `buildQueryParams` (pkg/unsent/utils.go): a query string from a map of
    optional parameters, one `key=value` fragment per usable value, joined by `&`.

    Go visits a map in an order it does not fix; the model takes that order as
    the parameter `order`, any sequence that lists every key once. */
module Query {
  import opened Wrappers
  import Strings
  import Fmt

  /** The enum-typed pointers the switch handles: all are strings underneath. */
  datatype EnumType =
    | GetEventsParamsStatus
    | GetMetricsParamsPeriod
    | GetDomainAnalyticsParamsPeriod
    | GetEmailEventsParamsStatus

  /** A value of the `map[string]interface{}`: the nil interface, a typed pointer
      (nil or not) of one of the handled types, or a value of any other type. */
  datatype ParamValue =
    | NilInterface
    | IntPtr(intTarget: Option<int>)
    | StringPtr(stringTarget: Option<string>)
    | Float32Ptr(floatTarget: Option<real>)
    | EnumPtr(enumType: EnumType, enumTarget: Option<string>)
    | TimePtr(timeTarget: Option<Fmt.Time>)
    | Unhandled

  /** A value that yields a fragment: a non-nil pointer of a handled type. */
  predicate Contributes(v: ParamValue) {
    || (v.IntPtr? && v.intTarget.Some?)
    || (v.StringPtr? && v.stringTarget.Some?)
    || (v.Float32Ptr? && v.floatTarget.Some?)
    || (v.EnumPtr? && v.enumTarget.Some?)
    || (v.TimePtr? && v.timeTarget.Some?)
  }

  predicate NoneContribute(params: map<string, ParamValue>) {
    forall k :: k in params ==> !Contributes(params[k])
  }

  /** A visiting order of the map: every key exactly once. */
  predicate IsIterationOrder(order: seq<string>, params: map<string, ParamValue>) {
    && (forall k :: k in params ==> k in order)
    && (forall i :: 0 <= i < |order| ==> order[i] in params)
    && (forall i, j :: 0 <= i < j < |order| ==> order[i] != order[j])
  }

  /** The text written after `key=`: `%d` for ints, strings and enums verbatim,
      the opaque `%f` and RFC 3339 layouts for floats and times. */
  function FormatValue(v: ParamValue, f: Fmt.Formatters): (r: Option<string>)
    ensures r.Some? <==> Contributes(v)
    ensures v.StringPtr? && v.stringTarget.Some? ==> r == v.stringTarget
    ensures v.EnumPtr? && v.enumTarget.Some? ==> r == v.enumTarget
    ensures v.IntPtr? && v.intTarget.Some? ==> Fmt.ParseInt(r.value) == v.intTarget
  {
    match v
    case IntPtr(Some(n)) => Fmt.ParseIntToDecimal(n); Some(Fmt.IntToDecimal(n))
    case StringPtr(Some(s)) => Some(s)
    case Float32Ptr(Some(x)) => Some(f.float32(x))
    case EnumPtr(_, Some(s)) => Some(s)
    case TimePtr(Some(t)) => Some(f.rfc3339(t))
    case _ => None
  }

  /** The fragments key `k` adds: `k=value` when its value contributes, else none. */
  function FragmentOf(params: map<string, ParamValue>, k: string, f: Fmt.Formatters): seq<string> {
    if k in params && Contributes(params[k]) then [k + "=" + FormatValue(params[k], f).value] else []
  }

  /** The fragments in the order the keys are visited. */
  function Fragments(params: map<string, ParamValue>, order: seq<string>, f: Fmt.Formatters): seq<string> {
    if |order| == 0 then []
    else Fragments(params, order[..|order| - 1], f) + FragmentOf(params, order[|order| - 1], f)
  }

  /** Visiting one more key appends exactly that key's fragments. */
  lemma FragmentsSnoc(params: map<string, ParamValue>, order: seq<string>, k: string, f: Fmt.Formatters)
    ensures Fragments(params, order + [k], f) == Fragments(params, order, f) + FragmentOf(params, k, f)
  {
    assert (order + [k])[..|order|] == order;
  }

  /** The visited keys whose value contributes, in visiting order. */
  function Included(params: map<string, ParamValue>, order: seq<string>): seq<string> {
    if |order| == 0 then []
    else
      var k := order[|order| - 1];
      Included(params, order[..|order| - 1]) + if k in params && Contributes(params[k]) then [k] else []
  }

  /** What `buildQueryParams` returns for a given visiting order. */
  function QueryString(params: map<string, ParamValue>, order: seq<string>, f: Fmt.Formatters): string {
    Strings.Join(Fragments(params, order, f), '&')
  }

  /** How every caller attaches the result: `path?query`, or the bare path when the
      query is empty. */
  function WithQuery(path: string, query: string): string {
    if query != "" then path + "?" + query else path
  }

  /** `buildQueryParams`: collect one fragment per usable value, then join them with `&`. */
  method BuildQueryParams(params: map<string, ParamValue>, order: seq<string>, f: Fmt.Formatters)
    returns (q: string)
    requires IsIterationOrder(order, params)
    ensures q == QueryString(params, order, f)
    ensures q == "" <==> NoneContribute(params)
  {
    var values: seq<string> := [];
    for i := 0 to |order|
      invariant values == Fragments(params, order[..i], f)
    {
      var key := order[i];
      var val := params[key];
      assert order[..i + 1][..i] == order[..i];
      assert Fragments(params, order[..i + 1], f) == values + FragmentOf(params, key, f);
      if !val.NilInterface? {
        match val {
          case IntPtr(v) =>
            if v.Some? { values := values + [key + "=" + Fmt.IntToDecimal(v.value)]; }
          case StringPtr(v) =>
            if v.Some? { values := values + [key + "=" + v.value]; }
          case Float32Ptr(v) =>
            if v.Some? { values := values + [key + "=" + f.float32(v.value)]; }
          case EnumPtr(_, v) =>
            if v.Some? { values := values + [key + "=" + v.value]; }
          case TimePtr(v) =>
            if v.Some? { values := values + [key + "=" + f.rfc3339(v.value)]; }
          case Unhandled =>
        }
      }
    }
    assert order[..|order|] == order;
    QueryEmptyIff(params, order, f);
    if |values| == 0 {
      return "";
    }
    q := Strings.Join(values, '&');
  }

  /** One fragment per included key, in visiting order, each `key=value`. */
  lemma {:induction false} FragmentsOfIncluded(params: map<string, ParamValue>, order: seq<string>, f: Fmt.Formatters)
    ensures var keys := Included(params, order); var frags := Fragments(params, order, f);
      && |frags| == |keys|
      && forall i :: 0 <= i < |keys| ==>
           keys[i] in params && Contributes(params[keys[i]])
           && frags[i] == keys[i] + "=" + FormatValue(params[keys[i]], f).value
  {
    if |order| > 0 {
      FragmentsOfIncluded(params, order[..|order| - 1], f);
    }
  }

  /** The included keys are exactly the visited keys with a usable value, and a key
      visited once is included at most once. */
  lemma {:induction false} IncludedMembers(params: map<string, ParamValue>, order: seq<string>)
    ensures forall k :: k in Included(params, order) <==> k in order && k in params && Contributes(params[k])
    ensures (forall i, j :: 0 <= i < j < |order| ==> order[i] != order[j]) ==>
      forall i, j :: 0 <= i < j < |Included(params, order)| ==> Included(params, order)[i] != Included(params, order)[j]
  {
    if |order| > 0 {
      var init := order[..|order| - 1];
      IncludedMembers(params, init);
      assert order == init + [order[|order| - 1]];
    }
  }

  /** Over a visiting order of the whole map: one fragment for each key with a usable
      value, and no key twice. */
  lemma OneFragmentPerKey(params: map<string, ParamValue>, order: seq<string>, f: Fmt.Formatters)
    requires IsIterationOrder(order, params)
    ensures var keys := Included(params, order);
      && |Fragments(params, order, f)| == |keys|
      && (forall k :: k in keys <==> k in params && Contributes(params[k]))
      && (forall i, j :: 0 <= i < j < |keys| ==> keys[i] != keys[j])
  {
    FragmentsOfIncluded(params, order, f);
    IncludedMembers(params, order);
  }

  /** The query is empty exactly when no value of the map is usable. */
  lemma QueryEmptyIff(params: map<string, ParamValue>, order: seq<string>, f: Fmt.Formatters)
    requires IsIterationOrder(order, params)
    ensures Fragments(params, order, f) == [] <==> NoneContribute(params)
    ensures QueryString(params, order, f) == "" <==> NoneContribute(params)
  {
    var frags := Fragments(params, order, f);
    FragmentsOfIncluded(params, order, f);
    IncludedMembers(params, order);
    if !NoneContribute(params) {
      var k :| k in params && Contributes(params[k]);
      assert k in Included(params, order);
    }
    Strings.JoinEmpty(frags, '&');
    if |frags| == 1 {
      assert '=' in frags[0] by {
        var key := Included(params, order)[0];
        assert frags[0][|key|] == '=';
      }
    }
  }

  /** Splitting the query on `&` gives back the fragments, none of them empty (so no
      leading, trailing or doubled `&`), provided no included key and no written value
      holds a `&`: values are inserted without escaping. */
  lemma SplitQuery(params: map<string, ParamValue>, order: seq<string>, f: Fmt.Formatters)
    requires forall k :: k in params && Contributes(params[k]) ==>
      '&' !in k && '&' !in FormatValue(params[k], f).value
    requires Fragments(params, order, f) != []
    ensures Strings.Split(QueryString(params, order, f), '&') == Fragments(params, order, f)
    ensures forall i :: 0 <= i < |Fragments(params, order, f)| ==> Fragments(params, order, f)[i] != ""
  {
    var frags := Fragments(params, order, f);
    var keys := Included(params, order);
    FragmentsOfIncluded(params, order, f);
    forall i | 0 <= i < |frags|
      ensures '&' !in frags[i] && frags[i] != ""
    {
      assert frags[i] == keys[i] + "=" + FormatValue(params[keys[i]], f).value;
    }
    Strings.SplitJoin(frags, '&');
  }

  /** A key whose value is the nil interface, a nil pointer or of an unhandled type adds
      nothing: the fragments are those of the map without that key. */
  lemma {:induction false} IgnoredKeyAddsNothing(params: map<string, ParamValue>, order: seq<string>, k: string, v: ParamValue, f: Fmt.Formatters)
    requires !Contributes(v)
    ensures Fragments(params[k := v], order, f) == Fragments(params - {k}, order, f)
  {
    if |order| > 0 {
      IgnoredKeyAddsNothing(params, order[..|order| - 1], k, v, f);
    }
  }

  lemma {:induction false} FragmentsAppend(params: map<string, ParamValue>, a: seq<string>, b: seq<string>, f: Fmt.Formatters)
    ensures Fragments(params, a + b, f) == Fragments(params, a, f) + Fragments(params, b, f)
    decreases |b|
  {
    if |b| > 0 {
      var b' := b[..|b| - 1];
      assert (a + b)[..|a + b| - 1] == a + b';
      FragmentsAppend(params, a, b', f);
    } else {
      assert a + b == a;
    }
  }

  /** Visiting the same keys in another order permutes the fragments and changes
      nothing else. */
  lemma {:induction false} FragmentsPermute(params: map<string, ParamValue>, o1: seq<string>, o2: seq<string>, f: Fmt.Formatters)
    requires multiset(o1) == multiset(o2)
    ensures multiset(Fragments(params, o1, f)) == multiset(Fragments(params, o2, f))
    decreases |o1|
  {
    if |o1| > 0 {
      var n := |o1|;
      var x := o1[n - 1];
      assert o1 == o1[..n - 1] + [x];
      assert x in multiset(o2);
      var j :| 0 <= j < |o2| && o2[j] == x;
      var left, right := o2[..j], o2[j + 1..];
      assert o2 == left + [x] + right;
      var o2' := left + right;
      assert multiset(o1) == multiset(o1[..n - 1]) + multiset{x};
      assert multiset(o2) == multiset(left) + multiset{x} + multiset(right);
      assert multiset(o2') == multiset(left) + multiset(right);
      assert multiset(o1[..n - 1]) == multiset(o1) - multiset{x};
      assert multiset(o2') == multiset(o2) - multiset{x};
      FragmentsPermute(params, o1[..n - 1], o2', f);
      FragmentsAppend(params, left, right, f);
      FragmentsAppend(params, left + [x], right, f);
      FragmentsAppend(params, left, [x], f);
      FragmentsAppend(params, o1[..n - 1], [x], f);
    } else {
      assert o2 == [];
    }
  }

  lemma {:induction false} DistinctCounts(o: seq<string>)
    requires forall i, j :: 0 <= i < j < |o| ==> o[i] != o[j]
    ensures forall x :: multiset(o)[x] == if x in o then 1 else 0
  {
    if |o| > 0 {
      var init := o[..|o| - 1];
      DistinctCounts(init);
      assert o == init + [o[|o| - 1]];
    }
  }

  /** The order-independent content of the query: any two visiting orders of the same
      map give the same multiset of fragments. */
  lemma OrderIndependent(params: map<string, ParamValue>, o1: seq<string>, o2: seq<string>, f: Fmt.Formatters)
    requires IsIterationOrder(o1, params) && IsIterationOrder(o2, params)
    ensures multiset(Fragments(params, o1, f)) == multiset(Fragments(params, o2, f))
  {
    DistinctCounts(o1);
    DistinctCounts(o2);
    assert multiset(o1) == multiset(o2) by {
      forall x ensures multiset(o1)[x] == multiset(o2)[x] {
      }
    }
    FragmentsPermute(params, o1, o2, f);
  }
}
