/** The ad-hoc query style of emails.go, contacts.go, suppressions.go and
    analytics.go: a path that already ends in `?`, then `key=value&` for each
    set parameter in a fixed order, values inserted without escaping. */
module AdHoc {
  import opened Wrappers
  import Strings

  /** One optional parameter: its key and, when set, its text. */
  datatype Param = Param(key: string, text: Option<string>)

  /** What one `if params.X != nil { path += "x=...&" }` step appends. */
  function Step(p: Param): string {
    if p.text.Some? then p.key + "=" + p.text.value + "&" else ""
  }

  /** One `if params.X != nil { path += "x=" + value + "&" }` of a list call. */
  method Append(path: string, key: string, value: Option<string>) returns (r: string)
    ensures r == path + Step(Param(key, value))
  {
    r := path;
    if value.Some? {
      r := r + key + "=" + value.value + "&";
    }
  }

  /** `path` after the `+=` steps for `params`, in order. */
  function WithParams(path: string, params: seq<Param>): string
    decreases |params|
  {
    if |params| == 0 then path else WithParams(path + Step(params[0]), params[1..])
  }

  /** One more `if` at the end of the chain appends that parameter's step. */
  lemma {:induction false} WithParamsSnoc(path: string, params: seq<Param>, p: Param)
    ensures WithParams(path, params + [p]) == WithParams(path, params) + Step(p)
    decreases |params|
  {
    if |params| == 0 {
      assert WithParams(path, [p]) == WithParams(path + Step(p), []);
    } else {
      assert (params + [p])[1..] == params[1..] + [p];
      WithParamsSnoc(path + Step(params[0]), params[1..], p);
    }
  }

  /** The chain of `if`s read up to parameter `k`: each adds its own step. */
  lemma WithParamsNext(path: string, params: seq<Param>, k: nat)
    requires k < |params|
    ensures WithParams(path, params[..k + 1]) == WithParams(path, params[..k]) + Step(params[k])
  {
    assert params[..k + 1] == params[..k] + [params[k]];
    WithParamsSnoc(path, params[..k], params[k]);
  }

  /** The `key=value` fragments of the set parameters, in order. */
  function SetFragments(params: seq<Param>): seq<string>
  {
    if |params| == 0 then []
    else
      var head := if params[0].text.Some? then [params[0].key + "=" + params[0].text.value] else [];
      head + SetFragments(params[1..])
  }

  predicate NoneSet(params: seq<Param>) {
    forall i :: 0 <= i < |params| ==> params[i].text.None?
  }

  /** The built path is the prefix, then every set fragment followed by `&`. */
  lemma {:induction false} WithParamsShape(path: string, params: seq<Param>)
    ensures WithParams(path, params) == path + Strings.Terminated(SetFragments(params), '&')
    decreases |params|
  {
    if |params| > 0 {
      WithParamsShape(path + Step(params[0]), params[1..]);
      var p := params[0];
      var rest := Strings.Terminated(SetFragments(params[1..]), '&');
      if p.text.Some? {
        var frag := p.key + "=" + p.text.value;
        assert SetFragments(params) == [frag] + SetFragments(params[1..]);
        assert Strings.Terminated(SetFragments(params), '&') == frag + "&" + rest;
      } else {
        assert SetFragments(params) == SetFragments(params[1..]);
      }
    }
  }

  lemma {:induction false} SetFragmentsEmpty(params: seq<Param>)
    ensures SetFragments(params) == [] <==> NoneSet(params)
    ensures forall i :: 0 <= i < |SetFragments(params)| ==> '=' in SetFragments(params)[i]
  {
    if |params| > 0 {
      SetFragmentsEmpty(params[1..]);
      var p := params[0];
      if p.text.Some? {
        assert (p.key + "=" + p.text.value)[|p.key|] == '=';
      }
      if NoneSet(params[1..]) && p.text.None? {
        forall i | 0 <= i < |params| ensures params[i].text.None? {
          if i > 0 { assert params[i] == params[1..][i - 1]; }
        }
      }
    }
  }

  /** The path always starts with the prefix; it is exactly the prefix when no parameter
      is set, and ends in `&` as soon as one is. */
  lemma WithParamsBounds(prefix: string, params: seq<Param>)
    ensures Strings.StartsWith(WithParams(prefix, params), prefix)
    ensures WithParams(prefix, params) == prefix <==> NoneSet(params)
    ensures !NoneSet(params) ==> Strings.EndsWith(WithParams(prefix, params), "&")
  {
    WithParamsShape(prefix, params);
    SetFragmentsEmpty(params);
    var frags := SetFragments(params);
    if frags != [] {
      var t := Strings.Terminated(frags, '&');
      assert t == frags[0] + "&" + Strings.Terminated(frags[1..], '&');
      TerminatedEndsWithSep(frags);
    }
  }

  lemma {:induction false} TerminatedEndsWithSep(parts: seq<string>)
    requires parts != []
    ensures var t := Strings.Terminated(parts, '&'); |t| > 0 && t[|t| - 1] == '&'
  {
    if |parts| > 1 {
      TerminatedEndsWithSep(parts[1..]);
    }
  }

  /** Splitting what follows the prefix on `&` gives the set fragments, in the fixed
      order, then one empty piece for the trailing `&`, provided no key and no value
      holds a `&`. */
  lemma SplitWithParams(prefix: string, params: seq<Param>)
    requires forall i :: 0 <= i < |params| ==> '&' !in params[i].key
    requires forall i :: 0 <= i < |params| && params[i].text.Some? ==> '&' !in params[i].text.value
    ensures var path := WithParams(prefix, params);
      |prefix| <= |path| && Strings.Split(path[|prefix|..], '&') == SetFragments(params) + [""]
  {
    WithParamsShape(prefix, params);
    Strings.TerminatedIsJoin(SetFragments(params), '&');
    NoSepInFragments(params);
    var parts := SetFragments(params) + [""];
    forall i | 0 <= i < |parts| ensures '&' !in parts[i] { }
    Strings.SplitJoin(parts, '&');
    var path := WithParams(prefix, params);
    assert path[|prefix|..] == Strings.Terminated(SetFragments(params), '&');
  }

  lemma {:induction false} NoSepInFragments(params: seq<Param>)
    requires forall i :: 0 <= i < |params| ==> '&' !in params[i].key
    requires forall i :: 0 <= i < |params| && params[i].text.Some? ==> '&' !in params[i].text.value
    ensures forall i :: 0 <= i < |SetFragments(params)| ==> '&' !in SetFragments(params)[i]
  {
    if |params| > 0 {
      NoSepInFragments(params[1..]);
    }
  }
}
