/** Joining and splitting strings on a one-character separator.

    `Join` is Go's `strings.Join(parts, sep)`; `Split` is `strings.Split`,
    the reference decoder a server applies to a query string or a path. */
module Strings {

  predicate StartsWith(s: string, prefix: string) {
    prefix <= s
  }

  predicate EndsWith(s: string, suffix: string) {
    |suffix| <= |s| && s[|s| - |suffix|..] == suffix
  }

  /** The parts, with one separator between each two of them. */
  function Join(parts: seq<string>, sep: char): (r: string)
    ensures |parts| == 0 ==> r == ""
    ensures |parts| == 1 ==> r == parts[0]
  {
    if |parts| == 0 then ""
    else if |parts| == 1 then parts[0]
    else parts[0] + [sep] + Join(parts[1..], sep)
  }

  /** The index of the first occurrence of `c` in `s`. */
  function IndexOf(s: string, c: char): (i: nat)
    requires c in s
    ensures i < |s| && s[i] == c && c !in s[..i]
  {
    if s[0] == c then 0 else 1 + IndexOf(s[1..], c)
  }

  /** The pieces of `s` between separators; always at least one piece. */
  function Split(s: string, sep: char): (parts: seq<string>)
    ensures |parts| >= 1
    decreases |s|
  {
    if sep in s then
      var i := IndexOf(s, sep);
      [s[..i]] + Split(s[i + 1..], sep)
    else [s]
  }

  /** The first separator of `a + [sep] + b` is the one after `a` when `a` holds none. */
  lemma {:induction false} IndexOfAfter(a: string, sep: char, b: string)
    requires sep !in a
    ensures sep in a + [sep] + b && IndexOf(a + [sep] + b, sep) == |a|
  {
    var s := a + [sep] + b;
    assert s[|a|] == sep;
    if a != [] {
      assert s[1..] == a[1..] + [sep] + b;
      IndexOfAfter(a[1..], sep, b);
    }
  }

  /** Splitting a joined list gives the list back when no part holds the separator. */
  lemma {:induction false} SplitJoin(parts: seq<string>, sep: char)
    requires |parts| >= 1
    requires forall i :: 0 <= i < |parts| ==> sep !in parts[i]
    ensures Split(Join(parts, sep), sep) == parts
  {
    if |parts| > 1 {
      var a, rest := parts[0], Join(parts[1..], sep);
      var s := a + [sep] + rest;
      assert Join(parts, sep) == s;
      IndexOfAfter(a, sep, rest);
      assert s[..|a|] == a;
      assert s[|a| + 1..] == rest;
      SplitJoin(parts[1..], sep);
      assert parts == [a] + parts[1..];
    }
  }

  /** A join is empty only when there is nothing to join but empty text. */
  lemma {:induction false} JoinEmpty(parts: seq<string>, sep: char)
    ensures Join(parts, sep) == "" <==> (|parts| == 0 || (|parts| == 1 && parts[0] == ""))
  {
    if |parts| > 1 {
      assert |Join(parts, sep)| >= |parts[0]| + 1;
    }
  }

  /** Each part followed by `sep`: the shape of an ad-hoc query `k=v&k=v&`. */
  function Terminated(parts: seq<string>, sep: char): (r: string)
  {
    if |parts| == 0 then "" else parts[0] + [sep] + Terminated(parts[1..], sep)
  }

  /** A terminated list is a join with one empty part at the end. */
  lemma {:induction false} TerminatedIsJoin(parts: seq<string>, sep: char)
    ensures Terminated(parts, sep) == Join(parts + [""], sep)
  {
    if |parts| > 0 {
      TerminatedIsJoin(parts[1..], sep);
      assert (parts + [""])[1..] == parts[1..] + [""];
    }
  }
}
