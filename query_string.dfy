/** A plain splitter of a URL: the path before the first '?', then the
    query split on '&' into fields, each field split on its first '=' into a
    name and a value. It does not treat a '#' fragment specially and does no
    '%' or '+' decoding. The URL of a knowledge-base query is checked against
    this splitter. */
module QueryString {

  import opened Wrappers

  /** The position of the first `c` in `s`, if there is one. */
  function IndexOf(s: string, c: char): (r: Option<nat>)
    ensures r.None? <==> c !in s
    ensures r.Some? ==> r.value < |s| && s[r.value] == c && c !in s[..r.value]
    decreases |s|
  {
    if |s| == 0 then None
    else if s[0] == c then Some(0)
    else match IndexOf(s[1..], c)
      case None => None
      case Some(i) =>
        assert s[1..][..i] == s[1..i + 1];
        Some(i + 1)
  }

  /** The pieces of `s` between the occurrences of `c`. */
  function SplitOn(s: string, c: char): (parts: seq<string>)
    ensures |parts| >= 1
    ensures forall k :: 0 <= k < |parts| ==> c !in parts[k]
    decreases |s|
  {
    match IndexOf(s, c)
    case None => [s]
    case Some(i) => [s[..i]] + SplitOn(s[i + 1..], c)
  }

  /** A query field `name=value`; a field without '=' has an empty value. */
  function Field(f: string): (nv: (string, string))
    ensures '=' !in nv.0
  {
    match IndexOf(f, '=')
    case None => (f, "")
    case Some(i) => (f[..i], f[i + 1..])
  }

  function Fields(fs: seq<string>): (nvs: seq<(string, string)>)
    ensures |nvs| == |fs|
  {
    if |fs| == 0 then [] else [Field(fs[0])] + Fields(fs[1..])
  }

  /** A URL as the path and the list of its query parameters, in order. */
  function ParseUrl(url: string): (p: (string, seq<(string, string)>))
    ensures '?' !in p.0
  {
    match IndexOf(url, '?')
    case None => (url, [])
    case Some(i) => (url[..i], Fields(SplitOn(url[i + 1..], '&')))
  }

  /** The first occurrence of `c` in `a + [c] + b` is the one after `a`. */
  lemma IndexOfAfter(a: string, c: char, b: string)
    requires c !in a
    ensures IndexOf(a + [c] + b, c) == Some(|a|)
  {
    var s := a + [c] + b;
    assert s[|a|] == c;
    assert forall k :: 0 <= k < |a| ==> s[k] == a[k];
  }

  lemma {:induction false} SplitOnJoin(a: string, c: char, b: string)
    requires c !in a
    ensures SplitOn(a + [c] + b, c) == [a] + SplitOn(b, c)
  {
    var s := a + [c] + b;
    IndexOfAfter(a, c, b);
    assert s[..|a|] == a;
    assert s[|a| + 1..] == b;
  }

  lemma FieldOf(name: string, value: string)
    requires '=' !in name
    ensures Field(name + "=" + value) == (name, value)
  {
    IndexOfAfter(name, '=', value);
    var f := name + "=" + value;
    assert f == name + ['='] + value;
    assert f[..|name|] == name;
    assert f[|name| + 1..] == value;
  }

  lemma ParseUrlAt(path: string, query: string)
    requires '?' !in path
    ensures ParseUrl(path + ['?'] + query) == (path, Fields(SplitOn(query, '&')))
  {
    var url := path + ['?'] + query;
    IndexOfAfter(path, '?', query);
    assert url[..|path|] == path;
    assert url[|path| + 1..] == query;
  }

  lemma FieldsOfThree(a: string, b: string, c: string)
    ensures Fields([a, b, c]) == [Field(a), Field(b), Field(c)]
  {
    var fs := [a, b, c];
    assert fs[1..] == [b, c];
    assert fs[1..][1..] == [c];
    assert Fields(fs) == [Field(a)] + Fields([b, c]);
    assert Fields([b, c]) == [Field(b)] + Fields([c]);
  }

  lemma {:induction false} SplitOnThree(a: string, b: string, c: string, sep: char)
    requires sep !in a && sep !in b && sep !in c
    ensures SplitOn(a + [sep] + b + [sep] + c, sep) == [a, b, c]
  {
    assert a + [sep] + b + [sep] + c == a + [sep] + (b + [sep] + c);
    SplitOnJoin(a, sep, b + [sep] + c);
    SplitOnJoin(b, sep, c);
  }
}
