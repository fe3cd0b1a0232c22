/** Request URLs as the services write them: a path, then `?` and `key=value`
    pairs joined by `&`, with no percent-encoding. `Parse` reads a URL back into
    its path and pairs; it is the partner every URL builder is checked against. */
module Url {
  import opened Wrappers
  import JsArray

  type Param = (string, string)

  /** `s.indexOf(c)`. */
  function IndexOf(s: string, c: char): int {
    JsArray.FindIndex(s, (x: char) => x == c)
  }

  /** `s.split(sep)` for a one-character separator. */
  function Split(s: string, sep: char): (r: seq<string>)
    ensures |r| >= 1
    decreases |s|
  {
    var i := IndexOf(s, sep);
    if i < 0 then [s] else [s[..i]] + Split(s[i + 1..], sep)
  }

  lemma SplitNone(s: string, sep: char)
    requires sep !in s
    ensures Split(s, sep) == [s]
  {
  }

  lemma SplitFirst(a: string, sep: char, b: string)
    requires sep !in a
    ensures Split(a + [sep] + b, sep) == [a] + Split(b, sep)
  {
    var s := a + [sep] + b;
    assert s[|a|] == sep;
    assert forall j :: 0 <= j < |a| ==> s[j] == a[j];
    assert IndexOf(s, sep) == |a|;
    assert s[..|a|] == a;
    assert s[|a| + 1..] == b;
  }

  function ParamText(p: Param): string {
    p.0 + "=" + p.1
  }

  function JoinParams(ps: seq<Param>): string {
    if ps == [] then ""
    else if |ps| == 1 then ParamText(ps[0])
    else ParamText(ps[0]) + "&" + JoinParams(ps[1..])
  }

  /** `path` alone when there are no parameters, `path?k1=v1&k2=v2...` otherwise. */
  function Build(path: string, ps: seq<Param>): string {
    if ps == [] then path else path + "?" + JoinParams(ps)
  }

  function ParseParam(text: string): Param {
    var i := IndexOf(text, '=');
    if i < 0 then (text, "") else (text[..i], text[i + 1..])
  }

  function ParseParams(parts: seq<string>): seq<Param> {
    if parts == [] then [] else [ParseParam(parts[0])] + ParseParams(parts[1..])
  }

  /** The path before the first `?`, and the pairs after it. */
  function Parse(url: string): (string, seq<Param>) {
    var i := IndexOf(url, '?');
    if i < 0 then (url, []) else (url[..i], ParseParams(Split(url[i + 1..], '&')))
  }

  /** A key has no `&` or `=`; a value has no `&`. */
  predicate SafeParams(ps: seq<Param>) {
    forall i :: 0 <= i < |ps| ==> '&' !in ps[i].0 && '=' !in ps[i].0 && '&' !in ps[i].1
  }

  lemma ParseParamText(p: Param)
    requires '=' !in p.0
    ensures ParseParam(ParamText(p)) == p
  {
    var t := ParamText(p);
    assert t[|p.0|] == '=';
    assert forall j :: 0 <= j < |p.0| ==> t[j] == p.0[j];
    assert t[..|p.0|] == p.0;
    assert t[|p.0| + 1..] == p.1;
  }

  lemma {:induction false} ParseJoinedParams(ps: seq<Param>)
    requires ps != [] && SafeParams(ps)
    ensures ParseParams(Split(JoinParams(ps), '&')) == ps
  {
    ParseParamText(ps[0]);
    var first := ParamText(ps[0]);
    assert '&' !in first by {
      assert first == ps[0].0 + ("=" + ps[0].1);
    }
    if |ps| == 1 {
      SplitNone(first, '&');
    } else {
      assert SafeParams(ps[1..]) by {
        forall i | 0 <= i < |ps[1..]|
          ensures '&' !in ps[1..][i].0 && '=' !in ps[1..][i].0 && '&' !in ps[1..][i].1
        {
          assert ps[1..][i] == ps[i + 1];
        }
      }
      ParseJoinedParams(ps[1..]);
      SplitFirst(first, '&', JoinParams(ps[1..]));
    }
  }

  /** Reading back a built URL gives its path and parameters, provided the path
      has no `?` and the parameters are safe. */
  lemma ParseBuild(path: string, ps: seq<Param>)
    requires '?' !in path && SafeParams(ps)
    ensures Parse(Build(path, ps)) == (path, ps)
  {
    if ps != [] {
      ParseAtQuestionMark(path, JoinParams(ps));
      ParseJoinedParams(ps);
    }
  }

  /** The first `?` of `path?query` is the one after the path. */
  lemma ParseAtQuestionMark(path: string, query: string)
    requires '?' !in path
    ensures Parse(path + "?" + query) == (path, ParseParams(Split(query, '&')))
  {
    var url := path + "?" + query;
    assert url[|path|] == '?';
    assert forall j :: 0 <= j < |path| ==> url[j] == path[j];
    assert IndexOf(url, '?') == |path|;
    assert url[..|path|] == path;
    assert url[|path| + 1..] == query;
  }

  /** Appending one more parameter appends `&key=value`. */
  lemma {:induction false} JoinParamsSnoc(ps: seq<Param>, p: Param)
    requires ps != []
    ensures JoinParams(ps + [p]) == JoinParams(ps) + "&" + ParamText(p)
  {
    if |ps| == 1 {
      assert (ps + [p])[1..] == [p];
    } else {
      assert (ps + [p])[1..] == ps[1..] + [p];
      JoinParamsSnoc(ps[1..], p);
    }
  }

  /** The segments of `/collection/id`. */
  lemma SplitResourcePath(collection: string, id: string)
    requires '/' !in collection && '/' !in id
    ensures Split("/" + collection + "/" + id, '/') == ["", collection, id]
  {
    SplitFirst("", '/', collection + "/" + id);
    assert "" + ['/'] + (collection + "/" + id) == "/" + collection + "/" + id;
    SplitFirst(collection, '/', id);
    assert collection + ['/'] + id == collection + "/" + id;
  }

  /** A URL with one parameter. */
  lemma BuildOne(path: string, key: string, v: string)
    ensures path + "?" + key + "=" + v == Build(path, [(key, v)])
  {
  }

  /** Appending `&key=value` to a built URL builds it with one more parameter. */
  lemma BuildAppend(path: string, ps: seq<Param>, key: string, v: string)
    requires ps != []
    ensures Build(path, ps) + "&" + key + "=" + v == Build(path, ps + [(key, v)])
  {
    JoinParamsSnoc(ps, (key, v));
    var head, t := path + "?", JoinParams(ps);
    calc {
      Build(path, ps) + "&" + key + "=" + v;
      head + t + "&" + key + "=" + v;
      head + (t + "&" + (key + "=" + v));
      head + JoinParams(ps + [(key, v)]);
    }
  }

  /** Text that can stand as one path segment. */
  predicate SafeSegment(s: string) {
    '/' !in s && '?' !in s
  }

  /** The id in a URL `/<collection>/<id>` without parameters, if it is one. */
  function ResourceId(url: string, collection: string): Option<string> {
    var (path, params) := Parse(url);
    var segments := Split(path, '/');
    if params == [] && |segments| == 3 && segments[0] == "" && segments[1] == collection
    then Some(segments[2]) else None
  }

  /** A URL without `?` has no parameters. */
  lemma ParseNoQuery(url: string)
    requires '?' !in url
    ensures Parse(url) == (url, [])
  {
  }

  /** What a parser sees in the URL of one resource of a collection. */
  lemma ResourceIdOf(collection: string, id: string)
    requires SafeSegment(collection) && SafeSegment(id)
    ensures Parse("/" + collection + "/" + id).0 == "/" + collection + "/" + id
    ensures ResourceId("/" + collection + "/" + id, collection) == Some(id)
    ensures "/" + collection + "/" + id != "/" + collection
  {
    var url := "/" + collection + "/" + id;
    assert '?' !in url;
    ParseNoQuery(url);
    SplitResourcePath(collection, id);
    assert |url| > |"/" + collection|;
  }

  /** Safe parameter lists stay safe when concatenated. */
  lemma SafeParamsAppend(a: seq<Param>, b: seq<Param>)
    requires SafeParams(a) && SafeParams(b)
    ensures SafeParams(a + b)
  {
    forall i | 0 <= i < |a + b|
      ensures '&' !in (a + b)[i].0 && '=' !in (a + b)[i].0 && '&' !in (a + b)[i].1
    {
      if i >= |a| {
        assert (a + b)[i] == b[i - |a|];
      }
    }
  }
}
