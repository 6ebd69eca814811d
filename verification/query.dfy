/**
  Request URLs of the form `<API_LINK><path>?<k1>=<v1>&<k2>=<v2>...`, a
  renderer for them and a decoder that inverts it. The decoder is the
  reference against which the helpers' hand-built f-string URLs are checked.
 */
module Query {
  import opened Py
  import opened Strings

  datatype Request = Request(path: string, params: seq<(string, string)>)

  function Fields(params: seq<(string, string)>): (fields: seq<string>)
    ensures |fields| == |params|
    ensures forall i :: 0 <= i < |params| ==> fields[i] == params[i].0 + "=" + params[i].1
    decreases |params|
  {
    if |params| == 0 then [] else [params[0].0 + "=" + params[0].1] + Fields(params[1..])
  }

  function Render(q: Request): string
    requires |q.params| >= 1
  {
    q.path + "?" + JoinWith(Fields(q.params), '&')
  }

  /** A `k=v` field; a field without '=' is a key with an empty value. */
  function ParseField(f: string): (string, string) {
    match SplitOnce(f, '=')
    case Some(kv) => kv
    case None => (f, "")
  }

  function ParseFields(fields: seq<string>): (params: seq<(string, string)>)
    ensures |params| == |fields|
    decreases |fields|
  {
    if |fields| == 0 then [] else [ParseField(fields[0])] + ParseFields(fields[1..])
  }

  function Parse(s: string): Option<Request> {
    match SplitOnce(s, '?')
    case None => None
    case Some(pq) => Some(Request(pq.0, ParseFields(Split(pq.1, '&'))))
  }

  /** Decodes a URL that starts with the API base link. */
  function ParseUrl(api: string, url: string): Option<Request> {
    if |api| <= |url| && url[..|api|] == api then Parse(url[|api|..]) else None
  }

  /** Requests whose parts need no escaping to be decoded unambiguously. */
  predicate Plain(q: Request) {
    && '?' !in q.path
    && |q.params| >= 1
    && forall i :: 0 <= i < |q.params| ==> '&' !in q.params[i].0 && '=' !in q.params[i].0 && '&' !in q.params[i].1
  }

  lemma {:induction false} ParseFieldsOfFields(params: seq<(string, string)>)
    requires forall i :: 0 <= i < |params| ==> '=' !in params[i].0
    ensures ParseFields(Fields(params)) == params
    decreases |params|
  {
    if |params| > 0 {
      var (k, v) := params[0];
      SplitOnceAt(k, '=', v);
      assert k + "=" + v == k + ['='] + v;
      ParseFieldsOfFields(params[1..]);
      assert [params[0]] + params[1..] == params;
    }
  }

  lemma {:induction false} FieldsAvoidAmpersand(params: seq<(string, string)>)
    requires forall i :: 0 <= i < |params| ==> '&' !in params[i].0 && '&' !in params[i].1
    ensures forall i :: 0 <= i < |params| ==> '&' !in Fields(params)[i]
    decreases |params|
  {
    if |params| > 0 {
      FieldsAvoidAmpersand(params[1..]);
      assert forall i :: 0 < i < |params| ==> Fields(params)[i] == Fields(params[1..])[i - 1];
    }
  }

  lemma RenderOne(path: string, k: string, v: string)
    ensures Render(Request(path, [(k, v)])) == path + "?" + k + "=" + v
  {
    var fs := Fields([(k, v)]);
    assert fs == [k + "=" + v];
  }

  lemma RenderTwo(path: string, k1: string, v1: string, k2: string, v2: string)
    ensures Render(Request(path, [(k1, v1), (k2, v2)])) == path + "?" + k1 + "=" + v1 + "&" + k2 + "=" + v2
  {
    var f1, f2 := k1 + "=" + v1, k2 + "=" + v2;
    var fs := Fields([(k1, v1), (k2, v2)]);
    assert fs == [f1, f2];
    assert fs[1..] == [f2];
    assert JoinWith(fs, '&') == f1 + "&" + f2;
  }

  lemma RenderThree(path: string, k1: string, v1: string, k2: string, v2: string, k3: string, v3: string)
    ensures Render(Request(path, [(k1, v1), (k2, v2), (k3, v3)]))
         == path + "?" + k1 + "=" + v1 + "&" + k2 + "=" + v2 + "&" + k3 + "=" + v3
  {
    var f1, f2, f3 := k1 + "=" + v1, k2 + "=" + v2, k3 + "=" + v3;
    var fs := Fields([(k1, v1), (k2, v2), (k3, v3)]);
    assert fs == [f1, f2, f3];
    assert fs[1..] == [f2, f3];
    assert fs[1..][1..] == [f3];
    assert JoinWith(fs[1..], '&') == f2 + "&" + f3;
    assert JoinWith(fs, '&') == f1 + "&" + f2 + "&" + f3;
  }

  /** Decoding a rendered plain request gives the request back. */
  lemma RenderParse(q: Request)
    requires Plain(q)
    ensures Parse(Render(q)) == Some(q)
  {
    var qs := JoinWith(Fields(q.params), '&');
    SplitOnceAt(q.path, '?', qs);
    assert Render(q) == q.path + ['?'] + qs;
    FieldsAvoidAmpersand(q.params);
    SplitJoin(Fields(q.params), '&');
    ParseFieldsOfFields(q.params);
  }

  /** The same, behind the API base link. */
  lemma UrlParse(api: string, q: Request)
    requires Plain(q)
    ensures ParseUrl(api, api + Render(q)) == Some(q)
  {
    var url := api + Render(q);
    assert url[..|api|] == api;
    assert url[|api|..] == Render(q);
    RenderParse(q);
  }
}
