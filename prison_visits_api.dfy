/** How the JSON/HTTP client shapes a request before it goes on the
    persistent connection: the path built from the route, the fixed headers
    and expected status, and where the parameters go. The connection, the
    response and `JSON.parse` are not part of this model. */
module PrisonVisitsApi {
  import opened Common
  import opened JsonValues

  datatype HttpMethod = Get | Post | Delete

  /** Ruby's `^`: position i of s starts a line. */
  predicate LineStart(s: string, i: nat)
    requires i <= |s|
  {
    i == 0 || s[i - 1] == '\n'
  }

  /** Position i of s is a match of `^\/`. */
  predicate SlashAtLineStart(s: string, i: nat)
    requires i < |s|
  {
    LineStart(s, i) && s[i] == '/'
  }

  /** The first match of `^\/` in s at or after position start. */
  function FirstSlashAtLineStart(s: string, start: nat): (r: Option<nat>)
    requires start <= |s|
    ensures r.Some? ==> start <= r.value < |s| && SlashAtLineStart(s, r.value)
    ensures r.Some? ==> forall q :: start <= q < r.value ==> !SlashAtLineStart(s, q)
    ensures r.None? ==> forall q :: start <= q < |s| ==> !SlashAtLineStart(s, q)
    decreases |s| - start
  {
    if start == |s| then None
    else if SlashAtLineStart(s, start) then Some(start)
    else FirstSlashAtLineStart(s, start + 1)
  }

  /** `route.sub(%r{^\/}, '')`: removes the first '/' that starts a line. */
  function StripLeadingSlash(route: string): (r: string)
    ensures |route| > 0 && route[0] == '/' ==> r == route[1..]
    ensures '\n' !in route ==> r == if |route| > 0 && route[0] == '/' then route[1..] else route
    ensures |r| == |route| || |r| == |route| - 1
  {
    match FirstSlashAtLineStart(route, 0)
    case None => route
    case Some(p) =>
      assert '\n' !in route ==> p == 0;
      route[..p] + route[p + 1..]
  }

  /** `"/api/#{route}.json"` after the leading slash is stripped. */
  function RequestPath(route: string): (r: string)
    ensures |r| == |StripLeadingSlash(route)| + 10
    ensures r[..5] == "/api/" && r[5..|r| - 5] == StripLeadingSlash(route) && r[|r| - 5..] == ".json"
  {
    "/api/" + StripLeadingSlash(route) + ".json"
  }

  /** A route with or without its leading '/' names the same path. */
  lemma PathIgnoresLeadingSlash(route: string)
    requires '\n' !in route && (route == [] || route[0] != '/')
    ensures RequestPath("/" + route) == RequestPath(route) == "/api/" + route + ".json"
  {
    assert ("/" + route)[1..] == route;
  }

  /** Only one leading '/' is removed: `//x` gives `/api//x.json`. */
  lemma PathKeepsSecondSlash(route: string)
    ensures RequestPath("//" + route) == "/api//" + route + ".json"
  {
    assert ("//" + route)[1..] == "/" + route;
  }

  /** A JSON request body: the `to_json` encoding of the parameters. */
  datatype Body = JsonOf(params: Params)

  /** The excon options the client passes for one request. */
  datatype RequestOptions = RequestOptions(
    verb: HttpMethod,
    path: string,
    expects: seq<int>,
    headers: map<string, string>,
    query: Option<Params>,
    body: Option<Body>)

  /** What `params_options` returns: the options that carry the parameters. */
  datatype ParamsOptions = ParamsOptions(query: Option<Params>, body: Option<Body>, headers: map<string, string>)

  const BaseHeaders: map<string, string> := map["Accept" := "application/json", "Accept-Language" := "en"]

  /** `params_options`: nothing for empty parameters, the query string for
      GET and DELETE, a JSON body and its content type otherwise. */
  function ParamsOptionsFor(verb: HttpMethod, params: Params): (r: ParamsOptions)
    ensures |params| == 0 ==> r == ParamsOptions(None, None, map[])
    ensures |params| != 0 && verb != Post ==> r == ParamsOptions(Some(params), None, map[])
    ensures |params| != 0 && verb == Post ==>
              r == ParamsOptions(None, Some(JsonOf(params)), map["Content-Type" := "application/json"])
  {
    if |params| == 0 then ParamsOptions(None, None, map[])
    else if verb == Get || verb == Delete then ParamsOptions(Some(params), None, map[])
    else assert verb == Post; ParamsOptions(None, Some(JsonOf(params)), map["Content-Type" := "application/json"])
  }

  /** `deep_merge` of the base options with the parameter options: the
      nested headers hashes are merged key by key, the other keys of the
      parameter options are added. */
  function MergeOptions(base: RequestOptions, extra: ParamsOptions): (r: RequestOptions)
    ensures r.headers.Keys == base.headers.Keys + extra.headers.Keys
    ensures forall k :: k in extra.headers ==> r.headers[k] == extra.headers[k]
    ensures forall k :: k in base.headers && k !in extra.headers ==> r.headers[k] == base.headers[k]
  {
    base.(headers := base.headers + extra.headers,
          query := if extra.query.Some? then extra.query else base.query,
          body := if extra.body.Some? then extra.body else base.body)
  }

  /** `request`: the options sent for a call of verb on route with params. */
  function Request(verb: HttpMethod, route: string, params: Params): (r: RequestOptions)
    ensures r.verb == verb && r.path == RequestPath(route) && r.expects == [200]
    ensures "Accept" in r.headers && r.headers["Accept"] == "application/json"
    ensures "Accept-Language" in r.headers && r.headers["Accept-Language"] == "en"
    ensures |params| == 0 ==> r.query.None? && r.body.None? && r.headers == BaseHeaders
    ensures |params| != 0 && verb != Post ==>
              r.query == Some(params) && r.body.None? && r.headers == BaseHeaders
    ensures |params| != 0 && verb == Post ==>
              && r.query.None? && r.body == Some(JsonOf(params))
              && r.headers.Keys == {"Accept", "Accept-Language", "Content-Type"}
              && r.headers["Content-Type"] == "application/json"
  {
    var base := RequestOptions(verb, RequestPath(route), [200], BaseHeaders, None, None);
    MergeOptions(base, ParamsOptionsFor(verb, params))
  }

  /** `get(route, params = {})`. */
  function GetRequest(route: string, params: Params := map[]): (r: RequestOptions)
    ensures r.verb == Get && r.body.None?
    ensures r.path == RequestPath(route) && r.query == (if |params| == 0 then None else Some(params))
  {
    Request(Get, route, params)
  }

  /** `post(route, params)`. */
  function PostRequest(route: string, params: Params): (r: RequestOptions)
    ensures r.verb == Post && r.query.None?
    ensures r.path == RequestPath(route) && r.body == (if |params| == 0 then None else Some(JsonOf(params)))
  {
    Request(Post, route, params)
  }

  /** `delete(route, params = {})`. */
  function DeleteRequest(route: string, params: Params := map[]): (r: RequestOptions)
    ensures r.verb == Delete && r.body.None?
    ensures r.path == RequestPath(route) && r.query == (if |params| == 0 then None else Some(params))
  {
    Request(Delete, route, params)
  }

  /** Called without parameters, `get` and `delete` send neither a query
      nor a body, only the fixed headers. */
  lemma DefaultParamsSendNothing(route: string)
    ensures GetRequest(route).query.None? && GetRequest(route).headers == BaseHeaders
    ensures DeleteRequest(route).query.None? && DeleteRequest(route).headers == BaseHeaders
  {
  }
}
