/**
  The Postman exporter (`src/utils/export-postman.ts`): a Postman v2.1 collection with
  the first server as collection variables, a collection-level auth, one item per
  operation (inside a folder per tag unless the tag holds a single operation), and a
  `Webhooks` folder when the webhooks hold any operation.
 */
module PostmanExport {
  import opened Wrappers
  import opened Strings
  import opened OrderedMaps
  import opened Json
  import opened OpenApi
  import opened RefResolution
  import opened ExportCommon
  import Insomnia = InsomniaExport

  /* ---------- Path parts ---------- */

  /** `segment.startsWith('{') && segment.endsWith('}')`. */
  predicate IsParamSegment(seg: string) {
    StartsWith(seg, "{") && EndsWith(seg, "}")
  }

  /** A segment that starts with `{` and ends with `}` holds both braces, so it has at least two characters. */
  lemma ParamSegmentShape(seg: string)
    requires IsParamSegment(seg)
    ensures |seg| >= 2 && seg[0] == '{' && seg[|seg| - 1] == '}'
  {
    assert seg[0] == "{"[0];
    assert seg[|seg| - 1] == seg[|seg| - 1..][0];
  }

  /** The path part of one segment: `:name` for `{name}`, a non-empty segment as it is, nothing for an empty one. */
  function PathPart(seg: string): (r: Option<string>)
    ensures r.None? <==> seg == ""
    ensures r.Some? ==> r.value != ""
    ensures IsParamSegment(seg) ==> r.Some? && r.value[0] == ':'
  {
    if IsParamSegment(seg) then
      ParamSegmentShape(seg);
      Some(":" + seg[1..|seg| - 1])
    else if seg != "" then Some(seg)
    else None
  }

  /** The parts of the first `n` segments, in segment order. */
  function PathParts(segments: seq<string>, n: nat): (r: seq<string>)
    requires n <= |segments|
    ensures |r| <= n
  {
    if n == 0 then []
    else
      var prev := PathParts(segments, n - 1);
      match PathPart(segments[n - 1])
      case Some(p) => prev + [p]
      case None => prev
  }

  /** `path.split('/')`, each segment's part pushed in turn. */
  function PathPartsOf(path: string): seq<string> {
    var segments := Split(path, '/');
    PathParts(segments, |segments|)
  }

  /**
    Every part is a non-empty piece of the path without `/`: empty segments, such as the
    one before a leading `/`, leave no part behind.
   */
  lemma {:induction false} PathPartsClean(segments: seq<string>, n: nat)
    requires n <= |segments|
    requires forall k :: 0 <= k < |segments| ==> '/' !in segments[k]
    ensures forall i :: 0 <= i < |PathParts(segments, n)| ==> PathParts(segments, n)[i] != "" && '/' !in PathParts(segments, n)[i]
  {
    if n > 0 {
      PathPartsClean(segments, n - 1);
      var seg := segments[n - 1];
      if IsParamSegment(seg) {
        ParamSegmentShape(seg);
        assert forall c :: c in seg[1..|seg| - 1] ==> c in seg;
      }
    }
  }

  /** The parts of a path split on `/` are non-empty and hold no `/`. */
  lemma PathPartsOfClean(path: string)
    ensures forall i :: 0 <= i < |PathPartsOf(path)| ==> PathPartsOf(path)[i] != "" && '/' !in PathPartsOf(path)[i]
  {
    var segments := Split(path, '/');
    PathPartsClean(segments, |segments|);
  }

  /**
    A path template `/a/{name}/b` becomes the parts `a`, `:name`, `b`: the leading empty
    segment is dropped and the parameter written in Postman's `:name` form.
   */
  lemma PathPartsOfTemplate(a: string, name: string, b: string)
    requires a != "" && b != "" && !IsParamSegment(a) && !IsParamSegment(b)
    requires '/' !in a && '/' !in name && '/' !in b
    ensures PathPartsOf("/" + a + "/{" + name + "}/" + b) == [a, ":" + name, b]
  {
    var param := "{" + name + "}";
    TemplateSegments(a, name, b);
    assert IsParamSegment(param) by {
      assert param[..1] == "{";
      assert param[|param| - 1..] == "}";
    }
    assert param[1..|param| - 1] == name;
    assert PathPart(param).value == ":" + name;
    TemplateParts(["", a, param, b]);
  }

  /** `/a/{name}/b` splits into an empty segment, `a`, `{name}` and `b`. */
  lemma TemplateSegments(a: string, name: string, b: string)
    requires '/' !in a && '/' !in name && '/' !in b
    ensures Split("/" + a + "/{" + name + "}/" + b, '/') == ["", a, "{" + name + "}", b]
  {
    var param := "{" + name + "}";
    BracedSlashFree(name);
    TemplateJoin(a, param, b);
    assert "/" + a + "/{" + name + "}/" + b == "/" + a + "/" + param + "/" + b;
    hide Join;
    SplitOfJoin(["", a, param, b], '/');
  }

  lemma TemplateJoin(a: string, param: string, b: string)
    ensures Join(["", a, param, b], "/") == "/" + a + "/" + param + "/" + b
  {
    var segments := ["", a, param, b];
    assert Join(segments[3..], "/") == b;
    assert Join(segments[2..], "/") == param + "/" + b;
    assert Join(segments[1..], "/") == a + "/" + param + "/" + b;
  }

  lemma BracedSlashFree(name: string)
    requires '/' !in name
    ensures '/' !in "{" + name + "}"
  {
    var param := "{" + name + "}";
    assert forall i :: 1 <= i < |param| - 1 ==> param[i] == name[i - 1];
  }

  /** The four segments of a one-parameter template give three parts. */
  lemma TemplateParts(segments: seq<string>)
    requires |segments| == 4 && segments[0] == ""
    requires segments[1] != "" && !IsParamSegment(segments[1])
    requires IsParamSegment(segments[2])
    requires segments[3] != "" && !IsParamSegment(segments[3])
    ensures PathParts(segments, 4) == [segments[1], PathPart(segments[2]).value, segments[3]]
  {
    assert PathParts(segments, 1) == [];
    assert PathParts(segments, 2) == [segments[1]];
  }

  /* ---------- Raw URL ---------- */

  /** `path.replace(/\/+/g, '/')`: every run of slashes becomes one slash. */
  function CollapseSlashes(s: string): (r: string)
    ensures |r| <= |s|
  {
    if |s| < 2 then s
    else if s[0] == '/' && s[1] == '/' then CollapseSlashes(s[1..])
    else [s[0]] + CollapseSlashes(s[1..])
  }

  /** No two slashes in a row. */
  predicate NoDoubleSlash(s: string) {
    forall i :: 0 <= i < |s| - 1 ==> !(s[i] == '/' && s[i + 1] == '/')
  }

  /** The text without its slashes. */
  function WithoutSlashes(s: string): (r: string)
    ensures '/' !in r
  {
    if s == [] then []
    else (if s[0] == '/' then [] else [s[0]]) + WithoutSlashes(s[1..])
  }

  /** Collapsing keeps the first character. */
  lemma {:induction false} CollapseFirst(s: string)
    requires s != []
    ensures CollapseSlashes(s) != [] && CollapseSlashes(s)[0] == s[0]
  {
    if |s| >= 2 && s[0] == '/' && s[1] == '/' {
      CollapseFirst(s[1..]);
    }
  }

  /** After collapsing, no two slashes follow each other. */
  lemma {:induction false} CollapseNoDouble(s: string)
    ensures NoDoubleSlash(CollapseSlashes(s))
  {
    if |s| >= 2 {
      CollapseNoDouble(s[1..]);
      if !(s[0] == '/' && s[1] == '/') {
        CollapseFirst(s[1..]);
        var rest := CollapseSlashes(s[1..]);
        var r := [s[0]] + rest;
        forall i | 0 <= i < |r| - 1 ensures !(r[i] == '/' && r[i + 1] == '/') {
          if i > 0 {
            assert r[i] == rest[i - 1] && r[i + 1] == rest[i];
          }
        }
      }
    }
  }

  /** Collapsing only removes slashes: the other characters stay, in order. */
  lemma {:induction false} CollapseKeepsText(s: string)
    ensures WithoutSlashes(CollapseSlashes(s)) == WithoutSlashes(s)
  {
    if |s| >= 2 {
      CollapseKeepsText(s[1..]);
      var rest := CollapseSlashes(s[1..]);
      if !(s[0] == '/' && s[1] == '/') {
        assert ([s[0]] + rest)[1..] == rest;
      }
    }
  }

  /** A text without a double slash is left as it is. */
  lemma {:induction false} CollapseIdentity(s: string)
    requires NoDoubleSlash(s)
    ensures CollapseSlashes(s) == s
  {
    if |s| >= 2 {
      assert NoDoubleSlash(s[1..]) by {
        forall i | 0 <= i < |s[1..]| - 1 ensures !(s[1..][i] == '/' && s[1..][i + 1] == '/') {
          assert s[1..][i] == s[i + 1] && s[1..][i + 1] == s[i + 2];
        }
      }
      CollapseIdentity(s[1..]);
      assert !(s[0] == '/' && s[1] == '/');
      assert [s[0]] + s[1..] == s;
    }
  }

  /** Collapsing twice is collapsing once. */
  lemma CollapseIdempotent(s: string)
    ensures CollapseSlashes(CollapseSlashes(s)) == CollapseSlashes(s)
  {
    CollapseNoDouble(s);
    CollapseIdentity(CollapseSlashes(s));
  }

  /** `.replace(/^\//, '')`: one leading slash removed. */
  function StripLeadingSlash(s: string): (r: string)
    ensures s != [] && s[0] == '/' ==> r == s[1..]
    ensures (s == [] || s[0] != '/') ==> r == s
  {
    if StartsWith(s, "/") then s[1..] else s
  }

  /** The path as the raw URL writes it: slashes collapsed, then the leading one dropped. */
  function RawPath(path: string): (r: string)
    ensures NoDoubleSlash(r)
    ensures r == [] || r[0] != '/'
    ensures WithoutSlashes(r) == WithoutSlashes(path)
  {
    var c := CollapseSlashes(path);
    CollapseNoDouble(path);
    CollapseKeepsText(path);
    if c != [] && c[0] == '/' then
      assert NoDoubleSlash(c[1..]) by {
        forall i | 0 <= i < |c[1..]| - 1 ensures !(c[1..][i] == '/' && c[1..][i + 1] == '/') {
          assert c[1..][i] == c[i + 1];
        }
      }
      assert |c| > 1 ==> c[1] != '/';
      assert WithoutSlashes(c) == WithoutSlashes(c[1..]);
      StripLeadingSlash(c)
    else
      StripLeadingSlash(c)
  }

  /** The server URL with a `/` added unless it already ends in one. */
  function WithTrailingSlash(serverUrl: string): (r: string)
    ensures serverUrl <= r && EndsWith(r, "/")
    ensures |r| == |serverUrl| || |r| == |serverUrl| + 1
  {
    if EndsWith(serverUrl, "/") then serverUrl else serverUrl + "/"
  }

  /** `!p.disabled && p.value`: an entry the query string of the raw URL carries. */
  predicate Carried(p: Param) {
    !p.disabled && p.value != ""
  }

  /** `${encodeURIComponent(p.key)}=${encodeURIComponent(p.value)}`; `encode` stands for `encodeURIComponent`. */
  function QueryPair(p: Param, encode: string -> string): (r: string)
    ensures '=' in r
  {
    var r := encode(KeyText(p.name)) + "=" + encode(p.value);
    assert r[|encode(KeyText(p.name))|] == '=';
    r
  }

  /** The pairs of the carried entries among the first `n`, in order. */
  function QueryPairs(params: seq<Param>, n: nat, encode: string -> string): (r: seq<string>)
    requires n <= |params|
    ensures |r| <= n
    ensures forall i :: 0 <= i < |r| ==> r[i] != ""
  {
    if n == 0 then []
    else
      var prev := QueryPairs(params, n - 1, encode);
      if Carried(params[n - 1]) then prev + [QueryPair(params[n - 1], encode)] else prev
  }

  /** The query string: the carried entries' pairs joined with `&`. */
  function QueryString(params: seq<Param>, encode: string -> string): string {
    Join(QueryPairs(params, |params|, encode), "&")
  }

  /** Some entry among the first `n` is carried. */
  predicate AnyCarried(params: seq<Param>, n: nat)
    requires n <= |params|
  {
    exists i :: 0 <= i < n && Carried(params[i])
  }

  /** The pairs are empty exactly when no entry is carried. */
  lemma {:induction false} QueryPairsEmpty(params: seq<Param>, n: nat, encode: string -> string)
    requires n <= |params|
    ensures QueryPairs(params, n, encode) == [] <==> !AnyCarried(params, n)
  {
    if n > 0 {
      QueryPairsEmpty(params, n - 1, encode);
      if AnyCarried(params, n) && !Carried(params[n - 1]) {
        var i :| 0 <= i < n && Carried(params[i]);
        assert i < n - 1;
        assert AnyCarried(params, n - 1);
      }
    }
  }

  /** A join of non-empty parts is non-empty. */
  lemma JoinNonEmpty(parts: seq<string>, sep: string)
    requires |parts| > 0 && parts[0] != ""
    ensures Join(parts, sep) != ""
  {
    if |parts| > 1 {
      assert Join(parts, sep)[..|parts[0]|] == parts[0];
    }
  }

  /** The query string is empty exactly when no entry is both enabled and valued. */
  lemma QueryStringEmpty(params: seq<Param>, encode: string -> string)
    ensures QueryString(params, encode) == "" <==> !AnyCarried(params, |params|)
  {
    var pairs := QueryPairs(params, |params|, encode);
    QueryPairsEmpty(params, |params|, encode);
    if pairs != [] {
      JoinNonEmpty(pairs, "&");
    }
  }

  /** The raw URL: the server URL ending in `/`, the raw path, and `?` with the query string when it is not empty. */
  function RawUrl(serverUrl: string, path: string, query: seq<Param>, encode: string -> string): string {
    var base := WithTrailingSlash(serverUrl) + RawPath(path);
    var queryString := QueryString(query, encode);
    if |query| > 0 && queryString != "" then base + "?" + queryString else base
  }

  /**
    The raw URL starts with the server URL and one `/` before the path, and carries a
    query string exactly when some query entry is enabled and has a value.
   */
  lemma RawUrlShape(serverUrl: string, path: string, query: seq<Param>, encode: string -> string)
    ensures var base := WithTrailingSlash(serverUrl) + RawPath(path);
      (AnyCarried(query, |query|) ==> RawUrl(serverUrl, path, query, encode) == base + "?" + QueryString(query, encode)) &&
      (!AnyCarried(query, |query|) ==> RawUrl(serverUrl, path, query, encode) == base)
  {
    QueryStringEmpty(query, encode);
  }

  /** A Postman URL: its raw text, its path parts and its query entries. */
  datatype PostmanUrl = PostmanUrl(raw: string, path: seq<string>, query: Option<seq<Param>>)

  /** `buildPostmanUrl` for one operation. */
  function UrlOf(doc: Value, serverUrl: string, path: string, op: Operation, encode: string -> string): PostmanUrl
    requires RefsAreStrings(doc) && OperationWellTyped(op)
  {
    var query := ParamsIn(doc, ParamsOf(op), "query");
    PostmanUrl(RawUrl(serverUrl, path, query, encode), PathPartsOf(path), NonEmpty(query))
  }

  /** The segment loop of `buildPostmanUrl`. */
  method BuildPathParts(path: string) returns (pathParts: seq<string>)
    ensures pathParts == PathPartsOf(path)
  {
    pathParts := [];
    var pathSegments := Split(path, '/');
    for i := 0 to |pathSegments|
      invariant pathParts == PathParts(pathSegments, i)
    {
      var segment := pathSegments[i];
      if IsParamSegment(segment) {
        ParamSegmentShape(segment);
        pathParts := pathParts + [":" + segment[1..|segment| - 1]];
      } else if segment != "" {
        pathParts := pathParts + [segment];
      }
    }
  }

  /** `buildPostmanUrl`: the segment loop, the query parameter loop, then the raw URL built up step by step. */
  method BuildPostmanUrl(resolver: RefResolver, serverUrl: string, path: string, op: Operation, encode: string -> string)
    returns (url: PostmanUrl)
    requires resolver.resolving == {} && RefsAreStrings(resolver.doc) && OperationWellTyped(op)
    modifies resolver
    ensures resolver.resolving == {}
    ensures url == UrlOf(resolver.doc, serverUrl, path, op, encode)
  {
    var pathParts := BuildPathParts(path);
    var queryParams := CollectParams(resolver, ParamsOf(op), "query");
    var rawUrl := serverUrl;
    if !EndsWith(rawUrl, "/") {
      rawUrl := rawUrl + "/";
    }
    rawUrl := rawUrl + RawPath(path);
    if |queryParams| > 0 {
      var queryString := QueryString(queryParams, encode);
      if queryString != "" {
        rawUrl := rawUrl + "?" + queryString;
      }
    }
    url := PostmanUrl(rawUrl, pathParts, if |queryParams| > 0 then Some(queryParams) else None);
  }

  /* ---------- Authentication ---------- */

  /** A Postman `auth` entry, by its `type`; OpenID Connect schemes also give `oauth2`. */
  datatype PostmanAuth =
    | ApiKeyAuth(key: string, value: string, location: string)
    | BearerAuth(token: string)
    | BasicAuth(username: string, password: string)
    | OAuth2Auth(accessToken: string)

  /**
    `buildPostmanAuth`: an API key not sent in the query, an HTTP bearer or basic scheme,
    or an OAuth 2 / OpenID Connect scheme gives an entry; a query API key, another HTTP
    scheme and any other type give none. An API key outside the header (a cookie key,
    say) is written with `in: query`.
   */
  function BuildPostmanAuth(scheme: SecurityScheme, schemeName: string, credential: Option<string>): (r: Option<PostmanAuth>)
    ensures r.Some? <==>
      (scheme.schemeType == "apiKey" && scheme.location != Some("query")) ||
      (scheme.schemeType == "http" && HttpScheme(scheme) in {"bearer", "basic"}) ||
      scheme.schemeType == "oauth2" || scheme.schemeType == "openIdConnect"
    ensures r.Some? && r.value.ApiKeyAuth? ==> r.value.location == (if scheme.location == Some("header") then "header" else "query")
  {
    if scheme.schemeType == "apiKey" then
      if scheme.location == Some("query") then None
      else Some(ApiKeyAuth(OrElse(scheme.name, schemeName), OrElse(credential, ""), if scheme.location == Some("header") then "header" else "query"))
    else if scheme.schemeType == "http" then
      var kind := HttpScheme(scheme);
      if kind == "bearer" then Some(BearerAuth(OrElse(credential, "")))
      else if kind == "basic" then Some(BasicAuth(UserPass(credential).0, UserPass(credential).1))
      else None
    else if scheme.schemeType == "oauth2" || scheme.schemeType == "openIdConnect" then
      Some(OAuth2Auth(OrElse(credential, "")))
    else None
  }

  /**
    Each entry carries the credential typed in for its scheme: an API key's value, a
    bearer token and an access token are the credential itself, and a basic entry splits
    `user:password` back into its two parts.
   */
  lemma PostmanAuthCarriesCredential(scheme: SecurityScheme, schemeName: string, user: string, password: string)
    requires ':' !in user
    ensures var c := Some(user + ":" + password);
      var r := BuildPostmanAuth(scheme, schemeName, c);
      (r.Some? && r.value.ApiKeyAuth? ==> r.value.value == c.value && r.value.key == OrElse(scheme.name, schemeName)) &&
      (r.Some? && r.value.BearerAuth? ==> r.value.token == c.value) &&
      (r.Some? && r.value.OAuth2Auth? ==> r.value.accessToken == c.value) &&
      (r.Some? && r.value.BasicAuth? ==> r.value.username == user && r.value.password == password)
  {
    UserPassRoundTrip(user, password);
  }

  /** A Postman entry and an Insomnia entry give the same credential to the same kind of auth. */
  predicate SameAuth(p: PostmanAuth, i: Insomnia.InsomniaAuth) {
    match p
    case ApiKeyAuth(key, value, location) => i.ApiKey? && i.key == key && i.value == value && i.addTo == location
    case BearerAuth(token) => i.Bearer? && i.token == token
    case BasicAuth(username, password) => i.Basic? && i.username == username && i.password == password
    case OAuth2Auth(accessToken) => i.OAuth2? && i.accessToken == accessToken
  }

  /**
    The two exporters agree on every scheme both of them support; only Postman writes an
    API key sent neither in a header nor in the query, and only Insomnia an HTTP digest scheme.
   */
  lemma ExportersAgreeOnAuth(scheme: SecurityScheme, schemeName: string, credential: Option<string>)
    ensures var p := BuildPostmanAuth(scheme, schemeName, credential);
      var i := Insomnia.AuthFromScheme(scheme, schemeName, credential);
      (p.Some? && i.Some? ==> SameAuth(p.value, i.value)) &&
      (p.Some? && i.None? <==> scheme.schemeType == "apiKey" && scheme.location != Some("header") && scheme.location != Some("query")) &&
      (p.None? && i.Some? <==> scheme.schemeType == "http" && HttpScheme(scheme) == "digest")
  {
  }

  /**
    `buildPostmanRequestAuth`: no entry without a non-empty security list or when the
    first requirement's first scheme is not declared; otherwise the entry for that scheme
    with the credential stored under its name.
   */
  function RequestAuth(security: Option<seq<SecurityRequirement>>, spec: OpenAPISpec, credentials: Option<seq<(string, string)>>): (r: Option<PostmanAuth>)
    ensures !AuthAsked(security) ==> r.None?
    ensures AuthAsked(security) && SchemeNamed(spec, FirstSchemeName(security.value[0])).None? ==> r.None?
    ensures r.Some? ==> SchemeNamed(spec, FirstSchemeName(security.value[0])).Some?
    ensures r.Some? ==> r == BuildPostmanAuth(SchemeNamed(spec, FirstSchemeName(security.value[0])).value,
      KeyText(FirstSchemeName(security.value[0])), CredentialFor(credentials, FirstSchemeName(security.value[0])))
  {
    if !AuthAsked(security) then None
    else
      var name := FirstSchemeName(security.value[0]);
      match SchemeNamed(spec, name)
      case None => None
      case Some(scheme) => BuildPostmanAuth(scheme, KeyText(name), CredentialFor(credentials, name))
  }

  /** The document declares security schemes: `spec.components?.securitySchemes` is set. */
  predicate DeclaresSchemes(spec: OpenAPISpec) {
    spec.components.Some? && spec.components.value.securitySchemes.Some?
  }

  /** What a call comes to in JavaScript: a value, or a `TypeError` thrown. */
  datatype Outcome<T> = Returns(value: T) | Throws

  /**
    `convertSecuritySchemesToPostmanAuth` as written: with schemes declared and a
    top-level `security` list, it reads the first scheme name of `spec.security[0]`; for
    an empty list that element is `undefined` and `Object.keys(undefined)` throws.
   */
  function CollectionAuthAsWritten(spec: OpenAPISpec, credentials: Option<seq<(string, string)>>): (r: Outcome<Option<PostmanAuth>>)
    ensures r.Throws? <==> DeclaresSchemes(spec) && spec.security == Some([])
  {
    if !DeclaresSchemes(spec) || spec.security.None? then Returns(None)
    else if |spec.security.value| == 0 then Throws
    else
      var name := FirstSchemeName(spec.security.value[0]);
      match SchemeNamed(spec, name)
      case None => Returns(None)
      case Some(scheme) => Returns(BuildPostmanAuth(scheme, KeyText(name), CredentialFor(credentials, name)))
  }

  /**
    The collection-level auth with an empty top-level `security` list read as asking for
    no auth, as OpenAPI defines it and as the per-operation builder already reads it.
   */
  function CollectionAuth(spec: OpenAPISpec, credentials: Option<seq<(string, string)>>): (r: Option<PostmanAuth>)
    ensures !DeclaresSchemes(spec) || !AuthAsked(spec.security) ==> r.None?
  {
    if DeclaresSchemes(spec) then RequestAuth(spec.security, spec, credentials) else None
  }

  /**
    Wherever the source returns, the corrected collection auth is what it returns, and
    that is the auth of an operation that inherits the document's security.
   */
  lemma CollectionAuthAgrees(spec: OpenAPISpec, credentials: Option<seq<(string, string)>>)
    requires DeclaresSchemes(spec)
    ensures CollectionAuthAsWritten(spec, credentials).Returns? ==>
      CollectionAuthAsWritten(spec, credentials).value == CollectionAuth(spec, credentials)
    ensures CollectionAuth(spec, credentials) == RequestAuth(spec.security, spec, credentials)
  {
  }

  /** A document with security schemes and `security: []` makes the source throw; the corrected auth is none. */
  lemma EmptySecurityThrowsAsWritten(spec: OpenAPISpec, credentials: Option<seq<(string, string)>>)
    requires DeclaresSchemes(spec) && spec.security == Some([])
    ensures CollectionAuthAsWritten(spec, credentials) == Throws
    ensures CollectionAuth(spec, credentials) == None
  {
  }

  /* ---------- Items ---------- */

  /** A Postman request; a body's text (`JSON.stringify` of its example) is left to the body's value. */
  datatype PostmanRequest = PostmanRequest(
    httpMethod: string,
    header: Option<seq<Param>>,
    url: PostmanUrl,
    description: Option<string>,
    auth: Option<PostmanAuth>,
    body: Option<BodyContent>)

  /** An item of the collection: a request, or a folder of items. */
  datatype PostmanItem =
    | Leaf(name: string, request: PostmanRequest, description: Option<string>)
    | Folder(name: string, description: Option<string>, items: seq<PostmanItem>)

  /** `convertOperationToPostmanItem` for one operation; `encode` stands for `encodeURIComponent`. */
  function ConvertItem(input: ExportInput, path: string, httpMethod: string, op: Operation, encode: string -> string): PostmanItem
    requires RefsAreStrings(input.spec.json) && OperationWellTyped(op)
  {
    var doc := input.spec.json;
    Leaf(
      ItemName(op, httpMethod, path),
      PostmanRequest(
        Upper(httpMethod),
        NonEmpty(ParamsIn(doc, ParamsOf(op), "header")),
        UrlOf(doc, ServerUrl(input.spec), path, op, encode),
        op.description,
        RequestAuth(SecurityOf(input, op), input.spec, input.credentials),
        BodyContentOf(input.fuel, doc, op.requestBody)),
      OrOption(op.description, op.summary))
  }

  /**
    The Postman item and the Insomnia request made from the same operation share their
    name, method, headers, query entries, body and description, and their auth entries
    agree wherever both exporters write one.
   */
  lemma ItemAgreesWithInsomnia(input: ExportInput, path: string, httpMethod: string, op: Operation, encode: string -> string)
    requires RefsAreStrings(input.spec.json) && OperationWellTyped(op)
    ensures var item := ConvertItem(input, path, httpMethod, op, encode);
      var request := Insomnia.ConvertRequest(input, path, httpMethod, op);
      item.name == request.name && item.description == request.description &&
      item.request.httpMethod == request.httpMethod && item.request.header == request.headers &&
      item.request.url.query == request.parameters && item.request.body == request.body &&
      (item.request.auth.Some? && request.authentication.Some? ==> SameAuth(item.request.auth.value, request.authentication.value))
  {
    var security := SecurityOf(input, op);
    if AuthAsked(security) {
      var name := FirstSchemeName(security.value[0]);
      if SchemeNamed(input.spec, name).Some? {
        ExportersAgreeOnAuth(SchemeNamed(input.spec, name).value, KeyText(name), CredentialFor(input.credentials, name));
      }
    }
  }

  /**
    The item of one filed operation. Every operation of a document the exporter accepts
    (`SpecWellTyped`) is well typed; the placeholder of the other branch is never pushed
    by the exporter.
   */
  function ItemOf(input: ExportInput, x: TaggedOp, encode: string -> string): PostmanItem {
    if RefsAreStrings(input.spec.json) && OperationWellTyped(x.operation) then
      ConvertItem(input, x.path, x.httpMethod, x.operation, encode)
    else
      Leaf(x.path, PostmanRequest(x.httpMethod, None, PostmanUrl("", [], None), None, None, None), None)
  }

  /** `operations.map(...)`: one item per operation, in order. */
  function OpItems(input: ExportInput, ops: seq<TaggedOp>, encode: string -> string): (r: seq<PostmanItem>)
    ensures |r| == |ops|
  {
    if ops == [] then []
    else OpItems(input, ops[..|ops| - 1], encode) + [ItemOf(input, ops[|ops| - 1], encode)]
  }

  /** The `i`-th item is the item of the `i`-th operation, and it is a request. */
  lemma {:induction false} OpItemsAt(input: ExportInput, ops: seq<TaggedOp>, encode: string -> string, i: nat)
    requires i < |ops|
    ensures OpItems(input, ops, encode)[i] == ItemOf(input, ops[i], encode)
    ensures OpItems(input, ops, encode)[i].Leaf?
  {
    if i < |ops| - 1 {
      hide ItemOf;
      assert ops[..|ops| - 1][i] == ops[i];
      OpItemsAt(input, ops[..|ops| - 1], encode, i);
    }
  }

  lemma OpItemsSnoc(input: ExportInput, ops: seq<TaggedOp>, x: TaggedOp, encode: string -> string)
    ensures OpItems(input, ops + [x], encode) == OpItems(input, ops, encode) + [ItemOf(input, x, encode)]
  {
    hide ItemOf;
    assert (ops + [x])[..|ops|] == ops;
  }

  lemma {:induction false} OpItemsAppend(input: ExportInput, a: seq<TaggedOp>, b: seq<TaggedOp>, encode: string -> string)
    ensures OpItems(input, a + b, encode) == OpItems(input, a, encode) + OpItems(input, b, encode)
    decreases |b|
  {
    hide *;
    if b == [] {
      assert a + b == a;
      OpItemsEmpty(input, encode);
    } else {
      var init, x := b[..|b| - 1], b[|b| - 1];
      assert b == init + [x];
      assert a + b == (a + init) + [x];
      OpItemsAppend(input, a, init, encode);
      OpItemsSnoc(input, a + init, x, encode);
      OpItemsSnoc(input, init, x, encode);
    }
  }

  lemma OpItemsEmpty(input: ExportInput, encode: string -> string)
    ensures OpItems(input, [], encode) == []
  {
  }

  /* ---------- Folders ---------- */

  /**
    The entry for one tag: the single operation's item itself when the tag holds one
    operation, otherwise a folder named after the tag with the tag's description.
   */
  function TagEntry(input: ExportInput, tag: string, ops: seq<TaggedOp>, encode: string -> string): PostmanItem {
    var tagItems := OpItems(input, ops, encode);
    if |tagItems| == 1 then tagItems[0] else Folder(tag, TagDescription(input.spec, tag), tagItems)
  }

  /** A tag with one operation gives that operation's request; any other gives a folder of one request per operation. */
  lemma TagEntryShape(input: ExportInput, tag: string, ops: seq<TaggedOp>, encode: string -> string)
    ensures |ops| == 1 ==> TagEntry(input, tag, ops, encode) == ItemOf(input, ops[0], encode)
    ensures TagEntry(input, tag, ops, encode).Leaf? <==> |ops| == 1
    ensures |ops| != 1 ==> var e := TagEntry(input, tag, ops, encode);
      e.name == tag && e.description == TagDescription(input.spec, tag) && |e.items| == |ops| &&
      forall j :: 0 <= j < |ops| ==> e.items[j] == ItemOf(input, ops[j], encode)
  {
    hide ItemOf;
    if |ops| == 1 {
      OpItemsAt(input, ops, encode, 0);
    } else {
      forall j | 0 <= j < |ops| ensures OpItems(input, ops, encode)[j] == ItemOf(input, ops[j], encode) {
        OpItemsAt(input, ops, encode, j);
      }
    }
  }

  /** The entries of the first `n` tag groups, in group order. */
  function TagEntries(input: ExportInput, groups: seq<(string, seq<TaggedOp>)>, n: nat, encode: string -> string): (r: seq<PostmanItem>)
    requires n <= |groups|
    ensures |r| == n
  {
    if n == 0 then [] else TagEntries(input, groups, n - 1, encode) + [TagEntry(input, groups[n - 1].0, groups[n - 1].1, encode)]
  }

  lemma {:induction false} TagEntriesAt(input: ExportInput, groups: seq<(string, seq<TaggedOp>)>, n: nat, encode: string -> string, i: nat)
    requires i < n <= |groups|
    ensures TagEntries(input, groups, n, encode)[i] == TagEntry(input, groups[i].0, groups[i].1, encode)
  {
    hide TagEntry;
    if i < n - 1 {
      TagEntriesAt(input, groups, n - 1, encode, i);
    }
  }

  /** The `Webhooks` folder, present only when the webhooks hold at least one operation. */
  function WebhookEntries(input: ExportInput, encode: string -> string): (r: seq<PostmanItem>)
    ensures |r| <= 1
  {
    if input.spec.webhooks.Some? && |WebhookOps(input.spec.webhooks.value)| > 0 then
      [Folder("Webhooks", None, OpItems(input, WebhookOps(input.spec.webhooks.value), encode))]
    else []
  }

  /** The operations of the document, grouped by tag. */
  function TagGroups(spec: OpenAPISpec): seq<(string, seq<TaggedOp>)> {
    GroupsOf(Filings(spec.paths))
  }

  /** The top-level items: an entry per tag in the order the tags were first met, then the `Webhooks` folder. */
  function CollectionItems(input: ExportInput, encode: string -> string): seq<PostmanItem> {
    var groups := TagGroups(input.spec);
    TagEntries(input, groups, |groups|, encode) + WebhookEntries(input, encode)
  }

  /**
    There is an entry per tag, in the order the tags were first met; a tag's entry is a
    folder named after it unless the tag holds a single operation; a last `Webhooks`
    folder follows exactly when the webhooks hold an operation.
   */
  lemma CollectionItemsShape(input: ExportInput, encode: string -> string)
    ensures var groups := TagGroups(input.spec);
      var items := CollectionItems(input, encode);
      var tags := FirstSeen(TagList(Filings(input.spec.paths)));
      var hooks := input.spec.webhooks.Some? && |WebhookOps(input.spec.webhooks.value)| > 0;
      |items| == |tags| + (if hooks then 1 else 0) &&
      (forall i :: 0 <= i < |tags| ==> items[i] == TagEntry(input, tags[i], groups[i].1, encode)) &&
      (forall i :: 0 <= i < |tags| && items[i].Folder? ==> items[i].name == tags[i]) &&
      (hooks ==> items[|tags|] == Folder("Webhooks", None, OpItems(input, WebhookOps(input.spec.webhooks.value), encode)))
  {
    var groups := TagGroups(input.spec);
    var tags := FirstSeen(TagList(Filings(input.spec.paths)));
    TagGroupsKeys(input.spec);
    hide TagEntry, OpItems, ItemOf, WebhookOps, Filings, GroupsOf, FirstSeen, TagList, TagGroups;
    TagEntriesNamed(input, groups, tags, encode);
  }

  /** The tag groups are keyed by the tags in the order they were first met. */
  lemma TagGroupsKeys(spec: OpenAPISpec)
    ensures var groups := TagGroups(spec); var tags := FirstSeen(TagList(Filings(spec.paths)));
      |tags| == |groups| && forall i :: 0 <= i < |groups| ==> tags[i] == groups[i].0
  {
    GroupsOfKeys(Filings(spec.paths));
  }

  /** The tag entries follow the tags, and every folder among them carries its tag's name. */
  lemma TagEntriesNamed(input: ExportInput, groups: seq<(string, seq<TaggedOp>)>, tags: seq<string>, encode: string -> string)
    requires |tags| == |groups| && forall i :: 0 <= i < |groups| ==> tags[i] == groups[i].0
    ensures var entries := TagEntries(input, groups, |groups|, encode);
      (forall i :: 0 <= i < |tags| ==> entries[i] == TagEntry(input, tags[i], groups[i].1, encode)) &&
      (forall i :: 0 <= i < |tags| && entries[i].Folder? ==> entries[i].name == tags[i])
  {
    hide TagEntry, OpItems, ItemOf;
    var entries := TagEntries(input, groups, |groups|, encode);
    forall i | 0 <= i < |tags| ensures entries[i] == TagEntry(input, tags[i], groups[i].1, encode) {
      TagEntriesAt(input, groups, |groups|, encode, i);
    }
    forall i | 0 <= i < |tags| && entries[i].Folder? ensures entries[i].name == tags[i] {
      TagEntriesAt(input, groups, |groups|, encode, i);
      TagEntryShape(input, tags[i], groups[i].1, encode);
    }
  }

  /* ---------- Counting requests ---------- */

  /** The requests of a list of items, counted through folders. */
  function Requests(items: seq<PostmanItem>): nat
    decreases items
  {
    if items == [] then 0
    else
      var last := items[|items| - 1];
      assert last in items;
      Requests(items[..|items| - 1]) + match last case Leaf(_, _, _) => 1 case Folder(_, _, sub) => Requests(sub)
  }

  lemma {:induction false} RequestsAppend(a: seq<PostmanItem>, b: seq<PostmanItem>)
    ensures Requests(a + b) == Requests(a) + Requests(b)
    decreases |b|
  {
    if b != [] {
      var init := b[..|b| - 1];
      assert (a + b)[..|a + b| - 1] == a + init;
      assert (a + b)[|a + b| - 1] == b[|b| - 1];
      RequestsAppend(a, init);
    } else {
      assert a + b == a;
    }
  }

  /** A list of operations' items holds one request per operation. */
  lemma {:induction false} OpItemsRequests(input: ExportInput, ops: seq<TaggedOp>, encode: string -> string)
    ensures Requests(OpItems(input, ops, encode)) == |ops|
  {
    hide ItemOf;
    if ops != [] {
      var init := ops[..|ops| - 1];
      OpItemsRequests(input, init, encode);
      OpItemsAt(input, ops, encode, |ops| - 1);
      var items := OpItems(input, ops, encode);
      assert items[..|items| - 1] == OpItems(input, init, encode);
    }
  }

  /** One item's requests: one for a request, those inside for a folder. */
  lemma RequestsSingle(e: PostmanItem)
    ensures Requests([e]) == match e case Leaf(_, _, _) => 1 case Folder(_, _, sub) => Requests(sub)
  {
    assert [e][..0] == [];
  }

  /** A tag's entry holds one request per operation of the tag. */
  lemma TagEntryRequests(input: ExportInput, tag: string, ops: seq<TaggedOp>, encode: string -> string)
    ensures Requests([TagEntry(input, tag, ops, encode)]) == |ops|
  {
    var e := TagEntry(input, tag, ops, encode);
    hide ItemOf, OpItems;
    TagEntryShape(input, tag, ops, encode);
    OpItemsRequests(input, ops, encode);
    RequestsSingle(e);
  }

  /** Adding a tag's entry adds the tag's operations to the requests. */
  lemma TagEntriesRequestsStep(input: ExportInput, groups: seq<(string, seq<TaggedOp>)>, n: nat, encode: string -> string)
    requires 0 < n <= |groups|
    ensures Requests(TagEntries(input, groups, n, encode)) == Requests(TagEntries(input, groups, n - 1, encode)) + |groups[n - 1].1|
  {
    var prev := TagEntries(input, groups, n - 1, encode);
    var e := TagEntry(input, groups[n - 1].0, groups[n - 1].1, encode);
    assert TagEntries(input, groups, n, encode) == prev + [e];
    hide *;
    RequestsAppend(prev, [e]);
    TagEntryRequests(input, groups[n - 1].0, groups[n - 1].1, encode);
  }

  /** The tag entries hold one request per operation of the groups, whether as a single request or in a folder. */
  lemma {:induction false} TagEntriesRequests(input: ExportInput, groups: seq<(string, seq<TaggedOp>)>, n: nat, encode: string -> string)
    requires n <= |groups|
    ensures Requests(TagEntries(input, groups, n, encode)) == TotalSize(groups[..n])
  {
    if n > 0 {
      hide *;
      TagEntriesRequests(input, groups, n - 1, encode);
      TagEntriesRequestsStep(input, groups, n, encode);
      TotalSizePrefix(groups, n);
    } else {
      assert groups[..0] == [];
    }
  }

  /**
    Every filing of a path operation under one of its tags gives one request, and every
    webhook operation one more.
   */
  lemma CollectionRequests(input: ExportInput, encode: string -> string)
    ensures Requests(CollectionItems(input, encode)) == |Filings(input.spec.paths)| +
      (if input.spec.webhooks.Some? then |WebhookOps(input.spec.webhooks.value)| else 0)
  {
    var groups := TagGroups(input.spec);
    hide TagEntry, OpItems, ItemOf, WebhookOps, Filings, GroupsOf;
    TagEntriesRequests(input, groups, |groups|, encode);
    assert groups[..|groups|] == groups;
    GroupsOfSize(Filings(input.spec.paths));
    var hooks := WebhookEntries(input, encode);
    RequestsAppend(TagEntries(input, groups, |groups|, encode), hooks);
    if input.spec.webhooks.Some? {
      OpItemsRequests(input, WebhookOps(input.spec.webhooks.value), encode);
      if hooks != [] {
        assert Requests(hooks) == Requests(OpItems(input, WebhookOps(input.spec.webhooks.value), encode));
      }
    }
  }

  /** The collection holds exactly as many requests as the Insomnia export of the same document. */
  lemma RequestsMatchInsomnia(input: ExportInput, encode: string -> string)
    ensures Requests(CollectionItems(input, encode)) == Insomnia.CountRequests(Insomnia.InsomniaResources(input))
  {
    hide *;
    CollectionRequests(input, encode);
    Insomnia.InsomniaRequestCount(input);
  }

  /* ---------- The collection ---------- */

  /**
    The variables of a server: `baseUrl` for its URL, then one entry per server variable
    with its default, pushed in turn (a variable named `baseUrl` gives a second entry).
   */
  function ServerVariables(server: Server): (r: seq<(string, string)>)
    ensures |r| == 1 + |VariableDefaults(server)| && r[0] == ("baseUrl", server.url)
    ensures forall i :: 0 <= i < |VariableDefaults(server)| ==> r[i + 1] == VariableDefaults(server)[i]
  {
    [("baseUrl", server.url)] + VariableDefaults(server)
  }

  /** The collection variables: those of the first server, none without a server. */
  function CollectionVariables(spec: OpenAPISpec): (r: Option<seq<(string, string)>>)
    ensures r.Some? <==> spec.servers.Some? && |spec.servers.value| > 0
  {
    if spec.servers.Some? && |spec.servers.value| > 0 then Some(ServerVariables(spec.servers.value[0])) else None
  }

  const PostmanSchema := "https://schema.getpostman.com/json/collection/v2.1.0/collection.json"

  /** A Postman v2.1 collection: its `info`, items, auth and variables. */
  datatype PostmanCollection = PostmanCollection(
    name: string,
    description: Option<string>,
    schema: string,
    exporterId: string,
    items: seq<PostmanItem>,
    auth: Option<PostmanAuth>,
    variables: Option<seq<(string, string)>>)

  /**
    The collection `convertToPostmanCollection` builds, with the collection-level auth as
    corrected in `CollectionAuth`.
   */
  function CollectionOf(input: ExportInput, encode: string -> string): PostmanCollection {
    var spec := input.spec;
    PostmanCollection(
      OrElse(Some(spec.info.title), "API Collection"),
      spec.info.description,
      PostmanSchema,
      "specula-openapi-exporter",
      CollectionItems(input, encode),
      CollectionAuth(spec, input.credentials),
      CollectionVariables(spec))
  }

  /* ---------- Server URLs `new URL` rejects ---------- */

  /**
    Whether `new URL(...)` rejects the first server's URL. `parses(u)` is the verdict of
    `new URL(u)` with no base; the URL parser is not part of this model. It rejects an
    empty URL and a relative one such as `/api/v3`, which OpenAPI allows.
   */
  predicate FirstServerRejected(spec: OpenAPISpec, parses: string -> bool) {
    spec.servers.Some? && |spec.servers.value| > 0 && !parses(spec.servers.value[0].url)
  }

  /** Whether the document has an operation, so that `buildPostmanUrl` runs at least once. */
  predicate HasOperations(spec: OpenAPISpec) {
    |Filings(spec.paths)| > 0 || (spec.webhooks.Some? && |WebhookOps(spec.webhooks.value)| > 0)
  }

  /**
    What `convertToPostmanCollection` comes to as written. It throws at
    `new URL(baseServer.url)` when the first server's URL is rejected, then in
    `convertSecuritySchemesToPostmanAuth` for `security: []` (Finding 6), then at
    `new URL(serverUrl)` in `buildPostmanUrl` when an operation is exported and its server
    URL is rejected. Otherwise it returns the collection, with credentials split as
    corrected in Finding 5.
   */
  function CollectionOutcomeAsWritten(input: ExportInput, encode: string -> string, parses: string -> bool): (r: Outcome<PostmanCollection>)
    ensures r.Returns? ==> r.value == CollectionOf(input, encode)
  {
    if FirstServerRejected(input.spec, parses) then Throws
    else if CollectionAuthAsWritten(input.spec, input.credentials).Throws? then Throws
    else if HasOperations(input.spec) && !parses(ServerUrl(input.spec)) then Throws
    else Returns(CollectionOf(input, encode))
  }

  /**
    As written, the export throws exactly when the first server's URL is rejected or the
    top-level `security` list is empty: when the fallback `http://localhost` parses, the URL
    `buildPostmanUrl` is given parses whenever the first server's does.
   */
  lemma PostmanThrowsAsWritten(input: ExportInput, encode: string -> string, parses: string -> bool)
    requires parses("http://localhost")
    ensures CollectionOutcomeAsWritten(input, encode, parses).Throws? <==>
      FirstServerRejected(input.spec, parses) || (DeclaresSchemes(input.spec) && input.spec.security == Some([]))
  {
    var spec := input.spec;
    if !FirstServerRejected(spec, parses) {
      if spec.servers.Some? && |spec.servers.value| > 0 && spec.servers.value[0].url != "" {
        assert ServerUrl(spec) == spec.servers.value[0].url;
      } else {
        assert ServerUrl(spec) == "http://localhost";
      }
    }
  }

  /**
    A document whose first server has a relative URL makes the source throw, however many
    operations it has; the Insomnia export of the same document succeeds.
   */
  lemma RelativeServerThrowsAsWritten(input: ExportInput, encode: string -> string, parses: string -> bool)
    requires input.spec.servers.Some? && |input.spec.servers.value| > 0
    requires !parses(input.spec.servers.value[0].url)
    ensures CollectionOutcomeAsWritten(input, encode, parses) == Throws
  {
  }

  /**
    The corrected export: a first server with a relative URL still gives a collection. Its
    `baseUrl` is the URL as written, and it holds a request for every request of the
    Insomnia export of the same document.
   */
  lemma RelativeServerExported(input: ExportInput, encode: string -> string)
    requires input.spec.servers.Some? && |input.spec.servers.value| > 0
    ensures CollectionOf(input, encode).variables == Some(ServerVariables(input.spec.servers.value[0]))
    ensures ServerVariables(input.spec.servers.value[0])[0] == ("baseUrl", input.spec.servers.value[0].url)
    ensures Requests(CollectionOf(input, encode).items) == Insomnia.CountRequests(Insomnia.InsomniaResources(input))
  {
    RequestsMatchInsomnia(input, encode);
  }

  /* ---------- The exporter ---------- */

  /** `convertOperationToPostmanItem`, with the URL, header and body loops. */
  method ConvertOperationToPostmanItem(resolver: RefResolver, input: ExportInput, x: TaggedOp, encode: string -> string)
    returns (item: PostmanItem)
    requires resolver.resolving == {} && resolver.doc == input.spec.json && RefsAreStrings(input.spec.json) && OperationWellTyped(x.operation)
    modifies resolver
    ensures resolver.resolving == {}
    ensures item == ItemOf(input, x, encode)
  {
    var op := x.operation;
    var operationSecurity := SecurityOf(input, op);
    var serverUrl := ServerUrl(input.spec);
    var url := BuildPostmanUrl(resolver, serverUrl, x.path, op, encode);
    var headers := CollectParams(resolver, ParamsOf(op), "header");
    var body := BuildBodyContent(resolver, input.fuel, op.requestBody);
    var requestAuth := RequestAuth(operationSecurity, input.spec, input.credentials);
    var postmanRequest := PostmanRequest(Upper(x.httpMethod), if |headers| > 0 then Some(headers) else None, url, op.description, requestAuth, None);
    if body.Some? {
      postmanRequest := postmanRequest.(body := body);
    }
    item := Leaf(ItemName(op, x.httpMethod, x.path), postmanRequest, OrOption(op.description, op.summary));
  }

  /** `operations.map(...)` over one tag's operations, converting each in turn. */
  method ConvertOperations(resolver: RefResolver, input: ExportInput, ops: seq<TaggedOp>, encode: string -> string)
    returns (tagItems: seq<PostmanItem>)
    requires resolver.resolving == {} && resolver.doc == input.spec.json && RefsAreStrings(input.spec.json) && OpsWellTyped(ops)
    modifies resolver
    ensures resolver.resolving == {}
    ensures tagItems == OpItems(input, ops, encode)
  {
    hide ItemOf, OpItems;
    tagItems := [];
    for j := 0 to |ops|
      invariant resolver.resolving == {}
      invariant tagItems == OpItems(input, ops[..j], encode)
    {
      assert ops[..j + 1] == ops[..j] + [ops[j]];
      OpItemsSnoc(input, ops[..j], ops[j], encode);
      var item := ConvertOperationToPostmanItem(resolver, input, ops[j], encode);
      tagItems := tagItems + [item];
    }
    assert ops[..|ops|] == ops;
  }

  /** The tag loop: each tag's items pushed directly when there is one, otherwise as a folder. */
  method PushTagEntries(resolver: RefResolver, input: ExportInput, items0: seq<PostmanItem>, groups: seq<(string, seq<TaggedOp>)>, encode: string -> string)
    returns (items: seq<PostmanItem>)
    requires resolver.resolving == {} && resolver.doc == input.spec.json && RefsAreStrings(input.spec.json) && GroupsWellTyped(groups)
    modifies resolver
    ensures resolver.resolving == {}
    ensures items == items0 + TagEntries(input, groups, |groups|, encode)
  {
    hide ItemOf, OpItems, TagDescription;
    items := items0;
    for i := 0 to |groups|
      invariant resolver.resolving == {}
      invariant items == items0 + TagEntries(input, groups, i, encode)
    {
      var (tag, operations) := groups[i];
      var tagItems := ConvertOperations(resolver, input, operations, encode);
      ghost var done := TagEntries(input, groups, i, encode);
      assert TagEntries(input, groups, i + 1, encode) == done + [TagEntry(input, tag, operations, encode)];
      if |tagItems| == 1 {
        items := items + [tagItems[0]];
      } else {
        items := items + [Folder(tag, TagDescription(input.spec, tag), tagItems)];
      }
    }
  }

  /** The webhook loop of one item: its eight method slots in order. */
  method PushWebhookItems(resolver: RefResolver, input: ExportInput, items0: seq<PostmanItem>, name: string, pathItem: PathItem, encode: string -> string)
    returns (items: seq<PostmanItem>)
    requires resolver.resolving == {} && resolver.doc == input.spec.json && RefsAreStrings(input.spec.json) && SlotsWellTyped(pathItem)
    modifies resolver
    ensures resolver.resolving == {}
    ensures items == items0 + OpItems(input, ItemOps(name, pathItem, |Methods|), encode)
  {
    hide ItemOf, OpItems;
    items := items0;
    for k := 0 to |Methods|
      invariant resolver.resolving == {}
      invariant items == items0 + OpItems(input, ItemOps(name, pathItem, k), encode)
    {
      var operation := OperationOf(pathItem, Methods[k]);
      if operation.Some? {
        var x := TaggedOp(name, MethodName(Methods[k]), operation.value);
        assert ItemOps(name, pathItem, k + 1) == ItemOps(name, pathItem, k) + [x];
        OpItemsSnoc(input, ItemOps(name, pathItem, k), x, encode);
        var item := ConvertOperationToPostmanItem(resolver, input, x, encode);
        items := items + [item];
      } else {
        assert ItemOps(name, pathItem, k + 1) == ItemOps(name, pathItem, k);
      }
    }
  }

  /** Pushing the items of webhook `i` after those of the webhooks before it. */
  lemma WebhookItemsPrefix(input: ExportInput, webhooks: seq<(string, PathItem)>, i: nat, encode: string -> string)
    requires i < |webhooks|
    ensures OpItems(input, WebhookOps(webhooks[..i]), encode) + OpItems(input, ItemOps(webhooks[i].0, webhooks[i].1, |Methods|), encode)
      == OpItems(input, WebhookOps(webhooks[..i + 1]), encode)
  {
    WebhookOpsSnoc(webhooks, i);
    OpItemsAppend(input, WebhookOps(webhooks[..i]), ItemOps(webhooks[i].0, webhooks[i].1, |Methods|), encode);
  }

  /** The webhook loop: every webhook, in order. */
  method CollectWebhookItems(resolver: RefResolver, input: ExportInput, webhooks: seq<(string, PathItem)>, encode: string -> string)
    returns (webhookItems: seq<PostmanItem>)
    requires resolver.resolving == {} && resolver.doc == input.spec.json && RefsAreStrings(input.spec.json) && ItemsWellTyped(webhooks)
    modifies resolver
    ensures resolver.resolving == {}
    ensures webhookItems == OpItems(input, WebhookOps(webhooks), encode)
  {
    hide ItemOf, OpItems;
    webhookItems := [];
    for i := 0 to |webhooks|
      invariant resolver.resolving == {}
      invariant webhookItems == OpItems(input, WebhookOps(webhooks[..i]), encode)
    {
      WebhookItemsPrefix(input, webhooks, i, encode);
      webhookItems := PushWebhookItems(resolver, input, webhookItems, webhooks[i].0, webhooks[i].1, encode);
    }
    assert webhooks[..|webhooks|] == webhooks;
  }

  /** The server loop: `baseUrl`, then each server variable's default pushed in turn. */
  method BuildVariables(server: Server) returns (variables: seq<(string, string)>)
    ensures variables == ServerVariables(server)
  {
    variables := [("baseUrl", server.url)];
    if server.variables.Some? {
      var entries := server.variables.value;
      for i := 0 to |entries|
        invariant variables == [("baseUrl", server.url)] + VariableDefaults(server)[..i]
      {
        assert VariableDefaults(server)[..i + 1] == VariableDefaults(server)[..i] + [(entries[i].0, entries[i].1.default)];
        variables := variables + [(entries[i].0, entries[i].1.default)];
      }
    }
  }

  /** The items of `convertToPostmanCollection`: the tag entries, then the `Webhooks` folder when it holds an item. */
  method BuildItems(resolver: RefResolver, input: ExportInput, encode: string -> string) returns (items: seq<PostmanItem>)
    requires resolver.resolving == {} && resolver.doc == input.spec.json && SpecWellTyped(input.spec)
    modifies resolver
    ensures items == CollectionItems(input, encode)
  {
    hide ItemOf, OpItems, TagEntries, WebhookOps, GroupsOf, Filings;
    var spec := input.spec;
    var operationsByTag := GroupOperationsByTag(spec.paths);
    FilingsOfWellTyped(spec.paths);
    GroupsOfWellTyped(Filings(spec.paths));
    items := PushTagEntries(resolver, input, [], operationsByTag, encode);
    if spec.webhooks.Some? {
      var webhookItems := CollectWebhookItems(resolver, input, spec.webhooks.value, encode);
      if |webhookItems| > 0 {
        items := items + [Folder("Webhooks", None, webhookItems)];
      }
    }
  }

  /** `convertToPostmanCollection`: the info, the variables, the auth, then the items. */
  method ConvertToPostmanCollection(input: ExportInput, encode: string -> string) returns (collection: PostmanCollection)
    requires SpecWellTyped(input.spec)
    ensures collection == CollectionOf(input, encode)
  {
    hide CollectionItems, ServerVariables, CollectionAuth;
    var spec := input.spec;
    var resolver := new RefResolver(spec.json);
    collection := PostmanCollection(OrElse(Some(spec.info.title), "API Collection"), spec.info.description, PostmanSchema,
      "specula-openapi-exporter", [], None, None);
    if spec.servers.Some? && |spec.servers.value| > 0 {
      var variables := BuildVariables(spec.servers.value[0]);
      collection := collection.(variables := Some(variables));
    }
    var collectionAuth := CollectionAuth(spec, input.credentials);
    if collectionAuth.Some? {
      collection := collection.(auth := collectionAuth);
    }
    var items := BuildItems(resolver, input, encode);
    collection := collection.(items := items);
  }
}
