/**
  The Insomnia exporter (`src/utils/export-insomnia.ts`): a workspace, an environment
  for the first server, a request group per tag holding one request per filed
  operation, and a `Webhooks` group. A resource's `_id` is its position in the
  resource list, which stands for the random ids of `generateId`; a `_parentId`
  names such a position.
 */
module InsomniaExport {
  import opened Wrappers
  import opened Strings
  import opened OrderedMaps
  import opened Json
  import opened OpenApi
  import opened RefResolution
  import opened ExportCommon

  /* ---------- URLs ---------- */

  /** The position of the first `c` in `s`, if any. */
  function FirstIndex(s: string, c: char): (r: Option<nat>)
    ensures r.None? <==> c !in s
    ensures r.Some? ==> r.value < |s| && s[r.value] == c && c !in s[..r.value]
  {
    if s == [] then None
    else if s[0] == c then Some(0)
    else
      match FirstIndex(s[1..], c)
      case None => assert s == [s[0]] + s[1..]; None
      case Some(j) => assert s[..j + 1] == [s[0]] + s[1..][..j]; Some(j + 1)
  }

  /** The first occurrence is the position of a `c` with none before it. */
  lemma {:induction false} FirstIndexAt(s: string, c: char, k: nat)
    requires k < |s| && s[k] == c && c !in s[..k]
    ensures FirstIndex(s, c) == Some(k)
  {
    if k > 0 {
      var u := s[..k];
      assert u[0] == s[0];
      assert s[1..][..k - 1] == u[1..];
      assert forall i :: 0 <= i < |u[1..]| ==> u[1..][i] == u[i + 1];
      FirstIndexAt(s[1..], c, k - 1);
    }
  }

  /** For text that starts with `{`: the position of the first `}` when a non-empty name lies between. */
  function ClosingBrace(s: string): (r: Option<nat>)
    requires s != []
    ensures r.Some? ==> 2 <= r.value < |s| && s[r.value] == '}' && '}' !in s[1..r.value]
  {
    match FirstIndex(s[1..], '}')
    case Some(j) => if j > 0 then assert s[1..][..j] == s[1..j + 1]; Some(j + 1) else None
    case None => None
  }

  /**
    `path.replace(/\{([^}]+)\}/g, '{{$1}}')`: scanning from the left, a `{` with at
    least one character before the next `}` becomes `{{name}}`, and the scan resumes
    after that `}`; every other character is copied.
   */
  function RewriteParams(s: string): string
    decreases |s|
  {
    if s == [] then []
    else if s[0] == '{' && ClosingBrace(s).Some? then
      var j := ClosingBrace(s).value;
      "{{" + s[1..j] + "}}" + RewriteParams(s[j + 1..])
    else [s[0]] + RewriteParams(s[1..])
  }

  /** Text without `{` is copied unchanged. */
  lemma {:induction false} RewriteNoOpen(s: string)
    requires '{' !in s
    ensures RewriteParams(s) == s
  {
    if s != [] {
      assert s == [s[0]] + s[1..];
      RewriteNoOpen(s[1..]);
    }
  }

  /** Text without `}` is copied unchanged: no name is ever closed. */
  lemma {:induction false} RewriteNoClose(s: string)
    requires '}' !in s
    ensures RewriteParams(s) == s
  {
    if s != [] {
      assert s == [s[0]] + s[1..];
      RewriteNoClose(s[1..]);
    }
  }

  /** A prefix without `{` is copied, and the rest is rewritten on its own. */
  lemma {:induction false} RewritePlainPrefix(a: string, b: string)
    requires '{' !in a
    ensures RewriteParams(a + b) == a + RewriteParams(b)
  {
    if a == [] {
      assert a + b == b;
    } else {
      assert a[0] in a;
      assert (a + b)[0] == a[0] && (a + b)[1..] == a[1..] + b;
      assert RewriteParams(a + b) == [a[0]] + RewriteParams(a[1..] + b);
      assert '{' !in a[1..] by {
        forall i | 0 <= i < |a| - 1 ensures a[1..][i] != '{' {
          assert a[1..][i] == a[i + 1];
        }
      }
      RewritePlainPrefix(a[1..], b);
      assert a == [a[0]] + a[1..];
    }
  }

  /** `{name}` becomes `{{name}}`, and the scan goes on after its `}`. */
  lemma RewriteParam(name: string, rest: string)
    requires name != "" && '}' !in name
    ensures RewriteParams("{" + name + "}" + rest) == "{{" + name + "}}" + RewriteParams(rest)
  {
    var s := "{" + name + "}" + rest;
    var t := s[1..];
    assert t == name + "}" + rest;
    assert t[..|name|] == name;
    FirstIndexAt(t, '}', |name|);
    assert ClosingBrace(s) == Some(|name| + 1);
    assert s[1..|name| + 1] == name;
    assert s[|name| + 2..] == rest;
    assert s[0] == '{';
    assert RewriteParams(s) == "{{" + s[1..|name| + 1] + "}}" + RewriteParams(s[|name| + 2..]);
  }

  /** A text that does not start with `/` is not rewritten into one that does. */
  lemma RewriteFirst(s: string)
    requires s != [] && s[0] != '/'
    ensures RewriteParams(s) != [] && RewriteParams(s)[0] != '/'
  {
  }

  /** The server URL without one trailing `/`. */
  function WithoutTrailingSlash(url: string): string {
    if EndsWith(url, "/") then url[..|url| - 1] else url
  }

  /**
    `buildInsomniaUrl`: the server URL without one trailing `/`, then the rewritten
    path, given a leading `/` when it has none. So the server part is always followed
    by exactly the `/` that starts the path.
   */
  function BuildInsomniaUrl(serverUrl: string, path: string): (r: string)
    ensures |r| > |WithoutTrailingSlash(serverUrl)|
    ensures r[..|WithoutTrailingSlash(serverUrl)|] == WithoutTrailingSlash(serverUrl)
    ensures r[|WithoutTrailingSlash(serverUrl)|] == '/'
  {
    var urlPath := RewriteParams(path);
    var baseUrl := WithoutTrailingSlash(serverUrl);
    var cleanPath := if StartsWith(urlPath, "/") then urlPath else "/" + urlPath;
    baseUrl + cleanPath
  }

  /** One trailing `/` on the server URL makes no difference. */
  lemma UrlServerSlash(serverUrl: string, path: string)
    requires !EndsWith(serverUrl, "/")
    ensures BuildInsomniaUrl(serverUrl + "/", path) == BuildInsomniaUrl(serverUrl, path)
  {
    assert EndsWith(serverUrl + "/", "/");
    assert (serverUrl + "/")[..|serverUrl|] == serverUrl;
  }

  /** Nor does a leading `/` on the path. */
  lemma UrlPathSlash(serverUrl: string, path: string)
    requires !StartsWith(path, "/")
    ensures BuildInsomniaUrl(serverUrl, "/" + path) == BuildInsomniaUrl(serverUrl, path)
  {
    RewritePlainPrefix("/", path);
    if path != [] {
      RewriteFirst(path);
    }
  }

  /** A path with one parameter, such as `/users/{id}/posts`, has that parameter doubled and nothing else changed. */
  lemma RewriteTemplate(before: string, name: string, after: string)
    requires '{' !in before && '{' !in after && name != "" && '}' !in name
    ensures RewriteParams("/" + before + "{" + name + "}" + after) == "/" + before + "{{" + name + "}}" + after
  {
    var pre, param, doubled := "/" + before, "{" + name + "}", "{{" + name + "}}";
    assert "/" + before + "{" + name + "}" + after == pre + (param + after);
    assert "/" + before + "{{" + name + "}}" + after == pre + (doubled + after);
    assert '{' !in pre;
    hide RewriteParams;
    RewritePlainPrefix(pre, param + after);
    RewriteParam(name, after);
    RewriteNoOpen(after);
  }

  /** `/users/{id}/posts` against `https://api.example.com/` gives `https://api.example.com/users/{{id}}/posts`. */
  lemma UrlOfTemplate(serverUrl: string, before: string, name: string, after: string)
    requires '{' !in before && '{' !in after && name != "" && '}' !in name
    ensures BuildInsomniaUrl(serverUrl, "/" + before + "{" + name + "}" + after) ==
      WithoutTrailingSlash(serverUrl) + "/" + before + "{{" + name + "}}" + after
  {
    var path, urlPath := "/" + before + "{" + name + "}" + after, "/" + before + "{{" + name + "}}" + after;
    RewriteTemplate(before, name, after);
    assert RewriteParams(path) == urlPath;
    assert urlPath[0] == '/';
    assert StartsWith(urlPath, "/");
    assert WithoutTrailingSlash(serverUrl) + "/" + before + "{{" + name + "}}" + after == WithoutTrailingSlash(serverUrl) + urlPath;
  }

  /* ---------- Authentication ---------- */

  /** An Insomnia `authentication` entry, by its `type`. */
  datatype InsomniaAuth =
    | ApiKey(key: string, value: string, addTo: string)
    | Bearer(token: string, prefix: string)
    | Basic(username: string, password: string)
    | Digest(username: string, password: string)
    | OAuth2(grantType: string, accessToken: string)

  /**
    `buildInsomniaAuthFromScheme`: a header API key, an HTTP bearer, basic or digest
    scheme, or an OAuth 2 / OpenID Connect scheme gives an entry; a query or cookie
    API key, another HTTP scheme and any other type give none.
   */
  function AuthFromScheme(scheme: SecurityScheme, schemeName: string, credential: Option<string>): (r: Option<InsomniaAuth>)
    ensures r.Some? <==>
      (scheme.schemeType == "apiKey" && scheme.location == Some("header")) ||
      (scheme.schemeType == "http" && HttpScheme(scheme) in {"bearer", "basic", "digest"}) ||
      scheme.schemeType == "oauth2" || scheme.schemeType == "openIdConnect"
  {
    if scheme.schemeType == "apiKey" then
      if scheme.location == Some("header") then Some(ApiKey(OrElse(scheme.name, schemeName), OrElse(credential, ""), "header")) else None
    else if scheme.schemeType == "http" then
      var kind := HttpScheme(scheme);
      if kind == "bearer" then Some(Bearer(OrElse(credential, ""), OrElse(scheme.bearerFormat, "Bearer")))
      else if kind == "basic" then Some(Basic(UserPass(credential).0, UserPass(credential).1))
      else if kind == "digest" then Some(Digest(UserPass(credential).0, UserPass(credential).1))
      else None
    else if scheme.schemeType == "oauth2" || scheme.schemeType == "openIdConnect" then
      Some(OAuth2("authorization_code", OrElse(credential, "")))
    else None
  }

  /**
    Each entry carries the credential typed in for its scheme: an API key's value, a
    bearer token and an access token are the credential itself, and a basic or digest
    entry splits `user:password` back into its two parts.
   */
  lemma AuthCarriesCredential(scheme: SecurityScheme, schemeName: string, user: string, password: string)
    requires ':' !in user
    ensures var c := Some(user + ":" + password);
      var r := AuthFromScheme(scheme, schemeName, c);
      (r.Some? && r.value.ApiKey? ==> r.value.value == c.value && r.value.addTo == "header") &&
      (r.Some? && r.value.Bearer? ==> r.value.token == c.value) &&
      (r.Some? && r.value.OAuth2? ==> r.value.accessToken == c.value && r.value.grantType == "authorization_code") &&
      (r.Some? && r.value.Basic? ==> r.value.username == user && r.value.password == password) &&
      (r.Some? && r.value.Digest? ==> r.value.username == user && r.value.password == password)
  {
    UserPassRoundTrip(user, password);
  }

  /**
    `buildInsomniaAuth`: no entry without a non-empty security list or when the first
    requirement's first scheme is not declared; otherwise the entry for that scheme
    with the credential stored under its name.
   */
  function BuildInsomniaAuth(security: Option<seq<SecurityRequirement>>, spec: OpenAPISpec, credentials: Option<seq<(string, string)>>): (r: Option<InsomniaAuth>)
    ensures !AuthAsked(security) ==> r.None?
    ensures AuthAsked(security) && SchemeNamed(spec, FirstSchemeName(security.value[0])).None? ==> r.None?
    ensures r.Some? ==> SchemeNamed(spec, FirstSchemeName(security.value[0])).Some?
    ensures r.Some? ==> r == AuthFromScheme(SchemeNamed(spec, FirstSchemeName(security.value[0])).value,
      KeyText(FirstSchemeName(security.value[0])), CredentialFor(credentials, FirstSchemeName(security.value[0])))
  {
    if !AuthAsked(security) then None
    else
      var name := FirstSchemeName(security.value[0]);
      match SchemeNamed(spec, name)
      case None => None
      case Some(scheme) => AuthFromScheme(scheme, KeyText(name), CredentialFor(credentials, name))
  }

  /* ---------- Requests and resources ---------- */

  /** A request as `convertOperationToInsomniaRequest` writes it; the fixed `setting*` flags are left out. */
  datatype InsomniaRequest = InsomniaRequest(
    name: string,
    description: Option<string>,
    url: string,
    httpMethod: string,
    headers: Option<seq<Param>>,
    parameters: Option<seq<Param>>,
    body: Option<BodyContent>,
    authentication: Option<InsomniaAuth>)

  /** The resources of an export; `parentId` is the position of the parent resource. */
  datatype Resource =
    | Workspace(name: string, description: Option<string>)
    | Environment(parentId: nat, data: seq<(string, string)>)
    | RequestGroup(parentId: nat, name: string, description: Option<string>)
    | Request(parentId: nat, request: InsomniaRequest)

  /** `_type: 'export'`, `__export_format: 4`, `__export_source`, and the resources; the export date is left out. */
  datatype InsomniaCollection = InsomniaCollection(exportFormat: nat, exportSource: string, resources: seq<Resource>)

  /** `convertOperationToInsomniaRequest` for one operation. */
  function ConvertRequest(input: ExportInput, path: string, httpMethod: string, op: Operation): InsomniaRequest
    requires RefsAreStrings(input.spec.json) && OperationWellTyped(op)
  {
    var doc := input.spec.json;
    InsomniaRequest(
      ItemName(op, httpMethod, path),
      OrOption(op.description, op.summary),
      BuildInsomniaUrl(ServerUrl(input.spec), path),
      Upper(httpMethod),
      NonEmpty(ParamsIn(doc, ParamsOf(op), "header")),
      NonEmpty(ParamsIn(doc, ParamsOf(op), "query")),
      BodyContentOf(input.fuel, doc, op.requestBody),
      BuildInsomniaAuth(SecurityOf(input, op), input.spec, input.credentials))
  }

  lemma OpsWellTypedPrefix(ops: seq<TaggedOp>, n: nat)
    requires OpsWellTyped(ops) && n <= |ops|
    ensures OpsWellTyped(ops[..n])
  {
    assert forall j :: 0 <= j < n ==> ops[..n][j] == ops[j];
  }

  /**
    The request of one filed operation. Every operation of a document the exporter accepts
    (`SpecWellTyped`) is well typed; the placeholder request of the other branch is never
    pushed by the exporter.
   */
  function RequestOf(input: ExportInput, x: TaggedOp): InsomniaRequest {
    if RefsAreStrings(input.spec.json) && OperationWellTyped(x.operation) then
      ConvertRequest(input, x.path, x.httpMethod, x.operation)
    else
      InsomniaRequest(x.path, None, "", x.httpMethod, None, None, None, None)
  }

  /** One request per operation, in order, each under the resource at `parent`. */
  function GroupRequests(input: ExportInput, ops: seq<TaggedOp>, parent: nat): (r: seq<Resource>)
    ensures |r| == |ops|
  {
    if ops == [] then []
    else GroupRequests(input, ops[..|ops| - 1], parent) + [Request(parent, RequestOf(input, ops[|ops| - 1]))]
  }

  /** The request for operation `i` is the `i`-th, under `parent`. */
  lemma {:induction false} GroupRequestsAt(input: ExportInput, ops: seq<TaggedOp>, parent: nat, i: nat)
    requires i < |ops|
    ensures GroupRequests(input, ops, parent)[i] == Request(parent, RequestOf(input, ops[i]))
  {
    hide RequestOf;
    if i < |ops| - 1 {
      assert ops[..|ops| - 1][i] == ops[i];
      GroupRequestsAt(input, ops[..|ops| - 1], parent, i);
    }
  }

  lemma GroupRequestsSnoc(input: ExportInput, ops: seq<TaggedOp>, x: TaggedOp, parent: nat)
    ensures GroupRequests(input, ops + [x], parent) == GroupRequests(input, ops, parent) + [Request(parent, RequestOf(input, x))]
  {
    hide RequestOf;
    assert (ops + [x])[..|ops|] == ops;
  }

  lemma {:induction false} GroupRequestsAppend(input: ExportInput, a: seq<TaggedOp>, b: seq<TaggedOp>, parent: nat)
    ensures GroupRequests(input, a + b, parent) == GroupRequests(input, a, parent) + GroupRequests(input, b, parent)
    decreases |b|
  {
    hide *;
    if b == [] {
      assert a + b == a;
      GroupRequestsEmpty(input, parent);
    } else {
      var init, x := b[..|b| - 1], b[|b| - 1];
      assert b == init + [x];
      assert a + b == (a + init) + [x];
      GroupRequestsAppend(input, a, init, parent);
      GroupRequestsSnoc(input, a + init, x, parent);
      GroupRequestsSnoc(input, init, x, parent);
    }
  }

  lemma GroupRequestsEmpty(input: ExportInput, parent: nat)
    ensures GroupRequests(input, [], parent) == []
  {
  }

  /** Pushing the requests of webhook item `i` after those of the items before it. */
  lemma WebhookRequestsPrefix(input: ExportInput, pre: seq<Resource>, items: seq<(string, PathItem)>, i: nat, parent: nat)
    requires i < |items|
    ensures pre + GroupRequests(input, WebhookOps(items[..i]), parent) + GroupRequests(input, ItemOps(items[i].0, items[i].1, |Methods|), parent)
      == pre + GroupRequests(input, WebhookOps(items[..i + 1]), parent)
  {
    WebhookOpsSnoc(items, i);
    GroupRequestsAppend(input, WebhookOps(items[..i]), ItemOps(items[i].0, items[i].1, |Methods|), parent);
  }

  /** For the first `n` groups, a request group per tag followed by the requests of its operations; positions start at `base`. */
  function GroupResources(input: ExportInput, groups: seq<(string, seq<TaggedOp>)>, n: nat, base: nat): (r: seq<Resource>)
    requires n <= |groups|
  {
    if n == 0 then []
    else
      var prev := GroupResources(input, groups, n - 1, base);
      var (tag, ops) := groups[n - 1];
      prev + [RequestGroup(0, tag, TagDescription(input.spec, tag))] + GroupRequests(input, ops, base + |prev|)
  }

  /** The `Webhooks` group, present whenever the document has `webhooks`, even when they hold no operation. */
  function WebhookResources(input: ExportInput, base: nat): (r: seq<Resource>)
    ensures input.spec.webhooks.None? ==> r == []
    ensures input.spec.webhooks.Some? ==> |r| == 1 + |WebhookOps(input.spec.webhooks.value)| && r[0] == RequestGroup(0, "Webhooks", None)
  {
    if input.spec.webhooks.None? then []
    else [RequestGroup(0, "Webhooks", None)] + GroupRequests(input, WebhookOps(input.spec.webhooks.value), base)
  }

  /** `envData`: `base_url` first, then each variable's default assigned under its name. */
  function EnvData(server: Server): seq<(string, string)> {
    Assign([("base_url", server.url)], VariableDefaults(server))
  }

  /** The environment, present exactly when the document lists a server. */
  function EnvironmentResources(spec: OpenAPISpec): seq<Resource> {
    if spec.servers.Some? && |spec.servers.value| > 0 then [Environment(0, EnvData(spec.servers.value[0]))] else []
  }

  /** The workspace and, when there is a server, the environment. */
  function HeadResources(spec: OpenAPISpec): (r: seq<Resource>)
    ensures 1 <= |r| <= 2
  {
    [Workspace(OrElse(Some(spec.info.title), "API Collection"), spec.info.description)] + EnvironmentResources(spec)
  }

  /** The groups the path operations are filed in. */
  function PathGroups(spec: OpenAPISpec): seq<(string, seq<TaggedOp>)> {
    GroupsOf(Filings(spec.paths))
  }

  /** The resources of `convertToInsomniaCollection`, in the order they are pushed. */
  function InsomniaResources(input: ExportInput): seq<Resource> {
    var head := HeadResources(input.spec);
    var groups := PathGroups(input.spec);
    var grouped := GroupResources(input, groups, |groups|, |head|);
    head + grouped + WebhookResources(input, |head| + |grouped|)
  }

  /* ---------- Shape of the export ---------- */

  /** The requests among some resources. */
  function CountRequests(rs: seq<Resource>): nat {
    if rs == [] then 0 else CountRequests(rs[..|rs| - 1]) + if rs[|rs| - 1].Request? then 1 else 0
  }

  lemma {:induction false} CountRequestsAppend(a: seq<Resource>, b: seq<Resource>)
    ensures CountRequests(a + b) == CountRequests(a) + CountRequests(b)
    decreases |b|
  {
    if b == [] {
      assert a + b == a;
    } else {
      assert (a + b)[..|a + b| - 1] == a + b[..|b| - 1];
      CountRequestsAppend(a, b[..|b| - 1]);
    }
  }

  /** A group's requests are one per operation. */
  lemma {:induction false} GroupRequestsCount(input: ExportInput, ops: seq<TaggedOp>, parent: nat)
    ensures CountRequests(GroupRequests(input, ops, parent)) == |ops|
  {
    hide RequestOf;
    if ops != [] {
      GroupRequestsCount(input, ops[..|ops| - 1], parent);
      var r := GroupRequests(input, ops, parent);
      assert r[..|r| - 1] == GroupRequests(input, ops[..|ops| - 1], parent);
    }
  }

  /** A request group followed by its requests. */
  lemma GroupedCount(input: ExportInput, group: Resource, ops: seq<TaggedOp>, parent: nat)
    requires !group.Request?
    ensures CountRequests([group] + GroupRequests(input, ops, parent)) == |ops|
  {
    hide RequestOf, GroupRequests;
    CountRequestsAppend([group], GroupRequests(input, ops, parent));
    assert [group][..0] == [];
    GroupRequestsCount(input, ops, parent);
  }

  /** The first `n` groups' resources hold one request per operation of those groups. */
  lemma {:induction false} GroupResourcesCount(input: ExportInput, groups: seq<(string, seq<TaggedOp>)>, n: nat, base: nat)
    requires n <= |groups|
    ensures CountRequests(GroupResources(input, groups, n, base)) == TotalSize(groups[..n])
  {
    hide RequestOf, GroupRequests, TagDescription;
    if n == 0 {
      assert groups[..0] == [];
    } else {
      hide CountRequests, TotalSize;
      var prev := GroupResources(input, groups, n - 1, base);
      var group := RequestGroup(0, groups[n - 1].0, TagDescription(input.spec, groups[n - 1].0));
      var reqs := GroupRequests(input, groups[n - 1].1, base + |prev|);
      assert GroupResources(input, groups, n, base) == prev + ([group] + reqs);
      hide *;
      GroupResourcesCount(input, groups, n - 1, base);
      CountRequestsAppend(prev, [group] + reqs);
      GroupedCount(input, group, groups[n - 1].1, base + |prev|);
      TotalSizePrefix(groups, n);
    }
  }

  /** The workspace and the environment are not requests. */
  lemma HeadCount(spec: OpenAPISpec)
    ensures CountRequests(HeadResources(spec)) == 0
  {
    hide EnvData;
    var w := Workspace(OrElse(Some(spec.info.title), "API Collection"), spec.info.description);
    assert CountRequests([w]) == 0 by {
      assert [w][..0] == [];
    }
    if spec.servers.Some? && |spec.servers.value| > 0 {
      var e := Environment(0, EnvData(spec.servers.value[0]));
      assert HeadResources(spec) == [w, e];
      assert [w, e][..1] == [w];
    } else {
      assert HeadResources(spec) == [w];
    }
  }

  /** The `Webhooks` group holds one request per webhook operation. */
  lemma WebhookCount(input: ExportInput, base: nat)
    ensures CountRequests(WebhookResources(input, base)) == if input.spec.webhooks.Some? then |WebhookOps(input.spec.webhooks.value)| else 0
  {
    if input.spec.webhooks.Some? {
      hide RequestOf, GroupRequests, WebhookOps;
      GroupedCount(input, RequestGroup(0, "Webhooks", None), WebhookOps(input.spec.webhooks.value), base);
    }
  }

  /**
    The export holds one request per filing of a path operation under one of its tags
    (an operation listed under two tags is exported twice) and one per webhook operation.
   */
  lemma InsomniaRequestCount(input: ExportInput)
    ensures CountRequests(InsomniaResources(input)) == |Filings(input.spec.paths)| +
      (if input.spec.webhooks.Some? then |WebhookOps(input.spec.webhooks.value)| else 0)
  {
    hide HeadResources, GroupResources, WebhookResources, GroupsOf, Filings, WebhookOps, CountRequests, TotalSize;
    var head := HeadResources(input.spec);
    var groups := PathGroups(input.spec);
    var grouped := GroupResources(input, groups, |groups|, |head|);
    var hooks := WebhookResources(input, |head| + |grouped|);
    assert InsomniaResources(input) == head + grouped + hooks;
    assert groups == GroupsOf(Filings(input.spec.paths));
    hide *;
    CountRequestsAppend(head, grouped);
    CountRequestsAppend(head + grouped, hooks);
    HeadCount(input.spec);
    GroupResourcesCount(input, groups, |groups|, |head|);
    assert groups[..|groups|] == groups;
    GroupsOfSize(Filings(input.spec.paths));
    WebhookCount(input, |head| + |grouped|);
  }

  /** `req` is the request of one of the operations of a group keyed `name`. */
  ghost predicate InGroup(input: ExportInput, groups: seq<(string, seq<TaggedOp>)>, name: string, req: InsomniaRequest) {
    exists k, i :: 0 <= k < |groups| && 0 <= i < |groups[k].1| && groups[k].0 == name && req == RequestOf(input, groups[k].1[i])
  }

  lemma InGroupAt(input: ExportInput, groups: seq<(string, seq<TaggedOp>)>, k: nat, i: nat)
    requires k < |groups| && i < |groups[k].1|
    ensures InGroup(input, groups, groups[k].0, RequestOf(input, groups[k].1[i]))
  {
  }

  /**
    Each request comes after its request group, which is keyed by a group holding the
    request's operation; `parentId` counts positions from `base`.
   */
  ghost predicate UnderGroups(input: ExportInput, groups: seq<(string, seq<TaggedOp>)>, r: seq<Resource>, base: nat) {
    forall j :: 0 <= j < |r| && r[j].Request? ==>
      base <= r[j].parentId < base + j && r[r[j].parentId - base].RequestGroup? &&
      InGroup(input, groups, r[r[j].parentId - base].name, r[j].request)
  }

  /** The requests of the first `n` groups each sit under their own group. */
  lemma {:induction false} GroupResourcesParents(input: ExportInput, groups: seq<(string, seq<TaggedOp>)>, n: nat, base: nat)
    requires n <= |groups|
    ensures UnderGroups(input, groups, GroupResources(input, groups, n, base), base)
  {
    hide RequestOf, GroupRequests, TagDescription;
    if n > 0 {
      var prev := GroupResources(input, groups, n - 1, base);
      var tag, ops := groups[n - 1].0, groups[n - 1].1;
      var group := RequestGroup(0, tag, TagDescription(input.spec, tag));
      var reqs := GroupRequests(input, ops, base + |prev|);
      var r := GroupResources(input, groups, n, base);
      assert r == prev + [group] + reqs;
      GroupResourcesParents(input, groups, n - 1, base);
      hide GroupResources, InGroup;
      forall j | 0 <= j < |r| && r[j].Request?
        ensures base <= r[j].parentId < base + j && r[r[j].parentId - base].RequestGroup? &&
          InGroup(input, groups, r[r[j].parentId - base].name, r[j].request)
      {
        assert r[|prev|] == group;
        if j < |prev| {
          assert r[j] == prev[j];
          assert r[r[j].parentId - base] == prev[prev[j].parentId - base];
        } else {
          var i := j - |prev| - 1;
          assert r[j] == reqs[i];
          GroupRequestsAt(input, ops, base + |prev|, i);
          InGroupAt(input, groups, n - 1, i);
        }
      }
    }
  }

  /**
    `req` is the request of an operation filed under `name`: a path operation carrying the
    tag `name` (`Untagged` standing for no tags), or, under `Webhooks`, a webhook operation.
   */
  ghost predicate FiledUnderGroup(input: ExportInput, name: string, req: InsomniaRequest) {
    (exists x :: (name, x) in Filings(input.spec.paths) && name in TagsOf(x.operation) && req == RequestOf(input, x)) ||
    (name == "Webhooks" && input.spec.webhooks.Some? && exists x :: x in WebhookOps(input.spec.webhooks.value) && req == RequestOf(input, x))
  }

  /** A request of a path group is that of an operation filed under the group's tag. */
  lemma PathGroupFiled(input: ExportInput, name: string, req: InsomniaRequest)
    requires InGroup(input, PathGroups(input.spec), name, req)
    ensures FiledUnderGroup(input, name, req)
  {
    hide RequestOf;
    var fs := Filings(input.spec.paths);
    var groups := GroupsOf(fs);
    GroupsOfFrom(fs);
    FilingsTaggedOf(input.spec.paths);
    hide GroupsOf, Filings, TagsOf;
    var k, i :| 0 <= k < |groups| && 0 <= i < |groups[k].1| && groups[k].0 == name && req == RequestOf(input, groups[k].1[i]);
    var x := groups[k].1[i];
    assert (name, x) in fs;
    var m :| 0 <= m < |fs| && fs[m] == (name, x);
    assert name in TagsOf(x.operation);
  }

  lemma WebhookFiled(input: ExportInput, x: TaggedOp)
    requires input.spec.webhooks.Some? && x in WebhookOps(input.spec.webhooks.value)
    ensures FiledUnderGroup(input, "Webhooks", RequestOf(input, x))
  {
  }

  /** Each request sits under the `Webhooks` group at the front, at position `base`, and is that of a webhook operation. */
  ghost predicate UnderWebhooks(input: ExportInput, h: seq<Resource>, base: nat) {
    forall t :: 0 <= t < |h| && h[t].Request? ==>
      0 < t && h[t].parentId == base && h[0] == RequestGroup(0, "Webhooks", None) && FiledUnderGroup(input, "Webhooks", h[t].request)
  }

  /** The `Webhooks` group's requests each sit under it. */
  lemma WebhookParents(input: ExportInput, base: nat)
    ensures UnderWebhooks(input, WebhookResources(input, base), base)
  {
    hide RequestOf, GroupRequests, Filings;
    if input.spec.webhooks.Some? {
      var ops := WebhookOps(input.spec.webhooks.value);
      var h := WebhookResources(input, base);
      var reqs := GroupRequests(input, ops, base);
      assert h == [RequestGroup(0, "Webhooks", None)] + reqs;
      hide WebhookResources, WebhookOps, FiledUnderGroup;
      forall t | 0 <= t < |h| && h[t].Request?
        ensures 0 < t && h[t].parentId == base && h[0] == RequestGroup(0, "Webhooks", None) && FiledUnderGroup(input, "Webhooks", h[t].request)
      {
        if t > 0 {
          assert h[t] == reqs[t - 1];
          GroupRequestsAt(input, ops, base, t - 1);
          WebhookFiled(input, ops[t - 1]);
        }
      }
    }
  }

  /** The workspace and the environment. */
  lemma HeadKinds(spec: OpenAPISpec)
    ensures forall i :: 0 <= i < |HeadResources(spec)| ==> !HeadResources(spec)[i].Request?
  {
  }

  /**
    Every request of an export names as `parentId` an earlier resource, which is a request
    group: one named after a tag of the request's operation, or the `Webhooks` group.
   */
  ghost predicate RequestsUnderGroups(input: ExportInput, r: seq<Resource>) {
    forall j :: 0 <= j < |r| && r[j].Request? ==>
      r[j].parentId < j && r[r[j].parentId].RequestGroup? && FiledUnderGroup(input, r[r[j].parentId].name, r[j].request)
  }

  /** Each exported request is filed under a group of its own operation, pushed before it. */
  lemma InsomniaRequestParents(input: ExportInput)
    ensures RequestsUnderGroups(input, InsomniaResources(input))
  {
    hide HeadResources, GroupResources, WebhookResources, GroupsOf, Filings, WebhookOps, RequestOf, GroupRequests;
    var head := HeadResources(input.spec);
    var groups := PathGroups(input.spec);
    var grouped := GroupResources(input, groups, |groups|, |head|);
    var hooks := WebhookResources(input, |head| + |grouped|);
    var r := InsomniaResources(input);
    assert r == head + grouped + hooks;
    HeadKinds(input.spec);
    GroupResourcesParents(input, groups, |groups|, |head|);
    WebhookParents(input, |head| + |grouped|);
    hide InsomniaResources, FiledUnderGroup;
    forall j | 0 <= j < |r| && r[j].Request?
      ensures r[j].parentId < j && r[r[j].parentId].RequestGroup? && FiledUnderGroup(input, r[r[j].parentId].name, r[j].request)
    {
      if |head| <= j < |head| + |grouped| {
        assert r[j] == grouped[j - |head|];
        var p := grouped[j - |head|].parentId - |head|;
        assert r[r[j].parentId] == grouped[p];
        PathGroupFiled(input, grouped[p].name, r[j].request);
      } else if |head| + |grouped| <= j {
        assert r[j] == hooks[j - |head| - |grouped|];
        assert r[r[j].parentId] == hooks[0];
      }
    }
  }

  /* ---------- The exporter ---------- */

  /** The environment loop: `base_url`, then each variable default assigned in turn. */
  method BuildEnvironmentData(server: Server) returns (data: seq<(string, string)>)
    ensures data == EnvData(server)
  {
    var base := [("base_url", server.url)];
    var defaults := VariableDefaults(server);
    data := base;
    for i := 0 to |defaults|
      invariant data == Assign(base, defaults[..i])
    {
      AssignPrefix(base, defaults, i);
      data := Put(data, defaults[i].0, defaults[i].1);
    }
    assert defaults[..|defaults|] == defaults;
  }


  /** `convertOperationToInsomniaRequest`, with the parameter and body loops. */
  method ConvertOperationToInsomniaRequest(resolver: RefResolver, input: ExportInput, x: TaggedOp)
    returns (request: InsomniaRequest)
    requires resolver.resolving == {} && resolver.doc == input.spec.json && RefsAreStrings(input.spec.json) && OperationWellTyped(x.operation)
    modifies resolver
    ensures resolver.resolving == {}
    ensures request == RequestOf(input, x)
  {
    var op := x.operation;
    var operationSecurity := SecurityOf(input, op);
    var url := BuildInsomniaUrl(ServerUrl(input.spec), x.path);
    var headers := CollectParams(resolver, ParamsOf(op), "header");
    var parameters := CollectParams(resolver, ParamsOf(op), "query");
    var body := BuildBodyContent(resolver, input.fuel, op.requestBody);
    var auth := BuildInsomniaAuth(operationSecurity, input.spec, input.credentials);
    request := InsomniaRequest(
      ItemName(op, x.httpMethod, x.path),
      OrOption(op.description, op.summary),
      url,
      Upper(x.httpMethod),
      if |headers| > 0 then Some(headers) else None,
      if |parameters| > 0 then Some(parameters) else None,
      body,
      auth);
  }

  /** The request loop of one group: each operation converted and pushed under `parent`. */
  method PushRequests(resolver: RefResolver, input: ExportInput, resources0: seq<Resource>, ops: seq<TaggedOp>, parent: nat)
    returns (resources: seq<Resource>)
    requires resolver.resolving == {} && resolver.doc == input.spec.json && RefsAreStrings(input.spec.json) && OpsWellTyped(ops)
    modifies resolver
    ensures resolver.resolving == {}
    ensures resources == resources0 + GroupRequests(input, ops, parent)
  {
    hide RequestOf;
    resources := resources0;
    for j := 0 to |ops|
      invariant resolver.resolving == {}
      invariant resources == resources0 + GroupRequests(input, ops[..j], parent)
    {
      assert ops[..j + 1] == ops[..j] + [ops[j]];
      GroupRequestsSnoc(input, ops[..j], ops[j], parent);
      var request := ConvertOperationToInsomniaRequest(resolver, input, ops[j]);
      resources := resources + [Request(parent, request)];
    }
    assert ops[..|ops|] == ops;
  }

  /** The webhook loop of one item: its eight method slots in order. */
  method PushWebhookItem(resolver: RefResolver, input: ExportInput, resources0: seq<Resource>, name: string, item: PathItem, parent: nat)
    returns (resources: seq<Resource>)
    requires resolver.resolving == {} && resolver.doc == input.spec.json && RefsAreStrings(input.spec.json) && SlotsWellTyped(item)
    modifies resolver
    ensures resolver.resolving == {}
    ensures resources == resources0 + GroupRequests(input, ItemOps(name, item, |Methods|), parent)
  {
    hide RequestOf, GroupRequests;
    resources := resources0;
    for k := 0 to |Methods|
      invariant resolver.resolving == {}
      invariant resources == resources0 + GroupRequests(input, ItemOps(name, item, k), parent)
    {
      var operation := OperationOf(item, Methods[k]);
      if operation.Some? {
        var x := TaggedOp(name, MethodName(Methods[k]), operation.value);
        assert ItemOps(name, item, k + 1) == ItemOps(name, item, k) + [x];
        GroupRequestsSnoc(input, ItemOps(name, item, k), x, parent);
        var request := ConvertOperationToInsomniaRequest(resolver, input, x);
        resources := resources + [Request(parent, request)];
      } else {
        assert ItemOps(name, item, k + 1) == ItemOps(name, item, k);
      }
    }
  }

  /** The webhook loop: every item of `webhooks`, in order. */
  method PushWebhooks(resolver: RefResolver, input: ExportInput, resources0: seq<Resource>, items: seq<(string, PathItem)>, parent: nat)
    returns (resources: seq<Resource>)
    requires resolver.resolving == {} && resolver.doc == input.spec.json && RefsAreStrings(input.spec.json) && ItemsWellTyped(items)
    modifies resolver
    ensures resolver.resolving == {}
    ensures resources == resources0 + GroupRequests(input, WebhookOps(items), parent)
  {
    hide RequestOf;
    resources := resources0;
    for i := 0 to |items|
      invariant resolver.resolving == {}
      invariant resources == resources0 + GroupRequests(input, WebhookOps(items[..i]), parent)
    {
      WebhookRequestsPrefix(input, resources0, items, i, parent);
      resources := PushWebhookItem(resolver, input, resources, items[i].0, items[i].1, parent);
    }
    assert items[..|items|] == items;
  }

  /** The group loop: for each tag, its group, then its requests. */
  method PushGroups(resolver: RefResolver, input: ExportInput, resources0: seq<Resource>, groups: seq<(string, seq<TaggedOp>)>)
    returns (resources: seq<Resource>)
    requires resolver.resolving == {} && resolver.doc == input.spec.json && RefsAreStrings(input.spec.json) && GroupsWellTyped(groups)
    modifies resolver
    ensures resolver.resolving == {}
    ensures resources == resources0 + GroupResources(input, groups, |groups|, |resources0|)
  {
    resources := resources0;
    for i := 0 to |groups|
      invariant resolver.resolving == {}
      invariant resources == resources0 + GroupResources(input, groups, i, |resources0|)
    {
      resources := PushGroup(resolver, input, resources0, resources, groups, i);
    }
  }

  /** One turn of the tag loop: the tag's request group, then its requests. */
  method PushGroup(resolver: RefResolver, input: ExportInput, ghost resources0: seq<Resource>, before: seq<Resource>,
                   groups: seq<(string, seq<TaggedOp>)>, i: nat)
    returns (resources: seq<Resource>)
    requires resolver.resolving == {} && resolver.doc == input.spec.json && RefsAreStrings(input.spec.json) && GroupsWellTyped(groups)
    requires i < |groups| && before == resources0 + GroupResources(input, groups, i, |resources0|)
    modifies resolver
    ensures resolver.resolving == {}
    ensures resources == resources0 + GroupResources(input, groups, i + 1, |resources0|)
  {
    hide RequestOf, GroupRequests, TagDescription;
    ghost var done := GroupResources(input, groups, i, |resources0|);
    var tag := groups[i].0;
    var groupId := |before|;
    var group := RequestGroup(0, tag, TagDescription(input.spec, tag));
    assert GroupResources(input, groups, i + 1, |resources0|) == done + [group] + GroupRequests(input, groups[i].1, groupId);
    hide GroupResources;
    resources := PushRequests(resolver, input, before + [group], groups[i].1, groupId);
    AppendRegrouped(resources0, done, [group], GroupRequests(input, groups[i].1, groupId));
  }

  lemma AppendRegrouped<T>(a: seq<T>, b: seq<T>, c: seq<T>, d: seq<T>)
    ensures a + b + c + d == a + (b + c + d)
  {
  }

  /** `convertToInsomniaCollection`: the resources in push order, as `InsomniaResources` lists them. */
  method ConvertToInsomniaCollection(input: ExportInput) returns (collection: InsomniaCollection)
    requires SpecWellTyped(input.spec)
    ensures collection.exportFormat == 4 && collection.exportSource == "specula-openapi-exporter"
    ensures collection.resources == InsomniaResources(input)
  {
    hide RequestOf, GroupRequests, GroupResources, EnvData, WebhookOps, GroupsOf, Filings;
    var spec := input.spec;
    var resolver := new RefResolver(spec.json);
    var resources := [Workspace(OrElse(Some(spec.info.title), "API Collection"), spec.info.description)];
    if spec.servers.Some? && |spec.servers.value| > 0 {
      var data := BuildEnvironmentData(spec.servers.value[0]);
      resources := resources + [Environment(0, data)];
    }
    assert resources == HeadResources(spec);
    var operationsByTag := GroupOperationsByTag(spec.paths);
    FilingsOfWellTyped(spec.paths);
    GroupsOfWellTyped(Filings(spec.paths));
    resources := PushGroups(resolver, input, resources, operationsByTag);
    if spec.webhooks.Some? {
      var webhookGroupId := |resources|;
      resources := resources + [RequestGroup(0, "Webhooks", None)];
      resources := PushWebhooks(resolver, input, resources, spec.webhooks.value, webhookGroupId);
    }
    collection := InsomniaCollection(4, "specula-openapi-exporter", resources);
  }
}
