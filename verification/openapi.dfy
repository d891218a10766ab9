/**
  The shapes of an OpenAPI document as the viewer reads them (`src/types/openapi.ts`),
  and the tag tree it builds for navigation. Parts that may be `$ref` objects
  (parameters, request bodies, responses, schemas) stay JSON values, because the
  code passes them through the reference resolver before reading them.
 */
module OpenApi {
  import opened Wrappers
  import opened Json
  import opened OrderedMaps

  /** A server variable; only its default value is read. */
  datatype ServerVariable = ServerVariable(default: string)

  datatype Server = Server(url: string, variables: Option<seq<(string, ServerVariable)>>)

  datatype Info = Info(title: string, description: Option<string>)

  /** One security requirement: scheme names with their scopes. */
  type SecurityRequirement = seq<(string, seq<string>)>

  /** An entry of the document's top-level `tags` list. */
  datatype TagInfo = TagInfo(name: string, description: Option<string>)

  /** A security scheme; `schemeType` is the scheme's `type` and `location` its `in`. */
  datatype SecurityScheme = SecurityScheme(
    schemeType: string,
    name: Option<string>,
    location: Option<string>,
    scheme: Option<string>,
    bearerFormat: Option<string>)

  datatype Components = Components(securitySchemes: Option<seq<(string, SecurityScheme)>>)

  datatype Operation = Operation(
    tags: Option<seq<string>>,
    summary: Option<string>,
    description: Option<string>,
    operationId: Option<string>,
    parameters: Option<seq<Value>>,
    requestBody: Option<Value>,
    responses: seq<(string, Value)>,
    security: Option<seq<SecurityRequirement>>)

  /** A path item: an operation slot per HTTP method. */
  datatype PathItem = PathItem(
    get: Option<Operation>,
    post: Option<Operation>,
    put: Option<Operation>,
    delete: Option<Operation>,
    patch: Option<Operation>,
    options: Option<Operation>,
    head: Option<Operation>,
    trace: Option<Operation>)

  /**
    A whole document. `json` is the same document as parsed JSON: the reference
    resolver walks `#/...` pointers through it.
   */
  datatype OpenAPISpec = OpenAPISpec(
    info: Info,
    servers: Option<seq<Server>>,
    paths: seq<(string, PathItem)>,
    webhooks: Option<seq<(string, PathItem)>>,
    components: Option<Components>,
    security: Option<seq<SecurityRequirement>>,
    tags: Option<seq<TagInfo>>,
    json: Value)

  /** A loaded document with the title its source gave it. */
  datatype SpecWithSource = SpecWithSource(spec: OpenAPISpec, title: Option<string>)

  /** The eight HTTP methods a path item can hold an operation for. */
  datatype HttpMethod = GET | POST | PUT | DELETE | PATCH | OPTIONS | HEAD | TRACE

  /** The method's key in a path item: its lower-case name. */
  function MethodName(m: HttpMethod): string {
    match m
    case GET => "get"
    case POST => "post"
    case PUT => "put"
    case DELETE => "delete"
    case PATCH => "patch"
    case OPTIONS => "options"
    case HEAD => "head"
    case TRACE => "trace"
  }

  /** The eight methods in the order the viewer visits them. */
  const Methods: seq<HttpMethod> := [GET, POST, PUT, DELETE, PATCH, OPTIONS, HEAD, TRACE]

  /** The operation a path item holds for a method. */
  function OperationOf(item: PathItem, m: HttpMethod): Option<Operation> {
    match m
    case GET => item.get
    case POST => item.post
    case PUT => item.put
    case DELETE => item.delete
    case PATCH => item.patch
    case OPTIONS => item.options
    case HEAD => item.head
    case TRACE => item.trace
  }

  /** `pathItem[key]` for a method key given as text: only the eight lower-case names hold an operation. */
  function OperationAt(item: PathItem, key: string): (r: Option<Operation>)
    ensures r.Some? ==> exists m :: MethodName(m) == key && r == OperationOf(item, m)
  {
    match key
    case "get" => OperationOf(item, GET)
    case "post" => OperationOf(item, POST)
    case "put" => OperationOf(item, PUT)
    case "delete" => OperationOf(item, DELETE)
    case "patch" => OperationOf(item, PATCH)
    case "options" => OperationOf(item, OPTIONS)
    case "head" => OperationOf(item, HEAD)
    case "trace" => OperationOf(item, TRACE)
    case _ => None
  }

  /** Looking a method up by its name finds the method's operation. */
  lemma OperationAtName(item: PathItem, m: HttpMethod)
    ensures OperationAt(item, MethodName(m)) == OperationOf(item, m)
  {
  }

  /** An operation attached to a tag node: upper-case method, path and the operation itself. */
  datatype OpEntry = OpEntry(httpMethod: string, path: string, operation: Operation)

  /**
    A node of the tag tree. `children` is the insertion-ordered map from a child's
    key to the child.
   */
  datatype TagNode = TagNode(
    name: string,
    fullPath: string,
    children: seq<(string, TagNode)>,
    operations: seq<OpEntry>)

  /** A node that holds nothing: no operation and no child. */
  predicate IsEmpty(n: TagNode) {
    |n.operations| == 0 && |n.children| == 0
  }

  /** Every operation entry in a tree, depth first: the node's own, then each child's. */
  function AllEntries(n: TagNode): seq<OpEntry>
    decreases n
  {
    n.operations + ChildEntries(n, n.children)
  }

  function ChildEntries(n: TagNode, cs: seq<(string, TagNode)>): seq<OpEntry>
    requires forall i :: 0 <= i < |cs| ==> cs[i].1 < n
    decreases n, |cs|
  {
    if cs == [] then [] else AllEntries(cs[0].1) + ChildEntries(n, cs[1..])
  }

  /** A filtered child is kept only when it has an entry or a child of its own. */
  predicate Kept(n: Option<TagNode>) {
    n.Some? && !IsEmpty(n.value)
  }

  /** The entries of a list of children, child by child. */
  function KidsEntries(cs: seq<(string, TagNode)>): seq<OpEntry> {
    if cs == [] then [] else KidsEntries(cs[..|cs| - 1]) + AllEntries(cs[|cs| - 1].1)
  }

  lemma {:induction false} KidsEntriesCons(c: (string, TagNode), cs: seq<(string, TagNode)>)
    ensures KidsEntries([c] + cs) == AllEntries(c.1) + KidsEntries(cs)
    decreases |cs|
  {
    if cs != [] {
      assert ([c] + cs)[..|[c] + cs| - 1] == [c] + cs[..|cs| - 1];
      KidsEntriesCons(c, cs[..|cs| - 1]);
    } else {
      assert [c][..0] == [];
    }
  }

  lemma {:induction false} ChildEntriesKids(n: TagNode, cs: seq<(string, TagNode)>)
    requires forall i :: 0 <= i < |cs| ==> cs[i].1 < n
    ensures ChildEntries(n, cs) == KidsEntries(cs)
    decreases |cs|
  {
    if cs != [] {
      ChildEntriesKids(n, cs[1..]);
      KidsEntriesCons(cs[0], cs[1..]);
      assert [cs[0]] + cs[1..] == cs;
    }
  }

  /** The entries of an optional node: none for `null`. */
  function OptEntries(n: Option<TagNode>): seq<OpEntry> {
    match n
    case Some(t) => AllEntries(t)
    case None => []
  }

  /** No node below `n`, at any depth, is empty. */
  predicate NoEmptyBelow(n: TagNode)
    decreases n
  {
    forall i :: 0 <= i < |n.children| ==> !IsEmpty(n.children[i].1) && NoEmptyBelow(n.children[i].1)
  }

  /** A node that is not empty and has no empty node below it holds at least one entry. */
  lemma {:induction false} NonEmptyHasEntries(n: TagNode)
    requires !IsEmpty(n) && NoEmptyBelow(n)
    ensures |AllEntries(n)| > 0
    decreases n
  {
    if |n.operations| == 0 {
      NonEmptyHasEntries(n.children[0].1);
    }
  }
}
