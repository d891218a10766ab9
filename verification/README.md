# specula: the OpenAPI viewer's core, modelled in Dafny

specula renders OpenAPI documents in the browser. This project models the parts of it
that compute rather than render, and proves what they promise:

- **Reference resolution** (`ref_resolver.dfy`): `RefResolver.resolve` and `resolveRef`
  walk `#/a/b` pointers from the document root with a `resolving` set as cycle guard,
  and answer external, missing and circular references with sentinel objects.
  Resolution always terminates, and the guard set is empty again after every call.
- **Tag index** (`openapi_parser.dfy`, `openapi.dfy`): `parseOpenAPISpec` splits tags on
  `|` into a tree of tag nodes and files each operation at its deepest node;
  `getMethodColor`.
- **Tree filters** (`search.dfy`, `filter.dfy`): the text search over operations and
  tag trees, and the filter by method set and privacy mode.
- **Privacy cache** (`operation_cache.dfy`): the two memo maps of
  `checkOperationPrivacy`, with clear and invalidate.
- **Response validator** (`response_validator.dfy`, `validation_properties.dfy`):
  response selection by status code, the header and body checks, and the recursive
  schema walk. The walk covers `allOf`/`oneOf`/`anyOf`, `nullable`, the types,
  `required`, `additionalProperties`, lengths, bounds and `enum`.
- **Collection exporters** (`export_common.dfy`, `export_insomnia.dfy`,
  `export_postman.dfy`): Insomnia v4 and Postman v2.1 export. This covers:
  - grouping operations by tag;
  - URL rewriting;
  - splitting parameters into headers and query entries;
  - mapping security schemes to auth;
  - choosing a body by media type;
  - generating examples from schemas.
- **Client stores** (`env_store.dfy`, `spec_cache.dfy`, `request_history.dfy`,
  `endpoint_favorites.dfy`): environments with `{{name}}` substitution, the bounded
  spec cache that keeps favourites, the bounded request history with its filters,
  and the favourite endpoints.

Shared modules model JavaScript's runtime:

- `json.dfy` models JSON values with insertion-ordered objects.
- `collections.dfy` models `Map` as an insertion-ordered association list, and
  `Array.prototype.filter` and the descending `sort`.
- `strings.dfy` models ASCII case mapping, `trim`, `split`, `includes` and `String(n)`.
- `wrappers.dfy` holds `Option`.

Where the source changes state in place, the model uses a class whose methods are
proved against the functions that specify them. Examples are the resolver's guard set,
the privacy cache maps, the stores, and the exporters' push loops. Clocks, random ids,
storage contents and the functions the core imports but that are not part of this
model are parameters.

## Model

| member | source | states |
|---|---|---|
| RefResolution.ResolveRefF | src/utils/ref-resolver.ts:35-70 | a reference already being resolved gives the `__circular` sentinel; any other result is a sentinel or a truthy target with no `$ref` of its own, because chains are followed to their end; an `__external`-shaped result only ever comes from a reference that does not start with `#` |
| RefResolution.RefResolver.ResolveRef | src/utils/ref-resolver.ts:35-70 | the pointer walk as a loop; `resolving` is the same on every exit as on entry (the `finally` block), and the result is `ResolveRefF`'s |
| RefResolution.ExternalRef | src/utils/ref-resolver.ts:44-49 | the `__external` sentinel comes back exactly when the first `/` segment is not `#` |
| RefResolution.ResolvesTo | src/utils/ref-resolver.ts:51-66 | a reference `#/s1/.../sn` whose walk reaches a truthy target without `$ref` resolves to that target, unchanged |
| RefResolution.ResolvesThrough | src/utils/ref-resolver.ts:64-66 | a target that holds a `$ref` is resolved in turn, with the first reference added to those in progress |
| RefResolution.ResolvesComponent | src/utils/ref-resolver.ts:44-66 | `#/components/schemas/<name>` resolves to the schema stored under that name |
| RefResolution.FollowsChain | src/utils/ref-resolver.ts:64-66 | in a document where `#/a` points at `#/b`, `#/a` resolves to `#/b`'s target |
| RefResolution.DetectsCycle | src/utils/ref-resolver.ts:37-41 | two references that point at each other are reported as `__circular` |
| RefResolution.WalkPastPrimitive | src/utils/ref-resolver.ts:52-56 | walking past a string gives the `__notFound` sentinel |
| RefResolution.SentinelShapes | src/utils/ref-resolver.ts:35-62 | the three sentinels are told apart: only `__external` looks external, and it carries its reference |
| RefResolution.ResolveF | src/utils/ref-resolver.ts:12-33 | a non-object comes back unchanged; an array keeps its length; an object without a truthy `$ref` keeps exactly its keys other than `$ref`; no resolved object carries a `$ref` unless it is a sentinel |
| RefResolution.RefResolver.Resolve | src/utils/ref-resolver.ts:12-33 | the recursive walk as methods; `resolving` is unchanged afterwards and the result is `ResolveF`'s |
| RefResolution.RefResolver.ResolveItems | src/utils/ref-resolver.ts:22-24 | the array branch as a loop; each element resolved in turn |
| RefResolution.RefResolver.ResolveFields | src/utils/ref-resolver.ts:26-32 | the object branch as a loop; each entry other than `$ref` copied with its value resolved |
| RefResolution.RefResolver.constructor | src/utils/ref-resolver.ts:7-10 | a fresh resolver has nothing in progress |
| RefResolution.ResolveArr | src/utils/ref-resolver.ts:22-24 | an array resolves to the array of its resolved elements, element by element |
| RefResolution.ResolveObj | src/utils/ref-resolver.ts:26-32 | an object without a truthy `$ref` resolves to its entries other than `$ref`, each value resolved, in order |
| RefResolution.KeysOfFilter | src/utils/ref-resolver.ts:27-28 | dropping the `$ref` entries drops exactly the `$ref` keys |
| RefResolution.ResolveRefFree | src/utils/ref-resolver.ts:12-33 | a value that holds no reference resolves to an equal copy |
| RefResolution.Resolve | src/utils/ref-resolver.ts:12-33 | resolving from an empty `resolving` set keeps every `$ref` a string |
| RefResolution.ResolveStrings | src/utils/ref-resolver.ts:12-33 | resolving a value whose `$ref`s are strings gives one whose `$ref`s are strings |
| RefResolution.HasRef | src/utils/ref-resolver.ts:73-75 | an object with a truthy `$ref` has a reference |
| RefResolution.GetRefName | src/utils/ref-resolver.ts:78-81 | the name holds no `/` |
| RefResolution.GetRefNameOf | src/utils/ref-resolver.ts:78-81 | the name of `prefix/name` is `name` |
| RefResolution.GetRefNamePlain | src/utils/ref-resolver.ts:78-81 | a reference without `/` is its own name |
| TagIndex.ParseOpenAPISpec | src/utils/openapi-parser.ts:3-78 | the method returns the functional index `ParseSpec` of the document: paths first, then webhooks |
| TagIndex.ProcessPaths | src/utils/openapi-parser.ts:12-13 | the path loop files every path item's placements, in order |
| TagIndex.ProcessPathItem | src/utils/openapi-parser.ts:14-18 | the method loop files the operation of each of the eight methods the item has, in method order |
| TagIndex.FileOperation | src/utils/openapi-parser.ts:26-64 | the tag loop files one placement per tag, in tag order |
| TagIndex.ParseSpecShape | src/utils/openapi-parser.ts:3-78 | the root is `root` with full path `""` and no entry; the tree is well formed; the entries at any node are exactly the entries filed under its segments, in filing order, one per tag and none deduplicated |
| TagIndex.NothingAtRoot | src/utils/openapi-parser.ts:32-35 | no entry is ever filed at the root, because every tag has at least one segment |
| TagIndex.TagsOf | src/utils/openapi-parser.ts:21-24 | missing tags become one tag (`Untagged`); otherwise there is one tag per listed tag, so `tags: []` files nothing |
| TagIndex.PartsOf | src/utils/openapi-parser.ts:28-35 | a tag always yields at least one segment, the sentinel when splitting yields none |
| TagIndex.TagPartsIgnoreSpacing | src/utils/openapi-parser.ts:27-30 | removing blanks around `|` first changes nothing: the segments are those of splitting on `|`, trimming and dropping empties |
| TagIndex.TagPartsAreSegments | src/utils/openapi-parser.ts:28-30 | every segment is non-empty, trimmed and free of `|` |
| TagIndex.PartsAreSegments | src/utils/openapi-parser.ts:28-35 | the same holds with the sentinel |
| TagIndex.FirstSegment | src/utils/openapi-parser.ts:28-30 | the first segment of `a|b` is `a` trimmed |
| TagIndex.WebhookPartsFirst | src/utils/openapi-parser.ts:22-24 | a webhook tag always files under a top-level `Webhooks` node |
| TagIndex.OpPlacements | src/utils/openapi-parser.ts:26-64 | one placement per tag |
| TagIndex.Insert | src/utils/openapi-parser.ts:38-63 | the node keeps its name, full path and entries; a child is added only for a first segment not yet present, and existing children are reused |
| TagIndex.InsertOps | src/utils/openapi-parser.ts:41-62 | filing adds exactly one entry, at the node of the tag's segments, and no other node's entries change |
| TagIndex.InsertAllOps | src/utils/openapi-parser.ts:16-64 | filing a sequence of placements appends their entries, node by node, in order |
| TagIndex.InsertWellFormed | src/utils/openapi-parser.ts:41-53 | filing keeps every node's name its segment and its full path the segments so far joined by ` | ` |
| TagIndex.InsertAllWellFormed | src/utils/openapi-parser.ts:16-64 | the same for a whole sequence of placements |
| TagIndex.MethodColorKnown | src/utils/openapi-parser.ts:80-92 | each of the eight methods has the colour named after it, in either case |
| TagIndex.MethodColorCaseInsensitive | src/utils/openapi-parser.ts:80-92 | the colour does not depend on letter case |
| TagIndex.MethodColorMuted | src/utils/openapi-parser.ts:80-92 | the colour is `muted` exactly when the upper-cased name is none of the eight methods |
| OpenApi.OperationAt | src/types/openapi.ts:52-62 | only the eight lower-case method names hold an operation |
| OpenApi.OperationAtName | src/types/openapi.ts:52-62 | looking a method up by its name finds its operation |
| OpenApi.NonEmptyHasEntries | src/types/openapi.ts:231-240 | a non-empty node with no empty node below it holds at least one entry |
| Search.NormalizeIdempotent | src/utils/search.ts:6-8 | normalising twice is normalising once |
| Search.MatchesIgnoreCase | src/utils/search.ts:13-16 | matching ignores the letter case of both the text and the query |
| Search.BlankQueryMatches | src/utils/search.ts:13-16 | a query that trims to nothing matches every non-empty text |
| Search.OperationMatchesParts | src/utils/search.ts:21-73 | an operation matches exactly when its method, path, summary, description or operationId does, or one of its tags, parameter names or descriptions, its request body description, or one of its status codes or response descriptions |
| Search.SearchInOperation | src/utils/search.ts:21-73 | the early-return checks as a method; its answer is `OperationMatches` |
| Search.SearchTags | src/utils/search.ts:45-49 | the tag loop answers whether any tag matches |
| Search.SearchParams | src/utils/search.ts:52-57 | the parameter loop answers whether any name or description matches |
| Search.SearchResponses | src/utils/search.ts:65-70 | the response loop answers whether any status code or description matches |
| Search.TagTextsPrefix | src/utils/search.ts:45-49 | a match among the first tags is a match among all of them |
| Search.FilterTagNodeTree | src/utils/search.ts:79-116 | the recursive copy as a method, with the child loop; the result is `FilterTree`'s |
| Search.FilterTreeEntries | src/utils/search.ts:84-115 | for a query that is not blank, the pruned tree holds exactly the matching entries of the original, in their original depth-first order |
| Search.FilterTreeNoEmpty | src/utils/search.ts:94-104 | for a query that is not blank, no node below the pruned root is empty |
| Search.SearchAllOperations | src/utils/search.ts:131-169 | the three nested loops as methods; the hits are `SearchAll`'s |
| Search.SearchPaths | src/utils/search.ts:147-165 | the path loop appends each path's hits in order |
| Search.SearchMethods | src/utils/search.ts:148-164 | the method loop appends the hits of the eight methods in order |
| Search.SearchAllSound | src/utils/search.ts:142-166 | every hit is an operation of one of the eight methods at a path of the document it names, and it matches |
| Search.HitIndex | src/utils/search.ts:155-162 | a hit carries the index of the document it was found in |
| Search.SearchAllOrdered | src/utils/search.ts:142-166 | hits come in document order |
| Search.SearchAllComplete | src/utils/search.ts:131-169 | for a query that is not blank, every matching operation of every document is found, with its document's index and title |
| MethodFilter.FilterTagNodeBySecurityAndMethods | src/utils/filter.ts:7-61 | the recursive copy as a method, with the child loop; the result is `FilterNode`'s |
| MethodFilter.FilterNodeEntries | src/utils/filter.ts:14-49 | the filtered tree holds exactly the passing operations of the original, in their original depth-first order: each has a selected method, is private under `private` and public under `public` |
| MethodFilter.FilterKidsEntries | src/utils/filter.ts:36-49 | the same for the surviving children of a node |
| MethodFilter.FilterNodeNoEmpty | src/utils/filter.ts:43-57 | a surviving node is never empty, has no empty node below it, and keeps the original's name and full path |
| MethodFilter.FilterNodeNull | src/utils/filter.ts:52-60 | the result is `null` exactly when no operation anywhere in the tree passes |
| MethodFilter.AllModeIgnoresPrivacy | src/utils/filter.ts:21-29 | in `all` mode privacy is never consulted: any two privacy predicates give the same tree |
| MethodFilter.PrivatePublicSplit | src/utils/filter.ts:14-32 | the private and the public view split the operations `all` keeps between them, with no overlap |
| OperationCache.MethodColorClassIsColor | src/utils/operation-cache.ts:16-28 | the background class is the sidebar's colour behind `bg-` |
| OperationCache.MethodColorClassCases | src/utils/operation-cache.ts:16-28 | the class ignores letter case, names each method after its key, and is `bg-muted` exactly for names that are no method |
| OperationCache.KeyParts | src/utils/operation-cache.ts:38 | a key `method:path` gives back its method and path when the method holds no `:` |
| OperationCache.KeyCollision | src/utils/operation-cache.ts:38 | two different operations share a key when the method holds a `:` |
| OperationCache.FirstHolder | src/utils/operation-cache.ts:58-62 | the document found first holds the path, with that path item |
| OperationCache.SearchSpecsDecides | src/utils/operation-cache.ts:58-70 | the search over the documents answers as the first document holding both the path and the method decides, `false` when none does |
| OperationCache.SearchSpecsCaches | src/utils/operation-cache.ts:58-75 | the search caches a path item exactly when some document holds the path |
| OperationCache.CheckRemembers | src/utils/operation-cache.ts:38-43 | after a call the privacy map holds the answer under the operation's key, and a hit answers from the map and changes nothing |
| OperationCache.CheckMissDecides | src/utils/operation-cache.ts:46-75 | on a miss with no path item cached, the first document holding both the path and the method decides; with no document holding the path, `null` is cached for it |
| OperationCache.StalePathItem | src/utils/operation-cache.ts:49-55 | a cached path item from an earlier call answers for a method it does not have, so the result differs from the intended search (see Findings) |
| OperationCache.OperationCaches.CheckOperationPrivacy | src/utils/operation-cache.ts:34-81 | `checkOperationPrivacy` as written, as a method on the two maps; its answer and new maps are `CheckStep`'s |
| OperationCache.OperationCaches.SearchAndCache | src/utils/operation-cache.ts:58-70 | the search loop as written: each document holding the path replaces the cached path item until one holds the method; the privacy map is untouched |
| OperationCache.FindOperation | src/utils/operation-cache.ts:58-70 | the corrected search loop answers with `Decide` and keeps the first document holding the path |
| OperationCache.OperationCaches.CheckOperationPrivacyCorrected | src/utils/operation-cache.ts:34-81 | the corrected check answers with `Decide`, records the answer under the key, and keeps the maps in agreement with the documents |
| OperationCache.OperationCaches.LookupCorrected | src/utils/operation-cache.ts:46-76 | the corrected miss path answers with `Decide` and keeps the maps in agreement |
| OperationCache.FirstHolderDecides | src/utils/operation-cache.ts:58-70 | when the first document holding the path has the method, that document decides |
| OperationCache.ValidPrivacyEntry | src/utils/operation-cache.ts:79-80 | an entry of agreeing maps answers as `Decide` does |
| OperationCache.ValidPathEntry | src/utils/operation-cache.ts:62 | a path entry of agreeing maps is the first document holding the path |
| OperationCache.ValidPutPrivacy | src/utils/operation-cache.ts:79 | recording the intended answer keeps the maps in agreement |
| OperationCache.ValidPutPath | src/utils/operation-cache.ts:62 | recording the first document holding a path keeps the maps in agreement |
| OperationCache.ValidRemove | src/utils/operation-cache.ts:95-99 | invalidating an operation keeps the maps in agreement |
| OperationCache.OperationCaches.ClearOperationCaches | src/utils/operation-cache.ts:87-90 | both maps become empty |
| OperationCache.ClearedIsValid | src/utils/operation-cache.ts:87-90 | empty maps agree with any documents |
| OperationCache.OperationCaches.InvalidateOperationCache | src/utils/operation-cache.ts:95-99 | only the operation's key and its path are removed |
| ResponseValidation.ResultOf | src/utils/response-validator.ts:117-121 | `valid` is exactly "no error", with the errors and warnings gathered |
| ResponseValidation.BothOk | src/utils/response-validator.ts:142-143 | appending an empty report adds nothing |
| ResponseValidation.GatherPrefix | src/utils/response-validator.ts:139-144 | gathering one more report appends its errors and warnings |
| ResponseValidation.FindMediaType | src/utils/response-validator.ts:97-99 | the media type chosen is a declared one that the content type includes or that holds a `*` |
| ResponseValidation.ValidateResponseF | src/utils/response-validator.ts:32-122 | the whole response check, `None` only where the recursion would exceed the fuel; `valid` is exactly "no error"; computes the corrected `integer` test, exclusive bounds and unfollowable-reference rule of Findings 2-4 |
| ResponseValidation.ResponseValidator.ValidateResponse | src/utils/response-validator.ts:32-122 | the method, with its header loop and resolver calls, answers as `ValidateResponseF` (corrected as in Findings 2-4) |
| ResponseValidation.ResponseValidator.ValidateHeaders | src/utils/response-validator.ts:72-92 | the header loop gathers each header's report, in order |
| ResponseValidation.ResponseValidator.ValidateHeader | src/utils/response-validator.ts:74-90 | one header: the required check, then its schema |
| ResponseValidation.ResponseValidator.ValidateContent | src/utils/response-validator.ts:95-115 | the content check: the chosen media type's schema against the body, or a `content-type` warning |
| ResponseValidation.ResponseValidator.ValidateValue | src/utils/response-validator.ts:127-135 | `validateValue` as a method answers as `CheckValue`: first the reference, where a reference that cannot be followed passes (corrected, Finding 3) |
| ResponseValidation.ResponseValidator.ValidateCombined | src/utils/response-validator.ts:137-192 | the `allOf`, `oneOf` and `anyOf` branches answer as `CheckCombined` |
| ResponseValidation.ResponseValidator.ValidateTyped | src/utils/response-validator.ts:194-387 | the `null` and type branches answer as `CheckTyped`, with the corrected `integer` test and exclusive bounds (Findings 2 and 4) |
| ResponseValidation.ResponseValidator.ValidateAll | src/utils/response-validator.ts:139-144 | the `allOf` loop gathers every subschema's report, in order |
| ResponseValidation.ResponseValidator.CountValid | src/utils/response-validator.ts:150-157 | the `oneOf`/`anyOf` loop counts the subschemas the value passes |
| ResponseValidation.ResponseValidator.ValidateArray | src/utils/response-validator.ts:211-249 | the array branch answers as `CheckArray` |
| ResponseValidation.ResponseValidator.ValidateItems | src/utils/response-validator.ts:223-230 | the item loop checks item `i` at `path[i]`, in order |
| ResponseValidation.ResponseValidator.ValidateObject | src/utils/response-validator.ts:250-301 | the object branch answers as `CheckObject` |
| ResponseValidation.ResponseValidator.ValidateProperties | src/utils/response-validator.ts:274-287 | the property loop checks each declared property the object has, at `path.name` |
| ResponseValidation.SubReports | src/utils/response-validator.ts:139-144 | one report per subschema |
| ResponseValidation.ItemReports | src/utils/response-validator.ts:225-229 | one report per item |
| ResponseValidation.RequiredReports | src/utils/response-validator.ts:262-271 | one report per required name |
| ResponseValidation.PropertyReports | src/utils/response-validator.ts:274-287 | one report per declared property |
| ValidationProperties.GatherClean | src/utils/response-validator.ts:139-145 | a gathered report is clean exactly when every part is |
| ValidationProperties.GatherNoWarnings | src/utils/response-validator.ts:139-145 | parts without warnings gather to no warnings |
| ValidationProperties.ThenAllClean | src/utils/response-validator.ts:139-145 | a combined report exists exactly when every step finished, and is clean exactly when every step is |
| ValidationProperties.CountCleanZero | src/utils/response-validator.ts:150-158 | the count is zero exactly when every step has errors |
| ValidationProperties.CountCleanOne | src/utils/response-validator.ts:176-184 | the count is above zero exactly when some step is clean |
| ValidationProperties.CountCleanTwo | src/utils/response-validator.ts:150-164 | the count is above one exactly when two different steps are clean |
| ValidationProperties.AllOfRule | src/utils/response-validator.ts:138-146 | under `allOf` the value passes exactly when it passes every subschema |
| ValidationProperties.OneOfCountedErrors | src/utils/response-validator.ts:158-170 | a counted `oneOf` report has an error exactly when no sub-check is clean, and then no warning |
| ValidationProperties.AnyOfCounted | src/utils/response-validator.ts:184-191 | a counted `anyOf` report has an error exactly when no sub-check is clean, and never a warning |
| ValidationProperties.OneOfRule | src/utils/response-validator.ts:149-172 | under `oneOf`, an error exactly when the value passes no subschema, and then no warning |
| ValidationProperties.OneOfWarning | src/utils/response-validator.ts:164-170 | under `oneOf`, a warning exactly when the value passes two different subschemas |
| ValidationProperties.AnyOfRule | src/utils/response-validator.ts:175-192 | under `anyOf`, an error exactly when the value passes no subschema, and never a warning |
| ValidationProperties.NullRule | src/utils/response-validator.ts:195-204 | `null` passes exactly a schema with `nullable: true` or `type: 'null'` |
| ValidationProperties.NotAnArray | src/utils/response-validator.ts:212-220 | a non-array against `type: 'array'` is exactly one error, at the path |
| ValidationProperties.ArrayRule | src/utils/response-validator.ts:222-249 | an array passes exactly when its length fits `minItems`/`maxItems` and, given `items`, every item passes at `path[i]` |
| ValidationProperties.NotAnObject | src/utils/response-validator.ts:251-259 | a value that is no plain object against `type: 'object'` is exactly one error, at the path |
| ValidationProperties.ObjectRule | src/utils/response-validator.ts:261-301 | an object passes exactly when it has every required name, each declared property it has passes, and under `additionalProperties: false` it has no undeclared key |
| ValidationProperties.RequiredMissing | src/utils/response-validator.ts:262-271 | a missing required property is reported at `path.name` |
| ValidationProperties.AdditionalReported | src/utils/response-validator.ts:290-301 | under `additionalProperties: false` an undeclared key is reported at `path.key` |
| ValidationProperties.StringRule | src/utils/response-validator.ts:314-352 | a string passes `type: 'string'` exactly when it fits `minLength` and `maxLength`, counted in UTF-16 code units, and `enum` |
| ValidationProperties.NumberRule | src/utils/response-validator.ts:355-379 | a number passes `number` and `integer` exactly when it fits the bounds (with the type test corrected, see Findings) |
| ValidationProperties.OtherTypeRule | src/utils/response-validator.ts:302-311 | for any other type the only check is the type itself |
| ValidationProperties.IntegerRejectedAsWritten | src/utils/response-validator.ts:304-311 | as written, the number 5 fails `type: 'integer'`; the corrected test accepts it |
| ValidationProperties.PrimitiveMismatchMeaning | src/utils/response-validator.ts:304-311 | corrected: a value has the type exactly when `typeof` names it, or it is a number and the type is `integer`; for other types it agrees with the source |
| ValidationProperties.ExclusiveBoundAsWritten | src/utils/response-validator.ts:356-378 | as written, `minimum: 5, exclusiveMinimum: true` lets 5 through, and likewise for the maximum; the corrected bounds reject it |
| ValidationProperties.ExclusiveIgnoredAsWritten | src/utils/response-validator.ts:357-369 | as written, the exclusive flag changes nothing when the bound is not 0 |
| ValidationProperties.ExclusiveBoundMeaning | src/utils/response-validator.ts:356-378 | corrected: an exclusive bound rejects exactly the values not strictly beyond it; inclusive bounds agree with the source |
| ValidationProperties.RefChainAsWritten | src/utils/response-validator.ts:132-135 | the reference step as written: resolve and start over while the schema has a `$ref` |
| ValidationProperties.ExternalSentinel | src/utils/response-validator.ts:132-135 | the resolver answers an external reference with a sentinel that still carries a `$ref` |
| ValidationProperties.ExternalRefLoopsAsWritten | src/utils/response-validator.ts:132-135 | as written, an external reference sends the validation round for ever, on any fuel |
| ValidationProperties.ExternalRefPasses | src/utils/response-validator.ts:132-135 | corrected: a reference the resolver cannot follow constrains nothing |
| ValidationProperties.SelectResponseOrder | src/utils/response-validator.ts:46-59 | the response chosen is the exact code's when truthy, else its class's (`2xx`, `4xx`, `5xx`) when truthy, else `default`'s |
| ValidationProperties.NoResponseIsValid | src/utils/response-validator.ts:61-67 | without a documented response the result is valid with one warning at `response`, whatever the body |
| ValidationProperties.MissingHeader | src/utils/response-validator.ts:77-82 | a required header that is absent or empty is one error at `headers.name`, and its schema is not consulted |
| ValidationProperties.OptionalHeaderAbsent | src/utils/response-validator.ts:77-90 | an absent header that is not required adds nothing |
| ExportCommon.SecurityOf | src/utils/export-insomnia.ts:247 | the security list an operation is exported with is the one the document's security table gives it, none when the table has no entry |
| ExportCommon.TagsOf | src/utils/export-insomnia.ts:142 | an operation without `tags` is filed under `Untagged`; an explicit list, even an empty one, is used as it is |
| ExportCommon.SlotFilings | src/utils/export-insomnia.ts:138-152 | an empty method slot files nothing; an operation is filed once per tag |
| ExportCommon.TagFilings | src/utils/export-insomnia.ts:143-152 | the `i`-th filing is the operation under the `i`-th tag |
| ExportCommon.TagList | src/utils/export-insomnia.ts:143-146 | the tags in filing order |
| ExportCommon.GroupsOfKeys | src/utils/export-insomnia.ts:144-146 | the groups are keyed by the tags in the order each was first seen |
| ExportCommon.GroupsOfUnique | src/utils/export-insomnia.ts:144-146 | no tag has two groups |
| ExportCommon.GroupsOfGet | src/utils/export-insomnia.ts:143-151 | a tag's group holds exactly the operations filed under it, in filing order; an unused tag has no group |
| ExportCommon.FirstSeenMembers | src/utils/export-insomnia.ts:144-146 | a tag has a group exactly when some filing names it |
| ExportCommon.GroupsOfSize | src/utils/export-insomnia.ts:143-151 | every filing lands in exactly one group |
| ExportCommon.SlotFilingsTags | src/utils/export-insomnia.ts:142-152 | an operation with `k` tags is filed `k` times, once under each |
| ExportCommon.GroupOperationsByTag | src/utils/export-insomnia.ts:131-154 | the grouping loops (paths, the eight methods, the tags) build the groups `GroupsOf` defines |
| ExportCommon.FilePathItem | src/utils/export-insomnia.ts:138-153 | the eight method slots of one path item, filed in method order |
| ExportCommon.FileSlot | src/utils/export-insomnia.ts:139-152 | one method slot: nothing when empty, else its operation under each tag |
| ExportCommon.FilePathItemStep | src/utils/export-insomnia.ts:138-153 | filing the `k`-th method's operation extends the filings by its slot |
| ExportCommon.FileOperation | src/utils/export-insomnia.ts:143-152 | one operation filed under each of its tags, in order |
| ExportCommon.FileOperationStep | src/utils/export-insomnia.ts:143-152 | filing under the `j`-th tag extends the filings by one |
| ExportCommon.TagDescription | src/utils/export-insomnia.ts:167 | a description found is that of a tag entry with the same name |
| ExportCommon.ItemOps | src/utils/export-insomnia.ts:198-220 | a webhook item yields at most one operation per method |
| ExportCommon.FilingsOfWellTyped | src/utils/export-insomnia.ts:133-154 | filing well-typed path items files well-typed operations |
| ExportCommon.GroupsOfWellTyped | src/utils/export-insomnia.ts:157-184 | grouping keeps the operations well-typed |
| ExportCommon.ItemFilingsTagged | src/utils/export-insomnia.ts:138-153 | each filing of a path item's method slots is under a tag of its operation |
| ExportCommon.FilingsTaggedOf | src/utils/export-insomnia.ts:133-154 | every filing is under a tag of its operation, `Untagged` for an operation without tags |
| ExportCommon.GroupsOfFrom | src/utils/export-insomnia.ts:143-151 | a group holds nothing but operations filed under its key |
| ExportCommon.AddedFrom | src/utils/export-insomnia.ts:144-151 | the operations a filing leaves in its group are all filed under the group's key |
| ExportCommon.PutFrom | src/utils/export-insomnia.ts:144-151 | storing such a list keeps every group drawn from the filings |
| ExportCommon.GroupedFromMore | src/utils/export-insomnia.ts:143-151 | more filings keep the groups drawn from them |
| ExportCommon.WebhookOpsWellTyped | src/utils/export-insomnia.ts:198-220 | the webhook operations of well-typed items are well-typed |
| ExportCommon.ServerUrl | src/utils/export-insomnia.ts:250 | the server URL is never empty, and it is the first server's when that is non-empty |
| ExportCommon.ItemName | src/utils/export-insomnia.ts:271 | a non-empty summary wins, then a non-empty operation id, else `METHOD path` |
| ExportCommon.HttpScheme | src/utils/export-insomnia.ts:478 | never empty: the scheme lower-cased, `bearer` when absent or empty |
| ExportCommon.VariableDefaults | src/utils/export-insomnia.ts:110-114 | one `[name, default]` pair per server variable, in declaration order |
| ExportCommon.NonEmpty | src/utils/export-insomnia.ts:275-276 | a list is written exactly when it is non-empty, and then unchanged |
| ExportCommon.UserPass | src/utils/export-insomnia.ts:489-494 | the corrected split: the user name never holds a `:` |
| ExportCommon.SplitFirst | src/utils/export-insomnia.ts:489-494 | split at the first `:`, the two parts joined by `:` give the credential back; without `:` the password is empty |
| ExportCommon.UserPassRoundTrip | src/utils/export-insomnia.ts:489-494 | corrected: the user name and the whole password, colons included, come back from `user:password` |
| ExportCommon.UserPassAsWritten | src/utils/export-insomnia.ts:489-501 | the split as written: the second piece of `split(':')` |
| ExportCommon.PasswordTruncatedAsWritten | src/utils/export-insomnia.ts:489-501 | as written, a password holding a `:` loses everything from that `:` on; the corrected split keeps it |
| ExportCommon.UserPassAgrees | src/utils/export-insomnia.ts:489-501 | where the password holds no `:`, the written split and the corrected one agree |
| ExportCommon.ParamsInComplete | src/utils/export-insomnia.ts:318-330 | every parameter resolving to the location gives its entry, disabled unless required, valued by its example |
| ExportCommon.ParamsInSound | src/utils/export-insomnia.ts:318-330 | every entry comes from a parameter resolving to the location |
| ExportCommon.HeadersAndQueryDisjoint | src/utils/export-insomnia.ts:318-353 | a parameter becomes a header or a query entry, never both |
| ExportCommon.CollectParams | src/utils/export-insomnia.ts:338-356 | the parameter loop answers as `ParamsIn` and leaves the resolver idle |
| ExportCommon.ExampleFields | src/utils/export-insomnia.ts:553-561 | an example built from properties is an object |
| ExportCommon.ExampleFieldsKeys | src/utils/export-insomnia.ts:554-560 | the example object has one entry per property, in property order |
| ExportCommon.FreshLastKey | src/utils/export-insomnia.ts:556-559 | with unique keys, each property's key is new when it is assigned |
| ExportCommon.ExampleFieldsGet | src/utils/export-insomnia.ts:556-559 | each property's entry is the example of that property's schema |
| ExportCommon.GenerateExampleFuel | src/utils/export-insomnia.ts:532-565 | fuel only decides whether an example exists: more fuel never changes one found with less |
| ExportCommon.FieldOf | src/utils/export-insomnia.ts:392-422 | a field keeps its key, is disabled unless required, and is a file with no value exactly for a binary or base64 string in a multipart form |
| ExportCommon.FieldsOf | src/utils/export-insomnia.ts:391-423 | one field per property |
| ExportCommon.FieldsOfAt | src/utils/export-insomnia.ts:391-423 | the `i`-th field is the field of the `i`-th property |
| ExportCommon.CollectFormFields | src/utils/export-insomnia.ts:390-424 | the form loop answers as `FieldsOf` |
| ExportCommon.JsonExample | src/utils/export-insomnia.ts:368-384 | the JSON body value is always truthy: a truthy `example` wins; otherwise, with a schema, a truthy example generated from it; and `{}` when neither gives one |
| ExportCommon.BuildBodyContent | src/utils/export-insomnia.ts:361-432 | the body builder, with its form loops, answers as `BodyContentOf` and leaves the resolver idle |
| ExportCommon.BodyPreference | src/utils/export-insomnia.ts:361-432 | a body is written exactly when there is one with a known media type; JSON wins over the form types and URL-encoded over multipart; file fields only in multipart, with no value |
| ExportCommon.FieldsOfFiles | src/utils/export-insomnia.ts:409-423 | only a multipart form has file fields, and a file field has no value |
| InsomniaExport.FirstIndex | src/utils/export-insomnia.ts:295 | the index found holds the character and none before it does; none means the character is absent |
| InsomniaExport.FirstIndexAt | src/utils/export-insomnia.ts:295 | the first occurrence is a position of the character with none before it |
| InsomniaExport.ClosingBrace | src/utils/export-insomnia.ts:295 | a name closed by `}` is non-empty and holds no `}` |
| InsomniaExport.RewriteNoOpen | src/utils/export-insomnia.ts:295 | text without `{` is copied unchanged |
| InsomniaExport.RewriteNoClose | src/utils/export-insomnia.ts:295 | text without `}` is copied unchanged |
| InsomniaExport.RewritePlainPrefix | src/utils/export-insomnia.ts:295 | a prefix without `{` is copied, the rest rewritten on its own |
| InsomniaExport.RewriteParam | src/utils/export-insomnia.ts:295 | `{name}` becomes `{{name}}` and the scan goes on after its `}` |
| InsomniaExport.RewriteFirst | src/utils/export-insomnia.ts:295 | a text not starting with `/` is not rewritten into one that does |
| InsomniaExport.BuildInsomniaUrl | src/utils/export-insomnia.ts:293-303 | the server URL without one trailing `/`, then the rewritten path with exactly one leading `/` |
| InsomniaExport.UrlServerSlash | src/utils/export-insomnia.ts:298 | a trailing `/` on the server URL makes no difference |
| InsomniaExport.UrlPathSlash | src/utils/export-insomnia.ts:299 | nor does a leading `/` on the path |
| InsomniaExport.RewriteTemplate | src/utils/export-insomnia.ts:295 | a one-parameter path has that parameter doubled and nothing else changed |
| InsomniaExport.UrlOfTemplate | src/utils/export-insomnia.ts:293-303 | `/users/{id}/posts` on `https://api.example.com/` gives `https://api.example.com/users/{{id}}/posts` |
| InsomniaExport.AuthFromScheme | src/utils/export-insomnia.ts:458-527 | which scheme kinds give an entry and which give none; basic and digest credentials are split at the first `:` only (corrected, Finding 5) |
| InsomniaExport.AuthCarriesCredential | src/utils/export-insomnia.ts:464-522 | each entry carries its credential; basic and digest split `user:password` back into its parts (corrected split) |
| InsomniaExport.BuildInsomniaAuth | src/utils/export-insomnia.ts:437-453 | no entry for an absent or empty security list or an undeclared first scheme; otherwise the entry of that scheme with its credential |
| InsomniaExport.GroupRequests | src/utils/export-insomnia.ts:171-183 | one request per operation, in order, under the group |
| InsomniaExport.GroupRequestsAt | src/utils/export-insomnia.ts:171-183 | the `i`-th request is that of the `i`-th operation, under the group |
| InsomniaExport.WebhookRequestsPrefix | src/utils/export-insomnia.ts:198-220 | the requests of webhook item `i` follow those of the items before it |
| InsomniaExport.WebhookResources | src/utils/export-insomnia.ts:187-221 | the `Webhooks` group is present whenever the document has `webhooks`, even with no operation |
| InsomniaExport.HeadResources | src/utils/export-insomnia.ts:89-128 | the workspace, then the environment exactly when there is a server |
| InsomniaExport.BuildEnvironmentData | src/utils/export-insomnia.ts:105-114 | the environment loop builds `EnvData`: `base_url`, then each variable default assigned in turn |
| InsomniaExport.ConvertOperationToInsomniaRequest | src/utils/export-insomnia.ts:235-288 | the request, with its parameter and body loops, answers as `RequestOf` |
| InsomniaExport.PushRequests | src/utils/export-insomnia.ts:171-183 | the request loop of one group appends `GroupRequests` |
| InsomniaExport.PushWebhookItem | src/utils/export-insomnia.ts:203-219 | the eight method slots of one webhook item, in order |
| InsomniaExport.PushWebhooks | src/utils/export-insomnia.ts:187-221 | the requests of every webhook item, in order |
| InsomniaExport.PushGroups | src/utils/export-insomnia.ts:157-184 | for each tag, its group, then its requests |
| InsomniaExport.PushGroup | src/utils/export-insomnia.ts:159-183 | one tag's request group, then its requests |
| InsomniaExport.GroupRequestsCount | src/utils/export-insomnia.ts:171-183 | a group's requests are one per operation |
| InsomniaExport.CountRequestsAppend | src/utils/export-insomnia.ts:157-221 | counting requests adds up over concatenation |
| InsomniaExport.GroupedCount | src/utils/export-insomnia.ts:157-183 | a request group followed by its requests holds one request per operation |
| InsomniaExport.GroupResourcesCount | src/utils/export-insomnia.ts:157-184 | the tag groups hold one request per operation of the groups |
| InsomniaExport.HeadCount | src/utils/export-insomnia.ts:89-128 | the workspace and the environment are not requests |
| InsomniaExport.HeadKinds | src/utils/export-insomnia.ts:89-128 | no resource before the first group is a request |
| InsomniaExport.WebhookCount | src/utils/export-insomnia.ts:187-221 | the `Webhooks` group holds one request per webhook operation |
| InsomniaExport.InsomniaRequestCount | src/utils/export-insomnia.ts:131-221 | the export holds one request per filing of a path operation under one of its tags, plus one per webhook operation |
| InsomniaExport.InGroupAt | src/utils/export-insomnia.ts:157-183 | each operation of a group is in that group |
| InsomniaExport.GroupResourcesParents | src/utils/export-insomnia.ts:157-184 | each request of the tag groups names as parent an earlier request group keyed by a group holding its operation |
| InsomniaExport.PathGroupFiled | src/utils/export-insomnia.ts:131-154 | an operation of a tag's group is filed under that tag, and the tag is one of its own |
| InsomniaExport.WebhookFiled | src/utils/export-insomnia.ts:198-219 | each webhook operation's request belongs under `Webhooks` |
| InsomniaExport.WebhookParents | src/utils/export-insomnia.ts:187-219 | each webhook request names the `Webhooks` group before it as parent |
| InsomniaExport.InsomniaRequestParents | src/utils/export-insomnia.ts:157-221 | every request's `parentId` is an earlier request group, named after a tag of the request's operation or `Webhooks` for a webhook operation |
| InsomniaExport.ConvertToInsomniaCollection | src/utils/export-insomnia.ts:81-230 | the resources in push order, as `InsomniaResources` lists them, with the corrected credential split of Finding 5 |
| PostmanExport.ParamSegmentShape | src/utils/export-postman.ts:324-325 | a braced segment holds both braces |
| PostmanExport.PathPart | src/utils/export-postman.ts:324-329 | `{name}` gives `:name`, a non-empty segment itself, an empty one nothing |
| PostmanExport.PathParts | src/utils/export-postman.ts:322-330 | the parts of the segments, in segment order |
| PostmanExport.PathPartsClean | src/utils/export-postman.ts:322-330 | every part is non-empty and free of `/` |
| PostmanExport.PathPartsOfClean | src/utils/export-postman.ts:322-330 | the parts of a path split on `/` are non-empty and hold no `/` |
| PostmanExport.PathPartsOfTemplate | src/utils/export-postman.ts:322-330 | `/a/{name}/b` gives `a`, `:name`, `b` |
| PostmanExport.TemplateSegments | src/utils/export-postman.ts:322 | `/a/{name}/b` splits into an empty segment, `a`, `{name}` and `b` |
| PostmanExport.TemplateParts | src/utils/export-postman.ts:323-330 | the four segments of a one-parameter template give three parts |
| PostmanExport.CollapseSlashes | src/utils/export-postman.ts:351 | every run of slashes becomes one |
| PostmanExport.WithoutSlashes | src/utils/export-postman.ts:351 | the text without its slashes |
| PostmanExport.CollapseFirst | src/utils/export-postman.ts:351 | collapsing keeps the first character |
| PostmanExport.CollapseNoDouble | src/utils/export-postman.ts:351 | no two slashes follow each other after collapsing |
| PostmanExport.CollapseKeepsText | src/utils/export-postman.ts:351 | collapsing only removes slashes |
| PostmanExport.CollapseIdentity | src/utils/export-postman.ts:351 | text without a double slash is unchanged |
| PostmanExport.CollapseIdempotent | src/utils/export-postman.ts:351 | collapsing twice is collapsing once |
| PostmanExport.StripLeadingSlash | src/utils/export-postman.ts:351 | one leading slash removed, nothing else |
| PostmanExport.RawPath | src/utils/export-postman.ts:351 | the raw path holds no double slash and does not start with `/` |
| PostmanExport.WithTrailingSlash | src/utils/export-postman.ts:347-350 | the server URL ends in exactly its own `/` or one added |
| PostmanExport.QueryPair | src/utils/export-postman.ts:356 | `key=value`, both encoded |
| PostmanExport.QueryPairs | src/utils/export-postman.ts:354-357 | the pairs of the enabled, valued entries, in order |
| PostmanExport.QueryPairsEmpty | src/utils/export-postman.ts:354-357 | no pair exactly when no entry is enabled and valued |
| PostmanExport.JoinNonEmpty | src/utils/export-postman.ts:357 | a join of non-empty parts is non-empty |
| PostmanExport.QueryStringEmpty | src/utils/export-postman.ts:353-361 | the query string is empty exactly when no entry is enabled and valued |
| PostmanExport.RawUrlShape | src/utils/export-postman.ts:347-361 | the raw URL starts with the server URL and one `/`, and has `?` and a query exactly when some entry is enabled and valued |
| PostmanExport.BuildPathParts | src/utils/export-postman.ts:322-330 | the segment loop answers as `PathParts` |
| PostmanExport.BuildPostmanUrl | src/utils/export-postman.ts:311-370 | the URL, with its loops, answers as `UrlOf`; it does not throw for a server URL `new URL` rejects (corrected, Finding 9) |
| PostmanExport.BuildPostmanAuth | src/utils/export-postman.ts:529-599 | which scheme kinds give an entry and which give none; basic and digest credentials are split at the first `:` only (corrected, Finding 5) |
| PostmanExport.PostmanAuthCarriesCredential | src/utils/export-postman.ts:535-594 | each entry carries its credential; basic splits `user:password` back into its parts (corrected split) |
| PostmanExport.ExportersAgreeOnAuth | src/utils/export-postman.ts:529-599 | the two exporters agree on every scheme both support |
| PostmanExport.RequestAuth | src/utils/export-postman.ts:508-524 | no entry for an absent or empty security list or an undeclared first scheme; otherwise that scheme's entry |
| PostmanExport.CollectionAuthAsWritten | src/utils/export-postman.ts:487-503 | as written: no auth without schemes or a top-level `security`; with an empty `security` list it throws |
| PostmanExport.CollectionAuth | src/utils/export-postman.ts:487-503 | corrected: an empty top-level `security` list asks for no auth |
| PostmanExport.CollectionAuthAgrees | src/utils/export-postman.ts:487-503 | wherever the source returns, the corrected auth is what it returns, and that of an operation inheriting the document's security |
| PostmanExport.EmptySecurityThrowsAsWritten | src/utils/export-postman.ts:496-497 | declared schemes with `security: []` make the source throw; the corrected auth is none |
| PostmanExport.ItemAgreesWithInsomnia | src/utils/export-postman.ts:262-306 | a Postman item and the Insomnia request of the same operation share name, method, headers, query, body and description, and agree on auth where both write one |
| PostmanExport.OpItems | src/utils/export-postman.ts:215-217 | one item per operation, in order |
| PostmanExport.OpItemsAt | src/utils/export-postman.ts:215-217 | the `i`-th item is the `i`-th operation's, and a request |
| PostmanExport.TagEntryShape | src/utils/export-postman.ts:219-229 | a tag with one operation gives that request; any other a folder of its requests |
| PostmanExport.WebhookEntries | src/utils/export-postman.ts:233-254 | the `Webhooks` folder is present only when the webhooks hold an operation |
| PostmanExport.CollectionItemsShape | src/utils/export-postman.ts:187-254 | one entry per tag in first-seen order, a folder named after the tag unless it holds one operation, then `Webhooks` exactly when it has an operation |
| PostmanExport.TagEntriesNamed | src/utils/export-postman.ts:214-230 | the entries follow the tags, and each folder carries its tag's name |
| PostmanExport.OpItemsRequests | src/utils/export-postman.ts:215-217 | the items of a list of operations hold one request each |
| ExportCommon.TotalSizeSnoc | src/utils/export-postman.ts:214-230 | the groups' sizes summed from the last group back |
| PostmanExport.RequestsSingle | src/utils/export-postman.ts:219-229 | a request counts one, a folder its contents |
| PostmanExport.TagEntryRequests | src/utils/export-postman.ts:219-229 | a tag's entry holds one request per operation of the tag |
| PostmanExport.TagEntriesRequestsStep | src/utils/export-postman.ts:214-230 | adding a tag's entry adds the tag's operations |
| ExportCommon.TotalSizePrefix | src/utils/export-postman.ts:214-230 | the first `n` groups' size is the first `n - 1`'s plus group `n - 1`'s |
| PostmanExport.TagEntriesRequests | src/utils/export-postman.ts:214-230 | the tag entries hold one request per filed operation, single or in a folder |
| PostmanExport.CollectionRequests | src/utils/export-postman.ts:142-257 | as many requests as filings plus webhook operations |
| PostmanExport.CollectionOutcomeAsWritten | src/utils/export-postman.ts:158-183 | where the source returns, it returns the model's collection; it throws on a rejected first server URL, on `security: []`, or on a rejected URL given to `buildPostmanUrl` |
| PostmanExport.PostmanThrowsAsWritten | src/utils/export-postman.ts:158-183 | as written, the export throws exactly when `new URL` rejects the first server's URL or the top-level `security` list is empty (when `http://localhost` parses) |
| PostmanExport.RelativeServerThrowsAsWritten | src/utils/export-postman.ts:158-161 | a first server whose URL `new URL` rejects, such as `/api/v3`, makes the export throw (as written, Finding 9) |
| PostmanExport.RelativeServerExported | src/utils/export-postman.ts:158-180 | with a first server, the corrected collection keeps its URL as written as `baseUrl` and holds as many requests as the Insomnia export (corrected, Finding 9) |
| PostmanExport.RequestsMatchInsomnia | src/utils/export-postman.ts:142-257 | the collection holds exactly as many requests as the Insomnia export of the same document |
| PostmanExport.ServerVariables | src/utils/export-postman.ts:163-178 | `baseUrl` first, then one entry per server variable with its default |
| PostmanExport.CollectionVariables | src/utils/export-postman.ts:158-179 | the first server's variables, none without a server |
| PostmanExport.ConvertOperationToPostmanItem | src/utils/export-postman.ts:262-306 | the item, with its URL, header and body loops, answers as `ItemOf`; it does not throw for a server URL `new URL` rejects (corrected, Finding 9) |
| PostmanExport.ConvertOperations | src/utils/export-postman.ts:215-217 | the map over one tag's operations answers as `OpItems` |
| PostmanExport.PushTagEntries | src/utils/export-postman.ts:214-230 | the tag loop answers as `TagEntries` |
| PostmanExport.PushWebhookItems | src/utils/export-postman.ts:240-245 | the eight method slots of one webhook, in order |
| PostmanExport.WebhookItemsPrefix | src/utils/export-postman.ts:235-246 | webhook `i`'s items follow those of the webhooks before it |
| PostmanExport.CollectWebhookItems | src/utils/export-postman.ts:234-246 | every webhook, in order |
| PostmanExport.BuildVariables | src/utils/export-postman.ts:158-179 | the server loop answers as `ServerVariables` |
| PostmanExport.BuildItems | src/utils/export-postman.ts:213-254 | the tag entries, then the `Webhooks` folder when it holds an item |
| PostmanExport.ConvertToPostmanCollection | src/utils/export-postman.ts:142-257 | the info, the variables, the auth, then the items, as `CollectionOf` lists them; an empty top-level `security` gives no collection auth instead of throwing (corrected, Finding 6), a server URL `new URL` rejects gives a collection instead of throwing (corrected, Finding 9), and credentials are split as in Finding 5 |
| EndpointFavorites.SpecIdentifier | src/stores/endpointFavorites.ts:18-26 | the spec part of an id is never empty: the hash, else the source URL, else `unknown` |
| EndpointFavorites.EndpointIdIgnoresCase | src/stores/endpointFavorites.ts:18-26 | the case of the method does not change the id |
| EndpointFavorites.EndpointIdInjective | src/stores/endpointFavorites.ts:18-26 | for methods and paths without `:`, two endpoints share an id exactly when they agree on upper-cased method, path and spec part |
| EndpointFavorites.AddedMeaning | src/stores/endpointFavorites.ts:60-85 | after adding, the endpoint is a favourite in any method case, its entry holds the upper-cased method, other ids keep theirs, and the map grows exactly when the id was new |
| EndpointFavorites.AddedValid | src/stores/endpointFavorites.ts:60-85 | adding keeps keys unique and each entry under its own id |
| EndpointFavorites.RemovedMeaning | src/stores/endpointFavorites.ts:88-92 | after removing, the endpoint is no favourite in any method case, and other ids keep their entries |
| EndpointFavorites.RemovedValid | src/stores/endpointFavorites.ts:88-92 | removing keeps the map's shape |
| EndpointFavorites.LoadedMeaning | src/stores/endpointFavorites.ts:32-47 | a loaded map has the store's shape, holds every stored id, and only stored items |
| EndpointFavorites.AllFavoritesMeaning | src/stores/endpointFavorites.ts:101-103 | the list is a rearrangement of exactly the stored entries, newest first |
| EndpointFavorites.FavoritesStore.constructor | src/stores/endpointFavorites.ts:32-47 | the loading loop builds the map `Loaded` defines, or an empty one |
| EndpointFavorites.FavoritesStore.AddToFavorites | src/stores/endpointFavorites.ts:60-85 | returns the id, stores as `Added`, keeps the shape, and the endpoint is then a favourite |
| EndpointFavorites.FavoritesStore.RemoveFromFavorites | src/stores/endpointFavorites.ts:88-92 | stores as `Removed`, keeps the shape, and the endpoint is then no favourite |
| EndpointFavorites.FavoritesStore.ClearFavorites | src/stores/endpointFavorites.ts:106-109 | afterwards no endpoint is a favourite |
| RequestHistory.KeepLast | src/stores/requestHistory.ts:77-80 | a suffix of exactly `min(n, length)` elements, the whole array when it is no longer |
| RequestHistory.AppendedMeaning | src/stores/requestHistory.ts:69-84 | the new item is last, preceded by the newest part of the old history; the length grows by one below 1000 and stays at 1000 after, and below the cap nothing is dropped |
| RequestHistory.FirstIndex | src/stores/requestHistory.ts:87-93 | the index found holds the id and none before it does; none means no item has it |
| RequestHistory.WithoutFirstMeaning | src/stores/requestHistory.ts:87-93 | removing takes out exactly one item with the id when there is one; the others keep their order |
| RequestHistory.NotOlderThanMeaning | src/stores/requestHistory.ts:102-108 | exactly the items stamped at or after `t` stay, and clearing again changes nothing |
| RequestHistory.StageAfterFilter | src/stores/requestHistory.ts:122-150 | a stage after a filter is one filter by both tests; a skipped stage passes everything |
| RequestHistory.StagedIsFilter | src/stores/requestHistory.ts:120-150 | filtering stage by stage is filtering once by every criterion |
| RequestHistory.FilteredHistoryMeaning | src/stores/requestHistory.ts:111-155 | a rearrangement of exactly the items passing every criterion, newest first |
| RequestHistory.MethodMatchIgnoresCase | src/stores/requestHistory.ts:122-124 | the method criterion ignores case on both sides |
| RequestHistory.RequestById | src/stores/requestHistory.ts:158-160 | the item found has the id and none before it does; none means no item has it |
| RequestHistory.SliceEnd | src/stores/requestHistory.ts:167 | where `slice(0, count)` stops, a negative count counting back from the length |
| RequestHistory.RecentRequestsMeaning | src/stores/requestHistory.ts:163-169 | at most `count` items from the history, newest first, none left out newer than one returned; called without `count`, the store asks for `DefaultRecentCount`, ten |
| RequestHistory.HistoryStatistics | src/stores/requestHistory.ts:172-189 | the total is the length; successful and error counts are the items that pass each test, so neither exceeds the total |
| RequestHistory.HistoryStore.constructor | src/stores/requestHistory.ts:32-53 | the saved array when there is one, else an empty history |
| RequestHistory.HistoryStore.AddRequest | src/stores/requestHistory.ts:69-84 | the history becomes the `Appended` one |
| RequestHistory.HistoryStore.RemoveRequest | src/stores/requestHistory.ts:87-93 | the history loses the first item with the id |
| RequestHistory.HistoryStore.ClearHistory | src/stores/requestHistory.ts:96-99 | the history becomes empty |
| RequestHistory.HistoryStore.ClearHistoryOlderThan | src/stores/requestHistory.ts:102-108 | the history keeps exactly the items not older than `t` |
| SpecCache.IsHashIgnoresCase | src/stores/specCache.ts:33-35 | being a hash does not depend on letter case |
| SpecCache.KeptRegularFacts | src/stores/specCache.ts:104-114 | every kept non-favourite comes from the cache, newest first |
| SpecCache.SavedItemsMeaning | src/stores/specCache.ts:104-116 | saving keeps every favourite and at most fifty others, dropping none newer than one it keeps |
| SpecCache.SavedItemsFrom | src/stores/specCache.ts:104-116 | every saved item was in the cache |
| SpecCache.DroppedIsOlder | src/stores/specCache.ts:113-114 | a dropped non-favourite is no newer than a kept one |
| SpecCache.KeyedDistinct | src/stores/specCache.ts:38 | the entries of a cache keyed by hash have distinct hashes |
| SpecCache.SavedItemsDistinct | src/stores/specCache.ts:104-116 | the saved list has distinct hashes |
| SpecCache.SavedMeaning | src/stores/specCache.ts:83-130 | a successful save leaves a keyed cache holding exactly the saved list, in order |
| SpecCache.KeyedGet | src/stores/specCache.ts:151-154 | a keyed cache finds each entry under its hash |
| SpecCache.TitleOf | src/stores/specCache.ts:135 | the title is the spec's when non-empty, else `Untitled Specification` |
| SpecCache.ByHash | src/stores/specCache.ts:151-154 | the spec cached under the hash, none when there is none |
| SpecCache.PutKeyed | src/stores/specCache.ts:144 | storing under its own hash keeps the cache keyed and finds the entry |
| SpecCache.AfterAddKeyed | src/stores/specCache.ts:133-148 | adding keeps the cache keyed |
| SpecCache.AfterAddFound | src/stores/specCache.ts:133-148 | the added spec is found under its hash with its title when it is a favourite or newer than every other entry |
| SpecCache.NewestKept | src/stores/specCache.ts:104-114 | a non-favourite newer than every other entry is the first kept |
| SpecCache.AfterClearMeaning | src/stores/specCache.ts:168-195 | clearing keeps exactly the favourite entries, in their order |
| SpecCache.SavedKeys | src/stores/specCache.ts:83-130 | saving keeps only keys the cache had |
| SpecCache.AfterRemoveMeaning | src/stores/specCache.ts:162-165 | after removing and saving, no entry under the hash |
| SpecCache.KeyByHash | src/stores/specCache.ts:117-120 | each item stored under its hash, the last of equal hashes winning |
| SpecCache.Partition | src/stores/specCache.ts:104-110 | the split loop keeps each spec on its side, in order |
| SpecCache.FavoriteEntries | src/stores/specCache.ts:182-187 | the entries whose key is a favourite hash, in order |
| SpecCache.SpecCacheStore.constructor | src/stores/specCache.ts:42-80 | the loaded cache, or an empty one |
| SpecCache.SpecCacheStore.SaveCache | src/stores/specCache.ts:83-130 | the cache after saving, or unchanged when writing fails |
| SpecCache.SpecCacheStore.AddToCache | src/stores/specCache.ts:133-148 | returns the hash and leaves the cache as put-then-save gives |
| SpecCache.SpecCacheStore.RemoveFromCache | src/stores/specCache.ts:162-165 | the cache as remove-then-save gives |
| SpecCache.SpecCacheStore.ClearCache | src/stores/specCache.ts:168-195 | the favourite entries only, then saved |
| SpecCache.ClearStep | src/stores/specCache.ts:183-187 | one step of the clearing loop |
| EnvironmentStore.IndexOfEnv | src/stores/environment.ts:134-136 | the index found holds the id and none before it does; none means no environment has it |
| EnvironmentStore.IndexOfGlobal | src/stores/environment.ts:80 | the first global environment, none when there is none |
| EnvironmentStore.ActiveIndex | src/stores/environment.ts:73-76 | the active environment is one whose id is the non-empty active id |
| EnvironmentStore.AllVariablesLookup | src/stores/environment.ts:79-94 | a name resolves to the active non-global environment's value when it defines it, else the first global one's |
| EnvironmentStore.WordPrefix | src/stores/environment.ts:101 | the longest run of word characters the text starts with |
| EnvironmentStore.WordPrefixOf | src/stores/environment.ts:101 | a word followed by a non-word character is the whole run |
| EnvironmentStore.PlaceholderAt | src/stores/environment.ts:101 | a placeholder found is a non-empty run of word characters between `{{` and `}}` at the start of the text |
| EnvironmentStore.SubstituteUndefined | src/stores/environment.ts:101-103 | with no name defined, substitution changes nothing |
| EnvironmentStore.SubstitutePlaceholder | src/stores/environment.ts:101-103 | a leading placeholder is replaced by its value, and the value is never scanned again |
| EnvironmentStore.ResolveWithoutVariables | src/stores/environment.ts:97-104 | with no variables, resolving changes nothing (intended lookup) |
| EnvironmentStore.ResolveVariablePlaceholder | src/stores/environment.ts:97-104 | `ResolveVariable`: a leading `{{name}}` becomes the variable's value when there is one and stays otherwise, and the rest is resolved after it; only the variables themselves are looked up (corrected, Finding 8) |
| EnvironmentStore.InheritedNameReplacedAsWritten | src/stores/environment.ts:101-102 | as written, a placeholder naming an inherited object property is replaced by its text even with no variables |
| EnvironmentStore.ConstructorReplacedAsWritten | src/stores/environment.ts:101-102 | as written, `{{constructor}}` becomes `function Object() { [native code] }` |
| EnvironmentStore.ResolveValuesShape | src/stores/environment.ts:107-120 | resolving keeps the structure and every key; only strings change |
| EnvironmentStore.ResolveValuesWithoutVariables | src/stores/environment.ts:107-120 | with no variables, values come back unchanged under the intended own-property lookup (corrected, Finding 8) |
| EnvironmentStore.UpsertedMeaning | src/stores/environment.ts:123-131 | the list grows exactly when the id was new, the environment is found under its id, other ids unchanged, ids stay unique |
| EnvironmentStore.IndexOfEnvSame | src/stores/environment.ts:134-136 | lists agreeing on where `id` sits find it at the same index |
| EnvironmentStore.RemovedMeaning | src/stores/environment.ts:134-153 | refused, changing nothing, for an absent id or the last environment; otherwise exactly that environment goes, the others keep order, and an active one hands over to the first remaining |
| EnvironmentStore.SpliceUnique | src/stores/environment.ts:140 | taking out one environment keeps ids unique and leaves none with its id |
| EnvironmentStore.ActiveSetMeaning | src/stores/environment.ts:156-161 | the environments are kept; the active id becomes the requested one when it is null or names an environment, and that environment is then active; otherwise nothing changes |
| EnvironmentStore.WithActiveAsWritten | src/stores/environment.ts:170-180 | as written, with no active environment a fresh `default` is appended even when one exists |
| EnvironmentStore.WithActive | src/stores/environment.ts:170-180 | corrected: `default` is appended only when missing; either way an environment is active |
| EnvironmentStore.DuplicateDefaultAsWritten | src/stores/environment.ts:170-180 | as written, an existing `default` with no active id gets a second environment with that id |
| EnvironmentStore.VariableSetMeaning | src/stores/environment.ts:169-185 | setting keeps ids unique and records well formed, and the active environment then holds the value |
| EnvironmentStore.VariableSetVisible | src/stores/environment.ts:164-185 | the value just set is what `getVariable` returns, when the active environment is not global or is the first global one |
| EnvironmentStore.VariableRemovedMeaning | src/stores/environment.ts:188-193 | the active environment then lacks the name, and every other environment is untouched |
| EnvironmentStore.LoadedMeaning | src/stores/environment.ts:16-56 | with storage, loading leaves an environment and an active id; with no usable list, the global `Default` one |
| EnvironmentStore.EnvironmentStoreState.constructor | src/stores/environment.ts:16-56 | the loaded state |
| EnvironmentStore.EnvironmentStoreState.SetEnvironment | src/stores/environment.ts:123-131 | the state as `Upserted` |
| EnvironmentStore.EnvironmentStoreState.RemoveEnvironment | src/stores/environment.ts:134-153 | the answer and the state as `Removed` |
| EnvironmentStore.EnvironmentStoreState.SetActiveEnvironment | src/stores/environment.ts:156-161 | the state as `ActiveSet` |
| EnvironmentStore.EnvironmentStoreState.SetVariable | src/stores/environment.ts:169-185 | the state as `VariableSet`, which reuses an existing `default` environment (corrected, Finding 7) |
| EnvironmentStore.EnvironmentStoreState.RemoveVariable | src/stores/environment.ts:188-193 | the state as `VariableRemoved` |
| Json.ActualType | src/utils/response-validator.ts:209 | the validator's `actualType` is `array` exactly for arrays |
| Json.Prop | src/utils/response-validator.ts:262-301 | only arrays and plain objects have properties; an object's property is its own entry under the key |
| Strings.Utf16Length | src/utils/response-validator.ts:315-324 | `length` counts UTF-16 code units: at least one and at most two per character, exactly one each when all lie in the Basic Multilingual Plane |
| Strings.Utf16Pair | src/utils/response-validator.ts:315-324 | a character outside the Basic Multilingual Plane has length 2 |
| Strings.SplitJoin | src/utils/ref-resolver.ts:44 | `split` on one character loses nothing: joining the pieces with it gives the text back |
| Strings.SplitOfJoin | src/utils/openapi-parser.ts:30 | joining separator-free pieces and splitting again gives the pieces back |
| Strings.TrimShape | src/utils/search.ts:7 | `trim` leaves a text no longer than its input that neither starts nor ends with whitespace |
| Strings.TrimIdempotent | src/utils/search.ts:7 | `trim` twice is `trim` once |
| Strings.TrimEmptyIffBlank | src/utils/search.ts:80 | a text trims to nothing exactly when it is all whitespace |
| Strings.LowerTrim | src/utils/search.ts:7 | lower-casing and trimming commute |
| Strings.UpperOfLower | src/stores/endpointFavorites.ts:18-26 | upper-casing forgets the original case |
| OrderedMaps.PutGet | src/utils/export-insomnia.ts:144-147 | after `map.set(k, v)`, `k` holds `v` and every other key keeps its value |
| OrderedMaps.PutAppends | src/utils/export-insomnia.ts:144-145 | a new key is appended at the end of the insertion order |
| OrderedMaps.PutUnique | src/stores/specCache.ts:144 | `map.set` never duplicates a key |
| OrderedMaps.RemoveGet | src/stores/specCache.ts:163 | after `map.delete(k)`, `k` is gone and every other key keeps its value |
| OrderedMaps.AssignGet | src/stores/environment.ts:85-90 | after `Object.assign`, a source key holds the source's value and any other key the target's |
| OrderedMaps.KeyedByDistinct | src/stores/specCache.ts:117-120 | keying items with distinct keys holds exactly the items, in order |
| Seqs.FirstIndexBy | src/stores/requestHistory.ts:87 | `findIndex` by a key, shared by the history and the environment store: the index found holds the key and none before it does; none means no element has it |
| Seqs.SortDescStable | src/stores/specCache.ts:113 | the sort is stable: items with the same timestamp keep their order, which decides which of them the 50-item cut keeps |
| Seqs.SortDescSorted | src/stores/requestHistory.ts:153 | the sort by `b.timestamp - a.timestamp` leaves the newest first |
| Seqs.FilterFilter | src/stores/requestHistory.ts:120-150 | filtering twice is filtering once by both tests |

## Left out

- The functions `getOperationSecurity`, `getOperationId` and `isOperationPrivate` are imported by the core, but their source is not part of this model. `getOperationSecurity` is a table in the export input, and `isOperationPrivate` is a predicate parameter. The result of `getOperationId` is never used by either exporter, so it is not modelled.
- `localStorage` reads and writes, Vue reactivity (`ref`, `computed`, `watch`) and Pinia are modelled as follows:
  - the stores' state is plain fields;
  - what storage holds is a constructor or method parameter;
  - a write that throws is a `written` flag.
- `saveEnvironments` and `saveHistory` write to storage and are not modelled.
- The `requestAnimationFrame` chunked loading of the spec cache is not modelled. Its result is modelled as one load.
- `generateHash`, `generateId`, history ids and `Date.now()` are parameters. Insomnia resource ids are positions in the resource list, and the export date is left out.
- `JSON.stringify` text is not modelled. Bodies carry the example value, and the model proves the value is truthy, so the written text is never `{}` by mistake.
- `new URL(...)` is not modelled: the Postman URL's `protocol` and `host` are left out, and whether it accepts a URL is a predicate parameter of `PostmanExport.CollectionOutcomeAsWritten`. `encodeURIComponent` is a function parameter.
- `ValidationProperties.StringRule`: the `pattern` check (`src/utils/response-validator.ts:333-342`) needs a regular-expression engine, so the model never reports a pattern error.
- `ValidateResponseF` (`ResponseValidation.ValidateResponseF`) computes the corrected behaviour of Findings 2, 3 and 4, not the source's: a number passes `integer` (as written: `ValidationProperties.IntegerRejectedAsWritten`), an exclusive bound excludes the bound itself (as written: `ValidationProperties.ExclusiveBoundAsWritten`), and a `$ref` that cannot be followed constrains nothing (as written: `ValidationProperties.ExternalRefLoopsAsWritten`).
- `ValidateResponse` (`ResponseValidation.ResponseValidator.ValidateResponse`) answers as `ValidateResponseF`, so it has the same three corrections.
- `ValidateValue` (`ResponseValidation.ResponseValidator.ValidateValue`) lets a `$ref` that cannot be followed pass, where the source recurses without end (Finding 3, `ValidationProperties.ExternalRefLoopsAsWritten`).
- `ValidateTyped` (`ResponseValidation.ResponseValidator.ValidateTyped`) has the corrected `integer` test and exclusive bounds of Findings 2 and 4 (as written: `ValidationProperties.IntegerRejectedAsWritten`, `ValidationProperties.ExclusiveBoundAsWritten`).
- `AuthFromScheme` (`InsomniaExport.AuthFromScheme`) splits a basic or digest credential at its first `:` only, so `alice:pa:ss` gives password `pa:ss` where the source gives `pa` (Finding 5, as written: `ExportCommon.PasswordTruncatedAsWritten`).
- `BuildPostmanAuth` (`PostmanExport.BuildPostmanAuth`) has the same corrected split as `AuthFromScheme` (Finding 5, as written: `ExportCommon.PasswordTruncatedAsWritten`).
- `ConvertToInsomniaCollection` (`InsomniaExport.ConvertToInsomniaCollection`) builds its requests' authentication with the corrected split of Finding 5.
- `ConvertToPostmanCollection` (`PostmanExport.ConvertToPostmanCollection`) gives no collection auth for `security: []` where the source throws (Finding 6, as written: `PostmanExport.EmptySecurityThrowsAsWritten`), and splits credentials as in Finding 5.
- `ConvertToPostmanCollection` (`PostmanExport.ConvertToPostmanCollection`), with `PostmanExport.BuildPostmanUrl` and `PostmanExport.ConvertOperationToPostmanItem`, returns a collection when the first server's URL is one `new URL` rejects (empty, or relative such as `/api/v3`), where the source throws a `TypeError` at `new URL(baseServer.url)` (`src/utils/export-postman.ts:161`) or `new URL(serverUrl)` (`:317`) (Finding 9, as written: `PostmanExport.CollectionOutcomeAsWritten`, `PostmanExport.RelativeServerThrowsAsWritten`).
- `SetVariable` (`EnvironmentStore.EnvironmentStoreState.SetVariable`) sets the state to `EnvironmentStore.VariableSet`, which reuses an existing `default` environment where the source pushes a second one (Finding 7, as written: `EnvironmentStore.VariableSetAsWritten`, `EnvironmentStore.DuplicateDefaultAsWritten`).
- `ResolveValues` (`EnvironmentStore.ResolveValues`) resolves every string through the corrected `ResolveVariable`, so `{{constructor}}` with no such variable stays as it is where the source replaces it (Finding 8, as written: `EnvironmentStore.ConstructorReplacedAsWritten`).
- `ResolveValuesWithoutVariables` (`EnvironmentStore.ResolveValuesWithoutVariables`) holds for the corrected lookup only: with no variables the source still replaces a placeholder naming an inherited property such as `{{constructor}}` (Finding 8, as written: `EnvironmentStore.ConstructorReplacedAsWritten`).
- `ResolveVariable` (`EnvironmentStore.ResolveVariable`) looks up only the variables themselves, so `{{constructor}}` with no such variable stays as it is where the source replaces it (Finding 8, as written: `EnvironmentStore.ResolveVariableAsWritten`, `EnvironmentStore.ConstructorReplacedAsWritten`).
- `RefResolution.ResolveRefF`: it and `RefResolution.ResolveF`, `RefResolution.RefResolver.ResolveRef` and `RefResolution.RefResolver.Resolve` require `RefsAreStrings`: every truthy `$ref` is a string, as the document types declare. A truthy non-string `$ref` makes the source throw a `TypeError` at `ref.split('/')` (`src/utils/ref-resolver.ts:44`); that throw is not modelled. The requirement is carried into the validator (whose checks require `RefsAreStrings` of the document and the schema) and into both exporters (through `ExportCommon.SpecWellTyped` and `ExportCommon.OperationWellTyped`).
- Numbers are integers. The following are therefore not modelled:
  - fractional values;
  - the float rounding of `Number.MIN_VALUE` beyond what the exclusive-bound finding needs;
  - `Math.round`.
- `RequestHistory.HistoryStatistics`: `avgDuration` is a float division and is not computed. Only `total`, `successful` and `errors` are modelled.
- Case mapping is ASCII only. `trim` and `\s` use JavaScript's full whitespace set, so they are not limited to ASCII.
- Object keys keep insertion order. JavaScript's ordering of integer-like keys first is not modelled. Prototype members are not modelled either, except the one finding that depends on them.
- `EnvironmentStore.InheritedText`: the text `String(...)` gives for an inherited function is the V8 engine's.
- `resolveVariable`'s early return for a non-string input is covered by `resolveVariables`: the model's `ResolveVariable` only takes strings.
- `ResponseValidation.ValidateResponseF`: the validator and example generator can recurse for ever on self-referencing schemas. Every function therefore takes a `fuel` bound, and `None` means the bound ran out. `ExportCommon.GenerateExampleFuel` proves that more fuel never changes an answer found with less.
- `ExportCommon.ObjectExample`, `ExportCommon.ExampleOfResolved`, `ExportCommon.FormProps`, `ExportCommon.FieldOf`, `ResponseValidation.CheckValue` and `ResponseValidation.CheckTyped` do not model what the source does with a malformed schema; the document types rule these schemas out.
  - A `null` schema or property schema makes the source throw a `TypeError`. This happens when it reads `resolved.example` in `generateExampleFromSchema` (`src/utils/export-insomnia.ts:535`, `src/utils/export-postman.ts:607`), `schema.example` or `schema.type` of a form property (`src/utils/export-insomnia.ts:395`, `:414-417`; `src/utils/export-postman.ts:447`, `:465-468`), or `schema.$ref` in `validateValue` (`src/utils/response-validator.ts:132`, reached from `:139` and `:275`). The model instead generates `null`, gives the field an empty value, or reports on the value.
  - A string or array `properties` is walked index by index in the source (`Object.keys` at `src/utils/export-insomnia.ts:555-558` and `src/utils/export-postman.ts:627-630`, `Object.entries` at `src/utils/export-insomnia.ts:392` and `:413` and `src/utils/export-postman.ts:444` and `:464`). So `{type: 'object', properties: 'ab'}` gives the example `{"0": null, "1": null}` and two form fields. The model reads such a `properties` as absent: the example is `{}` and `FormProps` gives no fields.
- `JsonExample` (`ExportCommon.JsonExample`) writes `{}` when the example generator runs out of fuel, as it does for a schema that contains itself. The source never writes `{}` for such a schema: `generateExampleFromSchema` recurses until the stack overflows and throws a `RangeError`. So `None` from `GenerateExample` means the bound ran out, but the exporters' bodies do not show it.
- `ResponseValidation.SubSchemas`, `ResponseValidation.RequiredNames`, `ResponseValidation.DeclaredProps` and the `enum` read of `ResponseValidation.StringReport` read a keyword of the wrong type as absent, even when it is truthy. The source does otherwise. `for (const subSchema of schema.allOf)` throws a `TypeError` for an object `allOf` (`src/utils/response-validator.ts:139`). `for (const propName of schema.required)` walks the characters of a string `required` (`:263`). `Object.entries(schema.properties)` walks the characters of a string `properties` (`:275`). `schema.enum.includes(value)` is a substring test for a string `enum` (`:344`). The document types declare these keywords as arrays and objects.

- `TagIndex.Insert`: the in-place walk down `currentNode` that mutates shared child maps is modelled as a pure insertion into a tree value. Aliasing between nodes is not captured; in the source no two parents share a child.
- History items' headers, bodies and response data are carried along unread and not modelled.
- The user interface, settings, theme, backend health checks and workspace restore are not modelled.

## Findings

| source | as written | input that shows it | evidently intended | confidence | as-written member | corrected member |
|---|---|---|---|---|---|---|
| src/utils/operation-cache.ts:49-55 | a path item cached by an earlier call answers for every later method on that path, even when another document has that method | two documents share `/p`; the first has only `get`, the second has a private `post`; call `get /p`, then `post /p` | the first document holding both path and method decides, as on a cache miss (lines 58-71) | medium, not executed | OperationCache.StalePathItem | OperationCache.OperationCaches.CheckOperationPrivacyCorrected |
| src/utils/response-validator.ts:209,304-311 | `typeof` never gives `integer`, so every value fails `type: 'integer'` | schema `{type: 'integer'}`, value `5` | a number passes `integer` | high, not executed | ValidationProperties.IntegerRejectedAsWritten | ValidationProperties.PrimitiveMismatchMeaning |
| src/utils/response-validator.ts:132-135 | the resolver answers a reference it cannot follow with a sentinel that still has `$ref` (`__external`, `__notFound` or `__circular`), so `validateValue` recurses until the stack overflows | schema `{$ref: 'other.yaml#/X'}`, any value; likewise `{$ref: '#/missing'}` or a cycle of references | a reference that cannot be followed constrains nothing | high, not executed | ValidationProperties.ExternalRefLoopsAsWritten | ValidationProperties.ExternalRefPasses |
| src/utils/response-validator.ts:357,369 | `minimum + Number.MIN_VALUE` rounds back to `minimum` for any non-zero bound, so the exclusive flag is ignored | schema `{type: 'number', minimum: 5, exclusiveMinimum: true}`, value `5` | 5 is rejected | high, not executed | ValidationProperties.ExclusiveBoundAsWritten | ValidationProperties.ExclusiveBoundMeaning |
| src/utils/export-insomnia.ts:489-501, src/utils/export-postman.ts:569-570 | the password is the second piece of `split(':')`, so it stops at its own first `:` | HTTP basic scheme, credential `alice:pa:ss` | password `pa:ss` | medium, not executed | ExportCommon.PasswordTruncatedAsWritten | ExportCommon.UserPassRoundTrip |
| src/utils/export-postman.ts:496-497 | `Object.keys(spec.security[0])` throws for an empty top-level `security` list | `components.securitySchemes` declared, `security: []` | no collection auth | high, not executed | PostmanExport.EmptySecurityThrowsAsWritten | PostmanExport.CollectionAuthAgrees |
| src/stores/environment.ts:170-180 | with no active environment, a new `default` environment is pushed even when one with id `default` exists | environments `[Default]` (id `default`), active id `null`, `setVariable('x', '1')` | reuse the existing `default` environment; ids stay unique | medium, not executed | EnvironmentStore.DuplicateDefaultAsWritten | EnvironmentStore.VariableSetMeaning |
| src/stores/environment.ts:101-102 | `vars[varName] !== undefined` also sees properties every object inherits, so their text replaces the placeholder | no variables, text `{{constructor}}` | the placeholder is left as it is | high, not executed | EnvironmentStore.ConstructorReplacedAsWritten | EnvironmentStore.ResolveWithoutVariables |
| src/utils/export-postman.ts:161,317 | `new URL(baseServer.url)` and `new URL(serverUrl)` throw a `TypeError` for an empty or relative server URL, so the whole Postman export throws, while the Insomnia export of the same document succeeds | `servers: [{url: '/api/v3'}]`, which OpenAPI allows | a collection whose `baseUrl` and raw URLs carry the server URL as written | high, not executed | PostmanExport.RelativeServerThrowsAsWritten | PostmanExport.RelativeServerExported |
