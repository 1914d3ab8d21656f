# swaggen in Dafny

swaggen reads an OpenAPI 3 document and writes TypeScript for each endpoint:
- the request and response interfaces;
- a proxy interface and a stub class;
- a handler class with path-parameter checks and error overrides;
- a per-platform adapter (Lambda, Cloudflare, Express), plus an Express
  `configure.ts` that registers every route;
- one file per component schema.

This project models how those generators name, type and assemble that output.
It also models the small runtime that generated code links against: the
`SwaggenRequest` and `SwaggenResponse` classes and the `SwaggenHandler` error
helpers.

## Project layout

The model is organised one module per source file:

- `Util`: `src/generator/util.ts`
- `BaseAdapter`: `src/generator/adapter/base.adapter.ts`
- `SchemaGenerator`: `src/schema-generator.ts`
- `HandlerTypes`: `src/generator/handler/handler-types.generator.ts`
- `Handler`: `src/generator/handler/handler.generator.ts`
- `Signatures`: the parameter rules the proxy and stub generators share
- `HandlerProxy`: `handler-proxy.generator.ts`
- `HandlerStub`: `handler-stub.generator.ts`
- `ExpressDeployment`: `src/generator/deployment/express.ts`
- `LegacyHandler`: `src/handler-generator.ts`
- `PlatformAdapter`: `src/generator/adapter.ts`
- `LegacyAdapter`: `src/adapter-generator.ts`
- `LambdaAdapter`: `src/generator/adapter/lambda.adapter.ts`
- `ExpressAdapter`: `src/generator/adapter/express.adapter.ts`
- `AdapterDispatch`: `src/generator/adapter/adapter.generator.ts`
- `Routes`: the route record shared by the adapter generators
- `Swaggen`: `experiment/lambda/src/service/users_userid/swaggen.ts`

Support modules:
- `Wrappers` holds `Option` and `Result`.
- `Text` holds ASCII casing, `split`, `join`, sorting, and the
  insertion-ordered JavaScript `Set`, modelled as a duplicate-free sequence.
- `OpenApi` holds the OpenAPI objects the generators read.

## How the source is rendered

- Generators that fill a `Set` or an array in a loop are methods with loops.
  Each is proved equal to a specification function, and the lemmas state what
  that function means.
- Generators that keep a route list between calls are classes:
  - the platform adapter generators;
  - the Lambda and Express generators;
  - the dispatching `AdapterGenerator`.
- The runtime request and response are classes whose methods update headers,
  status and body in place.

Helpers the core calls but does not define are fields of an `Externals`
parameter. These are `pluralize.singular`, `getMethodName`, `extractRefType`,
`extractClassNameFromEndpoint`, `extractEntityName` and `getResponseTypeName`.
All but `pluralize.singular` are imported from `src/generator/util.ts` by the
generators under `src/generator/handler/`, but that file does not define
them.

## Model

| member | source | states |
|---|---|---|
| Util.ToPascalCase | src/generator/util.ts:11-15 | the result has no white space and is no longer than the input |
| Util.CapitalizeFirstLetter | src/generator/util.ts:70-73 | same length; only index 0 changes, to its upper-case form; `""` stays `""` |
| Util.PascalIsCapitalizeWithoutSeparators | src/generator/util.ts:11-15 | without `_` or white space, `toPascalCase` is `capitalizeFirstLetter` |
| Util.PascalAppendSuffix | src/generator/util.ts:11-15 | a suffix with no `_` and no white space passes through unchanged, when the string before it is non-empty and does not end in `_` |
| Util.SlashesToUnderscores | src/generator/util.ts:26 | every `/` becomes `_`; every other character is kept in place |
| Util.RemoveBraces | src/generator/util.ts:27 | the result has no braces and only characters of the input; brace-free input is unchanged |
| Util.NormalizeEndpoint | src/generator/util.ts:23-29 | the file name has no `/`, no braces, and is lower case |
| Util.NormalizeEndpointIdempotent | src/generator/util.ts:23-29 | normalising twice is normalising once |
| Util.NormalizeEndpointPointwise | src/generator/util.ts:23-29 | for brace-free endpoints: one leading `/` dropped, each later `/` turned into `_`, the rest lower-cased, character by character |
| Util.RemoveBracesAppend | src/generator/util.ts:27 | brace removal distributes over concatenation |
| Util.ExtractRefName | src/generator/util.ts:48-50 | the last `/`-segment of the `$ref`; `"UnknownType"` exactly when that segment is empty; never empty, never contains `/` |
| Util.PropertyLines | src/generator/util.ts:106-118 | one member per property, in order |
| Util.PropertyLinesAt | src/generator/util.ts:109-116 | member k is the rendering of property k |
| Util.OptionalMarker | src/generator/util.ts:111-115 | each inline member starts with the property name; `?` follows exactly when the name is not required |
| Util.PropertyLineMarker | src/generator/util.ts:115 | a member line starts with the name and carries `?` exactly when optional |
| Util.TypeString | src/generator/util.ts:82-124 | `resolveType` never returns `""` |
| Util.ReferencedNamesReachable | src/generator/util.ts:86-120 | the names collected are exactly those reachable through `$ref`, array items and object properties |
| Util.PropertyRefsAny | src/generator/util.ts:109-116 | a name is collected from the first k properties exactly when one of them collects it |
| Util.ResolveTypeCollects | src/generator/util.ts:82-124 | the caller's set only grows: old names keep their place, new names are exactly the reachable references, and no duplicates appear |
| Util.ResolveType | src/generator/util.ts:82-124 | returns the TypeScript type and adds the referenced names to the caller's set, in traversal order |
| Util.PropertyRefsStep | src/generator/util.ts:109-116 | collecting one more property's references extends the set with that property's names |
| Util.ResolveProperties | src/generator/util.ts:106-118 | the property loop produces every member line and adds each property's references in order |
| BaseAdapter.ToPascalCase | src/generator/adapter/base.adapter.ts:14-18 | never longer than its input |
| BaseAdapter.PascalOfOneWord | src/generator/adapter/base.adapter.ts:14-18 | a word without `_` only gets its first letter capitalised |
| BaseAdapter.PascalJoinsWords | src/generator/adapter/base.adapter.ts:14-18 | `a_cb` becomes `Pascal(a)` + upper-case `c` + `b`: the `_` is dropped |
| BaseAdapter.PascalKeepsWhitespace | src/generator/adapter/base.adapter.ts:14-18 | this variant keeps white space: a space character occurs in the result exactly when it occurs in the input |
| BaseAdapter.UtilPascalDropsWhitespace | src/generator/util.ts:11-15 | the `util.ts` variant equals this one with white space removed, so the two differ whenever the input has white space |
| SchemaGenerator.RefName | src/schema-generator.ts:154-156 | the last `/`-segment; empty exactly when the `$ref` is empty or ends in `/` |
| SchemaGenerator.FileName | src/schema-generator.ts:15-17 | the file name is lower case and ends in `.ts` |
| SchemaGenerator.ImportPathIsFileName | src/schema-generator.ts:118 | for a name without `_`, the import path of a reference is the file the referenced schema is written to |
| SchemaGenerator.ImportPathMissesFileName | src/schema-generator.ts:15-17 | for a name with `_` before a word character, the import path differs from the written file name |
| SchemaGenerator.Keys | src/schema-generator.ts:94-97 | an object's keys, in order |
| SchemaGenerator.Assign | src/schema-generator.ts:94-97 | assigning a present key keeps the key order; a new key goes last |
| SchemaGenerator.AssignLookup | src/schema-generator.ts:94-97 | after assignment the key reads the new value; other keys are unchanged |
| SchemaGenerator.SpreadLookup | src/schema-generator.ts:94-97 | after a spread, a key present in the spread object reads its last value there; other keys are unchanged |
| SchemaGenerator.HandleAllOf | src/schema-generator.ts:78-106 | the loop yields the merged properties and the concatenated required lists |
| SchemaGenerator.MergedLookup | src/schema-generator.ts:88-103 | a merged property has the value of the last non-`$ref` member that defines it |
| SchemaGenerator.RefMemberContributesNothing | src/schema-generator.ts:89-91 | a `$ref` member adds neither properties nor required names |
| SchemaGenerator.MergedRequiredContents | src/schema-generator.ts:98-101 | a name is required exactly when some non-`$ref` member requires it |
| SchemaGenerator.MergedRequiredKeepsDuplicates | src/schema-generator.ts:98-101 | required lists are concatenated without removing duplicates |
| SchemaGenerator.Quoted | src/schema-generator.ts:168-169 | each enum value is quoted, in order |
| SchemaGenerator.InlineMembers | src/schema-generator.ts:179-186 | one member per property |
| SchemaGenerator.MapTypeFails | src/schema-generator.ts:176-177 | `mapType` throws exactly when an array without `items` is reached |
| SchemaGenerator.InlineMembersFail | src/schema-generator.ts:181-186 | an inline object fails exactly when one of its properties does |
| SchemaGenerator.InlineMembersAt | src/schema-generator.ts:181-186 | member k renders property k as `name: type` |
| SchemaGenerator.InlineMemberHasNoMarker | src/schema-generator.ts:184 | inline object members never carry `?`: the name is followed by `:` |
| SchemaGenerator.MapTypeAgreesOnPlain | src/schema-generator.ts:159-192 | on schemas without enums, references or objects, `mapType` equals `util.ts`'s `resolveType` |
| SchemaGenerator.MapTypeEmptyRefName | src/schema-generator.ts:161-163 | a `$ref` ending in `/` maps to `""` here and to `"UnknownType"` in `util.ts` |
| SchemaGenerator.ResolveRefs | src/schema-generator.ts:114-130 | the recursive walk adds the import line of every reachable reference, skipping lines already present |
| SchemaGenerator.ResolveAll | src/schema-generator.ts:140-144 | walking several schemas adds their imports in order |
| SchemaGenerator.BaseRefs | src/schema-generator.ts:134 | every base schema has a `$ref` |
| SchemaGenerator.BaseNames | src/schema-generator.ts:136-138 | one Pascal-cased name per base schema, in order |
| SchemaGenerator.ResolveImportsAndExtends | src/schema-generator.ts:109-151 | the imports are the deduplicated walk (bases, then `allOf` members, then the schema); the clause names the bases |
| SchemaGenerator.BaseRefsExactly | src/schema-generator.ts:134 | the base schemas are exactly the `allOf` members with a `$ref` |
| SchemaGenerator.ExtendsClauseEmpty | src/schema-generator.ts:133-141 | the clause is empty exactly when no `allOf` member has a `$ref` |
| SchemaGenerator.ImportsOfAllContains | src/schema-generator.ts:140-144 | an import of any walked schema ends up in the list |
| SchemaGenerator.ImportsDistinctAndCoverBases | src/schema-generator.ts:140-150 | the imports have no duplicates and include each base schema's import |
| SchemaGenerator.Effective | src/schema-generator.ts:54-56 | with `allOf`, the schema used has properties and a required list |
| SchemaGenerator.InterfaceLines | src/schema-generator.ts:59-68 | one line per property |
| SchemaGenerator.GenerateInterfaceContent | src/schema-generator.ts:45-75 | the loop builds exactly the interface text |
| SchemaGenerator.SiblingPropertiesIgnored | src/schema-generator.ts:54-56 | with `allOf`, the schema's own properties and required list do not affect the output |
| SchemaGenerator.InterfaceLinesAt | src/schema-generator.ts:61-66 | line k renders property k with its marker and mapped type |
| SchemaGenerator.InterfaceOptionalMarker | src/schema-generator.ts:64-65 | each line names the property after two spaces; `?` follows exactly when it is not required |
| SchemaGenerator.InterfaceLineMarker | src/schema-generator.ts:65 | a line carries `?` exactly when the member is optional |
| SchemaGenerator.AllOfRequired | src/schema-generator.ts:54-64 | with `allOf`, a property is required exactly when some non-`$ref` member lists it |
| SchemaGenerator.SchemaFileOf | src/schema-generator.ts:15-29 | one schema's file: its name and content, or a failure when `mapType` throws |
| SchemaGenerator.UntilFailurePrefix | src/schema-generator.ts:14-34 | files are produced in order up to the first failing schema; nothing after it |
| SchemaGenerator.UntilFailureStep | src/schema-generator.ts:14-34 | one loop step either stops at a failure or appends that schema's file |
| SchemaGenerator.Generate | src/schema-generator.ts:8-35 | the loop writes the file of each schema in order and stops at the first failure |
| HandlerTypes.EntitySegments | src/generator/handler/handler-types.generator.ts:96-98 | keeps only non-empty segments not starting with `{` |
| HandlerTypes.EntitySegmentsFrom | src/generator/handler/handler-types.generator.ts:96-98 | every kept segment comes from the endpoint |
| HandlerTypes.EntitySegmentsAppend | src/generator/handler/handler-types.generator.ts:96-98 | filtering distributes over concatenation |
| HandlerTypes.EntitySegmentsEmpty | src/generator/handler/handler-types.generator.ts:96-98 | nothing is kept exactly when no segment qualifies |
| HandlerTypes.HasEntitySegmentSnoc | src/generator/handler/handler-types.generator.ts:96-98 | a qualifying segment exists in `init + [last]` exactly when it exists in `init` or `last` qualifies |
| HandlerTypes.LastEntitySegment | src/generator/handler/handler-types.generator.ts:100-101 | the last kept segment is an endpoint segment after which none qualifies |
| HandlerTypes.EntityResource | src/generator/handler/handler-types.generator.ts:96-101 | the resource is never empty and never contains `/` |
| HandlerTypes.EntityResourceIsLastSegment | src/generator/handler/handler-types.generator.ts:94-107 | `"Entity"` when no segment qualifies; otherwise the last qualifying segment |
| HandlerTypes.EntityIgnoresParameterSegment | src/generator/handler/handler-types.generator.ts:94-107 | appending a `{param}` segment does not change the entity name |
| HandlerTypes.BaseNameIgnoresMethodCase | src/generator/handler/handler-types.generator.ts:32-37 | the base name depends on the HTTP method only through its lower-cased form |
| HandlerTypes.BaseNameParts | src/generator/handler/handler-types.generator.ts:32-37 | without an `operationId`: the method's first character upper-cased, its other characters lower-cased, then the entity name; with one: independent of the method and the entity |
| HandlerTypes.ResponseDefinitions | src/generator/handler/handler-types.generator.ts:55-73 | every response definition is named `<base>Response` |
| HandlerTypes.InterfaceMembers | src/generator/handler/handler-types.generator.ts:128-136 | one indented member per property, rendered as `resolveType` renders it |
| HandlerTypes.InterfaceTexts | src/generator/handler/handler-types.generator.ts:45-69 | one text per definition |
| HandlerTypes.ImportLines | src/generator/handler/handler-types.generator.ts:77-79 | one import line per type, in order |
| HandlerTypes.GenerateInterface | src/generator/handler/handler-types.generator.ts:117-145 | returns the alias or interface text and adds the referenced names to the set |
| HandlerTypes.ArrayAlias | src/generator/handler/handler-types.generator.ts:138-140 | a non-reference array with items becomes a `[]` alias of its item type, collecting the items' references |
| HandlerTypes.Emit | src/generator/handler/handler-types.generator.ts:45-50 | pushing one definition extends the texts and the set with that definition's output |
| HandlerTypes.EmitOperation | src/generator/handler/handler-types.generator.ts:39-73 | one operation adds its request and response definitions |
| HandlerTypes.OperationDefinitionsSplit | src/generator/handler/handler-types.generator.ts:39-73 | an operation's definitions are its request definitions followed by its response definitions |
| HandlerTypes.EmitRequest | src/generator/handler/handler-types.generator.ts:40-52 | the request definition is emitted exactly when the body has a JSON schema |
| HandlerTypes.EmitResponses | src/generator/handler/handler-types.generator.ts:55-73 | the response loop emits the 2xx definitions in order |
| HandlerTypes.EmitResponse | src/generator/handler/handler-types.generator.ts:59-70 | one response adds its definition when it is 2xx with a JSON schema |
| HandlerTypes.ResponseDefinitionsStep | src/generator/handler/handler-types.generator.ts:56-72 | one more response appends that response's definitions |
| HandlerTypes.GenerateInterfaceDefinitions | src/generator/handler/handler-types.generator.ts:20-86 | `typesToImport` is the deduplicated referenced names; `interfaces` is every definition's text joined by blank lines; `imports` is one line per type |
| HandlerTypes.AllDefinitionsStep | src/generator/handler/handler-types.generator.ts:31-74 | one more method appends its operation's definitions under its base name |
| HandlerTypes.RequestInterfaceIff | src/generator/handler/handler-types.generator.ts:40-52 | a `<base>Request` definition exists exactly when the body has a JSON schema, and it is the first definition |
| HandlerTypes.ResponseDefinitionsExactly | src/generator/handler/handler-types.generator.ts:55-73 | a definition is a response definition exactly when it is named `<base>Response` with the schema of some 2xx response |
| HandlerTypes.ResponseDefinitionsCount | src/generator/handler/handler-types.generator.ts:55-73 | there is one response definition per 2xx response with a JSON body |
| HandlerTypes.SuccessBodiesAtLeast | src/generator/handler/handler-types.generator.ts:59-62 | two 2xx responses with bodies count at least two |
| HandlerTypes.SuccessBodiesAtLeastOne | src/generator/handler/handler-types.generator.ts:59-62 | one 2xx response with a body counts at least one |
| HandlerTypes.DuplicateResponseInterfaces | src/generator/handler/handler-types.generator.ts:63-69 | two such responses give two interfaces with the same name |
| HandlerTypes.DefinitionRefsExactly | src/generator/handler/handler-types.generator.ts:25-73 | a name is referenced exactly when some definition's schema references it |
| HandlerTypes.ImportsExactlyReferenced | src/generator/handler/handler-types.generator.ts:76-85 | imported types are duplicate-free, exactly the referenced names, with one line each |
| Handler.RequestTypeVoidIff | src/generator/handler/handler.generator.ts:338-357 | the request type is `void` exactly for GET, DELETE, HEAD and OPTIONS; otherwise it shares the response type's prefix |
| Handler.RequestAndResponseDiffer | src/generator/handler/handler.generator.ts:338-357 | the request and response type names always differ |
| Handler.GenerateProxyMethodSignature | src/generator/handler/handler.generator.ts:311-329 | the signature text; adds the response type, plus the request type unless `void`; keeps the set duplicate-free |
| Handler.SignatureTypesAdded | src/generator/handler/handler.generator.ts:322-325 | the request type is added first (unless `void`), then the response type |
| Handler.GenerateMethodImplementation | src/generator/handler/handler.generator.ts:245-309 | the method text; adds the signature's types; adds a `$ref` body's name to the schema types |
| Handler.FormatChecks | src/generator/handler/handler.generator.ts:393-405 | at most one format check per parameter |
| Handler.ParameterValidation | src/generator/handler/handler.generator.ts:373-407 | a parameter produces lines exactly when it is a path parameter with a non-reference schema |
| Handler.ParameterValidationCases | src/generator/handler/handler.generator.ts:373-407 | declaration, then the UUID check for string/uuid, else the pattern check when a pattern is set |
| Handler.ValidationLinesStep | src/generator/handler/handler.generator.ts:372-408 | one more parameter appends its lines |
| Handler.GenerateValidationCode | src/generator/handler/handler.generator.ts:365-411 | the loop builds exactly the validation code |
| Handler.NoneValidatedStep | src/generator/handler/handler.generator.ts:373 | no parameter is validated exactly when none in the prefix is and the last is not |
| Handler.ValidationLinesEmpty | src/generator/handler/handler.generator.ts:372-408 | no lines exactly when no parameter qualifies |
| Handler.DeclarationHasStatement | src/generator/handler/handler.generator.ts:388-390 | the declaration line is a statement |
| Handler.UuidCheckHasStatement | src/generator/handler/handler.generator.ts:394-398 | the UUID check is a statement |
| Handler.PatternCheckHasStatement | src/generator/handler/handler.generator.ts:400-404 | the pattern check is a statement |
| Handler.ParameterLinesHaveStatements | src/generator/handler/handler.generator.ts:373-407 | every line of a parameter is a statement |
| Handler.ValidationLinesIndented | src/generator/handler/handler.generator.ts:372-408 | every validation line is a statement |
| Handler.ValidationInsertedIff | src/generator/handler/handler.generator.ts:293-295 | validation is inserted exactly when some parameter is validated |
| Handler.ParameterChecks | src/generator/handler/handler.generator.ts:388-405 | the declaration comes first; the UUID check is present exactly for string/uuid; the pattern check exactly otherwise when a pattern is set |
| Handler.UuidAndPatternDiffer | src/generator/handler/handler.generator.ts:393-405 | the two checks are never the same text |
| Handler.BaseHandlerMethod | src/generator/handler/handler.generator.ts:474-489 | one of the five helpers; `internalServerError` exactly for codes other than 400, 401, 403, 404 |
| Handler.ErrorSuffixMatchesHelper | src/generator/handler/handler.generator.ts:436-451 | for the named codes the override's suffix is the capitalised helper name |
| Handler.CapitalizedName | src/generator/util.ts:70-73 | a name equal to the lower form with only its first letter upper-cased is `capitalizeFirstLetter` of it |
| Handler.OtherCodesAreCustom | src/generator/handler/handler.generator.ts:452-453 | other codes get `CustomError_<code>` and call `internalServerError` |
| Handler.GenerateErrorOverrideMethods | src/generator/handler/handler.generator.ts:420-466 | the loop yields exactly the overrides, in response order |
| Handler.OneOverridePerErrorCode | src/generator/handler/handler.generator.ts:431 | one override per 4xx/5xx code |
| Handler.OverridesComeFromErrorCodes | src/generator/handler/handler.generator.ts:426-462 | every override is generated from some 4xx/5xx response |
| Handler.TypeImports | src/generator/handler/handler.generator.ts:175-180 | empty exactly when there are no used types |
| Handler.TypeImportsNameEveryType | src/generator/handler/handler.generator.ts:175-180 | a single import from `./proxy` of the sorted permutation of the used types; every used type occurs in it |
| Handler.GenerateSchemaImports | src/generator/handler/handler.generator.ts:188-199 | one `../schema/<lower>` import per schema type, in set order |
| Signatures.PathParamTypeIsTypeScript | src/generator/handler/handler-proxy.generator.ts:75-87 | never `""` or `integer`; `any` exactly for a `$ref` schema or a declared `any` type |
| Signatures.LowerFirst | src/generator/handler/handler-proxy.generator.ts:90-91 | only the first character is lower-cased |
| Signatures.LowerFirstKeepsCamelCase | src/generator/handler/handler-proxy.generator.ts:90-91 | a name not starting with an upper-case letter is kept |
| Signatures.PathParamsOf | src/generator/handler/handler-proxy.generator.ts:65-94 | no more path parameters than parameters |
| Signatures.PathParamsFromPathParameters | src/generator/handler/handler-proxy.generator.ts:71-94 | each entry is the renamed and typed form of some `in: path` parameter |
| Signatures.TypedParams | src/generator/handler/handler-proxy.generator.ts:166-169 | `void` parameters are dropped, so there are no more entries than path parameters |
| Signatures.TypedParamsKeepAll | src/generator/handler/handler-proxy.generator.ts:166-169 | without `void` types every parameter is rendered `name: type`, in order |
| Signatures.QueryParamMarker | src/generator/handler/handler-proxy.generator.ts:107-126 | the text starts with the name, has `?` exactly when not required, and ends with the type |
| Signatures.UntypedItemsPrintUndefined | src/generator/handler/handler-proxy.generator.ts:116 | an array whose items have no type prints `undefined[]` |
| Signatures.NoQueryParameterStep | src/generator/handler/handler-proxy.generator.ts:103-106 | no query parameter exactly when none in the prefix and the last is not one |
| Signatures.QueryParamsEmpty | src/generator/handler/handler-proxy.generator.ts:97-127 | no query texts exactly when there is no `in: query` parameter |
| Signatures.BodyOf | src/generator/handler/handler-proxy.generator.ts:140-157 | a body classified as a reference has that `$ref`; an inline body is the non-reference JSON schema |
| Signatures.BodyOnlyForPostPutPatch | src/generator/handler/handler-proxy.generator.ts:140-143 | there is a body exactly for POST, PUT and PATCH with a JSON schema |
| Signatures.ResolveBody | src/generator/handler/handler-proxy.generator.ts:139-157 | the data type, the types it adds, and the inline body interface it pushes |
| Signatures.AddQueryInterface | src/generator/handler/handler-proxy.generator.ts:130-136 | with query parameters, the named interface is pushed and used as the query type; otherwise `void` |
| Signatures.MethodParameters | src/generator/handler/handler-proxy.generator.ts:65-178 | one method's parameter list, added types and pushed interfaces |
| Signatures.FinalParamsOrder | src/generator/handler/handler-proxy.generator.ts:172-178 | path parameters, then `query`, then `data`, each present only when not empty or `void` |
| HandlerProxy.ProxyMethod | src/generator/handler/handler-proxy.generator.ts:64-181 | one method's text, its added types and its pushed interfaces |
| HandlerProxy.GenerateProxyMethods | src/generator/handler/handler-proxy.generator.ts:51-185 | the methods joined by newlines, the used-type set, and the interfaces in order |
| HandlerProxy.ResponseTypesUsed | src/generator/handler/handler-proxy.generator.ts:159-163 | every method's response type is in the duplicate-free used-type set |
| HandlerProxy.QueryInterfaceIff | src/generator/handler/handler-proxy.generator.ts:130-136 | there is a query type exactly when there are query parameters, and it is named `<Method>QueryParams` |
| HandlerProxy.ResponseTypeAgainstHandler | src/generator/handler/handler-proxy.generator.ts:159-160 | the proxy's response type is `<Method>Response`; it matches the handler's name exactly when the prefixes agree |
| HandlerProxy.DataParameter | src/generator/handler/handler-proxy.generator.ts:139-157 | no data for bodyless methods; inline bodies get `<Method>RequestBody` and an interface; `$ref` bodies use the extracted type and record it |
| HandlerStub.StubMethod | src/generator/handler/handler-stub.generator.ts:75-186 | one stub method's text, its added types and its pushed interfaces |
| HandlerStub.GenerateStubMethods | src/generator/handler/handler-stub.generator.ts:61-190 | the methods joined by newlines, the used-type set, and the interfaces in order |
| HandlerStub.ClassifiedStep | src/generator/handler/handler-stub.generator.ts:201-223 | one more type is routed to its group unless the existing imports already name it |
| HandlerStub.ImportLinesAppend | src/generator/handler/handler-stub.generator.ts:218-220 | import lines extend one per type |
| HandlerStub.GenerateTypeImports | src/generator/handler/handler-stub.generator.ts:192-232 | the loop builds exactly the proxy import and the sorted schema imports |
| HandlerStub.StubImplementsProxy | src/generator/handler/handler-stub.generator.ts:22-23 | the stub's class and interface names differ; the interface matches the proxy class exactly when the two Pascal names agree |
| HandlerStub.ResponseTypesUsed | src/generator/handler/handler-stub.generator.ts:164-167 | every response type is in the duplicate-free used-type set |
| HandlerStub.QueryInterfaceIff | src/generator/handler/handler-stub.generator.ts:136-142 | a query type exists exactly when query parameters do, named `<Method><Entity>QueryParams`; interfaces are pushed exactly for a query type or an inline body |
| HandlerStub.QueryNameAgainstProxy | src/generator/handler/handler-stub.generator.ts:138-139 | the stub's query interface name matches the proxy's exactly when the prefixes agree; the texts differ (`export` is missing here) |
| HandlerStub.ParamsAgainstProxy | src/generator/handler/handler-stub.generator.ts:169-180 | with equal prefixes, or nothing named, the stub's parameters are the proxy's |
| HandlerStub.ClassifiedContents | src/generator/handler/handler-stub.generator.ts:201-223 | a type is in a group exactly when it is used, has that group's prefix class, and is not already imported |
| HandlerStub.TypeImportsRouting | src/generator/handler/handler-stub.generator.ts:205-231 | a not-yet-imported type goes to the proxy import exactly when it starts with Post/Get/Put/Patch, else to a schema import |
| HandlerStub.ProxyTypeInitial | src/generator/handler/handler-stub.generator.ts:205-210 | proxy-routed types start with `P` or `G` |
| HandlerStub.DeleteTypesAreSchemaImports | src/generator/handler/handler-stub.generator.ts:205-221 | `Delete…` types are imported from `../schema/`, not `./proxy` |
| HandlerStub.TypeImportsEmpty | src/generator/handler/handler-stub.generator.ts:196-231 | the text is empty exactly when no type is used (otherwise it has at least a newline) |
| HandlerStub.MatchWitness | src/generator/handler/handler-stub.generator.ts:202 | a match at a word boundary means the pattern tests true |
| HandlerStub.WordBetween | src/generator/handler/handler-stub.generator.ts:202 | a word between non-word characters matches at its position |
| HandlerStub.ImportLineNamesType | src/generator/handler/handler-stub.generator.ts:202-217 | the import line of a type names it as a whole word |
| HandlerStub.SkipsHandlerTypeImports | src/generator/handler/handler-stub.generator.ts:39 | a type already imported by the interface definitions is in neither group |
| ExpressDeployment.Words | src/generator/deployment/express.ts:86 | splitting always yields at least one word |
| ExpressDeployment.CapitalizeWordsCons | src/generator/deployment/express.ts:87-88 | the words are capitalised one by one |
| ExpressDeployment.WordCons | src/generator/deployment/express.ts:87 | a word's first letter is upper-cased; the rest are lower-cased |
| ExpressDeployment.ScanNoSeparator | src/generator/deployment/express.ts:84-89 | the scan never emits `_` or white space |
| ExpressDeployment.ScanFirst | src/generator/deployment/express.ts:84-89 | at the start the first character emitted is not a lower-case letter |
| ExpressDeployment.ScanSeparatorStep | src/generator/deployment/express.ts:86-88 | a leading separator starts a new word |
| ExpressDeployment.ScanWordStep | src/generator/deployment/express.ts:86-88 | a leading word character continues the current word |
| ExpressDeployment.PascalScanWords | src/generator/deployment/express.ts:84-89 | the split-capitalise-join definition agrees with a one-pass scan |
| ExpressDeployment.PascalEqualsScan | src/generator/deployment/express.ts:84-89 | `toPascalCase` equals the scan |
| ExpressDeployment.PascalIsScan | src/generator/deployment/express.ts:84-89 | the result has no `_` or white space and does not start with a lower-case letter |
| ExpressDeployment.ScanInsideWord | src/generator/deployment/express.ts:87 | inside a word the scan lower-cases |
| ExpressDeployment.PascalAgainstUtil | src/generator/deployment/express.ts:84-89 | on one word, the result is the first letter upper-cased and the rest lower-cased; it agrees with `util.ts` exactly when the rest was already lower case |
| ExpressDeployment.CamelRoundTrip | src/generator/deployment/express.ts:92-95 | capitalising the camelCase form gives back the PascalCase form |
| ExpressDeployment.WordRun | src/generator/deployment/express.ts:72 | the run of word characters is within the string |
| ExpressDeployment.WordRunOfGroup | src/generator/deployment/express.ts:72 | the run stops at the closing brace |
| ExpressDeployment.ReplaceParamsAtGroup | src/generator/deployment/express.ts:72 | a `{word}` group is replaced by `f(word)` |
| ExpressDeployment.ReplaceParamsCons | src/generator/deployment/express.ts:72 | characters other than `{` are kept |
| ExpressDeployment.ReplaceParamsKeepPrefix | src/generator/deployment/express.ts:72 | a prefix not starting with `{` is kept |
| ExpressDeployment.ReplaceParamsGroup | src/generator/deployment/express.ts:72 | a brace-free prefix is kept, then the group is replaced |
| ExpressDeployment.ReplaceParamsNoBrace | src/generator/deployment/express.ts:72 | brace-free text is unchanged |
| ExpressDeployment.ExpressPathParams | src/generator/deployment/express.ts:31 | `{name}` becomes `:name`; the text around it is kept |
| ExpressDeployment.CollapseUnderscores | src/generator/deployment/express.ts:73 | no two `_` in a row remain; the same characters occur; the first and last characters are kept |
| ExpressDeployment.DropLeadingUnderscores | src/generator/deployment/express.ts:74 | the result is the suffix after a run of `_` and does not start with `_` |
| ExpressDeployment.DropTrailingUnderscores | src/generator/deployment/express.ts:74 | the result is the prefix before a run of `_` and does not end with `_` |
| ExpressDeployment.CollapseThenTrim | src/generator/deployment/express.ts:73-74 | after collapsing and trimming: no `__`, no leading or trailing `_`, only input characters |
| ExpressDeployment.SanitizeEndpoint | src/generator/deployment/express.ts:68-76 | no `/`; the result is the tidied string (no `__`, no leading or trailing `_`) with its remaining `/` turned into `_` |
| ExpressDeployment.SanitizeKeepsTrailingUnderscore | src/generator/deployment/express.ts:70-75 | a trailing `/` survives the trim and becomes a trailing `_`: `/<w>/` gives `<w>_` |
| ExpressDeployment.SanitizeWithoutSlashes | src/generator/deployment/express.ts:68-76 | on input without `/`, the result has no `__` and no leading or trailing `_` |
| ExpressDeployment.AdapterFileName | src/generator/deployment/express.ts:14-17 | the file name sanitises the sanitised endpoint again; it is lower case, without `/`, `__`, or a leading or trailing `_` |
| ExpressDeployment.SanitizeFileName | src/generator/deployment/express.ts:79-81 | the file name has no `/` and is lower case |
| ExpressDeployment.InstanceOfImportedClass | src/generator/deployment/express.ts:26-28 | the registered instance is the camelCase of the imported adapter class |
| ExpressDeployment.OneImportPerEndpoint | src/generator/deployment/express.ts:12-21 | the import block has exactly one line per endpoint, in order |
| ExpressDeployment.PascalNoNewline | src/generator/deployment/express.ts:84-89 | no newline in a PascalCase name |
| ExpressDeployment.LowerNoNewline | src/generator/deployment/express.ts:80 | lower-casing adds no newline |
| ExpressDeployment.ImportStatementSingleLine | src/generator/deployment/express.ts:19 | an import statement is one line |
| ExpressDeployment.ImportPartsSingleLine | src/generator/deployment/express.ts:19 | the literal parts of an import statement contain no newline |
| ExpressDeployment.NoNewlineKept | src/generator/deployment/express.ts:68-76 | sanitising adds no newline |
| ExpressDeployment.SlashWordKeepsChars | src/generator/deployment/express.ts:71 | only input characters and `_` appear |
| ExpressDeployment.ReplaceParamsKeepsNonWord | src/generator/deployment/express.ts:72 | replacing parameters introduces no character that is not a word character (no newline, no `/`) |
| ExpressDeployment.OneRegistrationPerMethod | src/generator/deployment/express.ts:33-38 | for an endpoint and methods without newlines: one registration line per HTTP method, in order |
| ExpressDeployment.HandlerLineSingleLine | src/generator/deployment/express.ts:34-37 | a registration line has no newline when the endpoint and the method have none |
| ExpressDeployment.InstanceNameSingleLine | src/generator/deployment/express.ts:28 | the instance name has no newline when the endpoint has none |
| ExpressDeployment.ExpressPathKeepsNewlines | src/generator/deployment/express.ts:31 | turning `{name}` into `:name` adds no newline |
| LegacyHandler.RefNameAgainstUtil | src/handler-generator.ts:91-93 | equals `util.ts`'s `extractRefName` exactly when the last segment is non-empty; otherwise `""` against `"UnknownType"` |
| LegacyHandler.ContentTypes | src/handler-generator.ts:72-88 | at most one type per content, and no type contains `/` |
| LegacyHandler.ExtractTypesFromContent | src/handler-generator.ts:72-88 | adds the `$ref` name, or else the `$ref` name of the items |
| LegacyHandler.AddResponseTypes | src/handler-generator.ts:59-65 | adds each response's content types in order |
| LegacyHandler.AddOperationTypes | src/handler-generator.ts:53-65 | adds the body's types, then the responses' types |
| LegacyHandler.ExtractTypesToImport | src/handler-generator.ts:49-69 | the loop yields exactly the types to import |
| LegacyHandler.ImportedTypes | src/handler-generator.ts:49-69 | a type is imported exactly when some method names it, with no duplicates |
| LegacyHandler.ResponseTypesCases | src/handler-generator.ts:73-86 | a content yields a type exactly when its JSON schema, or the schema's items, has a truthy `$ref` |
| LegacyHandler.ParameterLines | src/handler-generator.ts:166-191 | lines exactly for path parameters with a schema; no line is empty |
| LegacyHandler.GenerateValidationCode | src/handler-generator.ts:160-195 | the loop builds exactly the validation code |
| LegacyHandler.ValidationCodeCases | src/handler-generator.ts:160-195 | `""` exactly without a parameter list; a lone newline exactly when no parameter is a path parameter |
| LegacyHandler.ParameterLinesAgainstHandler | src/handler-generator.ts:166-191 | same checks as the newer generator, but the declaration ends in an extra newline and `$ref` schemas are not skipped |
| LegacyHandler.GenerateMethodImplementation | src/handler-generator.ts:133-157 | the loop builds exactly the method text |
| LegacyHandler.BodyTypeImported | src/handler-generator.ts:141-147 | a `$ref` body's type is the first imported type of that method; other bodies read `any` |
| LegacyHandler.BodyTypeAgainstHandler | src/handler-generator.ts:141-147 | agrees with the newer generator on `$ref`s with a non-empty name; an empty `$ref` gives `any` here and `UnknownType` there |
| LegacyHandler.GenerateImports | src/handler-generator.ts:102-106 | one import line per type |
| LegacyHandler.GenerateMethodBlocks | src/handler-generator.ts:109-120 | one implementation and one override block per method, in order |
| LegacyHandler.GenerateClassContent | src/handler-generator.ts:96-130 | the loops build exactly the file text |
| LegacyHandler.Generate | src/handler-generator.ts:8-39 | the file is `<normalized>.ts`, and its content is the class with the extracted types |
| LegacyHandler.EveryMethodImplemented | src/handler-generator.ts:109-127 | every method's implementation appears in the file |
| LegacyHandler.EveryTypeImported | src/handler-generator.ts:102-123 | every type's import line appears in the file |
| LegacyHandler.EmptyNameImported | src/handler-generator.ts:79-81 | a body `$ref` ending in `/` imports the empty name |
| Routes.RouteMethods | src/generator/adapter.ts:39-43 | one upper-cased method per key, equal to the key up to case; upper-casing twice changes nothing |
| PlatformAdapter.AdapterGenerator.constructor | src/generator/adapter.ts:13-15 | starts with no routes |
| PlatformAdapter.AdapterGenerator.Generate | src/generator/adapter.ts:18-88 | the route is recorded even when the template cannot be read; the result is the adapter file or that error |
| PlatformAdapter.AdapterGenerator.GetRoutes | src/generator/adapter.ts:91-93 | the recorded routes |
| PlatformAdapter.TemplateNamedAfterPlatform | src/generator/adapter.ts:46-51 | `<platform>.ejs` for the three platforms; any other value gets the Express template |
| PlatformAdapter.ClassNames | src/generator/adapter.ts:31-32 | adapter and handler class names share the Pascal prefix and differ; the handler name is the single-file handler generator's class |
| PlatformAdapter.OutputCases | src/generator/adapter.ts:62-79 | fails exactly when the template is unreadable; writes `adapters/<normalized>.ts`, the handler generator's file name |
| LegacyAdapter.TemplateAgainstPlatformAdapter | src/adapter-generator.ts:27-28 | the same template for lambda and cloudflare; any other value gets Cloudflare's template here and Express's there |
| LegacyAdapter.OutputAgainstPlatformAdapter | src/adapter-generator.ts:16-56 | when both succeed, same names and path as `src/generator/adapter.ts`, and the handler class and file name match |
| LegacyAdapter.GenerateFails | src/adapter-generator.ts:39 | fails exactly when the template is unreadable, with that template's error |
| LambdaAdapter.LambdaAdapterGenerator.constructor | src/generator/adapter/lambda.adapter.ts:14-16 | starts with no routes |
| LambdaAdapter.LambdaAdapterGenerator.Generate | src/generator/adapter/lambda.adapter.ts:18-59 | records the `lambda` route before reading the template; the result is `<normalized>/adapter.ts` or the template error |
| LambdaAdapter.LambdaAdapterGenerator.GetRoutes | src/generator/adapter/lambda.adapter.ts:61-63 | the recorded routes |
| LambdaAdapter.NamesAgainstPlatformAdapter | src/generator/adapter/lambda.adapter.ts:23-26 | class names agree with `src/generator/adapter.ts` exactly when the normalised endpoint has no white space |
| LambdaAdapter.PascalWithoutWhitespace | src/generator/util.ts:11-15 | without white space the two `toPascalCase`s agree |
| LambdaAdapter.SuffixedDiffer | src/generator/adapter/lambda.adapter.ts:24-25 | a white-space character in only one prefix keeps the suffixed names apart |
| LambdaAdapter.PathAgainstPlatformAdapter | src/generator/adapter/lambda.adapter.ts:50-54 | `<normalized>/adapter.ts` here, not `adapters/<normalized>.ts` |
| ExpressAdapter.ExpressAdapterGenerator.constructor | src/generator/adapter/express.adapter.ts:15-16 | starts with no routes |
| ExpressAdapter.ExpressAdapterGenerator.Generate | src/generator/adapter/express.adapter.ts:18-60 | records the `express` route before reading the template; the result is the Lambda layout with `express.ejs` |
| ExpressAdapter.ExpressAdapterGenerator.GetRoutes | src/generator/adapter/express.adapter.ts:62-64 | the recorded routes |
| ExpressAdapter.SameFileAsLambda | src/generator/adapter/express.adapter.ts:24-55 | the Express and Lambda files for one endpoint differ only in the template |
| AdapterDispatch.AdapterGenerator.constructor | src/generator/adapter/adapter.generator.ts:14-18 | no routes; fresh sub-generators with the output path |
| AdapterDispatch.AdapterGenerator.Generate | src/generator/adapter/adapter.generator.ts:20-46 | an unknown platform fails and changes nothing; otherwise only the chosen generator changes; when it fails (template unreadable, or the Cloudflare generator rejects) the error propagates and the aggregate is unchanged; on success its whole list is appended |
| AdapterDispatch.AdapterGenerator.GetRoutes | src/generator/adapter/adapter.generator.ts:48-50 | the aggregated routes |
| AdapterDispatch.AccumulatedStep | src/generator/adapter/adapter.generator.ts:28-29 | one more call appends the sub-generator's whole list |
| AdapterDispatch.AccumulatedLength | src/generator/adapter/adapter.generator.ts:28-29 | after k calls on one platform the aggregate holds k(k+1)/2 routes |
| AdapterDispatch.AccumulatedPrefix | src/generator/adapter/adapter.generator.ts:28-29 | earlier aggregates are prefixes of later ones |
| AdapterDispatch.FirstRouteRepeated | src/generator/adapter/adapter.generator.ts:28-29 | from the second call on, the aggregate starts with the first route twice |
| AdapterDispatch.FirstRouteCount | src/generator/adapter/adapter.generator.ts:28-29 | the first route occurs at least once per call |
| Swaggen.NormalizedKeys | experiment/lambda/src/service/users_userid/swaggen.ts:119-125 | a key is present exactly when some header lower-cases to it |
| Swaggen.NormalizedLastWins | experiment/lambda/src/service/users_userid/swaggen.ts:119-125 | of headers that differ only in case, the last one wins |
| Swaggen.Lookup | experiment/lambda/src/service/users_userid/swaggen.ts:110-112 | a value exactly when the lower-cased name is present with a non-empty value (`""` reads as `null`) |
| Swaggen.LookupIgnoresCase | experiment/lambda/src/service/users_userid/swaggen.ts:110-112 | lookups ignore the case of the name |
| Swaggen.LookupAfterSet | experiment/lambda/src/service/users_userid/swaggen.ts:186-189 | after a set, same-named lookups see the value; others are unchanged |
| Swaggen.NormalizedStep | experiment/lambda/src/service/users_userid/swaggen.ts:196-201 | setting the next header extends the normalised prefix by one |
| Swaggen.ValidStatus | experiment/lambda/src/service/users_userid/swaggen.ts:276-282 | always 100..599; in-range codes are kept; others become 500 |
| Swaggen.ValidStatusIdempotent | experiment/lambda/src/service/users_userid/swaggen.ts:276-282 | validating twice is validating once |
| Swaggen.ContentTypeLowered | experiment/lambda/src/service/users_userid/swaggen.ts:219 | `Content-Type` is stored as `content-type` |
| Swaggen.QueryBoolean | experiment/lambda/src/service/users_userid/swaggen.ts:90-95 | `true` exactly for `"true"`, `false` exactly for `"false"`, `null` otherwise |
| Swaggen.SwaggenRequest.constructor | experiment/lambda/src/service/users_userid/swaggen.ts:18-39 | the method is upper-cased; the headers (default none) are normalised with lower-case keys; the URL defaults to `""` |
| Swaggen.SwaggenRequest.GetHeader | experiment/lambda/src/service/users_userid/swaggen.ts:110-112 | case-insensitive lookup |
| Swaggen.NormalizeHeaders | experiment/lambda/src/service/users_userid/swaggen.ts:119-125 | the loop builds the normalised map, whose keys are all lower case |
| Swaggen.SwaggenResponse.constructor | experiment/lambda/src/service/users_userid/swaggen.ts:160-168 | the status (default 200) is validated, the headers (default none) normalised, the body defaults to `null` |
| Swaggen.SwaggenResponse.SetStatus | experiment/lambda/src/service/users_userid/swaggen.ts:175-178 | only the status changes, to the validated code |
| Swaggen.SwaggenResponse.SetHeader | experiment/lambda/src/service/users_userid/swaggen.ts:186-189 | only the lower-cased header changes |
| Swaggen.SwaggenResponse.SetHeaders | experiment/lambda/src/service/users_userid/swaggen.ts:196-201 | the normalised entries override the old headers; nothing else changes |
| Swaggen.SwaggenResponse.GetHeader | experiment/lambda/src/service/users_userid/swaggen.ts:208-210 | case-insensitive lookup |
| Swaggen.SwaggenResponse.SetContentType | experiment/lambda/src/service/users_userid/swaggen.ts:219 | only `content-type` changes |
| Swaggen.SwaggenResponse.SendJson | experiment/lambda/src/service/users_userid/swaggen.ts:217-221 | JSON content type and data body; the status is kept |
| Swaggen.SwaggenResponse.SendText | experiment/lambda/src/service/users_userid/swaggen.ts:228-232 | plain-text content type and text body; the status is kept |
| Swaggen.SwaggenResponse.SendHtml | experiment/lambda/src/service/users_userid/swaggen.ts:239-243 | HTML content type and text body; the status is kept |
| Swaggen.SwaggenResponse.SendError | experiment/lambda/src/service/users_userid/swaggen.ts:251-256 | the validated status (500 by default), JSON content type, and an `{ error }` body |
| Swaggen.ContentTypeAfterSend | experiment/lambda/src/service/users_userid/swaggen.ts:217-256 | after any send, `getHeader("Content-Type")` in any case returns the MIME type set |
| Swaggen.ErrorMessage | experiment/lambda/src/service/users_userid/swaggen.ts:347-398 | `<verb> method not implemented` for 501; otherwise the message given, else the helper's default |
| Swaggen.StatusesDistinct | experiment/lambda/src/service/users_userid/swaggen.ts:347-398 | every helper's status is a valid 4xx/5xx; distinct helpers have distinct statuses; 501 exactly for "not implemented" |
| Swaggen.ErrorResponse | experiment/lambda/src/service/users_userid/swaggen.ts:353-398 | a new valid response with the helper's status, JSON content type and `{ error }` body |
| Swaggen.DefaultHandler | experiment/lambda/src/service/users_userid/swaggen.ts:305-350 | an unimplemented verb answers 501 with `<VERB> method not implemented` |

## Left out

- File system, `ejs` rendering, the template root and `process.env`,
  `console` output, and `async` scheduling are left out. The template read
  is a parameter that may fail; rendered text is not modelled.
- `pluralize.singular`, `getMethodName`, `extractRefType`,
  `extractClassNameFromEndpoint`, `extractEntityName` (as imported from
  `src/generator/util.ts`) and `getResponseTypeName` (as the stub generator
  imports it) are not part of this model.
  They are uninterpreted parameters.
- `src/generator/adapter/cloudflare.adapter.ts` is not part of this model.
  `AdapterDispatch.AdapterGenerator.Generate` takes the outcome of its
  `generate` as a parameter: the error it rejects with, or its route list
  after the call.
- Case mapping covers ASCII letters only; other Unicode case rules are not
  modelled.
- Regular expressions are modelled by the one pattern each call site uses.
  Metacharacters in a type name passed to `new RegExp` in the stub
  generator are treated literally.
- `Object.entries`/`Object.keys` order is the sequence given. The JavaScript
  rule that integer-like keys come first is not modelled.
- A `Set` passed by reference is threaded as a value: in and out
  parameters. Aliasing between callers is not modelled.
- `buildProxyContent`, `buildStubContent`, `buildHandlerContent` and
  `generateBaseFile` are not modelled. These are the assemblies of whole
  files from parts already modelled. The `configure.ts` template around the
  import and route blocks is not modelled either.
- A missing `responses` object is modelled as empty, and a request body
  without `content` as an empty content map. The source throws a `TypeError`
  in both cases wherever it reads them unguarded.
- Handler.GenerateErrorOverrideMethods: returns text for an operation without
  `responses`, where `Object.keys(methodSpec.responses)` throws a `TypeError`
  (src/generator/handler/handler.generator.ts:426).
- LegacyHandler.GenerateMethodBlocks: returns text for an operation without
  `responses`, where `Object.keys(methodSpec.responses)` throws a `TypeError`
  (src/handler-generator.ts:204).
- The runtime's `URL` parsing, body parsing, `getQueryParam`,
  `getAllQueryParams` and the `path` getter are not modelled.
  `getQueryParamAsNumber` is not modelled, because it relies on floating
  point.
- `validateStatusCode` accepts `NaN` in JavaScript; status codes here are
  integers.
- The handler's capabilities and logger are not modelled.
- `return this` chaining is not modelled: the response methods update the
  object in place and return nothing.
- Response and request bodies have an opaque type parameter.
- Handler.TypeImportsNameEveryType: strings are sequences of Unicode scalar
  values and `Sort` orders them by code point. `sort()` without a comparator
  compares UTF-16 code units, so a name with a character above U+FFFF sorts
  before one with a character in U+E000..U+FFFF at the same position in the
  source, and after it here.
- HandlerStub.GenerateTypeImports: the same code-point against UTF-16 order
  difference in its two sorted groups.
- Swaggen.Lookup: header records are maps with no inherited keys. In the
  source they are object literals that inherit `Object.prototype`. So an
  absent `constructor` header reads the inherited `Object` function, and
  `__proto__` reads `Object.prototype`; both are truthy where this model
  answers `null`. These are the only all-lower-case inherited names.
- Swaggen.SwaggenRequest.GetHeader: the same inherited-name gap as `Lookup`.
- Swaggen.SwaggenResponse.GetHeader: the same inherited-name gap as `Lookup`.
- Swaggen.NormalizeHeaders: stores a `__proto__` entry. The source's
  assignment hits the `__proto__` setter, which ignores a string value, so
  the header is dropped there.
- Swaggen.SwaggenRequest.constructor: keeps a `__proto__` header that the
  source drops, because it normalises through `NormalizeHeaders`.
- Swaggen.SwaggenResponse.constructor: keeps a `__proto__` header that the
  source drops, for the same reason.
- Swaggen.SwaggenResponse.SetHeader: stores a `__proto__` header, where the
  source's assignment is ignored by the `__proto__` setter.
- Swaggen.SwaggenResponse.SetHeaders: the same `__proto__` gap as
  `SetHeader`, entry by entry.
