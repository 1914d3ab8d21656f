/**
  The parameter rules that the proxy and the stub generators
  (src/generator/handler/handler-proxy.generator.ts and
  handler-stub.generator.ts) share word for word: path and query parameter
  typing and rendering, the request body classification, and the order of
  the final parameter list.
*/
module Signatures {
  import opened Wrappers
  import opened Text
  import opened OpenApi
  import Util

  // ---------------------------------------------------------------------------
  // Path parameters

  predicate IsPathParameter(p: Parameter) {
    p.Parameter? && p.location == "path"
  }

  /** The TypeScript type of a path parameter. */
  function PathParamType(p: Parameter): (r: string)
    requires p.Parameter?
  {
    if p.schema.None? then "string"
    else if HasRef(p.schema.value) then "any"
    else if p.schema.value.typ == "integer" then "number"
    else if p.schema.value.typ == "" then "string"
    else p.schema.value.typ
  }

  /** A path parameter's type is never empty and never the OpenAPI `integer`. */
  lemma {:induction false} PathParamTypeIsTypeScript(p: Parameter)
    requires p.Parameter?
    ensures PathParamType(p) != "" && PathParamType(p) != "integer"
    ensures PathParamType(p) == "any" <==> p.schema.Some? && (HasRef(p.schema.value) || p.schema.value.typ == "any")
  {
  }

  /** `name.charAt(0).toLowerCase() + name.slice(1)`. */
  function LowerFirst(name: string): (r: string)
    ensures |r| == |name|
    ensures name != [] ==> r[0] == LowerChar(name[0])
    ensures forall i :: 1 <= i < |name| ==> r[i] == name[i]
  {
    if name == [] then [] else [LowerChar(name[0])] + name[1..]
  }

  /** A name whose first letter is already lower-case is kept. */
  lemma {:induction false} LowerFirstKeepsCamelCase(name: string)
    requires name != [] && !IsUpperLetter(name[0])
    ensures LowerFirst(name) == name
  {
  }

  /** The path parameters, in order: (lower-first name, type). */
  function PathParams(params: Option<seq<Parameter>>): (r: seq<(string, string)>)
  {
    if params.None? then [] else PathParamsOf(params.value)
  }

  function PathParamsOf(ps: seq<Parameter>): (r: seq<(string, string)>)
    ensures |r| <= |ps|
  {
    if ps == [] then []
    else
      var last := ps[|ps| - 1];
      PathParamsOf(ps[..|ps| - 1])
        + (if IsPathParameter(last) then [(LowerFirst(last.name), PathParamType(last))] else [])
  }

  /** Every entry comes from a path parameter of the list, with its name and type. */
  lemma {:induction false} PathParamsFromPathParameters(ps: seq<Parameter>, k: nat)
    requires k < |PathParamsOf(ps)|
    ensures exists i :: (0 <= i < |ps| && IsPathParameter(ps[i])
      && PathParamsOf(ps)[k] == (LowerFirst(ps[i].name), PathParamType(ps[i])))
  {
    var init := ps[..|ps| - 1];
    var last := ps[|ps| - 1];
    var prev := PathParamsOf(init);
    var tail := if IsPathParameter(last) then [(LowerFirst(last.name), PathParamType(last))] else [];
    assert PathParamsOf(ps) == prev + tail;
    if k < |prev| {
      PathParamsFromPathParameters(init, k);
      var i :| 0 <= i < |init| && IsPathParameter(init[i]) && prev[k] == (LowerFirst(init[i].name), PathParamType(init[i]));
      assert ps[i] == init[i];
    } else {
      assert PathParamsOf(ps)[k] == tail[0];
    }
  }

  /** `name: type` for the path parameters whose type is not `void`, comma-separated. */
  function ParamString(pathParams: seq<(string, string)>): string {
    Join(TypedParams(pathParams), ", ")
  }

  function TypedParams(pathParams: seq<(string, string)>): (r: seq<string>)
    ensures |r| <= |pathParams|
  {
    if pathParams == [] then []
    else
      var last := pathParams[|pathParams| - 1];
      TypedParams(pathParams[..|pathParams| - 1])
        + (if last.1 != "void" then [last.0 + ": " + last.1] else [])
  }

  /** With no `void`-typed entry, every path parameter is rendered, in order. */
  lemma {:induction false} TypedParamsKeepAll(pathParams: seq<(string, string)>)
    requires forall i :: 0 <= i < |pathParams| ==> pathParams[i].1 != "void"
    ensures |TypedParams(pathParams)| == |pathParams|
    ensures forall i :: 0 <= i < |pathParams| ==>
      TypedParams(pathParams)[i] == pathParams[i].0 + ": " + pathParams[i].1
  {
    if pathParams != [] {
      var init := pathParams[..|pathParams| - 1];
      assert forall i :: 0 <= i < |init| ==> init[i] == pathParams[i];
      TypedParamsKeepAll(init);
    }
  }

  // ---------------------------------------------------------------------------
  // Query parameters

  predicate IsQueryParameter(p: Parameter) {
    p.Parameter? && p.location == "query"
  }

  /** The element type of a query array: `integer` becomes `number`; a missing type prints as `undefined`. */
  function ItemTypeText(items: Schema): string {
    if items.typ == "integer" then "number"
    else if items.typ == "" then "undefined"
    else items.typ
  }

  /** The TypeScript type of a query parameter. */
  function QueryParamType(p: Parameter): (r: string)
    requires p.Parameter?
  {
    if p.schema.None? then "string"
    else
      var s := p.schema.value;
      if HasRef(s) then "any"
      else if s.typ == "array" && s.items.Some? then ItemTypeText(s.items.value) + "[]"
      else if s.typ == "integer" then "number"
      else if s.typ == "" then "string"
      else s.typ
  }

  /** `name` + `?` when not required + `: ` + type. */
  function QueryParamText(p: Parameter): string
    requires p.Parameter?
  {
    p.name + (if p.required then "" else "?") + ": " + QueryParamType(p)
  }

  /**
    The `?` right after the name appears exactly when the parameter is not
    required, and the type follows the `: `.
  */
  lemma {:induction false} QueryParamMarker(p: Parameter)
    requires p.Parameter?
    ensures var t := QueryParamText(p);
      var n := |p.name|;
      && t[..n] == p.name
      && (t[n] == '?' <==> !p.required)
      && t[|t| - |QueryParamType(p)|..] == QueryParamType(p)
  {
    var t := QueryParamText(p);
    var mark := if p.required then "" else "?";
    assert t == p.name + (mark + ": " + QueryParamType(p));
    assert t == (p.name + mark + ": ") + QueryParamType(p);
  }

  /**
    An array of items whose schema has no `type` of its own (a `$ref`, for
    instance) is typed `undefined[]`.
  */
  lemma {:induction false} UntypedItemsPrintUndefined(p: Parameter)
    requires p.Parameter? && p.schema.Some?
    requires var s := p.schema.value; !HasRef(s) && s.typ == "array" && s.items.Some? && s.items.value.typ == ""
    ensures QueryParamType(p) == "undefined[]"
  {
  }

  /** The rendered query parameters, in order. */
  function QueryParams(params: Option<seq<Parameter>>): seq<string> {
    if params.None? then [] else QueryParamsOf(params.value)
  }

  function QueryParamsOf(ps: seq<Parameter>): seq<string> {
    if ps == [] then []
    else
      var last := ps[|ps| - 1];
      QueryParamsOf(ps[..|ps| - 1]) + (if IsQueryParameter(last) then [QueryParamText(last)] else [])
  }

  /** No query parameter at all. */
  predicate NoQueryParameter(ps: seq<Parameter>) {
    forall i :: 0 <= i < |ps| ==> !IsQueryParameter(ps[i])
  }

  lemma {:induction false} NoQueryParameterStep(ps: seq<Parameter>)
    requires ps != []
    ensures NoQueryParameter(ps) <==> NoQueryParameter(ps[..|ps| - 1]) && !IsQueryParameter(ps[|ps| - 1])
  {
    var init := ps[..|ps| - 1];
    if NoQueryParameter(init) && !IsQueryParameter(ps[|ps| - 1]) {
      forall i | 0 <= i < |ps| ensures !IsQueryParameter(ps[i]) {
        if i < |init| {
          assert ps[i] == init[i];
        }
      }
    }
  }

  /** There are rendered query parameters, and so a query interface, iff some parameter is `in: query`. */
  lemma {:induction false} QueryParamsEmpty(ps: seq<Parameter>)
    ensures QueryParamsOf(ps) == [] <==> NoQueryParameter(ps)
  {
    if ps != [] {
      var init := ps[..|ps| - 1];
      var last := ps[|ps| - 1];
      QueryParamsEmpty(init);
      NoQueryParameterStep(ps);
      var prev := QueryParamsOf(init);
      var tail := if IsQueryParameter(last) then [QueryParamText(last)] else [];
      assert QueryParamsOf(ps) == prev + tail;
      assert |prev + tail| == |prev| + |tail|;
    }
  }

  /** The body of a query interface: `{ a; b }`. */
  function QueryInterfaceBody(queryParams: seq<string>): string {
    "{ " + Join(queryParams, "; ") + " }"
  }

  // ---------------------------------------------------------------------------
  // Request body

  /** `["post", "put", "patch"].includes(method.toLowerCase())`. */
  predicate IsBodyMethod(httpMethod: string) {
    var m := Lower(httpMethod);
    m == "post" || m == "put" || m == "patch"
  }

  /** How the request body becomes the `data` parameter. */
  datatype Body = NoBody | RefBody(ref: string) | InlineBody(schema: Schema)

  function BodyOf(httpMethod: string, op: Operation): (b: Body)
    ensures b.RefBody? ==> RequestJsonSchema(op).Some? && RequestJsonSchema(op).value.ref == Some(b.ref)
    ensures b.InlineBody? ==> RequestJsonSchema(op) == Some(b.schema) && !HasRef(b.schema)
  {
    if IsBodyMethod(httpMethod) && RequestJsonSchema(op).Some? then
      var s := RequestJsonSchema(op).value;
      if HasRef(s) then RefBody(s.ref.value) else InlineBody(s)
    else NoBody
  }

  /**
    There is a `data` parameter exactly for post, put and patch (any letter
    case) with a JSON schema in the request body.
  */
  lemma {:induction false} BodyOnlyForPostPutPatch(httpMethod: string, op: Operation)
    ensures BodyOf(httpMethod, op) != NoBody <==> IsBodyMethod(httpMethod) && RequestJsonSchema(op).Some?
    ensures !IsBodyMethod(httpMethod) ==> BodyOf(httpMethod, op) == NoBody
  {
  }

  /** The names the body adds to `usedTypes`: the ref type, or what `resolveType` records. */
  function BodyUsedTypes(ext: Externals, b: Body): seq<string> {
    match b
    case NoBody => []
    case RefBody(ref) => [ext.extractRefType(ref)]
    case InlineBody(s) => Util.ReferencedNames(s)
  }

  /** The `data` type: `void`, the ref type, or the inline body interface's name. */
  function DataType(ext: Externals, b: Body, inlineName: string): string {
    match b
    case NoBody => "void"
    case RefBody(ref) => ext.extractRefType(ref)
    case InlineBody(_) => inlineName
  }

  /** The inline body's interface, `interface <name> <resolved type>`, when there is one. */
  function BodyInterface(b: Body, inlineName: string): seq<string> {
    if b.InlineBody? then ["interface " + inlineName + " " + Util.TypeString(b.schema)] else []
  }

  /**
    The request-body step both generators share: the `data` type, the names
    it adds to `usedTypes` (the ref type, or what `resolveType` records for
    an inline schema) and the inline body interface it pushes.
  */
  method ResolveBody(ext: Externals, httpMethod: string, op: Operation, inlineName: string,
                     usedTypes: seq<string>, interfaces: seq<string>)
    returns (dataType: string, usedTypes': seq<string>, interfaces': seq<string>)
    ensures dataType == DataType(ext, BodyOf(httpMethod, op), inlineName)
    ensures usedTypes' == SetAddAll(usedTypes, BodyUsedTypes(ext, BodyOf(httpMethod, op)))
    ensures interfaces' == interfaces + BodyInterface(BodyOf(httpMethod, op), inlineName)
  {
    dataType := "void";
    usedTypes' := usedTypes;
    interfaces' := interfaces;
    if IsBodyMethod(httpMethod) && op.requestBody.Some? {
      var content := JsonSchema(op.requestBody.value.content);
      if content.Some? {
        if HasRef(content.value) {
          dataType := ext.extractRefType(content.value.ref.value);
          usedTypes' := SetAdd(usedTypes', dataType);
          SetAddAllSingle(usedTypes, dataType);
        } else {
          dataType := inlineName;
          var resolved;
          resolved, usedTypes' := Util.ResolveType(content.value, usedTypes');
          interfaces' := interfaces' + ["interface " + dataType + " " + resolved];
        }
      }
    }
    assert BodyOf(httpMethod, op).NoBody? ==> SetAddAll(usedTypes, []) == usedTypes;
  }

  /**
    The query step both generators share: with query parameters, push the
    interface `<declaration> <name> { … }` and use its name as the query
    type; without, the query type is `void`.
  */
  method AddQueryInterface(declaration: string, interfaceName: string, queryParams: seq<string>, interfaces: seq<string>)
    returns (queryType: string, interfaces': seq<string>)
    ensures queryType == if queryParams != [] then interfaceName else "void"
    ensures interfaces' == interfaces + QueryInterfaces(declaration, interfaceName, queryParams)
  {
    queryType := "void";
    interfaces' := interfaces;
    if |queryParams| > 0 {
      interfaces' := interfaces' + [declaration + interfaceName + " " + QueryInterfaceBody(queryParams)];
      queryType := interfaceName;
    }
  }

  /** The query interface, if there are query parameters. */
  function QueryInterfaces(declaration: string, interfaceName: string, queryParams: seq<string>): seq<string> {
    if queryParams != [] then [declaration + interfaceName + " " + QueryInterfaceBody(queryParams)] else []
  }

  // ---------------------------------------------------------------------------
  // The final parameter list

  function QueryPart(queryType: string): string {
    if queryType != "void" then "query: " + queryType else ""
  }

  function DataPart(dataType: string): string {
    if dataType != "void" then "data: " + dataType else ""
  }

  /** `[paramString, query, data].filter(Boolean).join(", ")`. */
  function FinalParams(paramString: string, queryType: string, dataType: string): string {
    Join(NonEmpty([paramString, QueryPart(queryType), DataPart(dataType)]), ", ")
  }

  // ---------------------------------------------------------------------------
  // One method's parameters, as the proxy and the stub derive them

  /** The query type: the query interface's name when there are query parameters, else `void`. */
  function QueryTypeFor(op: Operation, queryName: string): string {
    if QueryParams(op.parameters) != [] then queryName else "void"
  }

  /** The parameter list of a method whose generator names its query and body interfaces `queryName` and `bodyName`. */
  function MethodParamList(ext: Externals, httpMethod: string, op: Operation, queryName: string, bodyName: string): string {
    FinalParams(ParamString(PathParams(op.parameters)), QueryTypeFor(op, queryName),
                DataType(ext, BodyOf(httpMethod, op), bodyName))
  }

  /** The interfaces a method pushes: its query interface, then its inline body interface. */
  function PushedInterfaces(httpMethod: string, op: Operation, declaration: string, queryName: string, bodyName: string): seq<string> {
    QueryInterfaces(declaration, queryName, QueryParams(op.parameters)) + BodyInterface(BodyOf(httpMethod, op), bodyName)
  }

  /**
    The steps of the `.map` callback that the proxy and the stub share:
    type the path and query parameters, push the query interface, resolve
    the body, and order the parameters.
  */
  method MethodParameters(ext: Externals, httpMethod: string, op: Operation,
                          declaration: string, queryName: string, bodyName: string,
                          usedTypes: seq<string>, interfaces: seq<string>)
    returns (finalParams: string, usedTypes': seq<string>, interfaces': seq<string>)
    ensures finalParams == MethodParamList(ext, httpMethod, op, queryName, bodyName)
    ensures usedTypes' == SetAddAll(usedTypes, BodyUsedTypes(ext, BodyOf(httpMethod, op)))
    ensures interfaces' == interfaces + PushedInterfaces(httpMethod, op, declaration, queryName, bodyName)
  {
    var pathParams := PathParams(op.parameters);
    var queryParams := QueryParams(op.parameters);
    var queryType, withQuery := AddQueryInterface(declaration, queryName, queryParams, interfaces);
    var dataType;
    dataType, usedTypes', interfaces' := ResolveBody(ext, httpMethod, op, bodyName, usedTypes, withQuery);
    var paramString := ParamString(pathParams);
    finalParams := FinalParams(paramString, queryType, dataType);
  }

  /**
    Path parameters come first, then `query`, then `data`; a part that is
    absent (`""` or `void`) leaves no separator behind.
  */
  lemma {:induction false} FinalParamsOrder(paramString: string, queryType: string, dataType: string)
    ensures var r := FinalParams(paramString, queryType, dataType);
      var q := "query: " + queryType;
      var d := "data: " + dataType;
      && (queryType == "void" && dataType == "void" ==> r == paramString)
      && (paramString == "" && queryType != "void" && dataType == "void" ==> r == q)
      && (paramString == "" && queryType == "void" && dataType != "void" ==> r == d)
      && (paramString == "" && queryType != "void" && dataType != "void" ==> r == q + ", " + d)
      && (paramString != "" && queryType != "void" && dataType == "void" ==> r == paramString + ", " + q)
      && (paramString != "" && queryType == "void" && dataType != "void" ==> r == paramString + ", " + d)
      && (paramString != "" && queryType != "void" && dataType != "void" ==> r == paramString + ", " + q + ", " + d)
  {
    var qp := QueryPart(queryType);
    var dp := DataPart(dataType);
    var parts := [paramString, qp, dp];
    var q := "query: " + queryType;
    var d := "data: " + dataType;
    assert parts[1..] == [qp, dp];
    assert [qp, dp][1..] == [dp];
    assert [dp][1..] == [];
    var n2 := if dataType != "void" then [d] else [];
    assert NonEmpty([dp]) == n2;
    var n1 := if queryType != "void" then [q] + n2 else n2;
    assert NonEmpty([qp, dp]) == n1;
    var n0 := if paramString != "" then [paramString] + n1 else n1;
    assert NonEmpty(parts) == n0;
    if |n0| == 3 {
      assert n0 == [paramString, q, d];
      assert n0[1..] == [q, d];
      assert [q, d][1..] == [d];
      assert Join([q, d], ", ") == q + ", " + d;
      assert Join(n0, ", ") == paramString + ", " + (q + ", " + d);
    } else if |n0| == 2 {
      assert n0[1..] == [n0[1]];
      assert Join(n0, ", ") == n0[0] + ", " + n0[1];
    }
  }
}
