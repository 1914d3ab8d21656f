/**
  `HandlerProxyGenerator` (src/generator/handler/handler-proxy.generator.ts):
  the class name and the method signatures of `proxy.ts`. The names are
  derived from `getMethodName(method, endpoint)`, one of the `util`
  helpers that are parameters here.

  The `usedTypes` set and the `queryInterfaces` list that the source
  mutates are threaded through as sequences.
*/
module HandlerProxy {
  import opened Wrappers
  import opened Text
  import opened OpenApi
  import opened Signatures
  import Util
  import Handler

  /** `toPascalCase(extractClassNameFromEndpoint(endpoint)) + "Proxy"`. */
  function ProxyClassName(ext: Externals, endpoint: string): string {
    Util.ToPascalCase(ext.extractClassNameFromEndpoint(endpoint)) + "Proxy"
  }

  /** The Pascal-cased method name that prefixes the query and body interfaces. */
  function MethodPrefix(ext: Externals, httpMethod: string, endpoint: string): string {
    Util.ToPascalCase(ext.getMethodName(httpMethod, endpoint))
  }

  function QueryInterfaceName(ext: Externals, httpMethod: string, endpoint: string): string {
    MethodPrefix(ext, httpMethod, endpoint) + "QueryParams"
  }

  function BodyName(ext: Externals, httpMethod: string, endpoint: string): string {
    MethodPrefix(ext, httpMethod, endpoint) + "RequestBody"
  }

  /** `toPascalCase(methodName + "Response")`. */
  function ResponseType(ext: Externals, httpMethod: string, endpoint: string): string {
    Util.ToPascalCase(ext.getMethodName(httpMethod, endpoint) + "Response")
  }

  /** The query type: the query interface's name when there are query parameters, else `void`. */
  function QueryType(ext: Externals, httpMethod: string, op: Operation, endpoint: string): string {
    QueryTypeFor(op, QueryInterfaceName(ext, httpMethod, endpoint))
  }

  const ExportInterface := "export interface "

  /** The interfaces one method pushes: its query interface, then its inline body interface. */
  function MethodInterfaces(ext: Externals, httpMethod: string, op: Operation, endpoint: string): seq<string> {
    PushedInterfaces(httpMethod, op, ExportInterface, QueryInterfaceName(ext, httpMethod, endpoint), BodyName(ext, httpMethod, endpoint))
  }

  /** The names one method adds to `usedTypes`, in order: the body's, then the response type. */
  function MethodUsedTypes(ext: Externals, httpMethod: string, op: Operation, endpoint: string): seq<string> {
    BodyUsedTypes(ext, BodyOf(httpMethod, op)) + [ResponseType(ext, httpMethod, endpoint)]
  }

  /** The signature line of one method. */
  function MethodText(ext: Externals, httpMethod: string, op: Operation, endpoint: string): string {
    var finalParams := MethodParamList(ext, httpMethod, op, QueryInterfaceName(ext, httpMethod, endpoint), BodyName(ext, httpMethod, endpoint));
    "\t" + ext.getMethodName(httpMethod, endpoint) + "(" + finalParams + "): Promise<" + ResponseType(ext, httpMethod, endpoint) + ">;"
  }

  /** The body of the `.map` callback in `generateProxyMethods`, for one `(method, operation)` entry. */
  method ProxyMethod(ext: Externals, httpMethod: string, op: Operation, endpoint: string,
                     usedTypes: seq<string>, queryInterfaces: seq<string>)
    returns (text: string, usedTypes': seq<string>, queryInterfaces': seq<string>)
    ensures text == MethodText(ext, httpMethod, op, endpoint)
    ensures usedTypes' == SetAddAll(usedTypes, MethodUsedTypes(ext, httpMethod, op, endpoint))
    ensures queryInterfaces' == queryInterfaces + MethodInterfaces(ext, httpMethod, op, endpoint)
  {
    var finalParams;
    finalParams, usedTypes', queryInterfaces' := MethodParameters(ext, httpMethod, op, ExportInterface,
      QueryInterfaceName(ext, httpMethod, endpoint), BodyName(ext, httpMethod, endpoint), usedTypes, queryInterfaces);
    var methodName := ext.getMethodName(httpMethod, endpoint);
    var responseType := Util.ToPascalCase(methodName + "Response");
    SetAddAllAppend(usedTypes, BodyUsedTypes(ext, BodyOf(httpMethod, op)), [responseType]);
    SetAddAllSingle(usedTypes', responseType);
    usedTypes' := SetAdd(usedTypes', responseType);
    text := "\t" + methodName + "(" + finalParams + "): Promise<" + responseType + ">;";
  }

  // ---------------------------------------------------------------------------
  // All methods of an endpoint

  type Methods = seq<(string, Operation)>

  function AllTexts(ext: Externals, methods: Methods, endpoint: string): seq<string> {
    ConcatMap((m: (string, Operation)) => [MethodText(ext, m.0, m.1, endpoint)], methods)
  }

  function AllUsedTypes(ext: Externals, methods: Methods, endpoint: string): seq<string> {
    ConcatMap((m: (string, Operation)) => MethodUsedTypes(ext, m.0, m.1, endpoint), methods)
  }

  function AllInterfaces(ext: Externals, methods: Methods, endpoint: string): seq<string> {
    ConcatMap((m: (string, Operation)) => MethodInterfaces(ext, m.0, m.1, endpoint), methods)
  }

  /**
    `generateProxyMethods(methods, endpoint)`: one signature per method
    entry, in order, joined by newlines; `usedTypes` gathers every
    method's names, without duplicates; `queryInterfaces` every method's
    interfaces.
  */
  method GenerateProxyMethods(ext: Externals, methods: Methods, endpoint: string)
    returns (proxyMethods: string, usedTypes: seq<string>, queryInterfaces: seq<string>)
    ensures proxyMethods == Join(AllTexts(ext, methods, endpoint), "\n")
    ensures usedTypes == SetAddAll([], AllUsedTypes(ext, methods, endpoint))
    ensures queryInterfaces == AllInterfaces(ext, methods, endpoint)
  {
    usedTypes := [];
    queryInterfaces := [];
    var texts: seq<string> := [];
    for i := 0 to |methods|
      invariant texts == AllTexts(ext, methods[..i], endpoint)
      invariant usedTypes == SetAddAll([], AllUsedTypes(ext, methods[..i], endpoint))
      invariant queryInterfaces == AllInterfaces(ext, methods[..i], endpoint)
    {
      var (httpMethod, op) := methods[i];
      ConcatMapStep((m: (string, Operation)) => [MethodText(ext, m.0, m.1, endpoint)], methods, i);
      ConcatMapStep((m: (string, Operation)) => MethodUsedTypes(ext, m.0, m.1, endpoint), methods, i);
      ConcatMapStep((m: (string, Operation)) => MethodInterfaces(ext, m.0, m.1, endpoint), methods, i);
      SetAddAllAppend([], AllUsedTypes(ext, methods[..i], endpoint), MethodUsedTypes(ext, httpMethod, op, endpoint));
      var text;
      text, usedTypes, queryInterfaces := ProxyMethod(ext, httpMethod, op, endpoint, usedTypes, queryInterfaces);
      texts := texts + [text];
    }
    assert methods[..|methods|] == methods;
    proxyMethods := Join(texts, "\n");
  }

  // ---------------------------------------------------------------------------
  // Properties

  /** Every method's response type ends up in `usedTypes`, and `usedTypes` has no duplicates. */
  lemma {:induction false} ResponseTypesUsed(ext: Externals, methods: Methods, endpoint: string, k: nat)
    requires k < |methods|
    ensures ResponseType(ext, methods[k].0, endpoint) in SetAddAll([], AllUsedTypes(ext, methods, endpoint))
    ensures NoDup(SetAddAll([], AllUsedTypes(ext, methods, endpoint)))
  {
    var m := methods[k];
    var used := MethodUsedTypes(ext, m.0, m.1, endpoint);
    assert used[|used| - 1] == ResponseType(ext, m.0, endpoint);
    ConcatMapContains((m: (string, Operation)) => MethodUsedTypes(ext, m.0, m.1, endpoint), methods, k, ResponseType(ext, m.0, endpoint));
    SetAddAllContents([], AllUsedTypes(ext, methods, endpoint));
  }

  /** A method has a query interface, and a `query` parameter, iff one of its parameters is `in: query`. */
  lemma {:induction false} QueryInterfaceIff(ext: Externals, httpMethod: string, op: Operation, endpoint: string)
    ensures QueryType(ext, httpMethod, op, endpoint) != "void" <==>
      op.parameters.Some? && !NoQueryParameter(op.parameters.value)
    ensures QueryType(ext, httpMethod, op, endpoint) != "void" ==>
      QueryType(ext, httpMethod, op, endpoint) == MethodPrefix(ext, httpMethod, endpoint) + "QueryParams"
  {
    if op.parameters.Some? {
      QueryParamsEmpty(op.parameters.value);
    }
    assert |QueryInterfaceName(ext, httpMethod, endpoint)| >= 11;
  }

  /**
    When `getMethodName` gives a name that does not end in `_`, the proxy's
    response type is its Pascal form followed by `Response`; it then equals
    the handler's response type exactly when that Pascal form equals the
    handler's `Pascal(method) + Pascal(entity)`.
  */
  lemma {:induction false} ResponseTypeAgainstHandler(ext: Externals, httpMethod: string, endpoint: string)
    requires var n := ext.getMethodName(httpMethod, endpoint); n != [] && n[|n| - 1] != '_'
    ensures ResponseType(ext, httpMethod, endpoint) == MethodPrefix(ext, httpMethod, endpoint) + "Response"
    ensures ResponseType(ext, httpMethod, endpoint) == Handler.ResponseTypeName(ext, httpMethod, endpoint)
      <==> MethodPrefix(ext, httpMethod, endpoint) == Handler.TypePrefix(ext, httpMethod, endpoint)
  {
    var suffix := "Response";
    assert forall i :: 0 <= i < |suffix| ==> !IsSpace(suffix[i]);
    Util.PascalAppendSuffix(ext.getMethodName(httpMethod, endpoint), suffix);
    var a := MethodPrefix(ext, httpMethod, endpoint);
    var b := Handler.TypePrefix(ext, httpMethod, endpoint);
    if a + suffix == b + suffix {
      assert a == (a + suffix)[..|a|];
      assert |a| == |b|;
      assert b == (b + suffix)[..|b|];
    }
  }

  /** The `data` parameter names the ref type, or the method's `RequestBody` interface, and only for post, put and patch. */
  lemma {:induction false} DataParameter(ext: Externals, httpMethod: string, op: Operation, endpoint: string)
    ensures var b := BodyOf(httpMethod, op);
      var d := DataType(ext, b, BodyName(ext, httpMethod, endpoint));
      && (b.NoBody? <==> !IsBodyMethod(httpMethod) || RequestJsonSchema(op).None?)
      && (b.NoBody? ==> d == "void")
      && (b.InlineBody? ==> (d == MethodPrefix(ext, httpMethod, endpoint) + "RequestBody"
                             && |MethodInterfaces(ext, httpMethod, op, endpoint)| >= 1))
      && (b.RefBody? ==> d == ext.extractRefType(b.ref) && d in MethodUsedTypes(ext, httpMethod, op, endpoint))
  {
    BodyOnlyForPostPutPatch(httpMethod, op);
    var b := BodyOf(httpMethod, op);
    if b.RefBody? {
      assert MethodUsedTypes(ext, httpMethod, op, endpoint)[0] == ext.extractRefType(b.ref);
    }
  }
}
