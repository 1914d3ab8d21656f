/**
  `HandlerStubGenerator` (src/generator/handler/handler-stub.generator.ts):
  the class and interface names of `stub.ts`, the stub methods and the
  import lines for the types they use.

  The stub types its parameters exactly as the proxy does (the functions of
  `Signatures`), but names its query and body interfaces and its response
  type on its own, from the HTTP method and the endpoint's entity rather
  than from `getMethodName`. The lemmas at the end state where the two
  agree. The `usedTypes` set and the `queryInterfaces` list are threaded
  through as sequences.
*/
module HandlerStub {
  import opened Wrappers
  import opened Text
  import opened OpenApi
  import opened Signatures
  import Util
  import Handler
  import HandlerProxy
  import HandlerTypes

  // ---------------------------------------------------------------------------
  // Names

  /** `toPascalCase(normalizeEndpoint(endpoint)) + "Stub"`. */
  function StubClassName(endpoint: string): string {
    Util.ToPascalCase(Util.NormalizeEndpoint(endpoint)) + "Stub"
  }

  /** The interface the stub implements: the same prefix with `Proxy`. */
  function StubInterfaceName(endpoint: string): string {
    Util.ToPascalCase(Util.NormalizeEndpoint(endpoint)) + "Proxy"
  }

  /** `${toPascalCase(method)}${pascalCaseEntityName}QueryParams`. */
  function QueryInterfaceName(ext: Externals, httpMethod: string, endpoint: string): string {
    Handler.TypePrefix(ext, httpMethod, endpoint) + "QueryParams"
  }

  /** `${toPascalCase(method)}${pascalCaseEntityName}RequestBody`. */
  function BodyName(ext: Externals, httpMethod: string, endpoint: string): string {
    Handler.TypePrefix(ext, httpMethod, endpoint) + "RequestBody"
  }

  /** `getResponseTypeName(method, pascalCaseEntityName)`. */
  function ResponseType(ext: Externals, httpMethod: string, endpoint: string): string {
    ext.getResponseTypeName(httpMethod, Util.ToPascalCase(ext.extractEntityName(endpoint)))
  }

  function QueryType(ext: Externals, httpMethod: string, op: Operation, endpoint: string): string {
    QueryTypeFor(op, QueryInterfaceName(ext, httpMethod, endpoint))
  }

  // ---------------------------------------------------------------------------
  // One stub method

  const InterfaceDeclaration := "interface "
  const AsyncHead := "\n    async "
  const PromiseHead := "): Promise<"
  const RejectBody := "> {\n      return Promise.reject(\"Not implemented\");\n    }"

  /** The interfaces one method pushes: its query interface, then its inline body interface. */
  function MethodInterfaces(ext: Externals, httpMethod: string, op: Operation, endpoint: string): seq<string> {
    PushedInterfaces(httpMethod, op, InterfaceDeclaration, QueryInterfaceName(ext, httpMethod, endpoint), BodyName(ext, httpMethod, endpoint))
  }

  /** The names one method adds to `usedTypes`, in order: the body's, then the response type. */
  function MethodUsedTypes(ext: Externals, httpMethod: string, op: Operation, endpoint: string): seq<string> {
    BodyUsedTypes(ext, BodyOf(httpMethod, op)) + [ResponseType(ext, httpMethod, endpoint)]
  }

  /** The parameter list of one stub method. */
  function StubParams(ext: Externals, httpMethod: string, op: Operation, endpoint: string): string {
    MethodParamList(ext, httpMethod, op, QueryInterfaceName(ext, httpMethod, endpoint), BodyName(ext, httpMethod, endpoint))
  }

  /** The text of one stub method, which rejects with `"Not implemented"`. */
  function MethodText(ext: Externals, httpMethod: string, op: Operation, endpoint: string): string {
    AsyncHead + ext.getMethodName(httpMethod, endpoint) + "(" + StubParams(ext, httpMethod, op, endpoint)
    + PromiseHead + ResponseType(ext, httpMethod, endpoint) + RejectBody
  }

  /** The body of the `.map` callback in `generateStubMethods`, for one `(method, operation)` entry. */
  method StubMethod(ext: Externals, httpMethod: string, op: Operation, endpoint: string,
                    usedTypes: seq<string>, queryInterfaces: seq<string>)
    returns (text: string, usedTypes': seq<string>, queryInterfaces': seq<string>)
    ensures text == MethodText(ext, httpMethod, op, endpoint)
    ensures usedTypes' == SetAddAll(usedTypes, MethodUsedTypes(ext, httpMethod, op, endpoint))
    ensures queryInterfaces' == queryInterfaces + MethodInterfaces(ext, httpMethod, op, endpoint)
  {
    var finalParams;
    finalParams, usedTypes', queryInterfaces' := MethodParameters(ext, httpMethod, op, InterfaceDeclaration,
      QueryInterfaceName(ext, httpMethod, endpoint), BodyName(ext, httpMethod, endpoint), usedTypes, queryInterfaces);
    var methodName := ext.getMethodName(httpMethod, endpoint);
    var responseType := ResponseType(ext, httpMethod, endpoint);
    SetAddAllAppend(usedTypes, BodyUsedTypes(ext, BodyOf(httpMethod, op)), [responseType]);
    SetAddAllSingle(usedTypes', responseType);
    usedTypes' := SetAdd(usedTypes', responseType);
    text := AsyncHead + methodName + "(" + finalParams + PromiseHead + responseType + RejectBody;
  }

  // ---------------------------------------------------------------------------
  // All methods of an endpoint

  type Methods = seq<(string, Operation)>

  function AllTexts(ext: Externals, methods: Methods, endpoint: string): seq<string> {
    ConcatMap((m: (string, Operation)) => [MethodText(ext, m.0, m.1, endpoint)], methods)
  }

  function AllUsedTypes(ext: Externals, methods: Methods, endpoint: string): seq<string> {
    ConcatMap((m: (string, Operation)) => MethodUsedTypes(ext, m.0, m.1, endpoint), methods)
  }

  function AllInterfaces(ext: Externals, methods: Methods, endpoint: string): seq<string> {
    ConcatMap((m: (string, Operation)) => MethodInterfaces(ext, m.0, m.1, endpoint), methods)
  }

  /**
    `generateStubMethods(methods, endpoint)`: one stub per method entry, in
    order, joined by newlines; `usedTypes` gathers every method's names,
    without duplicates; `queryInterfaces` every method's interfaces.
  */
  method GenerateStubMethods(ext: Externals, methods: Methods, endpoint: string)
    returns (stubMethods: string, usedTypes: seq<string>, queryInterfaces: seq<string>)
    ensures stubMethods == Join(AllTexts(ext, methods, endpoint), "\n")
    ensures usedTypes == SetAddAll([], AllUsedTypes(ext, methods, endpoint))
    ensures queryInterfaces == AllInterfaces(ext, methods, endpoint)
  {
    usedTypes := [];
    queryInterfaces := [];
    var texts: seq<string> := [];
    for i := 0 to |methods|
      invariant texts == AllTexts(ext, methods[..i], endpoint)
      invariant usedTypes == SetAddAll([], AllUsedTypes(ext, methods[..i], endpoint))
      invariant queryInterfaces == AllInterfaces(ext, methods[..i], endpoint)
    {
      var (httpMethod, op) := methods[i];
      ConcatMapStep((m: (string, Operation)) => [MethodText(ext, m.0, m.1, endpoint)], methods, i);
      ConcatMapStep((m: (string, Operation)) => MethodUsedTypes(ext, m.0, m.1, endpoint), methods, i);
      ConcatMapStep((m: (string, Operation)) => MethodInterfaces(ext, m.0, m.1, endpoint), methods, i);
      SetAddAllAppend([], AllUsedTypes(ext, methods[..i], endpoint), MethodUsedTypes(ext, httpMethod, op, endpoint));
      var text;
      text, usedTypes, queryInterfaces := StubMethod(ext, httpMethod, op, endpoint, usedTypes, queryInterfaces);
      texts := texts + [text];
    }
    assert methods[..|methods|] == methods;
    stubMethods := Join(texts, "\n");
  }

  // ---------------------------------------------------------------------------
  // Type imports

  /** Whether `s[i]` exists and is a `\w` character. */
  predicate WordAt(s: string, i: int) {
    0 <= i < |s| && IsWordChar(s[i])
  }

  /** `\b` at position `i`: exactly one of the characters on either side is a `\w` character. */
  predicate IsBoundary(s: string, i: int) {
    WordAt(s, i - 1) != WordAt(s, i)
  }

  predicate MatchesAt(t: string, s: string, i: int) {
    0 <= i && i + |t| <= |s| && s[i..i + |t|] == t && IsBoundary(s, i) && IsBoundary(s, i + |t|)
  }

  /** `new RegExp(`\\b${t}\\b`).test(s)`, reading `t` literally. */
  predicate WholeWordIn(t: string, s: string) {
    exists i | 0 <= i <= |s| - |t| :: MatchesAt(t, s, i)
  }

  /** Request and response types: the names that start with `Post`, `Get`, `Put` or `Patch`. */
  predicate IsProxyType(t: string) {
    "Post" <= t || "Get" <= t || "Put" <= t || "Patch" <= t
  }

  /**
    The used types that go to the proxy import (`proxy` true) or to a schema
    import (`proxy` false): those of that kind not already named in
    `existingImports`, in set order.
  */
  function Classified(usedTypes: seq<string>, existingImports: string, proxy: bool): seq<string> {
    if usedTypes == [] then []
    else
      var t := usedTypes[|usedTypes| - 1];
      Classified(usedTypes[..|usedTypes| - 1], existingImports, proxy)
      + (if IsProxyType(t) == proxy && !WholeWordIn(t, existingImports) then [t] else [])
  }

  const ProxyImportHead := "import { "
  const ProxyImportTail := " } from \"./proxy\";"

  /** The single import of the proxy's types, or `""` when there are none. */
  function ProxyImport(proxyTypes: seq<string>): string {
    if proxyTypes == [] then "" else ProxyImportHead + Join(proxyTypes, ", ") + ProxyImportTail
  }

  /** What `generateTypeImports` returns. */
  function TypeImports(usedTypes: seq<string>, existingImports: string): string {
    if usedTypes == [] then ""
    else
      ProxyImport(Sort(Classified(usedTypes, existingImports, true))) + "\n"
      + Join(Sort(HandlerTypes.ImportLines(Classified(usedTypes, existingImports, false))), "\n")
  }

  lemma {:induction false} ClassifiedStep(usedTypes: seq<string>, existingImports: string, proxy: bool, i: nat)
    requires i < |usedTypes|
    ensures Classified(usedTypes[..i + 1], existingImports, proxy)
         == Classified(usedTypes[..i], existingImports, proxy)
            + (if IsProxyType(usedTypes[i]) == proxy && !WholeWordIn(usedTypes[i], existingImports) then [usedTypes[i]] else [])
  {
    assert usedTypes[..i + 1][..i] == usedTypes[..i];
  }

  lemma {:induction false} ImportLinesAppend(types: seq<string>, t: string)
    ensures HandlerTypes.ImportLines(types + [t]) == HandlerTypes.ImportLines(types) + [HandlerTypes.ImportLine(t)]
  {
  }

  /**
    `generateTypeImports(usedTypes, existingImports)`: `""` for an empty set;
    otherwise the sorted proxy import, a newline, and the sorted schema
    import lines.
  */
  method GenerateTypeImports(usedTypes: seq<string>, existingImports: string) returns (r: string)
    ensures r == TypeImports(usedTypes, existingImports)
  {
    if |usedTypes| == 0 {
      return "";
    }
    var proxyTypes: seq<string> := [];
    var schemaImports: seq<string> := [];
    for i := 0 to |usedTypes|
      invariant proxyTypes == Classified(usedTypes[..i], existingImports, true)
      invariant schemaImports == HandlerTypes.ImportLines(Classified(usedTypes[..i], existingImports, false))
    {
      var t := usedTypes[i];
      ClassifiedStep(usedTypes, existingImports, true, i);
      ClassifiedStep(usedTypes, existingImports, false, i);
      ImportLinesAppend(Classified(usedTypes[..i], existingImports, false), t);
      if IsProxyType(t) {
        if !WholeWordIn(t, existingImports) {
          proxyTypes := proxyTypes + [t];
        }
      } else {
        if !WholeWordIn(t, existingImports) {
          schemaImports := schemaImports + [HandlerTypes.ImportLine(t)];
        }
      }
    }
    assert usedTypes[..|usedTypes|] == usedTypes;
    var sortedProxyTypes := Sort(proxyTypes);
    var proxyImport := if |sortedProxyTypes| > 0 then ProxyImportHead + Join(sortedProxyTypes, ", ") + ProxyImportTail else "";
    var schemaImportStatements := Join(Sort(schemaImports), "\n");
    r := proxyImport + "\n" + schemaImportStatements;
  }

  // ---------------------------------------------------------------------------
  // Properties

  /**
    The stub class and the interface it implements have different names;
    that interface is the class `proxy.ts` declares exactly when
    `normalizeEndpoint` and `extractClassNameFromEndpoint` give the same
    Pascal form.
  */
  lemma {:induction false} StubImplementsProxy(ext: Externals, endpoint: string)
    ensures StubClassName(endpoint) != StubInterfaceName(endpoint)
    ensures StubInterfaceName(endpoint) == HandlerProxy.ProxyClassName(ext, endpoint)
      <==> Util.ToPascalCase(Util.NormalizeEndpoint(endpoint)) == Util.ToPascalCase(ext.extractClassNameFromEndpoint(endpoint))
  {
    var p := Util.ToPascalCase(Util.NormalizeEndpoint(endpoint));
    var stub, proxy := StubClassName(endpoint), StubInterfaceName(endpoint);
    assert stub[|stub| - 1] == 'b' && proxy[|proxy| - 1] == 'y';
    SuffixCancel(p, Util.ToPascalCase(ext.extractClassNameFromEndpoint(endpoint)), "Proxy");
  }

  /** Every method's response type ends up in `usedTypes`, and `usedTypes` has no duplicates. */
  lemma {:induction false} ResponseTypesUsed(ext: Externals, methods: Methods, endpoint: string, k: nat)
    requires k < |methods|
    ensures ResponseType(ext, methods[k].0, endpoint) in SetAddAll([], AllUsedTypes(ext, methods, endpoint))
    ensures NoDup(SetAddAll([], AllUsedTypes(ext, methods, endpoint)))
  {
    var m := methods[k];
    var used := MethodUsedTypes(ext, m.0, m.1, endpoint);
    assert used[|used| - 1] == ResponseType(ext, m.0, endpoint);
    ConcatMapContains((m: (string, Operation)) => MethodUsedTypes(ext, m.0, m.1, endpoint), methods, k, ResponseType(ext, m.0, endpoint));
    SetAddAllContents([], AllUsedTypes(ext, methods, endpoint));
  }

  /**
    A stub method has a query interface, named `Pascal(method) +
    Pascal(entity) + "QueryParams"`, iff one of its parameters is
    `in: query`.
  */
  lemma {:induction false} QueryInterfaceIff(ext: Externals, httpMethod: string, op: Operation, endpoint: string)
    ensures QueryType(ext, httpMethod, op, endpoint) != "void" <==>
      op.parameters.Some? && !NoQueryParameter(op.parameters.value)
    ensures QueryType(ext, httpMethod, op, endpoint) != "void" ==>
      QueryType(ext, httpMethod, op, endpoint) == Handler.TypePrefix(ext, httpMethod, endpoint) + "QueryParams"
    ensures |MethodInterfaces(ext, httpMethod, op, endpoint)| >= 1 <==>
      QueryType(ext, httpMethod, op, endpoint) != "void" || BodyOf(httpMethod, op).InlineBody?
  {
    if op.parameters.Some? {
      QueryParamsEmpty(op.parameters.value);
    }
    assert |QueryInterfaceName(ext, httpMethod, endpoint)| >= 11;
  }

  /**
    The stub and the proxy name a method's query interface alike exactly
    when `Pascal(method) + Pascal(entity)` equals `Pascal(getMethodName(…))`;
    and even then the stub declares its own, unexported, interface.
  */
  lemma {:induction false} QueryNameAgainstProxy(ext: Externals, httpMethod: string, op: Operation, endpoint: string)
    ensures QueryInterfaceName(ext, httpMethod, endpoint) == HandlerProxy.QueryInterfaceName(ext, httpMethod, endpoint)
      <==> Handler.TypePrefix(ext, httpMethod, endpoint) == HandlerProxy.MethodPrefix(ext, httpMethod, endpoint)
    ensures QueryParams(op.parameters) != [] ==>
      && |MethodInterfaces(ext, httpMethod, op, endpoint)| >= 1
      && |HandlerProxy.MethodInterfaces(ext, httpMethod, op, endpoint)| >= 1
      && MethodInterfaces(ext, httpMethod, op, endpoint)[0] != HandlerProxy.MethodInterfaces(ext, httpMethod, op, endpoint)[0]
  {
    SuffixCancel(Handler.TypePrefix(ext, httpMethod, endpoint), HandlerProxy.MethodPrefix(ext, httpMethod, endpoint), "QueryParams");
    if QueryParams(op.parameters) != [] {
      var mine := MethodInterfaces(ext, httpMethod, op, endpoint);
      var theirs := HandlerProxy.MethodInterfaces(ext, httpMethod, op, endpoint);
      assert mine[0][0] == 'i';
      assert theirs[0][0] == 'e';
    }
  }

  /**
    The stub's parameter list is the proxy's when the two name the query
    and body interfaces alike, and also when the method has neither query
    parameters nor an inline body.
  */
  lemma {:induction false} ParamsAgainstProxy(ext: Externals, httpMethod: string, op: Operation, endpoint: string)
    requires Handler.TypePrefix(ext, httpMethod, endpoint) == HandlerProxy.MethodPrefix(ext, httpMethod, endpoint)
      || (QueryParams(op.parameters) == [] && !BodyOf(httpMethod, op).InlineBody?)
    ensures StubParams(ext, httpMethod, op, endpoint)
         == MethodParamList(ext, httpMethod, op, HandlerProxy.QueryInterfaceName(ext, httpMethod, endpoint),
                            HandlerProxy.BodyName(ext, httpMethod, endpoint))
  {
  }

  /** A used type is routed by its name and skipped when the existing imports already name it. */
  lemma {:induction false} ClassifiedContents(usedTypes: seq<string>, existingImports: string, proxy: bool, t: string)
    ensures t in Classified(usedTypes, existingImports, proxy)
      <==> t in usedTypes && IsProxyType(t) == proxy && !WholeWordIn(t, existingImports)
  {
    if usedTypes != [] {
      var init, last := usedTypes[..|usedTypes| - 1], usedTypes[|usedTypes| - 1];
      ClassifiedContents(init, existingImports, proxy, t);
      assert usedTypes == init + [last];
    }
  }

  /**
    Each used type not already named in the existing imports lands in
    exactly one place: the sorted proxy import when it starts with `Post`,
    `Get`, `Put` or `Patch`, a sorted schema import line otherwise (a
    `Delete…` name included); `""` comes back only for an empty set.
  */
  lemma {:induction false} TypeImportsRouting(usedTypes: seq<string>, existingImports: string, t: string)
    requires t in usedTypes && !WholeWordIn(t, existingImports)
    ensures t in Sort(Classified(usedTypes, existingImports, true)) <==> IsProxyType(t)
    ensures !IsProxyType(t) ==> HandlerTypes.ImportLine(t) in Sort(HandlerTypes.ImportLines(Classified(usedTypes, existingImports, false)))
    ensures TypeImports(usedTypes, existingImports) != ""
  {
    var proxyTypes := Classified(usedTypes, existingImports, true);
    var schemaTypes := Classified(usedTypes, existingImports, false);
    ClassifiedContents(usedTypes, existingImports, true, t);
    ClassifiedContents(usedTypes, existingImports, false, t);
    assert t in Sort(proxyTypes) <==> t in multiset(Sort(proxyTypes));
    assert t in proxyTypes <==> t in multiset(proxyTypes);
    if !IsProxyType(t) {
      var k :| 0 <= k < |schemaTypes| && schemaTypes[k] == t;
      var lines := HandlerTypes.ImportLines(schemaTypes);
      assert lines[k] == HandlerTypes.ImportLine(t);
      assert HandlerTypes.ImportLine(t) in multiset(lines);
    }
  }

  /** A request or response type always starts with `P` or `G`. */
  lemma {:induction false} ProxyTypeInitial(t: string)
    ensures IsProxyType(t) ==> t != [] && (t[0] == 'P' || t[0] == 'G')
  {
    assert "Post" <= t ==> t[0] == "Post"[0];
    assert "Get" <= t ==> t[0] == "Get"[0];
    assert "Put" <= t ==> t[0] == "Put"[0];
    assert "Patch" <= t ==> t[0] == "Patch"[0];
  }

  /** A `Delete…` name not yet imported gets a schema import line, not the proxy import. */
  lemma {:induction false} DeleteTypesAreSchemaImports(usedTypes: seq<string>, existingImports: string, t: string)
    requires t in usedTypes && !WholeWordIn(t, existingImports)
    requires |t| >= 6 && t[..6] == "Delete"
    ensures !IsProxyType(t)
    ensures t !in Sort(Classified(usedTypes, existingImports, true))
    ensures HandlerTypes.ImportLine(t) in Sort(HandlerTypes.ImportLines(Classified(usedTypes, existingImports, false)))
  {
    ProxyTypeInitial(t);
    assert t[0] == t[..6][0] == 'D';
    TypeImportsRouting(usedTypes, existingImports, t);
  }

  /** An empty set gives `""`. */
  lemma {:induction false} TypeImportsEmpty(usedTypes: seq<string>, existingImports: string)
    ensures TypeImports(usedTypes, existingImports) == "" <==> usedTypes == []
  {
  }

  lemma {:induction false} Regroup(a: string, b: string, c: string, d: string, e: string, f: string, g: string)
    ensures a + (b + c + d + e + f) + g == (a + b) + c + (d + e + f + g)
  {
  }

  lemma {:induction false} MatchWitness(t: string, s: string, i: int)
    requires MatchesAt(t, s, i)
    ensures WholeWordIn(t, s)
  {
  }

  /** A name that starts and ends with a `\w` character is a whole word between two non-word characters. */
  lemma {:induction false} WordBetween(t: string, left: string, right: string)
    requires t != [] && IsWordChar(t[0]) && IsWordChar(t[|t| - 1])
    requires left != [] && !IsWordChar(left[|left| - 1]) && right != [] && !IsWordChar(right[0])
    ensures MatchesAt(t, left + t + right, |left|)
  {
    var s := left + t + right;
    assert s[|left| - 1] == left[|left| - 1] && s[|left|] == t[0];
    assert s[|left| + |t| - 1] == t[|t| - 1] && s[|left| + |t|] == right[0];
    assert s[|left|..|left| + |t|] == t;
  }

  /** `import { T } from "../schema/<t>";` names `T` as a whole word. */
  lemma {:induction false} ImportLineNamesType(t: string, before: string, after: string)
    requires t != [] && IsWordChar(t[0]) && IsWordChar(t[|t| - 1])
    ensures WholeWordIn(t, before + HandlerTypes.ImportLine(t) + after)
  {
    var s := before + HandlerTypes.ImportLine(t) + after;
    var left := before + HandlerTypes.ImportHead;
    var right := HandlerTypes.ImportMid + Lower(t) + HandlerTypes.ImportTail + after;
    Regroup(before, HandlerTypes.ImportHead, t, HandlerTypes.ImportMid, Lower(t), HandlerTypes.ImportTail, after);
    assert left[|left| - 1] == ' ' by {
      assert left[|left| - 1] == HandlerTypes.ImportHead[8];
    }
    assert right[0] == ' ' by {
      assert right[0] == HandlerTypes.ImportMid[0];
    }
    WordBetween(t, left, right);
    MatchWitness(t, s, |left|);
  }

  /**
    A type that the handler-types imports already import (a name that
    starts and ends with a `\w` character) is imported by the stub neither
    from the proxy nor from the schema directory.
  */
  lemma {:induction false} SkipsHandlerTypeImports(typesToImport: seq<string>, usedTypes: seq<string>, t: string)
    requires t in typesToImport && t != [] && IsWordChar(t[0]) && IsWordChar(t[|t| - 1])
    ensures var existing := Join(HandlerTypes.ImportLines(typesToImport), "\n");
      && WholeWordIn(t, existing)
      && t !in Classified(usedTypes, existing, true)
      && t !in Classified(usedTypes, existing, false)
  {
    var existing := Join(HandlerTypes.ImportLines(typesToImport), "\n");
    var k :| 0 <= k < |typesToImport| && typesToImport[k] == t;
    var before, after := JoinOccurrence(HandlerTypes.ImportLines(typesToImport), "\n", k);
    ImportLineNamesType(t, before, after);
    ClassifiedContents(usedTypes, existing, true, t);
    ClassifiedContents(usedTypes, existing, false, t);
  }
}
