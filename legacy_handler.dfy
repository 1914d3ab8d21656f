/**
  `HandlerGenerator` (src/handler-generator.ts): the older, single-file
  handler generator. For an endpoint and its methods it writes one class
  extending `BaseHandler`, importing every schema type that a request body
  or a response names through `$ref`, with one method and the error
  overrides per HTTP method.

  Its `normalizeEndpoint` chain is `Util.NormalizeEndpoint`, its
  `toPascalCase` is `BaseAdapter.ToPascalCase`, its `extractRefName` is the
  same expression as the schema generator's (`SchemaGenerator.RefName`),
  and its error overrides are the same text as the newer generator's
  (`Handler.ErrorOverrides`), here joined into one string per method. The
  `types` set it fills is threaded through as a sequence.
*/
module LegacyHandler {
  import opened Wrappers
  import opened Text
  import opened OpenApi
  import Util
  import BaseAdapter
  import SchemaGenerator
  import Handler
  import HandlerTypes

  /** The methods of an endpoint, as `(verb, operation)` entries in key order. */
  type Methods = seq<(string, Operation)>

  // ---------------------------------------------------------------------------
  // Names

  /** `toPascalCase(normalizedEndpoint) + "Handler"`. */
  function ClassName(endpoint: string): string {
    BaseAdapter.ToPascalCase(Util.NormalizeEndpoint(endpoint)) + "Handler"
  }

  /** The file name `<normalized>.ts`, written under `handlers/`. */
  function FileName(endpoint: string): string {
    Util.NormalizeEndpoint(endpoint) + ".ts"
  }

  /** `extractRefName`: the last `/`-separated segment of a `$ref`, `""` when it is empty. */
  function RefName(ref: string): string {
    SchemaGenerator.RefName(ref)
  }

  /**
    The `extractRefName` of `util.ts` falls back to `UnknownType` where this
    one gives the empty string; they agree on every other `$ref`.
  */
  lemma {:induction false} RefNameAgainstUtil(ref: string)
    ensures RefName(ref) == Util.ExtractRefName(ref) <==> ref != [] && ref[|ref| - 1] != '/'
    ensures !(ref != [] && ref[|ref| - 1] != '/') ==> RefName(ref) == [] && Util.ExtractRefName(ref) == "UnknownType"
  {
  }

  // ---------------------------------------------------------------------------
  // Types to import (`extractTypesToImport`, `extractTypesFromContent`)

  /**
    The type one content object contributes: the name of its JSON schema's
    `$ref`, else that of its `items.$ref`, else none.
  */
  function ContentTypes(content: Option<Content>): (r: seq<string>)
    ensures |r| <= 1
    ensures forall t :: t in r ==> '/' !in t
  {
    if content.None? || JsonSchema(content.value).None? then []
    else
      var s := JsonSchema(content.value).value;
      if HasTruthyRef(s) then [RefName(s.ref.value)]
      else if s.items.Some? && HasTruthyRef(s.items.value) then [RefName(s.items.value.ref.value)]
      else []
  }

  function ResponseTypes(r: (string, Response)): seq<string> {
    ContentTypes(r.1.content)
  }

  /** The types the request body contributes. */
  function BodyTypes(op: Operation): seq<string> {
    if op.requestBody.Some? then ContentTypes(Some(op.requestBody.value.content)) else []
  }

  /** The types one method contributes, in the order the source visits them: body, then responses. */
  function OperationTypes(op: Operation): seq<string> {
    BodyTypes(op) + ConcatMap(ResponseTypes, op.responses)
  }

  function EntryTypes(m: (string, Operation)): seq<string> {
    OperationTypes(m.1)
  }

  /** The `types` set after every method has been visited. */
  function TypesToImport(methods: Methods): seq<string> {
    SetAddAll([], ConcatMap(EntryTypes, methods))
  }

  /** `extractTypesFromContent(content, types)`. */
  method ExtractTypesFromContent(content: Option<Content>, types: seq<string>) returns (types': seq<string>)
    ensures types' == SetAddAll(types, ContentTypes(content))
  {
    types' := types;
    if content.Some? {
      var media := JsonSchema(content.value);
      if media.Some? {
        var schema := media.value;
        if HasTruthyRef(schema) {
          var typeName := RefName(schema.ref.value);
          SetAddAllSingle(types, typeName);
          types' := SetAdd(types', typeName);
        } else if schema.items.Some? && HasTruthyRef(schema.items.value) {
          var typeName := RefName(schema.items.value.ref.value);
          SetAddAllSingle(types, typeName);
          types' := SetAdd(types', typeName);
        }
      }
    }
  }

  /** The inner `forEach` over the responses of one method. */
  method AddResponseTypes(rs: seq<(string, Response)>, types: seq<string>) returns (types': seq<string>)
    ensures types' == SetAddAll(types, ConcatMap(ResponseTypes, rs))
  {
    types' := types;
    for j := 0 to |rs|
      invariant types' == SetAddAll(types, ConcatMap(ResponseTypes, rs[..j]))
    {
      ConcatMapStep(ResponseTypes, rs, j);
      SetAddAllAppend(types, ConcatMap(ResponseTypes, rs[..j]), ResponseTypes(rs[j]));
      types' := ExtractTypesFromContent(rs[j].1.content, types');
    }
    assert rs[..|rs|] == rs;
  }

  /** The body of the `forEach` over methods: the request body, then every response. */
  method AddOperationTypes(op: Operation, types: seq<string>) returns (types': seq<string>)
    ensures types' == SetAddAll(types, OperationTypes(op))
  {
    var afterBody := types;
    if op.requestBody.Some? {
      afterBody := ExtractTypesFromContent(Some(op.requestBody.value.content), types);
    }
    assert afterBody == SetAddAll(types, BodyTypes(op));
    types' := AddResponseTypes(op.responses, afterBody);
    SetAddAllAppend(types, BodyTypes(op), ConcatMap(ResponseTypes, op.responses));
  }

  /** `extractTypesToImport(methods)`. */
  method ExtractTypesToImport(methods: Methods) returns (types: seq<string>)
    ensures types == TypesToImport(methods)
  {
    types := [];
    for i := 0 to |methods|
      invariant types == SetAddAll([], ConcatMap(EntryTypes, methods[..i]))
    {
      ConcatMapStep(EntryTypes, methods, i);
      SetAddAllAppend([], ConcatMap(EntryTypes, methods[..i]), EntryTypes(methods[i]));
      types := AddOperationTypes(methods[i].1, types);
    }
    assert methods[..|methods|] == methods;
  }

  /**
    A name is imported exactly when some method's body or response names it,
    and it is imported once.
  */
  lemma {:induction false} ImportedTypes(methods: Methods, t: string)
    ensures t in TypesToImport(methods) <==> exists k :: 0 <= k < |methods| && t in OperationTypes(methods[k].1)
    ensures NoDup(TypesToImport(methods))
  {
    var all := ConcatMap(EntryTypes, methods);
    SetAddAllContents([], all);
    if t in all {
      var k := ConcatMapOrigin(EntryTypes, methods, t);
    }
    if exists k :: 0 <= k < |methods| && t in OperationTypes(methods[k].1) {
      var k :| 0 <= k < |methods| && t in OperationTypes(methods[k].1);
      ConcatMapContains(EntryTypes, methods, k, t);
    }
  }

  /** A response names a type exactly when it has JSON content whose schema or items refer to one. */
  lemma {:induction false} ResponseTypesCases(r: Response)
    ensures ContentTypes(r.content) != [] <==>
      r.content.Some? && JsonSchema(r.content.value).Some? &&
      (HasTruthyRef(JsonSchema(r.content.value).value) ||
       (JsonSchema(r.content.value).value.items.Some? && HasTruthyRef(JsonSchema(r.content.value).value.items.value)))
  {
  }

  // ---------------------------------------------------------------------------
  // Validation code (`generateValidationCode`)

  /** `param.in === "path" && param.schema`: a reference schema counts too. */
  predicate IsPathParameter(p: Parameter) {
    p.Parameter? && p.location == "path" && p.schema.Some?
  }

  /** The lines one parameter contributes; the declaration carries its own newline. */
  function ParameterLines(p: Parameter): (r: seq<string>)
    ensures IsPathParameter(p) <==> r != []
    ensures forall l :: l in r ==> l != []
  {
    if IsPathParameter(p) then [Handler.DeclarationLine(p.name) + "\n"] + Handler.FormatChecks(p.name, p.schema.value)
    else []
  }

  function ValidationLines(params: seq<Parameter>): seq<string> {
    ConcatMap(ParameterLines, params)
  }

  /** Nothing without a parameter list, else the lines joined by newlines, with a final newline. */
  function ValidationCode(parameters: Option<seq<Parameter>>): string {
    if parameters.None? then "" else Join(ValidationLines(parameters.value), "\n") + "\n"
  }

  /** `generateValidationCode(parameters)`. */
  method GenerateValidationCode(parameters: Option<seq<Parameter>>) returns (code: string)
    ensures code == ValidationCode(parameters)
  {
    if parameters.None? {
      return "";
    }
    var params := parameters.value;
    var lines: seq<string> := [];
    for i := 0 to |params|
      invariant lines == ValidationLines(params[..i])
    {
      ConcatMapStep(ParameterLines, params, i);
      var param := params[i];
      if param.Parameter? && param.location == "path" && param.schema.Some? {
        var name := param.name;
        var schema := param.schema.value;
        lines := lines + [Handler.DeclarationLine(name) + "\n"];
        if schema.typ == "string" && schema.format == "uuid" {
          lines := lines + [Handler.UuidCheck(name)];
        } else if schema.pattern != "" {
          lines := lines + [Handler.PatternCheck(name, schema.pattern)];
        }
      }
    }
    assert params[..|params|] == params;
    code := Join(lines, "\n") + "\n";
  }

  /**
    The code is empty exactly without a parameter list, and a lone newline
    exactly when the list has no path parameter with a schema.
  */
  lemma {:induction false} ValidationCodeCases(parameters: Option<seq<Parameter>>)
    ensures ValidationCode(parameters) == "" <==> parameters.None?
    ensures ValidationCode(parameters) == "\n" <==>
      parameters.Some? && forall i :: 0 <= i < |parameters.value| ==> !IsPathParameter(parameters.value[i])
  {
    if parameters.Some? {
      var params := parameters.value;
      var lines := ValidationLines(params);
      ConcatMapEmpty(ParameterLines, params);
      if lines != [] {
        var k := ConcatMapOrigin(ParameterLines, params, lines[0]);
        if |lines| > 1 {
          assert Join(lines, "\n") == lines[0] + "\n" + Join(lines[1..], "\n");
        }
        assert Join(lines, "\n") != [];
      }
    }
  }

  /**
    Against the newer generator: a path parameter with an inline schema gets
    the same lines, except that the declaration ends in an extra newline; a
    path parameter whose schema is a reference still gets a declaration here,
    and nothing there.
  */
  lemma {:induction false} ParameterLinesAgainstHandler(p: Parameter)
    ensures Handler.IsValidatedParameter(p) ==>
      var h := Handler.ParameterValidation(p);
      ParameterLines(p) == [h[0] + "\n"] + h[1..]
    ensures IsPathParameter(p) && HasRef(p.schema.value) ==>
      Handler.ParameterValidation(p) == [] && ParameterLines(p)[0] == Handler.DeclarationLine(p.name) + "\n"
    ensures !IsPathParameter(p) ==> ParameterLines(p) == [] && Handler.ParameterValidation(p) == []
  {
    if Handler.IsValidatedParameter(p) {
      var h := Handler.ParameterValidation(p);
      assert h == [Handler.DeclarationLine(p.name)] + Handler.FormatChecks(p.name, p.schema.value);
      assert h[1..] == Handler.FormatChecks(p.name, p.schema.value);
    }
  }

  // ---------------------------------------------------------------------------
  // Method implementation (`generateMethodImplementation`)

  /** The JSON schema of the request body has a non-empty `$ref`. */
  predicate HasTruthyRefBody(op: Operation) {
    op.requestBody.Some? && JsonSchema(op.requestBody.value.content).Some?
    && HasTruthyRef(JsonSchema(op.requestBody.value.content).value)
  }

  /** The request body type: the referenced name, else `any` (an array of references included). */
  function RequestBodyType(op: Operation): string {
    if HasTruthyRefBody(op) then RefName(JsonSchema(op.requestBody.value.content).value.ref.value) else "any"
  }

  /** The text of the handler method; the body-type comment is always there. */
  function MethodText(httpMethod: string, op: Operation): string {
    Handler.MethodHead + httpMethod + Handler.MethodParams
    + ValidationCode(op.parameters)
    + Handler.TodoHead + Upper(httpMethod) + Handler.TodoTail
    + Handler.BodyTypeHead + RequestBodyType(op) + Handler.BodyTypeTail
    + Handler.ReturnHead + Upper(httpMethod) + Handler.ReturnTail
    + Handler.MethodEnd
  }

  /** `generateMethodImplementation(method, methodSpec)`. */
  method GenerateMethodImplementation(httpMethod: string, op: Operation) returns (impl: string)
    ensures impl == MethodText(httpMethod, op)
  {
    var validationCode := GenerateValidationCode(op.parameters);
    var requestBodyType := "any";
    if op.requestBody.Some? {
      var content := JsonSchema(op.requestBody.value.content);
      if content.Some? && HasTruthyRef(content.value) {
        requestBodyType := RefName(content.value.ref.value);
      }
    }
    impl := Handler.MethodHead + httpMethod + Handler.MethodParams
      + validationCode
      + Handler.TodoHead + Upper(httpMethod) + Handler.TodoTail
      + Handler.BodyTypeHead + requestBodyType + Handler.BodyTypeTail
      + Handler.ReturnHead + Upper(httpMethod) + Handler.ReturnTail
      + Handler.MethodEnd;
  }

  /**
    A referenced body's type is the first type the method contributes, so it
    is imported; an array of references is imported but the body is typed
    `any`.
  */
  lemma {:induction false} BodyTypeImported(op: Operation)
    ensures HasTruthyRefBody(op) ==> OperationTypes(op) != [] && OperationTypes(op)[0] == RequestBodyType(op)
    ensures !HasTruthyRefBody(op) ==> RequestBodyType(op) == "any"
    ensures op.requestBody.Some? && !HasTruthyRefBody(op) && BodyTypes(op) != [] ==>
      var s := JsonSchema(op.requestBody.value.content).value;
      s.items.Some? && BodyTypes(op) == [RefName(s.items.value.ref.value)]
  {
  }

  /**
    Against the newer generator: the two body types agree on a reference
    whose last segment is not empty; an empty `$ref` is `any` here and
    `UnknownType` there.
  */
  lemma {:induction false} BodyTypeAgainstHandler(op: Operation)
    requires op.requestBody.Some? && JsonSchema(op.requestBody.value.content).Some?
    ensures var s := JsonSchema(op.requestBody.value.content).value;
      && (HasTruthyRef(s) && s.ref.value[|s.ref.value| - 1] != '/' ==> RequestBodyType(op) == Handler.RequestBodyType(op))
      && (s.ref == Some("") ==> RequestBodyType(op) == "any" && Handler.RequestBodyType(op) == "UnknownType")
  {
    var s := JsonSchema(op.requestBody.value.content).value;
    if HasTruthyRef(s) {
      RefNameAgainstUtil(s.ref.value);
    }
  }

  // ---------------------------------------------------------------------------
  // Class content (`generateClassContent`) and `generate`

  const BaseImport: string := "import { BaseHandler, Request, Response } from \"./_\";\n\n"
  const ClassHead: string := "export class "
  const ClassExtends: string := " extends BaseHandler {\n\n"
  const ClassEnd: string := "\n\n}\n"

  /** One import line per type, in set order. */
  function Imports(types: seq<string>): string {
    Join(HandlerTypes.ImportLines(types), "\n")
  }

  /** The implementation of one method entry, the verb lower-cased. */
  function EntryText(m: (string, Operation)): seq<string> {
    [MethodText(Lower(m.0), m.1)]
  }

  function MethodTexts(methods: Methods): seq<string> {
    ConcatMap(EntryText, methods)
  }

  /** The error overrides of one method, joined by blank lines. */
  function OverrideBlock(httpMethod: string, op: Operation): string {
    Join(Handler.ErrorOverrides(httpMethod, op.responses), "\n\n")
  }

  function EntryOverrides(m: (string, Operation)): seq<string> {
    [OverrideBlock(Lower(m.0), m.1)]
  }

  function OverrideBlocks(methods: Methods): seq<string> {
    ConcatMap(EntryOverrides, methods)
  }

  /** The text between the imports and the method implementations. */
  function BodyPrefix(className: string, methods: Methods): string {
    "\n" + BaseImport + ClassHead + className + ClassExtends
    + Join(OverrideBlocks(methods), "\n\n") + "\n"
  }

  /** Everything after the imports. */
  function ClassBody(className: string, methods: Methods): string {
    BodyPrefix(className, methods) + Join(MethodTexts(methods), "\n\n") + ClassEnd
  }

  /** The whole file. */
  function ClassContent(className: string, methods: Methods, types: seq<string>): string {
    Imports(types) + ClassBody(className, methods)
  }

  /** The `Array.from(typesToImport).map(...).join("\n")` part. */
  method GenerateImports(types: seq<string>) returns (imports: string)
    ensures imports == Imports(types)
  {
    var importLines: seq<string> := [];
    for i := 0 to |types|
      invariant importLines == HandlerTypes.ImportLines(types[..i])
    {
      importLines := importLines + [HandlerTypes.ImportLine(types[i])];
    }
    assert types[..|types|] == types;
    imports := Join(importLines, "\n");
  }

  /** The two `Object.keys(methods).map(...)` passes, done together. */
  method GenerateMethodBlocks(methods: Methods) returns (impls: seq<string>, overrides: seq<string>)
    ensures impls == MethodTexts(methods)
    ensures overrides == OverrideBlocks(methods)
  {
    impls := [];
    overrides := [];
    for i := 0 to |methods|
      invariant impls == ConcatMap(EntryText, methods[..i])
      invariant overrides == ConcatMap(EntryOverrides, methods[..i])
    {
      ConcatMapStep(EntryText, methods, i);
      ConcatMapStep(EntryOverrides, methods, i);
      var verb := Lower(methods[i].0);
      var impl := GenerateMethodImplementation(verb, methods[i].1);
      var errorMethods := Handler.GenerateErrorOverrideMethods(verb, methods[i].1);
      impls := impls + [impl];
      overrides := overrides + [Join(errorMethods, "\n\n")];
    }
    assert methods[..|methods|] == methods;
  }

  /** `generateClassContent(className, methods, typesToImport)`. */
  method GenerateClassContent(className: string, methods: Methods, types: seq<string>) returns (content: string)
    ensures content == ClassContent(className, methods, types)
  {
    var imports := GenerateImports(types);
    var impls, overrides := GenerateMethodBlocks(methods);
    var prefix := "\n" + BaseImport + ClassHead + className + ClassExtends + Join(overrides, "\n\n") + "\n";
    content := imports + (prefix + Join(impls, "\n\n") + ClassEnd);
  }

  /**
    `generate(endpoint, methods)`: the file name under `handlers/` and its
    content; the directory creation and the write are left out.
  */
  method Generate(endpoint: string, methods: Methods) returns (fileName: string, content: string)
    ensures fileName == FileName(endpoint)
    ensures content == ClassContent(ClassName(endpoint), methods, TypesToImport(methods))
  {
    var normalizedEndpoint := Util.NormalizeEndpoint(endpoint);
    var className := BaseAdapter.ToPascalCase(normalizedEndpoint) + "Handler";
    fileName := normalizedEndpoint + ".ts";
    var typesToImport := ExtractTypesToImport(methods);
    content := GenerateClassContent(className, methods, typesToImport);
  }

  // ---------------------------------------------------------------------------
  // Properties of the file

  /** Every method entry's implementation appears in the file. */
  lemma {:induction false} EveryMethodImplemented(className: string, methods: Methods, types: seq<string>, k: nat)
    requires k < |methods|
    ensures Contains(ClassContent(className, methods, types), MethodText(Lower(methods[k].0), methods[k].1))
  {
    var texts := MethodTexts(methods);
    ConcatMapSingletons(EntryText, methods, k);
    JoinContains(texts, "\n\n", k);
    ContainsWithin(Join(texts, "\n\n"), texts[k], Imports(types) + BodyPrefix(className, methods), ClassEnd);
    Assoc(Imports(types), BodyPrefix(className, methods), Join(texts, "\n\n"), ClassEnd);
  }

  /** Every type of the set has its import line in the file. */
  lemma {:induction false} EveryTypeImported(className: string, methods: Methods, types: seq<string>, k: nat)
    requires k < |types|
    ensures Contains(ClassContent(className, methods, types), HandlerTypes.ImportLine(types[k]))
  {
    var lines := HandlerTypes.ImportLines(types);
    JoinContains(lines, "\n", k);
    ContainsBefore(Join(lines, "\n"), lines[k], ClassBody(className, methods));
  }

  lemma {:induction false} Assoc(i: string, p: string, j: string, e: string)
    ensures i + (p + j + e) == i + p + j + e
  {
  }

  /**
    A `$ref` ending in `/` gives the empty name, which is imported like any
    other, with an empty name and an empty file name in its import line.
  */
  lemma {:induction false} EmptyNameImported(methods: Methods, k: nat)
    requires k < |methods| && HasTruthyRefBody(methods[k].1)
    requires var r := JsonSchema(methods[k].1.requestBody.value.content).value.ref.value; r[|r| - 1] == '/'
    ensures [] in TypesToImport(methods)
  {
    BodyTypeImported(methods[k].1);
    ImportedTypes(methods, []);
  }
}
