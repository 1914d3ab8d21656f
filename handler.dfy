/**
  `HandlerGenerator` (src/generator/handler/handler.generator.ts): the
  per-method pieces of `handler.ts` — type names, the proxy signature shown
  in a comment, path-parameter validation, error overrides and imports.

  The sets `usedTypes` and `schemaTypes` that the source mutates in place are
  threaded through as insertion-ordered sequences.
*/
module Handler {
  import opened Wrappers
  import opened Text
  import opened OpenApi
  import opened Util
  import HandlerTypes

  // ---------------------------------------------------------------------------
  // Type names

  /** `["get", "delete", "head", "options"].includes(method.toLowerCase())`. */
  predicate IsBodylessMethod(httpMethod: string) {
    var m := Lower(httpMethod);
    m == "get" || m == "delete" || m == "head" || m == "options"
  }

  /** `Pascal(method) + Pascal(entity)`, the entity taken from `endpoint` by the `util` helper. */
  function TypePrefix(ext: Externals, httpMethod: string, endpoint: string): string {
    ToPascalCase(httpMethod) + ToPascalCase(ext.extractEntityName(endpoint))
  }

  /** `getRequestTypeName`. */
  function RequestTypeName(ext: Externals, httpMethod: string, endpoint: string): string {
    if IsBodylessMethod(httpMethod) then "void" else TypePrefix(ext, httpMethod, endpoint) + "Request"
  }

  /** `getResponseTypeName`. */
  function ResponseTypeName(ext: Externals, httpMethod: string, endpoint: string): string {
    TypePrefix(ext, httpMethod, endpoint) + "Response"
  }

  /**
    The request type is `void` exactly for get, delete, head and options in
    any letter case; otherwise it is the response type's prefix with
    `Request`.
  */
  lemma {:induction false} RequestTypeVoidIff(ext: Externals, httpMethod: string, endpoint: string)
    ensures RequestTypeName(ext, httpMethod, endpoint) == "void" <==> IsBodylessMethod(httpMethod)
    ensures !IsBodylessMethod(httpMethod) ==>
      var req := RequestTypeName(ext, httpMethod, endpoint);
      var resp := ResponseTypeName(ext, httpMethod, endpoint);
      |req| >= 7 && |resp| >= 8 && req[..|req| - 7] == resp[..|resp| - 8]
  {
    if !IsBodylessMethod(httpMethod) {
      var p := TypePrefix(ext, httpMethod, endpoint);
      assert (p + "Request")[..|p|] == p;
      assert (p + "Response")[..|p|] == p;
    }
  }

  /** The request and response type names are never the same. */
  lemma {:induction false} RequestAndResponseDiffer(ext: Externals, httpMethod: string, endpoint: string)
    ensures RequestTypeName(ext, httpMethod, endpoint) != ResponseTypeName(ext, httpMethod, endpoint)
  {
    var p := TypePrefix(ext, httpMethod, endpoint);
    var resp := p + "Response";
    if !IsBodylessMethod(httpMethod) {
      var req := p + "Request";
      assert |req| != |resp|;
    } else {
      assert |resp| >= 8;
    }
  }

  // ---------------------------------------------------------------------------
  // `generateProxyMethodSignature`

  /** The names the signature adds to `usedTypes`, in order. */
  function SignatureTypes(ext: Externals, httpMethod: string, endpoint: string): seq<string> {
    var req := RequestTypeName(ext, httpMethod, endpoint);
    (if req != "void" then [req] else []) + [ResponseTypeName(ext, httpMethod, endpoint)]
  }

  /** The signature text: `<method name>(request: <request type>): Promise<<response type>>;`. */
  function Signature(ext: Externals, httpMethod: string, endpoint: string): string {
    ext.getMethodName(httpMethod, ext.extractEntityName(endpoint))
    + "(request: " + RequestTypeName(ext, httpMethod, endpoint)
    + "): Promise<" + ResponseTypeName(ext, httpMethod, endpoint) + ">;"
  }

  /**
    `generateProxyMethodSignature(method, endpoint, usedTypes)`: the
    signature text, and the set with the response type and (unless `void`)
    the request type added.
  */
  method GenerateProxyMethodSignature(ext: Externals, httpMethod: string, endpoint: string, usedTypes: seq<string>)
    returns (signature: string, usedTypes': seq<string>)
    ensures signature == Signature(ext, httpMethod, endpoint)
    ensures usedTypes' == SetAddAll(usedTypes, SignatureTypes(ext, httpMethod, endpoint))
    ensures forall y :: y in usedTypes' <==>
      y in usedTypes || y == ResponseTypeName(ext, httpMethod, endpoint)
      || (y == RequestTypeName(ext, httpMethod, endpoint) && !IsBodylessMethod(httpMethod))
    ensures NoDup(usedTypes) ==> NoDup(usedTypes')
  {
    var entityName := ext.extractEntityName(endpoint);
    var methodName := ext.getMethodName(httpMethod, entityName);
    var requestType := RequestTypeName(ext, httpMethod, endpoint);
    var responseType := ResponseTypeName(ext, httpMethod, endpoint);
    usedTypes' := usedTypes;
    if requestType != "void" {
      usedTypes' := SetAdd(usedTypes', requestType);
    }
    usedTypes' := SetAdd(usedTypes', responseType);
    signature := methodName + "(request: " + requestType + "): Promise<" + responseType + ">;";
    SignatureTypesAdded(ext, httpMethod, endpoint, usedTypes);
    RequestTypeVoidIff(ext, httpMethod, endpoint);
    SetAddAllContents(usedTypes, SignatureTypes(ext, httpMethod, endpoint));
  }

  lemma {:induction false} SignatureTypesAdded(ext: Externals, httpMethod: string, endpoint: string, usedTypes: seq<string>)
    ensures var req := RequestTypeName(ext, httpMethod, endpoint);
      var resp := ResponseTypeName(ext, httpMethod, endpoint);
      SetAddAll(usedTypes, SignatureTypes(ext, httpMethod, endpoint))
        == SetAdd(if req != "void" then SetAdd(usedTypes, req) else usedTypes, resp)
  {
    var req := RequestTypeName(ext, httpMethod, endpoint);
    var resp := ResponseTypeName(ext, httpMethod, endpoint);
    if req != "void" {
      SetAddAllAppend(usedTypes, [req], [resp]);
      assert [req] + [resp] == SignatureTypes(ext, httpMethod, endpoint);
      SetAddAllSingle(usedTypes, req);
      SetAddAllSingle(SetAdd(usedTypes, req), resp);
    } else {
      assert [] + [resp] == SignatureTypes(ext, httpMethod, endpoint);
      SetAddAllSingle(usedTypes, resp);
    }
  }

  // ---------------------------------------------------------------------------
  // `generateMethodImplementation`

  /** The request body's JSON schema, when it is a reference: `"$ref" in content.schema`. */
  predicate HasRefBody(op: Operation) {
    RequestJsonSchema(op).Some? && HasRef(RequestJsonSchema(op).value)
  }

  /** The request body type: the referenced name, or `any`. */
  function RequestBodyType(op: Operation): string {
    if HasRefBody(op) then ExtractRefName(RequestJsonSchema(op).value.ref.value) else "any"
  }

  /** `validationCode.trim()` is empty. */
  predicate IsBlank(s: string) {
    forall i :: 0 <= i < |s| ==> IsSpace(s[i])
  }

  // The fixed text of a handler method, piece by piece.
  const MethodHead: string := "  public async "
  const MethodParams: string := "(req: Request): Promise<Response> {\n"
  const SignatureComment: string := "    // Proxy method signature: "
  const ProxyCall: string := "    const result = await this.proxy."
  const ProxyCallEnd: string := "();\n"
  const TodoHead: string := "    // TODO: Implement "
  const TodoTail: string := " logic\n"
  const BodyTypeHead: string := "    // If request body type is needed: (req.body as "
  const BodyTypeTail: string := ")\n"
  const ReturnHead: string := "    return new Response(200, { \"Content-Type\": \"application/json\" }, { message: \""
  const ReturnTail: string := " method called\" });\n"
  const MethodEnd: string := "  }"

  /** The comment naming the request body type, when there is a body whose type is not `any`. */
  function BodyTypeComment(op: Operation): string {
    if op.requestBody.Some? && RequestBodyType(op) != "any" then BodyTypeHead + RequestBodyType(op) + BodyTypeTail else ""
  }

  /** The text of the handler method for one HTTP method. */
  function MethodText(ext: Externals, httpMethod: string, op: Operation, className: string,
                      signature: string, validation: string): string {
    MethodHead + httpMethod + MethodParams
    + SignatureComment + signature + "\n"
    + (if IsBlank(validation) then "" else validation)
    + ProxyCall + ext.getMethodName(httpMethod, className) + ProxyCallEnd
    + TodoHead + Upper(httpMethod) + TodoTail
    + BodyTypeComment(op)
    + ReturnHead + Upper(httpMethod) + ReturnTail
    + MethodEnd
  }

  /**
    `generateMethodImplementation(method, spec, className, usedTypes,
    schemaTypes)`. The signature is derived with the class name standing
    for the endpoint. A referenced request body joins `schemaTypes`, so the
    later `usedTypes.add(requestBodyType)` never fires: `usedTypes` gains
    exactly the signature's types.
  */
  method GenerateMethodImplementation(ext: Externals, httpMethod: string, op: Operation, className: string,
                                      usedTypes: seq<string>, schemaTypes: seq<string>)
    returns (impl: string, usedTypes': seq<string>, schemaTypes': seq<string>)
    ensures usedTypes' == SetAddAll(usedTypes, SignatureTypes(ext, httpMethod, className))
    ensures schemaTypes' == if HasRefBody(op) then SetAdd(schemaTypes, RequestBodyType(op)) else schemaTypes
    ensures impl == MethodText(ext, httpMethod, op, className,
                               Signature(ext, httpMethod, className), ValidationCode(op.parameters))
  {
    var validationCode := GenerateValidationCode(op.parameters);
    var requestBodyType := "any";
    schemaTypes' := schemaTypes;
    if op.requestBody.Some? {
      var content := JsonSchema(op.requestBody.value.content);
      if content.Some? {
        if HasRef(content.value) {
          requestBodyType := ExtractRefName(content.value.ref.value);
          schemaTypes' := SetAdd(schemaTypes', requestBodyType);
        } else if content.value.typ == "object" && content.value.properties.Properties? {
          requestBodyType := "any";
        }
      }
    }
    assert schemaTypes' == if HasRefBody(op) then SetAdd(schemaTypes, RequestBodyType(op)) else schemaTypes;
    assert requestBodyType != "any" ==> requestBodyType in schemaTypes';
    var signature;
    signature, usedTypes' := GenerateProxyMethodSignature(ext, httpMethod, className, usedTypes);
    if requestBodyType != "any" && requestBodyType !in schemaTypes' {
      usedTypes' := SetAdd(usedTypes', requestBodyType);
    }
    impl := MethodText(ext, httpMethod, op, className, signature, validationCode);
  }

  // ---------------------------------------------------------------------------
  // `generateValidationCode`

  /** Parameters that get validation lines: path parameters with a schema that is not a reference. */
  predicate IsValidatedParameter(p: Parameter) {
    p.Parameter? && p.location == "path" && p.schema.Some? && !HasRef(p.schema.value)
  }

  // The fixed text of the validation lines.
  const DeclarationHead: string := "    const "
  const DeclarationTail: string := " = req.path.split(\"/\").pop() || \"\"; // Fallback to empty string if undefined"
  const UuidTestHead: string := PatternTestHead + "^[0-9a-fA-F]{8}-[0-9a-fA-F]{4}-[0-9a-fA-F]{4}-[0-9a-fA-F]{4}-[0-9a-fA-F]{12}$/.test("
  const UuidMessage: string := ")) {\n      return this.badRequest(\"Invalid UUID format for "
  const PatternTestHead: string := "    if (!/"
  const PatternTestCall: string := "/.test("
  const PatternMessage: string := ")) {\n      return this.badRequest(\"Invalid format for "
  const CheckTail: string := "\");\n    }"

  /** `const <name> = req.path.split("/").pop() || "";`, with its comment. */
  function DeclarationLine(name: string): string {
    DeclarationHead + name + DeclarationTail
  }

  /** The test of the value against the UUID regular expression. */
  function UuidCheck(name: string): string {
    UuidTestHead + name + UuidMessage + name + CheckTail
  }

  /** The test of the value against the schema's own pattern. */
  function PatternCheck(name: string, pattern: string): string {
    PatternTestHead + pattern + PatternTestCall + name + PatternMessage + name + CheckTail
  }

  /** The check after the declaration: the UUID test, else the pattern test when there is a pattern. */
  function FormatChecks(name: string, s: Schema): (r: seq<string>)
    ensures |r| <= 1
  {
    if s.typ == "string" && s.format == "uuid" then [UuidCheck(name)]
    else if s.pattern != "" then [PatternCheck(name, s.pattern)]
    else []
  }

  /** The lines one parameter contributes. */
  function ParameterValidation(p: Parameter): (r: seq<string>)
    ensures IsValidatedParameter(p) <==> r != []
  {
    if IsValidatedParameter(p) then [DeclarationLine(p.name)] + FormatChecks(p.name, p.schema.value) else []
  }

  function ValidationLines(params: seq<Parameter>): seq<string> {
    if params == [] then []
    else ValidationLines(params[..|params| - 1]) + ParameterValidation(params[|params| - 1])
  }

  /** The validation code: nothing without a parameter list, else the lines joined, with a final newline. */
  function ValidationCode(parameters: Option<seq<Parameter>>): string {
    if parameters.None? then "" else Join(ValidationLines(parameters.value), "\n") + "\n"
  }

  /** The lines of one parameter, case by case. */
  lemma {:induction false} ParameterValidationCases(p: Parameter)
    ensures !IsValidatedParameter(p) ==> ParameterValidation(p) == []
    ensures IsValidatedParameter(p) ==>
      var s := p.schema.value;
      var d := [DeclarationLine(p.name)];
      ParameterValidation(p)
        == if s.typ == "string" && s.format == "uuid" then d + [UuidCheck(p.name)]
           else if s.pattern != "" then d + [PatternCheck(p.name, s.pattern)]
           else d
  {
  }

  lemma {:induction false} ValidationLinesStep(params: seq<Parameter>, i: nat)
    requires i < |params|
    ensures ValidationLines(params[..i + 1]) == ValidationLines(params[..i]) + ParameterValidation(params[i])
  {
    assert params[..i + 1][..i] == params[..i];
  }

  /** `generateValidationCode(parameters)`. */
  method GenerateValidationCode(parameters: Option<seq<Parameter>>) returns (code: string)
    ensures code == ValidationCode(parameters)
  {
    if parameters.None? {
      return "";
    }
    var params := parameters.value;
    var lines: seq<string> := [];
    for i := 0 to |params|
      invariant lines == ValidationLines(params[..i])
    {
      var p := params[i];
      ValidationLinesStep(params, i);
      ParameterValidationCases(p);
      if p.Parameter? && p.location == "path" && p.schema.Some? {
        if !HasRef(p.schema.value) {
          var s := p.schema.value;
          lines := lines + [DeclarationLine(p.name)];
          if s.typ == "string" && s.format == "uuid" {
            lines := lines + [UuidCheck(p.name)];
          } else if s.pattern != "" {
            lines := lines + [PatternCheck(p.name, s.pattern)];
          }
        }
      }
    }
    assert params[..|params|] == params;
    code := Join(lines, "\n") + "\n";
  }

  /** No parameter is a path parameter with an inline schema. */
  predicate NoneValidated(params: seq<Parameter>) {
    forall i :: 0 <= i < |params| ==> !IsValidatedParameter(params[i])
  }

  lemma {:induction false} NoneValidatedStep(params: seq<Parameter>)
    requires params != []
    ensures NoneValidated(params) <==>
      NoneValidated(params[..|params| - 1]) && !IsValidatedParameter(params[|params| - 1])
  {
    var init := params[..|params| - 1];
    if NoneValidated(init) && !IsValidatedParameter(params[|params| - 1]) {
      forall i | 0 <= i < |params| ensures !IsValidatedParameter(params[i]) {
        if i < |init| {
          assert params[i] == init[i];
        }
      }
    }
  }

  /** No validation lines at all iff no parameter is a path parameter with an inline schema. */
  lemma {:induction false} ValidationLinesEmpty(params: seq<Parameter>)
    ensures ValidationLines(params) == [] <==> NoneValidated(params)
  {
    if params != [] {
      var init := params[..|params| - 1];
      var last := params[|params| - 1];
      ValidationLinesEmpty(init);
      NoneValidatedStep(params);
      var prev := ValidationLines(init);
      var tail := ParameterValidation(last);
      assert ValidationLines(params) == prev + tail;
      assert |prev + tail| == |prev| + |tail|;
    }
  }

  /** The line has a statement, not blank, at its fifth character. */
  predicate HasStatement(l: string) {
    |l| > 4 && !IsSpace(l[4])
  }

  lemma {:induction false} DeclarationHasStatement(name: string)
    ensures HasStatement(DeclarationLine(name))
  {
    assert DeclarationHead[4] == 'c';
  }

  lemma {:induction false} UuidCheckHasStatement(name: string)
    ensures HasStatement(UuidCheck(name))
  {
    assert PatternTestHead[4] == 'i';
    assert UuidTestHead[4] == 'i';
  }

  lemma {:induction false} PatternCheckHasStatement(name: string, pattern: string)
    ensures HasStatement(PatternCheck(name, pattern))
  {
    assert PatternTestHead[4] == 'i';
  }

  lemma {:induction false} ParameterLinesHaveStatements(p: Parameter)
    ensures forall l :: l in ParameterValidation(p) ==> HasStatement(l)
  {
    if IsValidatedParameter(p) {
      var s := p.schema.value;
      DeclarationHasStatement(p.name);
      UuidCheckHasStatement(p.name);
      PatternCheckHasStatement(p.name, s.pattern);
      var checks := FormatChecks(p.name, s);
      assert ParameterValidation(p) == [DeclarationLine(p.name)] + checks;
    }
  }

  /** Every validation line has a statement at its fifth character. */
  lemma {:induction false} ValidationLinesIndented(params: seq<Parameter>)
    ensures forall l :: l in ValidationLines(params) ==> HasStatement(l)
  {
    if params != [] {
      var init := params[..|params| - 1];
      var p := params[|params| - 1];
      ValidationLinesIndented(init);
      ParameterLinesHaveStatements(p);
      var prev := ValidationLines(init);
      var tail := ParameterValidation(p);
      assert ValidationLines(params) == prev + tail;
      forall l | l in prev + tail ensures HasStatement(l) {
        if l !in prev {
          assert l in tail;
        }
      }
    }
  }

  /**
    The validation block is inserted (`validationCode.trim()` is non-empty)
    exactly when some parameter is a path parameter with an inline schema.
  */
  lemma {:induction false} ValidationInsertedIff(parameters: Option<seq<Parameter>>)
    ensures !IsBlank(ValidationCode(parameters)) <==> parameters.Some? && !NoneValidated(parameters.value)
  {
    if parameters.Some? {
      var lines := ValidationLines(parameters.value);
      ValidationLinesEmpty(parameters.value);
      if lines == [] {
        assert ValidationCode(parameters) == "\n";
      } else {
        ValidationLinesIndented(parameters.value);
        assert lines[0] in lines;
        var j := Join(lines, "\n");
        if |lines| > 1 {
          assert j == lines[0] + "\n" + Join(lines[1..], "\n");
        }
        assert j[4] == lines[0][4];
        assert ValidationCode(parameters)[4] == j[4];
      }
    }
  }

  /**
    A validated parameter's lines are its declaration, then the UUID check
    exactly when its schema is a `uuid`-formatted string, otherwise the
    pattern check exactly when it has a pattern.
  */
  lemma {:induction false} ParameterChecks(p: Parameter)
    requires IsValidatedParameter(p)
    ensures var r := ParameterValidation(p);
      var s := p.schema.value;
      && r[0] == DeclarationLine(p.name)
      && (UuidCheck(p.name) in r[1..] <==> s.typ == "string" && s.format == "uuid")
      && (PatternCheck(p.name, s.pattern) in r[1..] <==> !(s.typ == "string" && s.format == "uuid") && s.pattern != "")
  {
    var s := p.schema.value;
    var r := ParameterValidation(p);
    assert r == [DeclarationLine(p.name)] + FormatChecks(p.name, s);
    assert r[1..] == FormatChecks(p.name, s);
    UuidAndPatternDiffer(p.name, s.pattern);
  }

  /**
    The two checks differ: their messages (`Invalid UUID format for` and
    `Invalid format for`) tell them apart.
  */
  lemma {:induction false} UuidAndPatternDiffer(name: string, pattern: string)
    ensures UuidCheck(name) != PatternCheck(name, pattern)
  {
    var t := name + CheckTail;
    var a := UuidTestHead + name + UuidMessage;
    var b := PatternTestHead + pattern + PatternTestCall + name + PatternMessage;
    assert UuidCheck(name) == a + t;
    assert PatternCheck(name, pattern) == b + t;
    assert a[|a| - 13] == UuidMessage[|UuidMessage| - 13] == 'D';
    assert b[|b| - 13] == PatternMessage[|PatternMessage| - 13] == 'd';
    if |a| == |b| {
      assert (a + t)[|a| - 13] != (b + t)[|a| - 13];
    } else {
      assert |a + t| != |b + t|;
    }
  }

  // ---------------------------------------------------------------------------
  // Error overrides

  /** `statusCode.startsWith("4") || statusCode.startsWith("5")`. */
  predicate IsErrorCode(code: string) {
    code != [] && (code[0] == '4' || code[0] == '5')
  }

  /** `getBaseHandlerMethod(statusCode)`. */
  function BaseHandlerMethod(code: string): (r: string)
    ensures r in {"badRequest", "unauthorized", "forbidden", "notFound", "internalServerError"}
    ensures code !in {"400", "401", "403", "404"} <==> r == "internalServerError"
  {
    if code == "400" then "badRequest"
    else if code == "401" then "unauthorized"
    else if code == "403" then "forbidden"
    else if code == "404" then "notFound"
    else "internalServerError"
  }

  /** The part of the override's name after the method. */
  function ErrorSuffix(code: string): string {
    if code == "400" then "BadRequest"
    else if code == "401" then "Unauthorized"
    else if code == "403" then "Forbidden"
    else if code == "404" then "NotFound"
    else if code == "500" then "InternalServerError"
    else "CustomError_" + code
  }

  /** The status codes both switches name. */
  predicate IsNamedCode(code: string) {
    code == "400" || code == "401" || code == "403" || code == "404" || code == "500"
  }

  /** For the five named codes the override is named after the helper it calls. */
  lemma {:induction false} ErrorSuffixMatchesHelper(code: string)
    requires IsNamedCode(code)
    ensures ErrorSuffix(code) == CapitalizeFirstLetter(BaseHandlerMethod(code))
  {
    var b := BaseHandlerMethod(code);
    if code == "400" {
      CapitalizedName("badRequest", "BadRequest");
    } else if code == "401" {
      CapitalizedName("unauthorized", "Unauthorized");
    } else if code == "403" {
      CapitalizedName("forbidden", "Forbidden");
    } else if code == "404" {
      CapitalizedName("notFound", "NotFound");
    } else {
      CapitalizedName("internalServerError", "InternalServerError");
    }
  }

  lemma {:induction false} CapitalizedName(lower: string, upper: string)
    requires lower != [] && |upper| == |lower| && upper[0] == UpperChar(lower[0]) && upper[1..] == lower[1..]
    ensures upper == CapitalizeFirstLetter(lower)
  {
    assert upper == [upper[0]] + upper[1..];
  }

  /** Any other code gets a custom name and falls back to `internalServerError`. */
  lemma {:induction false} OtherCodesAreCustom(code: string)
    requires !IsNamedCode(code)
    ensures ErrorSuffix(code) == "CustomError_" + code
    ensures BaseHandlerMethod(code) == "internalServerError"
  {
  }

  /** `response.description || "Error"`. */
  function ErrorMessage(r: Response): string {
    if r.description == "" then "Error" else r.description
  }

  function ErrorOverride(httpMethod: string, code: string, r: Response): string {
    "  protected " + httpMethod + ErrorSuffix(code) + "(): Response {\n"
    + "    return super." + BaseHandlerMethod(code) + "(\"" + ErrorMessage(r) + "\");\n"
    + "  }"
  }

  /** One override per error status, in the order of the response keys. */
  function ErrorOverrides(httpMethod: string, rs: seq<(string, Response)>): seq<string> {
    if rs == [] then []
    else
      var last := rs[|rs| - 1];
      ErrorOverrides(httpMethod, rs[..|rs| - 1])
        + (if IsErrorCode(last.0) then [ErrorOverride(httpMethod, last.0, last.1)] else [])
  }

  /** `generateErrorOverrideMethods(method, spec)`. */
  method GenerateErrorOverrideMethods(httpMethod: string, op: Operation) returns (errorMethods: seq<string>)
    ensures errorMethods == ErrorOverrides(httpMethod, op.responses)
  {
    var rs := op.responses;
    errorMethods := [];
    for i := 0 to |rs|
      invariant errorMethods == ErrorOverrides(httpMethod, rs[..i])
    {
      assert rs[..i + 1][..i] == rs[..i];
      var (statusCode, response) := rs[i];
      if statusCode != [] && (statusCode[0] == '4' || statusCode[0] == '5') {
        errorMethods := errorMethods + [ErrorOverride(httpMethod, statusCode, response)];
      }
    }
    assert rs[..|rs|] == rs;
  }

  /** The number of error status keys. */
  function ErrorCodeCount(rs: seq<(string, Response)>): nat {
    if rs == [] then 0
    else ErrorCodeCount(rs[..|rs| - 1]) + (if IsErrorCode(rs[|rs| - 1].0) then 1 else 0)
  }

  /** Exactly one override per status key starting with `4` or `5`. */
  lemma {:induction false} OneOverridePerErrorCode(httpMethod: string, rs: seq<(string, Response)>)
    ensures |ErrorOverrides(httpMethod, rs)| == ErrorCodeCount(rs)
  {
    if rs != [] {
      OneOverridePerErrorCode(httpMethod, rs[..|rs| - 1]);
    }
  }

  /** Every override belongs to an error status of the operation. */
  lemma {:induction false} OverridesComeFromErrorCodes(httpMethod: string, rs: seq<(string, Response)>, k: nat)
    requires k < |ErrorOverrides(httpMethod, rs)|
    ensures exists i :: (0 <= i < |rs| && IsErrorCode(rs[i].0)
      && ErrorOverrides(httpMethod, rs)[k] == ErrorOverride(httpMethod, rs[i].0, rs[i].1))
  {
    var init := rs[..|rs| - 1];
    var last := rs[|rs| - 1];
    var prev := ErrorOverrides(httpMethod, init);
    var tail := if IsErrorCode(last.0) then [ErrorOverride(httpMethod, last.0, last.1)] else [];
    assert ErrorOverrides(httpMethod, rs) == prev + tail;
    if k < |prev| {
      OverridesComeFromErrorCodes(httpMethod, init, k);
      var i :| 0 <= i < |init| && IsErrorCode(init[i].0) && prev[k] == ErrorOverride(httpMethod, init[i].0, init[i].1);
      assert rs[i] == init[i];
    } else {
      assert ErrorOverrides(httpMethod, rs)[k] == tail[0];
      assert rs[|rs| - 1] == last;
    }
  }

  // ---------------------------------------------------------------------------
  // Imports

  const ImportHead := "import { "
  const ImportTail := " } from \"./proxy\";"

  /** `generateTypeImports(usedTypes)`: `""` for an empty set, else one sorted import from the proxy. */
  function TypeImports(usedTypes: seq<string>): (r: string)
    ensures r == [] <==> usedTypes == []
  {
    if |usedTypes| == 0 then ""
    else ImportHead + Join(Sort(usedTypes), ", ") + ImportTail
  }

  /**
    The import lists the names of the set sorted, each as many times as the
    set holds it, so every used type occurs in the import line.
  */
  lemma {:induction false} TypeImportsNameEveryType(usedTypes: seq<string>)
    requires usedTypes != []
    ensures var names := Sort(usedTypes);
      Sorted(names) && multiset(names) == multiset(usedTypes)
      && TypeImports(usedTypes) == ImportHead + Join(names, ", ") + ImportTail
    ensures forall t :: t in usedTypes ==> Contains(TypeImports(usedTypes), t)
  {
    var names := Sort(usedTypes);
    forall t | t in usedTypes ensures Contains(TypeImports(usedTypes), t) {
      assert t in multiset(names);
      var k :| 0 <= k < |names| && names[k] == t;
      JoinContains(names, ", ", k);
      ContainsWithin(Join(names, ", "), t, ImportHead, ImportTail);
    }
  }

  /** `generateSchemaImports(schemaTypes)`: one line per schema type, in set order. */
  method GenerateSchemaImports(schemaTypes: seq<string>) returns (r: string)
    ensures r == Join(HandlerTypes.ImportLines(schemaTypes), "\n")
  {
    if |schemaTypes| == 0 {
      return "";
    }
    var lines: seq<string> := [];
    for i := 0 to |schemaTypes|
      invariant lines == HandlerTypes.ImportLines(schemaTypes[..i])
    {
      lines := lines + [HandlerTypes.ImportLine(schemaTypes[i])];
    }
    assert schemaTypes[..|schemaTypes|] == schemaTypes;
    r := Join(lines, "\n");
  }
}
