/**
  The request and response interfaces of one endpoint, as the handler-types
  generator derives them: a base name per method, one `<base>Request` for a
  JSON request body, one `<base>Response` per 2xx response with a JSON body,
  and one schema import per referenced name.
*/
module HandlerTypes {
  import opened Wrappers
  import opened Text
  import opened OpenApi
  import opened Util

  // ---------------------------------------------------------------------------
  // Entity name

  /** A path segment the entity name may come from: non-empty and not `{…}`. */
  predicate IsEntitySegment(p: string) {
    p != [] && p[0] != '{'
  }

  predicate HasEntitySegment(parts: seq<string>) {
    exists i :: 0 <= i < |parts| && IsEntitySegment(parts[i])
  }

  /** `parts.filter((part) => part && !part.startsWith("{"))`. */
  function EntitySegments(parts: seq<string>): (r: seq<string>)
    ensures forall i :: 0 <= i < |r| ==> IsEntitySegment(r[i])
  {
    if parts == [] then []
    else
      var last := parts[|parts| - 1];
      EntitySegments(parts[..|parts| - 1]) + (if IsEntitySegment(last) then [last] else [])
  }

  /** Every surviving segment is one of the segments. */
  lemma {:induction false} EntitySegmentsFrom(parts: seq<string>)
    ensures forall x :: x in EntitySegments(parts) ==> x in parts
  {
    if parts != [] {
      var init := parts[..|parts| - 1];
      EntitySegmentsFrom(init);
      assert forall x :: x in init ==> x in parts;
    }
  }

  lemma {:induction false} EntitySegmentsAppend(a: seq<string>, b: seq<string>)
    ensures EntitySegments(a + b) == EntitySegments(a) + EntitySegments(b)
    decreases |b|
  {
    if b == [] {
      assert a + b == a;
    } else {
      assert (a + b)[..|a + b| - 1] == a + b[..|b| - 1];
      EntitySegmentsAppend(a, b[..|b| - 1]);
    }
  }

  /** No segment survives the filter exactly when none qualifies. */
  lemma {:induction false} EntitySegmentsEmpty(parts: seq<string>)
    ensures EntitySegments(parts) == [] <==> !HasEntitySegment(parts)
  {
    if parts != [] {
      var init, n := parts[..|parts| - 1], |parts| - 1;
      EntitySegmentsEmpty(init);
      assert parts == init + [parts[n]];
      HasEntitySegmentSnoc(init, parts[n]);
    }
  }

  lemma {:induction false} HasEntitySegmentSnoc(init: seq<string>, last: string)
    ensures HasEntitySegment(init + [last]) <==> HasEntitySegment(init) || IsEntitySegment(last)
  {
    var parts := init + [last];
    if HasEntitySegment(init) {
      var i :| 0 <= i < |init| && IsEntitySegment(init[i]);
      assert parts[i] == init[i];
    }
    if IsEntitySegment(last) {
      assert parts[|init|] == last;
    }
    if HasEntitySegment(parts) {
      var i :| 0 <= i < |parts| && IsEntitySegment(parts[i]);
      if i < |init| { assert init[i] == parts[i]; }
    }
  }

  /** The last entity segment is the last segment that qualifies. */
  lemma {:induction false} LastEntitySegment(parts: seq<string>)
    requires EntitySegments(parts) != []
    ensures var r := EntitySegments(parts);
      exists i :: 0 <= i < |parts| && parts[i] == r[|r| - 1] &&
        forall j :: i < j < |parts| ==> !IsEntitySegment(parts[j])
  {
    var init, n := parts[..|parts| - 1], |parts| - 1;
    var r := EntitySegments(parts);
    if IsEntitySegment(parts[n]) {
      assert parts[n] == r[|r| - 1];
    } else {
      assert r == EntitySegments(init);
      LastEntitySegment(init);
      var i :| 0 <= i < |init| && init[i] == r[|r| - 1] &&
               forall j :: i < j < |init| ==> !IsEntitySegment(init[j]);
      assert parts[i] == init[i];
      assert forall j :: i < j < |parts| ==> !IsEntitySegment(parts[j]) by {
        forall j | i < j < |parts| ensures !IsEntitySegment(parts[j]) {
          if j < n { assert parts[j] == init[j]; }
        }
      }
    }
  }

  /** The resource `extractEntityName` singularises: the last entity segment, or `"Entity"`. */
  function EntityResource(endpoint: string): (r: string)
    ensures r != [] && '/' !in r
  {
    SplitPieces(endpoint, '/');
    EntitySegmentsFrom(Split(endpoint, '/'));
    var parts := EntitySegments(Split(endpoint, '/'));
    var last := if parts == [] then "" else parts[|parts| - 1];
    assert parts != [] ==> parts[|parts| - 1] in parts;
    if last == [] then "Entity" else last
  }

  /**
    `extractEntityName`: the last segment that is neither empty nor a path
    parameter, or `"Entity"` when there is none, singularised and PascalCased.
  */
  function ExtractEntityName(ext: Externals, endpoint: string): string {
    ToPascalCase(ext.singular(EntityResource(endpoint)))
  }

  /**
    The resource is the last segment of the endpoint that is non-empty and
    not a parameter, and it is `"Entity"` exactly when there is none.
  */
  lemma {:induction false} EntityResourceIsLastSegment(endpoint: string)
    ensures var parts := Split(endpoint, '/');
      && (!HasEntitySegment(parts) ==> EntityResource(endpoint) == "Entity")
      && (HasEntitySegment(parts) ==>
            exists i :: 0 <= i < |parts| && parts[i] == EntityResource(endpoint) && IsEntitySegment(parts[i]) &&
              forall j :: i < j < |parts| ==> !IsEntitySegment(parts[j]))
  {
    var parts := Split(endpoint, '/');
    EntitySegmentsEmpty(parts);
    var r := EntitySegments(parts);
    if r == [] {
      assert EntityResource(endpoint) == "Entity";
    } else {
      LastEntitySegment(parts);
      var last := r[|r| - 1];
      assert IsEntitySegment(last);
      assert EntityResource(endpoint) == last;
      var i :| 0 <= i < |parts| && parts[i] == last &&
               forall j :: i < j < |parts| ==> !IsEntitySegment(parts[j]);
      assert IsEntitySegment(parts[i]);
    }
  }

  /**
    Appending an empty segment or a path parameter does not change the
    entity: `/users` and `/users/{userId}` name the same entity.
  */
  lemma {:induction false} EntityIgnoresParameterSegment(ext: Externals, endpoint: string, segment: string)
    requires '/' !in segment
    requires segment == [] || segment[0] == '{'
    ensures ExtractEntityName(ext, endpoint + "/" + segment) == ExtractEntityName(ext, endpoint)
  {
    SplitAppend(endpoint, segment, '/');
    EntitySegmentsAppend(Split(endpoint, '/'), Split(segment, '/'));
    var t := Split(segment, '/');
    SplitWithoutSeparator(segment, '/');
    assert EntitySegments(t) == [] by {
      assert t[..0] == [];
    }
    assert Split(endpoint, '/') + t == Split(endpoint + "/" + segment, '/');
    assert EntitySegments(Split(endpoint, '/')) + [] == EntitySegments(Split(endpoint, '/'));
  }

  // ---------------------------------------------------------------------------
  // Interface names

  /**
    The base name of a method's interfaces: the PascalCased `operationId`
    when there is one, else the method lower-cased and capitalised, followed
    by the entity name.
  */
  function BaseName(op: Operation, httpMethod: string, entityName: string): string {
    if op.operationId != "" then ToPascalCase(op.operationId)
    else CapitalizeFirstLetter(Lower(httpMethod)) + entityName
  }

  /** The base name does not depend on the case of the method key. */
  lemma {:induction false} BaseNameIgnoresMethodCase(op: Operation, m1: string, m2: string, entityName: string)
    requires Lower(m1) == Lower(m2)
    ensures BaseName(op, m1, entityName) == BaseName(op, m2, entityName)
  {
  }

  /**
    Without an `operationId` the base name is the method, lower-cased with
    its first letter upper-cased, followed by the entity name; with one, it
    depends on neither the method nor the entity.
  */
  lemma {:induction false} BaseNameParts(op: Operation, httpMethod: string, entityName: string)
    ensures op.operationId == "" ==>
      var b := BaseName(op, httpMethod, entityName);
      && |b| == |httpMethod| + |entityName|
      && b[|httpMethod|..] == entityName
      && (httpMethod != [] ==> b[0] == UpperChar(LowerChar(httpMethod[0])))
      && (forall i :: 1 <= i < |httpMethod| ==> b[i] == LowerChar(httpMethod[i]))
    ensures op.operationId != "" ==>
      forall m, e :: BaseName(op, httpMethod, entityName) == BaseName(op, m, e)
  {
    if op.operationId == "" {
      var lowered := Lower(httpMethod);
      var cap := CapitalizeFirstLetter(lowered);
      assert BaseName(op, httpMethod, entityName) == cap + entityName;
    }
  }

  /** `^2\d\d$`. */
  predicate IsSuccessCode(code: string) {
    |code| == 3 && code[0] == '2' && IsDigit(code[1]) && IsDigit(code[2])
  }

  // ---------------------------------------------------------------------------
  // The definitions emitted, as a specification

  /** An interface to emit: its name and the schema it is generated from. */
  type Definition = (string, Schema)

  /** `<base>Request` for a request body with a JSON schema. */
  function RequestDefinitions(base: string, op: Operation): seq<Definition> {
    var body := RequestJsonSchema(op);
    if body.Some? then [(base + "Request", body.value)] else []
  }

  /** `<base>Response` for a 2xx response with a JSON schema. */
  function ResponseDefinition(base: string, r: (string, Response)): seq<Definition> {
    var body := ResponseJsonSchema(r.1);
    if IsSuccessCode(r.0) && body.Some? then [(base + "Response", body.value)] else []
  }

  /** One `<base>Response` per 2xx response with a JSON schema, in order. */
  function ResponseDefinitions(base: string, rs: seq<(string, Response)>): (r: seq<Definition>)
    ensures forall i :: 0 <= i < |r| ==> r[i].0 == base + "Response"
  {
    if rs == [] then []
    else ResponseDefinitions(base, rs[..|rs| - 1]) + ResponseDefinition(base, rs[|rs| - 1])
  }

  function OperationDefinitions(base: string, op: Operation): seq<Definition> {
    RequestDefinitions(base, op) + ResponseDefinitions(base, op.responses)
  }

  /** The definitions of all methods, in the order of the method keys. */
  function AllDefinitions(entityName: string, methods: seq<(string, Operation)>): seq<Definition> {
    if methods == [] then []
    else
      var m := methods[|methods| - 1];
      AllDefinitions(entityName, methods[..|methods| - 1]) +
        OperationDefinitions(BaseName(m.1, m.0, entityName), m.1)
  }

  /** The members of an interface: one indented `name?: T;` line per property. */
  function InterfaceMembers(s: Schema): (r: seq<string>)
    requires s.properties.Properties?
    ensures |r| == |s.properties.entries|
    ensures forall i :: 0 <= i < |r| ==> r[i] == "  " + PropertyLines(s, |s.properties.entries|)[i]
  {
    var lines := PropertyLines(s, |s.properties.entries|);
    seq(|lines|, i requires 0 <= i < |lines| => "  " + lines[i])
  }

  /** Whether `generateInterface` emits an `interface` rather than a type alias. */
  predicate IsInterfaceSchema(s: Schema) {
    !HasRef(s) && s.typ == "object" && s.properties.Properties?
  }

  /**
    The text `generateInterface` emits: an interface for an object with
    properties, otherwise an alias to the type `resolveType` gives.
  */
  function InterfaceText(name: string, s: Schema): string {
    if IsInterfaceSchema(s) then
      "export interface " + name + " {\n" + Join(InterfaceMembers(s), "\n") + "\n}"
    else "export type " + name + " = " + TypeString(s) + ";"
  }

  function InterfaceTexts(defs: seq<Definition>): (r: seq<string>)
    ensures |r| == |defs|
  {
    if defs == [] then [] else InterfaceTexts(defs[..|defs| - 1]) + [InterfaceText(defs[|defs| - 1].0, defs[|defs| - 1].1)]
  }

  /** The names referenced by the definitions, in the order they are met. */
  function DefinitionRefs(defs: seq<Definition>): seq<string> {
    if defs == [] then [] else DefinitionRefs(defs[..|defs| - 1]) + ReferencedNames(defs[|defs| - 1].1)
  }

  const ImportHead := "import { "
  const ImportMid := " } from \"../schema/"
  const ImportTail := "\";"

  /** `import { T } from "../schema/<t>";`. */
  function ImportLine(t: string): string {
    ImportHead + t + ImportMid + Lower(t) + ImportTail
  }

  function ImportLines(types: seq<string>): (r: seq<string>)
    ensures |r| == |types|
    ensures forall i :: 0 <= i < |r| ==> r[i] == ImportLine(types[i])
  {
    seq(|types|, i requires 0 <= i < |types| => ImportLine(types[i]))
  }

  datatype InterfaceDefinitions = InterfaceDefinitions(imports: string, interfaces: string, typesToImport: seq<string>)

  // ---------------------------------------------------------------------------
  // The generator

  /** `generateInterface`: the text, and the names it adds to the caller's set. */
  method GenerateInterface(name: string, s: Schema, referenced: seq<string>) returns (text: string, referenced': seq<string>)
    ensures text == InterfaceText(name, s)
    ensures referenced' == SetAddAll(referenced, ReferencedNames(s))
  {
    if HasRef(s) {
      var refName := ExtractRefName(s.ref.value);
      SetAddAllSingle(referenced, refName);
      referenced' := SetAdd(referenced, refName);
      text := "export type " + name + " = " + refName + ";";
    } else if s.typ == "object" && s.properties.Properties? {
      var lines;
      lines, referenced' := ResolveProperties(s, referenced);
      var members := seq(|lines|, i requires 0 <= i < |lines| => "  " + lines[i]);
      assert members == InterfaceMembers(s);
      text := "export interface " + name + " {\n" + Join(members, "\n") + "\n}";
    } else if s.typ == "array" && s.items.Some? {
      var itemType;
      itemType, referenced' := ResolveType(s.items.value, referenced);
      ArrayAlias(name, s);
      text := "export type " + name + " = " + itemType + "[];";
    } else {
      var tsType;
      tsType, referenced' := ResolveType(s, referenced);
      text := "export type " + name + " = " + tsType + ";";
    }
  }

  /** The array branch of `generateInterface` gives the alias `resolveType` would. */
  lemma {:induction false} ArrayAlias(name: string, s: Schema)
    requires !HasRef(s) && s.typ == "array" && s.items.Some?
    ensures InterfaceText(name, s) == "export type " + name + " = " + TypeString(s.items.value) + "[];"
    ensures ReferencedNames(s) == ReferencedNames(s.items.value)
  {
    var t := TypeString(s.items.value);
    assert TypeString(s) == t + "[]";
    assert "export type " + name + " = " + (t + "[]") + ";" == "export type " + name + " = " + t + "[];";
  }

  /** Emits one definition: pushes its text and adds its names. */
  method Emit(d: Definition, ghost defs: seq<Definition>, interfaces: seq<string>, referenced: seq<string>)
    returns (interfaces': seq<string>, referenced': seq<string>)
    requires interfaces == InterfaceTexts(defs)
    requires referenced == SetAddAll([], DefinitionRefs(defs))
    ensures interfaces' == InterfaceTexts(defs + [d])
    ensures referenced' == SetAddAll([], DefinitionRefs(defs + [d]))
  {
    var text;
    text, referenced' := GenerateInterface(d.0, d.1, referenced);
    interfaces' := interfaces + [text];
    assert (defs + [d])[..|defs|] == defs;
    SetAddAllAppend([], DefinitionRefs(defs), ReferencedNames(d.1));
  }

  /** The body of the loop over methods: the request, then the 2xx responses. */
  method EmitOperation(base: string, op: Operation, ghost defs: seq<Definition>, interfaces: seq<string>, referenced: seq<string>)
    returns (interfaces': seq<string>, referenced': seq<string>)
    requires interfaces == InterfaceTexts(defs)
    requires referenced == SetAddAll([], DefinitionRefs(defs))
    ensures interfaces' == InterfaceTexts(defs + OperationDefinitions(base, op))
    ensures referenced' == SetAddAll([], DefinitionRefs(defs + OperationDefinitions(base, op)))
  {
    interfaces', referenced' := EmitRequest(base, op, defs, interfaces, referenced);
    ghost var current := defs + RequestDefinitions(base, op);
    OperationDefinitionsSplit(base, op, defs);
    interfaces', referenced' := EmitResponses(base, op.responses, current, interfaces', referenced');
  }

  lemma {:induction false} OperationDefinitionsSplit(base: string, op: Operation, defs: seq<Definition>)
    ensures defs + RequestDefinitions(base, op) + ResponseDefinitions(base, op.responses) == defs + OperationDefinitions(base, op)
  {
  }

  /** The `if (operation.requestBody)` step. */
  method EmitRequest(base: string, op: Operation, ghost defs: seq<Definition>, interfaces: seq<string>, referenced: seq<string>)
    returns (interfaces': seq<string>, referenced': seq<string>)
    requires interfaces == InterfaceTexts(defs)
    requires referenced == SetAddAll([], DefinitionRefs(defs))
    ensures interfaces' == InterfaceTexts(defs + RequestDefinitions(base, op))
    ensures referenced' == SetAddAll([], DefinitionRefs(defs + RequestDefinitions(base, op)))
  {
    var body := RequestJsonSchema(op);
    if body.Some? {
      interfaces', referenced' := Emit((base + "Request", body.value), defs, interfaces, referenced);
    } else {
      assert defs + RequestDefinitions(base, op) == defs;
      interfaces', referenced' := interfaces, referenced;
    }
  }

  /** The loop over `Object.entries(operation.responses)`. */
  method EmitResponses(base: string, rs: seq<(string, Response)>, ghost defs: seq<Definition>, interfaces: seq<string>, referenced: seq<string>)
    returns (interfaces': seq<string>, referenced': seq<string>)
    requires interfaces == InterfaceTexts(defs)
    requires referenced == SetAddAll([], DefinitionRefs(defs))
    ensures interfaces' == InterfaceTexts(defs + ResponseDefinitions(base, rs))
    ensures referenced' == SetAddAll([], DefinitionRefs(defs + ResponseDefinitions(base, rs)))
  {
    interfaces', referenced' := interfaces, referenced;
    assert defs + ResponseDefinitions(base, rs[..0]) == defs by {
      assert rs[..0] == [];
    }
    for j := 0 to |rs|
      invariant interfaces' == InterfaceTexts(defs + ResponseDefinitions(base, rs[..j]))
      invariant referenced' == SetAddAll([], DefinitionRefs(defs + ResponseDefinitions(base, rs[..j])))
    {
      ghost var current := defs + ResponseDefinitions(base, rs[..j]);
      ResponseDefinitionsStep(base, rs, j, defs);
      interfaces', referenced' := EmitResponse(base, rs[j], current, interfaces', referenced');
    }
    assert rs[..|rs|] == rs;
  }

  /** One iteration: a 2xx code with a JSON schema emits `<base>Response`. */
  method EmitResponse(base: string, r: (string, Response), ghost defs: seq<Definition>, interfaces: seq<string>, referenced: seq<string>)
    returns (interfaces': seq<string>, referenced': seq<string>)
    requires interfaces == InterfaceTexts(defs)
    requires referenced == SetAddAll([], DefinitionRefs(defs))
    ensures interfaces' == InterfaceTexts(defs + ResponseDefinition(base, r))
    ensures referenced' == SetAddAll([], DefinitionRefs(defs + ResponseDefinition(base, r)))
  {
    var (code, response) := r;
    var schema := ResponseJsonSchema(response);
    if IsSuccessCode(code) && schema.Some? {
      interfaces', referenced' := Emit((base + "Response", schema.value), defs, interfaces, referenced);
    } else {
      assert defs + ResponseDefinition(base, r) == defs;
      interfaces', referenced' := interfaces, referenced;
    }
  }

  lemma {:induction false} ResponseDefinitionsStep(base: string, rs: seq<(string, Response)>, j: nat, defs: seq<Definition>)
    requires j < |rs|
    ensures defs + ResponseDefinitions(base, rs[..j + 1]) == defs + ResponseDefinitions(base, rs[..j]) + ResponseDefinition(base, rs[j])
  {
    assert rs[..j + 1][..j] == rs[..j];
  }

  /**
    `generateInterfaceDefinitions`: walks the methods in order, emitting the
    request interface and then the 2xx response interfaces of each, and
    returns the import lines, the interfaces separated by blank lines, and
    the referenced names in the order they were first met.
  */
  method GenerateInterfaceDefinitions(ext: Externals, endpoint: string, methods: seq<(string, Operation)>)
    returns (out: InterfaceDefinitions)
    ensures var defs := AllDefinitions(ExtractEntityName(ext, endpoint), methods);
      && out.typesToImport == Dedup(DefinitionRefs(defs))
      && out.interfaces == Join(InterfaceTexts(defs), "\n\n")
      && out.imports == Join(ImportLines(out.typesToImport), "\n")
  {
    var interfaces: seq<string> := [];
    var referenced: seq<string> := [];
    var entityName := ExtractEntityName(ext, endpoint);
    for k := 0 to |methods|
      invariant interfaces == InterfaceTexts(AllDefinitions(entityName, methods[..k]))
      invariant referenced == SetAddAll([], DefinitionRefs(AllDefinitions(entityName, methods[..k])))
    {
      var (httpMethod, op) := methods[k];
      var base := BaseName(op, httpMethod, entityName);
      AllDefinitionsStep(entityName, methods, k);
      interfaces, referenced := EmitOperation(base, op, AllDefinitions(entityName, methods[..k]), interfaces, referenced);
    }
    assert methods[..|methods|] == methods;
    out := InterfaceDefinitions(Join(ImportLines(referenced), "\n"), Join(interfaces, "\n\n"), referenced);
  }

  lemma {:induction false} AllDefinitionsStep(entityName: string, methods: seq<(string, Operation)>, k: nat)
    requires k < |methods|
    ensures AllDefinitions(entityName, methods[..k + 1])
      == AllDefinitions(entityName, methods[..k]) + OperationDefinitions(BaseName(methods[k].1, methods[k].0, entityName), methods[k].1)
  {
    assert methods[..k + 1][..k] == methods[..k];
  }

  /** A `<base>Request` interface is emitted exactly when the body has a JSON schema, and it comes first. */
  lemma {:induction false} RequestInterfaceIff(base: string, op: Operation)
    ensures (exists d :: d in OperationDefinitions(base, op) && d.0 == base + "Request")
        <==> RequestJsonSchema(op).Some?
    ensures RequestJsonSchema(op).Some? ==> OperationDefinitions(base, op)[0] == (base + "Request", RequestJsonSchema(op).value)
  {
    var defs := OperationDefinitions(base, op);
    assert (base + "Request")[|base| + 2] != (base + "Response")[|base| + 2];
    if RequestJsonSchema(op).Some? {
      assert defs[0] in defs;
    }
  }

  /**
    The response definitions are exactly the JSON schemas of the 2xx
    responses, each under the one name `<base>Response`.
  */
  lemma {:induction false} ResponseDefinitionsExactly(base: string, rs: seq<(string, Response)>, d: Definition)
    ensures d in ResponseDefinitions(base, rs) <==>
      d.0 == base + "Response" &&
      exists k :: 0 <= k < |rs| && IsSuccessCode(rs[k].0) && ResponseJsonSchema(rs[k].1) == Some(d.1)
  {
    if rs != [] {
      var init := rs[..|rs| - 1];
      ResponseDefinitionsExactly(base, init, d);
      if d.0 == base + "Response" && exists k :: 0 <= k < |rs| && IsSuccessCode(rs[k].0) && ResponseJsonSchema(rs[k].1) == Some(d.1) {
        var k :| 0 <= k < |rs| && IsSuccessCode(rs[k].0) && ResponseJsonSchema(rs[k].1) == Some(d.1);
        if k < |rs| - 1 {
          assert init[k] == rs[k];
        }
      }
      if d in ResponseDefinitions(base, init) {
        var k :| 0 <= k < |init| && IsSuccessCode(init[k].0) && ResponseJsonSchema(init[k].1) == Some(d.1);
        assert rs[k] == init[k];
      }
    }
  }

  /** The number of 2xx responses with a JSON schema. */
  function SuccessBodies(rs: seq<(string, Response)>): nat {
    if rs == [] then 0
    else
      var last := rs[|rs| - 1];
      SuccessBodies(rs[..|rs| - 1]) + (if IsSuccessCode(last.0) && ResponseJsonSchema(last.1).Some? then 1 else 0)
  }

  lemma {:induction false} ResponseDefinitionsCount(base: string, rs: seq<(string, Response)>)
    ensures |ResponseDefinitions(base, rs)| == SuccessBodies(rs)
  {
    if rs != [] {
      ResponseDefinitionsCount(base, rs[..|rs| - 1]);
    }
  }

  lemma {:induction false} SuccessBodiesAtLeast(rs: seq<(string, Response)>, i: nat, j: nat)
    requires i < j < |rs|
    requires IsSuccessCode(rs[i].0) && ResponseJsonSchema(rs[i].1).Some?
    requires IsSuccessCode(rs[j].0) && ResponseJsonSchema(rs[j].1).Some?
    ensures SuccessBodies(rs) >= 2
  {
    var init := rs[..|rs| - 1];
    if j < |rs| - 1 {
      assert init[i] == rs[i] && init[j] == rs[j];
      SuccessBodiesAtLeast(init, i, j);
    } else {
      assert init[i] == rs[i];
      SuccessBodiesAtLeastOne(init, i);
    }
  }

  lemma {:induction false} SuccessBodiesAtLeastOne(rs: seq<(string, Response)>, i: nat)
    requires i < |rs|
    requires IsSuccessCode(rs[i].0) && ResponseJsonSchema(rs[i].1).Some?
    ensures SuccessBodies(rs) >= 1
  {
    if i < |rs| - 1 {
      var init := rs[..|rs| - 1];
      assert init[i] == rs[i];
      SuccessBodiesAtLeastOne(init, i);
    }
  }

  /**
    Two 2xx responses with JSON bodies give two interfaces with the same
    name `<base>Response`.
  */
  lemma {:induction false} DuplicateResponseInterfaces(base: string, rs: seq<(string, Response)>, i: nat, j: nat)
    requires i < j < |rs|
    requires IsSuccessCode(rs[i].0) && ResponseJsonSchema(rs[i].1).Some?
    requires IsSuccessCode(rs[j].0) && ResponseJsonSchema(rs[j].1).Some?
    ensures var r := ResponseDefinitions(base, rs);
      |r| >= 2 && r[0].0 == r[1].0 == base + "Response"
  {
    ResponseDefinitionsCount(base, rs);
    SuccessBodiesAtLeast(rs, i, j);
  }

  /** A name is referenced by the definitions iff some definition's schema references it. */
  lemma {:induction false} DefinitionRefsExactly(defs: seq<Definition>, y: string)
    ensures y in DefinitionRefs(defs) <==> exists i :: 0 <= i < |defs| && y in ReferencedNames(defs[i].1)
  {
    if defs != [] {
      var init := defs[..|defs| - 1];
      var n := |defs| - 1;
      DefinitionRefsExactly(init, y);
      assert DefinitionRefs(defs) == DefinitionRefs(init) + ReferencedNames(defs[n].1);
      if y in DefinitionRefs(defs) {
        if y in DefinitionRefs(init) {
          var i :| 0 <= i < |init| && y in ReferencedNames(init[i].1);
          assert defs[i] == init[i];
        } else {
          assert y in ReferencedNames(defs[n].1);
        }
      }
      if exists i :: 0 <= i < |defs| && y in ReferencedNames(defs[i].1) {
        var i :| 0 <= i < |defs| && y in ReferencedNames(defs[i].1);
        if i < n {
          assert defs[i] == init[i];
        }
      }
    }
  }

  /**
    The names to import are distinct, and a name is among them iff one of
    the emitted definitions references it; there is one import line each.
  */
  lemma {:induction false} ImportsExactlyReferenced(out: InterfaceDefinitions, defs: seq<Definition>, y: string)
    requires out.typesToImport == Dedup(DefinitionRefs(defs))
    requires out.imports == Join(ImportLines(out.typesToImport), "\n")
    ensures NoDup(out.typesToImport)
    ensures y in out.typesToImport <==> exists i :: 0 <= i < |defs| && y in ReferencedNames(defs[i].1)
    ensures |ImportLines(out.typesToImport)| == |out.typesToImport|
  {
    DefinitionRefsExactly(defs, y);
  }
}
