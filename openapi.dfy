/**
  The parts of an OpenAPI 3 document the generators read, as values.

  A schema is one record, as a JavaScript object is: `$ref` may sit beside the
  other keys. A string-valued key that is absent is the empty string, since
  the generators only ever test such keys with `===` against a non-empty
  literal or with `||`, where `undefined` and `""` behave alike. Key/value
  collections whose order the generators observe (`Object.entries`) are
  sequences of pairs in enumeration order.
*/
module OpenApi {
  import opened Wrappers

  /** `properties`: absent, or the entries in enumeration order. */
  datatype Properties = NoProperties | Properties(entries: seq<(string, Schema)>)

  /** `allOf`: absent, or the member schemas in order. */
  datatype Composition = NoAllOf | AllOf(members: seq<Schema>)

  datatype Schema = Schema(
    ref: Option<string>,
    typ: string,
    format: string,
    pattern: string,
    enumValues: Option<seq<string>>,
    properties: Properties,
    required: Option<seq<string>>,
    items: Option<Schema>,
    allOf: Composition)

  /** `"$ref" in schema`, `schema.$ref !== undefined`. */
  predicate HasRef(s: Schema) {
    s.ref.Some?
  }

  /** `if (schema.$ref)`: present and not the empty string. */
  predicate HasTruthyRef(s: Schema) {
    s.ref.Some? && s.ref.value != []
  }

  /** `schema.required && schema.required.includes(name)`. */
  predicate IsRequired(s: Schema, name: string) {
    s.required.Some? && name in s.required.value
  }

  datatype Parameter =
    | ParameterRef(refPath: string)
    | Parameter(name: string, location: string, required: bool, schema: Option<Schema>)

  datatype MediaType = MediaType(schema: Option<Schema>)

  type Content = map<string, MediaType>

  datatype RequestBody = RequestBody(content: Content)

  datatype Response = Response(description: string, content: Option<Content>)

  datatype Operation = Operation(
    operationId: string,
    parameters: Option<seq<Parameter>>,
    requestBody: Option<RequestBody>,
    responses: seq<(string, Response)>)

  /** `content["application/json"]?.schema`, when both are present. */
  function JsonSchema(content: Content): Option<Schema> {
    if "application/json" in content then content["application/json"].schema else None
  }

  /** The JSON schema of an operation's request body, if it has one. */
  function RequestJsonSchema(op: Operation): Option<Schema> {
    if op.requestBody.Some? then JsonSchema(op.requestBody.value.content) else None
  }

  /** `response.content?.["application/json"]?.schema`. */
  function ResponseJsonSchema(r: Response): Option<Schema> {
    if r.content.Some? then JsonSchema(r.content.value) else None
  }

  /**
    Helpers the generators import from a `util` module whose text is not part
    of this model (`getMethodName`, `extractEntityName`, `extractRefType`,
    `getResponseTypeName`, `extractClassNameFromEndpoint`), and the
    `pluralize.singular` library function. They are parameters: nothing is
    assumed about them.
  */
  datatype Externals = Externals(
    getMethodName: (string, string) -> string,
    extractEntityName: string -> string,
    extractRefType: string -> string,
    getResponseTypeName: (string, string) -> string,
    extractClassNameFromEndpoint: string -> string,
    singular: string -> string)
}
