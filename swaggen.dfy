/**
  The runtime value objects the generated services build on
  (experiment/lambda/src/service/users_userid/swaggen.ts): `SwaggenRequest`,
  `SwaggenResponse` and the fixed-status replies of `SwaggenHandler`.

  Header records are maps from lower-cased names to values. A record handed
  in from outside is the sequence of its `Object.entries`, in iteration
  order, so that a later key that collides ignoring case can overwrite an
  earlier one. URL parsing, body parsing and schema validation, logging and
  the `Promise` wrapping are not modelled; the query-parameter lookup that
  rests on the parsed URL is a parameter.
*/
module Swaggen {
  import opened Wrappers
  import opened Text

  type Headers = map<string, string>

  // ---------------------------------------------------------------------------
  // Header records

  /** The header records after `normalizeHeaders(entries)`: keys lower-cased, each written in turn. */
  function Normalized(entries: seq<(string, string)>): Headers {
    if entries == [] then map[]
    else
      var last := entries[|entries| - 1];
      Normalized(entries[..|entries| - 1])[Lower(last.0) := last.1]
  }

  /** A name is in the normalised record exactly when some entry's key lowers to it. */
  lemma {:induction false} NormalizedKeys(entries: seq<(string, string)>, key: string)
    ensures key in Normalized(entries) <==> exists i :: 0 <= i < |entries| && Lower(entries[i].0) == key
  {
    if entries != [] {
      var init := entries[..|entries| - 1];
      NormalizedKeys(init, key);
      if exists i :: 0 <= i < |init| && Lower(init[i].0) == key {
        var i :| 0 <= i < |init| && Lower(init[i].0) == key;
        assert entries[i] == init[i];
      }
      if key !in Normalized(init) && key in Normalized(entries) {
        assert Lower(entries[|entries| - 1].0) == key;
      }
      if exists i :: 0 <= i < |entries| && Lower(entries[i].0) == key {
        var i :| 0 <= i < |entries| && Lower(entries[i].0) == key;
        if i < |init| {
          assert init[i] == entries[i];
        }
      }
    }
  }

  /**
    Among entries whose keys collide ignoring case, the last one in iteration
    order gives the value.
  */
  lemma {:induction false} NormalizedLastWins(entries: seq<(string, string)>, i: nat)
    requires i < |entries|
    requires forall j :: i < j < |entries| ==> Lower(entries[j].0) != Lower(entries[i].0)
    ensures Lower(entries[i].0) in Normalized(entries)
    ensures Normalized(entries)[Lower(entries[i].0)] == entries[i].1
  {
    var init := entries[..|entries| - 1];
    if i < |init| {
      assert init[i] == entries[i];
      forall j | i < j < |init| ensures Lower(init[j].0) != Lower(init[i].0) {
        assert init[j] == entries[j];
      }
      NormalizedLastWins(init, i);
    }
  }

  /** `getHeader(name)`: the value under the lower-cased name, with a missing header and `""` both `null`. */
  function Lookup(headers: Headers, name: string): (r: Option<string>)
    ensures r.Some? <==> Lower(name) in headers && headers[Lower(name)] != ""
    ensures r.Some? ==> r.value == headers[Lower(name)]
  {
    var key := Lower(name);
    if key in headers && headers[key] != "" then Some(headers[key]) else None
  }

  /** A lookup ignores the case of the name it is given. */
  lemma {:induction false} LookupIgnoresCase(headers: Headers, name: string)
    ensures Lookup(headers, name) == Lookup(headers, Lower(name)) == Lookup(headers, Upper(name))
  {
    LowerIsLowerCase(name);
    UpperIsUpperCase(name);
  }

  /**
    After `setHeader(n, v)`, a lookup by any name equal to `n` ignoring case
    gives `v` (or `null` when `v` is `""`); a lookup by any other name is as before.
  */
  lemma {:induction false} LookupAfterSet(headers: Headers, name: string, value: string, other: string)
    ensures Lower(other) == Lower(name) ==>
      Lookup(headers[Lower(name) := value], other) == if value == "" then None else Some(value)
    ensures Lower(other) != Lower(name) ==>
      Lookup(headers[Lower(name) := value], other) == Lookup(headers, other)
  {
  }

  /** Every key of the record is lower-case, so that lookups can find it. */
  predicate LowerKeys(headers: Headers) {
    forall k :: k in headers ==> IsLowerCase(k)
  }

  /** Writing entries one by one over a record is the record overridden by the normalised entries. */
  lemma {:induction false} NormalizedStep(headers: Headers, entries: seq<(string, string)>, i: nat)
    requires i < |entries|
    ensures (headers + Normalized(entries[..i]))[Lower(entries[i].0) := entries[i].1]
      == headers + Normalized(entries[..i + 1])
  {
    assert entries[..i + 1][..i] == entries[..i];
  }

  // ---------------------------------------------------------------------------
  // Status codes

  /** `validateStatusCode`: a code outside 100..599 becomes 500; one inside is kept. */
  function ValidStatus(code: int): (r: int)
    ensures 100 <= r <= 599
    ensures 100 <= code <= 599 ==> r == code
    ensures !(100 <= code <= 599) ==> r == 500
  {
    if code < 100 || code > 599 then 500 else code
  }

  /** Validation changes nothing a second time. */
  lemma {:induction false} ValidStatusIdempotent(code: int)
    ensures ValidStatus(ValidStatus(code)) == ValidStatus(code)
  {
  }

  // ---------------------------------------------------------------------------
  // Requests

  const ContentType: string := "Content-Type"
  const ContentTypeKey: string := "content-type"
  const Json: string := "application/json"
  const PlainText: string := "text/plain"
  const Html: string := "text/html"

  /** `setHeader` stores the content type under `content-type`. */
  lemma {:induction false} ContentTypeLowered()
    ensures Lower(ContentType) == ContentTypeKey
  {
    LowerCharwise(ContentType, ContentTypeKey);
  }

  /** `getQueryParamAsBoolean`, given what `getQueryParam(name)` gave. */
  function QueryBoolean(value: Option<string>): (r: Option<bool>)
    ensures r == Some(true) <==> value == Some("true")
    ensures r == Some(false) <==> value == Some("false")
    ensures r == None <==> value != Some("true") && value != Some("false")
  {
    if value == Some("true") then Some(true)
    else if value == Some("false") then Some(false)
    else None
  }

  class SwaggenRequest<B> {
    var httpMethod: string
    var headers: Headers
    var body: B
    var url: string

    /** The method is stored upper-cased and the headers normalised. */
    constructor(httpMethod: string, headers: seq<(string, string)> := [], body: B, url: string := "")
      ensures this.httpMethod == Upper(httpMethod) && IsUpperCase(this.httpMethod)
      ensures this.headers == Normalized(headers) && LowerKeys(this.headers)
      ensures this.body == body && this.url == url
    {
      this.httpMethod := Upper(httpMethod);
      UpperIsUpperCase(httpMethod);
      var normalized := NormalizeHeaders(headers);
      this.headers := normalized;
      this.body := body;
      this.url := url;
    }

    /** `getHeader(name)`. */
    function GetHeader(name: string): (r: Option<string>)
      reads this
      ensures r == Lookup(headers, name)
    {
      Lookup(headers, name)
    }
  }

  /** `normalizeHeaders`: the entries written one by one into an empty record. */
  method NormalizeHeaders(entries: seq<(string, string)>) returns (r: Headers)
    ensures r == Normalized(entries)
    ensures LowerKeys(r)
  {
    r := map[];
    for i := 0 to |entries|
      invariant r == map[] + Normalized(entries[..i])
      invariant LowerKeys(r)
    {
      var (key, value) := entries[i];
      NormalizedStep(map[], entries, i);
      LowerIsLowerCase(key);
      r := r[Lower(key) := value];
    }
    assert entries[..|entries|] == entries;
    assert map[] + Normalized(entries) == Normalized(entries);
  }

  // ---------------------------------------------------------------------------
  // Responses

  /** What a response carries: the initial `null`, a JSON value, a string, or `{ error: message }`. */
  datatype Body<T> = NullBody | Data(data: T) | Text(text: string) | ErrorObject(error: string)

  class SwaggenResponse<T> {
    var statusCode: int
    var headers: Headers
    var body: Body<T>

    /** The response's invariant: a standard status code and lower-case header names. */
    predicate Valid()
      reads this
    {
      100 <= statusCode <= 599 && LowerKeys(headers)
    }

    constructor(statusCode: int := 200, headers: seq<(string, string)> := [], body: Body<T> := NullBody)
      ensures Valid()
      ensures this.statusCode == ValidStatus(statusCode)
      ensures this.headers == Normalized(headers)
      ensures this.body == body
    {
      this.statusCode := ValidStatus(statusCode);
      var normalized := NormalizeHeaders(headers);
      this.headers := normalized;
      this.body := body;
    }

    /** `setStatus(code)`. */
    method SetStatus(code: int)
      modifies this
      requires Valid()
      ensures Valid()
      ensures statusCode == ValidStatus(code)
      ensures headers == old(headers) && body == old(body)
    {
      statusCode := ValidStatus(code);
    }

    /** `setHeader(name, value)`: the value goes under the lower-cased name. */
    method SetHeader(name: string, value: string)
      modifies this
      requires Valid()
      ensures Valid()
      ensures headers == old(headers)[Lower(name) := value]
      ensures statusCode == old(statusCode) && body == old(body)
    {
      LowerIsLowerCase(name);
      headers := headers[Lower(name) := value];
    }

    /** `setHeaders(entries)`: each entry through `setHeader`, so later entries win. */
    method SetHeaders(entries: seq<(string, string)>)
      modifies this
      requires Valid()
      ensures Valid()
      ensures headers == old(headers) + Normalized(entries)
      ensures statusCode == old(statusCode) && body == old(body)
    {
      for i := 0 to |entries|
        invariant Valid()
        invariant headers == old(headers) + Normalized(entries[..i])
        invariant statusCode == old(statusCode) && body == old(body)
      {
        var (key, value) := entries[i];
        NormalizedStep(old(headers), entries, i);
        SetHeader(key, value);
      }
      assert entries[..|entries|] == entries;
    }

    /** `getHeader(name)`. */
    function GetHeader(name: string): (r: Option<string>)
      reads this
      ensures r == Lookup(headers, name)
    {
      Lookup(headers, name)
    }

    /** `setHeader("Content-Type", mime)`, as every `send*` does it. */
    method SetContentType(mime: string)
      modifies this
      requires Valid()
      ensures Valid()
      ensures headers == old(headers)[ContentTypeKey := mime]
      ensures statusCode == old(statusCode) && body == old(body)
    {
      ContentTypeLowered();
      SetHeader(ContentType, mime);
    }

    /** `sendJson(body)`: the JSON content type and the body; the status is kept. */
    method SendJson(data: T)
      modifies this
      requires Valid()
      ensures Valid()
      ensures headers == old(headers)[ContentTypeKey := Json] && body == Data(data)
      ensures statusCode == old(statusCode)
    {
      SetContentType(Json);
      body := Data(data);
    }

    /** `sendText(body)`: the plain-text content type and the body; the status is kept. */
    method SendText(text: string)
      modifies this
      requires Valid()
      ensures Valid()
      ensures headers == old(headers)[ContentTypeKey := PlainText] && body == Text(text)
      ensures statusCode == old(statusCode)
    {
      SetContentType(PlainText);
      body := Text(text);
    }

    /** `sendHtml(body)`: the HTML content type and the body; the status is kept. */
    method SendHtml(html: string)
      modifies this
      requires Valid()
      ensures Valid()
      ensures headers == old(headers)[ContentTypeKey := Html] && body == Text(html)
      ensures statusCode == old(statusCode)
    {
      SetContentType(Html);
      body := Text(html);
    }

    /** `sendError(message, code = 500)`: the validated code, the JSON content type and `{ error: message }`. */
    method SendError(message: string, code: int := 500)
      modifies this
      requires Valid()
      ensures Valid()
      ensures statusCode == ValidStatus(code)
      ensures headers == old(headers)[ContentTypeKey := Json] && body == ErrorObject(message)
    {
      SetStatus(code);
      SetContentType(Json);
      body := ErrorObject(message);
    }
  }

  /** After any `send*`, the content type reads back under any spelling of its name. */
  lemma {:induction false} ContentTypeAfterSend(headers: Headers, mime: string, name: string)
    requires mime == Json || mime == PlainText || mime == Html
    requires Lower(name) == ContentTypeKey
    ensures Lookup(headers[ContentTypeKey := mime], name) == Some(mime)
  {
    assert mime[0] != ' ';
  }

  // ---------------------------------------------------------------------------
  // The handler's fixed replies

  /** The seven methods a `SwaggenHandler` answers by default. */
  datatype Verb = GET | POST | PUT | DELETE | PATCH | HEAD | OPTIONS

  function VerbName(v: Verb): string {
    match v
    case GET => "GET"
    case POST => "POST"
    case PUT => "PUT"
    case DELETE => "DELETE"
    case PATCH => "PATCH"
    case HEAD => "HEAD"
    case OPTIONS => "OPTIONS"
  }

  /** The replies of the handler's protected helpers. */
  datatype Reply =
    | MethodNotImplemented(verb: string)
    | BadRequest
    | Unauthorized
    | Forbidden
    | NotFound
    | Conflict
    | UnprocessableEntity
    | InternalServerError
    | ServiceUnavailable

  /** The status of each reply. */
  function StatusOf(reply: Reply): int {
    match reply
    case MethodNotImplemented(_) => 501
    case BadRequest => 400
    case Unauthorized => 401
    case Forbidden => 403
    case NotFound => 404
    case Conflict => 409
    case UnprocessableEntity => 422
    case InternalServerError => 500
    case ServiceUnavailable => 503
  }

  /** The message a helper uses when it is given none. */
  function DefaultMessage(reply: Reply): string {
    match reply
    case MethodNotImplemented(m) => m + " method not implemented"
    case BadRequest => "Bad Request"
    case Unauthorized => "Unauthorized"
    case Forbidden => "Forbidden"
    case NotFound => "Not Found"
    case Conflict => "Conflict"
    case UnprocessableEntity => "Unprocessable Entity"
    case InternalServerError => "Internal Server Error"
    case ServiceUnavailable => "Service Unavailable"
  }

  /** The error message of a reply: the given message, else the default; `methodNotImplemented` takes none. */
  function ErrorMessage(reply: Reply, message: Option<string>): (r: string)
    ensures reply.MethodNotImplemented? ==> r == reply.verb + " method not implemented"
    ensures !reply.MethodNotImplemented? && message.Some? ==> r == message.value
    ensures !reply.MethodNotImplemented? && message.None? ==> r == DefaultMessage(reply)
  {
    if reply.MethodNotImplemented? then DefaultMessage(reply) else message.GetOr(DefaultMessage(reply))
  }

  /**
    The statuses are standard error codes, one per kind of reply: two replies
    share a status exactly when they are of the same kind, and only
    `methodNotImplemented` is a 501.
  */
  lemma {:induction false} StatusesDistinct(a: Reply, b: Reply)
    ensures 400 <= StatusOf(a) <= 599 && ValidStatus(StatusOf(a)) == StatusOf(a)
    ensures StatusOf(a) == StatusOf(b) <==> a.MethodNotImplemented? == b.MethodNotImplemented? && (a.MethodNotImplemented? || a == b)
    ensures StatusOf(a) == 501 <==> a.MethodNotImplemented?
  {
  }

  /** A helper's response: its fixed status, the JSON content type and `{ error: message }`. */
  method ErrorResponse<T>(reply: Reply, message: Option<string>) returns (r: SwaggenResponse<T>)
    ensures fresh(r) && r.Valid()
    ensures r.statusCode == StatusOf(reply)
    ensures r.headers == map[ContentTypeKey := Json]
    ensures r.body == ErrorObject(ErrorMessage(reply, message))
  {
    StatusesDistinct(reply, reply);
    ContentTypeLowered();
    assert [(ContentType, Json)][..0] == [];
    r := new SwaggenResponse(StatusOf(reply), [(ContentType, Json)], ErrorObject(ErrorMessage(reply, message)));
  }

  /** `get`, `post`, ... of the base handler: a 501 naming the method. */
  method DefaultHandler<T>(verb: Verb) returns (r: SwaggenResponse<T>)
    ensures fresh(r) && r.Valid()
    ensures r.statusCode == 501
    ensures r.headers == map[ContentTypeKey := Json]
    ensures r.body == ErrorObject(VerbName(verb) + " method not implemented")
  {
    r := ErrorResponse(MethodNotImplemented(VerbName(verb)), None);
  }
}
