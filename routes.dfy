/**
  The route record the adapter generators collect for the linker and the
  deployment generators (`RouteInfo`, declared in src/generator/adapter.ts
  and in a `types` module of the adapter directory whose text is not part of
  this model), and what the adapter generators hand to the adapter template.
*/
module Routes {
  import opened Wrappers
  import opened Text

  /** One collected route: the endpoint as given, its methods upper-cased, the platform. */
  datatype RouteInfo = RouteInfo(endpoint: string, methods: seq<string>, platform: string)

  /** `methodKeys.map((method) => method.toUpperCase())`. */
  function UpperAll(keys: seq<string>): seq<string> {
    seq(|keys|, i requires 0 <= i < |keys| => Upper(keys[i]))
  }

  /** The record one `generate` call pushes. */
  function Route(endpoint: string, keys: seq<string>, platform: string): RouteInfo {
    RouteInfo(endpoint, UpperAll(keys), platform)
  }

  /**
    A route lists one method per key, in key order: each is upper-case, is
    its key ignoring case, and upper-casing the list again changes nothing.
  */
  lemma {:induction false} RouteMethods(keys: seq<string>)
    ensures |UpperAll(keys)| == |keys|
    ensures forall i :: 0 <= i < |keys| ==>
      IsUpperCase(UpperAll(keys)[i]) && Lower(UpperAll(keys)[i]) == Lower(keys[i])
    ensures UpperAll(UpperAll(keys)) == UpperAll(keys)
  {
    var u := UpperAll(keys);
    forall i | 0 <= i < |keys|
      ensures IsUpperCase(u[i]) && Lower(u[i]) == Lower(keys[i]) && Upper(u[i]) == u[i]
    {
      UpperIsUpperCase(keys[i]);
    }
  }

  /**
    What an adapter generator passes to its template and where it writes the
    result: the class names, the handler's file name, the template file and
    the output path as the segments given to `path.join`.
  */
  datatype AdapterFile = AdapterFile(
    className: string,
    handlerClassName: string,
    handlerFileName: string,
    templateFile: string,
    outputPath: seq<string>)

  /**
    Reading a template file: its text, or `None` when `readFileSync` throws.
    The rendering of the template is not part of this model.
  */
  type TemplateReader = string -> Option<string>

  /**
    The error `generate` rejects with when the template cannot be read. The
    source rejects with whatever `readFileSync` throws; this text stands in
    for that error, whose message is not part of this model.
  */
  function TemplateError(templateFile: string): string {
    "cannot read template " + templateFile
  }
}
