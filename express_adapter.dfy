/**
  `ExpressAdapterGenerator` (src/generator/adapter/express.adapter.ts): the
  Lambda generator's twin, with `express.ejs` and the `express` platform.
  Its names and its output path are the same expressions as the Lambda
  generator's (`LambdaAdapter.ClassName`, `HandlerClassName`, `AdapterPath`).
*/
module ExpressAdapter {
  import opened Wrappers
  import opened Text
  import opened Routes
  import Util
  import LambdaAdapter

  const Platform: string := "express"
  const Template: string := "express.ejs"

  class ExpressAdapterGenerator {
    var routes: seq<RouteInfo>
    const outputPath: string

    constructor(outputPath: string)
      ensures this.outputPath == outputPath && routes == []
    {
      this.outputPath := outputPath;
      routes := [];
    }

    /** `generate(endpoint, methods, capabilities)`: the route is pushed before the template is read. */
    method Generate(endpoint: string, methodKeys: seq<string>, read: TemplateReader)
      returns (r: Result<AdapterFile, string>)
      modifies this
      ensures routes == old(routes) + [Route(endpoint, methodKeys, Platform)]
      ensures r == LambdaAdapter.Output(outputPath, endpoint, Template, read)
    {
      var normalizedEndpoint := Util.NormalizeEndpoint(endpoint);
      var className := Util.ToPascalCase(normalizedEndpoint) + "Adapter";
      var handlerClassName := Util.ToPascalCase(normalizedEndpoint) + "Handler";
      var handlerFileName := normalizedEndpoint;
      routes := routes + [RouteInfo(endpoint, UpperAll(methodKeys), Platform)];
      var template := read(Template);
      if template.None? {
        return Failure(TemplateError(Template));
      }
      var adapterFilePath := [outputPath, normalizedEndpoint, "adapter.ts"];
      r := Success(AdapterFile(className, handlerClassName, handlerFileName, Template, adapterFilePath));
    }

    /** `getRoutes()`: the collected list itself. */
    function GetRoutes(): (r: seq<RouteInfo>)
      reads this
      ensures r == routes
    {
      routes
    }
  }

  /**
    With the same template reader, an Express and a Lambda adapter for one
    endpoint differ in their template only: same names, same path.
  */
  lemma {:induction false} SameFileAsLambda(outputPath: string, endpoint: string, read: TemplateReader)
    requires read(Template).Some? && read(LambdaAdapter.Template).Some?
    ensures var e := LambdaAdapter.Output(outputPath, endpoint, Template, read);
      var l := LambdaAdapter.Output(outputPath, endpoint, LambdaAdapter.Template, read);
      && e.Success? && l.Success?
      && e.value.templateFile != l.value.templateFile
      && e.value == l.value.(templateFile := Template)
  {
    assert Template[0] != LambdaAdapter.Template[0];
  }
}
