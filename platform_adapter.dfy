/**
  `AdapterGenerator` (src/generator/adapter.ts): writes one adapter file per
  endpoint from the template of the chosen platform, and records every
  endpoint it is asked for in its `routes` list.

  The `normalizeEndpoint` chain is `Util.NormalizeEndpoint` and the class's
  `toPascalCase` is `BaseAdapter.ToPascalCase`. The template root (an
  environment variable or the package directory), the rendering, the
  directory creation and the write are not modelled; reading the template
  is a parameter that may fail.
*/
module PlatformAdapter {
  import opened Wrappers
  import opened Text
  import opened Routes
  import Util
  import BaseAdapter
  import LegacyHandler

  /** `toPascalCase(normalizedEndpoint)`, the prefix of both class names. */
  function Prefix(endpoint: string): string {
    BaseAdapter.ToPascalCase(Util.NormalizeEndpoint(endpoint))
  }

  function ClassName(endpoint: string): string {
    Prefix(endpoint) + "Adapter"
  }

  function HandlerClassName(endpoint: string): string {
    Prefix(endpoint) + "Handler"
  }

  /** The template: `lambda.ejs`, `cloudflare.ejs`, and `express.ejs` for anything else. */
  function TemplateFile(platform: string): string {
    if platform == "lambda" then "lambda.ejs"
    else if platform == "cloudflare" then "cloudflare.ejs"
    else "express.ejs"
  }

  /** `path.join(outputPath, "adapters", normalizedEndpoint + ".ts")`. */
  function AdapterPath(outputPath: string, endpoint: string): seq<string> {
    [outputPath, "adapters", Util.NormalizeEndpoint(endpoint) + ".ts"]
  }

  /** What one call produces: the file, or the error of the template read. */
  function Output(outputPath: string, endpoint: string, platform: string, read: TemplateReader): Result<AdapterFile, string> {
    var templateFile := TemplateFile(platform);
    if read(templateFile).None? then Failure(TemplateError(templateFile))
    else Success(AdapterFile(ClassName(endpoint), HandlerClassName(endpoint), Util.NormalizeEndpoint(endpoint),
                             templateFile, AdapterPath(outputPath, endpoint)))
  }

  class AdapterGenerator {
    var routes: seq<RouteInfo>
    const outputPath: string

    constructor(outputPath: string)
      ensures this.outputPath == outputPath && routes == []
    {
      this.outputPath := outputPath;
      routes := [];
    }

    /**
      `generate(endpoint, methods, platform, capabilities)`: the route is
      pushed before the template is read, so it stays recorded when the
      read fails.
    */
    method Generate(endpoint: string, methodKeys: seq<string>, platform: string, read: TemplateReader)
      returns (r: Result<AdapterFile, string>)
      modifies this
      ensures routes == old(routes) + [Route(endpoint, methodKeys, platform)]
      ensures r == Output(outputPath, endpoint, platform, read)
    {
      var normalizedEndpoint := Util.NormalizeEndpoint(endpoint);
      var className := BaseAdapter.ToPascalCase(normalizedEndpoint) + "Adapter";
      var handlerClassName := BaseAdapter.ToPascalCase(normalizedEndpoint) + "Handler";
      var handlerFileName := normalizedEndpoint;
      routes := routes + [RouteInfo(endpoint, UpperAll(methodKeys), platform)];
      var templateFile :=
        if platform == "lambda" then "lambda.ejs"
        else if platform == "cloudflare" then "cloudflare.ejs"
        else "express.ejs";
      var template := read(templateFile);
      if template.None? {
        return Failure(TemplateError(templateFile));
      }
      var adapterFilePath := [outputPath, "adapters", normalizedEndpoint + ".ts"];
      r := Success(AdapterFile(className, handlerClassName, handlerFileName, templateFile, adapterFilePath));
    }

    /** `getRoutes()`: the collected list itself. */
    function GetRoutes(): (r: seq<RouteInfo>)
      reads this
      ensures r == routes
    {
      routes
    }
  }

  /** Each of the three platforms gets the template named after it; any other string gets Express's. */
  lemma {:induction false} TemplateNamedAfterPlatform(platform: string)
    ensures platform == "lambda" || platform == "cloudflare" || platform == "express" ==>
      TemplateFile(platform) == platform + ".ejs"
    ensures !(platform == "lambda" || platform == "cloudflare" || platform == "express") ==>
      TemplateFile(platform) == TemplateFile("express")
  {
  }

  /**
    The two class names share the Pascal-cased prefix and differ; the handler
    class is the one the single-file handler generator writes.
  */
  lemma {:induction false} ClassNames(endpoint: string)
    ensures var p := Prefix(endpoint);
      && ClassName(endpoint)[..|p|] == HandlerClassName(endpoint)[..|p|] == p
      && ClassName(endpoint) != HandlerClassName(endpoint)
      && HandlerClassName(endpoint) == LegacyHandler.ClassName(endpoint)
  {
    var p := Prefix(endpoint);
    assert ClassName(endpoint)[|p|] == 'A';
    assert HandlerClassName(endpoint)[|p|] == 'H';
  }

  /**
    A call fails exactly when the template cannot be read; on success the
    handler file name is the normalised endpoint, a flat lower-case name,
    and the adapter is written under `adapters/` with that name.
  */
  lemma {:induction false} OutputCases(outputPath: string, endpoint: string, platform: string, read: TemplateReader)
    ensures Output(outputPath, endpoint, platform, read).Failure? <==> read(TemplateFile(platform)).None?
    ensures Output(outputPath, endpoint, platform, read).Success? ==>
      var f := Output(outputPath, endpoint, platform, read).value;
      && '/' !in f.handlerFileName && IsLowerCase(f.handlerFileName)
      && f.outputPath == [outputPath, "adapters", f.handlerFileName + ".ts"]
      && f.handlerFileName + ".ts" == LegacyHandler.FileName(endpoint)
  {
  }
}
