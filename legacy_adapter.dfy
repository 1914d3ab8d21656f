/**
  `AdapterGenerator` (src/adapter-generator.ts): the older adapter
  generator, with no route list. Its endpoint normalisation and
  `toPascalCase` are the same expressions as those of src/generator/adapter.ts,
  so the class names and the output path are `PlatformAdapter`'s; only the
  template choice differs.
*/
module LegacyAdapter {
  import opened Wrappers
  import opened Text
  import opened Routes
  import Util
  import PlatformAdapter
  import LegacyHandler

  /** The template: `lambda.ejs` for Lambda, `cloudflare.ejs` for anything else. */
  function TemplateFile(platform: string): string {
    if platform == "lambda" then "lambda.ejs" else "cloudflare.ejs"
  }

  /**
    `generate(endpoint, methods, platform, capabilities)`: the file, or the
    error of the template read.
  */
  function Generate(outputPath: string, endpoint: string, platform: string, read: TemplateReader): Result<AdapterFile, string> {
    var normalizedEndpoint := Util.NormalizeEndpoint(endpoint);
    var templateFile := TemplateFile(platform);
    if read(templateFile).None? then Failure(TemplateError(templateFile))
    else Success(AdapterFile(PlatformAdapter.ClassName(endpoint), PlatformAdapter.HandlerClassName(endpoint),
                             normalizedEndpoint, templateFile, [outputPath, "adapters", normalizedEndpoint + ".ts"]))
  }

  /**
    Against src/generator/adapter.ts: the same template for `lambda` and
    `cloudflare`, but `cloudflare.ejs` where that one picks `express.ejs`,
    for `express` and for any other string.
  */
  lemma {:induction false} TemplateAgainstPlatformAdapter(platform: string)
    ensures platform == "lambda" || platform == "cloudflare" ==>
      TemplateFile(platform) == PlatformAdapter.TemplateFile(platform)
    ensures !(platform == "lambda" || platform == "cloudflare") ==>
      TemplateFile(platform) == "cloudflare.ejs" && PlatformAdapter.TemplateFile(platform) == "express.ejs"
  {
  }

  /**
    Whenever both read their template, the two generators write the same
    names to the same path; the handler it names is the class and file the
    single-file handler generator writes.
  */
  lemma {:induction false} OutputAgainstPlatformAdapter(outputPath: string, endpoint: string, platform: string, read: TemplateReader)
    requires Generate(outputPath, endpoint, platform, read).Success?
    requires PlatformAdapter.Output(outputPath, endpoint, platform, read).Success?
    ensures var a := Generate(outputPath, endpoint, platform, read).value;
      var b := PlatformAdapter.Output(outputPath, endpoint, platform, read).value;
      && a.className == b.className && a.handlerClassName == b.handlerClassName
      && a.handlerFileName == b.handlerFileName && a.outputPath == b.outputPath
      && a.handlerClassName == LegacyHandler.ClassName(endpoint)
      && a.handlerFileName + ".ts" == LegacyHandler.FileName(endpoint)
  {
    PlatformAdapter.ClassNames(endpoint);
  }

  /** A call fails exactly when the chosen template cannot be read. */
  lemma {:induction false} GenerateFails(outputPath: string, endpoint: string, platform: string, read: TemplateReader)
    ensures Generate(outputPath, endpoint, platform, read).Failure? <==> read(TemplateFile(platform)).None?
    ensures Generate(outputPath, endpoint, platform, read).Failure? ==>
      Generate(outputPath, endpoint, platform, read).error == TemplateError(TemplateFile(platform))
  {
  }
}
