/**
  `LambdaAdapterGenerator` (src/generator/adapter/lambda.adapter.ts): one
  adapter per endpoint from `lambda.ejs`, written to
  `<normalized>/adapter.ts`, with every endpoint recorded in `routes` under
  the `lambda` platform.

  It takes `toPascalCase` and `normalizeEndpoint` from `util.ts`
  (`Util.ToPascalCase`, which also removes white space, and
  `Util.NormalizeEndpoint`). The template path, the rendering and the write
  are not modelled; reading the template is a parameter that may fail.
*/
module LambdaAdapter {
  import opened Wrappers
  import opened Text
  import opened Routes
  import Util
  import BaseAdapter
  import PlatformAdapter

  /** `toPascalCase(normalizedEndpoint)` with the `util.ts` casing. */
  function Prefix(endpoint: string): string {
    Util.ToPascalCase(Util.NormalizeEndpoint(endpoint))
  }

  function ClassName(endpoint: string): string {
    Prefix(endpoint) + "Adapter"
  }

  function HandlerClassName(endpoint: string): string {
    Prefix(endpoint) + "Handler"
  }

  /** `path.join(outputPath, normalizedEndpoint, "adapter.ts")`. */
  function AdapterPath(outputPath: string, endpoint: string): seq<string> {
    [outputPath, Util.NormalizeEndpoint(endpoint), "adapter.ts"]
  }

  /** What one call on a generator for `templateFile` produces. */
  function Output(outputPath: string, endpoint: string, templateFile: string, read: TemplateReader): Result<AdapterFile, string> {
    if read(templateFile).None? then Failure(TemplateError(templateFile))
    else Success(AdapterFile(ClassName(endpoint), HandlerClassName(endpoint), Util.NormalizeEndpoint(endpoint),
                             templateFile, AdapterPath(outputPath, endpoint)))
  }

  const Platform: string := "lambda"
  const Template: string := "lambda.ejs"

  class LambdaAdapterGenerator {
    var routes: seq<RouteInfo>
    const outputPath: string

    constructor(outputPath: string)
      ensures this.outputPath == outputPath && routes == []
    {
      this.outputPath := outputPath;
      routes := [];
    }

    /** `generate(endpoint, methods, capabilities)`: the route is pushed before the template is read. */
    method Generate(endpoint: string, methodKeys: seq<string>, read: TemplateReader)
      returns (r: Result<AdapterFile, string>)
      modifies this
      ensures routes == old(routes) + [Route(endpoint, methodKeys, Platform)]
      ensures r == Output(outputPath, endpoint, Template, read)
    {
      var normalizedEndpoint := Util.NormalizeEndpoint(endpoint);
      var className := Util.ToPascalCase(normalizedEndpoint) + "Adapter";
      var handlerClassName := Util.ToPascalCase(normalizedEndpoint) + "Handler";
      var handlerFileName := normalizedEndpoint;
      routes := routes + [RouteInfo(endpoint, UpperAll(methodKeys), Platform)];
      var template := read(Template);
      if template.None? {
        return Failure(TemplateError(Template));
      }
      var adapterFilePath := [outputPath, normalizedEndpoint, "adapter.ts"];
      r := Success(AdapterFile(className, handlerClassName, handlerFileName, Template, adapterFilePath));
    }

    /** `getRoutes()`: the collected list itself. */
    function GetRoutes(): (r: seq<RouteInfo>)
      reads this
      ensures r == routes
    {
      routes
    }
  }

  /**
    Against src/generator/adapter.ts: without white space in the normalised
    endpoint the class names are the same; a white-space character there is
    kept by that generator and dropped by this one, so the names differ.
  */
  lemma {:induction false} NamesAgainstPlatformAdapter(endpoint: string)
    ensures !HasWhitespace(Util.NormalizeEndpoint(endpoint)) ==>
      ClassName(endpoint) == PlatformAdapter.ClassName(endpoint)
      && HandlerClassName(endpoint) == PlatformAdapter.HandlerClassName(endpoint)
    ensures HasWhitespace(Util.NormalizeEndpoint(endpoint)) ==>
      ClassName(endpoint) != PlatformAdapter.ClassName(endpoint)
      && HandlerClassName(endpoint) != PlatformAdapter.HandlerClassName(endpoint)
  {
    var n := Util.NormalizeEndpoint(endpoint);
    var p, q := Prefix(endpoint), PlatformAdapter.Prefix(endpoint);
    assert p == Util.ToPascalCase(n) && q == BaseAdapter.ToPascalCase(n);
    if HasWhitespace(n) {
      var i :| 0 <= i < |n| && IsSpace(n[i]);
      var c := n[i];
      BaseAdapter.UtilPascalDropsWhitespace(n, c);
      SuffixesHaveNoSpace();
      SuffixedDiffer(p, q, "Adapter", c);
      SuffixedDiffer(p, q, "Handler", c);
    } else {
      PascalWithoutWhitespace(n);
    }
  }

  lemma {:induction false} SuffixesHaveNoSpace()
    ensures forall i :: 0 <= i < |"Adapter"| ==> !IsSpace("Adapter"[i])
    ensures forall i :: 0 <= i < |"Handler"| ==> !IsSpace("Handler"[i])
  {
  }

  predicate HasWhitespace(s: string) {
    exists i :: 0 <= i < |s| && IsSpace(s[i])
  }

  /** A white-space character in one prefix and not in the other keeps the suffixed names apart. */
  lemma {:induction false} SuffixedDiffer(a: string, b: string, suffix: string, c: char)
    requires IsSpace(c) && c !in a && c in b
    requires forall i :: 0 <= i < |suffix| ==> !IsSpace(suffix[i])
    ensures a + suffix != b + suffix
  {
    var j :| 0 <= j < |b| && b[j] == c;
    assert (b + suffix)[j] == c;
    forall k | 0 <= k < |a + suffix| ensures (a + suffix)[k] != c {
      if k < |a| {
        assert a[k] in a;
      } else {
        assert (a + suffix)[k] == suffix[k - |a|];
      }
    }
  }

  /** Without white space, the two `toPascalCase`s agree. */
  lemma {:induction false} PascalWithoutWhitespace(s: string)
    requires forall i :: 0 <= i < |s| ==> !IsSpace(s[i])
    ensures Util.ToPascalCase(s) == BaseAdapter.ToPascalCase(s)
  {
    var w := BaseAdapter.ToPascalCase(s);
    forall i | 0 <= i < |w| ensures !IsSpace(w[i]) {
      if IsSpace(w[i]) {
        BaseAdapter.PascalKeepsWhitespace(s, w[i]);
      }
    }
  }

  /**
    The adapter goes to `<normalized>/adapter.ts`, not to
    `adapters/<normalized>.ts` as with src/generator/adapter.ts; the handler
    file name is the same normalised endpoint in both.
  */
  lemma {:induction false} PathAgainstPlatformAdapter(outputPath: string, endpoint: string)
    ensures AdapterPath(outputPath, endpoint) != PlatformAdapter.AdapterPath(outputPath, endpoint)
    ensures AdapterPath(outputPath, endpoint)[1] + ".ts" == PlatformAdapter.AdapterPath(outputPath, endpoint)[2]
  {
    var n := Util.NormalizeEndpoint(endpoint);
    assert "adapter.ts"[7] == '.';
    assert "adapters"[7] == 's';
  }
}
