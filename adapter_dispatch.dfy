/**
  `AdapterGenerator` (src/generator/adapter/adapter.generator.ts): hands
  each endpoint to the generator of its platform, then appends that
  generator's whole route list to its own.

  Because the sub-generator's list is cumulative, every call re-appends the
  routes of all earlier calls on that platform: after k calls on one
  platform the aggregate holds 1 + 2 + ... + k = k(k+1)/2 entries, with the
  first route repeated k times.

  The Cloudflare generator (src/generator/adapter/cloudflare.adapter.ts) is
  not part of this model: the outcome of its `generate` is a parameter,
  either the error it rejects with or its `getRoutes()` list afterwards.
*/
module AdapterDispatch {
  import opened Wrappers
  import opened Text
  import opened Routes
  import LambdaAdapter
  import ExpressAdapter

  /** The `Unsupported platform` error. */
  function UnsupportedPlatform(platform: string): string {
    "Unsupported platform: " + platform
  }

  predicate IsSupported(platform: string) {
    platform == "lambda" || platform == "cloudflare" || platform == "express"
  }

  class AdapterGenerator {
    var routes: seq<RouteInfo>
    const lambdaGenerator: LambdaAdapter.LambdaAdapterGenerator
    const expressGenerator: ExpressAdapter.ExpressAdapterGenerator

    constructor(outputPath: string)
      ensures routes == []
      ensures fresh(lambdaGenerator) && lambdaGenerator.routes == [] && lambdaGenerator.outputPath == outputPath
      ensures fresh(expressGenerator) && expressGenerator.routes == [] && expressGenerator.outputPath == outputPath
    {
      lambdaGenerator := new LambdaAdapter.LambdaAdapterGenerator(outputPath);
      expressGenerator := new ExpressAdapter.ExpressAdapterGenerator(outputPath);
      routes := [];
    }

    /**
      `generate(endpoint, methods, platform, capabilities)`. Only the chosen
      generator changes. When its template cannot be read, the error
      propagates after the sub-generator has recorded the route but before
      the aggregate appends anything.
    */
    method Generate(endpoint: string, methodKeys: seq<string>, platform: string, read: TemplateReader,
                    cloudflare: Result<seq<RouteInfo>, string>)
      returns (r: Result<(), string>)
      modifies this, lambdaGenerator, expressGenerator
      ensures !IsSupported(platform) ==> r == Failure(UnsupportedPlatform(platform)) && routes == old(routes)
      ensures platform != "lambda" ==> unchanged(lambdaGenerator)
      ensures platform != "express" ==> unchanged(expressGenerator)
      ensures platform == "lambda" ==>
        && lambdaGenerator.routes == old(lambdaGenerator.routes) + [Route(endpoint, methodKeys, LambdaAdapter.Platform)]
        && (r.Success? <==> read(LambdaAdapter.Template).Some?)
        && routes == if r.Success? then old(routes) + lambdaGenerator.routes else old(routes)
      ensures platform == "express" ==>
        && expressGenerator.routes == old(expressGenerator.routes) + [Route(endpoint, methodKeys, ExpressAdapter.Platform)]
        && (r.Success? <==> read(ExpressAdapter.Template).Some?)
        && routes == if r.Success? then old(routes) + expressGenerator.routes else old(routes)
      ensures platform == "cloudflare" ==>
        && (r.Success? <==> cloudflare.Success?)
        && (cloudflare.Failure? ==> r == Failure(cloudflare.error))
        && routes == if cloudflare.Success? then old(routes) + cloudflare.value else old(routes)
      ensures r.Failure? ==> routes == old(routes)
    {
      if platform == "lambda" {
        var res := lambdaGenerator.Generate(endpoint, methodKeys, read);
        if res.Failure? {
          return Failure(res.error);
        }
        routes := routes + lambdaGenerator.GetRoutes();
        r := Success(());
      } else if platform == "cloudflare" {
        if cloudflare.Failure? {
          return Failure(cloudflare.error);
        }
        routes := routes + cloudflare.value;
        r := Success(());
      } else if platform == "express" {
        var res := expressGenerator.Generate(endpoint, methodKeys, read);
        if res.Failure? {
          return Failure(res.error);
        }
        routes := routes + expressGenerator.GetRoutes();
        r := Success(());
      } else {
        r := Failure(UnsupportedPlatform(platform));
      }
    }

    /** `getRoutes()`: the aggregate list itself. */
    function GetRoutes(): (r: seq<RouteInfo>)
      reads this
      ensures r == routes
    {
      routes
    }
  }

  // ---------------------------------------------------------------------------
  // The aggregate after repeated calls on one platform

  /**
    The aggregate after successful calls on one platform whose generator has
    recorded `rs`, one route per call: the list of every prefix of `rs`.
  */
  function Accumulated(rs: seq<RouteInfo>): seq<RouteInfo> {
    if rs == [] then [] else Accumulated(rs[..|rs| - 1]) + rs
  }

  /**
    One more successful call keeps the aggregate equal to the accumulation of
    the sub-generator's list: it is what `Generate` appends.
  */
  lemma {:induction false} AccumulatedStep(rs: seq<RouteInfo>, route: RouteInfo)
    ensures Accumulated(rs + [route]) == Accumulated(rs) + (rs + [route])
  {
    assert (rs + [route])[..|rs|] == rs;
  }

  /** After k calls the aggregate holds k(k+1)/2 routes. */
  lemma {:induction false} AccumulatedLength(rs: seq<RouteInfo>)
    ensures |Accumulated(rs)| == |rs| * (|rs| + 1) / 2
  {
    if rs != [] {
      AccumulatedLength(rs[..|rs| - 1]);
    }
  }

  /** The aggregate after fewer calls is a prefix of the aggregate after more. */
  lemma {:induction false} AccumulatedPrefix(rs: seq<RouteInfo>, n: nat)
    requires n <= |rs|
    ensures |Accumulated(rs[..n])| <= |Accumulated(rs)|
    ensures Accumulated(rs)[..|Accumulated(rs[..n])|] == Accumulated(rs[..n])
  {
    if n < |rs| {
      var init := rs[..|rs| - 1];
      assert init[..n] == rs[..n];
      AccumulatedPrefix(init, n);
    } else {
      assert rs[..n] == rs;
    }
  }

  /** From the second call on, the aggregate starts with the first route twice. */
  lemma {:induction false} FirstRouteRepeated(rs: seq<RouteInfo>)
    requires |rs| >= 2
    ensures Accumulated(rs)[0] == Accumulated(rs)[1] == rs[0]
  {
    AccumulatedPrefix(rs, 2);
    var one, two := [rs[0]], rs[..2];
    assert two[..|two| - 1] == one;
    assert one[..|one| - 1] == [];
    assert Accumulated(one) == one;
    assert Accumulated(two) == one + two;
  }

  /** The first call's route occurs once per call, at the start of each call's block. */
  lemma {:induction false} FirstRouteCount(rs: seq<RouteInfo>)
    requires rs != []
    ensures multiset(Accumulated(rs))[rs[0]] >= |rs|
  {
    var init := rs[..|rs| - 1];
    if init != [] {
      FirstRouteCount(init);
      assert init[0] == rs[0];
    }
    assert Accumulated(rs) == Accumulated(init) + rs;
    assert rs[0] in multiset(rs);
  }
}
