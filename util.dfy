/**
  The casing, endpoint and reference helpers and the schema-to-type
  translation shared by the handler, proxy and stub generators.
*/
module Util {
  import opened Wrappers
  import opened Text
  import opened OpenApi

  // ---------------------------------------------------------------------------
  // Casing

  /**
    `toPascalCase`: upper-cases the first word character and every word
    character after a `_` (dropping that `_`), then removes all white space.
  */
  function ToPascalCase(s: string): (r: string)
    ensures forall i :: 0 <= i < |r| ==> !IsSpace(r[i])
    ensures |r| <= |s|
  {
    RemoveWhitespace(ReplaceWordStarts(s))
  }

  /** `capitalizeFirstLetter`: `""` stays `""`; otherwise only index 0 changes. */
  function CapitalizeFirstLetter(s: string): (r: string)
    ensures |r| == |s|
    ensures s != [] ==> r[0] == UpperChar(s[0]) && r[1..] == s[1..]
  {
    if s == [] then s else [UpperChar(s[0])] + s[1..]
  }

  /** Without `_` and white space, `toPascalCase` only capitalises the first letter. */
  lemma {:induction false} PascalIsCapitalizeWithoutSeparators(s: string)
    requires '_' !in s
    requires forall i :: 0 <= i < |s| ==> !IsSpace(s[i])
    ensures ToPascalCase(s) == CapitalizeFirstLetter(s)
  {
    WordStartsWithoutUnderscore(s);
    var w := ReplaceWordStarts(s);
    assert forall i :: 0 <= i < |w| ==> !IsSpace(w[i]) by {
      forall i | 0 <= i < |w| ensures !IsSpace(w[i]) {
        if i == 0 {
          assert w[0] == UpperChar(s[0]);
        } else {
          assert w[i] == s[i];
        }
      }
    }
  }

  /**
    A suffix with no `_` and no white space passes through `toPascalCase`
    unchanged, provided the string before it is non-empty and does not end
    in `_` (otherwise the suffix's first letter would pair with that `_`).
  */
  lemma {:induction false} PascalAppendSuffix(x: string, suffix: string)
    requires x != [] && x[|x| - 1] != '_'
    requires '_' !in suffix
    requires forall i :: 0 <= i < |suffix| ==> !IsSpace(suffix[i])
    ensures ToPascalCase(x + suffix) == ToPascalCase(x) + suffix
  {
    WordStartsAppend(x, suffix);
    RemoveWhitespaceAppend(ReplaceWordStarts(x), suffix);
  }

  // ---------------------------------------------------------------------------
  // Endpoint normalisation: `.replace(/^\//, "").replace(/\//g, "_")
  //   .replace(/[{}]/g, "").toLowerCase()`

  function DropLeadingSlash(s: string): string {
    if s != [] && s[0] == '/' then s[1..] else s
  }

  function SlashesToUnderscores(s: string): (r: string)
    ensures |r| == |s|
    ensures forall i :: 0 <= i < |s| ==> r[i] == if s[i] == '/' then '_' else s[i]
    ensures '/' !in s ==> r == s
  {
    if s == [] then [] else [if s[0] == '/' then '_' else s[0]] + SlashesToUnderscores(s[1..])
  }

  function RemoveBraces(s: string): (r: string)
    ensures '{' !in r && '}' !in r
    ensures forall c :: c in r ==> c in s
    ensures '{' !in s && '}' !in s ==> r == s
  {
    if s == [] then []
    else if s[0] == '{' || s[0] == '}' then RemoveBraces(s[1..])
    else [s[0]] + RemoveBraces(s[1..])
  }

  function NormalizeEndpoint(endpoint: string): (r: string)
    ensures '/' !in r && '{' !in r && '}' !in r
    ensures IsLowerCase(r)
  {
    var r := Lower(RemoveBraces(SlashesToUnderscores(DropLeadingSlash(endpoint))));
    assert forall c :: c in r ==> c != '/' && c != '{' && c != '}' by {
      var b := RemoveBraces(SlashesToUnderscores(DropLeadingSlash(endpoint)));
      forall c | c in r ensures c != '/' && c != '{' && c != '}' {
        var i :| 0 <= i < |r| && r[i] == c;
        assert b[i] in b;
        assert b[i] in SlashesToUnderscores(DropLeadingSlash(endpoint));
      }
    }
    r
  }

  /** Normalising a normalised endpoint changes nothing. */
  lemma {:induction false} NormalizeEndpointIdempotent(endpoint: string)
    ensures NormalizeEndpoint(NormalizeEndpoint(endpoint)) == NormalizeEndpoint(endpoint)
  {
    var n := NormalizeEndpoint(endpoint);
    assert n != [] ==> n[0] != '/' by {
      if n != [] { assert n[0] in n; }
    }
    assert DropLeadingSlash(n) == n;
    assert SlashesToUnderscores(n) == n by {
      forall i | 0 <= i < |n| ensures n[i] != '/' { assert n[i] in n; }
    }
    LowerOfLowerCase(n);
  }

  /**
    For an endpoint without braces, the result is the endpoint without one
    leading `/`, with every other `/` turned into `_` and letters lower-cased,
    character by character.
  */
  lemma {:induction false} NormalizeEndpointPointwise(endpoint: string)
    requires '{' !in endpoint && '}' !in endpoint
    ensures var lead := if endpoint != [] && endpoint[0] == '/' then 1 else 0;
      && |NormalizeEndpoint(endpoint)| == |endpoint| - lead
      && forall i :: 0 <= i < |endpoint| - lead ==>
           NormalizeEndpoint(endpoint)[i] ==
             (if endpoint[i + lead] == '/' then '_' else LowerChar(endpoint[i + lead]))
  {
    var d := DropLeadingSlash(endpoint);
    var u := SlashesToUnderscores(d);
    assert '{' !in u && '}' !in u by {
      forall i | 0 <= i < |u| ensures u[i] != '{' && u[i] != '}' {
        assert d[i] in endpoint;
      }
    }
  }

  lemma {:induction false} RemoveBracesAppend(a: string, b: string)
    ensures RemoveBraces(a + b) == RemoveBraces(a) + RemoveBraces(b)
  {
    if a == [] {
      assert a + b == b;
    } else {
      assert (a + b)[0] == a[0];
      assert (a + b)[1..] == a[1..] + b;
      RemoveBracesAppend(a[1..], b);
    }
  }

  // ---------------------------------------------------------------------------
  // References

  /**
    `extractRefName`: the last `/`-separated segment of a `$ref`, or
    `"UnknownType"` when that segment is empty.
  */
  function ExtractRefName(ref: string): (r: string)
    ensures r != [] && '/' !in r
    ensures ref == [] || ref[|ref| - 1] == '/' ==> r == "UnknownType"
    ensures ref != [] && ref[|ref| - 1] != '/' ==>
      |r| <= |ref| && ref[|ref| - |r|..] == r && (|r| == |ref| || ref[|ref| - |r| - 1] == '/')
  {
    var last := LastSegment(ref);
    if last == [] then "UnknownType" else last
  }

  // ---------------------------------------------------------------------------
  // Schema to TypeScript type (`resolveType`)

  /** One member of an anonymous object type: `name?: T;` or `name: T;`. */
  function PropertyLine(name: string, optional: bool, tsType: string): string {
    name + (if optional then "?" else "") + ": " + tsType + ";"
  }

  /** The TypeScript type `resolveType` returns for a schema; never `""`. */
  function TypeString(s: Schema): (r: string)
    ensures r != []
    decreases s, 1
  {
    if s.ref.Some? then ExtractRefName(s.ref.value)
    else if s.typ == "integer" || s.typ == "number" then "number"
    else if s.typ == "string" then "string"   // every format, `date-time` included
    else if s.typ == "boolean" then "boolean"
    else if s.typ == "array" then
      (if s.items.Some? then TypeString(s.items.value) + "[]" else "any[]")
    else if s.typ == "object" then
      (if s.properties.Properties? then "{ " + Join(PropertyLines(s, |s.properties.entries|), " ") + " }" else "Record<string, any>")
    else "any"
  }

  /** The members of an inline object type for the first `k` properties, in order. */
  function PropertyLines(s: Schema, k: nat): (r: seq<string>)
    requires s.properties.Properties? && k <= |s.properties.entries|
    ensures |r| == k
    decreases s, 0, k
  {
    if k == 0 then []
    else
      var p := s.properties.entries[k - 1];
      PropertyLines(s, k - 1) + [PropertyLine(p.0, !IsRequired(s, p.0), TypeString(p.1))]
  }

  /** Member `k` is the line of property `k`, whatever the prefix it is read from. */
  lemma {:induction false} PropertyLinesAt(s: Schema, k: nat, n: nat)
    requires s.properties.Properties? && k < n <= |s.properties.entries|
    ensures var p := s.properties.entries[k];
      PropertyLines(s, n)[k] == PropertyLine(p.0, !IsRequired(s, p.0), TypeString(p.1))
    decreases n
  {
    var init := PropertyLines(s, n - 1);
    var p := s.properties.entries[n - 1];
    var line := PropertyLine(p.0, !IsRequired(s, p.0), TypeString(p.1));
    assert PropertyLines(s, n) == init + [line];
    if k < n - 1 {
      assert (init + [line])[k] == init[k];
      PropertyLinesAt(s, k, n - 1);
    }
  }

  /**
    In the inline type of an object, each member starts with the property's
    name, followed by `?` exactly when the name is not in `required`.
  */
  lemma {:induction false} OptionalMarker(s: Schema, k: nat)
    requires s.properties.Properties? && k < |s.properties.entries|
    ensures var name := s.properties.entries[k].0;
      var line := PropertyLines(s, |s.properties.entries|)[k];
      && |name| < |line| && line[..|name|] == name
      && (line[|name|] == '?' <==> !IsRequired(s, name))
  {
    PropertyLinesAt(s, k, |s.properties.entries|);
    var p := s.properties.entries[k];
    PropertyLineMarker(p.0, !IsRequired(s, p.0), TypeString(p.1));
  }

  lemma {:induction false} PropertyLineMarker(name: string, optional: bool, tsType: string)
    ensures var line := PropertyLine(name, optional, tsType);
      |name| < |line| && line[..|name|] == name && (line[|name|] == '?' <==> optional)
  {
    var line := PropertyLine(name, optional, tsType);
    if optional {
      assert line == name + ("?" + ": " + tsType + ";");
    } else {
      assert line == name + (": " + tsType + ";");
    }
  }

  /**
    The names `resolveType` adds to its set, in the order it adds them: the
    `$ref` itself, or those of the items of an array, or those of the
    properties of an object, left to right.
  */
  function ReferencedNames(s: Schema): seq<string>
    decreases s, 1
  {
    if s.ref.Some? then [ExtractRefName(s.ref.value)]
    else if s.typ == "array" && s.items.Some? then ReferencedNames(s.items.value)
    else if s.typ == "object" && s.properties.Properties? then PropertyRefs(s, |s.properties.entries|)
    else []
  }

  /** The names referenced by the first `k` properties of an object schema. */
  function PropertyRefs(s: Schema, k: nat): seq<string>
    requires s.properties.Properties? && k <= |s.properties.entries|
    decreases s, 0, k
  {
    if k == 0 then []
    else
      PropertyRefs(s, k - 1) + ReferencedNames(s.properties.entries[k - 1].1)
  }

  /**
    `refName` can be reached from `s`: `s` is a reference with that name, or
    the items of an array or one of the properties of an object reach it.
  */
  predicate RefReachable(s: Schema, refName: string)
    decreases s
  {
    if s.ref.Some? then refName == ExtractRefName(s.ref.value)
    else if s.typ == "array" && s.items.Some? then RefReachable(s.items.value, refName)
    else if s.typ == "object" && s.properties.Properties? then
      exists k :: 0 <= k < |s.properties.entries| && RefReachable(s.properties.entries[k].1, refName)
    else false
  }

  /** The names `resolveType` collects are exactly the reachable reference names. */
  lemma {:induction false} ReferencedNamesReachable(s: Schema, refName: string)
    ensures refName in ReferencedNames(s) <==> RefReachable(s, refName)
    decreases s
  {
    if s.ref.None? {
      if s.typ == "array" && s.items.Some? {
        ReferencedNamesReachable(s.items.value, refName);
      } else if s.typ == "object" && s.properties.Properties? {
        var es := s.properties.entries;
        PropertyRefsAny(s, |es|, refName);
        forall j | 0 <= j < |es|
          ensures refName in ReferencedNames(es[j].1) <==> RefReachable(es[j].1, refName)
        {
          ReferencedNamesReachable(es[j].1, refName);
        }
      }
    }
  }

  /** A name is among the first `k` properties' references exactly when one of them lists it. */
  lemma {:induction false} PropertyRefsAny(s: Schema, k: nat, refName: string)
    requires s.properties.Properties? && k <= |s.properties.entries|
    ensures refName in PropertyRefs(s, k) <==>
      exists j :: 0 <= j < k && refName in ReferencedNames(s.properties.entries[j].1)
  {
    if k > 0 {
      var es := s.properties.entries;
      var before, last := PropertyRefs(s, k - 1), ReferencedNames(es[k - 1].1);
      PropertyRefsAny(s, k - 1, refName);
      assert PropertyRefs(s, k) == before + last;
      if refName in before {
        var j :| 0 <= j < k - 1 && refName in ReferencedNames(es[j].1);
        assert 0 <= j < k && refName in ReferencedNames(es[j].1);
      } else if refName in last {
        assert 0 <= k - 1 < k && refName in ReferencedNames(es[k - 1].1);
      }
      if exists j :: 0 <= j < k && refName in ReferencedNames(es[j].1) {
        var j :| 0 <= j < k && refName in ReferencedNames(es[j].1);
        if j < k - 1 {
          assert refName in before;
        } else {
          assert refName in last;
        }
      }
    }
  }

  /**
    `resolveType` only ever adds to the caller's set: what was there stays, in
    place, and afterwards the set holds exactly the old names and the
    reachable reference names, still without duplicates.
  */
  lemma {:induction false} ResolveTypeCollects(s: Schema, referenced: seq<string>, refName: string)
    ensures var r := SetAddAll(referenced, ReferencedNames(s));
      && |referenced| <= |r| && r[..|referenced|] == referenced
      && (refName in r <==> refName in referenced || RefReachable(s, refName))
      && (NoDup(referenced) ==> NoDup(r))
  {
    SetAddAllContents(referenced, ReferencedNames(s));
    ReferencedNamesReachable(s, refName);
  }

  /**
    `resolveType(schema, referencedTypes)`: returns the TypeScript type and
    adds to the caller's set the names of the references it meets.
  */
  method ResolveType(s: Schema, referenced: seq<string>) returns (t: string, referenced': seq<string>)
    ensures t == TypeString(s)
    ensures referenced' == SetAddAll(referenced, ReferencedNames(s))
    decreases s, 1
  {
    if s.ref.Some? {
      var name := ExtractRefName(s.ref.value);
      return name, SetAdd(referenced, name);
    }
    referenced' := referenced;
    if s.typ == "integer" || s.typ == "number" {
      t := "number";
    } else if s.typ == "string" {
      t := "string";
    } else if s.typ == "boolean" {
      t := "boolean";
    } else if s.typ == "array" {
      if s.items.Some? {
        var itemType;
        itemType, referenced' := ResolveType(s.items.value, referenced);
        t := itemType + "[]";
      } else {
        t := "any[]";
      }
    } else if s.typ == "object" {
      if s.properties.Properties? {
        var lines;
        lines, referenced' := ResolveProperties(s, referenced);
        t := "{ " + Join(lines, " ") + " }";
      } else {
        t := "Record<string, any>";
      }
    } else {
      t := "any";
    }
  }

  lemma {:induction false} PropertyRefsStep(s: Schema, k: nat, referenced: seq<string>)
    requires s.properties.Properties? && k < |s.properties.entries|
    ensures SetAddAll(SetAddAll(referenced, PropertyRefs(s, k)), ReferencedNames(s.properties.entries[k].1))
         == SetAddAll(referenced, PropertyRefs(s, k + 1))
  {
    SetAddAllAppend(referenced, PropertyRefs(s, k), ReferencedNames(s.properties.entries[k].1));
  }

  /** The `Object.entries(schema.properties).map(...)` step of `resolveType`. */
  method ResolveProperties(s: Schema, referenced: seq<string>) returns (lines: seq<string>, referenced': seq<string>)
    requires s.properties.Properties?
    ensures lines == PropertyLines(s, |s.properties.entries|)
    ensures referenced' == SetAddAll(referenced, PropertyRefs(s, |s.properties.entries|))
    decreases s, 0
  {
    var ps := s.properties.entries;
    lines, referenced' := [], referenced;
    for k := 0 to |ps|
      invariant lines == PropertyLines(s, k)
      invariant referenced' == SetAddAll(referenced, PropertyRefs(s, k))
    {
      var propType;
      assert ps[k] in ps;
      propType, referenced' := ResolveType(ps[k].1, referenced');
      PropertyRefsStep(s, k, referenced);
      lines := lines + [PropertyLine(ps[k].0, !IsRequired(s, ps[k].0), propType)];
    }
  }
}
