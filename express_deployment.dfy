/**
  `ExpressDeploymentGenerator` (src/generator/deployment/express.ts): the
  names, import lines and route registrations of the generated
  `configure.ts`. This generator has its own `toPascalCase`, which splits
  on `_` and white space and lower-cases the rest of every word.

  `Object.keys(endpointMethods)` is a sequence of `(endpoint, methods)`
  pairs, in key order.
*/
module ExpressDeployment {
  import opened Text
  import Util

  // ---------------------------------------------------------------------------
  // Casing

  /** `[_\s]`. */
  predicate IsSeparator(c: char) {
    c == '_' || IsSpace(c)
  }

  /** `str.split(/[_\s]/)`: the pieces between separator characters, empty pieces included. */
  function Words(s: string): (r: seq<string>)
    ensures |r| >= 1
  {
    if s == [] then [[]]
    else
      var t := Words(s[1..]);
      if IsSeparator(s[0]) then [[]] + t else [[s[0]] + t[0]] + t[1..]
  }

  /** `word.charAt(0).toUpperCase() + word.slice(1).toLowerCase()`. */
  function CapitalizeWord(w: string): string {
    if w == [] then [] else [UpperChar(w[0])] + Lower(w[1..])
  }

  /** `.map(capitalize).join("")`. */
  function CapitalizeWords(ws: seq<string>): string {
    if ws == [] then [] else CapitalizeWord(ws[0]) + CapitalizeWords(ws[1..])
  }

  /** `toPascalCase`. */
  function ToPascalCase(s: string): string {
    CapitalizeWords(Words(s))
  }

  /**
    A reference definition, character by character: separators are dropped,
    the first character of each word is upper-cased and the others
    lower-cased (`atStart` says whether the next character starts a word).
  */
  function PascalScan(s: string, atStart: bool): string {
    if s == [] then []
    else if IsSeparator(s[0]) then PascalScan(s[1..], true)
    else [if atStart then UpperChar(s[0]) else LowerChar(s[0])] + PascalScan(s[1..], false)
  }

  lemma {:induction false} CapitalizeWordsCons(w: string, ws: seq<string>)
    ensures CapitalizeWords([w] + ws) == CapitalizeWord(w) + CapitalizeWords(ws)
  {
    assert ([w] + ws)[1..] == ws;
  }

  lemma {:induction false} WordCons(c: char, w: string)
    ensures CapitalizeWord([c] + w) == [UpperChar(c)] + Lower(w)
    ensures Lower([c] + w) == [LowerChar(c)] + Lower(w)
  {
    assert ([c] + w)[1..] == w;
  }

  /** The scan drops every separator. */
  lemma {:induction false} ScanNoSeparator(s: string, atStart: bool)
    ensures forall i :: 0 <= i < |PascalScan(s, atStart)| ==> !IsSeparator(PascalScan(s, atStart)[i])
  {
    if s != [] {
      if IsSeparator(s[0]) {
        ScanNoSeparator(s[1..], true);
      } else {
        ScanNoSeparator(s[1..], false);
        var c := if atStart then UpperChar(s[0]) else LowerChar(s[0]);
        var r := PascalScan(s[1..], false);
        assert PascalScan(s, atStart) == [c] + r;
        assert !IsSeparator(c);
        forall i | 0 <= i < |[c] + r| ensures !IsSeparator(([c] + r)[i]) {
          if i > 0 {
            assert ([c] + r)[i] == r[i - 1];
          }
        }
      }
    }
  }

  /** A word's first character is never left lower-case. */
  lemma {:induction false} ScanFirst(s: string, atStart: bool)
    ensures atStart && PascalScan(s, atStart) != [] ==> !('a' <= PascalScan(s, atStart)[0] <= 'z')
  {
    if s != [] && IsSeparator(s[0]) {
      ScanFirst(s[1..], true);
    }
  }

  /** The scan from `s`, in terms of the words of `s`. */
  predicate ScanMatchesWords(s: string) {
    && PascalScan(s, true) == CapitalizeWord(Words(s)[0]) + CapitalizeWords(Words(s)[1..])
    && PascalScan(s, false) == Lower(Words(s)[0]) + CapitalizeWords(Words(s)[1..])
  }

  lemma {:induction false} ScanSeparatorStep(s: string)
    requires s != [] && IsSeparator(s[0]) && ScanMatchesWords(s[1..])
    ensures ScanMatchesWords(s)
  {
    var t := Words(s[1..]);
    assert Words(s) == [[]] + t;
    assert t == [t[0]] + t[1..];
    CapitalizeWordsCons(t[0], t[1..]);
  }

  lemma {:induction false} Assoc(a: string, b: string, c: string)
    ensures a + (b + c) == (a + b) + c
  {
  }

  lemma {:induction false} ScanWordStep(s: string)
    requires s != [] && !IsSeparator(s[0]) && ScanMatchesWords(s[1..])
    ensures ScanMatchesWords(s)
  {
    var c, t := s[0], Words(s[1..]);
    var w, ws := t[0], t[1..];
    assert Words(s) == [[c] + w] + ws;
    assert Words(s)[0] == [c] + w && Words(s)[1..] == ws;
    WordCons(c, w);
    assert PascalScan(s, true) == [UpperChar(c)] + PascalScan(s[1..], false);
    assert PascalScan(s, false) == [LowerChar(c)] + PascalScan(s[1..], false);
    Assoc([UpperChar(c)], Lower(w), CapitalizeWords(ws));
    Assoc([LowerChar(c)], Lower(w), CapitalizeWords(ws));
  }

  lemma {:induction false} PascalScanWords(s: string)
    ensures ScanMatchesWords(s)
  {
    if s != [] {
      PascalScanWords(s[1..]);
      if IsSeparator(s[0]) {
        ScanSeparatorStep(s);
      } else {
        ScanWordStep(s);
      }
    }
  }

  lemma {:induction false} PascalEqualsScan(s: string)
    ensures ToPascalCase(s) == PascalScan(s, true)
  {
    PascalScanWords(s);
    var ws := Words(s);
    assert ws == [ws[0]] + ws[1..];
    CapitalizeWordsCons(ws[0], ws[1..]);
  }

  /**
    `toPascalCase` is the character scan: its result has no `_` and no
    white space, and does not start with a lower-case letter.
  */
  lemma {:induction false} PascalIsScan(s: string)
    ensures ToPascalCase(s) == PascalScan(s, true)
    ensures forall i :: 0 <= i < |ToPascalCase(s)| ==> ToPascalCase(s)[i] != '_' && !IsSpace(ToPascalCase(s)[i])
    ensures ToPascalCase(s) != [] ==> !('a' <= ToPascalCase(s)[0] <= 'z')
  {
    PascalEqualsScan(s);
    ScanNoSeparator(s, true);
    ScanFirst(s, true);
  }

  lemma {:induction false} ScanInsideWord(w: string)
    requires forall i :: 0 <= i < |w| ==> !IsSeparator(w[i])
    ensures PascalScan(w, false) == Lower(w)
  {
    if w != [] {
      ScanInsideWord(w[1..]);
    }
  }

  /**
    On a single word this `toPascalCase` lower-cases everything after the
    first character, where the `util` one keeps it: the two agree exactly
    when that tail has no upper-case letter (`userId` gives `Userid` here
    and `UserId` there).
  */
  lemma {:induction false} PascalAgainstUtil(w: string)
    requires w != [] && forall i :: 0 <= i < |w| ==> !IsSeparator(w[i])
    ensures ToPascalCase(w) == [UpperChar(w[0])] + Lower(w[1..])
    ensures ToPascalCase(w) == Util.ToPascalCase(w) <==> IsLowerCase(w[1..])
  {
    PascalIsScan(w);
    ScanInsideWord(w[1..]);
    assert '_' !in w by {
      forall i | 0 <= i < |w| ensures w[i] != '_' {
        assert !IsSeparator(w[i]);
      }
    }
    Util.PascalIsCapitalizeWithoutSeparators(w);
    var tail := w[1..];
    if Lower(tail) == tail {
      forall i | 0 <= i < |tail| ensures !IsUpperLetter(tail[i]) {
        assert LowerChar(tail[i]) == tail[i];
      }
    }
    if ToPascalCase(w) == Util.ToPascalCase(w) {
      assert Lower(tail) == ([UpperChar(w[0])] + Lower(tail))[1..];
    }
  }

  /** `toCamelCase`: `toPascalCase` with its first character lower-cased. */
  function ToCamelCase(s: string): string {
    var pascal := ToPascalCase(s);
    if pascal == [] then [] else [LowerChar(pascal[0])] + pascal[1..]
  }

  /** Capitalising the camel-case form gives the Pascal-case form back. */
  lemma {:induction false} CamelRoundTrip(s: string)
    ensures Util.CapitalizeFirstLetter(ToCamelCase(s)) == ToPascalCase(s)
  {
    PascalEqualsScan(s);
    ScanFirst(s, true);
    var p := ToPascalCase(s);
    if p != [] {
      var h, rest := p[0], p[1..];
      var c := ToCamelCase(s);
      assert c == [LowerChar(h)] + rest;
      assert UpperChar(LowerChar(h)) == h;
      var r := Util.CapitalizeFirstLetter(c);
      assert r[0] == h && r[1..] == rest;
      assert r == [r[0]] + r[1..];
      assert p == [h] + rest;
    }
  }

  // ---------------------------------------------------------------------------
  // `{name}` groups

  /** The length of the run of `\w` characters that starts `s`. */
  function WordRun(s: string): (n: nat)
    ensures n <= |s|
  {
    if s != [] && IsWordChar(s[0]) then 1 + WordRun(s[1..]) else 0
  }

  /**
    `s.replace(/\{(\w+)\}/g, (_, g) => f(g))`: every `{` followed by one or
    more `\w` characters and a `}` is replaced, with the group, by `f` of
    the group; everything else is kept.
  */
  function ReplaceParams(s: string, f: string -> string): string
    decreases |s|
  {
    if s == [] then []
    else
      var n := WordRun(s[1..]);
      if s[0] == '{' && 0 < n && n + 1 < |s| && s[n + 1] == '}' then f(s[1..n + 1]) + ReplaceParams(s[n + 2..], f)
      else [s[0]] + ReplaceParams(s[1..], f)
  }

  lemma {:induction false} WordRunOfGroup(w: string, rest: string)
    requires forall i :: 0 <= i < |w| ==> IsWordChar(w[i])
    ensures WordRun(w + "}" + rest) == |w|
  {
    if w != [] {
      assert (w + "}" + rest)[1..] == w[1..] + "}" + rest;
      WordRunOfGroup(w[1..], rest);
    }
  }

  /** At a `{name}` group, the group is replaced. */
  lemma {:induction false} ReplaceParamsAtGroup(w: string, rest: string, f: string -> string)
    requires w != [] && forall i :: 0 <= i < |w| ==> IsWordChar(w[i])
    ensures ReplaceParams("{" + w + "}" + rest, f) == f(w) + ReplaceParams(rest, f)
  {
    var s := "{" + w + "}" + rest;
    assert s[1..] == w + "}" + rest;
    WordRunOfGroup(w, rest);
    assert s[|w| + 1] == '}';
    assert s[1..|w| + 1] == w;
    assert s[|w| + 2..] == rest;
  }

  /** Any character but `{` is kept. */
  lemma {:induction false} ReplaceParamsCons(c: char, s: string, f: string -> string)
    requires c != '{'
    ensures ReplaceParams([c] + s, f) == [c] + ReplaceParams(s, f)
  {
    assert ([c] + s)[1..] == s;
  }

  /** Text before the replaced part that has no `{` is kept in front of the result. */
  lemma {:induction false} ReplaceParamsKeepPrefix(prefix: string, x: string, y: string, f: string -> string)
    requires prefix != [] && prefix[0] != '{'
    requires ReplaceParams(prefix[1..] + x, f) == prefix[1..] + y
    ensures ReplaceParams(prefix + x, f) == prefix + y
  {
    var h, p := prefix[0], prefix[1..];
    assert prefix == [h] + p;
    Assoc([h], p, x);
    ReplaceParamsCons(h, p + x, f);
    Assoc([h], p, y);
  }

  /**
    A `{name}` group whose name is one or more `\w` characters becomes
    `f(name)`; the text before it, which has no `{`, is kept.
  */
  lemma {:induction false} ReplaceParamsGroup(prefix: string, w: string, rest: string, f: string -> string)
    requires '{' !in prefix
    requires w != [] && forall i :: 0 <= i < |w| ==> IsWordChar(w[i])
    ensures ReplaceParams(prefix + ("{" + w + "}" + rest), f) == prefix + (f(w) + ReplaceParams(rest, f))
  {
    if prefix == [] {
      ReplaceParamsAtGroup(w, rest, f);
      assert prefix + ("{" + w + "}" + rest) == "{" + w + "}" + rest;
      assert prefix + (f(w) + ReplaceParams(rest, f)) == f(w) + ReplaceParams(rest, f);
    } else {
      assert prefix[0] in prefix;
      NotInSuffix('{', prefix, 1);
      ReplaceParamsGroup(prefix[1..], w, rest, f);
      ReplaceParamsKeepPrefix(prefix, "{" + w + "}" + rest, f(w) + ReplaceParams(rest, f), f);
    }
  }

  /** Text without `{` is kept as it is. */
  lemma {:induction false} ReplaceParamsNoBrace(s: string, f: string -> string)
    requires '{' !in s
    ensures ReplaceParams(s, f) == s
  {
    if s != [] {
      ReplaceParamsNoBrace(s[1..], f);
      assert s == [s[0]] + s[1..];
    }
  }

  /** The replacement `":$1"`. */
  function ColonParam(name: string): string {
    ":" + name
  }

  /** `endpoint.replace(/\{(\w+)\}/g, ":$1")`. */
  function ExpressPath(endpoint: string): string {
    ReplaceParams(endpoint, ColonParam)
  }

  /** In the Express path every `{name}` becomes `:name`; the rest is unchanged. */
  lemma {:induction false} ExpressPathParams(prefix: string, name: string, rest: string)
    requires '{' !in prefix
    requires name != [] && forall i :: 0 <= i < |name| ==> IsWordChar(name[i])
    ensures ExpressPath(prefix + ("{" + name + "}" + rest)) == prefix + (":" + name + ExpressPath(rest))
    ensures '{' !in rest ==> ExpressPath(prefix + ("{" + name + "}" + rest)) == prefix + (":" + name + rest)
  {
    ReplaceParamsGroup(prefix, name, rest, ColonParam);
    if '{' !in rest {
      ReplaceParamsNoBrace(rest, ColonParam);
    }
  }

  // ---------------------------------------------------------------------------
  // `sanitizeEndpoint`

  /** `.replace(/\/(\w)/g, (_, g) => `_${g}`)`. */
  function SlashWordToUnderscore(s: string): string {
    if |s| >= 2 && s[0] == '/' && IsWordChar(s[1]) then ['_', s[1]] + SlashWordToUnderscore(s[2..])
    else if s == [] then []
    else [s[0]] + SlashWordToUnderscore(s[1..])
  }

  /** No two `_` in a row. */
  predicate NoDoubleUnderscore(s: string) {
    forall i :: 0 <= i < |s| - 1 ==> !(s[i] == '_' && s[i + 1] == '_')
  }

  /** `s` has no two `_` in a row and neither starts nor ends with `_`. */
  predicate UnderscoresTidy(s: string) {
    NoDoubleUnderscore(s) && (s == [] || (s[0] != '_' && s[|s| - 1] != '_'))
  }

  /** `.replace(/_+/g, "_")`: each run of `_` becomes one. */
  function CollapseUnderscores(s: string): (r: string)
    ensures forall c :: c in r <==> c in s
    ensures s != [] ==> r != [] && r[0] == s[0] && r[|r| - 1] == s[|s| - 1]
    ensures NoDoubleUnderscore(r)
  {
    if s == [] then []
    else if |s| >= 2 && s[0] == '_' && s[1] == '_' then CollapseUnderscores(s[1..])
    else [s[0]] + CollapseUnderscores(s[1..])
  }

  /** The `^_+` half of `.replace(/^_+|_+$/g, "")`: what is left after the leading run. */
  function DropLeadingUnderscores(s: string): (r: string)
    ensures |r| <= |s| && r == s[|s| - |r|..]
    ensures forall i :: 0 <= i < |s| - |r| ==> s[i] == '_'
    ensures r == [] || r[0] != '_'
  {
    if s != [] && s[0] == '_' then DropLeadingUnderscores(s[1..]) else s
  }

  /** The `_+$` half of `.replace(/^_+|_+$/g, "")`: what is left before the trailing run. */
  function DropTrailingUnderscores(s: string): (r: string)
    ensures |r| <= |s| && r == s[..|r|]
    ensures forall i :: |r| <= i < |s| ==> s[i] == '_'
    ensures r == [] || r[|r| - 1] != '_'
  {
    if s != [] && s[|s| - 1] == '_' then DropTrailingUnderscores(s[..|s| - 1]) else s
  }

  lemma {:induction false} SliceNoDoubleUnderscore(s: string, lo: nat, hi: nat)
    requires NoDoubleUnderscore(s) && lo <= hi <= |s|
    ensures NoDoubleUnderscore(s[lo..hi])
  {
    var t := s[lo..hi];
    forall i | 0 <= i < |t| - 1 ensures !(t[i] == '_' && t[i + 1] == '_') {
      assert t[i] == s[lo + i] && t[i + 1] == s[lo + i + 1];
    }
  }

  /** The collapse-and-trim steps together. */
  function CollapseAndTrim(s: string): string {
    DropTrailingUnderscores(DropLeadingUnderscores(CollapseUnderscores(s)))
  }

  /** Collapsing, then trimming, leaves tidy underscores and only characters of the input. */
  lemma {:induction false} CollapseThenTrim(s: string)
    ensures UnderscoresTidy(CollapseAndTrim(s))
    ensures forall c :: c in CollapseAndTrim(s) ==> c in s
  {
    var c := CollapseUnderscores(s);
    var l := DropLeadingUnderscores(c);
    var t := DropTrailingUnderscores(l);
    SliceNoDoubleUnderscore(c, |c| - |l|, |c|);
    SliceNoDoubleUnderscore(l, 0, |t|);
    assert forall x :: x in t ==> x in l;
    assert forall x :: x in l ==> x in c;
  }

  /**
    The string `sanitizeEndpoint` has before its last step: the endpoint
    after the leading `/`, the `/`-before-word, the parameter, the collapse
    and the trim replacements.
  */
  function SanitizedCore(endpoint: string): string {
    CollapseAndTrim(ReplaceParams(SlashWordToUnderscore(Util.DropLeadingSlash(endpoint)), ToPascalCase))
  }

  /**
    `sanitizeEndpoint`: the last step turns the remaining `/` of the tidied
    core into `_`, so underscores next to one of them are not tidied.
  */
  function SanitizeEndpoint(endpoint: string): (r: string)
    ensures '/' !in r
    ensures r == Util.SlashesToUnderscores(SanitizedCore(endpoint)) && UnderscoresTidy(SanitizedCore(endpoint))
  {
    CollapseThenTrim(ReplaceParams(SlashWordToUnderscore(Util.DropLeadingSlash(endpoint)), ToPascalCase));
    Util.SlashesToUnderscores(SanitizedCore(endpoint))
  }

  /**
    A `/` that is not before a word character survives to the last step: a
    trailing `/` becomes a trailing `_` (`/users/` gives `users_`).
  */
  lemma {:induction false} SanitizeKeepsTrailingUnderscore(w: string)
    requires w != [] && '/' !in w && '{' !in w && UnderscoresTidy(w)
    ensures SanitizeEndpoint("/" + w + "/") == w + "_"
  {
    var s := w + "/";
    assert Util.DropLeadingSlash("/" + w + "/") == s;
    SlashWordBeforeSlash(w);
    ReplaceParamsNoBrace(s, ToPascalCase);
    CollapseKeepsSingles(s);
    assert CollapseAndTrim(s) == s;
  }

  lemma {:induction false} SlashWordBeforeSlash(w: string)
    requires '/' !in w
    ensures SlashWordToUnderscore(w + "/") == w + "/"
  {
    if w != [] {
      assert (w + "/")[1..] == w[1..] + "/";
      NotInSuffix('/', w, 1);
      SlashWordBeforeSlash(w[1..]);
    } else {
      assert SlashWordToUnderscore("/") == "/";
    }
  }

  /** Without two `_` in a row there is nothing to collapse. */
  lemma {:induction false} CollapseKeepsSingles(s: string)
    requires NoDoubleUnderscore(s)
    ensures CollapseUnderscores(s) == s
  {
    if s != [] {
      SliceNoDoubleUnderscore(s, 1, |s|);
      CollapseKeepsSingles(s[1..]);
    }
  }

  /** Without any `/`, `sanitizeEndpoint` leaves tidy underscores. */
  lemma {:induction false} SanitizeWithoutSlashes(s: string)
    requires '/' !in s
    ensures SanitizeEndpoint(s) == SanitizedCore(s)
    ensures UnderscoresTidy(SanitizeEndpoint(s))
  {
    SlashWordWithoutSlashes(s);
    ReplaceParamsKeepsNonWord(s, '/');
    CollapseThenTrim(ReplaceParams(s, ToPascalCase));
  }

  /** `.replace(/\/(\w)/g, ...)` changes nothing without a `/`. */
  lemma {:induction false} SlashWordWithoutSlashes(s: string)
    requires '/' !in s
    ensures SlashWordToUnderscore(s) == s
  {
    if s != [] {
      NotInSuffix('/', s, 1);
      SlashWordWithoutSlashes(s[1..]);
    }
  }

  /** `sanitizeFileName`: the lower-cased `sanitizeEndpoint`. */
  function SanitizeFileName(endpoint: string): (r: string)
    ensures '/' !in r && IsLowerCase(r)
  {
    var s := SanitizeEndpoint(endpoint);
    LowerIsLowerCase(s);
    assert forall i :: 0 <= i < |s| ==> Lower(s)[i] != '/' by {
      forall i | 0 <= i < |s| ensures Lower(s)[i] != '/' {
        assert s[i] in s;
      }
    }
    Lower(s)
  }

  // ---------------------------------------------------------------------------
  // `configure.ts`

  /** The endpoints with their HTTP methods, in key order. */
  type EndpointMethods = seq<(string, seq<string>)>

  function AdapterClassName(endpoint: string): string {
    ToPascalCase(SanitizeEndpoint(endpoint)) + "Adapter"
  }

  function InstanceName(endpoint: string): string {
    ToCamelCase(SanitizeEndpoint(endpoint))
  }

  const AdapterImportHead := "import { "
  const AdapterImportMid := " } from \"./adapters/"
  const AdapterImportTail := "\";"

  /**
    `adapterFileName`: `sanitizeFileName` of the already sanitised endpoint.
    The second pass sees no `/`, so its collapse and trim tidy what the
    first pass left, and the file name neither starts nor ends with `_`.
  */
  function AdapterFileName(endpoint: string): (r: string)
    ensures r == Lower(SanitizeEndpoint(SanitizeEndpoint(endpoint)))
    ensures '/' !in r && IsLowerCase(r) && UnderscoresTidy(r)
  {
    var once := SanitizeEndpoint(endpoint);
    SanitizeWithoutSlashes(once);
    LowerKeepsUnderscores(SanitizeEndpoint(once));
    SanitizeFileName(once)
  }

  /** Lower-casing moves no `_`. */
  lemma {:induction false} LowerKeepsUnderscores(s: string)
    requires UnderscoresTidy(s)
    ensures UnderscoresTidy(Lower(s))
  {
    var t := Lower(s);
    forall i | 0 <= i < |t| ensures t[i] == '_' <==> s[i] == '_' {
    }
  }

  /** `import { <Class> } from "./adapters/<file>";`. */
  function ImportStatement(endpoint: string): string {
    AdapterImportHead + AdapterClassName(endpoint) + AdapterImportMid + AdapterFileName(endpoint) + AdapterImportTail
  }

  function ImportLines(endpointMethods: EndpointMethods): seq<string> {
    seq(|endpointMethods|, k requires 0 <= k < |endpointMethods| => ImportStatement(endpointMethods[k].0))
  }

  /** `importStatements`. */
  function ImportStatements(endpointMethods: EndpointMethods): string {
    Join(ImportLines(endpointMethods), "\n")
  }

  const AppHead := "  app."
  const PathOpen := "(\""
  const PathClose := "\", "
  const BindHead := ".bind("
  const BindTail := "));"

  /** `  app.<m>("<path>", <instance>.<m>.bind(<instance>));` with `m` lower-cased. */
  function HandlerLine(endpoint: string, httpMethod: string): string {
    var m := Lower(httpMethod);
    var instance := InstanceName(endpoint);
    AppHead + m + PathOpen + ExpressPath(endpoint) + PathClose + instance + "." + m + BindHead + instance + BindTail
  }

  function HandlerLines(endpoint: string, methods: seq<string>): seq<string> {
    seq(|methods|, k requires 0 <= k < |methods| => HandlerLine(endpoint, methods[k]))
  }

  const ConstHead := "\n  const "
  const NewHead := " = new "
  const NewTail := "();\n"

  /** One endpoint's block: the adapter instance, then one registration per method. */
  function RouteBlock(endpoint: string, methods: seq<string>): string {
    ConstHead + InstanceName(endpoint) + NewHead + AdapterClassName(endpoint) + NewTail
    + Join(HandlerLines(endpoint, methods), "\n") + "\n"
  }

  function RouteBlocks(endpointMethods: EndpointMethods): seq<string> {
    seq(|endpointMethods|, k requires 0 <= k < |endpointMethods| => RouteBlock(endpointMethods[k].0, endpointMethods[k].1))
  }

  /** `routeRegistrations`. */
  function RouteRegistrations(endpointMethods: EndpointMethods): string {
    Join(RouteBlocks(endpointMethods), "\n")
  }

  /** The instance registered for an endpoint is of the adapter class imported for it. */
  lemma {:induction false} InstanceOfImportedClass(endpoint: string)
    ensures Util.CapitalizeFirstLetter(InstanceName(endpoint)) + "Adapter" == AdapterClassName(endpoint)
  {
    CamelRoundTrip(SanitizeEndpoint(endpoint));
  }

  /**
    The import statements are one line per endpoint, in order: split at
    newlines they give back each endpoint's import (when no endpoint
    contains a newline).
  */
  lemma {:induction false} OneImportPerEndpoint(endpointMethods: EndpointMethods)
    requires endpointMethods != []
    requires forall k :: 0 <= k < |endpointMethods| ==> '\n' !in endpointMethods[k].0
    ensures |Split(ImportStatements(endpointMethods), '\n')| == |endpointMethods|
    ensures forall k :: 0 <= k < |endpointMethods| ==>
      Split(ImportStatements(endpointMethods), '\n')[k] == ImportStatement(endpointMethods[k].0)
  {
    var lines := ImportLines(endpointMethods);
    forall k | 0 <= k < |lines| ensures '\n' !in lines[k] {
      ImportStatementSingleLine(endpointMethods[k].0);
    }
    SplitOfJoin(lines, '\n');
  }

  lemma {:induction false} PascalNoNewline(s: string)
    ensures '\n' !in ToPascalCase(s)
  {
    PascalIsScan(s);
    var p := ToPascalCase(s);
    forall i | 0 <= i < |p| ensures p[i] != '\n' {
      assert !IsSpace(p[i]);
    }
  }

  lemma {:induction false} LowerNoNewline(s: string)
    requires '\n' !in s
    ensures '\n' !in Lower(s)
  {
    forall i | 0 <= i < |s| ensures Lower(s)[i] != '\n' {
      assert s[i] in s;
    }
  }

  lemma {:induction false} ImportStatementSingleLine(endpoint: string)
    requires '\n' !in endpoint
    ensures '\n' !in ImportStatement(endpoint)
  {
    var name := SanitizeEndpoint(endpoint);
    NoNewlineKept(endpoint);
    NoNewlineKept(name);
    PascalNoNewline(name);
    LowerNoNewline(SanitizeEndpoint(name));
    ImportPartsSingleLine();
  }

  lemma {:induction false} ImportPartsSingleLine()
    ensures '\n' !in AdapterImportHead && '\n' !in AdapterImportMid && '\n' !in AdapterImportTail
  {
  }

  lemma {:induction false} NoNewlineKept(endpoint: string)
    requires '\n' !in endpoint
    ensures '\n' !in SanitizeEndpoint(endpoint)
  {
    var s0 := Util.DropLeadingSlash(endpoint);
    assert '\n' !in s0;
    var s1 := SlashWordToUnderscore(s0);
    SlashWordKeepsChars(s0);
    var s2 := ReplaceParams(s1, ToPascalCase);
    ReplaceParamsKeepsNonWord(s1, '\n');
    var s4 := DropTrailingUnderscores(DropLeadingUnderscores(CollapseUnderscores(s2)));
    assert '\n' !in s4;
    var r := Util.SlashesToUnderscores(s4);
    forall i | 0 <= i < |r| ensures r[i] != '\n' {
      assert s4[i] in s4;
    }
  }

  lemma {:induction false} NotInSuffix(c: char, s: string, i: nat)
    requires c !in s && i <= |s|
    ensures c !in s[i..]
  {
  }

  lemma {:induction false} SlashWordKeepsChars(s: string)
    ensures forall c :: c in SlashWordToUnderscore(s) ==> c in s || c == '_'
  {
    if |s| >= 2 && s[0] == '/' && IsWordChar(s[1]) {
      SlashWordKeepsChars(s[2..]);
      assert forall c :: c in s[2..] ==> c in s;
    } else if s != [] {
      SlashWordKeepsChars(s[1..]);
      assert forall c :: c in s[1..] ==> c in s;
    }
  }

  /** A character that is not a word character is never introduced by the parameter replacement. */
  lemma {:induction false} ReplaceParamsKeepsNonWord(s: string, c: char)
    requires c !in s && !IsWordChar(c)
    ensures c !in ReplaceParams(s, ToPascalCase)
    decreases |s|
  {
    if s != [] {
      var n := WordRun(s[1..]);
      if s[0] == '{' && 0 < n && n + 1 < |s| && s[n + 1] == '}' {
        ReplaceParamsKeepsNonWord(s[n + 2..], c);
        NotInSuffix(c, s, n + 2);
        WordRunChars(s[1..]);
        PascalIsScan(s[1..n + 1]);
        ScanKeepsWordChars(s[1..n + 1], true);
      } else {
        NotInSuffix(c, s, 1);
        ReplaceParamsKeepsNonWord(s[1..], c);
      }
    }
  }

  lemma {:induction false} WordRunChars(s: string)
    ensures forall i :: 0 <= i < WordRun(s) ==> IsWordChar(s[i])
  {
    if s != [] && IsWordChar(s[0]) {
      WordRunChars(s[1..]);
    }
  }

  /** On word characters the Pascal scan emits only word characters. */
  lemma {:induction false} ScanKeepsWordChars(s: string, atStart: bool)
    requires forall i :: 0 <= i < |s| ==> IsWordChar(s[i])
    ensures forall i :: 0 <= i < |PascalScan(s, atStart)| ==> IsWordChar(PascalScan(s, atStart)[i])
  {
    if s != [] {
      ScanKeepsWordChars(s[1..], IsSeparator(s[0]));
    }
  }

  /**
    An endpoint's block registers one `app.<method>` line per HTTP method,
    in order: split at newlines, the registrations come back one per method
    (when the endpoint and the methods contain no newline).
  */
  lemma {:induction false} OneRegistrationPerMethod(endpoint: string, methods: seq<string>)
    requires methods != []
    requires '\n' !in endpoint
    requires forall k :: 0 <= k < |methods| ==> '\n' !in methods[k]
    ensures |Split(Join(HandlerLines(endpoint, methods), "\n"), '\n')| == |methods|
    ensures forall k :: 0 <= k < |methods| ==>
      Split(Join(HandlerLines(endpoint, methods), "\n"), '\n')[k] == HandlerLine(endpoint, methods[k])
  {
    var lines := HandlerLines(endpoint, methods);
    forall k | 0 <= k < |lines| ensures '\n' !in lines[k] {
      HandlerLineSingleLine(endpoint, methods[k]);
    }
    SplitOfJoin(lines, '\n');
  }

  lemma {:induction false} HandlerLineSingleLine(endpoint: string, httpMethod: string)
    requires '\n' !in endpoint && '\n' !in httpMethod
    ensures '\n' !in HandlerLine(endpoint, httpMethod)
  {
    var m := Lower(httpMethod);
    var instance := InstanceName(endpoint);
    var path := ExpressPath(endpoint);
    LowerNoNewline(httpMethod);
    ExpressPathKeepsNewlines(endpoint);
    InstanceNameSingleLine(endpoint);
    HandlerPartsSingleLine();
    var line := AppHead;
    line := JoinSingleLine(line, m);
    line := JoinSingleLine(line, PathOpen);
    line := JoinSingleLine(line, path);
    line := JoinSingleLine(line, PathClose);
    line := JoinSingleLine(line, instance);
    line := JoinSingleLine(line, ".");
    line := JoinSingleLine(line, m);
    line := JoinSingleLine(line, BindHead);
    line := JoinSingleLine(line, instance);
    line := JoinSingleLine(line, BindTail);
    assert line == HandlerLine(endpoint, httpMethod);
  }

  lemma {:induction false} HandlerPartsSingleLine()
    ensures '\n' !in AppHead && '\n' !in PathOpen && '\n' !in PathClose && '\n' !in BindHead && '\n' !in BindTail
  {
  }

  lemma {:induction false} InstanceNameSingleLine(endpoint: string)
    requires '\n' !in endpoint
    ensures '\n' !in InstanceName(endpoint)
  {
    var name := SanitizeEndpoint(endpoint);
    NoNewlineKept(endpoint);
    PascalNoNewline(name);
    var p := ToPascalCase(name);
    if p != [] {
      assert p[0] in p;
      assert forall c :: c in p[1..] ==> c in p;
    }
  }

  /** Two single-line pieces make a single line. */
  lemma {:induction false} JoinSingleLine(a: string, b: string) returns (ab: string)
    requires '\n' !in a && '\n' !in b
    ensures ab == a + b && '\n' !in ab
  {
    ab := a + b;
  }

  /** The Express path has a newline only where the endpoint has one. */
  lemma {:induction false} ExpressPathKeepsNewlines(s: string)
    requires '\n' !in s
    ensures '\n' !in ReplaceParams(s, ColonParam)
    decreases |s|
  {
    if s != [] {
      var n := WordRun(s[1..]);
      if s[0] == '{' && 0 < n && n + 1 < |s| && s[n + 1] == '}' {
        ExpressPathKeepsNewlines(s[n + 2..]);
        NotInSuffix('\n', s, n + 2);
        assert forall c :: c in s[1..n + 1] ==> c in s;
      } else {
        NotInSuffix('\n', s, 1);
        ExpressPathKeepsNewlines(s[1..]);
      }
    }
  }
}
