/**
  `SchemaGenerator` (src/schema-generator.ts): one TypeScript interface file
  per named schema of `components.schemas`, with `allOf` composition turned
  into `extends` clauses and merged properties.
*/
module SchemaGenerator {
  import opened Wrappers
  import opened Text
  import opened OpenApi
  import BaseAdapter
  import Util

  // ---------------------------------------------------------------------------
  // Names

  /** This generator's `extractRefName`: the last `/`-separated segment, `""` when it is empty. */
  function RefName(ref: string): (r: string)
    ensures '/' !in r
    ensures r == [] <==> ref == [] || ref[|ref| - 1] == '/'
    ensures |r| <= |ref| && ref[|ref| - |r|..] == r
  {
    LastSegment(ref)
  }

  /** `toPascalCase` here is the same expression as in `BaseGenerator`. */
  function Pascal(s: string): string {
    BaseAdapter.ToPascalCase(s)
  }

  /** `${interfaceName.toLowerCase()}.ts`. */
  function FileName(schemaName: string): (r: string)
    ensures IsLowerCase(r)
    ensures |r| >= 3 && r[|r| - 3..] == ".ts"
  {
    LowerIsLowerCase(Pascal(schemaName));
    Lower(Pascal(schemaName)) + ".ts"
  }

  /** The `import { P } from './<name>';` line for a referenced schema. */
  function ImportLine(refName: string): string {
    "import { " + Pascal(refName) + " } from './" + Lower(refName) + "';"
  }

  /**
    For a name without `_`, the path an import of it uses is the base name of
    the file its schema is written to.
  */
  lemma {:induction false} ImportPathIsFileName(name: string)
    requires name != [] && '_' !in name
    ensures FileName(name) == Lower(name) + ".ts"
  {
    BaseAdapter.PascalOfOneWord(name);
    var p := Pascal(name);
    assert Lower(p) == Lower(name) by {
      assert |p| == |name|;
      forall i | 0 <= i < |name| ensures Lower(p)[i] == Lower(name)[i] {
        if i == 0 {
          assert p[0] == UpperChar(name[0]);
        } else {
          assert p[i] == name[i];
        }
      }
    }
  }

  /**
    For a name with a `_` between two word characters the two differ: the
    file name loses the `_` while the import path keeps it, so the import
    does not name the written file.
  */
  lemma {:induction false} ImportPathMissesFileName(a: string, c: char, b: string)
    requires a != [] && a[|a| - 1] != '_'
    requires IsWordChar(c) && '_' !in b
    ensures var name := a + ['_', c] + b;
      FileName(name) != Lower(name) + ".ts"
  {
    var name := a + ['_', c] + b;
    BaseAdapter.PascalJoinsWords(a, c, b);
    assert |Pascal(name)| < |name|;
  }

  // ---------------------------------------------------------------------------
  // Object spread on property maps (`{...a, ...b}`)

  type Entries = seq<(string, Schema)>

  /** The names of the entries, in order. */
  function Keys(m: Entries): (r: seq<string>)
    ensures |r| == |m|
    ensures forall i :: 0 <= i < |m| ==> r[i] == m[i].0
  {
    if m == [] then [] else [m[0].0] + Keys(m[1..])
  }

  /** The value stored under `k` (the first entry with that name). */
  function Lookup(m: Entries, k: string): Option<Schema> {
    if m == [] then None
    else if m[0].0 == k then Some(m[0].1)
    else Lookup(m[1..], k)
  }

  /** The value of the last entry named `k`: the one an object literal keeps. */
  function LookupLast(m: Entries, k: string): Option<Schema> {
    if m == [] then None
    else if m[|m| - 1].0 == k then Some(m[|m| - 1].1)
    else LookupLast(m[..|m| - 1], k)
  }

  /**
    Assigning `k: v` to an object: an existing key keeps its position and
    takes the new value; a new key is added at the end.
  */
  function Assign(m: Entries, k: string, v: Schema): (r: Entries)
    ensures k in Keys(m) ==> Keys(r) == Keys(m)
    ensures k !in Keys(m) ==> Keys(r) == Keys(m) + [k]
  {
    if m == [] then [(k, v)]
    else if m[0].0 == k then [(k, v)] + m[1..]
    else
      assert Keys(m) == [m[0].0] + Keys(m[1..]);
      [m[0]] + Assign(m[1..], k, v)
  }

  lemma {:induction false} AssignLookup(m: Entries, k: string, v: Schema, q: string)
    ensures Lookup(Assign(m, k, v), q) == if q == k then Some(v) else Lookup(m, q)
  {
    if m != [] && m[0].0 != k {
      AssignLookup(m[1..], k, v, q);
    }
  }

  /** `{...m, ...b}`: the entries of `b` assigned one after the other. */
  function Spread(m: Entries, b: Entries): Entries {
    if b == [] then m
    else
      var last := b[|b| - 1];
      Assign(Spread(m, b[..|b| - 1]), last.0, last.1)
  }

  /** Spreading is right-biased: a key of `b` takes `b`'s value, any other keeps `m`'s. */
  lemma {:induction false} SpreadLookup(m: Entries, b: Entries, q: string)
    ensures Lookup(Spread(m, b), q) == if LookupLast(b, q).Some? then LookupLast(b, q) else Lookup(m, q)
  {
    if b != [] {
      var last := b[|b| - 1];
      SpreadLookup(m, b[..|b| - 1], q);
      AssignLookup(Spread(m, b[..|b| - 1]), last.0, last.1, q);
    }
  }

  // ---------------------------------------------------------------------------
  // `handleAllOf`

  /** `schema.properties`, or nothing when it is absent. */
  function MemberEntries(s: Schema): Entries {
    if s.properties.Properties? then s.properties.entries else []
  }

  /** `schema.required || []`. */
  function MemberRequired(s: Schema): seq<string> {
    s.required.GetOr([])
  }

  /** The properties merged from the members without a `$ref`, in order. */
  function MergedProperties(members: seq<Schema>): Entries {
    if members == [] then []
    else
      var init := MergedProperties(members[..|members| - 1]);
      var last := members[|members| - 1];
      if HasTruthyRef(last) then init else Spread(init, MemberEntries(last))
  }

  /** The `required` lists of the members without a `$ref`, concatenated in order. */
  function MergedRequired(members: seq<Schema>): seq<string> {
    if members == [] then []
    else
      var init := MergedRequired(members[..|members| - 1]);
      var last := members[|members| - 1];
      if HasTruthyRef(last) then init else init + MemberRequired(last)
  }

  /**
    `handleAllOf(allOf)`: walks the members in order, skipping those with a
    `$ref` and merging the others' properties and required names.
  */
  method HandleAllOf(allOf: seq<Schema>) returns (properties: Entries, required: seq<string>)
    ensures properties == MergedProperties(allOf)
    ensures required == MergedRequired(allOf)
  {
    properties, required := [], [];
    for i := 0 to |allOf|
      invariant properties == MergedProperties(allOf[..i])
      invariant required == MergedRequired(allOf[..i])
    {
      assert allOf[..i + 1][..i] == allOf[..i];
      var member := allOf[i];
      if !HasTruthyRef(member) {
        properties := Spread(properties, MemberEntries(member));
        required := required + MemberRequired(member);
      }
    }
    assert allOf[..|allOf|] == allOf;
  }

  /** The value the last member without a `$ref` that defines `q` gives it. */
  function MemberLookup(members: seq<Schema>, q: string): Option<Schema> {
    if members == [] then None
    else
      var last := members[|members| - 1];
      if !HasTruthyRef(last) && LookupLast(MemberEntries(last), q).Some? then LookupLast(MemberEntries(last), q)
      else MemberLookup(members[..|members| - 1], q)
  }

  /** On a name collision the later member's property wins. */
  lemma {:induction false} MergedLookup(members: seq<Schema>, q: string)
    ensures Lookup(MergedProperties(members), q) == MemberLookup(members, q)
  {
    if members != [] {
      var last := members[|members| - 1];
      MergedLookup(members[..|members| - 1], q);
      if !HasTruthyRef(last) {
        SpreadLookup(MergedProperties(members[..|members| - 1]), MemberEntries(last), q);
      }
    }
  }

  /** A member with a `$ref` contributes neither properties nor required names. */
  lemma {:induction false} RefMemberContributesNothing(a: seq<Schema>, r: Schema, b: seq<Schema>)
    requires HasTruthyRef(r)
    ensures MergedProperties(a + [r] + b) == MergedProperties(a + b)
    ensures MergedRequired(a + [r] + b) == MergedRequired(a + b)
    decreases |b|
  {
    if b == [] {
      assert (a + [r] + b)[..|a + [r] + b| - 1] == a;
      assert a + b == a;
    } else {
      var b' := b[..|b| - 1];
      RefMemberContributesNothing(a, r, b');
      assert (a + [r] + b)[..|a + [r] + b| - 1] == a + [r] + b';
      assert (a + b)[..|a + b| - 1] == a + b';
      assert (a + [r] + b)[|a + [r] + b| - 1] == b[|b| - 1] == (a + b)[|a + b| - 1];
    }
  }

  /**
    A name is required in the merge iff some member without a `$ref` requires
    it; names several members require occur several times.
  */
  lemma {:induction false} MergedRequiredContents(members: seq<Schema>, y: string)
    ensures y in MergedRequired(members) <==>
      exists i :: 0 <= i < |members| && !HasTruthyRef(members[i]) && y in MemberRequired(members[i])
  {
    if members != [] {
      var init := members[..|members| - 1];
      MergedRequiredContents(init, y);
      if exists i :: 0 <= i < |members| && !HasTruthyRef(members[i]) && y in MemberRequired(members[i]) {
        var i :| 0 <= i < |members| && !HasTruthyRef(members[i]) && y in MemberRequired(members[i]);
        if i < |init| {
          assert init[i] == members[i];
        }
      }
      if exists i :: 0 <= i < |init| && !HasTruthyRef(init[i]) && y in MemberRequired(init[i]) {
        var i :| 0 <= i < |init| && !HasTruthyRef(init[i]) && y in MemberRequired(init[i]);
        assert members[i] == init[i];
      }
    }
  }

  /** Two inline members: their required lists are concatenated, duplicates kept. */
  lemma {:induction false} MergedRequiredKeepsDuplicates(x: Schema, y: Schema)
    requires !HasTruthyRef(x) && !HasTruthyRef(y)
    ensures MergedRequired([x, y]) == MemberRequired(x) + MemberRequired(y)
  {
    assert [x, y][..1] == [x];
    assert [x][..0] == [];
    assert MergedRequired([x]) == [] + MemberRequired(x);
  }

  // ---------------------------------------------------------------------------
  // `mapType`

  /** `'v'`. */
  function Quote(v: string): string {
    "'" + v + "'"
  }

  function Quoted(vs: seq<string>): (r: seq<string>)
    ensures |r| == |vs|
    ensures forall i :: 0 <= i < |vs| ==> r[i] == Quote(vs[i])
  {
    if vs == [] then [] else [Quote(vs[0])] + Quoted(vs[1..])
  }

  /** One member of an inline object type: `name: T`, never with `?`. */
  function InlineMember(name: string, tsType: string): string {
    name + ": " + tsType
  }

  /**
    `mapType(property)`, or `None` where it throws: on an array without
    `items` it reads `$ref` of `undefined`.
  */
  function MapType(s: Schema): Option<string>
    decreases s, 1
  {
    if HasTruthyRef(s) then Some(Pascal(RefName(s.ref.value)))
    else if s.typ == "string" then
      Some(if s.enumValues.Some? then Join(Quoted(s.enumValues.value), " | ") else "string")
    else if s.typ == "integer" || s.typ == "number" then Some("number")
    else if s.typ == "boolean" then Some("boolean")
    else if s.typ == "array" then
      (if s.items.None? then None
       else match MapType(s.items.value)
         case None => None
         case Some(t) => Some(t + "[]"))
    else if s.typ == "object" then
      (if s.properties.Properties? then
         match InlineMembers(s, |s.properties.entries|)
         case None => None
         case Some(members) => Some("{ " + Join(members, "; ") + " }")
       else Some("Record<string, any>"))
    else Some("any")
  }

  /** The members of an inline object type for the first `k` properties. */
  function InlineMembers(s: Schema, k: nat): (r: Option<seq<string>>)
    requires s.properties.Properties? && k <= |s.properties.entries|
    ensures r.Some? ==> |r.value| == k
    decreases s, 0, k
  {
    if k == 0 then Some([])
    else
      var p := s.properties.entries[k - 1];
      match InlineMembers(s, k - 1)
      case None => None
      case Some(init) =>
        match MapType(p.1)
        case None => None
        case Some(t) => Some(init + [InlineMember(p.0, t)])
  }

  /**
    Where `mapType` throws: an array without `items` that is reached through
    `items` and inline object properties, not behind a `$ref`.
  */
  predicate HasItemlessArray(s: Schema)
    decreases s, 1
  {
    if HasTruthyRef(s) then false
    else if s.typ == "array" then s.items.None? || HasItemlessArray(s.items.value)
    else if s.typ == "object" && s.properties.Properties? then ItemlessIn(s, |s.properties.entries|)
    else false
  }

  predicate ItemlessIn(s: Schema, k: nat)
    requires s.properties.Properties? && k <= |s.properties.entries|
    decreases s, 0, k
  {
    k > 0 && (ItemlessIn(s, k - 1) || HasItemlessArray(s.properties.entries[k - 1].1))
  }

  /** `mapType` throws exactly on schemas holding an array without `items`. */
  lemma {:induction false} MapTypeFails(s: Schema)
    ensures MapType(s).None? <==> HasItemlessArray(s)
    decreases s, 1
  {
    if !HasTruthyRef(s) {
      if s.typ == "array" && s.items.Some? {
        MapTypeFails(s.items.value);
      } else if s.typ == "object" && s.properties.Properties? {
        InlineMembersFail(s, |s.properties.entries|);
      }
    }
  }

  lemma {:induction false} InlineMembersFail(s: Schema, k: nat)
    requires s.properties.Properties? && k <= |s.properties.entries|
    ensures InlineMembers(s, k).None? <==> ItemlessIn(s, k)
    decreases s, 0, k
  {
    if k > 0 {
      assert s.properties.entries[k - 1] in s.properties.entries;
      InlineMembersFail(s, k - 1);
      MapTypeFails(s.properties.entries[k - 1].1);
    }
  }

  /** Member `k` of an inline object type, read from any longer prefix. */
  lemma {:induction false} InlineMembersAt(s: Schema, k: nat, n: nat)
    requires s.properties.Properties? && k < n <= |s.properties.entries|
    requires InlineMembers(s, n).Some?
    ensures var p := s.properties.entries[k];
      MapType(p.1).Some? && InlineMembers(s, n).value[k] == InlineMember(p.0, MapType(p.1).value)
    decreases n
  {
    var p := s.properties.entries[n - 1];
    assert InlineMembers(s, n - 1).Some? && MapType(p.1).Some?;
    var init := InlineMembers(s, n - 1).value;
    var member := InlineMember(p.0, MapType(p.1).value);
    assert InlineMembers(s, n).value == init + [member];
    if k < n - 1 {
      assert (init + [member])[k] == init[k];
      InlineMembersAt(s, k, n - 1);
    }
  }

  /**
    Inline object types carry no optional markers: each member is the
    property's name followed directly by `:`, whatever `required` says.
  */
  lemma {:induction false} InlineMemberHasNoMarker(s: Schema, k: nat)
    requires s.properties.Properties? && k < |s.properties.entries|
    requires InlineMembers(s, |s.properties.entries|).Some?
    ensures var name := s.properties.entries[k].0;
      var member := InlineMembers(s, |s.properties.entries|).value[k];
      |name| < |member| && member[..|name|] == name && member[|name|] == ':'
  {
    InlineMembersAt(s, k, |s.properties.entries|);
    var p := s.properties.entries[k];
    var member := InlineMember(p.0, MapType(p.1).value);
    assert member == p.0 + (": " + MapType(p.1).value);
  }

  /** Scalars, and arrays of them, without `$ref` or `enum`. */
  predicate Plain(s: Schema)
    decreases s
  {
    s.ref.None? &&
    ((s.typ == "integer" || s.typ == "number" || s.typ == "boolean")
     || (s.typ == "string" && s.enumValues.None?)
     || (s.typ == "array" && s.items.Some? && Plain(s.items.value)))
  }

  /** On plain schemas `mapType` and `util.ts`'s `resolveType` give the same type. */
  lemma {:induction false} MapTypeAgreesOnPlain(s: Schema)
    requires Plain(s)
    ensures MapType(s) == Some(Util.TypeString(s))
    decreases s
  {
    if s.typ == "array" {
      MapTypeAgreesOnPlain(s.items.value);
    }
  }

  /**
    On a `$ref` whose last segment is empty the two differ: `mapType` gives
    the empty type name, `resolveType` falls back to `UnknownType`.
  */
  lemma {:induction false} MapTypeEmptyRefName(s: Schema)
    requires HasTruthyRef(s) && s.ref.value[|s.ref.value| - 1] == '/'
    ensures MapType(s) == Some("") && Util.TypeString(s) == "UnknownType"
  {
  }

  // ---------------------------------------------------------------------------
  // `resolveImportsAndExtends`

  /**
    The import lines `resolveRefs` produces, in order: the `$ref` itself, or
    those of the properties, or those of the items.
  */
  function RefImports(s: Schema): seq<string>
    decreases s, 1
  {
    if HasTruthyRef(s) then [ImportLine(RefName(s.ref.value))]
    else if s.properties.Properties? then PropertyImports(s, |s.properties.entries|)
    else if s.items.Some? then RefImports(s.items.value)
    else []
  }

  function PropertyImports(s: Schema, k: nat): seq<string>
    requires s.properties.Properties? && k <= |s.properties.entries|
    decreases s, 0, k
  {
    if k == 0 then [] else PropertyImports(s, k - 1) + RefImports(s.properties.entries[k - 1].1)
  }

  /** `resolveRefs(schema)`: adds the import lines not yet in the list. */
  method ResolveRefs(s: Schema, imports: seq<string>) returns (imports': seq<string>)
    ensures imports' == SetAddAll(imports, RefImports(s))
    decreases s, 1
  {
    if HasTruthyRef(s) {
      SetAddAllSingle(imports, ImportLine(RefName(s.ref.value)));
      return SetAdd(imports, ImportLine(RefName(s.ref.value)));
    } else if s.properties.Properties? {
      var ps := s.properties.entries;
      imports' := imports;
      for k := 0 to |ps|
        invariant imports' == SetAddAll(imports, PropertyImports(s, k))
      {
        assert ps[k] in ps;
        imports' := ResolveRefs(ps[k].1, imports');
        SetAddAllAppend(imports, PropertyImports(s, k), RefImports(ps[k].1));
      }
    } else if s.items.Some? {
      imports' := ResolveRefs(s.items.value, imports);
    } else {
      imports' := imports;
    }
  }

  /** The import lines of a list of schemas, one after the other. */
  function ImportsOfAll(schemas: seq<Schema>): seq<string> {
    if schemas == [] then []
    else ImportsOfAll(schemas[..|schemas| - 1]) + RefImports(schemas[|schemas| - 1])
  }

  /** `schemas.forEach(resolveRefs)`. */
  method ResolveAll(schemas: seq<Schema>, imports: seq<string>) returns (imports': seq<string>)
    ensures imports' == SetAddAll(imports, ImportsOfAll(schemas))
  {
    imports' := imports;
    for i := 0 to |schemas|
      invariant imports' == SetAddAll(imports, ImportsOfAll(schemas[..i]))
    {
      assert schemas[..i + 1][..i] == schemas[..i];
      imports' := ResolveRefs(schemas[i], imports');
      SetAddAllAppend(imports, ImportsOfAll(schemas[..i]), RefImports(schemas[i]));
    }
    assert schemas[..|schemas|] == schemas;
  }

  /** The members of an `allOf` that have a `$ref`, in order. */
  function BaseRefs(members: seq<Schema>): (r: seq<Schema>)
    ensures forall i :: 0 <= i < |r| ==> HasTruthyRef(r[i])
  {
    if members == [] then []
    else
      var last := members[|members| - 1];
      BaseRefs(members[..|members| - 1]) + (if HasTruthyRef(last) then [last] else [])
  }

  /** The interface names the `extends` clause lists, one per base, in order. */
  function BaseNames(bases: seq<Schema>): (r: seq<string>)
    ensures |r| == |bases|
    ensures forall i :: 0 <= i < |r| ==> r[i] == Pascal(RefName(bases[i].ref.GetOr("")))
  {
    if bases == [] then [] else [Pascal(RefName(bases[0].ref.GetOr("")))] + BaseNames(bases[1..])
  }

  /** `" extends A, B"` for the `$ref` members of `allOf`, or `""` when there are none. */
  function ExtendsClause(s: Schema): string {
    if s.allOf.AllOf? && BaseRefs(s.allOf.members) != [] then
      " extends " + Join(BaseNames(BaseRefs(s.allOf.members)), ", ")
    else ""
  }

  /**
    The order in which `resolveImportsAndExtends` meets import lines: the
    bases of `allOf`, then every member of `allOf`, then the schema itself.
  */
  function ImportOrder(s: Schema): seq<string> {
    (if s.allOf.AllOf? then ImportsOfAll(BaseRefs(s.allOf.members)) + ImportsOfAll(s.allOf.members) else [])
    + RefImports(s)
  }

  method ResolveImportsAndExtends(s: Schema) returns (imports: seq<string>, extendsClause: string)
    ensures imports == SetAddAll([], ImportOrder(s))
    ensures extendsClause == ExtendsClause(s)
  {
    var found: seq<string> := [];
    ghost var order: seq<string> := [];
    extendsClause := "";
    if s.allOf.AllOf? {
      var bases := BaseRefs(s.allOf.members);
      if |bases| > 0 {
        extendsClause := " extends " + Join(BaseNames(bases), ", ");
        found := ResolveAll(bases, found);
      }
      found := ResolveAll(s.allOf.members, found);
      order := ImportsOfAll(bases) + ImportsOfAll(s.allOf.members);
      SetAddAllAppend([], ImportsOfAll(bases), ImportsOfAll(s.allOf.members));
    }
    found := ResolveRefs(s, found);
    SetAddAllAppend([], order, RefImports(s));
    SetAddAllContents([], ImportOrder(s));
    DedupOfNoDup(found);
    imports := Dedup(found);
  }

  /** A member of `allOf` is a base of the `extends` clause iff it has a `$ref`. */
  lemma {:induction false} BaseRefsExactly(members: seq<Schema>, x: Schema)
    ensures x in BaseRefs(members) <==> x in members && HasTruthyRef(x)
  {
    if members != [] {
      var init := members[..|members| - 1];
      BaseRefsExactly(init, x);
      assert members == init + [members[|members| - 1]];
    }
  }

  /** The `extends` clause is empty iff no member of `allOf` has a `$ref`. */
  lemma {:induction false} ExtendsClauseEmpty(s: Schema)
    ensures ExtendsClause(s) == [] <==>
      !(s.allOf.AllOf? && exists i :: 0 <= i < |s.allOf.members| && HasTruthyRef(s.allOf.members[i]))
  {
    if s.allOf.AllOf? {
      var ms := s.allOf.members;
      if exists i :: 0 <= i < |ms| && HasTruthyRef(ms[i]) {
        var i :| 0 <= i < |ms| && HasTruthyRef(ms[i]);
        BaseRefsExactly(ms, ms[i]);
      } else if BaseRefs(ms) != [] {
        BaseRefsExactly(ms, BaseRefs(ms)[0]);
      }
    }
  }

  /** Every import line a schema of the list meets is among the list's import lines. */
  lemma {:induction false} ImportsOfAllContains(schemas: seq<Schema>, i: nat, line: string)
    requires i < |schemas| && line in RefImports(schemas[i])
    ensures line in ImportsOfAll(schemas)
  {
    if i < |schemas| - 1 {
      ImportsOfAllContains(schemas[..|schemas| - 1], i, line);
    }
  }

  /**
    The returned imports are distinct, and include the import of every
    schema the interface extends.
  */
  lemma {:induction false} ImportsDistinctAndCoverBases(s: Schema, i: nat)
    requires s.allOf.AllOf? && i < |s.allOf.members| && HasTruthyRef(s.allOf.members[i])
    ensures var imports := SetAddAll([], ImportOrder(s));
      NoDup(imports) && ImportLine(RefName(s.allOf.members[i].ref.value)) in imports
  {
    var line := ImportLine(RefName(s.allOf.members[i].ref.value));
    ImportsOfAllContains(s.allOf.members, i, line);
    SetAddAllContents([], ImportOrder(s));
  }

  // ---------------------------------------------------------------------------
  // `generateInterfaceContent`

  /**
    The schema whose properties are listed: with `allOf`, the merge
    `handleAllOf` returns (only `properties` and `required`), otherwise the
    schema itself.
  */
  function Effective(s: Schema): (r: Schema)
    ensures s.allOf.AllOf? ==> r.properties.Properties? && r.required.Some?
  {
    if s.allOf.AllOf? then
      Schema(None, "", "", "", None, Properties(MergedProperties(s.allOf.members)),
             Some(MergedRequired(s.allOf.members)), None, NoAllOf)
    else s
  }

  /** `  name?: T;` or `  name: T;`. */
  function InterfaceLine(name: string, optional: bool, tsType: string): string {
    "  " + name + (if optional then "?" else "") + ": " + tsType + ";"
  }

  /** The member lines for the first `k` properties, `None` where `mapType` throws. */
  function InterfaceLines(s: Schema, k: nat): (r: Option<seq<string>>)
    requires s.properties.Properties? && k <= |s.properties.entries|
    ensures r.Some? ==> |r.value| == k
  {
    if k == 0 then Some([])
    else
      var p := s.properties.entries[k - 1];
      match InterfaceLines(s, k - 1)
      case None => None
      case Some(init) =>
        match MapType(p.1)
        case None => None
        case Some(t) => Some(init + [InterfaceLine(p.0, !IsRequired(s, p.0), t)])
  }

  /** The text of one schema file, `None` where `mapType` throws. */
  function InterfaceContent(name: string, s: Schema, imports: seq<string>, extendsClause: string): Option<string> {
    var e := Effective(s);
    var body :=
      if e.properties.Properties? then
        match InterfaceLines(e, |e.properties.entries|)
        case None => None
        case Some(lines) => Some(Join(lines, "\n"))
      else Some("");
    match body
    case None => None
    case Some(b) =>
      Some(Join(imports, "\n") + "\nexport interface " + name + extendsClause + " {\n" + b + "\n}\n")
  }

  method GenerateInterfaceContent(name: string, s: Schema, imports: seq<string>, extendsClause: string)
    returns (r: Option<string>)
    ensures r == InterfaceContent(name, s, imports, extendsClause)
  {
    var schema := s;
    if s.allOf.AllOf? {
      var properties, required := HandleAllOf(s.allOf.members);
      schema := Schema(None, "", "", "", None, Properties(properties), Some(required), None, NoAllOf);
    }
    var body := "";
    if schema.properties.Properties? {
      var lines := InterfaceLines(schema, |schema.properties.entries|);
      if lines.None? {
        return None;
      }
      body := Join(lines.value, "\n");
    }
    r := Some(Join(imports, "\n") + "\nexport interface " + name + extendsClause + " {\n" + body + "\n}\n");
  }

  /** With `allOf`, properties and `required` beside it do not reach the output. */
  lemma {:induction false} SiblingPropertiesIgnored(name: string, s: Schema, p: Properties, q: Option<seq<string>>,
                                                    imports: seq<string>, extendsClause: string)
    requires s.allOf.AllOf?
    ensures InterfaceContent(name, s, imports, extendsClause)
         == InterfaceContent(name, s.(properties := p, required := q), imports, extendsClause)
  {
    assert Effective(s) == Effective(s.(properties := p, required := q));
  }

  /** Line `k` read from any longer prefix. */
  lemma {:induction false} InterfaceLinesAt(s: Schema, k: nat, n: nat)
    requires s.properties.Properties? && k < n <= |s.properties.entries|
    requires InterfaceLines(s, n).Some?
    ensures var p := s.properties.entries[k];
      MapType(p.1).Some? && InterfaceLines(s, n).value[k] == InterfaceLine(p.0, !IsRequired(s, p.0), MapType(p.1).value)
    decreases n
  {
    var p := s.properties.entries[n - 1];
    assert InterfaceLines(s, n - 1).Some? && MapType(p.1).Some?;
    var init := InterfaceLines(s, n - 1).value;
    var line := InterfaceLine(p.0, !IsRequired(s, p.0), MapType(p.1).value);
    assert InterfaceLines(s, n).value == init + [line];
    if k < n - 1 {
      assert (init + [line])[k] == init[k];
      InterfaceLinesAt(s, k, n - 1);
    }
  }

  /**
    Each member line of the interface is two spaces and the property's name,
    followed by `?` exactly when the name is not required.
  */
  lemma {:induction false} InterfaceOptionalMarker(s: Schema, k: nat)
    requires s.properties.Properties? && k < |s.properties.entries|
    requires InterfaceLines(s, |s.properties.entries|).Some?
    ensures var name := s.properties.entries[k].0;
      var line := InterfaceLines(s, |s.properties.entries|).value[k];
      && |name| + 2 < |line| && line[2..|name| + 2] == name
      && (line[|name| + 2] == '?' <==> !IsRequired(s, name))
  {
    InterfaceLinesAt(s, k, |s.properties.entries|);
    var p := s.properties.entries[k];
    InterfaceLineMarker(p.0, !IsRequired(s, p.0), MapType(p.1).value);
  }

  lemma {:induction false} InterfaceLineMarker(name: string, optional: bool, tsType: string)
    ensures var line := InterfaceLine(name, optional, tsType);
      |name| + 2 < |line| && line[2..|name| + 2] == name && (line[|name| + 2] == '?' <==> optional)
  {
    var line := InterfaceLine(name, optional, tsType);
    if optional {
      assert line == "  " + name + ("?" + ": " + tsType + ";");
    } else {
      assert line == "  " + name + (": " + tsType + ";");
    }
  }

  /**
    With `allOf`, a property is required iff some member without a `$ref`
    lists it in its `required`.
  */
  lemma {:induction false} AllOfRequired(s: Schema, y: string)
    requires s.allOf.AllOf?
    ensures IsRequired(Effective(s), y) <==>
      exists i :: 0 <= i < |s.allOf.members| && !HasTruthyRef(s.allOf.members[i])
        && y in MemberRequired(s.allOf.members[i])
  {
    MergedRequiredContents(s.allOf.members, y);
  }

  // ---------------------------------------------------------------------------
  // `generate`

  /** The file written for one schema: its name and its text, `None` where `mapType` throws. */
  function SchemaFile(schemaName: string, s: Schema): Option<(string, string)> {
    match InterfaceContent(Pascal(schemaName), s, SetAddAll([], ImportOrder(s)), ExtendsClause(s))
    case None => None
    case Some(content) => Some((FileName(schemaName), content))
  }

  /** One iteration of `generate`: the file name and the interface text for one named schema. */
  method SchemaFileOf(entry: (string, Schema)) returns (file: Option<(string, string)>)
    ensures file == FileFor(entry)
  {
    var (schemaName, s) := entry;
    var interfaceName := Pascal(schemaName);
    var fileName := Lower(interfaceName) + ".ts";
    var imports, extendsClause := ResolveImportsAndExtends(s);
    var content := GenerateInterfaceContent(interfaceName, s, imports, extendsClause);
    if content.None? {
      return None;
    }
    return Some((fileName, content.value));
  }

  /** The file written for a named schema, as a function of the pair. */
  function FileFor(entry: (string, Schema)): Option<(string, string)> {
    SchemaFile(entry.0, entry.1)
  }

  /**
    What a loop that writes `f(e)` for each `e` in turn produces when `f`
    throws (`None`) on some element: the results before it, and whether it
    threw.
  */
  function UntilFailure<E, F>(f: E -> Option<F>, entries: seq<E>): (seq<F>, bool) {
    if entries == [] then ([], false)
    else match f(entries[0])
      case None => ([], true)
      case Some(x) =>
        var rest := UntilFailure(f, entries[1..]);
        ([x] + rest.0, rest.1)
  }

  /**
    The results are those of a prefix of the elements, each `f` of its
    element; a shorter prefix means `f` threw on the next element.
  */
  lemma {:induction false} UntilFailurePrefix<E, F>(f: E -> Option<F>, entries: seq<E>)
    ensures var (results, failed) := UntilFailure(f, entries);
      && |results| <= |entries|
      && (forall i :: 0 <= i < |results| ==> f(entries[i]) == Some(results[i]))
      && (failed <==> |results| < |entries|)
      && (failed ==> f(entries[|results|]).None?)
  {
    if entries != [] && f(entries[0]).Some? {
      UntilFailurePrefix(f, entries[1..]);
      var rest := UntilFailure(f, entries[1..]);
      var results := UntilFailure(f, entries).0;
      assert results == [f(entries[0]).value] + rest.0;
      forall i | 0 < i < |results| ensures f(entries[i]) == Some(results[i]) {
        assert entries[1..][i - 1] == entries[i];
      }
    }
  }

  /** One step of such a loop, at element `i`. */
  lemma {:induction false} UntilFailureStep<E, F>(f: E -> Option<F>, entries: seq<E>, i: nat, acc: seq<F>)
    requires i < |entries|
    requires UntilFailure(f, entries) == (acc + UntilFailure(f, entries[i..]).0, UntilFailure(f, entries[i..]).1)
    ensures f(entries[i]).None? ==> UntilFailure(f, entries) == (acc, true)
    ensures f(entries[i]).Some? ==>
      UntilFailure(f, entries)
        == ((acc + [f(entries[i]).value]) + UntilFailure(f, entries[i + 1..]).0, UntilFailure(f, entries[i + 1..]).1)
  {
    assert entries[i..][0] == entries[i] && entries[i..][1..] == entries[i + 1..];
    if f(entries[i]).None? {
      assert acc + [] == acc;
    } else {
      var rest := UntilFailure(f, entries[i + 1..]);
      assert acc + ([f(entries[i]).value] + rest.0) == (acc + [f(entries[i]).value]) + rest.0;
    }
  }

  /**
    `generate(schemas)`, with the file writes collected instead of performed:
    one file per schema, in order, until a schema makes `mapType` throw.
  */
  method Generate(schemas: seq<(string, Schema)>) returns (files: seq<(string, string)>, failed: bool)
    ensures (files, failed) == UntilFailure(FileFor, schemas)
  {
    files, failed := [], false;
    var i := 0;
    assert schemas[0..] == schemas;
    assert [] + UntilFailure(FileFor, schemas).0 == UntilFailure(FileFor, schemas).0;
    while i < |schemas|
      invariant i <= |schemas|
      invariant UntilFailure(FileFor, schemas)
             == (files + UntilFailure(FileFor, schemas[i..]).0, UntilFailure(FileFor, schemas[i..]).1)
    {
      var file := SchemaFileOf(schemas[i]);
      UntilFailureStep(FileFor, schemas, i, files);
      if file.None? {
        return files, true;
      }
      files := files + [file.value];
      i := i + 1;
    }
    assert schemas[i..] == [];
    assert files + [] == files;
  }
}
