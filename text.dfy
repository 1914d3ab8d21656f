/**
  String primitives shared by the generators: the character classes used by
  JavaScript regular expressions (`\w`, `\s`, `\d`), ASCII case mapping,
  `Array.prototype.join`, the last `/`-separated segment, lexicographic order
  with a sort, and insertion-ordered string sets (JavaScript `Set<string>`).
*/
module Text {

  // ---------------------------------------------------------------------------
  // Character classes

  /** `\w` in a JavaScript regular expression without the `u` flag. */
  predicate IsWordChar(c: char) {
    ('a' <= c <= 'z') || ('A' <= c <= 'Z') || ('0' <= c <= '9') || c == '_'
  }

  /** `\d`. */
  predicate IsDigit(c: char) {
    '0' <= c <= '9'
  }

  /** `\s`: the JavaScript white-space and line-terminator characters. */
  predicate IsSpace(c: char) {
    c == '\t' || c == '\n' || c == '\U{B}' || c == '\U{C}' || c == '\r' || c == ' '
    || c == '\U{A0}' || c == '\U{1680}' || ('\U{2000}' <= c <= '\U{200A}')
    || c == '\U{2028}' || c == '\U{2029}' || c == '\U{202F}' || c == '\U{205F}'
    || c == '\U{3000}' || c == '\U{FEFF}'
  }

  predicate IsUpperLetter(c: char) {
    'A' <= c <= 'Z'
  }

  predicate IsLowerLetter(c: char) {
    'a' <= c <= 'z'
  }

  function UpperChar(c: char): (r: char)
    ensures !IsLowerLetter(r)
    ensures 'a' <= c <= 'z' ==> r as int == c as int - 32
    ensures !('a' <= c <= 'z') ==> r == c
  {
    if 'a' <= c <= 'z' then (c as int - 32) as char else c
  }

  function LowerChar(c: char): (r: char)
    ensures !IsUpperLetter(r)
    ensures IsUpperLetter(c) ==> r as int == c as int + 32
    ensures !IsUpperLetter(c) ==> r == c
  {
    if 'A' <= c <= 'Z' then (c as int + 32) as char else c
  }

  // ---------------------------------------------------------------------------
  // Whole-string case mapping (`toUpperCase` / `toLowerCase` on ASCII)

  function Upper(s: string): (r: string)
    ensures |r| == |s|
    ensures forall i :: 0 <= i < |s| ==> r[i] == UpperChar(s[i])
  {
    if s == [] then [] else [UpperChar(s[0])] + Upper(s[1..])
  }

  function Lower(s: string): (r: string)
    ensures |r| == |s|
    ensures forall i :: 0 <= i < |s| ==> r[i] == LowerChar(s[i])
  {
    if s == [] then [] else [LowerChar(s[0])] + Lower(s[1..])
  }

  /** No upper-case ASCII letter occurs in `s`. */
  predicate IsLowerCase(s: string) {
    forall i :: 0 <= i < |s| ==> !IsUpperLetter(s[i])
  }

  /** No lower-case ASCII letter occurs in `s`. */
  predicate IsUpperCase(s: string) {
    forall i :: 0 <= i < |s| ==> !IsLowerLetter(s[i])
  }

  /** Upper-casing gives an upper-case string, changes nothing a second time, and keeps the string equal ignoring case. */
  lemma {:induction false} UpperIsUpperCase(s: string)
    ensures IsUpperCase(Upper(s))
    ensures Upper(Upper(s)) == Upper(s)
    ensures Lower(Upper(s)) == Lower(s)
  {
    var u := Upper(s);
    assert forall i :: 0 <= i < |s| ==> LowerChar(UpperChar(s[i])) == LowerChar(s[i]);
    assert Lower(u) == Lower(s);
  }

  lemma {:induction false} LowerIsLowerCase(s: string)
    ensures IsLowerCase(Lower(s))
    ensures Lower(Lower(s)) == Lower(s)
  {
  }

  /** Lower-casing is character by character. */
  lemma {:induction false} LowerCharwise(s: string, t: string)
    requires |s| == |t| && forall i :: 0 <= i < |s| ==> LowerChar(s[i]) == t[i]
    ensures Lower(s) == t
  {
  }

  /** Lower-casing a string that is already lower-case changes nothing. */
  lemma {:induction false} LowerOfLowerCase(s: string)
    requires IsLowerCase(s)
    ensures Lower(s) == s
  {
    if s != [] {
      LowerOfLowerCase(s[1..]);
    }
  }

  // ---------------------------------------------------------------------------
  // `.replace(/\s+/g, "")`

  function RemoveWhitespace(s: string): (r: string)
    ensures forall i :: 0 <= i < |r| ==> !IsSpace(r[i])
    ensures |r| <= |s|
    ensures (forall i :: 0 <= i < |s| ==> !IsSpace(s[i])) ==> r == s
  {
    if s == [] then []
    else if IsSpace(s[0]) then RemoveWhitespace(s[1..])
    else [s[0]] + RemoveWhitespace(s[1..])
  }

  lemma {:induction false} RemoveWhitespaceAppend(a: string, b: string)
    ensures RemoveWhitespace(a + b) == RemoveWhitespace(a) + RemoveWhitespace(b)
  {
    if a != [] {
      assert (a + b)[0] == a[0];
      assert (a + b)[1..] == a[1..] + b;
      RemoveWhitespaceAppend(a[1..], b);
      if IsSpace(a[0]) {
        assert RemoveWhitespace(a) == RemoveWhitespace(a[1..]);
      } else {
        assert RemoveWhitespace(a) == [a[0]] + RemoveWhitespace(a[1..]);
      }
    } else {
      assert a + b == b;
    }
  }

  // ---------------------------------------------------------------------------
  // `.replace(/(^\w|_\w)/g, (m) => m.replace("_", "").toUpperCase())`
  //
  // At position 0 the first alternative `^\w` wins: a leading word character
  // is upper-cased, and a leading `_` (itself a word character) is removed.
  // Elsewhere a `_` followed by a word character is replaced by that
  // character upper-cased; matches do not overlap.

  /** The scan after position 0. */
  function ScanWordStarts(s: string): (r: string)
    ensures |r| <= |s|
  {
    if s == [] then []
    else if s[0] == '_' && |s| >= 2 && IsWordChar(s[1]) then [UpperChar(s[1])] + ScanWordStarts(s[2..])
    else [s[0]] + ScanWordStarts(s[1..])
  }

  /** What the `^\w` match at position 0 becomes: upper-cased, or nothing for `_`. */
  function LeadingWordChar(c: char): (r: string)
    ensures |r| <= 1
  {
    if c == '_' then [] else [UpperChar(c)]
  }

  function ReplaceWordStarts(s: string): (r: string)
    ensures |r| <= |s|
  {
    if s != [] && IsWordChar(s[0]) then LeadingWordChar(s[0]) + ScanWordStarts(s[1..])
    else ScanWordStarts(s)
  }

  /** Without underscores the scan after position 0 changes nothing. */
  lemma {:induction false} ScanWithoutUnderscore(s: string)
    requires '_' !in s
    ensures ScanWordStarts(s) == s
  {
    if s != [] {
      assert s[0] != '_';
      ScanWithoutUnderscore(s[1..]);
    }
  }

  /**
    The scan splits over a concatenation whenever no `_` sits at the end of
    the left part, since no match can then straddle the boundary.
  */
  lemma {:induction false} ScanAppend(a: string, b: string)
    requires a == [] || a[|a| - 1] != '_'
    ensures ScanWordStarts(a + b) == ScanWordStarts(a) + ScanWordStarts(b)
  {
    if a == [] {
      assert a + b == b;
    } else if a[0] == '_' && |a| >= 2 && IsWordChar(a[1]) {
      assert (a + b)[2..] == a[2..] + b;
      ScanAppend(a[2..], b);
    } else {
      assert a[0] == '_' ==> |a| >= 2;
      assert (a + b)[1..] == a[1..] + b;
      ScanAppend(a[1..], b);
    }
  }

  /** Each `_c` pair (c a word character) after position 0 becomes upper-case `c`. */
  lemma {:induction false} UnderscorePairUpperCased(a: string, c: char, b: string)
    requires a == [] || a[|a| - 1] != '_'
    requires IsWordChar(c)
    ensures ScanWordStarts(a + ['_', c] + b) == ScanWordStarts(a) + [UpperChar(c)] + ScanWordStarts(b)
  {
    var t := ['_', c] + b;
    ScanAppend(a, t);
    assert a + ['_', c] + b == a + t;
    ScanUnderscorePair(c, b);
  }

  lemma {:induction false} ScanUnderscorePair(c: char, b: string)
    requires IsWordChar(c)
    ensures ScanWordStarts(['_', c] + b) == [UpperChar(c)] + ScanWordStarts(b)
  {
    var t := ['_', c] + b;
    assert t[0] == '_' && t[1] == c && t[2..] == b;
  }

  /** Without underscores the replacement only upper-cases the first character. */
  lemma {:induction false} WordStartsWithoutUnderscore(s: string)
    requires '_' !in s
    ensures ReplaceWordStarts(s) == if s == [] then [] else [UpperChar(s[0])] + s[1..]
  {
    if s != [] {
      ScanWithoutUnderscore(s[1..]);
      if !IsWordChar(s[0]) {
        ScanWithoutUnderscore(s);
      }
    }
  }

  /** Unfolding the replacement of a string that starts with a word character. */
  lemma {:induction false} ReplaceLeading(c: char, rest: string)
    requires IsWordChar(c)
    ensures ReplaceWordStarts([c] + rest) == LeadingWordChar(c) + ScanWordStarts(rest)
  {
    var y := [c] + rest;
    assert y[0] == c && y[1..] == rest;
  }

  lemma {:induction false} WordStartsAppendLeading(x: string, suffix: string)
    requires x != [] && x[|x| - 1] != '_' && IsWordChar(x[0])
    ensures ReplaceWordStarts(x + suffix) == ReplaceWordStarts(x) + ScanWordStarts(suffix)
  {
    var c, rest := x[0], x[1..];
    assert x == [c] + rest;
    assert x + suffix == [c] + (rest + suffix);
    ReplaceLeading(c, rest);
    ReplaceLeading(c, rest + suffix);
    ScanAppend(rest, suffix);
    assert LeadingWordChar(c) + (ScanWordStarts(rest) + ScanWordStarts(suffix))
        == (LeadingWordChar(c) + ScanWordStarts(rest)) + ScanWordStarts(suffix);
  }

  /**
    After a non-empty string that does not end in `_`, the rest of the input
    is scanned as if on its own.
  */
  lemma {:induction false} WordStartsAppendScan(x: string, suffix: string)
    requires x != [] && x[|x| - 1] != '_'
    ensures ReplaceWordStarts(x + suffix) == ReplaceWordStarts(x) + ScanWordStarts(suffix)
  {
    if IsWordChar(x[0]) {
      WordStartsAppendLeading(x, suffix);
    } else {
      ScanAppend(x, suffix);
      assert (x + suffix)[0] == x[0];
    }
  }

  /**
    Appending a suffix without underscores to a string that does not end in
    `_` appends it unchanged to the replacement.
  */
  lemma {:induction false} WordStartsAppend(x: string, suffix: string)
    requires x != [] && x[|x| - 1] != '_'
    requires '_' !in suffix
    ensures ReplaceWordStarts(x + suffix) == ReplaceWordStarts(x) + suffix
  {
    WordStartsAppendScan(x, suffix);
    ScanWithoutUnderscore(suffix);
  }

  /** The scan keeps every white-space character and introduces none. */
  lemma {:induction false} ScanKeepsSpaces(s: string, c: char)
    requires IsSpace(c)
    ensures c in s <==> c in ScanWordStarts(s)
  {
    if s != [] {
      if s[0] == '_' && |s| >= 2 && IsWordChar(s[1]) {
        ScanKeepsSpaces(s[2..], c);
        assert s == [s[0], s[1]] + s[2..];
      } else {
        ScanKeepsSpaces(s[1..], c);
        assert s == [s[0]] + s[1..];
      }
    }
  }

  // ---------------------------------------------------------------------------
  // `Array.prototype.join`

  function Join(parts: seq<string>, sep: string): (r: string)
    ensures parts == [] ==> r == []
    ensures |parts| == 1 ==> r == parts[0]
  {
    if parts == [] then []
    else if |parts| == 1 then parts[0]
    else parts[0] + sep + Join(parts[1..], sep)
  }

  /** Every part occurs in the joined string, between some prefix and some suffix. */
  lemma {:induction false} JoinOccurrence(parts: seq<string>, sep: string, k: nat) returns (before: string, after: string)
    requires k < |parts|
    ensures Join(parts, sep) == before + parts[k] + after
  {
    if |parts| == 1 {
      before, after := [], [];
    } else if k == 0 {
      before, after := [], sep + Join(parts[1..], sep);
    } else {
      var b, a := JoinOccurrence(parts[1..], sep, k - 1);
      before, after := parts[0] + sep + b, a;
    }
  }

  /** Appending the same suffix keeps strings apart. */
  lemma {:induction false} SuffixCancel(a: string, b: string, t: string)
    ensures a + t == b + t <==> a == b
  {
    if a + t == b + t {
      assert |a| == |b|;
      assert a == (a + t)[..|a|];
      assert b == (b + t)[..|b|];
    }
  }

  /** `[...xs].filter(Boolean)`: the non-empty strings, in order. */
  function NonEmpty(parts: seq<string>): (r: seq<string>)
    ensures forall i :: 0 <= i < |r| ==> r[i] != []
    ensures |r| <= |parts|
  {
    if parts == [] then []
    else if parts[0] == [] then NonEmpty(parts[1..])
    else [parts[0]] + NonEmpty(parts[1..])
  }

  lemma {:induction false} JoinAppend(a: seq<string>, b: seq<string>, sep: string)
    requires a != [] && b != []
    ensures Join(a + b, sep) == Join(a, sep) + sep + Join(b, sep)
  {
    if |a| == 1 {
      assert (a + b)[1..] == b;
    } else {
      assert (a + b)[1..] == a[1..] + b;
      JoinAppend(a[1..], b, sep);
    }
  }

  lemma {:induction false} JoinNonEmpty(parts: seq<string>, sep: string)
    requires parts != [] && forall i :: 0 <= i < |parts| ==> parts[i] != []
    ensures Join(parts, sep) != []
  {
    if |parts| > 1 {
      JoinNonEmpty(parts[1..], sep);
    }
  }

  /** `s.startsWith(p)`. */
  predicate StartsWith(s: string, p: string) {
    |p| <= |s| && s[..|p|] == p
  }

  // ---------------------------------------------------------------------------
  // `String.prototype.split` on a one-character separator

  /** `s.split(sep)`: at least one piece; `""` gives `[""]`. */
  function Split(s: string, sep: char): (r: seq<string>)
    ensures |r| >= 1
  {
    if s == [] then [[]]
    else
      var t := Split(s[1..], sep);
      if s[0] == sep then [[]] + t else [[s[0]] + t[0]] + t[1..]
  }

  /** No piece contains the separator. */
  lemma {:induction false} SplitPieces(s: string, sep: char)
    ensures forall i :: 0 <= i < |Split(s, sep)| ==> sep !in Split(s, sep)[i]
  {
    if s != [] {
      SplitPieces(s[1..], sep);
      var t := Split(s[1..], sep);
      if s[0] != sep {
        assert forall x :: x in [s[0]] + t[0] ==> x == s[0] || x in t[0];
      }
    }
  }

  /** A string without the separator is a single piece. */
  lemma {:induction false} SplitWithoutSeparator(s: string, sep: char)
    requires sep !in s
    ensures Split(s, sep) == [s]
  {
    if s != [] {
      SplitWithoutSeparator(s[1..], sep);
      assert s == [s[0]] + s[1..];
    }
  }

  /** Splitting a join at its separator gives the pieces back, when no piece contains the separator. */
  lemma {:induction false} SplitOfJoin(parts: seq<string>, sep: char)
    requires parts != []
    requires forall i :: 0 <= i < |parts| ==> sep !in parts[i]
    ensures Split(Join(parts, [sep]), sep) == parts
  {
    if |parts| == 1 {
      SplitWithoutSeparator(parts[0], sep);
    } else {
      SplitOfJoin(parts[1..], sep);
      SplitAppend(parts[0], Join(parts[1..], [sep]), sep);
      SplitWithoutSeparator(parts[0], sep);
      assert parts == [parts[0]] + parts[1..];
    }
  }

  /** Joining the pieces with the separator gives the string back. */
  lemma {:induction false} SplitJoin(s: string, sep: char)
    ensures Join(Split(s, sep), [sep]) == s
  {
    if s != [] {
      var t := Split(s[1..], sep);
      SplitJoin(s[1..], sep);
      if s[0] == sep {
        assert ([[]] + t)[1..] == t;
      } else if |t| > 1 {
        assert ([[s[0]] + t[0]] + t[1..])[1..] == t[1..];
        assert s == [s[0]] + s[1..];
      } else {
        assert s == [s[0]] + s[1..];
      }
    }
  }

  /** One step of the split: the first character either ends a piece or joins it. */
  lemma {:induction false} SplitCons(c: char, rest: string, sep: char)
    ensures var t := Split(rest, sep);
      Split([c] + rest, sep) == if c == sep then [[]] + t else [[c] + t[0]] + t[1..]
  {
    assert ([c] + rest)[0] == c && ([c] + rest)[1..] == rest;
  }

  /** Splitting at a separator splits the pieces. */
  lemma {:induction false} SplitAppend(a: string, b: string, sep: char)
    ensures Split(a + [sep] + b, sep) == Split(a, sep) + Split(b, sep)
  {
    if a == [] {
      SplitCons(sep, b, sep);
      assert a + [sep] + b == [sep] + b;
    } else {
      SplitAppend(a[1..], b, sep);
      SplitAppendStep(a, b, sep);
    }
  }

  lemma {:induction false} SplitAppendStep(a: string, b: string, sep: char)
    requires a != []
    requires Split(a[1..] + [sep] + b, sep) == Split(a[1..], sep) + Split(b, sep)
    ensures Split(a + [sep] + b, sep) == Split(a, sep) + Split(b, sep)
  {
    var rest := a[1..] + [sep] + b;
    assert a + [sep] + b == [a[0]] + rest;
    assert a == [a[0]] + a[1..];
    SplitConsAppend(a[0], a[1..], rest, Split(b, sep), sep);
  }

  /** The step of `SplitAppend` with the first character and the rest named. */
  lemma {:induction false} SplitConsAppend(c: char, a: string, rest: string, v: seq<string>, sep: char)
    requires Split(rest, sep) == Split(a, sep) + v
    ensures Split([c] + rest, sep) == Split([c] + a, sep) + v
  {
    SplitCons(c, rest, sep);
    SplitCons(c, a, sep);
    if c != sep {
      var u := Split(a, sep);
      SplitPushFront([c], u, v);
    }
  }

  /** Gluing a prefix onto the first piece commutes with appending pieces. */
  lemma {:induction false} SplitPushFront(p: string, u: seq<string>, v: seq<string>)
    requires u != []
    ensures [p + (u + v)[0]] + (u + v)[1..] == ([p + u[0]] + u[1..]) + v
  {
    assert (u + v)[0] == u[0];
    assert (u + v)[1..] == u[1..] + v;
  }

  // ---------------------------------------------------------------------------
  // `s.split("/").pop()`

  /** The part of `s` after its last `/` (all of `s` when there is none). */
  function LastSegment(s: string): (r: string)
    ensures '/' !in r
    ensures |r| <= |s| && r == s[|s| - |r|..]
    ensures |r| < |s| ==> s[|s| - |r| - 1] == '/'
  {
    if s == [] then []
    else if s[|s| - 1] == '/' then []
    else LastSegment(s[..|s| - 1]) + [s[|s| - 1]]
  }

  lemma {:induction false} LastSegmentWithoutSlash(s: string)
    requires '/' !in s
    ensures LastSegment(s) == s
  {
  }

  // ---------------------------------------------------------------------------
  // Lexicographic order on strings (`Array.prototype.sort` without a comparator)

  predicate LexLe(a: string, b: string) {
    a == [] || (b != [] && (a[0] < b[0] || (a[0] == b[0] && LexLe(a[1..], b[1..]))))
  }

  lemma {:induction false} LexLeTotal(a: string, b: string)
    ensures LexLe(a, b) || LexLe(b, a)
  {
    if a != [] && b != [] && a[0] == b[0] {
      LexLeTotal(a[1..], b[1..]);
    }
  }

  lemma {:induction false} LexLeTransitive(a: string, b: string, c: string)
    requires LexLe(a, b) && LexLe(b, c)
    ensures LexLe(a, c)
  {
    if a != [] && a[0] == b[0] && b[0] == c[0] {
      LexLeTransitive(a[1..], b[1..], c[1..]);
    }
  }

  lemma {:induction false} LexLeAntisymmetric(a: string, b: string)
    requires LexLe(a, b) && LexLe(b, a)
    ensures a == b
  {
    if a != [] {
      LexLeAntisymmetric(a[1..], b[1..]);
      assert a == [a[0]] + a[1..];
      assert b == [b[0]] + b[1..];
    }
  }

  predicate Sorted(s: seq<string>) {
    forall i, j :: 0 <= i < j < |s| ==> LexLe(s[i], s[j])
  }

  function Insert(x: string, s: seq<string>): (r: seq<string>)
    requires Sorted(s)
    ensures Sorted(r)
    ensures multiset(r) == multiset(s) + multiset{x}
  {
    if s == [] then [x]
    else if LexLe(x, s[0]) then
      assert forall j :: 0 <= j < |s| ==> LexLe(x, s[j]) by {
        forall j | 0 <= j < |s| ensures LexLe(x, s[j]) {
          if j > 0 { LexLeTransitive(x, s[0], s[j]); }
        }
      }
      [x] + s
    else
      LexLeTotal(x, s[0]);
      assert s == [s[0]] + s[1..];
      var t := Insert(x, s[1..]);
      assert forall y :: y in t ==> LexLe(s[0], y) by {
        forall y | y in t ensures LexLe(s[0], y) {
          assert y in multiset(t);
          if y != x {
            assert y in multiset(s[1..]);
            assert y in s[1..];
          }
        }
      }
      assert forall j :: 0 <= j < |t| ==> LexLe(s[0], t[j]) by {
        forall j | 0 <= j < |t| ensures LexLe(s[0], t[j]) {
          assert t[j] in t;
        }
      }
      [s[0]] + t
  }

  /** `Array.from(set).sort()`: sorted, and a permutation of its input. */
  function Sort(s: seq<string>): (r: seq<string>)
    ensures Sorted(r)
    ensures multiset(r) == multiset(s)
  {
    if s == [] then []
    else
      assert s == [s[0]] + s[1..];
      Insert(s[0], Sort(s[1..]))
  }

  // ---------------------------------------------------------------------------
  // Insertion-ordered string sets (JavaScript `Set<string>`)

  predicate NoDup(s: seq<string>) {
    forall i, j :: 0 <= i < j < |s| ==> s[i] != s[j]
  }

  /** `set.add(x)`: appends `x` unless it is already there. */
  function SetAdd(s: seq<string>, x: string): (r: seq<string>)
    ensures NoDup(s) ==> NoDup(r)
    ensures x in r
    ensures forall y :: y in r <==> y in s || y == x
    ensures |s| <= |r| && r[..|s|] == s
  {
    if x in s then s else s + [x]
  }

  /** Adds every element of `xs`, in order. */
  function SetAddAll(s: seq<string>, xs: seq<string>): seq<string>
    decreases xs
  {
    if xs == [] then s else SetAddAll(SetAdd(s, xs[0]), xs[1..])
  }

  lemma {:induction false} SetAddAllSingle(s: seq<string>, x: string)
    ensures SetAddAll(s, [x]) == SetAdd(s, x)
  {
    assert [x][1..] == [];
  }

  /**
    Adding a sequence keeps the set free of duplicates, keeps what was there
    in place, and adds exactly the elements of the sequence.
  */
  lemma {:induction false} SetAddAllContents(s: seq<string>, xs: seq<string>)
    ensures var r := SetAddAll(s, xs);
      && (NoDup(s) ==> NoDup(r))
      && (forall y :: y in r <==> y in s || y in xs)
      && |s| <= |r| && r[..|s|] == s
    decreases xs
  {
    if xs != [] {
      SetAddAllContents(SetAdd(s, xs[0]), xs[1..]);
      assert forall y :: y in xs <==> y == xs[0] || y in xs[1..] by {
        assert xs == [xs[0]] + xs[1..];
      }
      var t := SetAdd(s, xs[0]);
      var r := SetAddAll(t, xs[1..]);
      assert r[..|s|] == r[..|t|][..|s|];
    }
  }

  lemma {:induction false} SetAddAllAppend(s: seq<string>, a: seq<string>, b: seq<string>)
    ensures SetAddAll(SetAddAll(s, a), b) == SetAddAll(s, a + b)
    decreases a
  {
    if a == [] {
      assert a + b == b;
    } else {
      assert (a + b)[0] == a[0];
      assert (a + b)[1..] == a[1..] + b;
      SetAddAllAppend(SetAdd(s, a[0]), a[1..], b);
    }
  }

  /** Adding elements that are all new appends them in order. */
  lemma {:induction false} SetAddAllFresh(s: seq<string>, xs: seq<string>)
    requires NoDup(s + xs)
    ensures SetAddAll(s, xs) == s + xs
    decreases xs
  {
    if xs == [] {
      assert s + xs == s;
    } else {
      forall i | 0 <= i < |s| ensures s[i] != xs[0] {
        assert (s + xs)[i] == s[i] && (s + xs)[|s|] == xs[0];
      }
      var t := s + [xs[0]];
      assert t + xs[1..] == s + xs;
      SetAddAllFresh(t, xs[1..]);
    }
  }

  /** `[...new Set(xs)]`: the first occurrence of each element. */
  function Dedup(xs: seq<string>): (r: seq<string>)
    ensures NoDup(r)
    ensures forall y :: y in r <==> y in xs
  {
    SetAddAllContents([], xs);
    SetAddAll([], xs)
  }

  /** Removing duplicates from a sequence without any changes nothing. */
  lemma {:induction false} DedupOfNoDup(xs: seq<string>)
    requires NoDup(xs)
    ensures Dedup(xs) == xs
  {
    assert [] + xs == xs;
    SetAddAllFresh([], xs);
  }

  /** The concatenation of `f(x)` over `xs`, in order (a `flatMap`). */
  function ConcatMap<E>(f: E -> seq<string>, xs: seq<E>): seq<string> {
    if xs == [] then [] else ConcatMap(f, xs[..|xs| - 1]) + f(xs[|xs| - 1])
  }

  lemma {:induction false} ConcatMapStep<E>(f: E -> seq<string>, xs: seq<E>, i: nat)
    requires i < |xs|
    ensures ConcatMap(f, xs[..i + 1]) == ConcatMap(f, xs[..i]) + f(xs[i])
  {
    assert xs[..i + 1][..i] == xs[..i];
  }

  /** Whatever one element contributes is in the concatenation. */
  lemma {:induction false} ConcatMapContains<E>(f: E -> seq<string>, xs: seq<E>, k: nat, y: string)
    requires k < |xs| && y in f(xs[k])
    ensures y in ConcatMap(f, xs)
  {
    var init := xs[..|xs| - 1];
    if k < |init| {
      assert init[k] == xs[k];
      ConcatMapContains(f, init, k, y);
    }
  }

  /** Whatever is in the concatenation comes from some element. */
  lemma {:induction false} ConcatMapOrigin<E>(f: E -> seq<string>, xs: seq<E>, y: string) returns (k: nat)
    requires y in ConcatMap(f, xs)
    ensures k < |xs| && y in f(xs[k])
  {
    var init := xs[..|xs| - 1];
    if y in ConcatMap(f, init) {
      k := ConcatMapOrigin(f, init, y);
      assert init[k] == xs[k];
    } else {
      k := |xs| - 1;
    }
  }

  /** The concatenation is empty exactly when every element contributes nothing. */
  lemma {:induction false} ConcatMapEmpty<E>(f: E -> seq<string>, xs: seq<E>)
    ensures ConcatMap(f, xs) == [] <==> forall i :: 0 <= i < |xs| ==> f(xs[i]) == []
  {
    if xs != [] {
      var init := xs[..|xs| - 1];
      ConcatMapEmpty(f, init);
      assert ConcatMap(f, xs) == ConcatMap(f, init) + f(xs[|xs| - 1]);
      if ConcatMap(f, xs) == [] {
        forall i | 0 <= i < |xs| ensures f(xs[i]) == [] {
          if i < |init| {
            assert init[i] == xs[i];
          }
        }
      }
      if forall i :: 0 <= i < |xs| ==> f(xs[i]) == [] {
        forall i | 0 <= i < |init| ensures f(init[i]) == [] {
          assert init[i] == xs[i];
        }
      }
    }
  }

  /** When every element contributes exactly one string, the concatenation is the pointwise map. */
  lemma {:induction false} ConcatMapSingletons<E>(f: E -> seq<string>, xs: seq<E>, k: nat)
    requires forall x :: |f(x)| == 1
    requires k < |xs|
    ensures |ConcatMap(f, xs)| == |xs|
    ensures ConcatMap(f, xs)[k] == f(xs[k])[0]
  {
    var init := xs[..|xs| - 1];
    assert ConcatMap(f, xs) == ConcatMap(f, init) + f(xs[|xs| - 1]);
    if k < |init| {
      ConcatMapSingletons(f, init, k);
      assert init[k] == xs[k];
    } else if init != [] {
      ConcatMapSingletons(f, init, 0);
    }
  }

  /** `x` occurs in `s` as a contiguous piece. */
  ghost predicate Contains(s: string, x: string) {
    exists before, after :: s == before + x + after
  }

  /** Every part of a join occurs in it. */
  lemma {:induction false} JoinContains(parts: seq<string>, sep: string, k: nat)
    requires k < |parts|
    ensures Contains(Join(parts, sep), parts[k])
  {
    var before, after := JoinOccurrence(parts, sep, k);
  }

  /** What occurs in `s` occurs in anything around `s`. */
  lemma {:induction false} ContainsWithin(s: string, x: string, left: string, right: string)
    requires Contains(s, x)
    ensures Contains(left + s + right, x)
  {
    var before, after :| s == before + x + after;
    assert left + s + right == (left + before) + x + (after + right);
  }

  /** What occurs in `s` occurs in `s` followed by anything. */
  lemma {:induction false} ContainsBefore(s: string, x: string, right: string)
    requires Contains(s, x)
    ensures Contains(s + right, x)
  {
    var before, after :| s == before + x + after;
    assert s + right == before + x + (after + right);
  }
}
