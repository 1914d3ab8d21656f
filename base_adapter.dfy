/**
  `BaseGenerator` (src/generator/adapter/base.adapter.ts): the casing helper
  the adapter generators inherit. Its `normalizeEndpoint` is the same
  expression as the one in `util.ts` and is `Util.NormalizeEndpoint`.
*/
module BaseAdapter {
  import opened Text
  import Util

  /**
    `toPascalCase` without the white-space removal of the `util.ts` version:
    the first word character and each word character after a `_` are
    upper-cased, and those `_` are dropped.
  */
  function ToPascalCase(s: string): (r: string)
    ensures |r| <= |s|
  {
    ReplaceWordStarts(s)
  }

  /**
    A leading word character is upper-cased (a leading `_` is dropped); the
    rest of a string without `_` is kept as it is.
  */
  lemma {:induction false} PascalOfOneWord(s: string)
    requires s != [] && '_' !in s
    ensures ToPascalCase(s) == [UpperChar(s[0])] + s[1..]
  {
    WordStartsWithoutUnderscore(s);
  }

  /**
    Joining one more word with `_`: the `_` disappears and the word's first
    character is upper-cased, everything else is unchanged.
  */
  lemma {:induction false} PascalJoinsWords(a: string, c: char, b: string)
    requires a != [] && a[|a| - 1] != '_'
    requires IsWordChar(c) && '_' !in b
    ensures ToPascalCase(a + ['_', c] + b) == ToPascalCase(a) + [UpperChar(c)] + b
  {
    var t := ['_', c] + b;
    assert a + ['_', c] + b == a + t;
    WordStartsAppendScan(a, t);
    ScanUnderscorePair(c, b);
    ScanWithoutUnderscore(b);
  }

  /** White space is kept: a white-space character occurs in the result iff it occurs in the input. */
  lemma {:induction false} PascalKeepsWhitespace(s: string, c: char)
    requires IsSpace(c)
    ensures c in s <==> c in ToPascalCase(s)
  {
    if s != [] && IsWordChar(s[0]) {
      assert s == [s[0]] + s[1..];
      ScanKeepsSpaces(s[1..], c);
      assert c !in LeadingWordChar(s[0]);
    } else {
      ScanKeepsSpaces(s, c);
    }
  }

  /** The `util.ts` variant is this one followed by removing white space. */
  lemma {:induction false} UtilPascalDropsWhitespace(s: string, c: char)
    requires IsSpace(c) && c in s
    ensures c in ToPascalCase(s) && c !in Util.ToPascalCase(s)
    ensures Util.ToPascalCase(s) == RemoveWhitespace(ToPascalCase(s))
  {
    PascalKeepsWhitespace(s, c);
  }
}
