/** String operations the modelled code takes from Python: `str.lower()`,
    `str.title()`, the `in` substring test, `str.join`, `str.replace`, and the
    regular-expression classes `\w`, `\s` and the word boundary `\b`.
    Character classes and case mappings cover ASCII and the Latin-1 letters. */
module Text {

  predicate IsUpperChar(c: char) {
    'A' <= c <= 'Z' || ('À' <= c <= 'Þ' && c != '×')
  }

  predicate IsLowerChar(c: char) {
    'a' <= c <= 'z' || ('ß' <= c <= 'þ' && c != '÷')
  }

  /** A character that has case: `str.title()` restarts a word after any other
      character. 'ª' and 'º' count as lower case, as Unicode says. */
  predicate IsCasedChar(c: char) {
    IsUpperChar(c) || IsLowerChar(c) || c == 'ª' || c == 'µ' || c == 'º' || c == 'ÿ'
  }

  function LowerChar(c: char): (r: char)
    ensures IsUpperChar(c) ==> IsLowerChar(r)
    ensures !IsUpperChar(c) ==> r == c
  {
    if IsUpperChar(c) then (c as int + 32) as char else c
  }

  /** The upper (title) case of one character; 'µ' and 'ÿ' map outside
      Latin-1, to the Greek capital mu and to 'Ÿ'. */
  function UpperChar(c: char): (r: char)
    ensures IsLowerChar(c) && c != 'ß' ==> IsUpperChar(r)
    ensures c == 'µ' ==> r == '\U{039C}'
    ensures c == 'ÿ' ==> r == '\U{0178}'
    ensures (!IsLowerChar(c) || c == 'ß') && c != 'µ' && c != 'ÿ' ==> r == c
  {
    if IsLowerChar(c) && c != 'ß' then (c as int - 32) as char
    else if c == 'µ' then '\U{039C}'
    else if c == 'ÿ' then '\U{0178}'
    else c
  }

  /** `s.lower()` */
  function Lower(s: string): (r: string)
    ensures |r| == |s|
    ensures forall i :: 0 <= i < |s| ==> r[i] == LowerChar(s[i])
  {
    seq(|s|, i requires 0 <= i < |s| => LowerChar(s[i]))
  }

  /** `s.title()`: a character is upper-cased when the character before it is
      not a cased letter (or it is the first one), and lower-cased otherwise. */
  function Title(s: string): (r: string)
    ensures |r| == |s|
  {
    seq(|s|, i requires 0 <= i < |s| =>
      if i == 0 || !IsCasedChar(s[i - 1]) then UpperChar(s[i]) else LowerChar(s[i]))
  }

  /** `sub` occurs in `s` starting at index `i`. */
  predicate SubstringAt(s: string, sub: string, i: int) {
    0 <= i && i + |sub| <= |s| && s[i..i + |sub|] == sub
  }

  /** Python's `sub in s`. */
  predicate Contains(s: string, sub: string) {
    exists i | 0 <= i <= |s| - |sub| :: SubstringAt(s, sub, i)
  }

  /** A string contains itself and the empty string. */
  lemma ContainsTrivial(s: string)
    ensures Contains(s, s) && Contains(s, "")
  {
    assert SubstringAt(s, s, 0);
    assert SubstringAt(s, "", 0);
  }

  /** A substring of either part is a substring of the concatenation. */
  lemma ContainsConcat(a: string, b: string, sub: string)
    ensures Contains(a, sub) ==> Contains(a + b, sub)
    ensures Contains(b, sub) ==> Contains(a + b, sub)
  {
    if Contains(a, sub) {
      var i :| 0 <= i <= |a| - |sub| && SubstringAt(a, sub, i);
      assert (a + b)[i..i + |sub|] == a[i..i + |sub|];
      assert SubstringAt(a + b, sub, i);
    }
    if Contains(b, sub) {
      var i :| 0 <= i <= |b| - |sub| && SubstringAt(b, sub, i);
      assert (a + b)[|a| + i..|a| + i + |sub|] == b[i..i + |sub|];
      assert SubstringAt(a + b, sub, |a| + i);
    }
  }

  /** Containment is transitive. */
  lemma ContainsTransitive(s: string, mid: string, sub: string)
    requires Contains(s, mid) && Contains(mid, sub)
    ensures Contains(s, sub)
  {
    var i :| 0 <= i <= |s| - |mid| && SubstringAt(s, mid, i);
    var j :| 0 <= j <= |mid| - |sub| && SubstringAt(mid, sub, j);
    forall k | 0 <= k < |sub| ensures s[i + j + k] == sub[k] {
      assert sub[k] == mid[j + k] == s[i + j + k];
    }
    assert s[i + j..i + j + |sub|] == sub;
    assert SubstringAt(s, sub, i + j);
  }

  /** Python's `\w`: the underscore and every character `str.isalnum()`
      accepts, which in Latin-1 are the letters, the digits, the superscript
      digits and the vulgar fractions. */
  predicate IsWordChar(c: char) {
    'a' <= c <= 'z' || 'A' <= c <= 'Z' || '0' <= c <= '9' || c == '_'
    || IsCasedChar(c) || c == '¹' || c == '²' || c == '³' || c == '¼' || c == '½' || c == '¾'
  }

  /** Python's `\s`. */
  predicate IsSpaceChar(c: char) {
    c == ' ' || 9 <= c as int <= 13 || 0x1C <= c as int <= 0x1F || c as int == 0x85 || c as int == 0xA0
  }

  /** Regular-expression `\b` at position `p` of `t`: exactly one of the
      characters on either side is a word character (outside `t` counts as not). */
  predicate AtWordBoundary(t: string, p: int)
    requires 0 <= p <= |t|
  {
    (p > 0 && IsWordChar(t[p - 1])) != (p < |t| && IsWordChar(t[p]))
  }

  /** `re.search(r'\b' + re.escape(w) + r'\b', t)` succeeds. */
  predicate OccursAsWord(t: string, w: string) {
    exists i | 0 <= i <= |t| - |w| ::
      SubstringAt(t, w, i) && AtWordBoundary(t, i) && AtWordBoundary(t, i + |w|)
  }

  /** A superscript digit continues a word, so it hides the boundary after
      the word before it, as it does for Python's `\b`. */
  lemma SuperscriptJoinsWord()
    ensures !OccursAsWord("sql²", "sql")
    ensures OccursAsWord("sql 2", "sql")
  {
    assert SubstringAt("sql 2", "sql", 0) && AtWordBoundary("sql 2", 0) && AtWordBoundary("sql 2", 3);
  }

  /** A whole-word occurrence is in particular a substring. */
  lemma OccursAsWordContains(t: string, w: string)
    ensures OccursAsWord(t, w) ==> Contains(t, w)
  {
  }

  /** `sep.join(parts)` */
  function Join(sep: string, parts: seq<string>): (r: string)
  {
    if |parts| == 0 then ""
    else if |parts| == 1 then parts[0]
    else parts[0] + sep + Join(sep, parts[1..])
  }

  /** Every joined part is a substring of the joined string. */
  lemma {:induction false} JoinContainsParts(sep: string, parts: seq<string>, k: int)
    requires 0 <= k < |parts|
    ensures Contains(Join(sep, parts), parts[k])
  {
    if |parts| == 1 {
      ContainsTrivial(parts[0]);
    } else if k == 0 {
      ContainsTrivial(parts[0]);
      ContainsConcat(parts[0], sep + Join(sep, parts[1..]), parts[0]);
      assert parts[0] + sep + Join(sep, parts[1..]) == parts[0] + (sep + Join(sep, parts[1..]));
    } else {
      JoinContainsParts(sep, parts[1..], k - 1);
      ContainsConcat(parts[0] + sep, Join(sep, parts[1..]), parts[k]);
    }
  }

  /** A joined string begins with its first part. */
  lemma JoinStartsWithFirst(sep: string, parts: seq<string>)
    requires |parts| > 0
    ensures |parts[0]| <= |Join(sep, parts)| && Join(sep, parts)[..|parts[0]|] == parts[0]
  {
    if |parts| > 1 {
      assert Join(sep, parts) == parts[0] + (sep + Join(sep, parts[1..]));
    }
  }

  /** `s.replace(c, d)` for one-character `c` and `d`. */
  function SwapChar(s: string, c: char, d: char): (r: string)
    ensures |r| == |s|
  {
    seq(|s|, i requires 0 <= i < |s| => if s[i] == c then d else s[i])
  }

  /** Swapping a character that does not occur changes nothing. */
  lemma SwapCharAbsent(s: string, c: char, d: char)
    requires c !in s
    ensures SwapChar(s, c, d) == s
  {
  }

  /** `s.replace(c, with)` for a one-character pattern `c`. */
  function ReplaceChar(s: string, c: char, with: string): (r: string)
    ensures |with| == 1 ==> |r| == |s|
    ensures c !in s ==> r == s
    ensures c !in with ==> c !in r
  {
    if s == [] then []
    else (if s[0] == c then with else [s[0]]) + ReplaceChar(s[1..], c, with)
  }

  /** Replacing works piece by piece: on a concatenation it is the
      concatenation of the replaced parts. */
  lemma {:induction false} ReplaceCharConcat(a: string, b: string, c: char, with: string)
    ensures ReplaceChar(a + b, c, with) == ReplaceChar(a, c, with) + ReplaceChar(b, c, with)
  {
    if a == [] {
      assert a + b == b;
    } else {
      assert (a + b)[1..] == a[1..] + b;
      ReplaceCharConcat(a[1..], b, c, with);
    }
  }
}
