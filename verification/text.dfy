/** The string operations the pages use: `toLowerCase` (on ASCII letters),
    `includes` (substring test), `trim` and the case-insensitive name search
    built from them. */
module Text {

  predicate IsUpper(c: char) {
    'A' <= c <= 'Z'
  }

  /** `toLowerCase` on one character: ASCII capitals move down by 32, every
      other character is left as it is. */
  function LowerChar(c: char): (d: char)
    ensures !IsUpper(d)
    ensures IsUpper(c) <==> d != c
    ensures IsUpper(c) ==> 'a' <= d <= 'z'
  {
    if IsUpper(c) then (c as int + 32) as char else c
  }

  /** `toLowerCase` on a string, character by character. */
  function Lower(s: string): (r: string)
    ensures |r| == |s|
    ensures forall i :: 0 <= i < |s| ==> r[i] == LowerChar(s[i])
  {
    seq(|s|, i requires 0 <= i < |s| => LowerChar(s[i]))
  }

  lemma LowerIdempotent(s: string)
    ensures Lower(Lower(s)) == Lower(s)
  {
  }

  lemma LowerSlice(s: string, i: nat, j: nat)
    requires i <= j <= |s|
    ensures Lower(s[i..j]) == Lower(s)[i..j]
  {
  }

  /** `s.includes(q)`: `q` occurs in `s` as a contiguous block. */
  predicate Contains(s: string, q: string)
    decreases |s|
  {
    q <= s || (s != [] && Contains(s[1..], q))
  }

  /** The position-based reading of `includes`. */
  ghost predicate OccursAt(s: string, q: string, i: int) {
    0 <= i && i + |q| <= |s| && s[i..i + |q|] == q
  }

  /** `Contains` holds exactly when `q` occurs at some position of `s`. */
  lemma {:induction false} ContainsIff(s: string, q: string)
    ensures Contains(s, q) <==> exists i :: OccursAt(s, q, i)
    decreases |s|
  {
    if q <= s {
      assert OccursAt(s, q, 0);
    } else if s == [] {
      assert |q| > 0;
    } else {
      ContainsIff(s[1..], q);
      if exists i :: OccursAt(s[1..], q, i) {
        var i :| OccursAt(s[1..], q, i);
        assert s[i + 1..i + 1 + |q|] == s[1..][i..i + |q|];
        assert OccursAt(s, q, i + 1);
      }
      if exists i :: OccursAt(s, q, i) {
        var i :| OccursAt(s, q, i);
        assert s[1..][i - 1..i - 1 + |q|] == s[i..i + |q|];
        assert OccursAt(s[1..], q, i - 1);
      }
    }
  }

  /** A block of a block of `s` is a block of `s`. */
  lemma ContainsTransitive(s: string, m: string, q: string)
    requires Contains(s, m) && Contains(m, q)
    ensures Contains(s, q)
  {
    ContainsIff(s, m);
    ContainsIff(m, q);
    var i :| OccursAt(s, m, i);
    var j :| OccursAt(m, q, j);
    forall k | 0 <= k < |q| ensures s[i + j + k] == q[k] {
      assert q[k] == m[j + k] == s[i..i + |m|][j + k];
    }
    assert s[i + j..i + j + |q|] == q;
    assert OccursAt(s, q, i + j);
    ContainsIff(s, q);
  }

  /** Lower-casing keeps every occurrence. */
  lemma LowerContains(s: string, q: string)
    requires Contains(s, q)
    ensures Contains(Lower(s), Lower(q))
  {
    ContainsIff(s, q);
    var i :| OccursAt(s, q, i);
    LowerSlice(s, i, i + |q|);
    assert OccursAt(Lower(s), Lower(q), i);
    ContainsIff(Lower(s), Lower(q));
  }

  /** The search predicate the skill lists share:
      `name.toLowerCase().includes(query.toLowerCase())`. */
  predicate MatchesQuery(name: string, query: string) {
    Contains(Lower(name), Lower(query))
  }

  /** The empty query matches every name. */
  lemma MatchesEmptyQuery(name: string)
    ensures MatchesQuery(name, "")
  {
    assert Lower("") <= Lower(name);
  }

  /** The search ignores case on both sides. */
  lemma MatchesIgnoresCase(name: string, query: string)
    ensures MatchesQuery(Lower(name), query) == MatchesQuery(name, query)
    ensures MatchesQuery(name, Lower(query)) == MatchesQuery(name, query)
  {
    LowerIdempotent(name);
    LowerIdempotent(query);
  }

  /** Typing more narrows the search: when `q2` contains `q1`, every name
      that matches `q2` also matches `q1`. */
  lemma MatchesNarrower(name: string, q1: string, q2: string)
    requires Contains(q2, q1)
    requires MatchesQuery(name, q2)
    ensures MatchesQuery(name, q1)
  {
    LowerContains(q2, q1);
    ContainsTransitive(Lower(name), Lower(q2), Lower(q1));
  }

  /** The characters `String.prototype.trim` removes: ECMAScript WhiteSpace
      (tab, vertical tab, form feed, the byte-order mark and the Unicode
      space separators) and LineTerminator. */
  predicate IsWhitespace(c: char) {
    || c == '\U{0009}' || c == '\U{000B}' || c == '\U{000C}' || c == '\U{0020}'
    || c == '\U{00A0}' || c == '\U{FEFF}' || c == '\U{1680}'
    || ('\U{2000}' <= c <= '\U{200A}') || c == '\U{202F}' || c == '\U{205F}' || c == '\U{3000}'
    || c == '\U{000A}' || c == '\U{000D}' || c == '\U{2028}' || c == '\U{2029}'
  }

  /** `s` with its leading whitespace removed: a suffix of `s` that does not
      start with whitespace, everything before it being whitespace. */
  function TrimStart(s: string): (r: string)
    ensures |r| <= |s| && r == s[|s| - |r|..]
    ensures forall i :: 0 <= i < |s| - |r| ==> IsWhitespace(s[i])
    ensures r == [] || !IsWhitespace(r[0])
  {
    if s != [] && IsWhitespace(s[0]) then
      var r := TrimStart(s[1..]);
      assert r == s[|s| - |r|..];
      r
    else
      s
  }

  /** `s` with its trailing whitespace removed: a prefix of `s` that does
      not end with whitespace, everything after it being whitespace. */
  function TrimEnd(s: string): (r: string)
    ensures |r| <= |s| && r == s[..|r|]
    ensures forall i :: |r| <= i < |s| ==> IsWhitespace(s[i])
    ensures r == [] || !IsWhitespace(r[|r| - 1])
  {
    if s != [] && IsWhitespace(s[|s| - 1]) then
      var p := s[..|s| - 1];
      var r := TrimEnd(p);
      assert r == s[..|r|];
      r
    else
      s
  }

  /** `s.trim()`. */
  function Trim(s: string): string {
    TrimEnd(TrimStart(s))
  }

  /** `s.trim()` is empty exactly when `s` consists of whitespace only. */
  lemma TrimEmptyIff(s: string)
    ensures Trim(s) == "" <==> forall i :: 0 <= i < |s| ==> IsWhitespace(s[i])
  {
    var t := TrimStart(s);
    var d := |s| - |t|;
    if Trim(s) == "" {
      // A non-empty `t` would start with a character `TrimEnd` keeps.
      assert t == [];
    } else {
      assert t != [];
      assert s[d] == t[0];
    }
  }
}
