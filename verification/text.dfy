/** String helpers shared by the analysis routes and the page: the parts of
    JavaScript's `toLowerCase`, `trim` and `includes` that the classifiers rely on.

    Lower-casing is ASCII only (see README); the whitespace set is the one
    `String.prototype.trim` strips: the WhiteSpace and LineTerminator code points
    of the ECMAScript grammar. */
module Text {

  // ---------------------------------------------------------------------------
  // Case folding
  // ---------------------------------------------------------------------------

  /** ASCII case folding: 'A'..'Z' become 'a'..'z', every other character is kept. */
  function LowerChar(c: char): char
  {
    if 'A' <= c <= 'Z' then (c as int + 32) as char else c
  }

  /** `s.toLowerCase()`, restricted to ASCII letters. */
  function Lower(s: string): (r: string)
    ensures |r| == |s|
    ensures forall i :: 0 <= i < |s| ==> r[i] == LowerChar(s[i])
  {
    seq(|s|, i requires 0 <= i < |s| => LowerChar(s[i]))
  }

  /** Lower-casing twice is lower-casing once. */
  lemma LowerIdempotent(s: string)
    ensures Lower(Lower(s)) == Lower(s)
  {
  }

  /** Lower-casing commutes with concatenation. */
  lemma LowerAppend(a: string, b: string)
    ensures Lower(a + b) == Lower(a) + Lower(b)
  {
  }

  /** Lower-casing commutes with dropping a prefix. */
  lemma LowerDrop(s: string, k: nat)
    requires k <= |s|
    ensures Lower(s)[k..] == Lower(s[k..])
  {
  }

  // ---------------------------------------------------------------------------
  // Whitespace and trimming
  // ---------------------------------------------------------------------------

  /** The code points `String.prototype.trim` removes: TAB, VT, FF, SP, NBSP,
      ZWNBSP, the other space separators (category Zs) and the line terminators
      LF, CR, LS and PS. */
  predicate IsWhitespace(c: char)
  {
    || c == '\U{9}' || c == '\U{B}' || c == '\U{C}' || c == ' '
    || c == '\U{A0}' || c == '\U{FEFF}' || c == '\U{1680}'
    || ('\U{2000}' <= c <= '\U{200A}')
    || c == '\U{202F}' || c == '\U{205F}' || c == '\U{3000}'
    || c == '\U{A}' || c == '\U{D}' || c == '\U{2028}' || c == '\U{2029}'
  }

  /** Every character of `s` is whitespace (the empty string included). */
  predicate IsBlank(s: string)
  {
    forall i :: 0 <= i < |s| ==> IsWhitespace(s[i])
  }

  /** Length of the whitespace run at the start of `s`. */
  function Leading(s: string): (n: nat)
    ensures n <= |s|
    ensures forall i :: 0 <= i < n ==> IsWhitespace(s[i])
    ensures n < |s| ==> !IsWhitespace(s[n])
  {
    if |s| > 0 && IsWhitespace(s[0]) then 1 + Leading(s[1..]) else 0
  }

  /** Length of the whitespace run at the end of `s`. */
  function Trailing(s: string): (n: nat)
    ensures n <= |s|
    ensures forall i :: |s| - n <= i < |s| ==> IsWhitespace(s[i])
    ensures n < |s| ==> !IsWhitespace(s[|s| - 1 - n])
  {
    if |s| > 0 && IsWhitespace(s[|s| - 1]) then 1 + Trailing(s[..|s| - 1]) else 0
  }

  /** `s.trim()`: the slice of `s` left after removing the whitespace at both
      ends. It is empty exactly when `s` is blank; otherwise it starts and ends
      with a non-whitespace character and everything around it is whitespace. */
  function Trim(s: string): (r: string)
    ensures |r| <= |s|
    ensures r == [] <==> IsBlank(s)
    ensures r != [] ==> !IsWhitespace(r[0]) && !IsWhitespace(r[|r| - 1])
    ensures var a := Leading(s);
      && a + |r| <= |s|
      && s[a..a + |r|] == r
      && (forall i :: 0 <= i < a ==> IsWhitespace(s[i]))
      && (forall i :: a + |r| <= i < |s| ==> IsWhitespace(s[i]))
  {
    var a := Leading(s);
    var rest := s[a..];
    var b := Trailing(rest);
    assert forall i :: a + (|rest| - b) <= i < |s| ==> s[i] == rest[i - a];
    rest[..|rest| - b]
  }

  // ---------------------------------------------------------------------------
  // Substring containment
  // ---------------------------------------------------------------------------

  /** `s` starts with `p`. */
  predicate IsPrefix(p: string, s: string)
  {
    |p| <= |s| && s[..|p|] == p
  }

  /** `s.includes(p)`: `p` starts at some position of `s`. The empty pattern is
      contained in every string. */
  predicate Contains(s: string, p: string)
    decreases |s|
  {
    IsPrefix(p, s) || (|s| > 0 && Contains(s[1..], p))
  }

  /** `p` occurs in `s` at index `i`. */
  predicate OccursAt(s: string, p: string, i: int)
  {
    0 <= i && i + |p| <= |s| && forall k :: 0 <= k < |p| ==> s[i + k] == p[k]
  }

  /** The recursive scan agrees with the index-based reading of `includes`:
      `s` contains `p` exactly when `p` occurs at some index. */
  lemma {:induction false} ContainsIffOccurs(s: string, p: string)
    ensures Contains(s, p) <==> exists i :: OccursAt(s, p, i)
    decreases |s|
  {
    if Contains(s, p) {
      if IsPrefix(p, s) {
        assert OccursAt(s, p, 0);
      } else {
        ContainsIffOccurs(s[1..], p);
        var j :| OccursAt(s[1..], p, j);
        assert OccursAt(s, p, j + 1);
      }
    }
    if exists i :: OccursAt(s, p, i) {
      var i :| OccursAt(s, p, i);
      if i == 0 {
        assert IsPrefix(p, s);
      } else {
        assert OccursAt(s[1..], p, i - 1);
        ContainsIffOccurs(s[1..], p);
      }
    }
  }

  /** An occurrence at a given index is a containment. */
  lemma OccursContains(s: string, p: string, i: int)
    requires OccursAt(s, p, i)
    ensures Contains(s, p)
  {
    ContainsIffOccurs(s, p);
  }

  /** Whatever contains a pattern also contains each prefix of the pattern;
      this is why `'??'` and `'???'` add nothing to a group holding `'?'`. */
  lemma ContainsPrefixOfPattern(s: string, p: string, q: string)
    requires IsPrefix(q, p)
    requires Contains(s, p)
    ensures Contains(s, q)
  {
    ContainsIffOccurs(s, p);
    var i :| OccursAt(s, p, i);
    assert forall k :: 0 <= k < |q| ==> q[k] == p[k];
    OccursContains(s, q, i);
  }

  /** A containment in a suffix is a containment in the whole string. */
  lemma ContainsInSuffix(s: string, k: nat, p: string)
    requires k <= |s|
    requires Contains(s[k..], p)
    ensures Contains(s, p)
  {
    ContainsIffOccurs(s[k..], p);
    var i :| OccursAt(s[k..], p, i);
    OccursContains(s, p, k + i);
  }

  /** `patterns.some((p) => s.includes(p))`. */
  predicate ContainsAny(s: string, patterns: seq<string>)
  {
    exists i :: 0 <= i < |patterns| && Contains(s, patterns[i])
  }

  // ---------------------------------------------------------------------------
  // Trigram absence: a cheap certificate that a literal holds no pattern
  // ---------------------------------------------------------------------------

  /** The characters of `s` at `i`, `i + 1` and `i + 2`, lower-cased, spell `x y z`. */
  predicate TrigramAt(s: string, i: int, x: char, y: char, z: char)
    requires 0 <= i < |s| - 2
  {
    LowerChar(s[i]) == x && LowerChar(s[i + 1]) == y && LowerChar(s[i + 2]) == z
  }

  /** No three consecutive characters of `s`, lower-cased, spell `x y z`. */
  predicate Avoids(s: string, x: char, y: char, z: char)
  {
    forall i :: 0 <= i < |s| - 2 ==> !TrigramAt(s, i, x, y, z)
  }

  /** When no character of `w` can start `p`, an occurrence of `p` in `w + r`
      lies inside `r`. */
  lemma {:induction false} ContainsSkip(w: string, r: string, p: string)
    requires |p| > 0
    requires forall k :: 0 <= k < |w| ==> w[k] != p[0]
    requires Contains(w + r, p)
    ensures Contains(r, p)
    decreases |w|
  {
    if |w| > 0 {
      assert (w + r)[0] == w[0];
      assert !IsPrefix(p, w + r);
      assert (w + r)[1..] == w[1..] + r;
      ContainsSkip(w[1..], r, p);
    } else {
      assert w + r == r;
    }
  }

  /** A string that avoids the first three letters of a pattern does not
      contain the pattern, in any letter case. */
  lemma AvoidsNotContains(s: string, p: string)
    requires |p| >= 3
    requires Avoids(s, p[0], p[1], p[2])
    ensures !Contains(Lower(s), p)
  {
    ContainsIffOccurs(Lower(s), p);
    if Contains(Lower(s), p) {
      var i :| OccursAt(Lower(s), p, i);
      assert TrigramAt(s, i, p[0], p[1], p[2]);
    }
  }
}
