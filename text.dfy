/**
 * The string primitives the chat client relies on: `toLowerCase` (ASCII only),
 * `includes` and `trim`, as the browser provides them.
 */
module Text {

  /** `toLowerCase` on one character, restricted to the ASCII letters. */
  function LowerChar(c: char): char {
    if 'A' <= c <= 'Z' then (c as int + 32) as char else c
  }

  /** `s.toLowerCase()`, restricted to the ASCII letters: each character is lowercased on its own. */
  function Lower(s: string): (r: string)
    ensures |r| == |s|
    ensures forall i :: 0 <= i < |r| ==> !('A' <= r[i] <= 'Z')
  {
    seq(|s|, i requires 0 <= i < |s| => LowerChar(s[i]))
  }

  /** Lowercasing twice is lowercasing once. */
  lemma LowerIdempotent(s: string)
    ensures Lower(Lower(s)) == Lower(s)
  {
  }

  /** A string without ASCII capitals is its own lowercase form. */
  lemma LowerOfLowercase(s: string)
    requires forall i :: 0 <= i < |s| ==> !('A' <= s[i] <= 'Z')
    ensures Lower(s) == s
  {
  }

  /** `t` starts at position `i` of `s`. */
  predicate OccursAt(s: string, t: string, i: int) {
    0 <= i && i + |t| <= |s| && s[i..i + |t|] == t
  }

  /** `s.includes(t)`: `t` occurs at some position of `s`. */
  predicate Includes(s: string, t: string)
    ensures Includes(s, t) ==> |t| <= |s|
  {
    exists i :: 0 <= i <= |s| - |t| && OccursAt(s, t, i)
  }

  /** Every character of an included string is a character of the including one. */
  lemma IncludedCharsOccur(s: string, t: string)
    requires Includes(s, t)
    ensures forall k :: 0 <= k < |t| ==> t[k] in s
  {
  }

  /** A string holding a character that `s` lacks is not included in `s`. */
  lemma NotIncludedWithoutChar(s: string, t: string, k: nat)
    requires k < |t| && t[k] !in s
    ensures !Includes(s, t)
  {
  }

  /** An occurrence of `t` inside an occurrence of `u` is an occurrence in the whole string. */
  lemma IncludesTransitive(s: string, u: string, t: string)
    requires Includes(s, u) && Includes(u, t)
    ensures Includes(s, t)
  {
    var i :| 0 <= i <= |s| - |u| && OccursAt(s, u, i);
    var j :| 0 <= j <= |u| - |t| && OccursAt(u, t, j);
    forall k | 0 <= k < |t| ensures s[i + j + k] == t[k] {
      assert t[k] == u[j..j + |t|][k] == u[j + k];
      assert u[j + k] == s[i..i + |u|][j + k];
    }
    assert s[i + j..i + j + |t|] == t;
    assert OccursAt(s, t, i + j);
  }

  /**
   * The characters `String.prototype.trim` strips: the WhiteSpace code points
   * (tab, vertical tab, form feed, zero-width no-break space and the space
   * separators) and the LineTerminator code points.
   */
  predicate IsJsWhitespace(c: char) {
    c == '\t' || c == '\n' || c == '\U{B}' || c == '\U{C}' || c == '\r' || c == ' '
    || c == '\U{A0}' || c == '\U{1680}' || ('\U{2000}' <= c <= '\U{200A}')
    || c == '\U{2028}' || c == '\U{2029}' || c == '\U{202F}' || c == '\U{205F}'
    || c == '\U{3000}' || c == '\U{FEFF}'
  }

  /** Drops the leading whitespace of `s`. */
  function TrimStart(s: string): (r: string)
    ensures |r| <= |s| && r == s[|s| - |r|..]
    ensures r != [] ==> !IsJsWhitespace(r[0])
    ensures forall i :: 0 <= i < |s| - |r| ==> IsJsWhitespace(s[i])
  {
    if s != [] && IsJsWhitespace(s[0]) then TrimStart(s[1..]) else s
  }

  /** Drops the trailing whitespace of `s`. */
  function TrimEnd(s: string): (r: string)
    ensures |r| <= |s| && r == s[..|r|]
    ensures r != [] ==> !IsJsWhitespace(r[|r| - 1])
    ensures forall i :: |r| <= i < |s| ==> IsJsWhitespace(s[i])
  {
    if s != [] && IsJsWhitespace(s[|s| - 1]) then TrimEnd(s[..|s| - 1]) else s
  }

  /** `s.trim()`: the longest middle slice of `s` that neither starts nor ends with whitespace. */
  function Trim(s: string): (r: string)
    ensures |r| <= |s|
    ensures r != [] ==> !IsJsWhitespace(r[0]) && !IsJsWhitespace(r[|r| - 1])
  {
    var t := TrimStart(s);
    var r := TrimEnd(t);
    assert r != [] ==> r[0] == t[0];
    r
  }

  /** Trimming leaves nothing exactly when every character is whitespace. */
  lemma TrimEmptyIff(s: string)
    ensures Trim(s) == [] <==> forall i :: 0 <= i < |s| ==> IsJsWhitespace(s[i])
  {
  }

  /** `r` sits at offset `a` of `s`, and everything before and after it is whitespace. */
  predicate WhitespaceAround(s: string, r: string, a: int) {
    0 <= a && a + |r| <= |s| && r == s[a..a + |r|] &&
    (forall i :: 0 <= i < a ==> IsJsWhitespace(s[i])) &&
    (forall i :: a + |r| <= i < |s| ==> IsJsWhitespace(s[i]))
  }

  /** Trimming removes only surrounding whitespace: the result is a slice of the input with nothing but whitespace around it. */
  lemma TrimKeepsMiddle(s: string)
    ensures exists a :: WhitespaceAround(s, Trim(s), a)
  {
    var t := TrimStart(s);
    var r := Trim(s);
    var a := |s| - |t|;
    forall i | a + |r| <= i < |s| ensures IsJsWhitespace(s[i]) {
      assert s[i] == t[i - a];
    }
    assert r == t[..|r|];
    assert r == s[a..a + |r|];
    assert WhitespaceAround(s, r, a);
  }

  /** A string that neither starts nor ends with whitespace is its own trimmed form. */
  lemma TrimOfTrimmed(s: string)
    requires s != [] ==> !IsJsWhitespace(s[0]) && !IsJsWhitespace(s[|s| - 1])
    ensures Trim(s) == s
  {
  }

  /** Trimming an already trimmed string changes nothing. */
  lemma TrimIdempotent(s: string)
    ensures Trim(Trim(s)) == Trim(s)
  {
    TrimOfTrimmed(Trim(s));
  }
}
