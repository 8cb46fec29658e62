/**
 * The JavaScript string primitives the adapter relies on: `trim`,
 * `toLowerCase` (ASCII letters only), `startsWith`, `includes`,
 * `Array.prototype.join`, and the UTF-16 `length` that input schemas bound.
 */
module Text {

  /** The characters `String.prototype.trim` strips: ECMAScript WhiteSpace and LineTerminator. */
  predicate IsWhitespace(c: char) {
    c == '\t' || c == '\n' || c == '\U{000B}' || c == '\U{000C}' || c == '\r' || c == ' '
    || c == '\U{00A0}' || c == '\U{1680}' || ('\U{2000}' <= c <= '\U{200A}')
    || c == '\U{2028}' || c == '\U{2029}' || c == '\U{202F}' || c == '\U{205F}'
    || c == '\U{3000}' || c == '\U{FEFF}'
  }

  /** A string that trims to the empty string. */
  predicate IsBlank(s: string) {
    forall i :: 0 <= i < |s| ==> IsWhitespace(s[i])
  }

  /** Number of whitespace characters at the front of `s`. */
  function LeadingWhitespace(s: string): (n: nat)
    ensures n <= |s|
    ensures forall i :: 0 <= i < n ==> IsWhitespace(s[i])
    ensures n < |s| ==> !IsWhitespace(s[n])
  {
    if |s| > 0 && IsWhitespace(s[0]) then 1 + LeadingWhitespace(s[1..]) else 0
  }

  /** Number of whitespace characters at the back of `s`. */
  function TrailingWhitespace(s: string): (n: nat)
    ensures n <= |s|
    ensures forall i :: |s| - n <= i < |s| ==> IsWhitespace(s[i])
    ensures n < |s| ==> !IsWhitespace(s[|s| - 1 - n])
  {
    if |s| > 0 && IsWhitespace(s[|s| - 1]) then 1 + TrailingWhitespace(s[..|s| - 1]) else 0
  }

  /** `s` without its leading whitespace. */
  function TrimStart(s: string): string {
    s[LeadingWhitespace(s)..]
  }

  /** `s` without its trailing whitespace. */
  function TrimEnd(s: string): string {
    s[..|s| - TrailingWhitespace(s)]
  }

  /**
   * `String.prototype.trim`: the infix of `s` left after dropping whitespace at
   * both ends; it is empty exactly when `s` is blank, and otherwise it starts
   * and ends with a non-whitespace character.
   */
  function Trim(s: string): (r: string)
    ensures |r| <= |s|
    ensures r == [] <==> IsBlank(s)
    ensures r != [] ==> !IsWhitespace(r[0]) && !IsWhitespace(r[|r| - 1])
  {
    TrimEnd(TrimStart(s))
  }

  /**
   * What trim removes is whitespace only: the result is the infix of `s`
   * between a blank prefix and a blank suffix.
   */
  lemma TrimIsInfix(s: string)
    ensures exists i, j :: 0 <= i <= j <= |s| && Trim(s) == s[i..j] && IsBlank(s[..i]) && IsBlank(s[j..])
  {
    var i := LeadingWhitespace(s);
    var j := |s| - TrailingWhitespace(s[i..]);
    assert s[i..][..|s[i..]| - TrailingWhitespace(s[i..])] == s[i..j];
    assert forall k :: 0 <= k < |s[j..]| ==> s[j..][k] == s[i..][j - i + k];
  }

  /** A string with no whitespace at either end is its own trim. */
  lemma TrimmedIsFixed(s: string)
    requires s != [] ==> !IsWhitespace(s[0]) && !IsWhitespace(s[|s| - 1])
    ensures Trim(s) == s
  {
    assert LeadingWhitespace(s) == 0;
    assert TrailingWhitespace(s) == 0;
  }

  /** Trimming twice is trimming once. */
  lemma TrimIdempotent(s: string)
    ensures Trim(Trim(s)) == Trim(s)
  {
    TrimmedIsFixed(Trim(s));
  }

  function LowerChar(c: char): (d: char)
    ensures IsWhitespace(d) <==> IsWhitespace(c)
    ensures !('A' <= d <= 'Z')
    ensures !('A' <= c <= 'Z') ==> d == c
  {
    if 'A' <= c <= 'Z' then (c as int + 32) as char else c
  }

  /** `String.prototype.toLowerCase`, restricted to the ASCII letters A-Z. */
  function Lower(s: string): (r: string)
    ensures |r| == |s|
    ensures forall i :: 0 <= i < |s| ==> r[i] == LowerChar(s[i])
  {
    seq(|s|, i requires 0 <= i < |s| => LowerChar(s[i]))
  }

  /** A string without capital ASCII letters is its own lower case. */
  lemma LowerOfLowercase(s: string)
    requires forall i :: 0 <= i < |s| ==> !('A' <= s[i] <= 'Z')
    ensures Lower(s) == s
  {
  }

  lemma LowerSlice(s: string, i: nat, j: nat)
    requires i <= j <= |s|
    ensures Lower(s)[i..j] == Lower(s[i..j])
  {
  }

  /** Lower-casing an already lower-cased string changes nothing. */
  lemma LowerIdempotent(s: string)
    ensures Lower(Lower(s)) == Lower(s)
  {
  }

  lemma {:induction false} LeadingWhitespaceOfLower(s: string)
    ensures LeadingWhitespace(Lower(s)) == LeadingWhitespace(s)
  {
    if |s| > 0 {
      LowerSlice(s, 1, |s|);
      LeadingWhitespaceOfLower(s[1..]);
    }
  }

  lemma {:induction false} TrailingWhitespaceOfLower(s: string)
    ensures TrailingWhitespace(Lower(s)) == TrailingWhitespace(s)
  {
    if |s| > 0 {
      LowerSlice(s, 0, |s| - 1);
      TrailingWhitespaceOfLower(s[..|s| - 1]);
    }
  }

  lemma TrimStartOfLower(s: string)
    ensures TrimStart(Lower(s)) == Lower(TrimStart(s))
  {
    LeadingWhitespaceOfLower(s);
    LowerSlice(s, LeadingWhitespace(s), |s|);
  }

  lemma TrimEndOfLower(s: string)
    ensures TrimEnd(Lower(s)) == Lower(TrimEnd(s))
  {
    TrailingWhitespaceOfLower(s);
    LowerSlice(s, 0, |s| - TrailingWhitespace(s));
  }

  /** Trimming and ASCII lower-casing commute. */
  lemma TrimLowerCommute(s: string)
    ensures Trim(Lower(s)) == Lower(Trim(s))
  {
    TrimStartOfLower(s);
    TrimEndOfLower(TrimStart(s));
  }

  predicate IsAsciiLetter(c: char) {
    ('a' <= c <= 'z') || ('A' <= c <= 'Z')
  }

  /** A string that lower-casing cannot change or produce, such as a CJK literal. */
  predicate Caseless(w: string) {
    forall i :: 0 <= i < |w| ==> !IsAsciiLetter(w[i])
  }

  /** For a caseless literal, comparing after lower-casing is comparing before. */
  lemma LowerEqualsCaseless(v: string, w: string)
    requires Caseless(w)
    ensures Lower(v) == w <==> v == w
  {
    if Lower(v) == w {
      assert forall i :: 0 <= i < |v| ==> v[i] == w[i] by {
        forall i | 0 <= i < |v| ensures v[i] == w[i] {
          assert LowerChar(v[i]) == w[i];
        }
      }
    }
    if v == w {
      assert forall i :: 0 <= i < |v| ==> Lower(v)[i] == w[i];
    }
  }

  /** `s.startsWith(p)` */
  predicate StartsWith(s: string, p: string) {
    |p| <= |s| && s[..|p|] == p
  }

  /** `s.includes(w)` */
  predicate Contains(s: string, w: string)
    decreases |s|
  {
    StartsWith(s, w) || (|s| > 0 && Contains(s[1..], w))
  }

  /** An occurrence at index `i` makes `s` contain `w`. */
  lemma {:induction false} ContainsAt(s: string, w: string, i: nat)
    requires i + |w| <= |s| && s[i..i + |w|] == w
    ensures Contains(s, w)
    decreases i
  {
    if i > 0 {
      assert s[1..][i - 1..i - 1 + |w|] == s[i..i + |w|];
      ContainsAt(s[1..], w, i - 1);
    } else {
      assert s[..|w|] == w;
    }
  }

  /** A string whose characters never include the first character of `w` does not contain `w`. */
  lemma {:induction false} NotContainsWithoutFirst(s: string, w: string)
    requires w != [] && w[0] !in s
    ensures !Contains(s, w)
    decreases |s|
  {
    if |s| > 0 {
      assert s[0] != w[0];
      assert w[0] !in s[1..];
      NotContainsWithoutFirst(s[1..], w);
    }
  }

  /** A string shorter than `w` does not contain it. */
  lemma {:induction false} NotContainsLonger(s: string, w: string)
    requires |s| < |w|
    ensures !Contains(s, w)
    decreases |s|
  {
    if |s| > 0 {
      NotContainsLonger(s[1..], w);
    }
  }

  lemma {:induction false} ContainsPrepend(c: string, s: string, w: string)
    requires Contains(s, w)
    ensures Contains(c + s, w)
    decreases |c|
  {
    if |c| == 0 {
      assert c + s == s;
    } else {
      assert (c + s)[1..] == c[1..] + s;
      ContainsPrepend(c[1..], s, w);
    }
  }

  lemma {:induction false} ContainsAppend(s: string, b: string, w: string)
    requires Contains(s, w)
    ensures Contains(s + b, w)
    decreases |s|
  {
    if StartsWith(s, w) {
      assert (s + b)[..|w|] == s[..|w|];
    } else {
      assert (s + b)[1..] == s[1..] + b;
      ContainsAppend(s[1..], b, w);
    }
  }

  /** Whatever an infix contains, the whole string contains. */
  lemma ContainsInfix(a: string, s: string, b: string, w: string)
    requires Contains(s, w)
    ensures Contains(a + s + b, w)
  {
    ContainsAppend(s, b, w);
    ContainsPrepend(a, s + b, w);
    assert a + (s + b) == a + s + b;
  }

  /** A string contains each of its middle parts. */
  lemma ContainsMiddle(a: string, w: string, b: string)
    ensures Contains(a + w + b, w)
  {
    ContainsAt(a + w + b, w, |a|);
  }

  /** For a caseless needle, looking for it after lower-casing finds exactly what looking before does. */
  lemma {:induction false} ContainsCaselessUnderLower(v: string, w: string)
    requires Caseless(w)
    ensures Contains(Lower(v), w) <==> Contains(v, w)
    decreases |v|
  {
    if |w| <= |v| {
      LowerSlice(v, 0, |w|);
      LowerEqualsCaseless(v[..|w|], w);
    }
    if |v| > 0 {
      LowerSlice(v, 1, |v|);
      assert Lower(v)[1..] == Lower(v[1..]);
      ContainsCaselessUnderLower(v[1..], w);
    }
  }

  /** `parts.join(sep)` */
  function Join(parts: seq<string>, sep: string): string {
    if |parts| == 0 then ""
    else if |parts| == 1 then parts[0]
    else parts[0] + sep + Join(parts[1..], sep)
  }

  /** A joined string contains every part. */
  lemma {:induction false} JoinContainsParts(parts: seq<string>, sep: string, i: nat)
    requires i < |parts|
    ensures Contains(Join(parts, sep), parts[i])
  {
    if |parts| == 1 {
      ContainsAt(parts[0], parts[0], 0);
    } else if i == 0 {
      ContainsAt(parts[0], parts[0], 0);
      ContainsAppend(parts[0], sep + Join(parts[1..], sep), parts[0]);
      assert parts[0] + sep + Join(parts[1..], sep) == parts[0] + (sep + Join(parts[1..], sep));
    } else {
      JoinContainsParts(parts[1..], sep, i - 1);
      ContainsPrepend(parts[0] + sep, Join(parts[1..], sep), parts[i]);
    }
  }

  /** Number of UTF-16 code units of `s`: JavaScript's `length`, which zod's `min`/`max` bound. */
  function Utf16Length(s: string): (n: nat)
    ensures |s| <= n <= 2 * |s|
    ensures n == 0 <==> s == []
    ensures (forall i :: 0 <= i < |s| ==> s[i] as int < 0x1_0000) ==> n == |s|
    ensures (forall i :: 0 <= i < |s| ==> s[i] as int >= 0x1_0000) ==> n == 2 * |s|
  {
    if s == [] then 0
    else (if s[0] as int >= 0x1_0000 then 2 else 1) + Utf16Length(s[1..])
  }

  /** A character outside the Basic Multilingual Plane is a surrogate pair: two units; any other is one. */
  lemma Utf16LengthOfChar(c: char)
    ensures Utf16Length([c]) == if c as int >= 0x1_0000 then 2 else 1
  {
    assert [c][1..] == [];
  }

  /** The code-unit length of a concatenation is the sum of the parts' lengths. */
  lemma {:induction false} Utf16LengthAppend(a: string, b: string)
    ensures Utf16Length(a + b) == Utf16Length(a) + Utf16Length(b)
    decreases |a|
  {
    if a != [] {
      assert (a + b)[0] == a[0];
      assert (a + b)[1..] == a[1..] + b;
      Utf16LengthAppend(a[1..], b);
    } else {
      assert a + b == b;
    }
  }
}
