/**
 * The few JavaScript built-ins the storefront's arithmetic and text handling rely on:
 * `Math.round`, `String.prototype.trim` and (for ASCII letters) `toUpperCase`.
 */
module JsBuiltins {

  /** `Math.round(x)`: the nearest integer, a half rounded towards positive infinity. */
  function Round(x: real): (r: int)
    ensures r as real - 0.5 <= x < r as real + 0.5
  {
    (x + 0.5).Floor
  }

  /** The characters `trim` removes: ECMAScript WhiteSpace and LineTerminator code points. */
  predicate IsWhitespace(c: char) {
    var u := c as int;
    u == 9 || u == 10 || u == 11 || u == 12 || u == 13 || u == 32 || u == 0xA0
    || u == 0x1680 || (0x2000 <= u <= 0x200A) || u == 0x2028 || u == 0x2029
    || u == 0x202F || u == 0x205F || u == 0x3000 || u == 0xFEFF
  }

  predicate AllWhitespace(s: string) {
    forall k :: 0 <= k < |s| ==> IsWhitespace(s[k])
  }

  /** Drops the leading whitespace of `s`. */
  function TrimStart(s: string): (r: string)
    ensures |r| <= |s| && r == s[|s| - |r|..]
    ensures AllWhitespace(s[..|s| - |r|])
    ensures r != [] ==> !IsWhitespace(r[0])
  {
    if s != [] && IsWhitespace(s[0]) then TrimStart(s[1..]) else s
  }

  /** Drops the trailing whitespace of `s`. */
  function TrimEnd(s: string): (r: string)
    ensures |r| <= |s| && r == s[..|r|]
    ensures AllWhitespace(s[|r|..])
    ensures r != [] ==> !IsWhitespace(r[|r| - 1])
  {
    if s != [] && IsWhitespace(s[|s| - 1]) then TrimEnd(s[..|s| - 1]) else s
  }

  /** `s.trim()`: `s` without its leading and trailing whitespace. */
  function Trim(s: string): (r: string)
    ensures r != [] ==> !IsWhitespace(r[0]) && !IsWhitespace(r[|r| - 1])
    ensures r == [] <==> AllWhitespace(s)
  {
    var t := TrimStart(s);
    assert AllWhitespace(s) ==> t == [];
    assert t == [] ==> AllWhitespace(s) by {
      if t == [] { assert s[..|s| - |t|] == s; }
    }
    TrimEnd(t)
  }

  /**
   * `r` is the slice of `s` that starts at `i`, and everything of `s` before and after it is
   * whitespace.
   */
  predicate IsMiddle(s: string, i: int, r: string) {
    0 <= i && i + |r| <= |s| && r == s[i..i + |r|]
    && AllWhitespace(s[..i]) && AllWhitespace(s[i + |r|..])
  }

  /**
   * `trim` keeps a contiguous middle of `s`: what it drops before that middle and what it
   * drops after it are whitespace, and nothing else is dropped.
   */
  lemma TrimIsMiddle(s: string)
    ensures IsMiddle(s, |s| - |TrimStart(s)|, Trim(s))
  {
    var t := TrimStart(s);
    MiddleOfSuffix(s, t, TrimEnd(t));
  }

  /** A prefix of a suffix of `s`, with whitespace dropped at both ends, is a middle of `s`. */
  lemma MiddleOfSuffix(s: string, t: string, r: string)
    requires |t| <= |s| && t == s[|s| - |t|..] && AllWhitespace(s[..|s| - |t|])
    requires |r| <= |t| && r == t[..|r|] && AllWhitespace(t[|r|..])
    ensures IsMiddle(s, |s| - |t|, r)
  {
    var i := |s| - |t|;
    assert t[|r|..] == s[i + |r|..];
  }

  /** Trimming a string that already starts and ends with a non-whitespace character leaves it alone. */
  lemma {:induction false} TrimOfTrimmed(s: string)
    requires s != [] && !IsWhitespace(s[0]) && !IsWhitespace(s[|s| - 1])
    ensures Trim(s) == s
  {
  }

  /** A string that starts with a non-whitespace character has no leading whitespace to drop. */
  lemma TrimStartOfLetter(s: string)
    requires s != [] && !IsWhitespace(s[0])
    ensures TrimStart(s) == s
  {
  }

  /** Trailing whitespace appended to a string that ends in a non-whitespace character is what `TrimEnd` removes. */
  lemma {:induction false} TrimEndOfPadded(s: string, pad: string)
    requires s != [] && !IsWhitespace(s[|s| - 1])
    requires AllWhitespace(pad)
    ensures TrimEnd(s + pad) == s
    decreases |pad|
  {
    if pad != [] {
      var shorter := pad[..|pad| - 1];
      assert (s + pad)[..|s + pad| - 1] == s + shorter;
      TrimEndOfPadded(s, shorter);
    } else {
      assert s + pad == s;
    }
  }

  /** `c.toUpperCase()` for an ASCII letter; every other character is kept. */
  function UpperChar(c: char): (r: char)
    ensures 'a' <= c <= 'z' ==> 'A' <= r <= 'Z' && r as int == c as int - 32
    ensures !('a' <= c <= 'z') ==> r == c
  {
    if 'a' <= c <= 'z' then (c as int - 32) as char else c
  }

  /** `s.toUpperCase()` restricted to ASCII letters. */
  function UpperCase(s: string): (r: string)
    ensures |r| == |s|
  {
    if s == [] then [] else [UpperChar(s[0])] + UpperCase(s[1..])
  }

  /** Each character of the upper-cased string is the upper case of the character in its place. */
  lemma {:induction false} UpperCaseAt(s: string, k: int)
    requires 0 <= k < |s|
    ensures UpperCase(s)[k] == UpperChar(s[k])
  {
    if k > 0 {
      UpperCaseAt(s[1..], k - 1);
    }
  }
}
