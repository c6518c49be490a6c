/**
 * The two string operations the login form relies on: JavaScript's
 * `String.prototype.trim` and `String.prototype.toUpperCase`.
 */
module Text {

  /** ECMAScript WhiteSpace and LineTerminator code points: exactly what `trim` strips. */
  predicate IsWhitespace(c: char) {
    || c == '\t' || c == '\n' || c == '\U{000B}' || c == '\U{000C}' || c == '\r'
    || c == ' ' || c == '\U{00A0}' || c == '\U{1680}'
    || ('\U{2000}' <= c <= '\U{200A}')
    || c == '\U{2028}' || c == '\U{2029}' || c == '\U{202F}' || c == '\U{205F}'
    || c == '\U{3000}' || c == '\U{FEFF}'
  }

  /** A string made of whitespace only (the empty string included). */
  predicate Blank(s: string) {
    forall i :: 0 <= i < |s| ==> IsWhitespace(s[i])
  }

  /** Drops the leading whitespace: the result is the longest suffix that does not start with whitespace. */
  function TrimStart(s: string): (r: string)
    ensures |r| <= |s| && r == s[|s| - |r|..]
    ensures Blank(s[..|s| - |r|])
    ensures r == [] || !IsWhitespace(r[0])
  {
    if s != [] && IsWhitespace(s[0]) then
      var r := TrimStart(s[1..]);
      assert s[..|s| - |r|] == [s[0]] + s[1..][..|s| - 1 - |r|];
      r
    else
      s
  }

  /** Drops the trailing whitespace: the result is the longest prefix that does not end with whitespace. */
  function TrimEnd(s: string): (r: string)
    ensures |r| <= |s| && r == s[..|r|]
    ensures Blank(s[|r|..])
    ensures r == [] || !IsWhitespace(r[|r| - 1])
  {
    if s != [] && IsWhitespace(s[|s| - 1]) then
      var r := TrimEnd(s[..|s| - 1]);
      assert s[|r|..] == s[..|s| - 1][|r|..] + [s[|s| - 1]];
      r
    else
      s
  }

  /** A string cut in two is blank when both of its pieces are. */
  lemma BlankJoin(s: string, k: nat)
    requires k <= |s| && Blank(s[..k]) && Blank(s[k..])
    ensures Blank(s)
  {
    forall i | 0 <= i < |s| ensures IsWhitespace(s[i]) {
      if i < k { assert s[i] == s[..k][i]; } else { assert s[i] == s[k..][i - k]; }
    }
  }

  /** Trimming both ends leaves no whitespace at either end, and leaves nothing exactly when `s` is blank. */
  lemma TrimBothEnds(s: string)
    ensures var r := TrimEnd(TrimStart(s));
      && |r| <= |s|
      && (r != [] ==> !IsWhitespace(r[0]) && !IsWhitespace(r[|r| - 1]))
      && (r == [] <==> Blank(s))
  {
    var t := TrimStart(s);
    var r := TrimEnd(t);
    var k := |s| - |t|;
    if r == [] {
      assert t[|r|..] == t;
      assert s[k..] == t;
      BlankJoin(s, k);
    } else {
      assert r[0] == t[0];
      assert t[0] == s[k];
      assert !Blank(s) by { assert !IsWhitespace(s[k]); }
    }
  }

  /**
   * `s.trim()`: `s` without its leading and its trailing whitespace. It is empty exactly when `s` is blank, which is when
   * `!s.trim()` holds in JavaScript.
   */
  function Trim(s: string): (r: string)
    ensures |r| <= |s|
    ensures r != [] ==> !IsWhitespace(r[0]) && !IsWhitespace(r[|r| - 1])
    ensures r == [] <==> Blank(s)
  {
    TrimBothEnds(s);
    TrimEnd(TrimStart(s))
  }

  /**
   * `s.trim()` is the part of `s` between a blank prefix and a blank suffix:
   * the characters it keeps are taken from `s`, in order and contiguous.
   */
  lemma TrimIsInfix(s: string) returns (i: nat, j: nat)
    ensures i <= j <= |s|
    ensures Trim(s) == s[i..j]
    ensures Blank(s[..i]) && Blank(s[j..])
  {
    var t := TrimStart(s);
    var r := TrimEnd(t);
    i := |s| - |t|;
    j := i + |r|;
    assert s[i..j] == r;
    assert t[|r|..] == s[j..];
  }

  /** `toUpperCase` on one character, over ASCII: the letters a-z map to A-Z, every other character is kept. */
  function UpperChar(c: char): (u: char)
    ensures 'a' <= c <= 'z' ==> u as int == c as int - 32
    ensures !('a' <= c <= 'z') ==> u == c
  {
    if 'a' <= c <= 'z' then (c as int - 32) as char else c
  }

  /** `s.toUpperCase()` over ASCII: the same length, and every character upper-cased on its own. */
  function ToUpper(s: string): (r: string)
    ensures |r| == |s|
    ensures forall i :: 0 <= i < |s| ==> r[i] == UpperChar(s[i])
  {
    if s == [] then [] else [UpperChar(s[0])] + ToUpper(s[1..])
  }

  /** The lower-case twin of an upper-case ASCII letter. */
  function LowerChar(u: char): (c: char)
    requires 'A' <= u <= 'Z'
    ensures 'a' <= c <= 'z' && UpperChar(c) == u
  {
    (u as int + 32) as char
  }

  /** Upper-casing twice is upper-casing once. */
  lemma ToUpperIdempotent(s: string)
    ensures ToUpper(ToUpper(s)) == ToUpper(s)
  {
    var u := ToUpper(s);
    assert forall i :: 0 <= i < |u| ==> ToUpper(u)[i] == u[i];
  }

  /** Only two characters upper-case to a given upper-case letter: itself and its lower-case twin. */
  lemma UpperCharIs(c: char, u: char)
    requires 'A' <= u <= 'Z'
    ensures UpperChar(c) == u <==> c == u || c == LowerChar(u)
  {
  }

  /**
   * A string upper-cases to a word of upper-case letters exactly when, position by
   * position, it holds that letter in either case.
   */
  lemma ToUpperMatches(s: string, word: string)
    requires forall i :: 0 <= i < |word| ==> 'A' <= word[i] <= 'Z'
    ensures ToUpper(s) == word <==>
      |s| == |word| && forall i :: 0 <= i < |s| ==> s[i] == word[i] || s[i] == LowerChar(word[i])
  {
    if |s| == |word| {
      forall i | 0 <= i < |s| ensures ToUpper(s)[i] == word[i] <==> s[i] == word[i] || s[i] == LowerChar(word[i]) {
        UpperCharIs(s[i], word[i]);
      }
      if forall i :: 0 <= i < |s| ==> s[i] == word[i] || s[i] == LowerChar(word[i]) {
        assert forall i :: 0 <= i < |s| ==> ToUpper(s)[i] == word[i];
      }
    }
  }
}
