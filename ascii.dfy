/**
 * Character classes and string operations over ASCII: the regular-expression escapes `\s`, `\d`
 * and `\w`, `toLowerCase`, `toUpperCase`, `trim` and `includes`.
 */
module Ascii {

  /** `\s` restricted to ASCII: space, tab, line feed, carriage return, vertical tab, form feed. */
  predicate IsWhitespace(c: char)
  {
    c == ' ' || c == '\t' || c == '\n' || c == '\r' || c == '\U{000B}' || c == '\U{000C}'
  }

  predicate IsDigit(c: char) { '0' <= c <= '9' }

  predicate IsLower(c: char) { 'a' <= c <= 'z' }

  predicate IsUpper(c: char) { 'A' <= c <= 'Z' }

  /** `\w`: `[A-Za-z0-9_]`. */
  predicate IsWordChar(c: char) { IsLower(c) || IsUpper(c) || IsDigit(c) || c == '_' }

  function LowerChar(c: char): char
  {
    if IsUpper(c) then (c as int + 32) as char else c
  }

  function UpperChar(c: char): char
  {
    if IsLower(c) then (c as int - 32) as char else c
  }

  function ToLower(s: string): (r: string)
    ensures |r| == |s|
  {
    seq(|s|, i requires 0 <= i < |s| => LowerChar(s[i]))
  }

  function ToUpper(s: string): (r: string)
    ensures |r| == |s|
  {
    seq(|s|, i requires 0 <= i < |s| => UpperChar(s[i]))
  }

  /** Lower-casing does not depend on the case the text was in. */
  lemma LowerOfUpper(s: string)
    ensures ToLower(ToUpper(s)) == ToLower(s)
  {
    forall i | 0 <= i < |s|
      ensures ToLower(ToUpper(s))[i] == ToLower(s)[i]
    {
      var c := s[i];
      if IsLower(c) {
        assert UpperChar(c) as int == c as int - 32;
      }
    }
  }

  function TrimStart(s: string): string
  {
    if |s| > 0 && IsWhitespace(s[0]) then TrimStart(s[1..]) else s
  }

  function TrimEnd(s: string): string
  {
    if |s| > 0 && IsWhitespace(s[|s| - 1]) then TrimEnd(s[..|s| - 1]) else s
  }

  /** `trim()`: drops leading and trailing whitespace. */
  function Trim(s: string): string
  {
    TrimEnd(TrimStart(s))
  }

  predicate IsBlank(s: string)
  {
    forall i :: 0 <= i < |s| ==> IsWhitespace(s[i])
  }

  lemma {:induction false} TrimStartSpec(s: string)
    ensures |TrimStart(s)| <= |s|
    ensures TrimStart(s) == s[|s| - |TrimStart(s)|..]
    ensures IsBlank(s[..|s| - |TrimStart(s)|])
    ensures TrimStart(s) != [] ==> !IsWhitespace(TrimStart(s)[0])
  {
    if |s| > 0 && IsWhitespace(s[0]) {
      TrimStartSpec(s[1..]);
      var k := |s| - |TrimStart(s)|;
      assert s[1..][..k - 1] == s[1..k];
      assert forall i :: 1 <= i < k ==> s[i] == s[1..k][i - 1];
    }
  }

  lemma {:induction false} TrimEndSpec(s: string)
    ensures |TrimEnd(s)| <= |s|
    ensures TrimEnd(s) == s[..|TrimEnd(s)|]
    ensures IsBlank(s[|TrimEnd(s)|..])
    ensures TrimEnd(s) != [] ==> !IsWhitespace(TrimEnd(s)[|TrimEnd(s)| - 1])
  {
    if |s| > 0 && IsWhitespace(s[|s| - 1]) {
      var t := s[..|s| - 1];
      TrimEndSpec(t);
      var k := |TrimEnd(s)|;
      assert t[..k] == s[..k];
      assert forall i :: k <= i < |s| - 1 ==> s[i] == t[k..][i - k];
    }
  }

  /**
   * What `trim()` keeps: a contiguous slice of the input with no whitespace at either end, and
   * only whitespace around it. In particular it is empty exactly when the input is blank.
   */
  lemma TrimSpec(s: string)
    ensures exists i :: 0 <= i <= |s| - |Trim(s)| && Trim(s) == s[i..i + |Trim(s)|]
              && IsBlank(s[..i]) && IsBlank(s[i + |Trim(s)|..])
    ensures Trim(s) != [] ==> !IsWhitespace(Trim(s)[0]) && !IsWhitespace(Trim(s)[|Trim(s)| - 1])
    ensures Trim(s) == [] <==> IsBlank(s)
  {
    var t := TrimStart(s);
    TrimStartSpec(s);
    TrimEndSpec(t);
    var i := |s| - |t|;
    var n := |Trim(s)|;
    assert Trim(s) == s[i..i + n];
    assert s[i + n..] == t[n..];
    if Trim(s) != [] {
      assert Trim(s)[0] == t[0] == s[i];
    } else {
      assert t == [];
      forall j | 0 <= j < |s| ensures IsWhitespace(s[j]) {
        assert s[j] == s[..i][j];
      }
    }
  }

  /** `hay.includes(needle)`: the needle occurs as a contiguous slice. */
  predicate Contains(hay: string, needle: string)
  {
    exists i :: 0 <= i <= |hay| - |needle| && OccursAt(hay, needle, i)
  }

  predicate OccursAt(hay: string, needle: string, i: int)
  {
    0 <= i && i + |needle| <= |hay| && hay[i..i + |needle|] == needle
  }

  /** Every string includes the empty string. */
  lemma ContainsEmpty(hay: string)
    ensures Contains(hay, "")
  {
    assert OccursAt(hay, "", 0);
  }
}
