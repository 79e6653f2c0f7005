/**
 * The regular expressions of the sign-in, registration and password-reset forms, written as
 * character-class predicates over ASCII text.
 */
module Patterns {
  import opened Ascii

  /** `[^\s@]` */
  predicate PlainChar(c: char)
  {
    !IsWhitespace(c) && c != '@'
  }

  /**
   * `/^[^\s@]+@[^\s@]+\.[^\s@]+$/` (registration and password reset): an '@' after at least one
   * character, a '.' with at least one character on each side between it and the end, and no
   * whitespace or other '@' anywhere.
   */
  predicate SimpleEmail(s: string)
  {
    exists i, j :: 0 < i && i + 1 < j && j + 1 < |s| && s[i] == '@' && s[j] == '.' && PlainBesides(s, i)
  }

  predicate PlainBesides(s: string, i: int)
  {
    forall k :: 0 <= k < |s| && k != i ==> PlainChar(s[k])
  }

  predicate AllPlain(s: string)
  {
    forall k :: 0 <= k < |s| ==> PlainChar(s[k])
  }

  /** Every text of the form A@B.C with A, B and C non-empty and free of whitespace and '@' passes. */
  lemma SimpleEmailOfParts(a: string, b: string, c: string)
    requires a != [] && b != [] && c != []
    requires AllPlain(a) && AllPlain(b) && AllPlain(c)
    ensures SimpleEmail(a + "@" + b + "." + c)
  {
    var s := a + "@" + b + "." + c;
    var i, j := |a|, |a| + 1 + |b|;
    assert s[i] == '@' && s[j] == '.';
    forall k | 0 <= k < |s| && k != i ensures PlainChar(s[k]) {
      if k < i { assert s[k] == a[k]; }
      else if k < j { assert s[k] == b[k - i - 1]; }
      else if k > j { assert s[k] == c[k - j - 1]; }
    }
    assert PlainBesides(s, i);
  }

  /** ... and every text that passes has that form, with the '@' splitting it uniquely. */
  lemma SimpleEmailParts(s: string) returns (a: string, b: string, c: string)
    requires SimpleEmail(s)
    ensures s == a + "@" + b + "." + c
    ensures a != [] && b != [] && c != []
    ensures AllPlain(a) && AllPlain(b) && AllPlain(c)
  {
    var i, j :| 0 < i && i + 1 < j && j + 1 < |s| && s[i] == '@' && s[j] == '.' && PlainBesides(s, i);
    a, b, c := s[..i], s[i + 1..j], s[j + 1..];
    assert s == a + "@" + b + "." + c;
    assert forall k :: 0 <= k < |b| ==> b[k] == s[i + 1 + k];
    assert forall k :: 0 <= k < |c| ==> c[k] == s[j + 1 + k];
  }

  /** `[\w.-]` */
  predicate LocalChar(c: char)
  {
    IsWordChar(c) || c == '.' || c == '-'
  }

  /** `[\w-]` */
  predicate LabelChar(c: char)
  {
    IsWordChar(c) || c == '-'
  }

  /** Text matched by `([\w-]+\.)+` once its final dot is removed: labels joined by single dots. */
  predicate DottedLabels(h: string)
  {
    && |h| > 0
    && h[0] != '.'
    && h[|h| - 1] != '.'
    && (forall k :: 0 <= k < |h| ==> LabelChar(h[k]) || h[k] == '.')
    && (forall k :: 0 <= k < |h| - 1 ==> h[k] == '.' ==> h[k + 1] != '.')
  }

  /**
   * `/^[\w-\.]+@([\w-]+\.)+[\w-]{2,4}$/` (sign-in): a non-empty local part over `[\w.-]`, an '@',
   * one or more dot-terminated labels over `[\w-]`, then a final label of 2 to 4 characters.
   * In the class `[\w-\.]` the '-' follows a class escape and so stands for itself.
   */
  predicate LoginEmail(s: string)
  {
    exists i, j :: 0 < i && i + 1 < j && j + 3 <= |s| <= j + 5 && s[i] == '@' && s[j] == '.' && LoginParts(s, i, j)
  }

  predicate LoginParts(s: string, i: int, j: int)
    requires 0 < i < j < |s|
  {
    && (forall k :: 0 <= k < i ==> LocalChar(s[k]))
    && DottedLabels(s[i + 1..j])
    && (forall k :: j < k < |s| ==> LabelChar(s[k]))
  }

  /** Every address the sign-in form accepts is also accepted by the registration form. */
  lemma LoginEmailIsSimpleEmail(s: string)
    requires LoginEmail(s)
    ensures SimpleEmail(s)
  {
    var i, j :| 0 < i && i + 1 < j && j + 3 <= |s| <= j + 5 && s[i] == '@' && s[j] == '.' && LoginParts(s, i, j);
    var h := s[i + 1..j];
    forall k | 0 <= k < |s| && k != i ensures PlainChar(s[k]) {
      if i < k < j {
        assert s[k] == h[k - i - 1];
      }
    }
    assert PlainBesides(s, i);
  }

  /** The converse fails: a one-letter final label passes registration but not sign-in. */
  lemma SimpleEmailNotLoginEmail()
    ensures SimpleEmail("a@b.c") && !LoginEmail("a@b.c")
  {
    var s := "a@b.c";
    assert s[1] == '@' && s[3] == '.' && PlainBesides(s, 1);
  }

  /** `[a-zA-Z\d@$!%*?&]` */
  predicate PasswordChar(c: char)
  {
    IsLower(c) || IsUpper(c) || IsDigit(c)
    || c == '@' || c == '$' || c == '!' || c == '%' || c == '*' || c == '?' || c == '&'
  }

  /**
   * `/^(?=.*[a-z])(?=.*[A-Z])(?=.*\d)[a-zA-Z\d@$!%*?&]{8,}$/`: at least eight characters, all from
   * the class, with a lower-case letter, an upper-case letter and a digit among them.
   */
  predicate StrongPassword(s: string)
  {
    && |s| >= 8
    && (forall k :: 0 <= k < |s| ==> PasswordChar(s[k]))
    && (exists k :: 0 <= k < |s| && IsLower(s[k]))
    && (exists k :: 0 <= k < |s| && IsUpper(s[k]))
    && (exists k :: 0 <= k < |s| && IsDigit(s[k]))
  }
}
