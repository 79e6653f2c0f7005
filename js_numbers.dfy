/**
 * The two conversions between numbers and decimal text the application relies on:
 * `parseInt(text, 10)` and `Number.prototype.toString()` on integers.
 */
module JsNumbers {
  import opened Common
  import opened Ascii

  /** A JavaScript number as far as the model needs it: an integer, or NaN. */
  datatype Num = Int(value: int) | NaN

  /** `!!n`: zero and NaN are falsy. */
  predicate Truthy(n: Num)
  {
    n.Int? && n.value != 0
  }

  /** `!!o` for an optional number: present, not NaN and not zero. */
  predicate TruthyNum(o: Option<Num>)
  {
    o.Some? && Truthy(o.value)
  }

  predicate AllDigits(s: string)
  {
    forall i :: 0 <= i < |s| ==> IsDigit(s[i])
  }

  function DigitValue(c: char): nat
    requires IsDigit(c)
  {
    c as int - '0' as int
  }

  function DigitChar(d: nat): (c: char)
    requires d < 10
    ensures IsDigit(c) && DigitValue(c) == d
  {
    ('0' as int + d) as char
  }

  /** The base-10 value of a string of digits, most significant first. */
  function DecimalValue(ds: string): nat
    requires AllDigits(ds)
  {
    if ds == [] then 0 else DecimalValue(ds[..|ds| - 1]) * 10 + DigitValue(ds[|ds| - 1])
  }

  /** The longest prefix made of digits. */
  function DigitPrefix(s: string): (r: string)
    ensures AllDigits(r)
  {
    if |s| > 0 && IsDigit(s[0]) then [s[0]] + DigitPrefix(s[1..]) else []
  }

  /** The decimal text of a natural number, without leading zeros. */
  function NatToString(n: nat): (r: string)
    ensures r != [] && AllDigits(r)
  {
    if n < 10 then [DigitChar(n)] else NatToString(n / 10) + [DigitChar(n % 10)]
  }

  /** `n.toString()` for an integer. */
  function IntToString(n: int): (r: string)
    ensures r != []
  {
    if n < 0 then "-" + NatToString(-n) else NatToString(n)
  }

  /** The decimal text of a truthy number, or "" when it is missing, NaN or 0. */
  function AgeText(age: Option<Num>): string
  {
    if TruthyNum(age) then IntToString(age.value.value) else ""
  }

  /**
   * `parseInt(s, 10)`: skip leading whitespace, read an optional sign, then the longest run of
   * digits; NaN when there are none.
   */
  function ParseInt(s: string): Num
  {
    var t := TrimStart(s);
    var negative := |t| > 0 && t[0] == '-';
    var body := if |t| > 0 && (t[0] == '-' || t[0] == '+') then t[1..] else t;
    var ds := DigitPrefix(body);
    if ds == [] then NaN
    else if negative then Int(0 - DecimalValue(ds) as int)
    else Int(DecimalValue(ds))
  }

  lemma {:induction false} NatToStringValue(n: nat)
    ensures DecimalValue(NatToString(n)) == n
  {
    if n >= 10 {
      var s := NatToString(n / 10);
      NatToStringValue(n / 10);
      assert (s + [DigitChar(n % 10)])[..|s|] == s;
    }
  }

  lemma {:induction false} DigitPrefixOfDigits(s: string)
    requires AllDigits(s)
    ensures DigitPrefix(s) == s
  {
    if |s| > 0 {
      DigitPrefixOfDigits(s[1..]);
    }
  }

  /** A non-empty run of digits parses to its base-10 value. */
  lemma ParseDigits(ds: string)
    requires ds != [] && AllDigits(ds)
    ensures ParseInt(ds) == Int(DecimalValue(ds))
  {
    DigitPrefixOfDigits(ds);
  }

  /** Parsing the decimal text of an integer gives the integer back. */
  lemma ParseIntToString(n: int)
    ensures ParseInt(IntToString(n)) == Int(n)
  {
    var m := if n < 0 then -n else n;
    var digits := NatToString(m);
    DigitPrefixOfDigits(digits);
    NatToStringValue(m);
    if n < 0 {
      assert ("-" + digits)[1..] == digits;
    }
  }
}
