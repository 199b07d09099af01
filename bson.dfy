/** Field values of change-stream documents, and what Python's str() prints for them. */
module Bson {
  /** A document field value. Values without a constructor of their own
      (ObjectId, dates, nested documents, ...) are kept as the text that
      str() prints for them. */
  datatype Value = Str(s: string) | Int(i: int) | Bool(b: bool) | Null | Other(repr: string)

  /** A document: field name to value. Key order is not modelled. */
  type Doc = map<string, Value>

  predicate IsDigits(s: string)
  {
    forall k :: 0 <= k < |s| ==> '0' <= s[k] <= '9'
  }

  function DigitChar(d: nat): (c: char)
    requires d < 10
    ensures '0' <= c <= '9'
  {
    ('0' as int + d) as char
  }

  /** Decimal text of a natural number, as str() prints a non-negative int. */
  function NatString(n: nat): (s: string)
    ensures |s| > 0 && IsDigits(s)
    ensures |s| == 1 <==> n < 10
    // no leading zero: only 0 itself starts with '0'
    ensures s[0] == '0' <==> n == 0
    decreases n
  {
    if n < 10 then [DigitChar(n)] else NatString(n / 10) + [DigitChar(n % 10)]
  }

  /** Reads a string of decimal digits back as a number. */
  function DigitsValue(s: string): nat
    requires IsDigits(s)
  {
    if s == [] then 0
    else DigitsValue(s[..|s| - 1]) * 10 + (s[|s| - 1] as int - '0' as int)
  }

  /** The decimal text of n determines n: reading it back gives n. */
  lemma {:induction false} NatStringRoundTrip(n: nat)
    ensures DigitsValue(NatString(n)) == n
    decreases n
  {
    if n >= 10 {
      var prefix := NatString(n / 10);
      var s := prefix + [DigitChar(n % 10)];
      assert s[..|s| - 1] == prefix;
      NatStringRoundTrip(n / 10);
    }
  }

  /** str() of an int: its decimal digits, after a minus sign when negative. */
  function IntString(i: int): (s: string)
    ensures i >= 0 ==> IsDigits(s) && DigitsValue(s) == i
    ensures i < 0 ==> |s| > 1 && s[0] == '-' && IsDigits(s[1..]) && DigitsValue(s[1..]) == -i
  {
    if i < 0 then
      var digits := NatString(-i);
      NatStringRoundTrip(-i);
      assert ("-" + digits)[1..] == digits;
      "-" + digits
    else
      NatStringRoundTrip(i);
      NatString(i)
  }

  /** str() of a field value: a string prints as itself, None as "None" and an
      int as its decimal text. */
  function PyStr(v: Value): (s: string)
    ensures v.Str? ==> s == v.s
    ensures v.Null? ==> s == "None"
    ensures v.Bool? ==> s == (if v.b then "True" else "False")
    ensures v.Int? && v.i >= 0 ==> IsDigits(s) && DigitsValue(s) == v.i
    ensures v.Int? && v.i < 0 ==> |s| > 1 && s[0] == '-' && IsDigits(s[1..]) && DigitsValue(s[1..]) == -v.i
  {
    match v
    case Str(s) => s
    case Int(i) => IntString(i)
    case Bool(b) => if b then "True" else "False"
    case Null => "None"
    case Other(r) => r
  }
}
