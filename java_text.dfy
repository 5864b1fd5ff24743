/**
 * How Java's string concatenation renders the values that appear in `Task.toString()`:
 * a `Long` (or `null`), a `String` (or `null`) and a `boolean`; with parsers that read
 * them back.
 */
module JavaText {
  import opened Wrappers

  predicate IsDigit(c: char) {
    '0' <= c <= '9'
  }

  function DigitChar(d: nat): (c: char)
    requires d < 10
    ensures IsDigit(c)
  {
    ('0' as int + d) as char
  }

  function DigitValue(c: char): (d: nat)
    requires IsDigit(c)
    ensures d < 10 && DigitChar(d) == c
  {
    c as int - '0' as int
  }

  /** The decimal digits of n, most significant first, without leading zeros. */
  function NaturalString(n: nat): (s: string)
    ensures |s| >= 1
    ensures forall i :: 0 <= i < |s| ==> IsDigit(s[i])
    ensures s[0] == '0' ==> n == 0
  {
    if n < 10 then [DigitChar(n)] else NaturalString(n / 10) + [DigitChar(n % 10)]
  }

  /** `Long.toString`: a minus sign for negative values, then the digits of the magnitude. */
  function LongString(n: int): (s: string)
    ensures |s| >= 1
    ensures forall i :: 0 <= i < |s| ==> IsDigit(s[i]) || s[i] == '-'
  {
    if n < 0 then "-" + NaturalString(-n) else NaturalString(n)
  }

  /** String conversion of a `Long` reference: `"null"` for a null reference. */
  function NullableLongString(n: Option<int>): string {
    match n
    case None => "null"
    case Some(v) => LongString(v)
  }

  /** String conversion of a `String` reference: `"null"` for a null reference. */
  function NullableString(s: Option<string>): string {
    match s
    case None => "null"
    case Some(v) => v
  }

  /** String conversion of a `boolean`. */
  function BoolString(b: bool): string {
    if b then "true" else "false"
  }

  /** Reads a non-empty string of decimal digits. */
  function ParseNatural(s: string): Option<nat> {
    if |s| == 0 || !IsDigit(s[|s| - 1]) then None
    else if |s| == 1 then Some(DigitValue(s[0]))
    else
      match ParseNatural(s[..|s| - 1])
      case None => None
      case Some(p) => Some(p * 10 + DigitValue(s[|s| - 1]))
  }

  /** Reads what `Long.toString` writes. */
  function ParseLong(s: string): Option<int> {
    if |s| > 0 && s[0] == '-' then
      match ParseNatural(s[1..])
      case None => None
      case Some(p) => if p == 0 then None else Some(0 - p as int)
    else
      match ParseNatural(s)
      case None => None
      case Some(p) => Some(p as int)
  }

  /** Reads what the string conversion of a `Long` reference writes. */
  function ParseNullableLong(s: string): Option<Option<int>> {
    if s == "null" then Some(None)
    else
      match ParseLong(s)
      case None => None
      case Some(v) => Some(Some(v))
  }

  lemma {:induction false} ParseNaturalString(n: nat)
    ensures ParseNatural(NaturalString(n)) == Some(n)
  {
    if n >= 10 {
      var s := NaturalString(n);
      assert s[..|s| - 1] == NaturalString(n / 10);
      ParseNaturalString(n / 10);
    }
  }

  lemma ParseLongString(n: int)
    ensures ParseLong(LongString(n)) == Some(n)
  {
    if n < 0 {
      assert LongString(n)[1..] == NaturalString(-n);
      ParseNaturalString(-n);
    } else {
      ParseNaturalString(n);
    }
  }

  lemma ParseNullableLongString(n: Option<int>)
    ensures ParseNullableLong(NullableLongString(n)) == Some(n)
  {
    if n.Some? {
      var s := LongString(n.value);
      assert s != "null" by {
        assert IsDigit(s[0]) || s[0] == '-';
      }
      ParseLongString(n.value);
    }
  }
}
