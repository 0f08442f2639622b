/**
 How a property tree stores numbers and flags: as text. Writing prints a value, reading parses the whole text
 and fails (None) when it is not a number or does not fit the integer type asked for.
 */
module Text {

  datatype Option<+T> = None | Some(value: T)

  type int32 = x: int | -0x8000_0000 <= x < 0x8000_0000
  type uint32 = x: int | 0 <= x < 0x1_0000_0000

  const DIGITS := "0123456789"

  function Digits(n: nat): (s: string)
    ensures s != [] && forall c :: c in s ==> c in DIGITS
  {
    if n < 10 then [DIGITS[n]] else Digits(n / 10) + [DIGITS[n % 10]]
  }

  function DigitValue(c: char): (d: nat)
    requires c in DIGITS
    ensures d < 10 && DIGITS[d] == c
  {
    var d := c as int - '0' as int;
    d
  }

  predicate IsDigits(s: string) {
    s != [] && forall i :: 0 <= i < |s| ==> s[i] in DIGITS
  }

  function Value(s: string): nat
    requires forall i :: 0 <= i < |s| ==> s[i] in DIGITS
  {
    if s == [] then 0 else 10 * Value(s[..|s| - 1]) + DigitValue(s[|s| - 1])
  }

  lemma {:induction false} DigitsValue(n: nat)
    ensures IsDigits(Digits(n)) && Value(Digits(n)) == n
  {
    var s := Digits(n);
    if n < 10 {
      assert s[..0] == [];
    } else {
      DigitsValue(n / 10);
      assert s[..|s| - 1] == Digits(n / 10);
    }
  }

  function IntText(n: int): string {
    if n < 0 then "-" + Digits(-n) else Digits(n)
  }

  function ParseInt(s: string, low: int, high: int): Option<int> {
    if IsDigits(s) then InRange(Value(s), low, high)
    else if s != [] && s[0] == '-' && IsDigits(s[1..]) then InRange(0 - Value(s[1..]), low, high)
    else None
  }

  function InRange(n: int, low: int, high: int): Option<int> {
    if low <= n < high then Some(n) else None
  }

  lemma SignedText(digits: string, low: int, high: int)
    requires IsDigits(digits)
    ensures ParseInt("-" + digits, low, high) == InRange(0 - Value(digits), low, high)
  {
    var s := "-" + digits;
    assert s[0] == '-' && '-' !in DIGITS;
    assert s[1..] == digits;
  }

  /** A printed number is read back exactly when it fits the type it is read as. */
  lemma IntRoundTrip(n: int, low: int, high: int)
    ensures ParseInt(IntText(n), low, high) == if low <= n < high then Some(n) else None
  {
    var digits := Digits(if n < 0 then -n else n);
    DigitsValue(if n < 0 then -n else n);
    if n < 0 {
      SignedText(digits, low, high);
    }
  }

  function ParseInt32(s: string): (r: Option<int>)
    ensures r.Some? ==> -0x8000_0000 <= r.value < 0x8000_0000
  {
    ParseInt(s, -0x8000_0000, 0x8000_0000)
  }

  function BoolText(b: bool): string {
    if b then "true" else "false"
  }

  function ParseBool(s: string): Option<bool> {
    if s == "true" || s == "1" then Some(true) else if s == "false" || s == "0" then Some(false) else None
  }

  lemma BoolRoundTrip(b: bool)
    ensures ParseBool(BoolText(b)) == Some(b)
  {
  }
}
