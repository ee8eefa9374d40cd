/**
 * Python's numeric conversions as the add-on applies them to decoded JSON:
 * `int(v)` and the use of a value in `+` or `/`.
 */
module PyInt {
  import opened Wrappers
  import opened JsonTree

  predicate IsDigit(c: char) {
    '0' <= c <= '9'
  }

  function DigitValue(c: char): nat
    requires IsDigit(c)
  {
    (c as int) - ('0' as int)
  }

  function DigitChar(d: nat): char
    requires d < 10
  {
    ('0' as int + d) as char
  }

  /** The value of a non-empty run of ASCII digits, most significant first; None for anything else. */
  function DigitsValue(s: string): Option<nat>
    decreases |s|
  {
    if s == [] || !IsDigit(s[|s| - 1]) then None
    else if |s| == 1 then Some(DigitValue(s[0]))
    else match DigitsValue(s[..|s| - 1])
      case None => None
      case Some(v) => Some(v * 10 + DigitValue(s[|s| - 1]))
  }

  /** `int(s)` for a string: an optional sign and at least one digit. */
  function ParseDecimal(s: string): Option<int> {
    if |s| > 0 && s[0] == '-' then
      match DigitsValue(s[1..])
      case None => None
      case Some(v) => Some(0 - v as int)
    else if |s| > 0 && s[0] == '+' then
      match DigitsValue(s[1..])
      case None => None
      case Some(v) => Some(v)
    else
      match DigitsValue(s)
      case None => None
      case Some(v) => Some(v)
  }

  /** `str(n)` for a natural number. */
  function NatDigits(n: nat): string
    decreases n
  {
    if n < 10 then [DigitChar(n)] else NatDigits(n / 10) + [DigitChar(n % 10)]
  }

  /** `str(n)`: the decimal rendering `int()` reads back. */
  function Decimal(n: int): string {
    if n < 0 then "-" + NatDigits(-n) else NatDigits(n)
  }

  /** The number a value stands for in `+` and `/`: an int, or a bool as 0 or 1; anything else raises TypeError. */
  function AsNumber(j: Json): Option<int> {
    match j
    case JInt(i) => Some(i)
    case JBool(b) => Some(if b then 1 else 0)
    case _ => None
  }

  /** `int(v)`: TypeError for None, lists and objects, ValueError for a string that is not a decimal. */
  function ToInt(j: Json): Result<int> {
    match j
    case JInt(i) => Ok(i)
    case JBool(b) => Ok(if b then 1 else 0)
    case JStr(s) =>
      (match ParseDecimal(s)
       case None => Err(ValueError)
       case Some(n) => Ok(n))
    case _ => Err(TypeError)
  }

  lemma {:induction false} NatDigitsShape(n: nat)
    ensures |NatDigits(n)| > 0 && IsDigit(NatDigits(n)[0])
    decreases n
  {
    if n >= 10 {
      NatDigitsShape(n / 10);
    }
  }

  lemma {:induction false} DigitsValueOfNatDigits(n: nat)
    ensures DigitsValue(NatDigits(n)) == Some(n)
    decreases n
  {
    if n >= 10 {
      DigitsValueOfNatDigits(n / 10);
      NatDigitsShape(n / 10);
      var s := NatDigits(n);
      assert s[..|s| - 1] == NatDigits(n / 10);
    }
  }

  /** `int(str(n)) == n` for every integer. */
  lemma ParseDecimalRoundTrip(n: int)
    ensures ParseDecimal(Decimal(n)) == Some(n)
  {
    if n < 0 {
      NegativeRoundTrip(-n);
    } else {
      DigitsValueOfNatDigits(n);
      NatDigitsShape(n);
      assert Decimal(n) == NatDigits(n);
    }
  }

  lemma NegativeRoundTrip(m: nat)
    requires m > 0
    ensures ParseDecimal("-" + NatDigits(m)) == Some(-(m as int))
  {
    var s := "-" + NatDigits(m);
    DigitsValueOfNatDigits(m);
    assert s[0] == '-' && s[1..] == NatDigits(m);
  }

  /** `int()` of a rendered number gives the number back, and every integer-valued JSON value converts. */
  lemma ToIntOfDecimal(n: int)
    ensures ToInt(JStr(Decimal(n))) == Ok(n) && ToInt(JInt(n)) == Ok(n)
  {
    ParseDecimalRoundTrip(n);
  }

  /**
   * `int()` accepts every optional sign followed by a non-empty run of
   * digits, leading zeros included, and gives the digits' value, negated
   * after a '-'.
   */
  lemma ToIntOfDigits(sign: string, d: string)
    requires sign == "" || sign == "-" || sign == "+"
    requires |d| > 0 && forall i :: 0 <= i < |d| ==> IsDigit(d[i])
    ensures DigitsValue(d).Some?
    ensures ToInt(JStr(sign + d)) == Ok(if sign == "-" then 0 - DigitsValue(d).value as int else DigitsValue(d).value)
  {
    DigitsAccepted(d);
    assert (sign + d)[|sign|..] == d;
    if sign == "" {
      assert sign + d == d;
    }
  }

  lemma {:induction false} DigitsAccepted(d: string)
    requires |d| > 0 && forall i :: 0 <= i < |d| ==> IsDigit(d[i])
    ensures DigitsValue(d).Some?
    decreases |d|
  {
    if |d| > 1 {
      DigitsAccepted(d[..|d| - 1]);
    }
  }

  /** Leading zeros are accepted: `int("07") == 7` and `int("-007") == -7`. */
  lemma LeadingZeros()
    ensures ToInt(JStr("07")) == Ok(7)
    ensures ToInt(JStr("-007")) == Ok(-7)
  {
    assert "07"[..1] == "0";
    assert "007"[..2] == "00" && "00"[..1] == "0";
    assert "-007"[1..] == "007";
  }

  /** `int()` rejects the empty string and a bare sign. */
  lemma ParseDecimalRejectsEmpty()
    ensures ParseDecimal("") == None && ParseDecimal("-") == None && ParseDecimal("+") == None
  {
    assert "-"[1..] == [] && "+"[1..] == [];
  }

  /** `int()` rejects a string with a non-digit after the optional sign. */
  lemma {:induction false} ParseDecimalRejects(s: string, k: nat)
    requires k < |s| && !IsDigit(s[k]) && (k > 0 || (s[0] != '-' && s[0] != '+'))
    ensures ParseDecimal(s) == None
  {
    if s[0] == '-' || s[0] == '+' {
      DigitsRejectNonDigit(s[1..], k - 1);
    } else {
      DigitsRejectNonDigit(s, k);
    }
  }

  lemma {:induction false} DigitsRejectNonDigit(s: string, k: nat)
    requires k < |s| && !IsDigit(s[k])
    ensures DigitsValue(s) == None
    decreases |s|
  {
    if k < |s| - 1 {
      DigitsRejectNonDigit(s[..|s| - 1], k);
    }
  }
}
