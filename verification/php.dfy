/**
 PHP value semantics the blocks rely on: nullable values, the `empty()`
 language construct on strings, `isset()`, integer-to-string conversion in
 string concatenation, and exceptions that escape a call.
 */
module Php {

  /** A nullable PHP value: `None` is `null` (or an unset array key). */
  datatype Option<+T> = None | Some(value: T)

  /** The outcome of a call that may throw: `Thrown` is an exception that
      the caller does not catch. */
  datatype Result<+T> = Ok(value: T) | Thrown

  /** `empty()` on a string: only the empty string and "0" are empty. */
  predicate EmptyString(s: string)
  {
    s == "" || s == "0"
  }

  /** `empty()` on a `string|null` value: null, "" and "0" are empty. */
  predicate Empty(v: Option<string>)
  {
    match v
    case None => true
    case Some(s) => EmptyString(s)
  }

  /** `isset()` on a `string|null` value. */
  predicate IsSet<T>(v: Option<T>)
  {
    v.Some?
  }

  /** PHP `empty()` on a nullable string is exactly: null, "" or "0". */
  lemma EmptyCases(v: Option<string>)
    ensures Empty(v) <==> v == None || v == Some("") || v == Some("0")
  {
  }

  /** The decimal digit character for `d`. */
  function DigitChar(d: nat): (c: char)
    requires d < 10
    ensures '0' <= c <= '9'
    ensures c as int - '0' as int == d
  {
    ('0' as int + d) as char
  }

  /** Decimal representation of a natural number, without leading zeros. */
  function NatToString(n: nat): (s: string)
    ensures 1 <= |s|
    ensures forall i :: 0 <= i < |s| ==> '0' <= s[i] <= '9'
    ensures s[|s| - 1] == DigitChar(n % 10)
    ensures n > 0 ==> s[0] != '0'
    decreases n
  {
    if n < 10 then [DigitChar(n)] else NatToString(n / 10) + [DigitChar(n % 10)]
  }

  /** The string PHP produces when an `int` is concatenated to a string. */
  function IntToString(i: int): (s: string)
    ensures 1 <= |s|
    ensures s[0] == '-' <==> i < 0
    // After the sign, if any, only decimal digits.
    ensures forall k :: (if i < 0 then 1 else 0) <= k < |s| ==> '0' <= s[k] <= '9'
  {
    if i < 0 then "-" + NatToString(-i) else NatToString(i)
  }

  /** The number a string of decimal digits denotes. */
  function DigitsValue(s: string): nat
    requires forall i :: 0 <= i < |s| ==> '0' <= s[i] <= '9'
    decreases |s|
  {
    if |s| == 0 then 0
    else DigitsValue(s[..|s| - 1]) * 10 + (s[|s| - 1] as int - '0' as int)
  }

  /** Reading the decimal form back gives the number. */
  lemma {:induction false} NatToStringValue(n: nat)
    ensures DigitsValue(NatToString(n)) == n
    decreases n
  {
    var s := NatToString(n);
    if n >= 10 {
      NatToStringValue(n / 10);
      assert s[..|s| - 1] == NatToString(n / 10);
    }
  }

  /** Distinct naturals have distinct decimal strings. */
  lemma {:induction false} NatToStringInjective(a: nat, b: nat)
    requires NatToString(a) == NatToString(b)
    ensures a == b
    decreases a
  {
    var sa, sb := NatToString(a), NatToString(b);
    assert DigitChar(a % 10) == DigitChar(b % 10);
    if a < 10 || b < 10 {
      // the lengths differ unless both are single digits
    } else {
      assert NatToString(a / 10) == sa[..|sa| - 1];
      assert NatToString(b / 10) == sb[..|sb| - 1];
      NatToStringInjective(a / 10, b / 10);
    }
  }

  /** After the sign, if any, the PHP string form of an integer is the
      decimal form of its magnitude, so reading it back gives the magnitude. */
  lemma IntToStringDigits(i: int)
    ensures var s := IntToString(i);
      var magnitude: nat := if i < 0 then -i else i;
      && s[(if i < 0 then 1 else 0)..] == NatToString(magnitude)
      && DigitsValue(NatToString(magnitude)) == magnitude
  {
    var magnitude: nat := if i < 0 then -i else i;
    NatToStringValue(magnitude);
  }

  /** Distinct integers have distinct PHP string forms. */
  lemma IntToStringInjective(a: int, b: int)
    requires IntToString(a) == IntToString(b)
    ensures a == b
  {
    var s := IntToString(a);
    assert (a < 0) == (b < 0);
    IntToStringDigits(a);
    IntToStringDigits(b);
  }
}
