/** strconv.ParseInt(s, 10, 64) as the handler's Content-Length check uses it:
    an optional sign, then decimal digits, with the value inside int64. */
module Decimal {
  import opened Wrappers

  const MaxUint64: int := 0xFFFF_FFFF_FFFF_FFFF
  const MinInt64: int := -0x8000_0000_0000_0000
  const MaxInt64: int := 0x7FFF_FFFF_FFFF_FFFF

  /** The Err field of a *strconv.NumError. */
  datatype NumError = ErrSyntax | ErrRange

  predicate IsDigit(c: char)
  {
    '0' <= c <= '9'
  }

  predicate AllDigits(s: string)
  {
    forall k :: 0 <= k < |s| ==> IsDigit(s[k])
  }

  function DigitValue(c: char): nat
    requires IsDigit(c)
  {
    (c as int) - ('0' as int)
  }

  /** The number a string of decimal digits denotes. */
  function Value(s: string): nat
    requires AllDigits(s)
  {
    if s == [] then 0 else 10 * Value(s[..|s| - 1]) + DigitValue(s[|s| - 1])
  }

  /** ParseUint's scan from position i with accumulated value acc: a non-digit is a
      syntax error, a value past 2^64-1 a range error, whichever comes first. */
  function ScanUint(s: string, i: nat, acc: nat): Result<nat, NumError>
    requires i <= |s|
    decreases |s| - i
  {
    if i == |s| then Success(acc)
    else if !IsDigit(s[i]) then Failure(ErrSyntax)
    else if 10 * acc + DigitValue(s[i]) > MaxUint64 then Failure(ErrRange)
    else ScanUint(s, i + 1, 10 * acc + DigitValue(s[i]))
  }

  /** strconv.ParseUint(s, 10, 64). */
  function ParseUint(s: string): Result<nat, NumError>
  {
    if s == [] then Failure(ErrSyntax) else ScanUint(s, 0, 0)
  }

  /** strconv.ParseInt(s, 10, 64): strip one sign, parse the rest unsigned, then
      check the signed range. A range error of the unsigned parse stays a range error. */
  function ParseInt(s: string): (r: Result<int, NumError>)
    ensures r.Success? ==> MinInt64 <= r.value <= MaxInt64
  {
    if s == [] then Failure(ErrSyntax)
    else
      var neg := s[0] == '-';
      var digits := if s[0] == '+' || s[0] == '-' then s[1..] else s;
      match ParseUint(digits)
      case Failure(e) => Failure(e)
      case Success(un) =>
        if !neg && un > MaxInt64 then Failure(ErrRange)
        else if neg && un > -MinInt64 then Failure(ErrRange)
        else Success(if neg then -(un as int) else un as int)
  }

  /** What NumError.Error() renders for a failed ParseInt of s. */
  function ErrorText(s: string, e: NumError): (text: string)
    ensures text != []
  {
    "strconv.ParseInt: parsing " + Quote(s) + ": "
      + (if e == ErrSyntax then "invalid syntax" else "value out of range")
  }

  /** The text names both the input and the reason: different failures never read
      the same. */
  lemma ErrorTextDetermines(s: string, e: NumError, s': string, e': NumError)
    requires ErrorText(s, e) == ErrorText(s', e')
    ensures s == s' && e == e'
  {
    var prefix := "strconv.ParseInt: parsing \"";
    var t := ErrorText(s, e);
    assert t[|t| - 1] == (if e == ErrSyntax then 'x' else 'e');
    assert t[|t| - 1] == (if e' == ErrSyntax then 'x' else 'e');
    var tail := "\": " + (if e == ErrSyntax then "invalid syntax" else "value out of range");
    assert t == prefix + s + tail;
    assert t == prefix + s' + tail;
    assert s == t[|prefix|..|t| - |tail|];
    assert s' == t[|prefix|..|t| - |tail|];
  }

  /** strconv.Quote for strings that need no escaping. */
  function Quote(s: string): string
  {
    "\"" + s + "\""
  }

  /** The digits of s once a leading sign is removed. */
  function Unsigned(s: string): string
  {
    if s != [] && (s[0] == '+' || s[0] == '-') then s[1..] else s
  }

  /** A decimal integer literal: an optional sign followed by one or more digits. */
  predicate IsDecimalLiteral(s: string)
  {
    Unsigned(s) != [] && AllDigits(Unsigned(s))
  }

  /** The integer a decimal literal denotes. */
  function LiteralValue(s: string): int
    requires IsDecimalLiteral(s)
  {
    if s[0] == '-' then -(Value(Unsigned(s)) as int) else Value(Unsigned(s)) as int
  }

  /** No prefix of a digit string denotes more than the whole string. */
  lemma {:induction false} PrefixValueAtMost(s: string, j: nat)
    requires AllDigits(s) && j <= |s|
    ensures AllDigits(s[..j]) && Value(s[..j]) <= Value(s)
  {
    if j == |s| {
      assert s[..j] == s;
    } else {
      var init := s[..|s| - 1];
      assert init[..j] == s[..j];
      PrefixValueAtMost(init, j);
    }
  }

  /** Over a digit string the scan computes the value, or fails with a range error
      exactly when the value does not fit 64 unsigned bits. */
  lemma {:induction false} ScanOfDigits(s: string, i: nat)
    requires i <= |s| && AllDigits(s)
    requires AllDigits(s[..i]) && Value(s[..i]) <= MaxUint64
    ensures ScanUint(s, i, Value(s[..i]))
         == if Value(s) <= MaxUint64 then Success(Value(s)) else Failure(ErrRange)
    decreases |s| - i
  {
    if i == |s| {
      assert s[..i] == s;
    } else {
      var next := s[..i + 1];
      assert next[..i] == s[..i];
      assert AllDigits(next);
      assert Value(next) == 10 * Value(s[..i]) + DigitValue(s[i]);
      PrefixValueAtMost(s, i + 1);
      if Value(next) <= MaxUint64 {
        ScanOfDigits(s, i + 1);
      }
    }
  }

  /** A non-digit at or after position i makes the scan fail. */
  lemma {:induction false} ScanOfNonDigit(s: string, i: nat, acc: nat, k: nat)
    requires i <= k < |s| && !IsDigit(s[k])
    ensures ScanUint(s, i, acc).Failure?
    decreases k - i
  {
    if i < k && IsDigit(s[i]) && 10 * acc + DigitValue(s[i]) <= MaxUint64 {
      ScanOfNonDigit(s, i + 1, 10 * acc + DigitValue(s[i]), k);
    }
  }

  /** ParseInt succeeds exactly on decimal literals whose value fits int64, and then
      yields that value. */
  lemma ParseIntMeaning(s: string)
    ensures ParseInt(s).Success?
        <==> IsDecimalLiteral(s) && MinInt64 <= LiteralValue(s) <= MaxInt64
    ensures ParseInt(s).Success? ==> ParseInt(s).value == LiteralValue(s)
  {
    if s != [] {
      var digits := Unsigned(s);
      if digits != [] {
        if AllDigits(digits) {
          assert digits[..0] == [];
          ScanOfDigits(digits, 0);
        } else {
          var k :| 0 <= k < |digits| && !IsDigit(digits[k]);
          ScanOfNonDigit(digits, 0, 0, k);
        }
      }
    }
  }

  lemma ParseIntExamples()
    ensures ParseInt("500000000") == Success(500000000)
    ensures ParseInt("-12") == Success(-12)
    ensures ParseInt("") == Failure(ErrSyntax)
    ensures ParseInt("12a") == Failure(ErrSyntax)
  {
    assert "-12"[1..] == "12";
    assert ScanUint("12", 1, 1) == Success(12);
    assert ParseUint("12") == Success(12);
  }
}
