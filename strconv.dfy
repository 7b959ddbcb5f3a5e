/**
 * The two pieces of Go's standard library whose exact behaviour the client
 * depends on: strconv.ParseInt(s, 10, 0) on a 64-bit platform (used for the
 * Content-Length header) and the %d verb of fmt.Sprintf (used for the Range
 * header). Integers are unbounded here; the 64-bit range is written out.
 */
module Strconv {

  const MaxUint64: int := 0xFFFF_FFFF_FFFF_FFFF
  const MaxInt64: int := 0x7FFF_FFFF_FFFF_FFFF
  const MinInt64: int := -0x8000_0000_0000_0000

  type Int64 = x: int | MinInt64 <= x <= MaxInt64

  predicate IsDigit(c: char) { '0' <= c <= '9' }

  predicate AllDigits(s: string) { forall i :: 0 <= i < |s| ==> IsDigit(s[i]) }

  function DigitValue(c: char): nat
    requires IsDigit(c)
  {
    c as int - '0' as int
  }

  function DigitChar(d: nat): (c: char)
    requires d < 10
    ensures IsDigit(c) && DigitValue(c) == d
  {
    ('0' as int + d) as char
  }

  /** The number a string of decimal digits denotes, most significant digit first. */
  function DecimalValue(s: string): nat
    requires AllDigits(s)
  {
    if s == [] then 0 else DecimalValue(s[..|s| - 1]) * 10 + DigitValue(s[|s| - 1])
  }

  /** What strconv.ParseUint reports: a value, a syntax error or a range error. */
  datatype UintScan = Parsed(n: nat) | SyntaxError | RangeError

  /**
   * The digit loop of strconv.ParseUint in base 10: it stops with a syntax
   * error at the first non-digit, and with a range error as soon as the
   * accumulated value would exceed 2^64-1, without looking further.
   */
  function ScanUint(s: string, i: nat, acc: nat): (r: UintScan)
    requires i <= |s|
    ensures acc <= MaxUint64 && r.Parsed? ==> acc <= r.n <= MaxUint64
    decreases |s| - i
  {
    if i == |s| then Parsed(acc)
    else if !IsDigit(s[i]) then SyntaxError
    else if acc * 10 + DigitValue(s[i]) > MaxUint64 then RangeError
    else ScanUint(s, i + 1, acc * 10 + DigitValue(s[i]))
  }

  function ParseUint(s: string): UintScan
  {
    if s == "" then SyntaxError else ScanUint(s, 0, 0)
  }

  /** The sign strconv.ParseInt picks off the front of its argument. */
  function Unsigned(s: string): string
  {
    if s != "" && (s[0] == '+' || s[0] == '-') then s[1..] else s
  }

  /**
   * The value strconv.ParseInt(s, 10, 0) returns when its error is ignored:
   * 0 on a syntax error, the nearest 64-bit bound on a range error.
   */
  function ParseInt(s: string): (n: Int64)
    ensures Unsigned(s) == "" ==> n == 0
    ensures n < 0 ==> s[0] == '-'
  {
    if s == "" then 0
    else
      var neg := s[0] == '-';
      match ParseUint(Unsigned(s))
      case SyntaxError => 0
      case RangeError => if neg then MinInt64 else MaxInt64
      case Parsed(u) =>
        if !neg && u > MaxInt64 then MaxInt64
        else if neg && u > -MinInt64 then MinInt64
        else if neg then -(u as int)
        else u
  }

  /** The decimal digits of n, without leading zeros. */
  function Digits(n: nat): (r: string)
    ensures r != [] && IsDigit(r[0])
    ensures n >= 10 ==> r[0] != '0'
  {
    if n < 10 then [DigitChar(n)] else Digits(n / 10) + [DigitChar(n % 10)]
  }

  /** fmt.Sprintf("%d", n) for a Go int64. */
  function FormatInt(n: Int64): (r: string)
    ensures r != [] && (r[0] == '-' <==> n < 0)
  {
    if n < 0 then "-" + Digits(-(n as int)) else Digits(n)
  }

  lemma {:induction false} DigitsValue(n: nat)
    ensures Digits(n) != [] && AllDigits(Digits(n)) && DecimalValue(Digits(n)) == n
  {
    if n >= 10 {
      DigitsValue(n / 10);
      var s := Digits(n);
      assert s[..|s| - 1] == Digits(n / 10);
    }
  }

  lemma {:induction false} DecimalValuePrefix(s: string, k: nat)
    requires AllDigits(s) && k <= |s|
    ensures AllDigits(s[..k]) && DecimalValue(s[..k]) <= DecimalValue(s)
    decreases |s| - k
  {
    if k < |s| {
      DecimalValuePrefix(s, k + 1);
      assert s[..k + 1][..k] == s[..k];
    } else {
      assert s[..k] == s;
    }
  }

  lemma DecimalValueStep(s: string, i: nat)
    requires AllDigits(s) && i < |s|
    ensures AllDigits(s[..i]) && AllDigits(s[..i + 1])
    ensures DecimalValue(s[..i + 1]) == DecimalValue(s[..i]) * 10 + DigitValue(s[i])
  {
    assert s[..i + 1][..i] == s[..i];
  }

  /** On a string of digits the scan computes the decimal value, or a range error when it does not fit. */
  lemma {:induction false} ScanUintDigits(s: string, i: nat, acc: nat)
    requires AllDigits(s) && i <= |s| && acc <= MaxUint64
    requires AllDigits(s[..i]) && acc == DecimalValue(s[..i])
    ensures ScanUint(s, i, acc) == if DecimalValue(s) <= MaxUint64 then Parsed(DecimalValue(s)) else RangeError
    decreases |s| - i
  {
    if i == |s| {
      assert s[..i] == s;
    } else {
      DecimalValueStep(s, i);
      var next := acc * 10 + DigitValue(s[i]);
      DecimalValuePrefix(s, i + 1);
      if next <= MaxUint64 {
        ScanUintDigits(s, i + 1, next);
      }
    }
  }

  /** A non-digit reached before the value overflows is a syntax error. */
  lemma {:induction false} ScanUintNonDigit(s: string, i: nat, acc: nat, k: nat)
    requires i <= k < |s| && !IsDigit(s[k])
    requires AllDigits(s[..k]) && DecimalValue(s[..k]) <= MaxUint64
    requires AllDigits(s[..i]) && acc == DecimalValue(s[..i])
    ensures ScanUint(s, i, acc) == SyntaxError
    decreases k - i
  {
    if i < k {
      var p := s[..k];
      assert p[..i] == s[..i] && p[..i + 1] == s[..i + 1];
      DecimalValueStep(p, i);
      DecimalValuePrefix(p, i + 1);
      ScanUintNonDigit(s, i + 1, acc * 10 + DigitValue(s[i]), k);
    }
  }

  /**
   * ParseInt of an optional sign followed by decimal digits is the signed
   * value of the digits, saturated to the 64-bit range.
   */
  lemma ParseIntDecimal(sign: string, digits: string)
    requires sign in {"", "+", "-"} && digits != [] && AllDigits(digits)
    ensures var v: int := if sign == "-" then -(DecimalValue(digits) as int) else DecimalValue(digits);
            ParseInt(sign + digits) == if v > MaxInt64 then MaxInt64 else if v < MinInt64 then MinInt64 else v
  {
    var s := sign + digits;
    assert Unsigned(s) == digits by {
      if sign == "" { assert s == digits; } else { assert s[1..] == digits; }
    }
    assert s[0] == '-' <==> sign == "-" by {
      if sign == "" { assert s[0] == digits[0]; }
    }
    assert digits[..0] == [];
    ScanUintDigits(digits, 0, 0);
  }

  /**
   * ParseInt is 0 when the unsigned part holds a non-digit that is reached
   * before the digits in front of it exceed 2^64-1.
   */
  lemma ParseIntNonDecimal(s: string, k: nat)
    requires k < |Unsigned(s)| && !IsDigit(Unsigned(s)[k])
    requires AllDigits(Unsigned(s)[..k]) && DecimalValue(Unsigned(s)[..k]) <= MaxUint64
    ensures ParseInt(s) == 0
  {
    var u := Unsigned(s);
    assert u[..0] == [];
    ScanUintNonDigit(u, 0, 0, k);
  }

  /**
   * Digits whose value exceeds 2^64-1 make the scan stop with a range error,
   * whatever follows them.
   */
  lemma {:induction false} ScanUintOverflow(s: string, i: nat, acc: nat, k: nat)
    requires i < k <= |s| && AllDigits(s[..k]) && DecimalValue(s[..k]) > MaxUint64
    requires AllDigits(s[..i]) && acc == DecimalValue(s[..i])
    ensures ScanUint(s, i, acc) == RangeError
    decreases k - i
  {
    var p := s[..k];
    assert p[..i] == s[..i] && p[..i + 1] == s[..i + 1];
    DecimalValueStep(p, i);
    var next := acc * 10 + DigitValue(s[i]);
    if next <= MaxUint64 {
      assert p[..k] == p;
      ScanUintOverflow(s, i + 1, next, k);
    }
  }

  /**
   * ParseInt saturates to the 64-bit bound of its sign when the digits in
   * front of the first non-digit already exceed 2^64-1: the range error is
   * reported before the non-digit is reached.
   */
  lemma ParseIntOverflow(s: string, k: nat)
    requires k <= |Unsigned(s)| && AllDigits(Unsigned(s)[..k]) && DecimalValue(Unsigned(s)[..k]) > MaxUint64
    ensures s != "" && ParseInt(s) == if s[0] == '-' then MinInt64 else MaxInt64
  {
    var u := Unsigned(s);
    assert u[..0] == [];
    ScanUintOverflow(u, 0, 0, k);
  }

  /** An empty string or a bare sign is a syntax error, which ParseInt reports as 0. */
  lemma ParseIntEmptyDigits(s: string)
    requires Unsigned(s) == ""
    ensures ParseInt(s) == 0
  {
  }

  /** Reading back what %d printed gives the number printed. */
  lemma ParseFormatInt(n: Int64)
    ensures ParseInt(FormatInt(n)) == n
  {
    if n < 0 {
      DigitsValue(-(n as int));
      ParseIntDecimal("-", Digits(-(n as int)));
    } else {
      DigitsValue(n);
      ParseIntDecimal("", Digits(n));
      assert "" + Digits(n) == Digits(n);
    }
  }
}
