/** Go's fixed-width integers and the decimal conversions of package strconv. */
module Numeric {
  import opened Wrappers

  const TwoTo32: int := 0x1_0000_0000

  /** Go's `int32`. */
  type Int32 = x: int | -0x8000_0000 <= x < 0x8000_0000

  /** Go's `int` (64 bits on every platform the services are built for). */
  type Int64 = x: int | -0x8000_0000_0000_0000 <= x < 0x8000_0000_0000_0000

  predicate InInt32(x: int) {
    -0x8000_0000 <= x < 0x8000_0000
  }

  /** The conversion `int32(x)`: keep the low 32 bits, read them in two's complement. */
  function ToInt32(x: int): (r: Int32)
    ensures InInt32(x) ==> r == x
    ensures (x - r) % TwoTo32 == 0
  {
    var low := x % TwoTo32;
    if low < 0x8000_0000 then low else low - TwoTo32
  }

  // ---------------------------------------------------------------------------
  // strconv.Itoa and strconv.Atoi

  predicate IsDigit(c: char) {
    '0' <= c <= '9'
  }

  predicate AllDigits(s: string) {
    forall i :: 0 <= i < |s| ==> IsDigit(s[i])
  }

  function DigitChar(d: nat): char
    requires d < 10
  {
    ['0', '1', '2', '3', '4', '5', '6', '7', '8', '9'][d]
  }

  function DigitValue(c: char): nat
    requires IsDigit(c)
  {
    (c as int - '0' as int) as nat
  }

  /** The shortest decimal rendering of a natural number. */
  function Digits(n: nat): (s: string)
    ensures |s| > 0 && AllDigits(s)
    decreases n
  {
    if n < 10 then [DigitChar(n)] else Digits(n / 10) + [DigitChar(n % 10)]
  }

  /** The value of a string of decimal digits. */
  function DigitsValue(s: string): nat
    requires AllDigits(s)
    decreases |s|
  {
    if s == [] then 0 else DigitsValue(s[..|s| - 1]) * 10 + DigitValue(s[|s| - 1])
  }

  /** strconv.Itoa: a '-' sign for negative numbers, then the digits. */
  function Itoa(n: int): string {
    if n < 0 then "-" + Digits(-n) else Digits(n)
  }

  /** strconv.Atoi: an optional sign, at least one decimal digit and nothing else, within `int`'s range. */
  function Atoi(s: string): (r: Result<Int64>)
    ensures r.Ok? ==> |s| > 0
  {
    var negative := |s| > 0 && s[0] == '-';
    var body := if |s| > 0 && (s[0] == '-' || s[0] == '+') then s[1..] else s;
    if body == [] || !AllDigits(body) then Err(Message("strconv.Atoi: invalid syntax"))
    else
      var v: int := if negative then -(DigitsValue(body) as int) else DigitsValue(body);
      if -0x8000_0000_0000_0000 <= v < 0x8000_0000_0000_0000 then Ok(v)
      else Err(Message("strconv.Atoi: value out of range"))
  }

  lemma {:induction false} DigitsRoundTrip(n: nat)
    ensures DigitsValue(Digits(n)) == n
    decreases n
  {
    if n >= 10 {
      var s := Digits(n);
      DigitsRoundTrip(n / 10);
      assert s[..|s| - 1] == Digits(n / 10);
      assert s[|s| - 1] == DigitChar(n % 10);
    }
  }

  lemma AtoiOfDigits(sign: string, d: string)
    requires sign == "" || sign == "-"
    requires d != [] && AllDigits(d)
    requires -0x8000_0000_0000_0000 <= (if sign == "-" then -(DigitsValue(d) as int) else DigitsValue(d)) < 0x8000_0000_0000_0000
    ensures Atoi(sign + d) == Ok(if sign == "-" then -(DigitsValue(d) as int) else DigitsValue(d))
  {
    var s := sign + d;
    if sign == "-" {
      assert s[0] == '-' && s[1..] == d;
    } else {
      assert s == d && IsDigit(s[0]);
    }
  }

  /** Reading back what Itoa wrote gives the number again: Atoi(Itoa(n)) == n for every Go `int`. */
  lemma ItoaRoundTrip(n: Int64)
    ensures Atoi(Itoa(n)) == Ok(n)
  {
    if n < 0 {
      DigitsRoundTrip(-(n as int));
      AtoiOfDigits("-", Digits(-(n as int)));
    } else {
      DigitsRoundTrip(n);
      AtoiOfDigits("", Digits(n));
      assert "" + Digits(n) == Digits(n);
    }
  }

  /** Itoa writes different strings for different numbers. */
  lemma ItoaInjective(m: Int64, n: Int64)
    ensures Itoa(m) == Itoa(n) <==> m == n
  {
    ItoaRoundTrip(m);
    ItoaRoundTrip(n);
  }
}
