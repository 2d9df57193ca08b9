/** Decimal conversion between Go `int` values and strings: the parts of
    Go's `strconv` package (`Atoi`, `Itoa`) and of `fmt`'s `%d` verb that the
    handlers and the platform client rely on. A Go `int` is 64 bits wide. */
module Strconv {

  import opened Wrappers

  const MinInt64: int := -0x8000_0000_0000_0000
  const MaxInt64: int := 0x7FFF_FFFF_FFFF_FFFF

  predicate InInt64(n: int) {
    MinInt64 <= n <= MaxInt64
  }

  predicate IsDigit(c: char) {
    '0' <= c <= '9'
  }

  predicate AllDigits(s: string) {
    forall i :: 0 <= i < |s| ==> IsDigit(s[i])
  }

  function DigitValue(c: char): (d: nat)
    requires IsDigit(c)
    ensures d < 10
  {
    (c as int) - ('0' as int)
  }

  function DigitChar(d: nat): (c: char)
    requires d < 10
    ensures IsDigit(c) && DigitValue(c) == d
  {
    (('0' as int) + d) as char
  }

  /** The value of a string of decimal digits, most significant first. */
  function DecimalValue(s: string): nat
    requires AllDigits(s)
  {
    if s == [] then 0 else DecimalValue(s[..|s| - 1]) * 10 + DigitValue(s[|s| - 1])
  }

  /** The shortest decimal digit string of a natural number. */
  function NatDigits(n: nat): (s: string)
    ensures s != [] && AllDigits(s)
  {
    if n < 10 then [DigitChar(n)] else NatDigits(n / 10) + [DigitChar(n % 10)]
  }

  /** `strconv.Itoa(n)`, also what `fmt` prints for `%d`. */
  function Itoa(n: int): (s: string)
    ensures s != []
    ensures forall i :: 0 <= i < |s| ==> IsDigit(s[i]) || (i == 0 && s[i] == '-')
  {
    if n < 0 then "-" + NatDigits(-n) else NatDigits(n)
  }

  /** `strconv.Atoi(s)`: an optional '+' or '-' sign followed by one or more
      decimal digits whose value fits in 64 bits; `None` stands for the
      syntax and range errors Go reports. */
  function Atoi(s: string): (r: Option<int>)
    ensures r.Some? ==> InInt64(r.value)
  {
    if s == [] then None
    else
      var negative := s[0] == '-';
      var digits := if s[0] == '+' || s[0] == '-' then s[1..] else s;
      if digits == [] || !AllDigits(digits) then None
      else
        var magnitude: int := DecimalValue(digits);
        var v := if negative then -magnitude else magnitude;
        if InInt64(v) then Some(v) else None
  }

  lemma {:induction false} DecimalValueOfNatDigits(n: nat)
    ensures DecimalValue(NatDigits(n)) == n
  {
    if n >= 10 {
      DecimalValueOfNatDigits(n / 10);
      var s := NatDigits(n / 10) + [DigitChar(n % 10)];
      assert s[..|s| - 1] == NatDigits(n / 10);
    }
  }

  /** Printing a Go int and parsing it back gives the same number. */
  lemma AtoiItoa(n: int)
    requires InInt64(n)
    ensures Atoi(Itoa(n)) == Some(n)
  {
    if n < 0 {
      DecimalValueOfNatDigits(-n);
      assert ("-" + NatDigits(-n))[1..] == NatDigits(-n);
    } else {
      DecimalValueOfNatDigits(n);
    }
  }

  /** Whatever `Atoi` accepts is made of digits after an optional sign, so in
      particular it holds no '/' (an extra path segment is never a number). */
  lemma AtoiAcceptsOnlySignAndDigits(s: string)
    requires Atoi(s).Some?
    ensures s != [] && (IsDigit(s[0]) || s[0] == '+' || s[0] == '-')
    ensures forall i :: 1 <= i < |s| ==> IsDigit(s[i])
  {
    var digits := if s[0] == '+' || s[0] == '-' then s[1..] else s;
    assert AllDigits(digits);
    forall i | 1 <= i < |s| ensures IsDigit(s[i]) {
      if s[0] == '+' || s[0] == '-' {
        assert s[i] == digits[i - 1];
      } else {
        assert s[i] == digits[i];
      }
    }
  }
}
