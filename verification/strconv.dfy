/** Go's `strconv.Atoi` and `strconv.Itoa` on a 64-bit platform, where `int`
    is a 64-bit two's-complement integer. Strings are sequences of bytes,
    written here as characters. */
module Strconv {
  import opened Results

  const IntMin: int := -0x8000_0000_0000_0000
  const IntMax: int := 0x7FFF_FFFF_FFFF_FFFF

  /** The values a Go `int` can hold. */
  predicate InInt(x: int) {
    IntMin <= x <= IntMax
  }

  /** Atoi reports a syntax or a range error; every caller in the service
      only tests for the presence of an error, so one kind suffices. */
  datatype NumError = NumError(input: string)

  predicate IsDigit(c: char) {
    '0' <= c <= '9'
  }

  predicate AllDigits(s: string) {
    forall k :: 0 <= k < |s| ==> IsDigit(s[k])
  }

  function DigitValue(c: char): (d: nat)
    requires IsDigit(c)
    ensures d < 10
  {
    (c as int) - ('0' as int)
  }

  function DigitChar(d: nat): (c: char)
    requires d < 10
    ensures IsDigit(c) && DigitValue(c) == d
  {
    (('0' as int) + d) as char
  }

  /** The value of a string of decimal digits, read most significant first. */
  function DigitsValue(s: string): nat
    requires AllDigits(s)
  {
    if |s| == 0 then 0 else DigitsValue(s[..|s| - 1]) * 10 + DigitValue(s[|s| - 1])
  }

  /** The shortest decimal rendering of a natural number. */
  function Digits(n: nat): (s: string)
    ensures |s| > 0 && AllDigits(s)
    ensures s[0] != '-' && s[0] != '+'
  {
    if n < 10 then [DigitChar(n)] else Digits(n / 10) + [DigitChar(n % 10)]
  }

  /** An optional sign followed by one or more decimal digits. */
  predicate IsDecimal(s: string) {
    var body := if |s| > 0 && (s[0] == '-' || s[0] == '+') then s[1..] else s;
    |body| > 0 && AllDigits(body)
  }

  /** strconv.Atoi: a sign, then at least one decimal digit, nothing else
      (no blanks, no underscores), and the value must fit in an `int`. */
  function Atoi(s: string): (r: Result<int, NumError>)
    ensures r.Ok? ==> IsDecimal(s) && InInt(r.value)
    ensures r.Err? ==> r.error == NumError(s)
    ensures r.Ok? && r.value < 0 ==> s[0] == '-'
  {
    if |s| == 0 then Err(NumError(s))
    else
      var body := if s[0] == '-' || s[0] == '+' then s[1..] else s;
      if |body| == 0 || !AllDigits(body) then Err(NumError(s))
      else
        var v: int := if s[0] == '-' then -(DigitsValue(body) as int) else DigitsValue(body);
        if InInt(v) then Ok(v) else Err(NumError(s))
  }

  /** strconv.Itoa: a minus sign for negative values, then the digits. */
  function Itoa(x: int): (s: string)
    ensures |s| > 0
  {
    if x < 0 then "-" + Digits(-x) else Digits(x)
  }

  lemma {:induction false} DigitsValueOfDigits(n: nat)
    ensures DigitsValue(Digits(n)) == n
  {
    if n >= 10 {
      var s := Digits(n);
      assert s[..|s| - 1] == Digits(n / 10);
      DigitsValueOfDigits(n / 10);
    }
  }

  /** Parsing a rendered `int` gives the value back, for every value an
      `int` can hold; outside that range Atoi refuses the rendering. */
  lemma AtoiItoa(x: int)
    ensures Atoi(Itoa(x)) == (if InInt(x) then Ok(x) else Err(NumError(Itoa(x))))
  {
    var s := Itoa(x);
    if x < 0 {
      DigitsValueOfDigits(-x);
      assert s[0] == '-' && s[1..] == Digits(-x);
    } else {
      DigitsValueOfDigits(x);
      assert s == Digits(x);
    }
  }

  /** Itoa never produces a blank: every character is a digit or the minus sign. */
  lemma ItoaCharacters(x: int)
    ensures forall k :: 0 <= k < |Itoa(x)| ==> IsDigit(Itoa(x)[k]) || (k == 0 && Itoa(x)[k] == '-')
  {
  }
}
