/** `print2digits` (src/rtc_lamp.cpp:463-469): the characters it sends for a
    number, with the decimal rendering of the serial library's `print(int)`. */
module Format {

  /** The character of a decimal digit. */
  function DigitChar(d: nat): (c: char)
    requires d < 10
    ensures '0' <= c <= '9' && c as int - '0' as int == d
  {
    ('0' as int + d) as char
  }

  predicate AllDecimal(s: string)
  {
    forall i :: 0 <= i < |s| ==> '0' <= s[i] <= '9'
  }

  /** The digits `print` sends for a non-negative number: no leading zero. */
  function Decimal(n: nat): (r: string)
    ensures |r| >= 1 && AllDecimal(r)
    ensures (|r| == 1) == (n < 10)
    ensures r[0] != '0' || n == 0
    decreases n
  {
    if n < 10 then [DigitChar(n)] else Decimal(n / 10) + [DigitChar(n % 10)]
  }

  /** `print(int)`: a minus sign, then the digits of the magnitude, so that
      what is sent reads back as the number. */
  function Print(n: int): (r: string)
    ensures n >= 0 ==> |r| >= 1 && AllDecimal(r) && ParseDecimal(r) == n
    ensures n < 0 ==> |r| >= 2 && r[0] == '-' && AllDecimal(r[1..]) && ParseDecimal(r[1..]) == -n
  {
    if n < 0 then
      var d := Decimal(-n);
      ParseDecimalOfDecimal(-n);
      assert (['-'] + d)[1..] == d;
      ['-'] + d
    else
      ParseDecimalOfDecimal(n);
      Decimal(n)
  }

  /** `print2digits(number)`: a `'0'` in front of the numbers 0..9. */
  function Print2Digits(n: int): (r: string)
  {
    (if 0 <= n < 10 then ['0'] else []) + Print(n)
  }

  /** Reading a string of decimal digits back as a number. */
  function ParseDecimal(s: string): (n: nat)
    requires |s| >= 1 && AllDecimal(s)
    decreases |s|
  {
    var last := s[|s| - 1] as int - '0' as int;
    if |s| == 1 then last else 10 * ParseDecimal(s[..|s| - 1]) + last
  }

  // ---------------------------------------------------------------------
  // Properties

  /** The digits of a number read back as that number. */
  lemma {:induction false} ParseDecimalOfDecimal(n: nat)
    ensures ParseDecimal(Decimal(n)) == n
    decreases n
  {
    if n >= 10 {
      var r := Decimal(n);
      assert r[..|r| - 1] == Decimal(n / 10);
      ParseDecimalOfDecimal(n / 10);
    }
  }

  /** Every number from 0 to 99 takes exactly two characters, which read
      back as the number: the clock and the alarm table line up in columns. */
  lemma {:induction false} Print2DigitsPads(n: int)
    requires 0 <= n < 100
    ensures var r := Print2Digits(n);
      |r| == 2 && AllDecimal(r) && ParseDecimal(r) == n && (n < 10 <==> r[0] == '0')
  {
    var r := Print2Digits(n);
    if n < 10 {
      assert r == ['0', DigitChar(n)];
    } else {
      assert Decimal(n) == Decimal(n / 10) + [DigitChar(n % 10)];
      assert r == [DigitChar(n / 10), DigitChar(n % 10)];
    }
  }

  /** From 10 on, and for negative numbers, nothing is added to what `print` sends. */
  lemma {:induction false} Print2DigitsUnpadded(n: int)
    requires n >= 10 || n < 0
    ensures Print2Digits(n) == Print(n)
  {
    assert [] + Print(n) == Print(n);
  }
}
