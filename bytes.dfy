/** Machine integers of the sketch's target (an AVR, where `char` is a signed
    8-bit type) and the conversions C applies when a value is stored into one. */
module Bytes {

  /** `uint8_t`: the fields of `tmElements_t` and the bytes of the clock chip. */
  newtype uint8 = x: int | 0 <= x < 256

  /** `char`, signed on the AVR: `rec`, `cnt`, `digit[]`, `finalDigit`, `Wday`, `mem[]`. */
  newtype int8 = x: int | -128 <= x < 128

  /** Storing an `int` into a `uint8_t`: reduction modulo 256, written out
      for the range of values the sketch ever stores. */
  function Uint8(x: int): (r: uint8)
    requires -256 <= x < 512
    ensures r as int == x || r as int == x + 256 || r as int == x - 256
    ensures 0 <= x < 256 ==> r as int == x
  {
    if x < 0 then (x + 256) as uint8 else if x < 256 then x as uint8 else (x - 256) as uint8
  }

  /** Storing an `int` into a signed `char`: two's-complement wrap-around,
      written out for the range of values the sketch ever stores. */
  function Int8(x: int): (r: int8)
    requires -384 <= x < 384
    ensures r as int == x || r as int == x + 256 || r as int == x - 256
    ensures -128 <= x < 128 ==> r as int == x
  {
    if x < -128 then (x + 256) as int8 else if x < 128 then x as int8 else (x - 256) as int8
  }

  /** A byte stored into a `char` and read back into a `uint8_t` is unchanged:
      this is what lets a record pass through the `char mem[3]` buffer. */
  lemma {:induction false} ByteThroughChar(b: uint8)
    ensures Uint8(Int8(b as int) as int) == b
  {
    var c := Int8(b as int);
    if b < 128 {
      assert c as int == b as int;
    } else {
      assert c as int == b as int - 256;
    }
  }

  /** The byte a character literal of the console protocol stands for. */
  function Key(c: char): (r: uint8)
    requires c as int < 256
    ensures r as int == c as int
  {
    c as int as uint8
  }
}
