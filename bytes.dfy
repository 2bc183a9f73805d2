/**
  Go strings are sequences of bytes; every string of the model is one.
  The text literals of the program are all ASCII, and Ascii gives their bytes.
 */
module Bytes {

  newtype byte = b: int | 0 <= b < 256

  type Bytes = seq<byte>

  /** The bytes of a literal: one byte per character, its code (the literals
      this is applied to have only codes below 128). */
  function Ascii(s: string): (r: Bytes)
    ensures |r| == |s|
  {
    seq(|s|, i requires 0 <= i < |s| => (s[i] as int % 256) as byte)
  }

  const Space: byte := 0x20    // ' '
  const Percent: byte := 0x25  // '%'
  const Amp: byte := 0x26      // '&'
  const Plus: byte := 0x2B     // '+'
  const Equals: byte := 0x3D   // '='
}
