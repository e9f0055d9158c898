/** Bytes and the characters the configuration syntax is made of. */
module Bytes {
  newtype byte = x: int | 0 <= x < 256

  const TAB: byte := 9
  const NEWLINE: byte := 10
  const RETURN: byte := 13
  const SPACE: byte := 32
  const QUOTE: byte := 34
  const OPEN: byte := 40
  const CLOSE: byte := 41
  const SEMICOLON: byte := 59
  const BACKSLASH: byte := 92

  /** The bytes of an ASCII literal. */
  function Ascii(s: string): (r: seq<byte>)
    requires forall c :: c in s ==> c as int < 128
    ensures |r| == |s|
    ensures forall k :: 0 <= k < |s| ==> r[k] as int == s[k] as int
  {
    seq(|s|, k requires 0 <= k < |s| => assert s[k] in s; (s[k] as int) as byte)
  }
}
