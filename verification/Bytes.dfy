/**
 Octets, byte strings and the unsigned widths of the simulator's integers.

 Every fixed-width integer is a `nat` here; a place where the program narrows
 or wraps is written out with `%` and one of the powers below.
 */
module Bytes {
  type byte = i: int | 0 <= i < 256

  const TWO8: nat := 0x100
  const TWO16: nat := 0x1_0000
  const TWO32: nat := 0x1_0000_0000
  const TWO64: nat := 0x1_0000_0000_0000_0000

  /** Ticks of simulator time in a second. */
  const SECOND: nat := 1_000_000_000

  datatype Option<+T> = None | Some(value: T)

  /** The octets of a string literal (characters above 255 do not occur). */
  function Ascii(s: string): (b: seq<byte>)
    ensures |b| == |s|
    ensures forall i :: 0 <= i < |s| ==> b[i] == s[i] as int % 256
  {
    seq(|s|, i requires 0 <= i < |s| => s[i] as int % 256)
  }

  lemma AppendAssoc<T>(a: seq<T>, b: seq<T>, c: seq<T>)
    ensures (a + b) + c == a + (b + c)
  {
  }
}
