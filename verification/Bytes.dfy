/**
 Byte strings and the little-endian integer fields that `DataView` writes and reads.
 */
module Bytes {

  type Byte = b: int | 0 <= b < 256

  datatype Option<+T> = None | Some(value: T)

  /** 256 to the power `width`: the number of values a field of `width` bytes can hold. */
  function FieldSize(width: nat): (r: nat)
    ensures r >= 1
  {
    if width == 0 then 1 else 256 * FieldSize(width - 1)
  }

  /** The `width` low bytes of `n`, least significant first; higher bytes are dropped, as `DataView` does. */
  function LittleEndian(n: nat, width: nat): (r: seq<Byte>)
    ensures |r| == width
  {
    if width == 0 then [] else [n % 256] + LittleEndian(n / 256, width - 1)
  }

  function FromLittleEndian(s: seq<Byte>): (n: nat)
    ensures n < FieldSize(|s|)
  {
    if s == [] then 0 else s[0] + 256 * FromLittleEndian(s[1..])
  }

  /** Reading back a field that fits its width gives the number written. */
  lemma {:induction false} ReadAfterWrite(n: nat, width: nat)
    requires n < FieldSize(width)
    ensures FromLittleEndian(LittleEndian(n, width)) == n
  {
    if width > 0 {
      ReadAfterWrite(n / 256, width - 1);
      assert LittleEndian(n, width)[1..] == LittleEndian(n / 256, width - 1);
    }
  }

  /** Writing a number that was read from a field restores the field's bytes. */
  lemma {:induction false} WriteAfterRead(s: seq<Byte>)
    ensures LittleEndian(FromLittleEndian(s), |s|) == s
  {
    if s != [] {
      WriteAfterRead(s[1..]);
      assert FromLittleEndian(s) % 256 == s[0];
      assert FromLittleEndian(s) / 256 == FromLittleEndian(s[1..]);
      assert s == [s[0]] + s[1..];
    }
  }
}
