/**
 * Big-endian access to a byte store, as a DataView does it: the main memory
 * and the register bank are both such stores.
 */
module BigEndian {

  type Byte = b: int | 0 <= b < 0x100
  type Word = w: int | 0 <= w < 0x1_0000

  /**
   * The conversion a 16-bit store applies to the number it is given: the
   * value is taken modulo 2^16, so it wraps around instead of failing.
   */
  function ToUint16(v: int): (w: Word)
    ensures (v - w) % 0x1_0000 == 0
    ensures 0 <= v < 0x1_0000 ==> w == v
  {
    v % 0x1_0000
  }

  /** Adding in two steps, each truncated, is adding once and truncating. */
  lemma ToUint16Add(v: int, a: int)
    ensures ToUint16(ToUint16(v) + a) == ToUint16(v + a)
  {
    var q := v / 0x1_0000;
    assert v == q * 0x1_0000 + ToUint16(v);
    assert v + a == q * 0x1_0000 + (ToUint16(v) + a);
  }

  /** The unsigned 16-bit value stored big-endian at `offset`. */
  function Get16(s: seq<Byte>, offset: nat): (w: Word)
    requires offset + 2 <= |s|
    ensures w / 0x100 == s[offset] && w % 0x100 == s[offset + 1]
  {
    (s[offset] as int) * 0x100 + s[offset + 1]
  }

  /** `s` with the value `v`, truncated to 16 bits, stored big-endian at `offset`. */
  function Set16(s: seq<Byte>, offset: nat, v: int): (r: seq<Byte>)
    requires offset + 2 <= |s|
    ensures |r| == |s|
    ensures Get16(r, offset) == ToUint16(v)
    ensures forall i :: 0 <= i < |s| && i != offset && i != offset + 1 ==> r[i] == s[i]
  {
    var w := ToUint16(v);
    s[offset := w / 0x100][offset + 1 := w % 0x100]
  }

  /** A 16-bit big-endian store into an array, in place. */
  method SetUint16(a: array<Byte>, offset: nat, value: int)
    requires offset + 2 <= a.Length
    modifies a
    ensures a[..] == Set16(old(a[..]), offset, value)
  {
    var w := ToUint16(value);
    a[offset] := w / 0x100;
    a[offset + 1] := w % 0x100;
  }
}
