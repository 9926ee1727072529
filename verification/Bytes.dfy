/** Bytes and the little-endian 32-bit words that the i386 stores in them. */
module Bytes {
  type Byte = x: int | 0 <= x < 256

  type Word = x: int | 0 <= x < 0x1_0000_0000

  /** `*(unsigned int *)(s + at)` */
  function Get32(s: seq<Byte>, at: nat): (v: Word)
    requires at + 4 <= |s|
  {
    var b0: int, b1: int, b2: int, b3: int := s[at], s[at + 1], s[at + 2], s[at + 3];
    b0 + 0x100 * b1 + 0x1_0000 * b2 + 0x100_0000 * b3
  }

  function ByteOf(v: Word, i: nat): Byte
    requires i < 4
  {
    match i
    case 0 => v % 0x100
    case 1 => v / 0x100 % 0x100
    case 2 => v / 0x1_0000 % 0x100
    case _ => v / 0x100_0000
  }

  function Encode32(v: Word): (r: seq<Byte>)
    ensures |r| == 4
  {
    [ByteOf(v, 0), ByteOf(v, 1), ByteOf(v, 2), ByteOf(v, 3)]
  }

  /** The bytes after `*(unsigned int *)(s + at) = v`. */
  function Put32(s: seq<Byte>, at: nat, v: Word): (r: seq<Byte>)
    requires at + 4 <= |s|
    ensures |r| == |s|
    ensures forall x :: 0 <= x < |s| && (x < at || at + 4 <= x) ==> r[x] == s[x]
  {
    s[at := ByteOf(v, 0)][at + 1 := ByteOf(v, 1)][at + 2 := ByteOf(v, 2)][at + 3 := ByteOf(v, 3)]
  }

  lemma BytesOfWord(v: Word)
    ensures ByteOf(v, 0) + 0x100 * ByteOf(v, 1) + 0x1_0000 * ByteOf(v, 2) + 0x100_0000 * ByteOf(v, 3) == v
  {
    assert v / 0x1_0000 == v / 0x100 / 0x100;
    assert v / 0x100_0000 == v / 0x1_0000 / 0x100;
  }

  lemma GetPut(s: seq<Byte>, at: nat, v: Word)
    requires at + 4 <= |s|
    ensures Get32(Put32(s, at, v), at) == v
  {
    BytesOfWord(v);
  }

  lemma GetEncoded(s: seq<Byte>, at: nat, v: Word)
    requires at + 4 <= |s| && s[at..at + 4] == Encode32(v)
    ensures Get32(s, at) == v
  {
    BytesOfWord(v);
    forall i | 0 <= i < 4 ensures s[at + i] == Encode32(v)[i] {
      assert s[at..at + 4][i] == s[at + i];
    }
  }

  method Load32(a: array<Byte>, at: nat) returns (v: Word)
    requires at + 4 <= a.Length
    ensures v == Get32(a[..], at)
  {
    var b0: int, b1: int, b2: int, b3: int := a[at], a[at + 1], a[at + 2], a[at + 3];
    v := b0 + 0x100 * b1 + 0x1_0000 * b2 + 0x100_0000 * b3;
  }

  method Store32(a: array<Byte>, at: nat, v: Word)
    requires at + 4 <= a.Length
    modifies a
    ensures a[..] == Put32(old(a[..]), at, v)
  {
    a[at], a[at + 1], a[at + 2], a[at + 3] := ByteOf(v, 0), ByteOf(v, 1), ByteOf(v, 2), ByteOf(v, 3);
  }
}
