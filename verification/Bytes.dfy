/**
 Bytes, big-endian integers, and the growable buffer that the codec and the reader share.

 A 64-bit platform is assumed: `usize` is as wide as the 64-bit lengths on the wire.
 */
module Bytes {

  newtype byte = i: int | 0 <= i < 256
  type Bytes = seq<byte>

  const ISIZE_MAX: nat := 0x7FFF_FFFF_FFFF_FFFF

  function Pow256(width: nat): (p: nat)
    ensures p > 0
  {
    if width == 0 then 1 else 256 * Pow256(width - 1)
  }

  /** The low `width` bytes of `n`, most significant first (`put_u32`, `to_be_bytes`). */
  function BigEndian(n: nat, width: nat): (s: Bytes)
    ensures |s| == width
  {
    if width == 0 then [] else BigEndian(n / 256, width - 1) + [(n % 256) as byte]
  }

  /** `get_u32` and `get_u64` on exactly 4 and 8 bytes. */
  function FromBigEndian(s: Bytes): nat
  {
    if s == [] then 0 else 256 * FromBigEndian(s[..|s| - 1]) + s[|s| - 1] as nat
  }

  lemma {:induction false} BigEndianDecodes(n: nat, width: nat)
    requires n < Pow256(width)
    ensures FromBigEndian(BigEndian(n, width)) == n
  {
    if width > 0 {
      BigEndianDecodes(n / 256, width - 1);
      var s := BigEndian(n, width);
      assert s[..|s| - 1] == BigEndian(n / 256, width - 1);
    }
  }

  lemma {:induction false} BigEndianEncodes(s: Bytes)
    ensures FromBigEndian(s) < Pow256(|s|)
    ensures BigEndian(FromBigEndian(s), |s|) == s
  {
    if s != [] {
      var init, last := s[..|s| - 1], s[|s| - 1];
      BigEndianEncodes(init);
      assert FromBigEndian(s) / 256 == FromBigEndian(init) && FromBigEndian(s) % 256 == last as int;
      assert s == init + [last];
    }
  }

  lemma U32RoundTrip(n: nat)
    requires n < 0x1_0000_0000
    ensures FromBigEndian(BigEndian(n, 4)) == n
  {
    Pow256Values();
    BigEndianDecodes(n, 4);
  }

  lemma U32Encodes(s: Bytes)
    requires |s| == 4
    ensures FromBigEndian(s) < 0x1_0000_0000 && BigEndian(FromBigEndian(s), 4) == s
  {
    Pow256Values();
    BigEndianEncodes(s);
  }

  lemma U64RoundTrip(n: nat)
    requires n < 0x1_0000_0000_0000_0000
    ensures FromBigEndian(BigEndian(n, 8)) == n
  {
    Pow256Values();
    BigEndianDecodes(n, 8);
  }

  lemma Pow256Values()
    ensures Pow256(4) == 0x1_0000_0000
    ensures Pow256(8) == 0x1_0000_0000_0000_0000
  {
    assert Pow256(1) == 256;
    assert Pow256(2) == 0x1_0000;
    assert Pow256(3) == 0x100_0000;
    assert Pow256(4) == 0x1_0000_0000;
    assert Pow256(5) == 0x100_0000_0000;
    assert Pow256(6) == 0x1_0000_0000_0000;
    assert Pow256(7) == 0x100_0000_0000_0000;
  }

  /** Most significant byte first. */
  lemma {:induction false} MostSignificantFirst(s: Bytes)
    requires s != []
    ensures FromBigEndian(s) == s[0] as nat * Pow256(|s| - 1) + FromBigEndian(s[1..])
  {
    var init := s[..|s| - 1];
    if init != [] {
      MostSignificantFirst(init);
      assert s[1..][..|s| - 2] == init[1..];
      var a, p := s[0] as nat, Pow256(|s| - 2);
      assert 256 * (a * p) == a * (256 * p);
    }
  }

  lemma TakeDrop(front: Bytes, back: Bytes)
    ensures (front + back)[..|front|] == front
    ensures (front + back)[|front|..] == back
  {
  }

  /**
   `BytesMut`, reduced to its contents. A `requires` below is a condition under which the
   real buffer does not panic: a capacity above `isize::MAX` or a split past the end does.
   */
  class BytesMut {
    var data: Bytes

    /** The length for which room was asked last; the allocation itself is not modelled. */
    var room: nat

    constructor ()
      ensures data == []
    {
      data, room := [], 0;
    }

    method Reserve(additional: nat)
      requires |data| + additional <= ISIZE_MAX
      modifies this`room
      ensures room == |data| + additional
    {
      room := |data| + additional;
    }

    method Resize(length: nat)
      requires length <= ISIZE_MAX
      modifies this
      ensures length <= |old(data)| ==> data == old(data)[..length]
      ensures length > |old(data)| ==> data == old(data) + seq(length - |old(data)|, _ => 0)
    {
      if length <= |data| {
        data := data[..length];
      } else {
        data := data + seq(length - |data|, _ => 0);
      }
    }

    method Truncate(length: nat)
      modifies this
      ensures data == if length <= |old(data)| then old(data)[..length] else old(data)
    {
      if length < |data| {
        data := data[..length];
      }
    }

    method SplitTo(at: nat) returns (front: Bytes)
      requires at <= |data|
      modifies this
      ensures front == old(data)[..at] && data == old(data)[at..]
    {
      front, data := data[..at], data[at..];
    }

    method GetU8() returns (b: byte)
      requires |data| >= 1
      modifies this
      ensures b == old(data)[0] && data == old(data)[1..]
    {
      b, data := data[0], data[1..];
    }

    method GetU64() returns (n: nat)
      requires |data| >= 8
      modifies this
      ensures n == FromBigEndian(old(data)[..8]) && data == old(data)[8..]
    {
      n, data := FromBigEndian(data[..8]), data[8..];
    }

    method Extend(bytes: Bytes)
      modifies this
      ensures data == old(data) + bytes
    {
      data := data + bytes;
    }
  }
}
