/** Byte strings, options and the fixed-width big-endian integers that the
    framed encodings share. */
module Bytes {
  type byte = x: int | 0 <= x < 256
  type bytes = seq<byte>

  datatype Option<+T> = None | Some(value: T)

  /** 256 to the power `width`: the number of values `width` bytes can hold. */
  function Capacity(width: nat): (c: nat)
    ensures c > 0
  {
    if width == 0 then 1 else 256 * Capacity(width - 1)
  }

  /** The low `width` bytes of `n`, most significant byte first. */
  function BigEndian(n: nat, width: nat): (b: bytes)
    ensures |b| == width
  {
    if width == 0 then [] else BigEndian(n / 256, width - 1) + [n % 256]
  }

  function FromBigEndian(b: bytes): (n: nat)
    ensures n < Capacity(|b|)
  {
    if b == [] then 0 else 256 * FromBigEndian(b[..|b| - 1]) + b[|b| - 1]
  }

  lemma {:induction false} BigEndianDecodes(n: nat, width: nat)
    requires n < Capacity(width)
    ensures FromBigEndian(BigEndian(n, width)) == n
  {
    if width > 0 {
      BigEndianDecodes(n / 256, width - 1);
      assert BigEndian(n, width)[..width - 1] == BigEndian(n / 256, width - 1);
    }
  }

  lemma {:induction false} BigEndianEncodes(b: bytes)
    ensures BigEndian(FromBigEndian(b), |b|) == b
  {
    if b != [] {
      BigEndianEncodes(b[..|b| - 1]);
      assert b == b[..|b| - 1] + [b[|b| - 1]];
    }
  }

  /** Network order: the first byte has the greatest weight. */
  lemma {:induction false} FirstWeighsMost(b: bytes)
    requires b != []
    ensures FromBigEndian(b) == b[0] * Capacity(|b| - 1) + FromBigEndian(b[1..])
    decreases |b|
  {
    if |b| > 1 {
      var front, n := b[..|b| - 1], |b| - 1;
      FirstWeighsMost(front);
      assert front[1..] == b[1..][..n - 1];
      Regrouped(b[0], Capacity(n - 1), FromBigEndian(front[1..]));
    }
  }

  lemma Regrouped(x: nat, c: nat, y: nat)
    ensures 256 * (x * c + y) == x * (256 * c) + 256 * y
  {
  }

  lemma CapacityOf2()
    ensures Capacity(2) == 0x1_0000
  {
    assert Capacity(1) == 256;
  }

  lemma CapacityOf4()
    ensures Capacity(4) == 0x1_0000_0000
  {
    CapacityOf2();
    assert Capacity(3) == 0x100_0000;
  }

  lemma CapacityOf8()
    ensures Capacity(8) == 0x1_0000_0000_0000_0000
  {
    CapacityOf4();
    assert Capacity(5) == 0x100_0000_0000;
    assert Capacity(6) == 0x1_0000_0000_0000;
    assert Capacity(7) == 0x100_0000_0000_0000;
  }
}
