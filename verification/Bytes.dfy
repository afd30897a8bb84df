/** Byte strings and fixed-width big-endian integers. */
module Bytes {
  type Byte = b: int | 0 <= b < 256
  type String = seq<Byte>

  const U16: nat := 0x1_0000
  const U32: nat := 0x1_0000_0000
  const U64: nat := 0x1_0000_0000_0000_0000

  function Zeros(n: nat): (z: String)
    ensures |z| == n
  {
    seq(n, _ => 0)
  }

  /** The bytes of an ASCII literal. */
  function Ascii(s: string): (r: String)
    ensures |r| == |s|
  {
    seq(|s|, i requires 0 <= i < |s| => s[i] as int % 256)
  }

  function Pow256(n: nat): (r: nat)
    ensures r > 0
  {
    if n == 0 then 1 else 256 * Pow256(n - 1)
  }

  /** The low `width` bytes of `n`, most significant first. */
  function BigEndian(n: nat, width: nat): (r: String)
    ensures |r| == width
    decreases width
  {
    if width == 0 then [] else BigEndian(n / 256, width - 1) + [n % 256]
  }

  function FromBigEndian(bytes: String): nat {
    if bytes == [] then 0
    else 256 * FromBigEndian(bytes[..|bytes| - 1]) + bytes[|bytes| - 1]
  }

  lemma Widths()
    ensures Pow256(1) == 256 && Pow256(2) == U16 && Pow256(4) == U32 && Pow256(8) == U64
  {
    assert Pow256(2) == 256 * Pow256(1);
    assert Pow256(3) == 256 * Pow256(2);
    assert Pow256(4) == 256 * Pow256(3);
    assert Pow256(5) == 256 * Pow256(4);
    assert Pow256(6) == 256 * Pow256(5);
    assert Pow256(7) == 256 * Pow256(6);
    assert Pow256(8) == 256 * Pow256(7);
  }

  lemma {:induction false} DecodeEncode(n: nat, width: nat)
    requires n < Pow256(width)
    ensures FromBigEndian(BigEndian(n, width)) == n
    decreases width
  {
    if width > 0 {
      DecodeEncode(n / 256, width - 1);
      assert BigEndian(n, width)[..width - 1] == BigEndian(n / 256, width - 1);
    }
  }

  lemma {:induction false} EncodeDecode(bytes: String)
    ensures FromBigEndian(bytes) < Pow256(|bytes|)
    ensures BigEndian(FromBigEndian(bytes), |bytes|) == bytes
    decreases |bytes|
  {
    if bytes != [] {
      EncodeDecode(bytes[..|bytes| - 1]);
    }
  }

  lemma BigEndianInjective(a: nat, b: nat, width: nat)
    requires a < Pow256(width) && b < Pow256(width)
    requires BigEndian(a, width) == BigEndian(b, width)
    ensures a == b
  {
    DecodeEncode(a, width);
    DecodeEncode(b, width);
  }

  lemma Regroup(a: String, b: String, c: String)
    ensures a + b + c == a + (b + c)
  {
  }

  /** Equal concatenations whose heads have equal length split equally. */
  lemma SplitEqual<T>(a: seq<T>, x: seq<T>, b: seq<T>, y: seq<T>)
    requires a + x == b + y && |a| == |b|
    ensures a == b && x == y
  {
    assert a == (a + x)[..|a|] && b == (b + y)[..|b|];
    assert x == (a + x)[|a|..] && y == (b + y)[|b|..];
  }
}
