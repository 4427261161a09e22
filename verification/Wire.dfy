// Big-endian integers on the wire (proto/packet.h), shared by both framers and the FullSync codec.

module Wire {
  type Byte = b: nat | b < 256

  const U16: nat := 0x1_0000
  const U32: nat := 0x1_0000_0000
  const U64: nat := 0x1_0000_0000_0000_0000

  function Power256(width: nat): nat {
    if width == 0 then 1 else 256 * Power256(width - 1)
  }

  /** The low width bytes of n, most significant first. */
  function ToBytes(n: nat, width: nat): (bytes: seq<Byte>)
    ensures |bytes| == width
  {
    if width == 0 then [] else ToBytes(n / 256, width - 1) + [n % 256]
  }

  function FromBytes(bytes: seq<Byte>): nat {
    if bytes == [] then 0 else 256 * FromBytes(bytes[..|bytes| - 1]) + bytes[|bytes| - 1]
  }

  /** Writing and reading back gives the value, if it fits. */
  lemma {:induction false} ReadsBack(n: nat, width: nat)
    requires n < Power256(width)
    ensures FromBytes(ToBytes(n, width)) == n
  {
    if width > 0 {
      ReadsBack(n / 256, width - 1);
      assert ToBytes(n, width)[..width - 1] == ToBytes(n / 256, width - 1);
    }
  }

  /** Every byte string is what its value is written as. */
  lemma {:induction false} WritesBack(bytes: seq<Byte>)
    ensures FromBytes(bytes) < Power256(|bytes|) && ToBytes(FromBytes(bytes), |bytes|) == bytes
  {
    if bytes != [] {
      var init := bytes[..|bytes| - 1];
      WritesBack(init);
      assert bytes == init + [bytes[|bytes| - 1]];
    }
  }

  lemma Widths()
    ensures Power256(2) == U16 && Power256(4) == U32 && Power256(8) == U64
  {
    assert Power256(1) == 256 && Power256(3) == 256 * U16;
    assert Power256(5) == 256 * U32 && Power256(6) == 256 * 256 * U32 && Power256(7) == 256 * 256 * 256 * U32;
  }

  // ---- The shift-and-mask forms of the source -----------------------------------------------------

  lemma TwoBytes(n: nat)
    ensures ToBytes(n, 2) == [n / 0x100 % 256, n % 256]
  {
    assert ToBytes(n / 256 / 256, 0) == [];
    assert ToBytes(n / 256, 1) == [n / 256 % 256];
  }

  lemma FourBytes(n: nat)
    ensures ToBytes(n, 4) == [n / 0x100_0000 % 256, n / 0x1_0000 % 256, n / 0x100 % 256, n % 256]
  {
    var h := n / 0x1_0000;
    assert n / 256 / 256 == h && n / 0x100_0000 == h / 0x100;
    TwoBytes(h);
    assert ToBytes(n / 256, 3) == ToBytes(h, 2) + [n / 256 % 256];
  }

  /** The upper half is written before the lower one. */
  lemma HighThenLow(n: nat)
    ensures ToBytes(n, 8) == ToBytes(n / 0x1_0000_0000, 4) + ToBytes(n, 4)
  {
    var a := n / 256;
    var b := a / 256;
    var c := b / 256;
    assert c / 256 == n / 0x1_0000_0000;
    assert ToBytes(a, 7) == ToBytes(b, 6) + [a % 256] && ToBytes(b, 6) == ToBytes(c, 5) + [b % 256];
    assert ToBytes(a, 3) == ToBytes(b, 2) + [a % 256] && ToBytes(b, 2) == ToBytes(c, 1) + [b % 256];
    assert ToBytes(c, 1) == ToBytes(c / 256, 0) + [c % 256];
  }

  lemma EightBytes(n: nat)
    ensures ToBytes(n, 8) == [n / 0x1_0000_0000 / 0x100_0000 % 256, n / 0x1_0000_0000 / 0x1_0000 % 256,
                              n / 0x1_0000_0000 / 0x100 % 256, n / 0x1_0000_0000 % 256,
                              n / 0x100_0000 % 256, n / 0x1_0000 % 256, n / 0x100 % 256, n % 256]
  {
    HighThenLow(n);
    FourBytes(n / 0x1_0000_0000);
    FourBytes(n);
  }

  method WriteU16(dst: array<Byte>, at: nat, value: nat)
    requires at + 2 <= dst.Length && value < U16
    modifies dst
    ensures dst[..at + 2] == old(dst[..at]) + ToBytes(value, 2) && dst[at + 2..] == old(dst[at + 2..])
  {
    TwoBytes(value);
    dst[at] := value / 0x100 % 256;
    dst[at + 1] := value % 256;
  }

  method WriteU64(dst: array<Byte>, at: nat, value: nat)
    requires at + 8 <= dst.Length && value < U64
    modifies dst
    ensures dst[..at + 8] == old(dst[..at]) + ToBytes(value, 8) && dst[at + 8..] == old(dst[at + 8..])
  {
    EightBytes(value);
    var high := value / 0x1_0000_0000;          // value >> 32, so that each shift below stays small
    dst[at] := high / 0x100_0000 % 256;
    dst[at + 1] := high / 0x1_0000 % 256;
    dst[at + 2] := high / 0x100 % 256;
    dst[at + 3] := high % 256;
    dst[at + 4] := value / 0x100_0000 % 256;
    dst[at + 5] := value / 0x1_0000 % 256;
    dst[at + 6] := value / 0x100 % 256;
    dst[at + 7] := value % 256;
  }

  function ReadU16(src: seq<Byte>): (n: nat)
    requires |src| == 2
    ensures n == FromBytes(src) && n < U16
  {
    Unfold(src);
    src[0] as nat * 0x100 + src[1]
  }

  function ReadU64(src: seq<Byte>): (n: nat)
    requires |src| == 8
    ensures n == FromBytes(src) && n < U64
  {
    Unfold8(src);
    src[0] as nat * 0x100_0000_0000_0000 + src[1] as nat * 0x1_0000_0000_0000 + src[2] as nat * 0x100_0000_0000
    + src[3] as nat * 0x1_0000_0000 + src[4] as nat * 0x100_0000 + src[5] as nat * 0x1_0000
    + src[6] as nat * 0x100 + src[7]
  }

  lemma Unfold(src: seq<Byte>)
    requires |src| == 2
    ensures FromBytes(src) == src[0] as nat * 0x100 + src[1]
  {
    assert src[..1][..0] == [];
    assert FromBytes(src[..1]) == src[0];
  }

  lemma Unfold4(src: seq<Byte>)
    requires |src| == 4
    ensures FromBytes(src) == src[0] as nat * 0x100_0000 + src[1] as nat * 0x1_0000 + src[2] as nat * 0x100 + src[3]
  {
    Unfold(src[..2]);
    assert src[..3][..2] == src[..2];
    assert FromBytes(src[..3]) == 256 * FromBytes(src[..2]) + src[2];
  }

  lemma Unfold8(src: seq<Byte>)
    requires |src| == 8
    ensures FromBytes(src)
      == src[0] as nat * 0x100_0000_0000_0000 + src[1] as nat * 0x1_0000_0000_0000 + src[2] as nat * 0x100_0000_0000
         + src[3] as nat * 0x1_0000_0000 + src[4] as nat * 0x100_0000 + src[5] as nat * 0x1_0000
         + src[6] as nat * 0x100 + src[7]
  {
    Unfold4(src[..4]);
    assert src[..5][..4] == src[..4] && src[..6][..5] == src[..5] && src[..7][..6] == src[..6];
    assert FromBytes(src[..5]) == 256 * FromBytes(src[..4]) + src[4];
    assert FromBytes(src[..6]) == 256 * FromBytes(src[..5]) + src[5];
    assert FromBytes(src[..7]) == 256 * FromBytes(src[..6]) + src[6];
  }
}
