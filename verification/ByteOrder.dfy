/**
 Big-endian integers.  `BE` and `FromBE` say what the wire form of a number is;
 `AppendUint64BE`, `ReadUint64BE` and the others go byte by byte and are proved to compute them.
 */
module ByteOrder {
  import opened Base

  function Pow256(k: nat): (p: nat)
    ensures p > 0
  {
    if k == 0 then 1 else 256 * Pow256(k - 1)
  }

  /** The `width` low-order base-256 digits of `value`, most significant first. */
  function BE(value: nat, width: nat): (s: Bytes)
    ensures |s| == width
  {
    if width == 0 then [] else BE(value / 256, width - 1) + [value % 256]
  }

  /** The number that a big-endian digit string denotes. */
  function FromBE(s: Bytes): (n: nat)
    ensures n < Pow256(|s|)
  {
    if |s| == 0 then 0 else 256 * FromBE(s[..|s| - 1]) + s[|s| - 1]
  }

  lemma Pow256Values()
    ensures Pow256(1) == 0x100
    ensures Pow256(2) == TWO_POW_16
    ensures Pow256(4) == TWO_POW_32
    ensures Pow256(8) == TWO_POW_64
  {
    assert Pow256(3) == 0x100_0000;
    assert Pow256(5) == 0x100 * TWO_POW_32;
    assert Pow256(6) == 0x1_0000 * TWO_POW_32;
    assert Pow256(7) == 0x100_0000 * TWO_POW_32;
  }

  lemma {:induction false} FromBEOfBE(value: nat, width: nat)
    requires value < Pow256(width)
    ensures FromBE(BE(value, width)) == value
  {
    if width > 0 {
      FromBEOfBE(value / 256, width - 1);
      var s := BE(value, width);
      assert s[..width - 1] == BE(value / 256, width - 1);
    }
  }

  lemma {:induction false} BEOfFromBE(s: Bytes)
    ensures BE(FromBE(s), |s|) == s
  {
    if |s| > 0 {
      BEOfFromBE(s[..|s| - 1]);
      assert s == s[..|s| - 1] + [s[|s| - 1]];
    }
  }

  /** `value >> (8 * k)` for a 64-bit value. */
  function ShiftRight(value: Uint64, k: nat): (r: Uint64)
    requires k <= 7
  {
    match k
    case 0 => value
    case 1 => value / 0x100
    case 2 => value / 0x1_0000
    case 3 => value / 0x100_0000
    case 4 => value / 0x1_0000_0000
    case 5 => value / 0x100_0000_0000
    case 6 => value / 0x1_0000_0000_0000
    case _ => value / 0x100_0000_0000_0000
  }

  lemma ShiftAgain(value: Uint64, k: nat)
    requires k < 7
    ensures ShiftRight(value, k + 1) == ShiftRight(value, k) / 0x100
  {
  }

  method AppendUint16BE(output: Bytes, value: Uint16) returns (r: Bytes)
    ensures r == output + BE(value, 2)
  {
    r := output + [(value / 0x100) % 0x100];
    r := r + [value % 0x100];
    assert BE(value / 0x100, 1) == BE(value / 0x100 / 0x100, 0) + [(value / 0x100) % 0x100];
  }

  method AppendUint32BE(output: Bytes, value: Uint32) returns (r: Bytes)
    ensures r == output + BE(value, 4)
  {
    r := output + [(value / 0x100_0000) % 0x100];
    r := r + [(value / 0x1_0000) % 0x100];
    r := r + [(value / 0x100) % 0x100];
    r := r + [value % 0x100];
    assert value / 0x100 / 0x100 == value / 0x1_0000;
    assert value / 0x1_0000 / 0x100 == value / 0x100_0000;
    assert BE(value / 0x100_0000, 1) == BE(value / 0x100_0000 / 0x100, 0) + [(value / 0x100_0000) % 0x100];
    assert BE(value / 0x1_0000, 2) == BE(value / 0x100_0000, 1) + [(value / 0x1_0000) % 0x100];
    assert BE(value / 0x100, 3) == BE(value / 0x1_0000, 2) + [(value / 0x100) % 0x100];
  }

  method AppendUint64BE(output: Bytes, value: Uint64) returns (r: Bytes)
    ensures r == output + BE(value, 8)
  {
    r := output + [ShiftRight(value, 7) % 0x100];
    assert BE(ShiftRight(value, 7), 1) == BE(ShiftRight(value, 7) / 0x100, 0) + [ShiftRight(value, 7) % 0x100];
    var k := 7;
    while k > 0
      invariant 0 <= k <= 7
      invariant r == output + BE(ShiftRight(value, k), 8 - k)
    {
      k := k - 1;
      ShiftAgain(value, k);
      r := r + [ShiftRight(value, k) % 0x100];
    }
  }

  method ReadUint16BE(data: Bytes) returns (r: Uint16)
    requires |data| >= 2
    ensures r == FromBE(data[..2])
  {
    r := 0x100 * (data[0] as int) + data[1];
    FromBEOfPrefix(data, 0);
    FromBEOfPrefix(data, 1);
  }

  method ReadUint32BE(data: Bytes) returns (r: Uint32)
    requires |data| >= 4
    ensures r == FromBE(data[..4])
  {
    r := 0x100_0000 * (data[0] as int) + 0x1_0000 * (data[1] as int) + 0x100 * (data[2] as int) + data[3];
    FromBEOfPrefix(data, 0);
    FromBEOfPrefix(data, 1);
    FromBEOfPrefix(data, 2);
    FromBEOfPrefix(data, 3);
  }

  /** The shift discards the top byte; the proof shows that byte is always zero. */
  method ReadUint64BE(data: Bytes) returns (r: Uint64)
    requires |data| >= 8
    ensures r == FromBE(data[..8])
  {
    Pow256Values();
    r := 0;
    for index := 0 to 8
      invariant r == FromBE(data[..index])
    {
      FromBEOfPrefix(data, index);
      PowMonotone(index + 1, 8);
      r := (r * 0x100) % TWO_POW_64 + data[index];
    }
  }

  lemma FromBEOfPrefix(data: Bytes, k: nat)
    requires k < |data|
    ensures FromBE(data[..k + 1]) == 256 * FromBE(data[..k]) + data[k]
  {
    assert data[..k + 1][..k] == data[..k];
  }

  /** The number in two bytes. */
  function HalfWord(b: Bytes, at: nat): (n: nat)
    requires at + 2 <= |b|
  {
    0x100 * (b[at] as int) + b[at + 1]
  }

  /** The number in four bytes. */
  function Word(b: Bytes, at: nat): (n: nat)
    requires at + 4 <= |b|
  {
    0x100_0000 * (b[at] as int) + 0x1_0000 * (b[at + 1] as int) + 0x100 * (b[at + 2] as int) + b[at + 3]
  }

  lemma TwoBytes(b: Bytes)
    requires |b| == 2
    ensures FromBE(b) == HalfWord(b, 0)
  {
    FromBEOfPrefix(b, 0);
    FromBEOfPrefix(b, 1);
    assert b[..2] == b;
  }

  lemma FourBytes(b: Bytes)
    requires |b| == 4
    ensures FromBE(b) == Word(b, 0)
  {
    FromBEOfPrefix(b, 0);
    FromBEOfPrefix(b, 1);
    FromBEOfPrefix(b, 2);
    FromBEOfPrefix(b, 3);
    assert b[..4] == b;
  }

  lemma EightBytes(b: Bytes)
    requires |b| == 8
    ensures FromBE(b) == TWO_POW_32 * Word(b, 0) + Word(b, 4)
  {
    FourBytes(b[..4]);
    FromBEOfPrefix(b, 4);
    FromBEOfPrefix(b, 5);
    FromBEOfPrefix(b, 6);
    FromBEOfPrefix(b, 7);
    assert b[..8] == b;
  }

  lemma {:induction false} PowMonotone(j: nat, k: nat)
    requires j <= k
    ensures Pow256(j) <= Pow256(k)
  {
    if j < k {
      PowMonotone(j, k - 1);
    }
  }
}
