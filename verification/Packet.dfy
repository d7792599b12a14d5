/** The 20-byte packet header and the packet encoding. */
module Packet {
  import opened Base
  import opened ByteOrder

  const PACKET_MAGIC: Uint32 := 0x4C49_4D31
  const PACKET_VERSION: Byte := 1
  const PACKET_FLAGS_NONE: Byte := 0
  const PACKET_HEADER_SIZE: nat := 20
  const MAX_PACKET_BODY_LENGTH: Uint32 := 1024 * 1024

  datatype PacketHeader = PacketHeader(
    magic: Uint32, version: Byte, flags: Byte, msgType: Uint16, seqId: Uint64, bodyLen: Uint32)

  datatype Packet = Packet(header: PacketHeader, body: Bytes)

  predicate ValidHeader(h: PacketHeader) {
    && h.magic == PACKET_MAGIC
    && h.version == PACKET_VERSION
    && h.flags == PACKET_FLAGS_NONE
    && h.bodyLen <= MAX_PACKET_BODY_LENGTH
  }

  // ---- The wire form -------------------------------------------------------

  function HeaderBytes(h: PacketHeader): (b: Bytes)
    ensures |b| == PACKET_HEADER_SIZE
  {
    BE(h.magic, 4) + [h.version, h.flags] + BE(h.msgType, 2) + BE(h.seqId, 8) + BE(h.bodyLen, 4)
  }

  /** Reads a header off the first twenty bytes, without validating it. */
  function HeaderOf(b: Bytes): (h: PacketHeader)
    requires |b| >= PACKET_HEADER_SIZE
  {
    Pow256Values();
    PacketHeader(FromBE(b[..4]), b[4], b[5], FromBE(b[6..8]), FromBE(b[8..16]), FromBE(b[16..20]))
  }

  lemma HeaderOfHeaderBytes(h: PacketHeader, rest: Bytes)
    ensures HeaderOf(HeaderBytes(h) + rest) == h
  {
    var b := HeaderBytes(h) + rest;
    Pow256Values();
    assert b[..4] == BE(h.magic, 4);
    assert b[6..8] == BE(h.msgType, 2);
    assert b[8..16] == BE(h.seqId, 8);
    assert b[16..20] == BE(h.bodyLen, 4);
    FromBEOfBE(h.magic, 4);
    FromBEOfBE(h.msgType, 2);
    FromBEOfBE(h.seqId, 8);
    FromBEOfBE(h.bodyLen, 4);
  }

  lemma HeaderBytesOfHeaderOf(b: Bytes)
    requires |b| >= PACKET_HEADER_SIZE
    ensures HeaderBytes(HeaderOf(b)) == b[..PACKET_HEADER_SIZE]
  {
    BEOfFromBE(b[..4]);
    BEOfFromBE(b[6..8]);
    BEOfFromBE(b[8..16]);
    BEOfFromBE(b[16..20]);
    assert b[..20] == b[..4] + [b[4], b[5]] + b[6..8] + b[8..16] + b[16..20];
  }

  // ---- The wire form, byte by byte --------------------------------------------------

  /** Twenty bytes that the decoder takes for a header: "LIM1", version 1, no flags, and a body of at most 1 MiB. */
  predicate StartsWithHeader(b: Bytes) {
    && |b| >= 20
    && b[0] == 0x4C && b[1] == 0x49 && b[2] == 0x4D && b[3] == 0x31
    && b[4] == 1 && b[5] == 0
    && Word(b, 16) <= 0x10_0000
  }

  lemma HeaderOnTheWire(b: Bytes)
    requires |b| >= PACKET_HEADER_SIZE
    ensures ValidHeader(HeaderOf(b)) <==> StartsWithHeader(b)
    ensures HeaderOf(b).msgType == HalfWord(b, 6)
    ensures HeaderOf(b).seqId == TWO_POW_32 * Word(b, 8) + Word(b, 12)
    ensures HeaderOf(b).bodyLen == Word(b, 16)
  {
    FourBytes(b[..4]);
    TwoBytes(b[6..8]);
    var id := b[8..16];
    EightBytes(id);
    FourBytes(b[16..20]);
    hide FromBE;
  }

  /** The packet with the length field that the encoder writes. */
  function Normalized(p: Packet): (q: Packet)
    requires |p.body| <= MAX_PACKET_BODY_LENGTH
  {
    p.(header := p.header.(bodyLen := |p.body|))
  }

  predicate Encodable(p: Packet) {
    |p.body| <= MAX_PACKET_BODY_LENGTH && ValidHeader(Normalized(p).header)
  }

  function Encode(p: Packet): (b: Bytes)
    requires Encodable(p)
    ensures |b| == PACKET_HEADER_SIZE + |p.body|
  {
    HeaderBytes(Normalized(p).header) + p.body
  }

  /** Which packets can be encoded, and every byte of the encoding. */
  lemma EncodingOnTheWire(p: Packet)
    ensures Encodable(p) <==>
              |p.body| <= 0x10_0000 && p.header.magic == 0x4C49_4D31 && p.header.version == 1 && p.header.flags == 0
    ensures Encodable(p) ==>
              var b := Encode(p);
              && |b| == 20 + |p.body| && b[20..] == p.body && StartsWithHeader(b)
              && HalfWord(b, 6) == p.header.msgType
              && TWO_POW_32 * Word(b, 8) + Word(b, 12) == p.header.seqId
              && Word(b, 16) == |p.body|
  {
    hide HeaderBytes, HeaderOf;
    if Encodable(p) {
      HeaderOnTheWire(Encode(p));
      HeaderOfHeaderBytes(Normalized(p).header, p.body);
    }
  }

  // ---- The code ------------------------------------------------------------

  function ValidateHeader(h: PacketHeader): (r: Result<()>)
    ensures r.Success? <==> ValidHeader(h)
    ensures r.Failure? ==> r.error == ParseError
  {
    if h.magic != PACKET_MAGIC then Failure(ParseError)
    else if h.version != PACKET_VERSION then Failure(ParseError)
    else if h.flags != PACKET_FLAGS_NONE then Failure(ParseError)
    else if h.bodyLen > MAX_PACKET_BODY_LENGTH then Failure(ParseError)
    else Success(())
  }

  /** The output is cleared first, so it is empty after a failure. */
  method EncodePacket(p: Packet) returns (status: Result<()>, output: Bytes)
    ensures status.Success? <==> Encodable(p)
    ensures status.Success? ==> output == Encode(p)
    ensures status.Failure? ==> output == []
    ensures status.Failure? ==>
              status.error == if |p.body| > MAX_PACKET_BODY_LENGTH then InvalidArgument else ParseError
  {
    output := [];
    if |p.body| > MAX_PACKET_BODY_LENGTH {
      return Failure(InvalidArgument), [];
    }
    var header := p.header.(bodyLen := |p.body|);
    status := ValidateHeader(header);
    if status.Failure? {
      return;
    }
    output := AppendUint32BE(output, header.magic);
    output := output + [header.version];
    output := output + [header.flags];
    output := AppendUint16BE(output, header.msgType);
    output := AppendUint64BE(output, header.seqId);
    output := AppendUint32BE(output, header.bodyLen);
    output := output + p.body;
  }

  method ParseHeader(data: RawBytes) returns (r: Result<PacketHeader>)
    ensures data.NullPointer? ==> r == Failure(InvalidArgument)
    ensures data.View? ==>
              (r.Success? <==> |data.bytes| >= PACKET_HEADER_SIZE && ValidHeader(HeaderOf(data.bytes)))
    ensures data.View? && r.Success? ==> r.value == HeaderOf(data.bytes)
    ensures data.View? ==> (r.Success? <==> StartsWithHeader(data.bytes))
    ensures data.View? && r.Success? ==>
              && r.value.msgType == HalfWord(data.bytes, 6)
              && r.value.seqId == TWO_POW_32 * Word(data.bytes, 8) + Word(data.bytes, 12)
              && r.value.bodyLen == Word(data.bytes, 16)
    ensures data.View? && r.Failure? ==> r.error == ParseError
  {
    if data.NullPointer? {
      return Failure(InvalidArgument);
    }
    var b := data.bytes;
    if |b| < PACKET_HEADER_SIZE {
      return Failure(ParseError);
    }
    HeaderOnTheWire(b);
    hide StartsWithHeader, Word, HalfWord;
    var magic := ReadUint32BE(b);
    var msgType := ReadUint16BE(b[6..]);
    var seqId := ReadUint64BE(b[8..]);
    var bodyLen := ReadUint32BE(b[16..]);
    assert b[6..][..2] == b[6..8] && b[8..][..8] == b[8..16] && b[16..][..4] == b[16..20];
    var header := PacketHeader(magic, b[4], b[5], msgType, seqId, bodyLen);
    var status := ValidateHeader(header);
    if status.Failure? {
      return Failure(status.error);
    }
    return Success(header);
  }
}
