/**
 The incremental frame decoder.  `Drain` says which packets a byte string holds;
 the class is the buffering code, proved against it.
 */
module FrameDecoder {
  import opened Base
  import opened Packet

  // ---- What a byte stream means ---------------------------------------------

  /** The complete packets at the front, the undecoded rest, and whether the rest
      starts with a header that is refused. */
  datatype Drained = Drained(packets: seq<Packet>, rest: Bytes, bad: bool)

  function Prepend(ps: seq<Packet>, d: Drained): (r: Drained) {
    d.(packets := ps + d.packets)
  }

  predicate HasHeader(b: Bytes) {
    |b| >= PACKET_HEADER_SIZE && ValidHeader(HeaderOf(b))
  }

  function FrameSize(b: Bytes): (n: nat)
    requires HasHeader(b)
    ensures PACKET_HEADER_SIZE <= n <= PACKET_HEADER_SIZE + MAX_PACKET_BODY_LENGTH
  {
    PACKET_HEADER_SIZE + HeaderOf(b).bodyLen
  }

  predicate HasFrame(b: Bytes) {
    HasHeader(b) && FrameSize(b) <= |b|
  }

  function FirstPacket(b: Bytes): (p: Packet)
    requires HasFrame(b)
  {
    Packet(HeaderOf(b), b[PACKET_HEADER_SIZE..FrameSize(b)])
  }

  function Drain(b: Bytes): (d: Drained)
    decreases |b|
  {
    if |b| < PACKET_HEADER_SIZE then Drained([], b, false)
    else if !ValidHeader(HeaderOf(b)) then Drained([], b, true)
    else if |b| < FrameSize(b) then Drained([], b, false)
    else Prepend([FirstPacket(b)], Drain(b[FrameSize(b)..]))
  }

  predicate AllEncodable(ps: seq<Packet>) {
    forall i :: 0 <= i < |ps| ==> Encodable(ps[i])
  }

  function EncodeAll(ps: seq<Packet>): (b: Bytes)
    requires AllEncodable(ps)
  {
    if |ps| == 0 then [] else Encode(ps[0]) + EncodeAll(ps[1..])
  }

  function NormalizeAll(ps: seq<Packet>): (qs: seq<Packet>)
    requires AllEncodable(ps)
    ensures |qs| == |ps|
    ensures forall i :: 0 <= i < |ps| ==> qs[i] == Normalized(ps[i])
  {
    seq(|ps|, i requires 0 <= i < |ps| => Normalized(ps[i]))
  }

  // ---- The class --------------------------------------------------------------

  datatype Decoder = Decoder(buffer: Bytes, error: bool)

  /** What one `feed` of real bytes does to the decoder. */
  function Fed(s: Decoder, data: Bytes): (r: (Decoder, seq<Packet>)) {
    if s.error then (s, [])
    else
      var d := Drain(s.buffer + data);
      (Decoder(d.rest, d.bad), d.packets)
  }

  lemma HeaderOfPrefix(b: Bytes)
    requires |b| >= PACKET_HEADER_SIZE
    ensures HeaderOf(b[..PACKET_HEADER_SIZE]) == HeaderOf(b)
  {
    var c := b[..PACKET_HEADER_SIZE];
    assert c[..4] == b[..4] && c[6..8] == b[6..8] && c[8..16] == b[8..16] && c[16..20] == b[16..20];
  }

  lemma DrainStep(b: Bytes)
    ensures HasFrame(b) ==> Drain(b) == Prepend([FirstPacket(b)], Drain(b[FrameSize(b)..]))
    ensures !HasFrame(b) ==> Drain(b) == Drained([], b, |b| >= PACKET_HEADER_SIZE && !HasHeader(b))
  {
  }

  lemma PrependTwice(ps: seq<Packet>, qs: seq<Packet>, d: Drained)
    ensures Prepend(ps, Prepend(qs, d)) == Prepend(ps + qs, d)
  {
    assert ps + (qs + d.packets) == ps + qs + d.packets;
  }

  /** One turn of the decoding loop, at the bytes from `at` on. */
  lemma TurnOfLoop(buffer: Bytes, output: seq<Packet>, at: nat)
    requires at <= |buffer| && Drain(buffer) == Prepend(output, Drain(buffer[at..]))
    ensures HasFrame(buffer[at..]) ==>
              Drain(buffer) == Prepend(output + [FirstPacket(buffer[at..])], Drain(buffer[at + FrameSize(buffer[at..])..]))
    ensures !HasFrame(buffer[at..]) ==>
              Drain(buffer) == Drained(output, buffer[at..], |buffer| - at >= PACKET_HEADER_SIZE && !HasHeader(buffer[at..]))
  {
    hide Drain, FirstPacket, HeaderOf, ValidHeader;
    var tail := buffer[at..];
    DrainStep(tail);
    if HasFrame(tail) {
      assert tail[FrameSize(tail)..] == buffer[at + FrameSize(tail)..];
      PrependTwice(output, [FirstPacket(tail)], Drain(tail[FrameSize(tail)..]));
    } else {
      assert output + [] == output;
    }
  }

  /** The decoding loop: the packets found, how many bytes they took, and the status. */
  method DecodeFrames(buffer: Bytes) returns (output: seq<Packet>, readIndex: nat, status: Result<()>)
    ensures readIndex <= |buffer|
    ensures Drain(buffer) == Drained(output, buffer[readIndex..], status.Failure?)
    ensures status.Failure? ==> status.error == ParseError
  {
    hide Drain, HeaderOf, HeaderBytes, ValidHeader;
    output, readIndex := [], 0;
    assert buffer[0..] == buffer && [] + Drain(buffer).packets == Drain(buffer).packets;
    while |buffer| - readIndex >= PACKET_HEADER_SIZE
      invariant readIndex <= |buffer|
      invariant Drain(buffer) == Prepend(output, Drain(buffer[readIndex..]))
    {
      TurnOfLoop(buffer, output, readIndex);
      assert buffer[readIndex..readIndex + PACKET_HEADER_SIZE] == buffer[readIndex..][..PACKET_HEADER_SIZE];
      HeaderOfPrefix(buffer[readIndex..]);
      var header := ParseHeader(View(buffer[readIndex..readIndex + PACKET_HEADER_SIZE]));
      if header.Failure? {
        return output, readIndex, Failure(header.error);
      }
      var frameSize := PACKET_HEADER_SIZE + header.value.bodyLen;
      if |buffer| - readIndex < frameSize {
        break;
      }
      var packet := Packet(header.value, buffer[readIndex + PACKET_HEADER_SIZE..readIndex + frameSize]);
      assert packet == FirstPacket(buffer[readIndex..]);
      output := output + [packet];
      readIndex := readIndex + frameSize;
    }
    TurnOfLoop(buffer, output, readIndex);
    status := Success(());
  }

  class FrameDecoder {
    var buffer: Bytes
    var error: bool

    function State(): Decoder
      reads this
    {
      Decoder(buffer, error)
    }

    constructor ()
      ensures State() == Decoder([], false)
    {
      buffer := [];
      error := false;
    }

    method Feed(data: RawBytes) returns (status: Result<()>, output: seq<Packet>)
      modifies this
      ensures old(error) ==> status == Failure(ParseError) && output == [] && State() == old(State())
      ensures !old(error) && data.NullPointer? && data.len != 0 ==>
                status == Failure(InvalidArgument) && output == [] && State() == old(State())
      ensures !old(error) && (data.View? || data.len == 0) ==>
                var bytes := if data.View? then data.bytes else [];
                && (State(), output) == Fed(old(State()), bytes)
                && status == if error then Failure(ParseError) else Success(())
    {
      output := [];
      if error {
        return Failure(ParseError), [];
      }
      if data.NullPointer? && data.len != 0 {
        return Failure(InvalidArgument), [];
      }
      if data.View? && |data.bytes| != 0 {
        buffer := buffer + data.bytes;
      }
      assert buffer == old(buffer) + if data.View? then data.bytes else [];
      var readIndex, header;
      output, readIndex, header := DecodeFrames(buffer);
      CompactConsumed(readIndex);
      if header.Failure? {
        error := true;
        return Failure(header.error), output;
      }
      return Success(()), output;
    }

    method CompactConsumed(consumed: nat)
      requires consumed <= |buffer|
      modifies this`buffer
      ensures buffer == old(buffer)[consumed..]
    {
      if consumed == 0 {
        return;
      }
      if consumed == |buffer| {
        buffer := [];
        return;
      }
      buffer := buffer[consumed..];
    }

    method Reset()
      modifies this
      ensures State() == Decoder([], false)
    {
      buffer := [];
      error := false;
    }
  }

  // ---- Soundness and completeness of decoding ----------------------------------

  lemma FirstPacketEncodes(b: Bytes)
    requires HasFrame(b)
    ensures var p := FirstPacket(b);
            Encodable(p) && Normalized(p) == p && Encode(p) == b[..FrameSize(b)]
  {
    hide HeaderOf, HeaderBytes;
    HeaderBytesOfHeaderOf(b);
    assert b[..FrameSize(b)] == b[..PACKET_HEADER_SIZE] + b[PACKET_HEADER_SIZE..FrameSize(b)];
  }

  /** The rest holds no complete frame, and `bad` says whether its header is refused. */
  lemma {:induction false} DrainRest(b: Bytes)
    ensures var d := Drain(b);
            && (d.bad <==> |d.rest| >= PACKET_HEADER_SIZE && !HasHeader(d.rest))
            && !HasFrame(d.rest)
    decreases |b|
  {
    hide Drain, HeaderOf, ValidHeader, FirstPacket;
    DrainStep(b);
    if HasFrame(b) {
      DrainRest(b[FrameSize(b)..]);
    }
  }

  /** Nothing is invented or lost: re-encoding the decoded packets and appending the
      rest gives the stream back. */
  lemma {:induction false} DrainSound(b: Bytes)
    ensures var d := Drain(b);
            && AllEncodable(d.packets)
            && NormalizeAll(d.packets) == d.packets
            && b == EncodeAll(d.packets) + d.rest
    decreases |b|
  {
    hide Drain, HeaderOf, Encode, Normalized, Encodable, ValidHeader, FirstPacket;
    DrainStep(b);
    var d := Drain(b);
    if HasFrame(b) {
      var n := FrameSize(b);
      FirstPacketEncodes(b);
      DrainSound(b[n..]);
      assert d.packets[1..] == Drain(b[n..]).packets;
      assert b == b[..n] + b[n..];
    } else {
      assert b == [] + b;
    }
  }

  /** After a feed without an error less than one maximal frame is buffered. */
  lemma BufferBounded(s: Decoder, data: Bytes)
    requires !s.error && !Fed(s, data).0.error
    ensures |Fed(s, data).0.buffer| < PACKET_HEADER_SIZE + MAX_PACKET_BODY_LENGTH
  {
    hide HeaderOf, ValidHeader;
    DrainRest(s.buffer + data);
  }

  lemma DrainFrame(p: Packet, tail: Bytes)
    requires Encodable(p)
    ensures Drain(Encode(p) + tail) == Prepend([Normalized(p)], Drain(tail))
  {
    hide Drain, HeaderOf, HeaderBytes;
    var b := Encode(p) + tail;
    var h := Normalized(p).header;
    DrainStep(b);
    assert b == HeaderBytes(h) + (p.body + tail);
    HeaderOfHeaderBytes(h, p.body + tail);
    assert b[PACKET_HEADER_SIZE..FrameSize(b)] == p.body;
    assert b[FrameSize(b)..] == tail;
  }

  /** Every list of encodable packets is decoded to itself, whatever follows it. */
  lemma {:induction false} DrainComplete(ps: seq<Packet>, tail: Bytes)
    requires AllEncodable(ps)
    ensures Drain(EncodeAll(ps) + tail) == Prepend(NormalizeAll(ps), Drain(tail))
    decreases |ps|
  {
    hide Drain, HeaderOf, HeaderBytes, Encode;
    if |ps| == 0 {
      assert EncodeAll(ps) + tail == tail;
      assert NormalizeAll(ps) + Drain(tail).packets == Drain(tail).packets;
    } else {
      DrainComplete(ps[1..], tail);
      assert EncodeAll(ps) + tail == Encode(ps[0]) + (EncodeAll(ps[1..]) + tail);
      DrainFrame(ps[0], EncodeAll(ps[1..]) + tail);
      assert NormalizeAll(ps) == [Normalized(ps[0])] + NormalizeAll(ps[1..]);
      PrependTwice([Normalized(ps[0])], NormalizeAll(ps[1..]), Drain(tail));
    }
  }

  lemma DecodeOfEncode(ps: seq<Packet>)
    requires AllEncodable(ps)
    ensures Drain(EncodeAll(ps)) == Drained(NormalizeAll(ps), [], false)
  {
    DrainComplete(ps, []);
    assert EncodeAll(ps) + [] == EncodeAll(ps);
    assert Drain([]) == Drained([], [], false);
  }

  /** A connection cut anywhere in an encoded stream yields a prefix of the packets and no error. */
  lemma {:induction false} PrefixDecodes(ps: seq<Packet>, cut: Bytes)
    requires AllEncodable(ps)
    requires cut <= EncodeAll(ps)
    ensures Drain(cut).packets <= NormalizeAll(ps)
    ensures !Drain(cut).bad
    decreases |ps|
  {
    hide Drain, HeaderOf, HeaderBytes;
    DrainStep(cut);
    if |ps| > 0 {
      var e := Encode(ps[0]);
      var more := EncodeAll(ps[1..]);
      if |e| <= |cut| {
        var tail := cut[|e|..];
        assert cut[..|e|] == (e + more)[..|e|] == e;
        assert cut == e + tail;
        assert tail == (e + more)[|e|..|cut|] == more[..|cut| - |e|];
        PrefixDecodes(ps[1..], tail);
        DrainFrame(ps[0], tail);
        assert NormalizeAll(ps) == [Normalized(ps[0])] + NormalizeAll(ps[1..]);
      } else {
        assert cut == e[..|cut|] by {
          assert cut == (e + more)[..|cut|];
        }
        if |cut| >= PACKET_HEADER_SIZE {
          var h := Normalized(ps[0]).header;
          HeaderOfHeaderBytes(h, cut[PACKET_HEADER_SIZE..]);
          assert cut == HeaderBytes(h) + cut[PACKET_HEADER_SIZE..];
        }
      }
    }
  }

  // ---- Chunking -----------------------------------------------------------------

  /** More bytes change neither the first header nor the first complete packet. */
  lemma FramePrefix(a: Bytes, b: Bytes)
    requires |a| >= PACKET_HEADER_SIZE
    ensures HeaderOf(a + b) == HeaderOf(a) && HasHeader(a + b) == HasHeader(a)
    ensures HasFrame(a) ==> HasFrame(a + b) && FirstPacket(a + b) == FirstPacket(a) && FrameSize(a + b) == FrameSize(a)
    ensures HasFrame(a) ==> (a + b)[FrameSize(a)..] == a[FrameSize(a)..] + b
  {
    hide HeaderOf;
    HeaderOfPrefix(a);
    HeaderOfPrefix(a + b);
    assert a[..PACKET_HEADER_SIZE] == (a + b)[..PACKET_HEADER_SIZE];
    if HasFrame(a) {
      var n := FrameSize(a);
      assert (a + b)[PACKET_HEADER_SIZE..n] == a[PACKET_HEADER_SIZE..n];
    }
  }

  lemma {:induction false} DrainAppend(a: Bytes, b: Bytes)
    ensures var d := Drain(a);
            Drain(a + b) ==
              if d.bad then Drained(d.packets, d.rest + b, true)
              else Prepend(d.packets, Drain(d.rest + b))
    decreases |a|
  {
    hide FirstPacket, HeaderOf, Drain;
    DrainStep(a);
    DrainStep(a + b);
    if |a| >= PACKET_HEADER_SIZE {
      FramePrefix(a, b);
    }
    if HasFrame(a) {
      DrainAppend(a[FrameSize(a)..], b);
      PrependTwice([FirstPacket(a)], Drain(a[FrameSize(a)..]).packets, Drain(Drain(a[FrameSize(a)..]).rest + b));
    } else if !Drain(a).bad {
      assert [] + Drain(a + b).packets == Drain(a + b).packets;
    }
  }

  function Concat(chunks: seq<Bytes>): (b: Bytes) {
    if |chunks| == 0 then [] else chunks[0] + Concat(chunks[1..])
  }

  /** Feeds the chunks one after another and concatenates the outputs. */
  function FedAll(s: Decoder, chunks: seq<Bytes>): (r: (Decoder, seq<Packet>))
    decreases |chunks|
  {
    if |chunks| == 0 then (s, [])
    else
      var (s1, out1) := Fed(s, chunks[0]);
      var (s2, out2) := FedAll(s1, chunks[1..]);
      (s2, out1 + out2)
  }

  /** A decoder whose buffer holds no complete frame and no bad header: every state
      `Feed` leaves behind without an error. */
  predicate Settled(s: Decoder) {
    !s.error && Drain(s.buffer) == Drained([], s.buffer, false)
  }

  lemma FedSettles(s: Decoder, data: Bytes)
    requires !s.error
    ensures var s' := Fed(s, data).0; !s'.error ==> Settled(s')
  {
    hide Drain, HeaderOf, ValidHeader;
    DrainRest(s.buffer + data);
    DrainStep(Fed(s, data).0.buffer);
  }

  lemma {:induction false} ErrorIsSticky(s: Decoder, chunks: seq<Bytes>)
    requires s.error
    ensures FedAll(s, chunks) == (s, [])
    decreases |chunks|
  {
    hide Drain;
    if |chunks| > 0 {
      ErrorIsSticky(s, chunks[1..]);
      var none := Fed(s, chunks[0]).1;
      assert Fed(s, chunks[0]) == (s, none) && FedAll(s, chunks[1..]) == (s, none);
      assert none + none == none;
    }
  }

  /** However a stream is cut into chunks, the packets and the error flag are those of
      one whole feed; without an error the buffered bytes agree as well. */
  lemma {:induction false} ChunkingInvariance(s: Decoder, chunks: seq<Bytes>)
    requires Settled(s)
    ensures var whole := Fed(s, Concat(chunks));
            var split := FedAll(s, chunks);
            && split.1 == whole.1
            && split.0.error == whole.0.error
            && (!whole.0.error ==> split.0 == whole.0)
            && split.0.buffer <= whole.0.buffer
    decreases |chunks|
  {
    hide Drain;
    if |chunks| == 0 {
      assert s.buffer + [] == s.buffer;
    } else {
      var a, b := s.buffer + chunks[0], Concat(chunks[1..]);
      assert s.buffer + Concat(chunks) == a + b;
      DrainAppend(a, b);
      var s1 := Fed(s, chunks[0]).0;
      if s1.error {
        ErrorIsSticky(s1, chunks[1..]);
      } else {
        FedSettles(s, chunks[0]);
        ChunkingInvariance(s1, chunks[1..]);
      }
    }
  }
}
