/**
 One TCP session.  `Conn` is the session as a value, with its history; the functions
 say what each entry point does to it; the class is the code, proved against them.
 The kernel's answers to `read` and `write`, and what the message callback does with
 the session, are inputs.
 */
module Session {
  import opened Base
  import opened Packet
  import FrameDecoder
  import Buffer

  const DEFAULT_HIGH_WATER_MARK: nat := 4 * 1024 * 1024

  datatype SessionState = New | Started | Closing | Closed

  /** A `write` result: a positive count, zero, or one of the errno classes. */
  datatype WriteResult = Wrote(n: nat) | WroteNothing | WriteInterrupted | WriteWouldBlock | WriteFailed

  /** What the message callback does with the session, on the loop thread. */
  datatype Reaction = Reply(packet: Packet) | Hangup

  /** A `read` result; received bytes come with the callback's reaction to each packet. */
  datatype ReadResult =
    | Received(bytes: Bytes, reactions: seq<seq<Reaction>>)
    | EndOfFile
    | ReadInterrupted
    | ReadWouldBlock
    | ReadFailed

  datatype Conn = Conn(
    // fields of the session and of its channel
    state: SessionState,
    closed: bool,
    open: bool,
    channel: bool,
    registered: bool,
    writing: bool,
    mark: nat,
    pending: Bytes,
    decoder: FrameDecoder.Decoder,
    // history
    ceiling: nat,
    accepted: seq<Packet>,
    written: Bytes,
    received: Bytes,
    dispatched: seq<Packet>,
    closeCalls: nat)

  function Fresh(): (c: Conn) {
    Conn(New, false, true, true, false, false, DEFAULT_HIGH_WATER_MARK, [],
         FrameDecoder.Decoder([], false),
         DEFAULT_HIGH_WATER_MARK, [], [], [], [], 0)
  }

  // ---- What each entry point does -------------------------------------------------

  function SetMark(c: Conn, mark: nat): (d: Conn) {
    if mark == 0 then c
    else c.(mark := mark, ceiling := if c.state == New || c.ceiling < mark then mark else c.ceiling)
  }

  function Start(c: Conn): (d: Conn) {
    if c.state != New || c.closed then c else c.(registered := true, state := Started)
  }

  function Close(c: Conn): (d: Conn) {
    if c.closed then c
    else c.(closed := true, state := Closed, registered := c.registered && !c.channel, open := false, pending := [],
            closeCalls := c.closeCalls + 1)
  }

  function DropChannel(c: Conn): (d: Conn) {
    if c.closed then c.(channel := false) else c
  }

  /** `sendEncodedInLoop` on the encoding of `p`. */
  function SendFrame(c: Conn, p: Packet): (r: (Conn, Result<()>))
    requires Encodable(p)
  {
    var size := |Encode(p)|;
    if c.state != Started || c.closed then (c, Failure(InvalidArgument))
    else if size > c.mark || |c.pending| > c.mark - size then (Close(c), Failure(ResourceExhausted))
    else
      (c.(pending := c.pending + Encode(p), accepted := c.accepted + [p],
          writing := c.writing || c.channel),
       Success(()))
  }

  /** `sendPacket` called on the loop thread. */
  function SendInLoop(c: Conn, p: Packet): (r: (Conn, Result<()>)) {
    if c.closed then (c, Failure(NotFound))
    else if !Encodable(p) then
      (c, Failure(if |p.body| > MAX_PACKET_BODY_LENGTH then InvalidArgument else ParseError))
    else if |Encode(p)| > c.mark then (Close(c), Failure(ResourceExhausted))
    else SendFrame(c, p)
  }

  function Writable(c: Conn, results: seq<WriteResult>): (d: Conn) {
    if c.state != Started || c.closed || !c.open then c else WriteLoop(c, results)
  }

  function WriteLoop(c: Conn, results: seq<WriteResult>): (d: Conn)
    decreases |results|
  {
    if |c.pending| == 0 then (if c.channel then c.(writing := false) else c)
    else if |results| == 0 then c
    else
      match results[0]
      case Wrote(n) =>
        if n == 0 then c
        else if n > |c.pending| then Close(c)
        else WriteLoop(c.(pending := c.pending[n..], written := c.written + c.pending[..n]), results[1..])
      case WroteNothing => c
      case WriteInterrupted => WriteLoop(c, results[1..])
      case WriteWouldBlock => c
      case WriteFailed => Close(c)
  }

  function React(c: Conn, reactions: seq<Reaction>): (d: Conn)
    decreases |reactions|
  {
    if |reactions| == 0 then c
    else
      var d := match reactions[0] case Reply(p) => SendInLoop(c, p).0 case Hangup => Close(c);
      React(d, reactions[1..])
  }

  function ReactionTo(reactions: seq<seq<Reaction>>, i: nat): (r: seq<Reaction>) {
    if i < |reactions| then reactions[i] else []
  }

  /** Hands the packets from index `i` on to the callback until the session is closed. */
  function Dispatch(c: Conn, packets: seq<Packet>, reactions: seq<seq<Reaction>>, i: nat): (d: Conn)
    requires i <= |packets|
    decreases |packets| - i
  {
    if i == |packets| || c.closed then c
    else
      var d := React(c.(dispatched := c.dispatched + [packets[i]]), ReactionTo(reactions, i));
      Dispatch(d, packets, reactions, i + 1)
  }

  function Readable(c: Conn, inputs: seq<ReadResult>): (d: Conn) {
    if c.state != Started || c.closed || !c.open then c else ReadLoop(c, inputs)
  }

  /** The session after one successful read. */
  function Take(c: Conn, bytes: Bytes, reactions: seq<seq<Reaction>>): (d: Conn) {
    var (decoder, packets) := FrameDecoder.Fed(c.decoder, bytes);
    var d := c.(decoder := decoder, received := c.received + bytes);
    if c.decoder.error || decoder.error then Close(d) else Dispatch(d, packets, reactions, 0)
  }

  function ReadLoop(c: Conn, inputs: seq<ReadResult>): (d: Conn)
    decreases |inputs|
  {
    if !c.open || |inputs| == 0 then c
    else
      match inputs[0]
      case Received(bytes, reactions) =>
        if |bytes| == 0 then Close(c) else ReadLoop(Take(c, bytes, reactions), inputs[1..])
      case EndOfFile => Close(c)
      case ReadInterrupted => ReadLoop(c, inputs[1..])
      case ReadWouldBlock => c
      case ReadFailed => Close(c)
  }

  // ---- What the loops do, answer by answer -------------------------------------------------

  /** The bytes that a run of successful writes takes. */
  function Total(results: seq<WriteResult>): (n: nat) {
    if |results| == 0 then 0 else (if results[0].Wrote? then results[0].n else 0) + Total(results[1..])
  }

  predicate AllWrote(results: seq<WriteResult>) {
    forall i :: 0 <= i < |results| ==> results[i].WriteInterrupted? || (results[i].Wrote? && results[i].n > 0)
  }

  /** From `c`, an open session, to `d` by these answers of `write`. */
  ghost predicate WriteFacts(c: Conn, results: seq<WriteResult>, d: Conn) {
    && d.accepted == c.accepted && c.written <= d.written
    && (!d.closed ==> d.written + d.pending == c.written + c.pending && d.state == c.state)
    && (AllWrote(results) && Total(results) <= |c.pending| ==>
          && !d.closed && d.written == c.written + c.pending[..Total(results)] && d.pending == c.pending[Total(results)..]
          && (Total(results) == |c.pending| && c.channel ==> !d.writing))
    && (c.pending != [] && results != [] ==>
          match results[0]
          case Wrote(n) => if n > |c.pending| then d.closed else c.written + c.pending[..n] <= d.written
          case WroteNothing => d == c
          case WriteInterrupted => true
          case WriteWouldBlock => d == c
          case WriteFailed => d.closed && d.written == c.written)
  }

  lemma {:induction false} WriteConserves(c: Conn, results: seq<WriteResult>)
    requires !c.closed
    ensures var d := WriteLoop(c, results);
            && d.accepted == c.accepted && c.written <= d.written
            && (!d.closed ==> d.written + d.pending == c.written + c.pending && d.state == c.state)
    decreases |results|
  {
    if |c.pending| > 0 && |results| > 0 {
      match results[0]
      case Wrote(n) =>
        if 0 < n <= |c.pending| {
          WriteConserves(c.(pending := c.pending[n..], written := c.written + c.pending[..n]), results[1..]);
          assert c.pending == c.pending[..n] + c.pending[n..];
        }
      case WriteInterrupted => WriteConserves(c, results[1..]);
      case _ =>
    }
  }

  lemma {:induction false} WritesInFull(c: Conn, results: seq<WriteResult>)
    requires !c.closed && AllWrote(results) && Total(results) <= |c.pending|
    ensures var d := WriteLoop(c, results);
            && !d.closed && d.written == c.written + c.pending[..Total(results)]
            && d.pending == c.pending[Total(results)..]
            && (Total(results) == |c.pending| && c.channel ==> !d.writing)
    decreases |results|
  {
    if |c.pending| > 0 && |results| > 0 {
      assert AllWrote(results[1..]) by {
        assert forall i :: 0 <= i < |results[1..]| ==> results[1..][i] == results[i + 1];
      }
      hide AllWrote;
      if results[0].Wrote? {
        var n := results[0].n;
        WritesInFull(c.(pending := c.pending[n..], written := c.written + c.pending[..n]), results[1..]);
        TakenTwice(c.pending, n, Total(results[1..]));
      } else {
        WritesInFull(c, results[1..]);
      }
    }
  }

  lemma TakenTwice(b: Bytes, n: nat, k: nat)
    requires n + k <= |b|
    ensures b[..n] + b[n..][..k] == b[..n + k] && b[n..][k..] == b[n + k..]
  {
  }

  lemma WriteLoopFacts(c: Conn, results: seq<WriteResult>)
    requires !c.closed
    ensures WriteFacts(c, results, WriteLoop(c, results))
  {
    WriteConserves(c, results);
    if AllWrote(results) && Total(results) <= |c.pending| {
      WritesInFull(c, results);
    }
    if |c.pending| > 0 && |results| > 0 && results[0].Wrote? && 0 < results[0].n <= |c.pending| {
      var n := results[0].n;
      WriteConserves(c.(pending := c.pending[n..], written := c.written + c.pending[..n]), results[1..]);
    }
  }

  /** From `c`, an open session, to `d` by these answers of `read`. */
  ghost predicate ReadFacts(c: Conn, inputs: seq<ReadResult>, d: Conn) {
    && c.received <= d.received
    && (inputs == [] ==> d == c)
    && (inputs != [] ==>
          match inputs[0]
          case Received(bytes, _) =>
            if bytes == [] then d.closed && d.received == c.received
            else c.received + bytes <= d.received
          case EndOfFile => d.closed && d.received == c.received && d.dispatched == c.dispatched
          case ReadInterrupted => true
          case ReadWouldBlock => d == c
          case ReadFailed => d.closed && d.received == c.received && d.dispatched == c.dispatched)
  }

  lemma {:induction false} ReactReceives(c: Conn, reactions: seq<Reaction>)
    ensures React(c, reactions).received == c.received
    ensures reactions != [] && reactions[0].Hangup? ==> React(c, reactions).closed
    ensures c.closed ==> React(c, reactions).closed
    decreases |reactions|
  {
    hide Encode, Encodable;
    if |reactions| > 0 {
      ReactReceives(match reactions[0] case Reply(p) => SendInLoop(c, p).0 case Hangup => Close(c), reactions[1..]);
    }
  }

  lemma {:induction false} DispatchReceives(c: Conn, packets: seq<Packet>, reactions: seq<seq<Reaction>>, i: nat)
    requires i <= |packets|
    ensures Dispatch(c, packets, reactions, i).received == c.received
    decreases |packets| - i
  {
    hide React;
    if i < |packets| && !c.closed {
      var e := c.(dispatched := c.dispatched + [packets[i]]);
      ReactReceives(e, ReactionTo(reactions, i));
      DispatchReceives(React(e, ReactionTo(reactions, i)), packets, reactions, i + 1);
    }
  }

  lemma {:induction false} ReadLoopReceives(c: Conn, inputs: seq<ReadResult>)
    ensures c.received <= ReadLoop(c, inputs).received
    decreases |inputs|
  {
    hide FrameDecoder.Fed, Dispatch;
    if c.open && |inputs| > 0 {
      match inputs[0]
      case Received(bytes, reactions) =>
        if |bytes| > 0 {
          TakeReceives(c, bytes, reactions);
          ReadLoopReceives(Take(c, bytes, reactions), inputs[1..]);
        }
      case ReadInterrupted => ReadLoopReceives(c, inputs[1..]);
      case _ =>
    }
  }

  lemma TakeReceives(c: Conn, bytes: Bytes, reactions: seq<seq<Reaction>>)
    ensures Take(c, bytes, reactions).received == c.received + bytes
  {
    hide FrameDecoder.Fed, Dispatch;
    var (decoder, packets) := FrameDecoder.Fed(c.decoder, bytes);
    DispatchReceives(c.(decoder := decoder, received := c.received + bytes), packets, reactions, 0);
  }

  lemma ReadLoopFacts(c: Conn, inputs: seq<ReadResult>)
    requires !c.closed && c.open
    ensures ReadFacts(c, inputs, ReadLoop(c, inputs))
  {
    hide Take;
    ReadLoopReceives(c, inputs);
    if |inputs| > 0 && inputs[0].Received? && inputs[0].bytes != [] {
      TakeReceives(c, inputs[0].bytes, inputs[0].reactions);
      ReadLoopReceives(Take(c, inputs[0].bytes, inputs[0].reactions), inputs[1..]);
    }
  }

  // ---- The class ---------------------------------------------------------------------

  class Session {
    var state: SessionState
    var closed: bool
    var open: bool
    var channel: bool
    var registered: bool
    var writing: bool
    var mark: nat
    const output: Buffer.Buffer
    const decoder: FrameDecoder.FrameDecoder
    ghost var ceiling: nat
    ghost var accepted: seq<Packet>
    ghost var written: Bytes
    ghost var received: Bytes
    ghost var dispatched: seq<Packet>
    ghost var closeCalls: nat

    ghost predicate Valid()
      reads this, output
    {
      output.Valid()
    }

    ghost function Model(): (c: Conn)
      requires Valid()
      reads this, output, output.data, decoder
    {
      Conn(state, closed, open, channel, registered, writing, mark, output.Contents(), decoder.State(),
           ceiling, accepted, written, received, dispatched, closeCalls)
    }

    constructor ()
      ensures Valid() && fresh(output) && fresh(output.data) && fresh(decoder)
      ensures Model() == Fresh()
    {
      output := new Buffer.Buffer(Buffer.DEFAULT_BUFFER_SIZE);
      decoder := new FrameDecoder.FrameDecoder();
      state, closed, open, channel, registered, writing := New, false, true, true, false, false;
      mark := DEFAULT_HIGH_WATER_MARK;
      ceiling := DEFAULT_HIGH_WATER_MARK;
      accepted, written, received, dispatched, closeCalls := [], [], [], [], 0;
    }

    method SetOutputHighWaterMark(m: nat) returns (status: Result<()>)
      requires Valid()
      modifies this
      ensures Valid() && mark == (if m == 0 then old(mark) else m)
      ensures Model() == SetMark(old(Model()), m)
      ensures status == if m == 0 then Failure(InvalidArgument) else Success(())
    {
      if m == 0 {
        return Failure(InvalidArgument);
      }
      mark := m;
      ceiling := if state == New || ceiling < m then m else ceiling;
      return Success(());
    }

    method StartInLoop()
      requires Valid()
      modifies this
      ensures Valid() && output.Contents() == old(output.Contents()) && closed == old(closed)
      ensures old(state) == New && !old(closed) ==> state == Started && registered
      ensures old(state) != New || old(closed) ==> Model() == old(Model())
      ensures Model() == Start(old(Model()))
    {
      if state != New || closed {
        return;
      }
      registered := true;
      state := Started;
    }

    method CloseInLoop()
      requires Valid()
      modifies this, output
      ensures Valid() && output.data == old(output.data) && closed
      ensures old(closed) ==> Model() == old(Model())
      ensures !old(closed) ==>
                && state == Closed && !open && output.Contents() == [] && closeCalls == old(closeCalls) + 1
                && (registered ==> !channel) && accepted == old(accepted) && written == old(written)
      ensures Model() == Close(old(Model()))
    {
      if closed {
        return;
      }
      output.RetrieveAll();
      closed, state, open := true, Closing, false;
      if channel && registered {
        registered := false;
      }
      closeCalls, state := closeCalls + 1, Closed;
    }

    method SendEncodedInLoop(encoded: Bytes, ghost packet: Packet) returns (status: Result<()>)
      requires Valid()
      requires Encodable(packet) && encoded == Encode(packet)
      modifies this, output, output.data
      ensures Valid() && (output.data == old(output.data) || fresh(output.data))
      ensures status.Success? <==>
                old(state) == Started && !old(closed) && |old(output.Contents())| + |encoded| <= old(mark)
      ensures status.Success? ==>
                && output.Contents() == old(output.Contents()) + encoded && accepted == old(accepted) + [packet]
                && (old(channel) ==> writing) && !closed && state == Started && mark == old(mark)
      ensures status.Failure? ==> accepted == old(accepted) && written == old(written)
      ensures status.Failure? && old(state) == Started && !old(closed) ==>
                status.error == ResourceExhausted && closed && output.Contents() == []
      ensures old(state) != Started || old(closed) ==> status == Failure(InvalidArgument) && Model() == old(Model())
      ensures (Model(), status) == SendFrame(old(Model()), packet)
    {
      if state != Started || closed || |encoded| == 0 {
        return Failure(InvalidArgument);
      }
      var pendingBytes := output.ReadableBytes();
      if |encoded| > mark || pendingBytes > mark - |encoded| {
        CloseInLoop();
        return Failure(ResourceExhausted);
      }
      status := output.Append(RawBytes.View(encoded));
      if state == Started && channel && !writing {
        writing := true;
      }
      accepted := accepted + [packet];
      return Success(());
    }

    method SendPacketInLoop(packet: Packet) returns (status: Result<()>)
      requires Valid()
      modifies this, output, output.data
      ensures Valid() && (output.data == old(output.data) || fresh(output.data))
      ensures status.Success? <==>
                && old(state) == Started && !old(closed) && Encodable(packet)
                && |old(output.Contents())| + |Encode(packet)| <= old(mark)
      ensures status.Success? ==>
                && output.Contents() == old(output.Contents()) + Encode(packet) && accepted == old(accepted) + [packet]
                && (old(channel) ==> writing) && !closed && state == Started && mark == old(mark)
      ensures status.Failure? ==> accepted == old(accepted) && written == old(written)
      ensures status.Failure? && status.error != ResourceExhausted ==> Model() == old(Model())
      ensures status == Failure(ResourceExhausted) ==>
                Encodable(packet) && |old(output.Contents())| + |Encode(packet)| > old(mark) && closed && output.Contents() == []
      ensures (Model(), status) == SendInLoop(old(Model()), packet)
    {
      hide Encode, Encodable;
      if closed {
        return Failure(NotFound);
      }
      var encoded;
      status, encoded := EncodePacket(packet);
      if status.Failure? {
        return;
      }
      if |encoded| > mark {
        CloseInLoop();
        return Failure(ResourceExhausted);
      }
      status := SendEncodedInLoop(encoded, packet);
    }

    /** The kernel reports `n` bytes written; more than was offered closes the session. */
    method Written(n: nat) returns (ok: bool)
      requires Valid()
      modifies this, output
      ensures Valid() && output.data == old(output.data)
      ensures ok <==> n <= |old(Model()).pending|
      ensures closed <==> !ok || old(closed)
      ensures Model() == var c := old(Model());
                         if n > |c.pending| then Close(c)
                         else c.(pending := c.pending[n..], written := c.written + c.pending[..n])
    {
      ghost var front := if n <= |output.Contents()| then output.Contents()[..n] else [];
      var status := output.Retrieve(n);
      if status.Failure? {
        CloseInLoop();
        return false;
      }
      written := written + front;
      return true;
    }

    /** Writes until the buffer is empty or the kernel stops accepting. */
    method HandleWrite(results: seq<WriteResult>)
      requires Valid()
      modifies this, output
      ensures Valid() && output.data == old(output.data)
      ensures Model() == Writable(old(Model()), results)
      ensures old(state) != Started || old(closed) || !old(open) ==> Model() == old(Model())
      ensures old(state) == Started && !old(closed) && old(open) ==> WriteFacts(old(Model()), results, Model())
    {
      if old(state) == Started && !old(closed) && old(open) {
        WriteLoopFacts(old(Model()), results);
      }
      hide WriteFacts;
      if state != Started || closed || !open {
        return;
      }
      var blocked := WriteOut(results);
      if blocked || closed {
        return;
      }
      if channel && writing {
        writing := false;
      }
    }

    /** The write loop; it ends blocked with bytes left, closed, or with an empty buffer. */
    method WriteOut(results: seq<WriteResult>) returns (blocked: bool)
      requires Valid() && !closed
      modifies this, output
      ensures Valid() && output.data == old(output.data)
      ensures blocked || closed ==> Model() == WriteLoop(old(Model()), results)
      ensures !blocked && !closed ==>
                && Model().pending == []
                && WriteLoop(old(Model()), results) == WriteLoop(Model(), [])
    {
      hide Close;
      var i := 0;
      assert results[0..] == results;
      var readable := output.ReadableBytes();
      while readable > 0
        invariant Valid() && output.data == old(output.data) && !closed
        invariant 0 <= i <= |results| && readable == |output.Contents()|
        invariant WriteLoop(old(Model()), results) == WriteLoop(Model(), results[i..])
        decreases |results| - i, readable
      {
        if i == |results| {
          return true;
        }
        assert results[i..][1..] == results[i + 1..];
        match results[i] {
          case Wrote(n) =>
            if n == 0 {
              return true;
            }
            var ok := Written(n);
            if !ok {
              return false;
            }
            readable := output.ReadableBytes();
          case WroteNothing =>
            return true;
          case WriteInterrupted =>
          case WriteWouldBlock =>
            return true;
          case WriteFailed =>
            CloseInLoop();
            return false;
        }
        i := i + 1;
      }
      return false;
    }

    method ApplyReactions(reactions: seq<Reaction>)
      requires Valid()
      modifies this, output, output.data
      ensures Valid() && (output.data == old(output.data) || fresh(output.data))
      ensures Model() == React(old(Model()), reactions)
    {
      assert reactions[0..] == reactions;
      for i := 0 to |reactions|
        invariant Valid() && (output.data == old(output.data) || fresh(output.data))
        invariant React(old(Model()), reactions) == React(Model(), reactions[i..])
      {
        assert reactions[i..][1..] == reactions[i + 1..];
        match reactions[i] {
          case Reply(p) =>
            var status := SendPacketInLoop(p);
          case Hangup =>
            CloseInLoop();
        }
      }
    }

    method DispatchPackets(packets: seq<Packet>, reactions: seq<seq<Reaction>>)
      requires Valid()
      modifies this, output, output.data
      ensures Valid() && (output.data == old(output.data) || fresh(output.data))
      ensures Model() == Dispatch(old(Model()), packets, reactions, 0)
    {
      for i := 0 to |packets|
        invariant Valid() && (output.data == old(output.data) || fresh(output.data))
        invariant Dispatch(old(Model()), packets, reactions, 0) == Dispatch(Model(), packets, reactions, i)
      {
        if closed {
          return;
        }
        dispatched := dispatched + [packets[i]];
        ApplyReactions(ReactionTo(reactions, i));
      }
    }

    method TakeBytes(bytes: Bytes, reactions: seq<seq<Reaction>>)
      requires Valid()
      modifies this, output, output.data, decoder
      ensures Valid() && (output.data == old(output.data) || fresh(output.data))
      ensures Model() == Take(old(Model()), bytes, reactions)
    {
      received := received + bytes;
      var status, packets := decoder.Feed(RawBytes.View(bytes));
      if status.Failure? {
        CloseInLoop();
        return;
      }
      DispatchPackets(packets, reactions);
    }

    /** Reads until the kernel has nothing more, the peer is gone or the session is closed. */
    method HandleRead(inputs: seq<ReadResult>)
      requires Valid()
      modifies this, output, output.data, decoder
      ensures Valid() && (output.data == old(output.data) || fresh(output.data))
      ensures Model() == Readable(old(Model()), inputs)
      ensures old(state) != Started || old(closed) || !old(open) ==> Model() == old(Model())
      ensures old(state) == Started && !old(closed) && old(open) ==> ReadFacts(old(Model()), inputs, Model())
    {
      if old(state) == Started && !old(closed) && old(open) {
        ReadLoopFacts(old(Model()), inputs);
      }
      hide ReadFacts;
      if state != Started || closed || !open {
        return;
      }
      var i := 0;
      assert inputs[0..] == inputs;
      while open
        invariant Valid() && (output.data == old(output.data) || fresh(output.data))
        invariant 0 <= i <= |inputs|
        invariant Readable(old(Model()), inputs) == ReadLoop(Model(), inputs[i..])
        decreases |inputs| - i
      {
        if i == |inputs| {
          return;
        }
        assert inputs[i..][1..] == inputs[i + 1..];
        match inputs[i] {
          case Received(bytes, reactions) =>
            if |bytes| == 0 {
              CloseInLoop();
              return;
            }
            TakeBytes(bytes, reactions);
          case EndOfFile =>
            CloseInLoop();
            return;
          case ReadInterrupted =>
          case ReadWouldBlock =>
            return;
          case ReadFailed =>
            CloseInLoop();
            return;
        }
        i := i + 1;
      }
    }
  }
}
