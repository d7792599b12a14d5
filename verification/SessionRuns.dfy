/**
 Every run of a session: calls from the loop thread and from other threads, tasks that
 wait in the event loop, and socket events with arbitrary kernel answers.
 */
module SessionRuns {
  import opened Base
  import opened Packet
  import opened Session
  import FrameDecoder
  import Runs

  /** A task of this session in its loop's queue. */
  datatype Task = DoStart | DoSend(packet: Packet) | DoClose | DoDropChannel

  datatype System = System(conn: Conn, queue: seq<Task>)

  datatype Event =
    | StartInLoop | StartFromOutside
    | SendFromLoop(packet: Packet)
    | SendFromOutside(packet: Packet)
    | CloseFromLoop | CloseFromOutside
    | ChangeMark(mark: nat)
    | SocketReadable(inputs: seq<ReadResult>)
    | SocketWritable(results: seq<WriteResult>)
    | SocketError
    | RunTask

  /** The session after an event on the loop thread; closing queues the release of the channel. */
  function OnLoop(s: System, c: Conn, queue: seq<Task>): (t: System) {
    System(c, if !s.conn.closed && c.closed then queue + [DoDropChannel] else queue)
  }

  /** `sendPacket` on another thread: the closed flag it read may be stale by now. */
  function Post(s: System, p: Packet): (t: System) {
    if !Encodable(p) then s
    else s.(queue := s.queue + [if |Encode(p)| > s.conn.mark then DoClose else DoSend(p)])
  }

  function Perform(c: Conn, task: Task): (d: Conn) {
    match task
    case DoStart => Start(c)
    case DoSend(p) => if Encodable(p) then SendFrame(c, p).0 else c
    case DoClose => Close(c)
    case DoDropChannel => DropChannel(c)
  }

  function After(s: System, e: Event): (t: System) {
    match e
    case StartInLoop => OnLoop(s, Start(s.conn), s.queue)
    case StartFromOutside => s.(queue := s.queue + [DoStart])
    case SendFromLoop(p) => OnLoop(s, SendInLoop(s.conn, p).0, s.queue)
    case SendFromOutside(p) => Post(s, p)
    case CloseFromLoop => OnLoop(s, Close(s.conn), s.queue)
    case CloseFromOutside => s.(queue := s.queue + [DoClose])
    case ChangeMark(m) => OnLoop(s, SetMark(s.conn, m), s.queue)
    case SocketReadable(inputs) => OnLoop(s, Readable(s.conn, inputs), s.queue)
    case SocketWritable(results) => OnLoop(s, Writable(s.conn, results), s.queue)
    case SocketError => OnLoop(s, Close(s.conn), s.queue)
    case RunTask => if |s.queue| == 0 then s else OnLoop(s, Perform(s.conn, s.queue[0]), s.queue[1..])
  }

  ghost predicate Init(s: System) {
    s == System(Fresh(), [])
  }

  ghost predicate Next(s: System, t: System) {
    exists e :: t == After(s, e)
  }

  // ---- The invariant ---------------------------------------------------------------

  ghost predicate Lifecycle(c: Conn) {
    && (c.closed <==> c.state == Closed)
    && c.state != Closing
    && c.closeCalls == (if c.closed then 1 else 0)
    && (!c.closed ==> c.open && c.channel)
    && (c.closed ==> !c.open && !c.registered && c.pending == [])
    && (c.state == Started ==> c.registered)
    && (c.state == New ==> c.pending == [] && c.accepted == [] && c.received == [])
  }

  ghost predicate Output(c: Conn) {
    && FrameDecoder.AllEncodable(c.accepted)
    && (c.closed ==> c.written <= FrameDecoder.EncodeAll(c.accepted))
    && (!c.closed ==> c.written + c.pending == FrameDecoder.EncodeAll(c.accepted))
    && |c.pending| <= c.ceiling
    && c.mark <= c.ceiling
    && (c.state == New ==> c.mark == c.ceiling)
    && (c.pending != [] ==> c.writing)
  }

  /** The decoder and the callbacks have seen exactly what the received bytes hold. */
  ghost predicate Input(c: Conn) {
    var d := FrameDecoder.Drain(c.received);
    && c.decoder == FrameDecoder.Decoder(d.rest, d.bad)
    && c.dispatched <= d.packets
    && (!c.closed ==> c.dispatched == d.packets && !d.bad)
  }

  ghost predicate ConnInv(c: Conn) {
    Lifecycle(c) && Output(c) && Input(c)
  }

  ghost predicate Inv(s: System) {
    ConnInv(s.conn)
  }

  lemma FreshInv()
    ensures ConnInv(Fresh())
  {
  }

  lemma CloseKeeps(c: Conn)
    requires Lifecycle(c) && Output(c)
    ensures Lifecycle(Close(c)) && Output(Close(c))
  {
  }

  lemma {:induction false} EncodeAllAppend(ps: seq<Packet>, p: Packet)
    requires FrameDecoder.AllEncodable(ps) && Encodable(p)
    ensures FrameDecoder.AllEncodable(ps + [p])
    ensures FrameDecoder.EncodeAll(ps + [p]) == FrameDecoder.EncodeAll(ps) + Encode(p)
    decreases |ps|
  {
    hide Encode, Encodable;
    if |ps| == 0 {
      assert ps + [p] == [p] && [p][1..] == [];
    } else {
      EncodeAllAppend(ps[1..], p);
      assert (ps + [p])[1..] == ps[1..] + [p];
    }
  }

  lemma SendFrameKeeps(c: Conn, p: Packet)
    requires Encodable(p)
    requires Lifecycle(c) && Output(c)
    ensures Lifecycle(SendFrame(c, p).0) && Output(SendFrame(c, p).0)
  {
    hide Encode, Encodable;
    var size := |Encode(p)|;
    if c.state != Started || c.closed {
    } else if size > c.mark || |c.pending| > c.mark - size {
      CloseKeeps(c);
    } else {
      EncodeAllAppend(c.accepted, p);
      assert c.written + (c.pending + Encode(p)) == (c.written + c.pending) + Encode(p);
    }
  }

  lemma SendInLoopKeeps(c: Conn, p: Packet)
    requires Lifecycle(c) && Output(c)
    ensures Lifecycle(SendInLoop(c, p).0) && Output(SendInLoop(c, p).0)
  {
    hide Lifecycle, Output, Encode;
    CloseKeeps(c);
    if Encodable(p) {
      SendFrameKeeps(c, p);
    }
  }

  lemma {:induction false} WriteLoopKeeps(c: Conn, results: seq<WriteResult>)
    requires Lifecycle(c) && Output(c) && c.state == Started
    ensures Lifecycle(WriteLoop(c, results)) && Output(WriteLoop(c, results))
    decreases |results|
  {
    if |c.pending| > 0 && |results| > 0 {
      match results[0]
      case Wrote(n) =>
        if n == 0 {
        } else if n > |c.pending| {
          CloseKeeps(c);
        } else {
          var d := c.(pending := c.pending[n..], written := c.written + c.pending[..n]);
          assert d.written + d.pending == c.written + c.pending;
          WriteLoopKeeps(d, results[1..]);
        }
      case WroteNothing =>
      case WriteInterrupted => WriteLoopKeeps(c, results[1..]);
      case WriteWouldBlock =>
      case WriteFailed => CloseKeeps(c);
    }
  }

  lemma {:induction false} ReactKeeps(c: Conn, reactions: seq<Reaction>)
    requires Lifecycle(c) && Output(c)
    ensures Lifecycle(React(c, reactions)) && Output(React(c, reactions))
    ensures SameInput(c, React(c, reactions))
    decreases |reactions|
  {
    hide Lifecycle, Output, Encode, Encodable;
    if |reactions| > 0 {
      var d := match reactions[0] case Reply(p) => SendInLoop(c, p).0 case Hangup => Close(c);
      match reactions[0] {
        case Reply(p) => SendInLoopKeeps(c, p);
        case Hangup => CloseKeeps(c);
      }
      ReactKeeps(d, reactions[1..]);
    }
  }

  /** The receiving side is untouched, and a closed session stays closed. */
  ghost predicate SameInput(c: Conn, d: Conn) {
    d.received == c.received && d.dispatched == c.dispatched && d.decoder == c.decoder
    && (c.closed ==> d.closed) && (c.state != New ==> d.state != New)
  }

  lemma {:induction false} DispatchKeeps(c: Conn, packets: seq<Packet>, reactions: seq<seq<Reaction>>, i: nat)
    requires i <= |packets|
    requires Lifecycle(c) && Output(c) && c.state != New
    ensures var d := Dispatch(c, packets, reactions, i);
            && Lifecycle(d) && Output(d) && d.state != New
            && d.decoder == c.decoder && d.received == c.received
            && c.dispatched <= d.dispatched <= c.dispatched + packets[i..]
            && (!d.closed ==> d.dispatched == c.dispatched + packets[i..])
    decreases |packets| - i
  {
    hide React, Lifecycle, Output;
    if i < |packets| && !c.closed {
      var e := c.(dispatched := c.dispatched + [packets[i]]);
      DispatchedKeeps(c, e.dispatched);
      ReactKeeps(e, ReactionTo(reactions, i));
      DispatchKeeps(React(e, ReactionTo(reactions, i)), packets, reactions, i + 1);
      assert packets[i..] == [packets[i]] + packets[i + 1..];
      assert e.dispatched + packets[i + 1..] == c.dispatched + packets[i..];
    } else if i == |packets| {
      assert c.dispatched + packets[i..] == c.dispatched;
    }
  }

  lemma DispatchedKeeps(c: Conn, dispatched: seq<Packet>)
    requires Lifecycle(c) && Output(c)
    ensures Lifecycle(c.(dispatched := dispatched)) && Output(c.(dispatched := dispatched))
  {
  }

  lemma TakeKeeps(c: Conn, bytes: Bytes, reactions: seq<seq<Reaction>>)
    requires ConnInv(c) && c.state == Started
    ensures ConnInv(Take(c, bytes, reactions)) && Take(c, bytes, reactions).state != New
  {
    hide FrameDecoder.Drain, FrameDecoder.EncodeAll, Dispatch;
    var d := FrameDecoder.Drain(c.received);
    FrameDecoder.DrainAppend(c.received, bytes);
    var (decoder, packets) := FrameDecoder.Fed(c.decoder, bytes);
    var all := FrameDecoder.Drain(c.received + bytes);
    assert all.packets == c.dispatched + packets;
    var e := c.(decoder := decoder, received := c.received + bytes);
    if decoder.error {
      CloseKeeps(e);
    } else {
      DispatchKeeps(e, packets, reactions, 0);
      assert packets[0..] == packets;
    }
  }

  lemma CloseKeepsAll(c: Conn)
    requires ConnInv(c)
    ensures ConnInv(Close(c))
  {
    hide FrameDecoder.Drain, FrameDecoder.EncodeAll;
  }

  lemma {:induction false} ReadLoopKeeps(c: Conn, inputs: seq<ReadResult>)
    requires ConnInv(c) && c.state != New
    ensures ConnInv(ReadLoop(c, inputs))
    decreases |inputs|
  {
    hide FrameDecoder.Drain, FrameDecoder.EncodeAll, Take, Close;
    if c.open && |inputs| > 0 {
      match inputs[0]
      case Received(bytes, reactions) =>
        if |bytes| == 0 {
          CloseKeepsAll(c);
        } else {
          assert c.state == Started;
          TakeKeeps(c, bytes, reactions);
          ReadLoopKeeps(Take(c, bytes, reactions), inputs[1..]);
        }
      case EndOfFile => CloseKeepsAll(c);
      case ReadInterrupted => ReadLoopKeeps(c, inputs[1..]);
      case ReadWouldBlock =>
      case ReadFailed => CloseKeepsAll(c);
    }
  }

  lemma StepKeeps(s: System, e: Event)
    requires Inv(s)
    ensures Inv(After(s, e))
  {
    hide FrameDecoder.Drain, FrameDecoder.EncodeAll, SendFrame, WriteLoop, ReadLoop;
    var c := s.conn;
    match e {
      case StartInLoop =>
      case StartFromOutside =>
      case SendFromLoop(p) => SendInLoopKeepsAll(c, p);
      case SendFromOutside(p) =>
      case CloseFromLoop => CloseKeepsAll(c);
      case CloseFromOutside =>
      case ChangeMark(m) =>
      case SocketReadable(inputs) =>
        if c.state == Started {
          ReadLoopKeeps(c, inputs);
        }
      case SocketWritable(results) =>
        if c.state == Started {
          WriteLoopKeeps(c, results);
          WriteLoopInput(c, results);
        }
      case SocketError => CloseKeepsAll(c);
      case RunTask =>
        if |s.queue| > 0 {
          PerformKeeps(c, s.queue[0]);
        }
    }
  }

  lemma SendInLoopKeepsAll(c: Conn, p: Packet)
    requires ConnInv(c)
    ensures ConnInv(SendInLoop(c, p).0)
  {
    hide FrameDecoder.Drain, Output, Encode, Encodable;
    SendInLoopKeeps(c, p);
  }

  lemma {:induction false} WriteLoopInput(c: Conn, results: seq<WriteResult>)
    requires Input(c)
    ensures Input(WriteLoop(c, results))
    decreases |results|
  {
    hide FrameDecoder.Drain;
    if |c.pending| > 0 && |results| > 0 {
      match results[0]
      case Wrote(n) =>
        if 0 < n <= |c.pending| {
          WriteLoopInput(c.(pending := c.pending[n..], written := c.written + c.pending[..n]), results[1..]);
        }
      case WroteNothing =>
      case WriteInterrupted => WriteLoopInput(c, results[1..]);
      case WriteWouldBlock =>
      case WriteFailed =>
    }
  }

  lemma PerformKeeps(c: Conn, task: Task)
    requires ConnInv(c)
    ensures ConnInv(Perform(c, task))
  {
    hide FrameDecoder.Drain, FrameDecoder.EncodeAll, Encode, Encodable;
    match task {
      case DoStart =>
      case DoSend(p) =>
        if Encodable(p) {
          SendFrameKeeps(c, p);
        }
      case DoClose => CloseKeepsAll(c);
      case DoDropChannel =>
    }
  }

  // ---- Only forward ------------------------------------------------------------------

  function Rank(state: SessionState): (r: nat) {
    match state case New => 0 case Started => 1 case Closing => 2 case Closed => 3
  }

  /** `d` is a later stage of the same session: its state has not moved back, its
      histories only grew, and nothing more happened to it once it was closed. */
  ghost predicate Later(c: Conn, d: Conn) {
    && Rank(c.state) <= Rank(d.state)
    && c.closeCalls <= d.closeCalls
    && c.accepted <= d.accepted && c.written <= d.written
    && c.received <= d.received && c.dispatched <= d.dispatched
    && (c.closed ==>
          && d.closed && d.closeCalls == c.closeCalls && d.accepted == c.accepted
          && d.written == c.written && d.received == c.received && d.dispatched == c.dispatched)
  }

  lemma {:induction false} WriteLoopLater(c: Conn, results: seq<WriteResult>)
    requires !c.closed
    ensures Later(c, WriteLoop(c, results))
    decreases |results|
  {
    if |c.pending| > 0 && |results| > 0 {
      match results[0]
      case Wrote(n) =>
        if 0 < n <= |c.pending| {
          WriteLoopLater(c.(pending := c.pending[n..], written := c.written + c.pending[..n]), results[1..]);
        }
      case WroteNothing =>
      case WriteInterrupted => WriteLoopLater(c, results[1..]);
      case WriteWouldBlock =>
      case WriteFailed =>
    }
  }

  lemma SendLater(c: Conn, p: Packet)
    ensures Later(c, SendInLoop(c, p).0)
  {
    hide Encode, Encodable;
  }

  lemma {:induction false} ReactLater(c: Conn, reactions: seq<Reaction>)
    ensures Later(c, React(c, reactions))
    decreases |reactions|
  {
    hide SendInLoop;
    if |reactions| > 0 {
      var d := match reactions[0] case Reply(p) => SendInLoop(c, p).0 case Hangup => Close(c);
      if reactions[0].Reply? {
        SendLater(c, reactions[0].packet);
      }
      ReactLater(d, reactions[1..]);
    }
  }

  lemma {:induction false} DispatchLater(c: Conn, packets: seq<Packet>, reactions: seq<seq<Reaction>>, i: nat)
    requires i <= |packets|
    ensures Later(c, Dispatch(c, packets, reactions, i))
    decreases |packets| - i
  {
    hide React;
    if i < |packets| && !c.closed {
      var e := c.(dispatched := c.dispatched + [packets[i]]);
      ReactLater(e, ReactionTo(reactions, i));
      DispatchLater(React(e, ReactionTo(reactions, i)), packets, reactions, i + 1);
    }
  }

  lemma {:induction false} ReadLoopLater(c: Conn, inputs: seq<ReadResult>)
    requires ConnInv(c) && c.state != New
    ensures Later(c, ReadLoop(c, inputs))
    decreases |inputs|
  {
    hide FrameDecoder.Drain, FrameDecoder.EncodeAll, Dispatch;
    if c.open && |inputs| > 0 {
      match inputs[0]
      case Received(bytes, reactions) =>
        if |bytes| > 0 {
          var (decoder, packets) := FrameDecoder.Fed(c.decoder, bytes);
          DispatchLater(c.(decoder := decoder, received := c.received + bytes), packets, reactions, 0);
          TakeKeeps(c, bytes, reactions);
          ReadLoopLater(Take(c, bytes, reactions), inputs[1..]);
        }
      case EndOfFile =>
      case ReadInterrupted => ReadLoopLater(c, inputs[1..]);
      case ReadWouldBlock =>
      case ReadFailed =>
    }
  }

  lemma StepLater(s: System, e: Event)
    requires Inv(s)
    ensures Later(s.conn, After(s, e).conn)
  {
    hide FrameDecoder.Drain, FrameDecoder.EncodeAll, WriteLoop, ReadLoop, Encode, Encodable, Input;
    var c := s.conn;
    match e {
      case StartInLoop =>
      case StartFromOutside =>
      case SendFromLoop(p) => SendLater(c, p);
      case SendFromOutside(p) =>
      case CloseFromLoop =>
      case CloseFromOutside =>
      case ChangeMark(m) =>
      case SocketReadable(inputs) =>
        if c.state == Started {
          ReadLoopLater(c, inputs);
        }
      case SocketWritable(results) =>
        if c.state == Started {
          WriteLoopLater(c, results);
        }
      case SocketError =>
      case RunTask =>
    }
  }

  // ---- Theorems over all runs -----------------------------------------------------------

  ghost predicate SystemLater(s: System, t: System) {
    Later(s.conn, t.conn)
  }

  lemma NextKeeps(s: System, t: System)
    requires Inv(s) && Next(s, t)
    ensures Inv(t) && SystemLater(s, t)
  {
    var e :| t == After(s, e);
    StepKeeps(s, e);
    StepLater(s, e);
  }

  /** Every state of every run keeps the byte accounts of both directions. */
  lemma RunsAreSafe(run: seq<System>, i: nat)
    requires Runs.IsRun(Init, Next, run)
    requires i < |run|
    ensures var c := run[i].conn;
            && FrameDecoder.AllEncodable(c.accepted)
            && (c.state == Started ==> c.written + c.pending == FrameDecoder.EncodeAll(c.accepted))
            && c.written <= FrameDecoder.EncodeAll(c.accepted)
            && |c.pending| <= c.ceiling
            && (c.pending != [] ==> c.state == Started && c.registered && c.writing)
            && c.closeCalls == (if c.closed then 1 else 0)
            && c.dispatched <= FrameDecoder.Drain(c.received).packets
            && (!c.closed ==> c.dispatched == FrameDecoder.Drain(c.received).packets)
  {
    hide After, FrameDecoder.EncodeAll, FrameDecoder.Drain;
    assert Inv(System(Fresh(), [])) by {
      FreshInv();
    }
    forall s, t | Inv(s) && Next(s, t) ensures Inv(t) {
      NextKeeps(s, t);
    }
    Runs.Invariance(Init, Next, Inv, run);
  }

  // ---- A mark that does not change after the start -----------------------------------------------

  ghost predicate SameMark(c: Conn, d: Conn) {
    d.mark == c.mark && d.ceiling == c.ceiling
  }

  lemma {:induction false} WriteLoopMark(c: Conn, results: seq<WriteResult>)
    ensures SameMark(c, WriteLoop(c, results))
    decreases |results|
  {
    if |c.pending| > 0 && |results| > 0 {
      match results[0]
      case Wrote(n) =>
        if 0 < n <= |c.pending| {
          WriteLoopMark(c.(pending := c.pending[n..], written := c.written + c.pending[..n]), results[1..]);
        }
      case WriteInterrupted => WriteLoopMark(c, results[1..]);
      case _ =>
    }
  }

  lemma {:induction false} ReactMark(c: Conn, reactions: seq<Reaction>)
    ensures SameMark(c, React(c, reactions))
    decreases |reactions|
  {
    hide Encode, Encodable;
    if |reactions| > 0 {
      ReactMark(match reactions[0] case Reply(p) => SendInLoop(c, p).0 case Hangup => Close(c), reactions[1..]);
    }
  }

  lemma {:induction false} DispatchMark(c: Conn, packets: seq<Packet>, reactions: seq<seq<Reaction>>, i: nat)
    requires i <= |packets|
    ensures SameMark(c, Dispatch(c, packets, reactions, i))
    decreases |packets| - i
  {
    hide React;
    if i < |packets| && !c.closed {
      var e := c.(dispatched := c.dispatched + [packets[i]]);
      ReactMark(e, ReactionTo(reactions, i));
      DispatchMark(React(e, ReactionTo(reactions, i)), packets, reactions, i + 1);
    }
  }

  lemma {:induction false} ReadLoopMark(c: Conn, inputs: seq<ReadResult>)
    ensures SameMark(c, ReadLoop(c, inputs))
    decreases |inputs|
  {
    hide FrameDecoder.Drain, Dispatch;
    if c.open && |inputs| > 0 {
      match inputs[0]
      case Received(bytes, reactions) =>
        if |bytes| > 0 {
          var (decoder, packets) := FrameDecoder.Fed(c.decoder, bytes);
          DispatchMark(c.(decoder := decoder, received := c.received + bytes), packets, reactions, 0);
          ReadLoopMark(Take(c, bytes, reactions), inputs[1..]);
        }
      case ReadInterrupted => ReadLoopMark(c, inputs[1..]);
      case _ =>
    }
  }

  /** Where the mark and its history agree, they still do unless a started session's mark changes. */
  lemma StepMark(s: System, e: Event)
    requires s.conn.ceiling == s.conn.mark
    requires s.conn.state != New ==> After(s, e).conn.mark == s.conn.mark
    ensures After(s, e).conn.ceiling == After(s, e).conn.mark
  {
    hide FrameDecoder.Drain, WriteLoop, ReadLoop, Encode, Encodable;
    match e {
      case SocketReadable(inputs) => ReadLoopMark(s.conn, inputs);
      case SocketWritable(results) => WriteLoopMark(s.conn, results);
      case _ =>
    }
  }

  /** With a mark that is fixed before the start, pending bytes never exceed it. */
  lemma PendingWithinFixedMark(run: seq<System>, i: nat)
    requires Runs.IsRun(Init, Next, run) && i < |run|
    requires forall k :: 0 <= k <= i && run[k].conn.state != New ==> run[k].conn.mark == run[i].conn.mark
    ensures |run[i].conn.pending| <= run[i].conn.mark
  {
    hide After, FrameDecoder.EncodeAll, FrameDecoder.Drain;
    RunsAreSafe(run, i);
    var k := 0;
    while k < i
      invariant 0 <= k <= i && run[k].conn.ceiling == run[k].conn.mark
    {
      assert Next(run[k], run[k + 1]);
      var e :| run[k + 1] == After(run[k], e);
      RunsGoForward(run, k, k + 1);
      StepMark(run[k], e);
      k := k + 1;
    }
  }

  /** A session never moves back, loses history, or does anything after it is closed. */
  lemma RunsGoForward(run: seq<System>, i: nat, j: nat)
    requires Runs.IsRun(Init, Next, run)
    requires i <= j < |run|
    ensures Later(run[i].conn, run[j].conn)
  {
    hide After, ConnInv;
    assert Inv(System(Fresh(), [])) by {
      FreshInv();
    }
    forall s, t | Inv(s) && Next(s, t) ensures Inv(t) && SystemLater(s, t) {
      NextKeeps(s, t);
    }
    Runs.Progress(Init, Next, Inv, SystemLater, run, i, j);
  }

  /** Whatever part of the written bytes has reached the peer, in whatever chunks, its
      decoder has produced a prefix of the accepted packets and no error. */
  lemma EndToEnd(run: seq<System>, i: nat, chunks: seq<Bytes>)
    requires Runs.IsRun(Init, Next, run)
    requires i < |run|
    requires FrameDecoder.Concat(chunks) <= run[i].conn.written
    ensures FrameDecoder.AllEncodable(run[i].conn.accepted)
    ensures var peer := FrameDecoder.FedAll(FrameDecoder.Decoder([], false), chunks);
            peer.1 <= FrameDecoder.NormalizeAll(run[i].conn.accepted) && !peer.0.error
  {
    hide FrameDecoder.EncodeAll, FrameDecoder.FedAll, FrameDecoder.Concat;
    RunsAreSafe(run, i);
    var bytes := FrameDecoder.Concat(chunks);
    var empty := FrameDecoder.Decoder([], false);
    FrameDecoder.ChunkingInvariance(empty, chunks);
    assert [] + bytes == bytes;
    FrameDecoder.PrefixDecodes(run[i].conn.accepted, bytes);
  }

  /** Once everything pending is written, the peer that reads it all gets every packet. */
  lemma DeliveredInFull(run: seq<System>, i: nat, chunks: seq<Bytes>)
    requires Runs.IsRun(Init, Next, run)
    requires i < |run| && run[i].conn.state == Started && run[i].conn.pending == []
    requires FrameDecoder.Concat(chunks) == run[i].conn.written
    ensures FrameDecoder.AllEncodable(run[i].conn.accepted)
    ensures FrameDecoder.FedAll(FrameDecoder.Decoder([], false), chunks)
         == (FrameDecoder.Decoder([], false), FrameDecoder.NormalizeAll(run[i].conn.accepted))
  {
    RunsAreSafe(run, i);
    var empty := FrameDecoder.Decoder([], false);
    FrameDecoder.ChunkingInvariance(empty, chunks);
    FrameDecoder.DecodeOfEncode(run[i].conn.accepted);
    assert [] + FrameDecoder.Concat(chunks) == FrameDecoder.EncodeAll(run[i].conn.accepted);
  }
}
