/**
 What enters a session's output: which calls are accepted, what each step of a run
 appends, and that a session that stays open accepts everything it was given, in order.
 */
module SessionSends {
  import opened Base
  import opened Packet
  import opened Session
  import opened SessionRuns
  import FrameDecoder

  /** The output takes `p`: the session is started, `p` can be encoded and its frame fits. */
  ghost predicate Takes(c: Conn, p: Packet) {
    c.state == Started && !c.closed && Encodable(p) && |c.pending| + |Encode(p)| <= c.mark
  }

  /** A packet offered on the loop thread, directly or by a task, is queued whole or not at all. */
  ghost predicate Offered(c: Conn, p: Packet, d: Conn) {
    && (Takes(c, p) ==>
          && d.accepted == c.accepted + [p] && d.pending == c.pending + Encode(p) && !d.closed
          && (c.channel ==> d.writing))
    && (!Takes(c, p) ==> d.accepted == c.accepted && d.written == c.written)
    && (!Takes(c, p) && c.state == Started && !c.closed && Encodable(p) ==> d.closed && d.pending == [])
  }

  /** What each event does to the packets accepted so far. */
  lemma StepAccepts(s: System, e: Event)
    ensures e.SendFromLoop? ==> Offered(s.conn, e.packet, After(s, e).conn)
    ensures e.RunTask? && s.queue != [] && s.queue[0].DoSend? && Encodable(s.queue[0].packet) ==>
              Offered(s.conn, s.queue[0].packet, After(s, e).conn)
    ensures e.RunTask? && s.queue != [] ==> s.queue[1..] <= After(s, e).queue
    ensures e.SendFromOutside? && Encodable(e.packet) ==>
              && After(s, e).conn == s.conn
              && After(s, e).queue == s.queue + [if |Encode(e.packet)| <= s.conn.mark then DoSend(e.packet) else DoClose]
    ensures !e.SendFromLoop? && !e.SocketReadable? && !(e.RunTask? && s.queue != [] && s.queue[0].DoSend?) ==>
              After(s, e).conn.accepted == s.conn.accepted
  {
    hide Encode, Encodable, WriteLoop, ReadLoop;
    if e.SocketWritable? && !s.conn.closed {
      WriteConserves(s.conn, e.results);
    }
  }

  // ---- What a step gives to a session that stays open --------------------------------------

  /** The packets of the callback's replies, in order. */
  function Replied(reactions: seq<Reaction>): (ps: seq<Packet>) {
    if |reactions| == 0 then []
    else
      (if reactions[0].Reply? && Encodable(reactions[0].packet) then [reactions[0].packet] else [])
      + Replied(reactions[1..])
  }

  function RepliedToAll(reactions: seq<seq<Reaction>>, i: nat, n: nat): (ps: seq<Packet>)
    requires i <= n
    decreases n - i
  {
    if i == n then [] else Replied(ReactionTo(reactions, i)) + RepliedToAll(reactions, i + 1, n)
  }

  /** The replies to the packets that the bytes just read complete, where `received` came before them. */
  ghost function RepliedTo(received: Bytes, inputs: seq<ReadResult>): (ps: seq<Packet>)
    decreases |inputs|
  {
    if |inputs| == 0 then []
    else
      match inputs[0]
      case Received(bytes, reactions) =>
        var before := |FrameDecoder.Drain(received).packets|;
        var now := |FrameDecoder.Drain(received + bytes).packets|;
        (if before <= now then RepliedToAll(reactions, 0, now - before) else [])
        + RepliedTo(received + bytes, inputs[1..])
      case ReadInterrupted => RepliedTo(received, inputs[1..])
      case _ => []
  }

  /** What `e` gives to the output of a started session, read off the event, the queue and the bytes received. */
  ghost function Gives(s: System, e: Event): (ps: seq<Packet>) {
    match e
    case SendFromLoop(p) => if Encodable(p) then [p] else []
    case RunTask =>
      if s.queue != [] && s.queue[0].DoSend? && Encodable(s.queue[0].packet) then [s.queue[0].packet] else []
    case SocketReadable(inputs) => RepliedTo(s.conn.received, inputs)
    case _ => []
  }

  lemma {:induction false} ReactAccepts(c: Conn, reactions: seq<Reaction>)
    requires c.state == Started && !c.closed
    ensures var d := React(c, reactions);
            !d.closed ==> d.state == Started && d.accepted == c.accepted + Replied(reactions)
    decreases |reactions|
  {
    hide Encode, Encodable;
    if |reactions| > 0 {
      var e := match reactions[0] case Reply(p) => SendInLoop(c, p).0 case Hangup => Close(c);
      ReactLater(e, reactions[1..]);
      if !e.closed {
        ReactAccepts(e, reactions[1..]);
      }
    }
  }

  lemma {:induction false} DispatchAccepts(c: Conn, packets: seq<Packet>, reactions: seq<seq<Reaction>>, i: nat)
    requires i <= |packets| && c.state == Started && !c.closed
    ensures var d := Dispatch(c, packets, reactions, i);
            !d.closed ==> d.state == Started && d.accepted == c.accepted + RepliedToAll(reactions, i, |packets|)
    decreases |packets| - i
  {
    hide React, Replied;
    if i < |packets| {
      var e := c.(dispatched := c.dispatched + [packets[i]]);
      var d := React(e, ReactionTo(reactions, i));
      ReactAccepts(e, ReactionTo(reactions, i));
      DispatchLater(d, packets, reactions, i + 1);
      if !d.closed {
        DispatchAccepts(d, packets, reactions, i + 1);
      }
    }
  }

  lemma TakeAccepts(c: Conn, bytes: Bytes, reactions: seq<seq<Reaction>>)
    requires ConnInv(c) && c.state == Started
    ensures var d := Take(c, bytes, reactions);
            var before := |FrameDecoder.Drain(c.received).packets|;
            var now := |FrameDecoder.Drain(c.received + bytes).packets|;
            !d.closed ==> d.state == Started && before <= now
                          && d.accepted == c.accepted + RepliedToAll(reactions, 0, now - before)
  {
    hide FrameDecoder.Drain, FrameDecoder.EncodeAll, Dispatch, RepliedToAll;
    FrameDecoder.DrainAppend(c.received, bytes);
    var (decoder, packets) := FrameDecoder.Fed(c.decoder, bytes);
    var e := c.(decoder := decoder, received := c.received + bytes);
    if !decoder.error {
      DispatchAccepts(e, packets, reactions, 0);
    }
  }

  lemma {:induction false} ReadLoopAccepts(c: Conn, inputs: seq<ReadResult>)
    requires ConnInv(c) && c.state == Started
    ensures var d := ReadLoop(c, inputs);
            !d.closed ==> d.state == Started && d.accepted == c.accepted + RepliedTo(c.received, inputs)
    decreases |inputs|
  {
    hide FrameDecoder.Drain, FrameDecoder.EncodeAll, Take, RepliedToAll;
    if |inputs| > 0 {
      match inputs[0]
      case Received(bytes, reactions) =>
        if |bytes| > 0 {
          var d := Take(c, bytes, reactions);
          TakeReceives(c, bytes, reactions);
          TakeKeeps(c, bytes, reactions);
          TakeAccepts(c, bytes, reactions);
          ReadLoopLater(d, inputs[1..]);
          if !d.closed {
            ReadLoopAccepts(d, inputs[1..]);
          }
        }
      case ReadInterrupted => ReadLoopAccepts(c, inputs[1..]);
      case _ =>
    }
  }

  /** A step that leaves a started session open appends exactly what it gives. */
  lemma StepGives(s: System, e: Event)
    requires Inv(s) && s.conn.state == Started && !After(s, e).conn.closed
    ensures After(s, e).conn.state == Started
    ensures After(s, e).conn.accepted == s.conn.accepted + Gives(s, e)
  {
    hide FrameDecoder.Drain, FrameDecoder.EncodeAll, Encode, Encodable, WriteLoop, ReadLoop, RepliedTo;
    match e {
      case SocketReadable(inputs) => ReadLoopAccepts(s.conn, inputs);
      case SocketWritable(results) => WriteConserves(s.conn, results);
      case _ =>
    }
  }

  // ---- When a read leaves the session open -------------------------------------------------

  predicate NoHangup(reactions: seq<Reaction>) {
    forall i :: 0 <= i < |reactions| ==> reactions[i].Reply?
  }

  function Weight(ps: seq<Packet>): (n: nat) {
    if |ps| == 0 then 0 else (if Encodable(ps[0]) then |Encode(ps[0])| else 0) + Weight(ps[1..])
  }

  lemma {:induction false} WeightAppend(ps: seq<Packet>, qs: seq<Packet>)
    ensures Weight(ps + qs) == Weight(ps) + Weight(qs)
    decreases |ps|
  {
    hide Encode, Encodable;
    if |ps| == 0 {
      assert ps + qs == qs;
    } else {
      WeightAppend(ps[1..], qs);
      assert (ps + qs)[1..] == ps[1..] + qs;
    }
  }

  lemma {:induction false} ReactStaysOpen(c: Conn, reactions: seq<Reaction>)
    requires c.state == Started && !c.closed && NoHangup(reactions)
    requires |c.pending| + Weight(Replied(reactions)) <= c.mark
    ensures var d := React(c, reactions);
            && d.state == Started && !d.closed && d.open == c.open && d.mark == c.mark
            && |d.pending| == |c.pending| + Weight(Replied(reactions))
    decreases |reactions|
  {
    hide Encode, Encodable;
    if |reactions| > 0 {
      assert forall i :: 0 <= i < |reactions[1..]| ==> reactions[1..][i] == reactions[i + 1];
      var p := reactions[0].packet;
      WeightAppend(if Encodable(p) then [p] else [], Replied(reactions[1..]));
      assert Weight([p]) == if Encodable(p) then |Encode(p)| else 0;
      ReactStaysOpen(SendInLoop(c, p).0, reactions[1..]);
    }
  }

  lemma {:induction false} DispatchStaysOpen(c: Conn, packets: seq<Packet>, reactions: seq<seq<Reaction>>, i: nat)
    requires i <= |packets| && c.state == Started && !c.closed
    requires forall k :: 0 <= k < |reactions| ==> NoHangup(reactions[k])
    requires |c.pending| + Weight(RepliedToAll(reactions, i, |packets|)) <= c.mark
    ensures var d := Dispatch(c, packets, reactions, i);
            && d.state == Started && !d.closed && d.open == c.open && d.mark == c.mark
            && |d.pending| == |c.pending| + Weight(RepliedToAll(reactions, i, |packets|))
    decreases |packets| - i
  {
    hide React, Replied, Encode, Encodable;
    if i < |packets| {
      var e := c.(dispatched := c.dispatched + [packets[i]]);
      WeightAppend(Replied(ReactionTo(reactions, i)), RepliedToAll(reactions, i + 1, |packets|));
      ReactStaysOpen(e, ReactionTo(reactions, i));
      DispatchStaysOpen(React(e, ReactionTo(reactions, i)), packets, reactions, i + 1);
    }
  }

  /** Reads that succeed, with callbacks that only reply. */
  predicate Calm(inputs: seq<ReadResult>) {
    forall i :: 0 <= i < |inputs| ==>
      || inputs[i].ReadInterrupted?
      || (inputs[i].Received? && inputs[i].bytes != []
          && forall k :: 0 <= k < |inputs[i].reactions| ==> NoHangup(inputs[i].reactions[k]))
  }

  function BytesOf(inputs: seq<ReadResult>): (bytes: Bytes) {
    if |inputs| == 0 then [] else (if inputs[0].Received? then inputs[0].bytes else []) + BytesOf(inputs[1..])
  }

  /** Reads with well-formed bytes and replies that fit leave the session open; all bytes
      are taken, every packet in them is handed on and every reply is queued. */
  lemma {:induction false} CalmReads(c: Conn, inputs: seq<ReadResult>)
    requires ConnInv(c) && c.state == Started && Calm(inputs)
    requires !FrameDecoder.Drain(c.received + BytesOf(inputs)).bad
    requires |c.pending| + Weight(RepliedTo(c.received, inputs)) <= c.mark
    ensures var d := ReadLoop(c, inputs);
            && !d.closed && d.state == Started && d.received == c.received + BytesOf(inputs)
            && d.dispatched == FrameDecoder.Drain(c.received + BytesOf(inputs)).packets
            && d.accepted == c.accepted + RepliedTo(c.received, inputs)
    decreases |inputs|
  {
    hide FrameDecoder.Drain, FrameDecoder.EncodeAll, Take, RepliedToAll, Weight;
    if |inputs| == 0 {
      assert c.received + BytesOf(inputs) == c.received;
    } else {
      assert forall i :: 0 <= i < |inputs[1..]| ==> inputs[1..][i] == inputs[i + 1];
      if inputs[0].Received? {
        var bytes, reactions := inputs[0].bytes, inputs[0].reactions;
        var rest := BytesOf(inputs[1..]);
        assert c.received + BytesOf(inputs) == c.received + bytes + rest;
        FrameDecoder.DrainAppend(c.received + bytes, rest);
        TakeStaysOpen(c, bytes, reactions, RepliedTo(c.received + bytes, inputs[1..]));
        CalmReads(Take(c, bytes, reactions), inputs[1..]);
      } else {
        assert BytesOf(inputs) == BytesOf(inputs[1..]);
        CalmReads(c, inputs[1..]);
      }
    }
  }

  lemma TakeStaysOpen(c: Conn, bytes: Bytes, reactions: seq<seq<Reaction>>, later: seq<Packet>)
    requires ConnInv(c) && c.state == Started && !FrameDecoder.Drain(c.received + bytes).bad
    requires forall k :: 0 <= k < |reactions| ==> NoHangup(reactions[k])
    requires var before := |FrameDecoder.Drain(c.received).packets|;
             var now := |FrameDecoder.Drain(c.received + bytes).packets|;
             |c.pending| + Weight((if before <= now then RepliedToAll(reactions, 0, now - before) else []) + later) <= c.mark
    ensures var before := |FrameDecoder.Drain(c.received).packets|;
            var now := |FrameDecoder.Drain(c.received + bytes).packets|;
            var d := Take(c, bytes, reactions);
            && ConnInv(d) && d.state == Started && !d.closed && d.open && d.mark == c.mark
            && d.received == c.received + bytes && before <= now
            && d.accepted == c.accepted + RepliedToAll(reactions, 0, now - before)
            && |d.pending| + Weight(later) <= d.mark
  {
    hide FrameDecoder.Drain, FrameDecoder.EncodeAll, Dispatch, RepliedToAll, Weight, NoHangup;
    FrameDecoder.DrainAppend(c.received, bytes);
    var (decoder, packets) := FrameDecoder.Fed(c.decoder, bytes);
    WeightAppend(RepliedToAll(reactions, 0, |packets|), later);
    DispatchStaysOpen(c.(decoder := decoder, received := c.received + bytes), packets, reactions, 0);
    TakeReceives(c, bytes, reactions);
    TakeKeeps(c, bytes, reactions);
    TakeAccepts(c, bytes, reactions);
  }

  // ---- Over runs -----------------------------------------------------------------------------

  /** `run` is what `events` make of a new session. */
  ghost predicate Makes(events: seq<Event>, run: seq<System>) {
    && |run| == |events| + 1 && Init(run[0])
    && (forall i :: 0 <= i < |events| ==> run[i + 1] == After(run[i], events[i]))
  }

  /** All that the steps from `i` to `j` give, in order. */
  ghost function Given(events: seq<Event>, run: seq<System>, i: nat, j: nat): (ps: seq<Packet>)
    requires i <= j <= |events| < |run|
    decreases j
  {
    if i == j then [] else Given(events, run, i, j - 1) + Gives(run[j - 1], events[j - 1])
  }

  lemma {:induction false} MakesInv(events: seq<Event>, run: seq<System>, i: nat)
    requires Makes(events, run) && i < |run|
    ensures Inv(run[i])
    decreases i
  {
    hide After, ConnInv;
    if i == 0 {
      FreshInv();
    } else {
      MakesInv(events, run, i - 1);
      StepKeeps(run[i - 1], events[i - 1]);
    }
  }

  /** While a started session stays open, everything it is given is accepted, in the order given. */
  lemma {:induction false} OpenSessionAcceptsAll(events: seq<Event>, run: seq<System>, i: nat, j: nat)
    requires Makes(events, run) && i <= j < |run|
    requires run[i].conn.state == Started && !run[j].conn.closed
    ensures run[j].conn.state == Started
    ensures run[j].conn.accepted == run[i].conn.accepted + Given(events, run, i, j)
    decreases j
  {
    hide After, ConnInv, Gives;
    if i < j {
      MakesInv(events, run, j - 1);
      StepLater(run[j - 1], events[j - 1]);
      OpenSessionAcceptsAll(events, run, i, j - 1);
      StepGives(run[j - 1], events[j - 1]);
    } else {
      MakesInv(events, run, i);
    }
  }
}
