/**
 Why a client gets the answer it gets: the one step of a run that settled its request,
 and what that step was.
 */
module RouterAnswers {
  import opened Base
  import opened ByteOrder
  import opened Packet
  import opened Router
  import ThreadPool
  import Tlv

  /** `run` is what `steps` make of a router that has just been built. */
  ghost predicate Makes(steps: seq<Step>, run: seq<State>) {
    && |run| == |steps| + 1 && Init(run[0])
    && (forall i :: 0 <= i < |steps| ==> Enabled(run[i], steps[i]) && run[i + 1] == After(run[i], steps[i]))
  }

  /** A packet that arrives on an open session runs inline, goes to the pool or is refused,
      as its type, its body and the registered handlers say. */
  lemma ArrivalGoesOn(s: State, r: RequestId, packet: Packet, detail: Bytes)
    requires r !in s.entries
    ensures var e := After(s, Arrive(r, packet, false, detail)).entries[r];
            && e.request == packet && e.attempts == [] && !e.sawClosed && !e.tooLong
            && (e.phase == Executing <==> Handled(s.handlers, packet, Inline))
            && (e.phase == Submitting <==> Handled(s.handlers, packet, BusinessThread))
            && (e.phase.Executing? || e.phase.Submitting?
                || (e.phase.Failing? && Refused(s.handlers, packet, detail, e.phase.status)))
  {
    Decides(s.handlers, packet, detail);
    hide Decide, Handled, Refused;
  }

  // ---- The step that settles a request -----------------------------------------------------

  predicate Settled(e: Entry) {
    e.phase.Failing? || e.phase.Responding? || (e.phase.Done? && !e.sawClosed)
  }

  /** What a handler's outcome settles. */
  ghost predicate Yields(outcome: HandlerOutcome, phase: Phase) {
    match outcome
    case Replies(t, b) => phase == Responding(t, b)
    case Fails(status) => phase == Failing(status)
    case Throws(what) =>
      phase.Failing? && phase.status.code == InternalError && (what.Some? ==> phase.status.message == what.value)
  }

  /** The pool takes no task now, and why. */
  ghost predicate Turned(pool: ThreadPool.State, status: Status) {
    || (!pool.accepting && status.code == InvalidArgument)
    || (pool.accepting && 0 < pool.limit <= |pool.tasks| && status.code == ResourceExhausted)
  }

  /** This step settles `r`, with this phase. */
  ghost predicate Settles(s: State, e: Step, r: RequestId, phase: Phase) {
    match e
    case Arrive(q, packet, closed, detail) =>
      q == r && !closed && phase.Failing? && Refused(s.handlers, packet, detail, phase.status)
    case Execute(q, closed, outcome) => q == r && !closed && Yields(outcome, phase)
    case Submit(q, _) => q == r && phase.Failing? && Turned(s.pool, phase.status)
    case _ => false
  }

  /** How one step moves an entry. */
  lemma StepMoves(s: State, e: Step, r: RequestId)
    requires Inv(s) && Enabled(s, e) && r in s.entries
    ensures r in After(s, e).entries && After(s, e).entries[r].request == s.entries[r].request
    ensures var x, y := s.entries[r], After(s, e).entries[r];
            && (Settled(y) && !Settled(x) ==> (y.phase.Failing? || y.phase.Responding?) && Settles(s, e, r, y.phase))
            && (y.sawClosed && !x.sawClosed ==> (e.Wake? || e.Execute? || e.Send?) && e.r == r && e.closed)
            && (y.tooLong && !x.tooLong ==> x.phase.Failing? && !TextFits(x.phase.status))
  {
    hide ThreadPool.Inv, ThreadPool.Enabled, ThreadPool.After, ErrorBody, TextFits, Ascii, Refused;
    assert AttemptsOk(s.entries[r]);
    if e.PoolStep? {
      PoolFrame(s.pool, e.e);
      if e.e.Take? {
        WakingOk(s, After(s, e));
      }
    }
  }

  /** A request that a handler takes goes forward: the pool queues it unless it is stopped or
      full, the worker that takes it checks the session, the handler runs and its outcome is sent. */
  lemma RequestsGoForward(s: State, e: Step)
    requires Inv(s) && Enabled(s, e)
    ensures e.Submit? && s.pool.accepting && (s.pool.limit == 0 || |s.pool.tasks| < s.pool.limit) ==>
              After(s, e).entries[e.r].phase == Queued && After(s, e).pool.accepted == s.pool.accepted + [e.r]
    ensures e.PoolStep? && e.e.Take? ==>
              && s.pool.started < |s.pool.accepted| && s.pool.accepted[s.pool.started] in s.entries
              && After(s, e).entries[s.pool.accepted[s.pool.started]].phase == Waking
    ensures e.Wake? && !e.closed ==> After(s, e).entries[e.r].phase == Executing
    ensures e.Execute? && !e.closed ==> Yields(e.outcome, After(s, e).entries[e.r].phase)
    ensures e.Send? ==> After(s, e).entries[e.r].phase == Done
  {
    hide ThreadPool.Inv, ThreadPool.Enabled, ErrorBody, TextFits, Ascii, Decide;
    if e.PoolStep? && e.e.Take? {
      PoolFrame(s.pool, e.e);
      WakingOk(s, After(s, e));
    }
    if e.Submit? && ThreadPool.Accepts(s.pool) {
      SubmitEnabled(s.pool, e.caller, e.r);
      SubmitFrame(s.pool, e.caller, e.r);
    }
  }

  lemma {:induction false} MakesInv(steps: seq<Step>, run: seq<State>, i: nat)
    requires Makes(steps, run) && i < |run|
    ensures Inv(run[i])
    decreases i
  {
    hide After, Enabled, ThreadPool.Inv;
    if i == 0 {
      ThreadPool.InitKeeps(run[0].pool);
    } else {
      MakesInv(steps, run, i - 1);
      StepKeeps(run[i - 1], steps[i - 1]);
    }
  }

  lemma ArrivedAt(steps: seq<Step>, run: seq<State>, i: nat)
    requires Makes(steps, run) && i < |steps| && steps[i].Arrive?
    ensures var a, e := steps[i], After(run[i], steps[i]).entries;
            && a.r in e && e[a.r].request == a.packet && e[a.r].sawClosed == a.closed && !e[a.r].tooLong
            && (Settled(e[a.r]) ==> e[a.r].phase.Failing? && Settles(run[i], a, a.r, e[a.r].phase))
  {
    var a := steps[i];
    if !a.closed {
      ArrivalGoesOn(run[i], a.r, a.packet, a.detail);
    }
    hide Decide, Refused, Handled;
  }

  /** A request that is settled was settled by one step since its arrival: a refusal on
      arrival, a pool that took no task, or its handler. */
  lemma {:induction false} SettledAt(steps: seq<Step>, run: seq<State>, i: nat, j: nat) returns (k: nat)
    requires Makes(steps, run) && i < j < |run| && steps[i].Arrive?
    ensures var r := steps[i].r; r in run[j].entries && run[j].entries[r].request == steps[i].packet
    ensures var r := steps[i].r;
            Settled(run[j].entries[r]) ==>
              && i <= k < j && r in run[k + 1].entries
              && (run[k + 1].entries[r].phase.Failing? || run[k + 1].entries[r].phase.Responding?)
              && run[k + 1].entries[r].request == steps[i].packet
              && Settles(run[k], steps[k], r, run[k + 1].entries[r].phase)
    decreases j
  {
    hide After, Enabled, Settles, Init;
    var r := steps[i].r;
    if j == i + 1 {
      ArrivedAt(steps, run, i);
      k := i;
    } else {
      k := SettledAt(steps, run, i, j - 1);
      MakesInv(steps, run, j - 1);
      StepMoves(run[j - 1], steps[j - 1], r);
      if !Settled(run[j - 1].entries[r]) {
        k := j - 1;
      }
    }
  }

  /** A request counts as abandoned only after some check did find its session closed. */
  lemma {:induction false} ClosedWasSeen(steps: seq<Step>, run: seq<State>, i: nat, j: nat) returns (k: nat)
    requires Makes(steps, run) && i < j < |run| && steps[i].Arrive?
    ensures var r := steps[i].r;
            r in run[j].entries && (run[j].entries[r].sawClosed ==>
              && i <= k < j && (steps[k].Arrive? || steps[k].Wake? || steps[k].Execute? || steps[k].Send?)
              && steps[k].r == r && steps[k].closed)
    decreases j
  {
    hide After, Enabled, Init;
    var r := steps[i].r;
    if j == i + 1 {
      ArrivedAt(steps, run, i);
      k := i;
    } else {
      k := ClosedWasSeen(steps, run, i, j - 1);
      MakesInv(steps, run, j - 1);
      StepMoves(run[j - 1], steps[j - 1], r);
      if !run[j - 1].entries[r].sawClosed {
        k := j - 1;
      }
    }
  }

  // ---- The answer ----------------------------------------------------------------------------

  /** A client reads this error out of the packet. */
  ghost predicate IsError(p: Packet, seqId: Uint64, status: Status) {
    && p.header == PacketHeader(PACKET_MAGIC, PACKET_VERSION, PACKET_FLAGS_NONE, ERROR_RESPONSE, seqId, 0)
    && exists code ::
         && |code| == 8 && Tlv.DecodeNumber(code) == CodeValue(status.code)
         && Tlv.ParseFields(p.body) == Some([Tlv.Field(Tlv.ERROR_CODE, code), Tlv.Field(Tlv.ERROR_MESSAGE, ErrorText(status))])
  }

  ghost predicate IsAnswer(p: Packet, seqId: Uint64, phase: Phase) {
    match phase
    case Responding(t, b) =>
      p == Packet(PacketHeader(PACKET_MAGIC, PACKET_VERSION, PACKET_FLAGS_NONE, t, seqId, 0), b)
    case Failing(status) => IsError(p, seqId, status)
    case _ => false
  }

  lemma ErrorIsError(status: Status, seqId: Uint64)
    requires TextFits(status)
    ensures IsError(Stamped(ERROR_RESPONSE, ErrorBody(status), seqId), seqId, status)
  {
    ErrorReadsBack(status);
    var code := ErrorFields(status)[0].value;
    assert |code| == 8 && Tlv.DecodeNumber(code) == CodeValue(status.code) by {
      hide Tlv.ParseFields, Tlv.BodyBytes;
      Pow256Values();
      FromBEOfBE(CodeValue(status.code), 8);
    }
    hide Tlv.ParseFields, Tlv.BodyBytes, ErrorText;
    assert ErrorFields(status) == [Tlv.Field(Tlv.ERROR_CODE, code), Tlv.Field(Tlv.ERROR_MESSAGE, ErrorText(status))];
  }

  lemma MakesRun(steps: seq<Step>, run: seq<State>)
    requires Makes(steps, run)
    ensures Router.Runs.IsRun(Init, Next, run)
  {
    hide After, Enabled, Init;
    forall i | 0 <= i < |run| - 1 ensures Next(run[i], run[i + 1]) {
      assert Enabled(run[i], steps[i]) && run[i + 1] == After(run[i], steps[i]);
    }
  }

  /** Whoever is answered gets exactly one packet, with the sequence number of their request:
      what the handler's own outcome says, or the error of the step that refused the request. */
  lemma TheAnswerHasItsCause(steps: seq<Step>, run: seq<State>, i: nat, j: nat) returns (k: nat, phase: Phase)
    requires Makes(steps, run) && i < j < |run| && steps[i].Arrive?
    requires var r := steps[i].r; r in run[j].entries ==>
               run[j].entries[r].phase.Done? && !run[j].entries[r].sawClosed && !run[j].entries[r].tooLong
    ensures var r := steps[i].r;
            && i <= k < j && Settles(run[k], steps[k], r, phase)
            && r in run[j].entries && |run[j].entries[r].attempts| == 1
            && IsAnswer(run[j].entries[r].attempts[0], steps[i].packet.header.seqId, phase)
  {
    hide After, Enabled, Settles, Init, ErrorBody, TextFits, IsError;
    var r := steps[i].r;
    k := SettledAt(steps, run, i, j);
    phase := run[k + 1].entries[r].phase;
    MakesRun(steps, run);
    TheAnswerIsSent(run, k + 1, j, r);
    RunsKeep(run, j);
    assert AttemptsOk(run[j].entries[r]);
    if phase.Failing? && TextFits(phase.status) {
      ErrorIsError(phase.status, steps[i].packet.header.seqId);
    }
  }

  /** A handler that replies is heard: the reply is the only packet sent for the request. */
  lemma TheReplyIsSent(steps: seq<Step>, run: seq<State>, i: nat, k: nat, j: nat, t: MessageType, b: Bytes)
    requires Makes(steps, run) && i < k < j < |run| && steps[i].Arrive?
    requires steps[k] == Execute(steps[i].r, false, Replies(t, b))
    requires var r := steps[i].r; r in run[j].entries ==> run[j].entries[r].phase.Done? && !run[j].entries[r].sawClosed
    ensures var r := steps[i].r;
            && r in run[j].entries
            && run[j].entries[r].attempts ==
                 [Packet(PacketHeader(PACKET_MAGIC, PACKET_VERSION, PACKET_FLAGS_NONE, t, steps[i].packet.header.seqId, 0), b)]
  {
    hide Init, ErrorBody, TextFits, ThreadPool.Enabled, ThreadPool.After, Decide;
    var r := steps[i].r;
    var _ := SettledAt(steps, run, i, k);
    var _ := SettledAt(steps, run, i, j);
    MakesRun(steps, run);
    assert run[k + 1] == After(run[k], steps[k]);
    assert run[k + 1].entries[r] == run[k].entries[r].(phase := Responding(t, b));
    SendsOnceAlong(run, k + 1, j);
    MakesInv(steps, run, k);
    assert AttemptsOk(run[k].entries[r]);
  }
}
