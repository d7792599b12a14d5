/**
 The message router on top of the thread pool: what `route` decides, how responses are
 built, and every interleaving of any number of requests with the pool's own steps.
 */
module Router {
  import opened Base
  import opened ByteOrder
  import opened Packet
  import Runs
  import ThreadPool
  import Tlv

  type MessageType = Uint16
  type RequestId = nat

  const UNKNOWN: MessageType := 0
  const HEARTBEAT_REQUEST: MessageType := 1
  const ERROR_RESPONSE: MessageType := 900

  predicate IsRequestType(t: MessageType) {
    t in {1, 100, 102, 104, 200, 202, 204, 206, 300, 400, 402, 404, 406, 500, 502, 504, 506}
  }

  datatype DispatchMode = Inline | BusinessThread

  datatype Status = Status(code: ErrorCode, message: Bytes)

  function CodeValue(e: ErrorCode): (n: Uint64) {
    match e
    case Ok => 0
    case InvalidArgument => 1
    case NotFound => 2
    case AlreadyExists => 3
    case IoError => 4
    case ParseError => 5
    case ConfigError => 6
    case InternalError => 7
    case ResourceExhausted => 8
  }

  function CodeName(e: ErrorCode): (s: string)
    ensures 0 < |s| <= 17
  {
    match e
    case Ok => "Ok"
    case InvalidArgument => "InvalidArgument"
    case NotFound => "NotFound"
    case AlreadyExists => "AlreadyExists"
    case IoError => "IoError"
    case ParseError => "ParseError"
    case ConfigError => "ConfigError"
    case InternalError => "InternalError"
    case ResourceExhausted => "ResourceExhausted"
  }

  /** The bytes of a text, of which every character is below 128 here. */
  function Ascii(s: string): (b: Bytes)
    ensures |b| == |s|
  {
    seq(|s|, i requires 0 <= i < |s| => (s[i] as int) % 0x100)
  }

  // ---- Responses ----------------------------------------------------------------------------

  function ErrorText(status: Status): (text: Bytes) {
    if status.message == [] then Ascii(CodeName(status.code)) else status.message
  }

  predicate TextFits(status: Status) {
    |status.message| <= Tlv.MAX_TLV_VALUE_LENGTH
  }

  function ErrorFields(status: Status): (fs: seq<Tlv.Field>) {
    [Tlv.Field(Tlv.ERROR_CODE, BE(CodeValue(status.code), 8)), Tlv.Field(Tlv.ERROR_MESSAGE, ErrorText(status))]
  }

  lemma ErrorFieldsFit(status: Status)
    requires TextFits(status)
    ensures Tlv.AllFit(ErrorFields(status))
  {
  }

  /** `sendResponse` fills in the header; the sequence number is the request's. */
  function Stamped(msgType: MessageType, body: Bytes, seqId: Uint64): (p: Packet) {
    Packet(PacketHeader(PACKET_MAGIC, PACKET_VERSION, PACKET_FLAGS_NONE, msgType, seqId, 0), body)
  }

  function ErrorBody(status: Status): (body: Bytes)
    requires TextFits(status)
  {
    ErrorFieldsFit(status);
    Tlv.BodyBytes(ErrorFields(status))
  }

  /** The body of `sendError`; None is its silent return when the text is too long for a TLV. */
  method BuildErrorBody(status: Status) returns (body: Option<Bytes>)
    ensures body.Some? <==> TextFits(status)
    ensures body.Some? ==> body.value == ErrorBody(status)
  {
    var appended, out := Tlv.AppendUint64(Tlv.ERROR_CODE, CodeValue(status.code), []);
    if appended.Failure? {
      return None;
    }
    var message := status.message;
    if message == [] {
      message := Ascii(CodeName(status.code));
    }
    appended, out := Tlv.AppendString(Tlv.ERROR_MESSAGE, message, out);
    if appended.Failure? {
      return None;
    }
    ErrorBodyBytes(status);
    return Some(out);
  }

  lemma ErrorBodyBytes(status: Status)
    requires TextFits(status)
    ensures Tlv.AllFit(ErrorFields(status))
    ensures ErrorBody(status) == [] + Tlv.FieldBytes(ErrorFields(status)[0]) + Tlv.FieldBytes(ErrorFields(status)[1])
  {
    ErrorFieldsFit(status);
    var fs := ErrorFields(status);
    assert fs[1..][1..] == [];
    assert Tlv.BodyBytes(fs[1..]) == Tlv.FieldBytes(fs[1]) + Tlv.BodyBytes([]);
  }

  /** A client reads the code and the text back out of an error response. */
  lemma ErrorReadsBack(status: Status)
    requires TextFits(status)
    ensures Tlv.ParseFields(ErrorBody(status)) == Some(ErrorFields(status))
    ensures Tlv.Column(ErrorFields(status), Tlv.ERROR_MESSAGE) == [ErrorText(status)]
    ensures var codes := Tlv.Column(ErrorFields(status), Tlv.ERROR_CODE);
            |codes| == 1 && |codes[0]| == 8 && Tlv.DecodeNumber(codes[0]) == CodeValue(status.code)
  {
    ErrorFieldsFit(status);
    Tlv.ParseOfPrint(ErrorFields(status));
    var code, text := ErrorFields(status)[0], ErrorFields(status)[1];
    assert ErrorFields(status) == [code] + [text];
    Tlv.ColumnAppend([code], [text], Tlv.ERROR_CODE);
    Tlv.ColumnAppend([code], [text], Tlv.ERROR_MESSAGE);
    hide Tlv.ParseFields, Tlv.BodyBytes;
    Pow256Values();
    FromBEOfBE(CodeValue(status.code), 8);
  }

  // ---- Routing ----------------------------------------------------------------------------------

  datatype Decision = Refuse(status: Status) | RunInline | RunOnPool

  type Handlers = map<MessageType, DispatchMode>

  /** The body is a concatenation of fields whose values fit. */
  ghost predicate WellFormed(body: Bytes) {
    exists fs :: Tlv.AllFit(fs) && Tlv.BodyBytes(fs) == body
  }

  /** A request that some handler takes. */
  ghost predicate Handled(handlers: Handlers, p: Packet, mode: DispatchMode) {
    && IsRequestType(p.header.msgType) && WellFormed(p.body)
    && p.header.msgType in handlers && handlers[p.header.msgType] == mode
  }

  /** A packet that no handler takes, with what it is told. */
  ghost predicate Refused(handlers: Handlers, p: Packet, detail: Bytes, status: Status) {
    var t := p.header.msgType;
    || (!IsRequestType(t) && status == Status(InvalidArgument, Ascii("message type is not a request")))
    || (IsRequestType(t) && !WellFormed(p.body) && status == Status(ParseError, detail))
    || (IsRequestType(t) && WellFormed(p.body) && t !in handlers
        && status == Status(NotFound, Ascii("no message handler registered")))
  }

  /** `detail` is the text that the TLV parser gives its error. */
  function Decide(handlers: Handlers, p: Packet, detail: Bytes): (d: Decision) {
    var t := p.header.msgType;
    if t == UNKNOWN || !IsRequestType(t) then
      Refuse(Status(InvalidArgument, Ascii("message type is not a request")))
    else if Tlv.ParseFields(p.body).None? then Refuse(Status(ParseError, detail))
    else if t !in handlers then Refuse(Status(NotFound, Ascii("no message handler registered")))
    else if handlers[t].Inline? then RunInline
    else RunOnPool
  }

  lemma Decides(handlers: Handlers, p: Packet, detail: Bytes)
    ensures var d := Decide(handlers, p, detail);
            && (d == RunInline <==> Handled(handlers, p, Inline))
            && (d == RunOnPool <==> Handled(handlers, p, BusinessThread))
            && (d.Refuse? ==> Refused(handlers, p, detail, d.status))
  {
    Tlv.ParsesExactlyPrintedBodies(p.body);
    hide Tlv.ParseFields, Tlv.BodyBytes, Ascii, Tlv.AllFit;
  }

  class MessageRouter {
    var handlers: Handlers

    constructor ()
      ensures handlers == map[HEARTBEAT_REQUEST := Inline]
    {
      handlers := map[HEARTBEAT_REQUEST := Inline];
    }

    ghost predicate OnlyRequests()
      reads this
    {
      forall t :: t in handlers ==> IsRequestType(t)
    }

    method RegisterHandler(t: MessageType, empty: bool, mode: DispatchMode) returns (r: Result<()>)
      requires OnlyRequests()
      modifies this
      ensures OnlyRequests()
      ensures r.Success? <==> IsRequestType(t) && !empty
      ensures handlers == if r.Success? then old(handlers)[t := mode] else old(handlers)
    {
      if t == UNKNOWN || !IsRequestType(t) {
        return Failure(InvalidArgument);
      }
      if empty {
        return Failure(InvalidArgument);
      }
      handlers := handlers[t := mode];
      return Success(());
    }

    /** The part of `route` between the closed check and the send, submit or call. */
    method RouteDecision(p: Packet, detail: Bytes) returns (d: Decision)
      ensures d == RunInline <==> Handled(handlers, p, Inline)
      ensures d == RunOnPool <==> Handled(handlers, p, BusinessThread)
      ensures d.Refuse? ==> Refused(handlers, p, detail, d.status)
      ensures d.Refuse? && d.status.code == InvalidArgument <==> !IsRequestType(p.header.msgType)
      ensures d.Refuse? && d.status.code == ParseError <==> IsRequestType(p.header.msgType) && !WellFormed(p.body)
      ensures d.Refuse? && d.status.code == NotFound <==>
                IsRequestType(p.header.msgType) && WellFormed(p.body) && p.header.msgType !in handlers
      ensures d == Decide(handlers, p, detail)
    {
      Tlv.ParsesExactlyPrintedBodies(p.body);
      hide Tlv.ParseFields, Tlv.BodyBytes, Ascii, Tlv.AllFit;
      var t := p.header.msgType;
      if t == UNKNOWN || !IsRequestType(t) {
        return Refuse(Status(InvalidArgument, Ascii("message type is not a request")));
      }
      var fields := Tlv.ParseTlvMap(View(p.body));
      if fields.Failure? {
        return Refuse(Status(fields.error, detail));
      }
      if t !in handlers {
        return Refuse(Status(NotFound, Ascii("no message handler registered")));
      }
      return if handlers[t].Inline? then RunInline else RunOnPool;
    }
  }

  // ---- All requests at once -----------------------------------------------------------------------

  /** What a handler may do: reply, return an error, or throw. */
  datatype HandlerOutcome =
    | Replies(msgType: MessageType, body: Bytes)
    | Fails(status: Status)
    | Throws(what: Option<Bytes>)

  datatype Phase =
    | Submitting
    | Queued
    | Waking
    | Executing
    | Failing(status: Status)
    | Responding(msgType: MessageType, body: Bytes)
    | Done

  /** `ticket`: its number among the pool's accepted tasks.  `attempts`: its calls of
      `sendPacket`.  `sawClosed`: some check found the session closed or gone. */
  datatype Entry = Entry(
    request: Packet, phase: Phase, ticket: Option<nat>, attempts: seq<Packet>, sawClosed: bool, tooLong: bool)

  datatype State = State(pool: ThreadPool.State, handlers: Handlers, entries: map<RequestId, Entry>)

  datatype Step =
    | Register(msgType: MessageType, mode: DispatchMode)
    | Arrive(r: RequestId, packet: Packet, closed: bool, detail: Bytes)
    | Submit(r: RequestId, caller: ThreadPool.Caller)
    | Wake(r: RequestId, closed: bool)
    | Execute(r: RequestId, closed: bool, outcome: HandlerOutcome)
    | Send(r: RequestId, closed: bool)
    | PoolStep(e: ThreadPool.Step)

  predicate HasEntry(s: State, r: RequestId) {
    r in s.entries
  }

  /** What this worker was given has returned: its request is done. */
  predicate TaskReturned(s: State, w: ThreadPool.WorkerId) {
    && w in s.pool.busy && s.pool.busy[w] < |s.pool.accepted|
    && s.pool.accepted[s.pool.busy[w]] in s.entries
    && s.entries[s.pool.accepted[s.pool.busy[w]]].phase.Done?
  }

  predicate Enabled(s: State, e: Step) {
    match e
    case Register(t, _) => IsRequestType(t)
    case Arrive(r, _, _, _) => r !in s.entries
    case Submit(r, caller) => HasEntry(s, r) && s.entries[r].phase.Submitting? && ThreadPool.Idle(s.pool, caller)
    case Wake(r, _) => HasEntry(s, r) && s.entries[r].phase.Waking?
    case Execute(r, _, _) => HasEntry(s, r) && s.entries[r].phase.Executing?
    case Send(r, _) => HasEntry(s, r) && (s.entries[r].phase.Failing? || s.entries[r].phase.Responding?)
    case PoolStep(p) =>
      && ThreadPool.Enabled(s.pool, p) && !p.Submit?
      && (p.Finish? ==> TaskReturned(s, p.worker))
  }

  function With(s: State, r: RequestId, entry: Entry): (t: State) {
    s.(entries := s.entries[r := entry])
  }

  function Arrived(handlers: Handlers, packet: Packet, closed: bool, detail: Bytes): (entry: Entry) {
    if closed then Entry(packet, Done, None, [], true, false)
    else
      var phase := match Decide(handlers, packet, detail)
        case Refuse(status) => Failing(status)
        case RunInline => Executing
        case RunOnPool => Submitting;
      Entry(packet, phase, None, [], false, false)
  }

  function Closed(e: Entry): (f: Entry) {
    e.(phase := Done, sawClosed := true)
  }

  /** `ThreadPool::submit` refuses a stopped pool and a full queue. */
  function Refusal(pool: ThreadPool.State): (status: Status) {
    if !pool.accepting then Status(InvalidArgument, Ascii("thread pool is not accepting new tasks"))
    else Status(ResourceExhausted, Ascii("thread pool pending task queue is full"))
  }

  function Executed(e: Entry, closed: bool, outcome: HandlerOutcome): (f: Entry) {
    if closed then Closed(e)
    else match outcome
      case Replies(msgType, body) => e.(phase := Responding(msgType, body))
      case Fails(status) => e.(phase := Failing(status))
      case Throws(what) =>
        e.(phase := Failing(Status(InternalError, if what.Some? then what.value else Ascii("message handler failed"))))
  }

  function Sent(e: Entry, closed: bool): (f: Entry)
    requires e.phase.Failing? || e.phase.Responding?
  {
    if e.phase.Failing? && !TextFits(e.phase.status) then e.(phase := Done, tooLong := true)
    else if closed then Closed(e)
    else
      var p := if e.phase.Failing? then Stamped(ERROR_RESPONSE, ErrorBody(e.phase.status), e.request.header.seqId)
               else Stamped(e.phase.msgType, e.phase.body, e.request.header.seqId);
      e.(phase := Done, attempts := e.attempts + [p])
  }

  function AfterSubmit(s: State, r: RequestId, caller: ThreadPool.Caller): (t: State)
    requires Enabled(s, Submit(r, caller))
  {
    if ThreadPool.Accepts(s.pool) then
      With(s, r, s.entries[r].(phase := Queued, ticket := Some(|s.pool.accepted|)))
        .(pool := ThreadPool.After(s.pool, ThreadPool.Submit(caller, r)))
    else With(s, r, s.entries[r].(phase := Failing(Refusal(s.pool))))
  }

  function AfterPoolStep(s: State, p: ThreadPool.Step): (t: State)
    requires Enabled(s, PoolStep(p))
  {
    var u := s.(pool := ThreadPool.After(s.pool, p));
    if p.Take? && s.pool.started < |s.pool.accepted| && s.pool.accepted[s.pool.started] in s.entries then
      var r := s.pool.accepted[s.pool.started];
      With(u, r, s.entries[r].(phase := Waking))
    else u
  }

  function After(s: State, e: Step): (t: State)
    requires Enabled(s, e)
  {
    match e
    case Register(t, mode) => s.(handlers := s.handlers[t := mode])
    case Arrive(r, packet, closed, detail) => With(s, r, Arrived(s.handlers, packet, closed, detail))
    case Submit(r, caller) => AfterSubmit(s, r, caller)
    case Wake(r, closed) => With(s, r, if closed then Closed(s.entries[r]) else s.entries[r].(phase := Executing))
    case Execute(r, closed, outcome) => With(s, r, Executed(s.entries[r], closed, outcome))
    case Send(r, closed) => With(s, r, Sent(s.entries[r], closed))
    case PoolStep(p) => AfterPoolStep(s, p)
  }

  ghost predicate Init(s: State) {
    ThreadPool.Init(s.pool) && s.handlers == map[HEARTBEAT_REQUEST := Inline] && s.entries == map[]
  }

  ghost predicate Next(s: State, t: State) {
    exists e :: Enabled(s, e) && t == After(s, e)
  }

  // ---- The invariant -----------------------------------------------------------------------------

  ghost predicate Tickets(s: State) {
    && (forall k :: 0 <= k < |s.pool.accepted| ==>
          s.pool.accepted[k] in s.entries && s.entries[s.pool.accepted[k]].ticket == Some(k))
    && (forall r :: r in s.entries && s.entries[r].ticket.Some? ==>
          s.entries[r].ticket.value < |s.pool.accepted| && s.pool.accepted[s.entries[r].ticket.value] == r)
  }

  /** An answer to this request: its own sequence number in a proper header. */
  predicate Answers(p: Packet, request: Packet) {
    && p.header.seqId == request.header.seqId
    && p.header.magic == PACKET_MAGIC && p.header.version == PACKET_VERSION && p.header.flags == PACKET_FLAGS_NONE
  }

  ghost predicate AttemptsOk(e: Entry) {
    && (forall p :: p in e.attempts ==> Answers(p, e.request))
    && (!e.phase.Done? ==> e.attempts == [] && !e.sawClosed && !e.tooLong)
    && (e.phase.Done? ==> |e.attempts| == if e.sawClosed || e.tooLong then 0 else 1)
  }

  ghost predicate PhaseOk(pool: ThreadPool.State, e: Entry) {
    && (e.ticket.None? ==> !e.phase.Queued? && !e.phase.Waking?)
    && (e.ticket.Some? ==>
          && !e.phase.Submitting?
          && (e.phase.Queued? <==> e.ticket.value >= pool.started)
          && (e.ticket.value in pool.finished ==> e.phase.Done?))
  }

  ghost predicate EntriesOk(s: State) {
    forall r :: r in s.entries ==> AttemptsOk(s.entries[r]) && PhaseOk(s.pool, s.entries[r])
  }

  ghost predicate Inv(s: State) {
    ThreadPool.Inv(s.pool) && Tickets(s) && EntriesOk(s)
  }

  /** A step of one request that leaves the pool and its ticket alone. */
  lemma RequestStepKeeps(s: State, t: State, r: RequestId)
    requires Inv(s) && r in t.entries && t.entries == s.entries[r := t.entries[r]] && t.pool == s.pool
    requires AttemptsOk(t.entries[r]) && PhaseOk(t.pool, t.entries[r])
    requires r in s.entries && t.entries[r].ticket == s.entries[r].ticket
    ensures Inv(t)
  {
    hide ThreadPool.Inv, AttemptsOk, PhaseOk;
  }

  lemma ArriveKeeps(s: State, r: RequestId, packet: Packet, closed: bool, detail: Bytes)
    requires Inv(s) && r !in s.entries
    ensures Inv(With(s, r, Arrived(s.handlers, packet, closed, detail)))
  {
    hide ThreadPool.Inv, Decide;
    var t := With(s, r, Arrived(s.handlers, packet, closed, detail));
    assert Tickets(t);
  }

  lemma OwnStepKeeps(s: State, e: Step)
    requires Inv(s) && Enabled(s, e) && (e.Wake? || e.Execute? || e.Send?)
    ensures Inv(After(s, e))
  {
    hide ThreadPool.Inv, Tickets, ErrorBody, Ascii;
    var t := After(s, e);
    assert AttemptsOk(s.entries[e.r]) && PhaseOk(s.pool, s.entries[e.r]);
    RequestStepKeeps(s, t, e.r);
  }

  lemma SubmitKeeps(s: State, r: RequestId, caller: ThreadPool.Caller)
    requires Inv(s) && Enabled(s, Submit(r, caller))
    ensures Inv(AfterSubmit(s, r, caller))
  {
    hide ThreadPool.Inv, ThreadPool.Enabled, ThreadPool.Accepts, ThreadPool.Idle;
    var t := AfterSubmit(s, r, caller);
    assert AttemptsOk(s.entries[r]) && PhaseOk(s.pool, s.entries[r]);
    if ThreadPool.Accepts(s.pool) {
      SubmitEnabled(s.pool, caller, r);
      ThreadPool.StepKeeps(s.pool, ThreadPool.Submit(caller, r));
      SubmitFrame(s.pool, caller, r);
    } else {
      RequestStepKeeps(s, t, r);
    }
  }

  lemma SubmitEnabled(pool: ThreadPool.State, caller: ThreadPool.Caller, r: RequestId)
    requires ThreadPool.Idle(pool, caller) && ThreadPool.Accepts(pool)
    ensures ThreadPool.Enabled(pool, ThreadPool.Submit(caller, r))
  {
  }

  lemma SubmitFrame(pool: ThreadPool.State, caller: ThreadPool.Caller, r: RequestId)
    requires ThreadPool.Enabled(pool, ThreadPool.Submit(caller, r)) && ThreadPool.Inv(pool)
    ensures var after := ThreadPool.After(pool, ThreadPool.Submit(caller, r));
            && after.accepted == pool.accepted + [r] && after.started == pool.started <= |pool.accepted|
            && after.finished == pool.finished && forall k :: k in pool.finished ==> k < |pool.accepted|
  {
  }

  lemma PoolFrame(pool: ThreadPool.State, p: ThreadPool.Step)
    requires ThreadPool.Enabled(pool, p) && !p.Submit? && ThreadPool.Inv(pool)
    ensures var after := ThreadPool.After(pool, p);
            && after.accepted == pool.accepted
            && after.started == (if p.Take? then pool.started + 1 else pool.started)
            && (p.Take? ==> pool.started < |pool.accepted| && pool.started !in pool.finished)
            && after.finished == (if p.Finish? then pool.finished + {pool.busy[p.worker]} else pool.finished)
  {
    hide ThreadPool.Partition, ThreadPool.NoneStranded, ThreadPool.Calls, ThreadPool.InProgress, ThreadPool.Idle;
  }

  lemma PoolStepKeeps(s: State, p: ThreadPool.Step)
    requires Inv(s) && Enabled(s, PoolStep(p))
    ensures Inv(AfterPoolStep(s, p))
  {
    hide ThreadPool.Inv, ThreadPool.Enabled, ThreadPool.After, AttemptsOk;
    var t := AfterPoolStep(s, p);
    ThreadPool.StepKeeps(s.pool, p);
    PoolFrame(s.pool, p);
    if p.Take? {
      WakingOk(s, t);
    }
    assert Tickets(t);
    forall r | r in t.entries ensures AttemptsOk(t.entries[r]) && PhaseOk(t.pool, t.entries[r]) {
      assert AttemptsOk(s.entries[r]) && PhaseOk(s.pool, s.entries[r]);
    }
  }

  /** The request whose task a worker takes was queued. */
  lemma WakingOk(s: State, t: State)
    requires Tickets(s) && EntriesOk(s) && s.pool.started < |s.pool.accepted|
    ensures var r := s.pool.accepted[s.pool.started];
            && r in s.entries && s.entries[r].phase.Queued? && s.entries[r].ticket == Some(s.pool.started)
            && AttemptsOk(s.entries[r].(phase := Waking))
  {
  }

  lemma StepKeeps(s: State, e: Step)
    requires Inv(s) && Enabled(s, e)
    ensures Inv(After(s, e))
  {
    hide Inv, AfterSubmit, AfterPoolStep, Arrived;
    match e {
      case Register(_, _) => RegisterKeeps(s, e);
      case Arrive(r, packet, closed, detail) => ArriveKeeps(s, r, packet, closed, detail);
      case Submit(r, caller) => SubmitKeeps(s, r, caller);
      case PoolStep(p) => PoolStepKeeps(s, p);
      case _ => OwnStepKeeps(s, e);
    }
  }

  lemma RegisterKeeps(s: State, e: Step)
    requires Inv(s) && Enabled(s, e) && e.Register?
    ensures Inv(After(s, e))
  {
    hide ThreadPool.Inv, AttemptsOk, PhaseOk;
  }

  lemma RunsKeep(run: seq<State>, i: nat)
    requires Runs.IsRun(Init, Next, run) && i < |run|
    ensures Inv(run[i])
  {
    forall s | Init(s) ensures Inv(s) {
      ThreadPool.InitKeeps(s.pool);
    }
    forall s, t | Inv(s) && Next(s, t) ensures Inv(t) {
      var e :| Enabled(s, e) && t == After(s, e);
      StepKeeps(s, e);
    }
    hide Init, Next, Inv;
    Runs.Invariance(Init, Next, Inv, run);
  }

  // ---- The theorems --------------------------------------------------------------------------------

  /** On every path, a request has at most one send attempt, and it carries its own
      sequence number. */
  lemma AtMostOneResponse(run: seq<State>, i: nat, r: RequestId)
    requires Runs.IsRun(Init, Next, run) && i < |run| && r in run[i].entries
    ensures |run[i].entries[r].attempts| <= 1
    ensures forall p :: p in run[i].entries[r].attempts ==> Answers(p, run[i].entries[r].request)
  {
    hide Init, Next, ThreadPool.Inv;
    RunsKeep(run, i);
    assert AttemptsOk(run[i].entries[r]);
  }

  /** Once its routing call has returned and the pool has drained, a request has exactly one
      send attempt, unless its session was seen closed or its error text was too long. */
  lemma ExactlyOneAfterDrain(run: seq<State>, i: nat, r: RequestId)
    requires Runs.IsRun(Init, Next, run) && i < |run| && r in run[i].entries
    requires ThreadPool.AllFinished(run[i].pool)
    requires run[i].entries[r].ticket.Some? || run[i].entries[r].phase.Done?
    ensures |run[i].entries[r].attempts| == if run[i].entries[r].sawClosed || run[i].entries[r].tooLong then 0 else 1
  {
    hide Init, Next, ThreadPool.Inv;
    RunsKeep(run, i);
    assert AttemptsOk(run[i].entries[r]) && PhaseOk(run[i].pool, run[i].entries[r]);
  }

  /** A stop of the pool that has returned leaves no accepted request unanswered. */
  lemma StoppedPoolHasAnswered(run: seq<State>, i: nat, r: RequestId)
    requires Runs.IsRun(Init, Next, run) && i < |run| && r in run[i].entries
    requires !run[i].pool.accepting && run[i].pool.workers == {}
    requires run[i].entries[r].ticket.Some? && !run[i].entries[r].sawClosed && !run[i].entries[r].tooLong
    ensures |run[i].entries[r].attempts| == 1
  {
    hide Init, Next;
    RunsKeep(run, i);
    ThreadPool.DrainedWhenStopReturns(run[i].pool, 0);
    ExactlyOneAfterDrain(run, i, r);
  }

  /** An entry that is to be sent stays as it is until its one send; then it never changes. */
  ghost predicate SendsOnce(s: State, t: State) {
    forall r :: r in s.entries && (s.entries[r].phase.Failing? || s.entries[r].phase.Responding? || s.entries[r].phase.Done?) ==>
      && r in t.entries
      && (t.entries[r] == s.entries[r]
          || (!s.entries[r].phase.Done? && (t.entries[r] == Sent(s.entries[r], true) || t.entries[r] == Sent(s.entries[r], false))))
  }

  lemma SendsOnceTransitive(s: State, t: State, u: State)
    requires SendsOnce(s, t) && SendsOnce(t, u)
    ensures SendsOnce(s, u)
  {
    hide ErrorBody, TextFits;
    forall r | r in s.entries && (s.entries[r].phase.Failing? || s.entries[r].phase.Responding? || s.entries[r].phase.Done?)
      ensures r in u.entries
      ensures u.entries[r] == s.entries[r]
          || (!s.entries[r].phase.Done? && (u.entries[r] == Sent(s.entries[r], true) || u.entries[r] == Sent(s.entries[r], false)))
    {
      assert r in t.entries && (t.entries[r].phase.Failing? || t.entries[r].phase.Responding? || t.entries[r].phase.Done?);
    }
  }

  lemma StepSendsOnce(s: State, e: Step)
    requires Inv(s) && Enabled(s, e)
    ensures SendsOnce(s, After(s, e))
  {
    hide ThreadPool.Inv, ThreadPool.Enabled, ThreadPool.After, ErrorBody, TextFits, AttemptsOk, Decide, Ascii;
    if e.PoolStep? {
      PoolFrame(s.pool, e.e);
      if e.e.Take? {
        WakingOk(s, After(s, e));
      }
    }
  }

  lemma SendsOnceAlong(run: seq<State>, i: nat, j: nat)
    requires Runs.IsRun(Init, Next, run) && i <= j < |run|
    ensures SendsOnce(run[i], run[j])
  {
    forall s | Init(s) ensures Inv(s) {
      ThreadPool.InitKeeps(s.pool);
    }
    forall s, t | Inv(s) && Next(s, t) ensures Inv(t) && SendsOnce(s, t) {
      var e :| Enabled(s, e) && t == After(s, e);
      StepKeeps(s, e);
      StepSendsOnce(s, e);
    }
    forall s, t, u | SendsOnce(s, t) && SendsOnce(t, u) ensures SendsOnce(s, u) {
      SendsOnceTransitive(s, t, u);
    }
    forall s ensures SendsOnce(s, s) {
    }
    hide Init, Next, Inv, SendsOnce;
    Runs.Progress(Init, Next, Inv, SendsOnce, run, i, j);
  }

  /** What a request was refused, failed or replied with is what its client is sent. */
  lemma TheAnswerIsSent(run: seq<State>, i: nat, j: nat, r: RequestId)
    requires Runs.IsRun(Init, Next, run) && i <= j < |run|
    requires r in run[i].entries && (run[i].entries[r].phase.Failing? || run[i].entries[r].phase.Responding?)
    requires r in run[j].entries && run[j].entries[r].phase.Done?
    requires !run[j].entries[r].sawClosed && !run[j].entries[r].tooLong
    ensures run[j].entries[r].attempts ==
      match run[i].entries[r].phase
      case Failing(status) =>
        if TextFits(status) then [Stamped(ERROR_RESPONSE, ErrorBody(status), run[i].entries[r].request.header.seqId)] else []
      case Responding(msgType, body) => [Stamped(msgType, body, run[i].entries[r].request.header.seqId)]
      case _ => []
  {
    hide Init, Next, ErrorBody, TextFits, ThreadPool.Inv;
    RunsKeep(run, i);
    assert AttemptsOk(run[i].entries[r]);
    SendsOnceAlong(run, i, j);
  }
}
