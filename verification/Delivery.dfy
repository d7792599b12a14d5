/**
 The message handlers, as a machine in which any number of them run at once.  One step is one
 call of a handler on the storage, the cache, the session table or a receiver's session; what
 a look-up finds, whether a push is accepted and which calls fail are free.
 */
module Delivery {
  import opened Base
  import opened Records
  import opened Storage
  import opened Transactions
  import Conversation
  import Friends
  import Runs

  /** The sender is the user bound to the requesting session. */
  datatype Request =
    | PrivateMessage(sender: UserId, receiver: UserId, text: Bytes, client: Option<Bytes>)
    | GroupMessage(sender: UserId, group: Uint64, text: Bytes)

  /** Where a handler is: the call it makes next, with what it holds. */
  datatype Phase =
    | Asking
    | Looking
    | Storing(receiverOnline: bool)
    | Finding
    | CheckingDelivered(m: MessageRecord)
    | LookingAgain(m: MessageRecord)
    | Pushing(m: MessageRecord)
    | FallingBack(m: MessageRecord)
    | Counting(m: MessageRecord)
    | Gathering
    | Partitioning(at: nat, online: seq<UserId>, offline: seq<UserId>)
    | GroupCounting(m: MessageRecord, left: seq<UserId>, online: seq<UserId>)
    | GroupPushing(m: MessageRecord, left: seq<UserId>)
    | Answered(m: MessageRecord)
    | Failed(error: ErrorCode)

  /** `members` is the member list that a group handler has read. */
  datatype Job = Job(request: Request, members: seq<UserId>, phase: Phase)

  datatype Lookup = Online | Offline | LookupFails(error: ErrorCode)

  /** The unread counter of one user in one conversation. */
  datatype Counter = Counter(user: UserId, conversation: ConversationKey)

  /** `pushed`: pushes that a session accepted.  `counted`: unread increments that Redis
      made.  `unread`: the counters; a missing one is 0.  `clean`: no storage or cache call
      has failed so far. */
  datatype System = System(
    tables: Tables,
    friends: Friends.Tables,
    jobs: map<nat, Job>,
    pushed: set<Slot>,
    counted: multiset<Slot>,
    unread: map<Counter, nat>,
    clean: bool)

  datatype Step =
    | Begin(job: nat, request: Request)
    | AskFriends(job: nat, known: bool, fault: Fault)
    | Look(job: nat, found: Lookup)
    | Store(job: nat, id: MessageId, now: Int64, fault: Fault)
    | Find(job: nat, id: MessageId, fault: Fault)
    | CheckDelivered(job: nat, fault: Fault)
    | LookAgain(job: nat, found: Lookup)
    | Push(job: nat, accepted: bool)
    | FallBack(job: nat, now: Int64, fault: Fault)
    | Count(job: nat, made: bool)
    | Gather(job: nat, known: bool, members: seq<UserId>, fault: Fault)
    | Partition(job: nat, found: Lookup)
    | GroupStore(job: nat, id: MessageId, now: Int64, fault: Fault)
    | GroupCount(job: nat, made: bool)
    | GroupPush(job: nat, refusal: Option<ErrorCode>)
    | AckDelivery(user: UserId, message: MessageId, now: Int64, fault: Fault)
    | AckOffline(user: UserId, ids: seq<MessageId>, now: Int64, fault: Fault)
    | ClearUnread(counter: Counter, made: bool)
    | Befriend(call: Friends.Call, fault: Fault)

  // ---- The handlers --------------------------------------------------------------------------------

  function ClientId(r: Request): (c: Bytes) {
    if r.PrivateMessage? && r.client.Some? then r.client.value else []
  }

  predicate GoodText(text: Bytes) {
    0 < |text| <= MAX_MESSAGE_TEXT_BYTES
  }

  /** The checks on the fields of a request. */
  predicate GoodRequest(r: Request) {
    match r
    case PrivateMessage(sender, receiver, text, client) =>
      && receiver != 0 && receiver != sender && GoodText(text)
      && (client.Some? ==> 0 < |client.value| <= MAX_CLIENT_MESSAGE_ID_BYTES)
    case GroupMessage(_, group, text) => group != 0 && GoodText(text)
  }

  function FirstPhase(r: Request): (p: Phase) {
    if !GoodRequest(r) then Failed(InvalidArgument) else if r.PrivateMessage? then Asking else Gathering
  }

  function PrivateRecord(r: Request): (m: Result<MessageRecord>)
    requires r.PrivateMessage?
  {
    match Conversation.PrivateConversationId(r.sender, r.receiver)
    case Failure(e) => Failure(e)
    case Success(id) =>
      Success(MessageRecord(0, ConversationKey(Private, id), r.sender, r.receiver, r.text, 0, ClientId(r)))
  }

  function GroupRecord(r: Request): (m: MessageRecord)
    requires r.GroupMessage?
  {
    MessageRecord(0, ConversationKey(Group, r.group), r.sender, r.group, r.text, 0, [])
  }

  function ReceiverSlot(m: MessageRecord): (s: Slot) {
    Slot(m.receiverId, m.messageId)
  }

  predicate IsDelivered(t: Tables, s: Slot) {
    s in t.deliveries && t.deliveries[s].status >= DELIVERED
  }

  predicate Distinct(users: seq<UserId>) {
    forall i, j :: 0 <= i < j < |users| ==> users[i] != users[j]
  }

  predicate HasJob(s: System, job: nat) {
    job in s.jobs
  }

  function PhaseOf(s: System, job: nat): (p: Phase)
    requires job in s.jobs
  {
    s.jobs[job].phase
  }

  /** An id that AUTO_INCREMENT can give: never one that a row has. */
  predicate Unused(t: Tables, id: MessageId) {
    id != 0 && id !in t.messages
  }

  predicate Enabled(s: System, e: Step) {
    match e
    case Begin(job, request) => job !in s.jobs && request.sender != 0
    case AskFriends(job, _, _) => HasJob(s, job) && PhaseOf(s, job).Asking? && s.jobs[job].request.PrivateMessage?
    case Look(job, _) => HasJob(s, job) && PhaseOf(s, job).Looking? && s.jobs[job].request.PrivateMessage?
    case Store(job, id, _, _) =>
      HasJob(s, job) && PhaseOf(s, job).Storing? && s.jobs[job].request.PrivateMessage? && Unused(s.tables, id)
    case Find(job, id, fault) =>
      && HasJob(s, job) && PhaseOf(s, job).Finding? && s.jobs[job].request.PrivateMessage?
      && (fault.NoFault? && HasClientId(s.tables, s.jobs[job].request.sender, ClientId(s.jobs[job].request)) ==>
            && id in s.tables.messages
            && Matches(s.tables.messages[id], s.jobs[job].request.sender, ClientId(s.jobs[job].request)))
    case CheckDelivered(job, _) => HasJob(s, job) && PhaseOf(s, job).CheckingDelivered?
    case LookAgain(job, _) => HasJob(s, job) && PhaseOf(s, job).LookingAgain?
    case Push(job, _) => HasJob(s, job) && PhaseOf(s, job).Pushing?
    case FallBack(job, _, _) => HasJob(s, job) && PhaseOf(s, job).FallingBack?
    case Count(job, _) => HasJob(s, job) && PhaseOf(s, job).Counting?
    case Gather(job, _, members, _) =>
      HasJob(s, job) && PhaseOf(s, job).Gathering? && s.jobs[job].request.GroupMessage? && Distinct(members)
    case Partition(job, _) =>
      HasJob(s, job) && PhaseOf(s, job).Partitioning? && PhaseOf(s, job).at < |s.jobs[job].members|
    case GroupStore(job, id, _, _) =>
      && HasJob(s, job) && PhaseOf(s, job).Partitioning? && PhaseOf(s, job).at == |s.jobs[job].members|
      && s.jobs[job].request.GroupMessage? && Unused(s.tables, id)
    case GroupCount(job, _) => HasJob(s, job) && PhaseOf(s, job).GroupCounting?
    case GroupPush(job, _) => HasJob(s, job) && PhaseOf(s, job).GroupPushing?
    case AckDelivery(_, _, _, _) => true
    case AckOffline(_, _, _, _) => true
    case ClearUnread(_, _) => true
    case Befriend(_, _) => true
  }

  function Goto(s: System, job: nat, phase: Phase): (t: System)
    requires job in s.jobs
  {
    s.(jobs := s.jobs[job := s.jobs[job].(phase := phase)])
  }

  function Noting(s: System, fault: Fault): (t: System) {
    s.(clean := s.clean && fault.NoFault?)
  }

  function AfterBegin(s: System, job: nat, request: Request): (t: System) {
    s.(jobs := s.jobs[job := Job(request, [], FirstPhase(request))])
  }

  /** `findUserById`, `areFriends` and the conversation id. */
  function AfterAsking(s: System, job: nat, known: bool, fault: Fault): (t: System)
    requires job in s.jobs && s.jobs[job].request.PrivateMessage?
  {
    var r := s.jobs[job].request;
    if !known then Goto(s, job, Failed(NotFound))
    else if !fault.NoFault? then Goto(Noting(s, fault), job, Failed(fault.error))
    else if Friends.Pair(r.sender, r.receiver) !in s.friends.friendships then Goto(s, job, Failed(InvalidArgument))
    else if PrivateRecord(r).Failure? then Goto(s, job, Failed(PrivateRecord(r).error))
    else Goto(s, job, Looking)
  }

  function AfterLooking(s: System, job: nat, found: Lookup): (t: System)
    requires job in s.jobs
  {
    match found
    case Online => Goto(s, job, Storing(true))
    case Offline => Goto(s, job, Storing(false))
    case LookupFails(e) => Goto(s, job, Failed(e))
  }

  /** `saveMessageWithOfflineRecipients`; an offline receiver gets its row with the message. */
  function AfterStoring(s: System, job: nat, id: MessageId, now: Int64, fault: Fault): (t: System)
    requires job in s.jobs && s.jobs[job].request.PrivateMessage? && s.jobs[job].phase.Storing?
  {
    var r, online := s.jobs[job].request, s.jobs[job].phase.receiverOnline;
    if PrivateRecord(r).Failure? then Goto(s, job, Failed(PrivateRecord(r).error))
    else
      var (tables, result) :=
        Perform(s.tables, Saving(s.tables, PrivateRecord(r).value, if online then [] else [r.receiver], id, now), fault);
      var u := Noting(s.(tables := tables), fault);
      match result
      case Success(m) => Goto(u, job, if online then Pushing(m) else Counting(m))
      case Failure(e) => Goto(u, job, if e.AlreadyExists? && ClientId(r) != [] then Finding else Failed(e))
  }

  /** `findMessageByClientMessageId`, after the insert met the unique key. */
  function AfterFinding(s: System, job: nat, id: MessageId, fault: Fault): (t: System)
    requires job in s.jobs && s.jobs[job].request.PrivateMessage? && Enabled(s, Find(job, id, fault))
  {
    var r := s.jobs[job].request;
    if !fault.NoFault? then Goto(Noting(s, fault), job, Failed(fault.error))
    else if r.sender == 0 || ClientId(r) == [] then Goto(s, job, Failed(InvalidArgument))
    else if !HasClientId(s.tables, r.sender, ClientId(r)) then Goto(s, job, Failed(NotFound))
    else Goto(s, job, CheckingDelivered(s.tables.messages[id]))
  }

  /** `isMessageAlreadyDelivered`: a delivered message is answered without another push. */
  function AfterChecking(s: System, job: nat, fault: Fault): (t: System)
    requires job in s.jobs && s.jobs[job].phase.CheckingDelivered?
  {
    var m := s.jobs[job].phase.m;
    if m.receiverId == 0 || m.messageId == 0 then Goto(s, job, Failed(InvalidArgument))
    else if !fault.NoFault? then Goto(Noting(s, fault), job, Failed(fault.error))
    else Goto(s, job, if IsDelivered(s.tables, ReceiverSlot(m)) then Answered(m) else LookingAgain(m))
  }

  function AfterLookingAgain(s: System, job: nat, found: Lookup): (t: System)
    requires job in s.jobs && s.jobs[job].phase.LookingAgain?
  {
    var m := s.jobs[job].phase.m;
    match found
    case Online => Goto(s, job, Pushing(m))
    case Offline => Goto(s, job, FallingBack(m))
    case LookupFails(e) => Goto(s, job, Failed(e))
  }

  /** `pushPrivateOrFallback`: a closed session or a refused packet leads to the fallback. */
  function AfterPushing(s: System, job: nat, accepted: bool): (t: System)
    requires job in s.jobs && s.jobs[job].phase.Pushing?
  {
    var m := s.jobs[job].phase.m;
    if accepted then Goto(s.(pushed := s.pushed + {ReceiverSlot(m)}), job, Answered(m))
    else Goto(s, job, FallingBack(m))
  }

  /** `ensureOfflineFallback`: a row that is already there is as good as a new one, but only
      a new one is counted. */
  function AfterFallingBack(s: System, job: nat, now: Int64, fault: Fault): (t: System)
    requires job in s.jobs && s.jobs[job].phase.FallingBack?
  {
    var m := s.jobs[job].phase.m;
    var (tables, result) := Perform(s.tables, SavingOffline(s.tables, m.receiverId, m.messageId, now), fault);
    var u := Noting(s.(tables := tables), fault);
    match result
    case Success(_) => Goto(u, job, Counting(m))
    case Failure(e) => Goto(u, job, if e.AlreadyExists? then Answered(m) else Failed(e))
  }

  /** `incrementUnreadForMessage`: a failed increment is only logged. */
  function AfterCounting(s: System, job: nat, made: bool): (t: System)
    requires job in s.jobs && s.jobs[job].phase.Counting?
  {
    var m := s.jobs[job].phase.m;
    Goto(Counted(s, ReceiverSlot(m), m.conversation, made), job, Answered(m))
  }

  function UnreadOf(s: System, c: Counter): (n: nat) {
    if c in s.unread then s.unread[c] else 0
  }

  function Counted(s: System, slot: Slot, conversation: ConversationKey, made: bool): (t: System) {
    var c := Counter(slot.user, conversation);
    if made then s.(counted := s.counted + multiset{slot}, unread := s.unread[c := UnreadOf(s, c) + 1])
    else s.(clean := false)
  }

  /** `findGroupById`, `getGroupMembers` and the membership test. */
  function AfterGathering(s: System, job: nat, known: bool, members: seq<UserId>, fault: Fault): (t: System)
    requires job in s.jobs
  {
    var j := s.jobs[job];
    if !known then Goto(s, job, Failed(NotFound))
    else if !fault.NoFault? then Goto(Noting(s, fault), job, Failed(fault.error))
    else if j.request.sender !in members then Goto(s, job, Failed(InvalidArgument))
    else s.(jobs := s.jobs[job := Job(j.request, members, Partitioning(0, [], []))])
  }

  /** One turn of the loop over the members; the sender is skipped. */
  function AfterPartition(s: System, job: nat, found: Lookup): (t: System)
    requires Enabled(s, Partition(job, found))
  {
    var Job(request, members, Partitioning(at, online, offline)) := s.jobs[job];
    var member := members[at];
    if member == request.sender then Goto(s, job, Partitioning(at + 1, online, offline))
    else
      match found
      case Online => Goto(s, job, Partitioning(at + 1, online + [member], offline))
      case Offline => Goto(s, job, Partitioning(at + 1, online, offline + [member]))
      case LookupFails(e) => Goto(s, job, Failed(e))
  }

  function AfterGroupStoring(s: System, job: nat, id: MessageId, now: Int64, fault: Fault): (t: System)
    requires job in s.jobs && s.jobs[job].request.GroupMessage? && s.jobs[job].phase.Partitioning?
  {
    var Partitioning(_, online, offline) := s.jobs[job].phase;
    var (tables, result) := Perform(s.tables, Saving(s.tables, GroupRecord(s.jobs[job].request), offline, id, now), fault);
    var u := Noting(s.(tables := tables), fault);
    match result
    case Success(m) => Goto(u, job, GroupCounting(m, offline, online))
    case Failure(e) => Goto(u, job, Failed(e))
  }

  function AfterGroupCounting(s: System, job: nat, made: bool): (t: System)
    requires job in s.jobs && s.jobs[job].phase.GroupCounting?
  {
    var GroupCounting(m, left, online) := s.jobs[job].phase;
    if left == [] then Goto(s, job, GroupPushing(m, online))
    else Goto(Counted(s, Slot(left[0], m.messageId), m.conversation, made), job, GroupCounting(m, left[1..], online))
  }

  /** The pushes to the online members; the first refusal fails the request. */
  function AfterGroupPushing(s: System, job: nat, refusal: Option<ErrorCode>): (t: System)
    requires job in s.jobs && s.jobs[job].phase.GroupPushing?
  {
    var GroupPushing(m, left) := s.jobs[job].phase;
    if left == [] then Goto(s, job, Answered(m))
    else if refusal.Some? then Goto(s, job, Failed(refusal.value))
    else Goto(s.(pushed := s.pushed + {Slot(left[0], m.messageId)}), job, GroupPushing(m, left[1..]))
  }

  function AfterAckDelivery(s: System, user: UserId, message: MessageId, now: Int64, fault: Fault): (t: System) {
    Noting(s.(tables := Perform(s.tables, AckingPrivate(s.tables, user, message, now), fault).0), fault)
  }

  /** No change where the tables could not be those of a database. */
  function AfterAckOffline(s: System, user: UserId, ids: seq<MessageId>, now: Int64, fault: Fault): (t: System) {
    if Referenced(s.tables) then
      Noting(s.(tables := Perform(s.tables, Acking(s.tables, user, ids, now), fault).0), fault)
    else s
  }

  /** One `clearUnread` after an ack; a failure is only logged. */
  function AfterClearUnread(s: System, c: Counter, made: bool): (t: System) {
    if made then s.(unread := s.unread - {c}) else s.(clean := false)
  }

  function AfterBefriend(s: System, call: Friends.Call, fault: Fault): (t: System) {
    Noting(s.(friends := Perform(s.friends, Friends.Intended(s.friends, call), fault).0), fault)
  }

  function After(s: System, e: Step): (t: System)
    requires Enabled(s, e)
  {
    match e
    case Begin(job, request) => AfterBegin(s, job, request)
    case AskFriends(job, known, fault) => AfterAsking(s, job, known, fault)
    case Look(job, found) => AfterLooking(s, job, found)
    case Store(job, id, now, fault) => AfterStoring(s, job, id, now, fault)
    case Find(job, id, fault) => AfterFinding(s, job, id, fault)
    case CheckDelivered(job, fault) => AfterChecking(s, job, fault)
    case LookAgain(job, found) => AfterLookingAgain(s, job, found)
    case Push(job, accepted) => AfterPushing(s, job, accepted)
    case FallBack(job, now, fault) => AfterFallingBack(s, job, now, fault)
    case Count(job, made) => AfterCounting(s, job, made)
    case Gather(job, known, members, fault) => AfterGathering(s, job, known, members, fault)
    case Partition(job, found) => AfterPartition(s, job, found)
    case GroupStore(job, id, now, fault) => AfterGroupStoring(s, job, id, now, fault)
    case GroupCount(job, made) => AfterGroupCounting(s, job, made)
    case GroupPush(job, refusal) => AfterGroupPushing(s, job, refusal)
    case AckDelivery(user, message, now, fault) => AfterAckDelivery(s, user, message, now, fault)
    case AckOffline(user, ids, now, fault) => AfterAckOffline(s, user, ids, now, fault)
    case ClearUnread(counter, made) => AfterClearUnread(s, counter, made)
    case Befriend(call, fault) => AfterBefriend(s, call, fault)
  }

  ghost predicate Init(s: System) {
    s == System(Tables(map[], map[], map[]), Friends.Tables(map[], {}), map[], {}, multiset{}, map[], true)
  }

  ghost predicate Next(s: System, t: System) {
    exists e :: Enabled(s, e) && t == After(s, e)
  }
}
