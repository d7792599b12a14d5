/** What holds in every run of the message handlers. */
module DeliveryRuns {
  import opened Base
  import opened Records
  import opened Storage
  import opened Transactions
  import opened Delivery
  import Conversation
  import Friends
  import MessageFields
  import Packet
  import Runs
  import Tlv

  // ---- The invariant -----------------------------------------------------------------------------

  ghost predicate Stored(t: Tables, m: MessageRecord) {
    m.messageId in t.messages && t.messages[m.messageId] == m
  }

  /** A recipient is covered: an accepted push, an offline row, or a delivered state. */
  ghost predicate Covered(s: System, slot: Slot) {
    slot in s.pushed || slot in s.tables.offline || IsDelivered(s.tables, slot)
  }

  predicate AreFriends(f: Friends.Tables, a: UserId, b: UserId) {
    Friends.Pair(a, b) in f.friendships
  }

  /** What the handlers let into the messages table. */
  ghost predicate MessageOk(f: Friends.Tables, m: MessageRecord) {
    && 0 < |m.text| <= MAX_MESSAGE_TEXT_BYTES && |m.clientMsgId| <= MAX_CLIENT_MESSAGE_ID_BYTES
    && match m.conversation.kind
       case Private =>
         && AreFriends(f, m.senderId, m.receiverId)
         && Conversation.PrivateConversationId(m.senderId, m.receiverId) == Success(m.conversation.id)
       case Group => m.clientMsgId == []
  }

  ghost predicate MessagesOk(s: System) {
    forall id :: id in s.tables.messages ==> MessageOk(s.friends, s.tables.messages[id])
  }

  ghost predicate TablesOk(s: System) {
    Consistent(s.tables) && Friends.Inv(s.friends) && MessagesOk(s)
  }

  /** The message is the requested one, field by field; only its id and time are not given. */
  ghost predicate AsRequested(r: Request, m: MessageRecord) {
    && m.senderId == r.sender && m.text == r.text && m.clientMsgId == ClientId(r)
    && match r
       case PrivateMessage(sender, receiver, _, _) =>
         && m.receiverId == receiver && m.conversation.kind.Private?
         && Conversation.PrivateConversationId(sender, receiver) == Success(m.conversation.id)
       case GroupMessage(_, group, _) =>
         m.receiverId == group && m.conversation == ConversationKey(Group, group)
  }

  /** A stored private message that answers this request: the requested one, or, under a
      client id, the one that has this id. */
  ghost predicate Mine(t: Tables, r: Request, m: MessageRecord) {
    && r.PrivateMessage? && Stored(t, m)
    && m.senderId == r.sender && m.clientMsgId == ClientId(r) && m.conversation.kind.Private?
    && (ClientId(r) == [] ==> AsRequested(r, m))
  }

  ghost predicate MineInGroup(t: Tables, r: Request, m: MessageRecord) {
    r.GroupMessage? && Stored(t, m) && AsRequested(r, m)
  }

  ghost predicate OthersCovered(s: System, j: Job, m: MessageRecord, except: seq<UserId>) {
    forall u :: u in j.members && u != j.request.sender ==> u in except || Covered(s, Slot(u, m.messageId))
  }

  ghost predicate AnsweredOk(s: System, j: Job, m: MessageRecord) {
    if j.request.PrivateMessage? then Mine(s.tables, j.request, m) && Covered(s, ReceiverSlot(m))
    else MineInGroup(s.tables, j.request, m) && OthersCovered(s, j, m, [])
  }

  /** The two lists hold every member up to `at` but the sender: each in one of them, once. */
  ghost predicate Split(j: Job, at: nat, online: seq<UserId>, offline: seq<UserId>) {
    && at <= |j.members| && Distinct(j.members) && Distinct(online) && Distinct(offline)
    && (forall u :: u in online || u in offline <==> u in j.members[..at] && u != j.request.sender)
    && (forall u :: u in online ==> u !in offline)
  }

  ghost predicate JobOk(s: System, j: Job) {
    && j.request.sender != 0
    && (!j.phase.Failed? ==> GoodRequest(j.request))
    && match j.phase
       case Asking => j.request.PrivateMessage?
       case Looking => FriendsOk(s, j.request)
       case Storing(_) => FriendsOk(s, j.request)
       case Finding => j.request.PrivateMessage? && ClientId(j.request) != []
       case CheckingDelivered(m) => Mine(s.tables, j.request, m)
       case LookingAgain(m) => Mine(s.tables, j.request, m)
       case Pushing(m) => Mine(s.tables, j.request, m)
       case FallingBack(m) => Mine(s.tables, j.request, m)
       case Counting(m) => Mine(s.tables, j.request, m) && ReceiverSlot(m) in s.tables.offline
       case Gathering => j.request.GroupMessage?
       case Partitioning(at, online, offline) => j.request.GroupMessage? && Split(j, at, online, offline)
       case GroupCounting(m, left, online) =>
         && MineInGroup(s.tables, j.request, m) && Distinct(left)
         && (forall u :: u in left ==> Slot(u, m.messageId) in s.tables.offline)
         && OthersCovered(s, j, m, online)
       case GroupPushing(m, left) => MineInGroup(s.tables, j.request, m) && OthersCovered(s, j, m, left)
       case Answered(m) => AnsweredOk(s, j, m)
       case Failed(_) => true
  }

  ghost predicate FriendsOk(s: System, r: Request) {
    r.PrivateMessage? && AreFriends(s.friends, r.sender, r.receiver) && PrivateRecord(r).Success?
  }

  ghost predicate JobsOk(s: System) {
    forall k :: k in s.jobs ==> JobOk(s, s.jobs[k])
  }

  /** The increments that a handler still has to make for rows it has created. */
  function Owes(j: Job): (slots: set<Slot>) {
    match j.phase
    case Counting(m) => {ReceiverSlot(m)}
    case GroupCounting(m, left, _) => SlotsOf(left, m.messageId)
    case _ => {}
  }

  ghost predicate OwedOnce(s: System) {
    forall a, b :: a in s.jobs && b in s.jobs && a != b ==> Owes(s.jobs[a]) !! Owes(s.jobs[b])
  }

  ghost predicate OwedNotCounted(s: System) {
    forall a, x :: a in s.jobs && x in Owes(s.jobs[a]) ==> x in s.tables.offline && x !in s.counted
  }

  ghost predicate CountedOnce(s: System) {
    forall x :: x in s.counted ==> s.counted[x] == 1 && x in s.tables.offline
  }

  ghost predicate IsOwed(s: System, x: Slot) {
    exists a :: a in s.jobs && x in Owes(s.jobs[a])
  }

  ghost predicate AllAccounted(s: System) {
    s.clean ==> forall x :: x in s.tables.offline ==> x in s.counted || IsOwed(s, x)
  }

  ghost predicate Ledger(s: System) {
    OwedOnce(s) && OwedNotCounted(s) && CountedOnce(s) && AllAccounted(s)
  }

  ghost predicate Inv(s: System) {
    TablesOk(s) && JobsOk(s) && Ledger(s)
  }

  // ---- What a step keeps ---------------------------------------------------------------------------

  ghost predicate Grows(s: System, t: System) {
    Advances(s.tables, t.tables) && Friends.Grows(s.friends, t.friends) && s.pushed <= t.pushed
  }

  ghost predicate OnlyJob(s: System, t: System, k: nat) {
    k in t.jobs && t.jobs == s.jobs[k := t.jobs[k]]
  }

  lemma CoveredStays(s: System, t: System, slot: Slot)
    requires Grows(s, t) && Covered(s, slot)
    ensures Covered(t, slot)
  {
  }

  lemma JobStaysOk(s: System, t: System, j: Job)
    requires JobOk(s, j) && Grows(s, t)
    ensures JobOk(t, j)
  {
    hide Advances, IsDelivered, Covered;
    forall slot | Covered(s, slot) ensures Covered(t, slot) {
      CoveredStays(s, t, slot);
    }
    StoredStays(s, t);
  }

  lemma StoredStays(s: System, t: System)
    requires Grows(s, t)
    ensures forall m :: Stored(s.tables, m) ==> Stored(t.tables, m)
    ensures s.tables.offline.Keys <= t.tables.offline.Keys
  {
  }

  lemma JobsStayOk(s: System, t: System, k: nat)
    requires JobsOk(s) && Grows(s, t) && OnlyJob(s, t, k) && JobOk(t, t.jobs[k])
    ensures JobsOk(t)
  {
    hide JobOk, Grows;
    forall a | a in t.jobs ensures JobOk(t, t.jobs[a]) {
      if a != k {
        JobStaysOk(s, t, s.jobs[a]);
      }
    }
  }

  // ---- The ledger of increments -------------------------------------------------------------------

  function OwedBy(s: System, k: nat): (slots: set<Slot>) {
    if k in s.jobs then Owes(s.jobs[k]) else {}
  }

  /** No rows, no increments: what handler k owes stays. */
  lemma LedgerRests(s: System, t: System, k: nat)
    requires Ledger(s) && OnlyJob(s, t, k) && OwedBy(t, k) == OwedBy(s, k)
    requires t.tables.offline.Keys == s.tables.offline.Keys && t.counted == s.counted && (t.clean ==> s.clean)
    ensures Ledger(t)
  {
    hide Owes;
    forall x | IsOwed(s, x) ensures IsOwed(t, x) {
      var a :| a in s.jobs && x in Owes(s.jobs[a]);
      assert a in t.jobs && x in Owes(t.jobs[a]);
    }
  }

  /** New rows: handler k owes an increment for each, or a failure has been noted. */
  lemma LedgerGrows(s: System, t: System, k: nat, rows: set<Slot>)
    requires Ledger(s) && OnlyJob(s, t, k) && OwedBy(s, k) == {}
    requires t.tables.offline.Keys == s.tables.offline.Keys + rows && rows !! s.tables.offline.Keys
    requires OwedBy(t, k) <= rows && (t.clean ==> s.clean && OwedBy(t, k) == rows)
    requires t.counted == s.counted
    ensures Ledger(t)
  {
    hide Owes;
    forall x | IsOwed(s, x) ensures IsOwed(t, x) {
      var a :| a in s.jobs && x in Owes(s.jobs[a]);
      assert a in t.jobs && x in Owes(t.jobs[a]);
    }
    forall x | x in OwedBy(t, k) ensures IsOwed(t, x) {
    }
  }

  /** An increment is made, or its failure is noted. */
  lemma LedgerPays(s: System, t: System, k: nat, x: Slot, made: bool)
    requires Ledger(s) && OnlyJob(s, t, k) && x in OwedBy(s, k) && OwedBy(t, k) == OwedBy(s, k) - {x}
    requires t.tables.offline.Keys == s.tables.offline.Keys
    requires t.counted == if made then s.counted + multiset{x} else s.counted
    requires t.clean ==> s.clean && made
    ensures Ledger(t)
  {
    hide Owes;
    PaidOnce(s, t, k, x);
    hide OwedOnce, OwedNotCounted;
    forall y | IsOwed(s, y) && y != x ensures IsOwed(t, y) {
      var a :| a in s.jobs && y in Owes(s.jobs[a]);
      assert a in t.jobs && y in Owes(t.jobs[a]);
    }
  }

  lemma PaidOnce(s: System, t: System, k: nat, x: Slot)
    requires OwedOnce(s) && OwedNotCounted(s) && OnlyJob(s, t, k)
    requires x in OwedBy(s, k) && OwedBy(t, k) == OwedBy(s, k) - {x}
    requires t.tables.offline.Keys == s.tables.offline.Keys
    requires t.counted == s.counted + multiset{x} || t.counted == s.counted
    ensures OwedOnce(t) && OwedNotCounted(t)
    ensures x in s.tables.offline && x !in s.counted
  {
    hide Owes;
  }

  // ---- The steps, one by one -----------------------------------------------------------------------

  ghost predicate Kept(s: System, t: System, k: nat) {
    && Grows(s, t) && TablesOk(t) && OnlyJob(s, t, k) && JobOk(t, t.jobs[k]) && Ledger(t)
    && (k in s.jobs ==> t.jobs[k].request == s.jobs[k].request)
  }

  /** The part of the invariant that concerns one handler. */
  ghost predicate Ready(s: System, job: nat) {
    TablesOk(s) && Ledger(s) && job in s.jobs && JobOk(s, s.jobs[job])
  }

  /** A step that leaves the tables alone. */
  lemma Quiet(s: System, t: System)
    requires TablesOk(s) && t.tables == s.tables && t.friends == s.friends && s.pushed <= t.pushed
    ensures Grows(s, t) && TablesOk(t)
  {
  }

  lemma BeginKeeps(s: System, job: nat, request: Request)
    requires TablesOk(s) && Ledger(s) && job !in s.jobs && request.sender != 0
    ensures Kept(s, AfterBegin(s, job, request), job)
  {
    hide Ledger, TablesOk, Grows;
    var t := AfterBegin(s, job, request);
    Quiet(s, t);
    LedgerRests(s, t, job);
  }

  lemma AskingKeeps(s: System, job: nat, known: bool, fault: Fault)
    requires Ready(s, job) && s.jobs[job].phase.Asking?
    ensures Kept(s, AfterAsking(s, job, known, fault), job)
  {
    hide Ledger, TablesOk, Grows, PrivateRecord;
    var t := AfterAsking(s, job, known, fault);
    Quiet(s, t);
    LedgerRests(s, t, job);
  }

  lemma LookingKeeps(s: System, job: nat, found: Lookup)
    requires Ready(s, job) && s.jobs[job].phase.Looking?
    ensures Kept(s, AfterLooking(s, job, found), job)
  {
    hide Ledger, TablesOk, Grows, PrivateRecord;
    var t := AfterLooking(s, job, found);
    Quiet(s, t);
    LedgerRests(s, t, job);
  }

  lemma FindingKeeps(s: System, job: nat, id: MessageId, fault: Fault)
    requires Ready(s, job) && Enabled(s, Find(job, id, fault))
    ensures Kept(s, AfterFinding(s, job, id, fault), job)
  {
    hide Ledger, TablesOk, Grows, PrivateRecord, AsRequested, GoodRequest;
    var t := AfterFinding(s, job, id, fault);
    Quiet(s, t);
    LedgerRests(s, t, job);
    RowsUnderClientIds(s);
  }

  lemma RowsUnderClientIds(s: System)
    requires TablesOk(s)
    ensures forall id :: id in s.tables.messages ==> Stored(s.tables, s.tables.messages[id])
    ensures forall id :: id in s.tables.messages && s.tables.messages[id].clientMsgId != [] ==>
              s.tables.messages[id].conversation.kind.Private?
  {
    hide Friends.Inv, RowsAgree;
    forall id | id in s.tables.messages ensures MessageOk(s.friends, s.tables.messages[id]) {
    }
  }

  lemma CheckingKeeps(s: System, job: nat, fault: Fault)
    requires Ready(s, job) && s.jobs[job].phase.CheckingDelivered?
    ensures Kept(s, AfterChecking(s, job, fault), job)
    ensures AfterChecking(s, job, fault).jobs[job].phase.Answered? ==>
              IsDelivered(s.tables, ReceiverSlot(s.jobs[job].phase.m))
  {
    hide Ledger, TablesOk, Grows, PrivateRecord;
    var t := AfterChecking(s, job, fault);
    Quiet(s, t);
    LedgerRests(s, t, job);
  }

  lemma LookingAgainKeeps(s: System, job: nat, found: Lookup)
    requires Ready(s, job) && s.jobs[job].phase.LookingAgain?
    ensures Kept(s, AfterLookingAgain(s, job, found), job)
  {
    hide Ledger, TablesOk, Grows, PrivateRecord;
    var t := AfterLookingAgain(s, job, found);
    Quiet(s, t);
    LedgerRests(s, t, job);
  }

  lemma PushingKeeps(s: System, job: nat, accepted: bool)
    requires Ready(s, job) && s.jobs[job].phase.Pushing?
    ensures Kept(s, AfterPushing(s, job, accepted), job)
  {
    hide Ledger, TablesOk, Grows, PrivateRecord;
    var t := AfterPushing(s, job, accepted);
    Quiet(s, t);
    LedgerRests(s, t, job);
  }

  lemma CountingKeeps(s: System, job: nat, made: bool)
    requires Ready(s, job) && s.jobs[job].phase.Counting?
    ensures Kept(s, AfterCounting(s, job, made), job)
  {
    hide Ledger, TablesOk, Grows, PrivateRecord;
    var t := AfterCounting(s, job, made);
    Quiet(s, t);
    LedgerPays(s, t, job, ReceiverSlot(s.jobs[job].phase.m), made);
  }

  lemma GatheringKeeps(s: System, job: nat, known: bool, members: seq<UserId>, fault: Fault)
    requires Ready(s, job) && s.jobs[job].phase.Gathering? && Distinct(members)
    ensures Kept(s, AfterGathering(s, job, known, members, fault), job)
  {
    hide Ledger, TablesOk, Grows, PrivateRecord;
    var t := AfterGathering(s, job, known, members, fault);
    Quiet(s, t);
    LedgerRests(s, t, job);
  }

  lemma PartitionKeeps(s: System, job: nat, found: Lookup)
    requires Ready(s, job) && Enabled(s, Partition(job, found))
    ensures Kept(s, AfterPartition(s, job, found), job)
  {
    hide Ledger, TablesOk, Grows, PrivateRecord;
    var t := AfterPartition(s, job, found);
    Quiet(s, t);
    LedgerRests(s, t, job);
    var Job(request, members, Partitioning(at, online, offline)) := s.jobs[job];
    SplitOneMore(s.jobs[job], at, online, offline);
  }

  lemma SplitOneMore(j: Job, at: nat, online: seq<UserId>, offline: seq<UserId>)
    requires Split(j, at, online, offline) && at < |j.members|
    ensures j.members[at] == j.request.sender ==> Split(j, at + 1, online, offline)
    ensures j.members[at] != j.request.sender ==>
              Split(j, at + 1, online + [j.members[at]], offline) && Split(j, at + 1, online, offline + [j.members[at]])
  {
    assert j.members[..at + 1] == j.members[..at] + [j.members[at]];
    assert j.members[at] !in j.members[..at];
  }

  lemma SlotsTail(left: seq<UserId>, id: MessageId)
    requires left != [] && Distinct(left)
    ensures Distinct(left[1..]) && forall u :: u in left[1..] ==> u in left
    ensures Slot(left[0], id) in SlotsOf(left, id)
    ensures SlotsOf(left, id) - {Slot(left[0], id)} == SlotsOf(left[1..], id)
  {
    assert left == [left[0]] + left[1..];
    assert left[0] !in left[1..];
  }

  lemma GroupCountingKeeps(s: System, job: nat, made: bool)
    requires Ready(s, job) && s.jobs[job].phase.GroupCounting?
    ensures Kept(s, AfterGroupCounting(s, job, made), job)
  {
    hide Ledger, TablesOk, Grows, PrivateRecord, SlotsOf, GoodRequest, Covered;
    var t := AfterGroupCounting(s, job, made);
    Quiet(s, t);
    var GroupCounting(m, left, online) := s.jobs[job].phase;
    if left == [] {
      FewSlots(0, m.messageId);
      LedgerRests(s, t, job);
    } else {
      SlotsTail(left, m.messageId);
      LedgerPays(s, t, job, Slot(left[0], m.messageId), made);
    }
    OthersStayCovered(s, t, s.jobs[job], m, online);
  }

  lemma OthersStayCovered(s: System, t: System, j: Job, m: MessageRecord, except: seq<UserId>)
    requires Grows(s, t) && OthersCovered(s, j, m, except)
    ensures OthersCovered(t, j, m, except)
  {
    hide Grows, Covered;
    forall u | u in j.members && u != j.request.sender && u !in except ensures Covered(t, Slot(u, m.messageId)) {
      CoveredStays(s, t, Slot(u, m.messageId));
    }
  }

  lemma GroupPushingKeeps(s: System, job: nat, refusal: Option<ErrorCode>)
    requires Ready(s, job) && s.jobs[job].phase.GroupPushing?
    ensures Kept(s, AfterGroupPushing(s, job, refusal), job)
  {
    hide Ledger, TablesOk, Grows, PrivateRecord;
    var t := AfterGroupPushing(s, job, refusal);
    Quiet(s, t);
    LedgerRests(s, t, job);
    var GroupPushing(m, left) := s.jobs[job].phase;
    assert left != [] ==> left == [left[0]] + left[1..];
  }

  lemma SavedRows(s: System, m: MessageRecord, users: seq<UserId>, id: MessageId, now: Int64)
    requires TablesOk(s) && Unused(s.tables, id) && Saving(s.tables, m, users, id, now).Success? && m.receiverId != 0
    ensures var t, saved := Saving(s.tables, m, users, id, now).value.tables, Saving(s.tables, m, users, id, now).value.value;
            && t.offline.Keys == s.tables.offline.Keys + SlotsOf(users, id)
            && SlotsOf(users, id) !! s.tables.offline.Keys
            && t.messages == s.tables.messages[id := saved]
            && saved == m.(messageId := id, createdAtMs := saved.createdAtMs)
  {
  }

  lemma SavedKeeps(s: System, m: MessageRecord, users: seq<UserId>, id: MessageId, now: Int64)
    requires TablesOk(s) && Unused(s.tables, id) && Saving(s.tables, m, users, id, now).Success?
    requires MessageOk(s.friends, m) && m.receiverId != 0
    ensures TablesOk(s.(tables := Saving(s.tables, m, users, id, now).value.tables))
    ensures Grows(s, s.(tables := Saving(s.tables, m, users, id, now).value.tables))
  {
    hide Consistent, Advances, Saving;
    SavingKeeps(s.tables, m, users, id, now);
    SavedRows(s, m, users, id, now);
    var saved := Saving(s.tables, m, users, id, now).value.value;
    assert MessageOk(s.friends, saved);
  }

  /** A storage call that did not change the tables, or changed them and is to be reported. */
  predicate Applies<V, T>(intended: Result<Effect<V, T>>, fault: Fault) {
    intended.Success? && !fault.Broken? && (fault.CommitLost? ==> fault.applied)
  }

  lemma PrivateRecordOk(s: System, r: Request)
    requires FriendsOk(s, r) && GoodRequest(r)
    ensures var m := PrivateRecord(r).value;
            && MessageOk(s.friends, m) && m.conversation.kind.Private? && AsRequested(r, m)
            && m.senderId == r.sender && m.receiverId == r.receiver != 0 && m.clientMsgId == ClientId(r)
  {
  }

  /** What the private handler asks the storage to save. */
  function PrivateSaving(s: System, job: nat, id: MessageId, now: Int64): (r: Result<Effect<MessageRecord, Tables>>)
    requires job in s.jobs && s.jobs[job].phase.Storing? && s.jobs[job].request.PrivateMessage?
    requires PrivateRecord(s.jobs[job].request).Success?
  {
    var r := s.jobs[job].request;
    Saving(s.tables, PrivateRecord(r).value, if s.jobs[job].phase.receiverOnline then [] else [r.receiver], id, now)
  }

  lemma StoringRests(s: System, job: nat, id: MessageId, now: Int64, fault: Fault)
    requires Ready(s, job) && s.jobs[job].phase.Storing? && Unused(s.tables, id)
    requires !Applies(PrivateSaving(s, job, id, now), fault)
    ensures Kept(s, AfterStoring(s, job, id, now, fault), job)
  {
    hide Ledger, TablesOk, Grows, PrivateRecord, Saving, GoodRequest;
    var t := AfterStoring(s, job, id, now, fault);
    Quiet(s, t);
    LedgerRests(s, t, job);
  }

  lemma StoringSaves(s: System, job: nat, id: MessageId, now: Int64, fault: Fault)
    requires Ready(s, job) && s.jobs[job].phase.Storing? && Unused(s.tables, id)
    requires Applies(PrivateSaving(s, job, id, now), fault)
    ensures Kept(s, AfterStoring(s, job, id, now, fault), job)
  {
    hide Ledger, TablesOk, Grows, PrivateRecord, Saving, GoodRequest, MessageOk, SlotsOf;
    var r := s.jobs[job].request;
    var users := if s.jobs[job].phase.receiverOnline then [] else [r.receiver];
    PrivateRecordOk(s, r);
    var m := PrivateRecord(r).value;
    var t := AfterStoring(s, job, id, now, fault);
    SavedKeeps(s, m, users, id, now);
    SavedRows(s, m, users, id, now);
    Settles(s, s.(tables := PrivateSaving(s, job, id, now).value.tables), t);
    FewSlots(r.receiver, id);
    LedgerGrows(s, t, job, SlotsOf(users, id));
  }

  lemma FewSlots(user: UserId, id: MessageId)
    ensures SlotsOf([], id) == {} && SlotsOf([user], id) == {Slot(user, id)}
  {
  }

  lemma Settles(s: System, u: System, t: System)
    requires Grows(s, u) && TablesOk(u) && t.tables == u.tables && t.friends == u.friends && t.pushed == u.pushed
    ensures Grows(s, t) && TablesOk(t)
  {
  }

  lemma GroupRecordOk(s: System, j: Job)
    requires JobOk(s, j) && j.phase.Partitioning?
    ensures MessageOk(s.friends, GroupRecord(j.request)) && GroupRecord(j.request).receiverId != 0
  {
  }

  function GroupSaving(s: System, job: nat, id: MessageId, now: Int64): (r: Result<Effect<MessageRecord, Tables>>)
    requires job in s.jobs && s.jobs[job].phase.Partitioning? && s.jobs[job].request.GroupMessage?
  {
    Saving(s.tables, GroupRecord(s.jobs[job].request), s.jobs[job].phase.offline, id, now)
  }

  lemma GroupStoringRests(s: System, job: nat, id: MessageId, now: Int64, fault: Fault)
    requires Ready(s, job) && s.jobs[job].phase.Partitioning? && Unused(s.tables, id)
    requires !Applies(GroupSaving(s, job, id, now), fault)
    ensures Kept(s, AfterGroupStoring(s, job, id, now, fault), job)
  {
    hide Ledger, TablesOk, Grows, Saving, GoodRequest, Split;
    var t := AfterGroupStoring(s, job, id, now, fault);
    Quiet(s, t);
    LedgerRests(s, t, job);
  }

  /** Every member but the sender is now in the online list or has a row. */
  lemma RowsForOffline(s: System, t: System, j: Job, m: MessageRecord)
    requires j.phase.Partitioning? && Split(j, |j.members|, j.phase.online, j.phase.offline)
    requires t.tables.offline.Keys == s.tables.offline.Keys + SlotsOf(j.phase.offline, m.messageId)
    ensures forall u :: u in j.phase.offline ==> Slot(u, m.messageId) in t.tables.offline
    ensures OthersCovered(t, j, m, j.phase.online)
  {
    assert j.members[..|j.members|] == j.members;
    forall u | u in j.phase.offline ensures Slot(u, m.messageId) in t.tables.offline {
      assert Slot(u, m.messageId) in SlotsOf(j.phase.offline, m.messageId);
    }
  }

  lemma GroupStoringSaves(s: System, job: nat, id: MessageId, now: Int64, fault: Fault)
    requires Ready(s, job) && s.jobs[job].phase.Partitioning? && Unused(s.tables, id)
    requires s.jobs[job].phase.at == |s.jobs[job].members|
    requires Applies(GroupSaving(s, job, id, now), fault)
    ensures Kept(s, AfterGroupStoring(s, job, id, now, fault), job)
  {
    hide Ledger, TablesOk, Grows, Saving, GoodRequest, MessageOk, SlotsOf, Covered;
    var j := s.jobs[job];
    GroupRecordOk(s, j);
    var m, users := GroupRecord(j.request), j.phase.offline;
    var t := AfterGroupStoring(s, job, id, now, fault);
    var saved := GroupSaving(s, job, id, now).value.value;
    SavedKeeps(s, m, users, id, now);
    SavedRows(s, m, users, id, now);
    Settles(s, s.(tables := GroupSaving(s, job, id, now).value.tables), t);
    RowsForOffline(s, t, j, saved);
    LedgerGrows(s, t, job, SlotsOf(users, id));
  }

  lemma FellBackKeeps(s: System, user: UserId, message: MessageId, now: Int64)
    requires TablesOk(s) && SavingOffline(s.tables, user, message, now).Success?
    ensures var u := s.(tables := SavingOffline(s.tables, user, message, now).value.tables);
            && TablesOk(u) && Grows(s, u) && u.tables.messages == s.tables.messages
            && u.tables.offline.Keys == s.tables.offline.Keys + {Slot(user, message)}
            && Slot(user, message) !in s.tables.offline
  {
    SavingOfflineKeeps(s.tables, user, message, now);
    hide Consistent, Advances;
  }

  function Fallback(s: System, job: nat, now: Int64): (r: Result<Effect<(), Tables>>)
    requires job in s.jobs && s.jobs[job].phase.FallingBack?
  {
    SavingOffline(s.tables, s.jobs[job].phase.m.receiverId, s.jobs[job].phase.m.messageId, now)
  }

  lemma FallingBackRests(s: System, job: nat, now: Int64, fault: Fault)
    requires Ready(s, job) && s.jobs[job].phase.FallingBack? && !Applies(Fallback(s, job, now), fault)
    ensures Kept(s, AfterFallingBack(s, job, now, fault), job)
  {
    hide Ledger, TablesOk, Grows, GoodRequest, SavingOffline, IsDelivered;
    var t := AfterFallingBack(s, job, now, fault);
    Quiet(s, t);
    LedgerRests(s, t, job);
    RowIsThere(s.tables, s.jobs[job].phase.m, now);
  }

  lemma RowIsThere(t: Tables, m: MessageRecord, now: Int64)
    ensures SavingOffline(t, m.receiverId, m.messageId, now) == Failure(AlreadyExists) ==> ReceiverSlot(m) in t.offline
  {
  }

  lemma FallingBackSaves(s: System, job: nat, now: Int64, fault: Fault)
    requires Ready(s, job) && s.jobs[job].phase.FallingBack? && Applies(Fallback(s, job, now), fault)
    ensures Kept(s, AfterFallingBack(s, job, now, fault), job)
  {
    hide Ledger, TablesOk, Grows, GoodRequest, SavingOffline;
    var m := s.jobs[job].phase.m;
    var t := AfterFallingBack(s, job, now, fault);
    FellBackKeeps(s, m.receiverId, m.messageId, now);
    Settles(s, s.(tables := Fallback(s, job, now).value.tables), t);
    LedgerGrows(s, t, job, {ReceiverSlot(m)});
  }

  // ---- Acks and friends: no handler of a message moves ---------------------------------------------

  ghost predicate NoJob(s: System, t: System) {
    t.jobs == s.jobs && t.counted == s.counted && t.pushed == s.pushed && (t.clean ==> s.clean)
  }

  lemma NoJobKeeps(s: System, t: System)
    requires Inv(s) && NoJob(s, t) && Grows(s, t) && TablesOk(t)
    requires t.tables.offline.Keys == s.tables.offline.Keys
    ensures Inv(t)
  {
    hide TablesOk, Grows, JobOk, Owes;
    forall k | k in t.jobs ensures JobOk(t, t.jobs[k]) {
      JobStaysOk(s, t, s.jobs[k]);
    }
    forall x | IsOwed(s, x) ensures IsOwed(t, x) {
      var a :| a in s.jobs && x in Owes(s.jobs[a]);
      assert a in t.jobs && x in Owes(t.jobs[a]);
    }
  }

  lemma AckDeliveryKeeps(s: System, user: UserId, message: MessageId, now: Int64, fault: Fault)
    requires Inv(s)
    ensures Inv(AfterAckDelivery(s, user, message, now, fault)) && Grows(s, AfterAckDelivery(s, user, message, now, fault))
  {
    hide JobsOk, Ledger, Consistent, Advances;
    var t := AfterAckDelivery(s, user, message, now, fault);
    if Applies(AckingPrivate(s.tables, user, message, now), fault) {
      AckingPrivateKeeps(s.tables, user, message, now);
    } else {
      Quiet(s, t);
    }
    NoJobKeeps(s, t);
  }

  lemma AckOfflineKeeps(s: System, user: UserId, ids: seq<MessageId>, now: Int64, fault: Fault)
    requires Inv(s)
    ensures Inv(AfterAckOffline(s, user, ids, now, fault)) && Grows(s, AfterAckOffline(s, user, ids, now, fault))
  {
    hide JobsOk, Ledger, Advances, RowsAgree, Acking;
    var t := AfterAckOffline(s, user, ids, now, fault);
    if Applies(Acking(s.tables, user, ids, now), fault) {
      AckingKeeps(s.tables, user, ids, now);
      AckTouchesNoKeys(s.tables, user, ids, now);
    } else {
      Quiet(s, t);
    }
    NoJobKeeps(s, t);
  }

  lemma ClearUnreadKeeps(s: System, c: Counter, made: bool)
    requires Inv(s)
    ensures Inv(AfterClearUnread(s, c, made)) && Grows(s, AfterClearUnread(s, c, made))
  {
    hide JobsOk, Ledger, TablesOk, Grows;
    Quiet(s, AfterClearUnread(s, c, made));
    NoJobKeeps(s, AfterClearUnread(s, c, made));
  }

  lemma AckTouchesNoKeys(t: Tables, user: UserId, ids: seq<MessageId>, now: Int64)
    requires Referenced(t) && Acking(t, user, ids, now).Success?
    ensures Acking(t, user, ids, now).value.tables.messages == t.messages
    ensures Acking(t, user, ids, now).value.tables.offline.Keys == t.offline.Keys
  {
  }

  lemma BefriendKeeps(s: System, call: Friends.Call, fault: Fault)
    requires Inv(s)
    ensures Inv(AfterBefriend(s, call, fault)) && Grows(s, AfterBefriend(s, call, fault))
  {
    hide JobsOk, Ledger, Consistent, Advances, Friends.Intended, Friends.Inv;
    var t := AfterBefriend(s, call, fault);
    AdvancesReflexive(s.tables);
    if Applies(Friends.Intended(s.friends, call), fault) {
      Friends.CallKeeps(s.friends, call);
      forall id | id in t.tables.messages ensures MessageOk(t.friends, t.tables.messages[id]) {
        assert MessageOk(s.friends, t.tables.messages[id]);
      }
    } else {
      Quiet(s, t);
    }
    NoJobKeeps(s, t);
  }

  // ---- Every step, every run -------------------------------------------------------------------------

  predicate HasEnded(phase: Phase) {
    phase.Answered? || phase.Failed?
  }

  /** Rows, friendships and pushes stay; so do requests, and every ending once it is reached. */
  ghost predicate Later(s: System, t: System) {
    && Grows(s, t)
    && (forall k :: k in s.jobs ==> k in t.jobs && t.jobs[k].request == s.jobs[k].request)
    && (forall k :: k in s.jobs && HasEnded(s.jobs[k].phase) ==> t.jobs[k] == s.jobs[k])
  }

  lemma KeptKeeps(s: System, t: System, k: nat)
    requires Inv(s) && Kept(s, t, k)
    requires k in s.jobs ==> !HasEnded(s.jobs[k].phase)
    ensures Inv(t) && Later(s, t)
  {
    hide TablesOk, Ledger, JobsOk, Grows, JobOk;
    JobsStayOk(s, t, k);
  }

  lemma MessageStepKeeps(s: System, e: Step)
    requires Inv(s) && Enabled(s, e)
    requires !e.AckDelivery? && !e.AckOffline? && !e.ClearUnread? && !e.Befriend?
    ensures Kept(s, After(s, e), e.job)
    ensures e.job in s.jobs ==> !HasEnded(s.jobs[e.job].phase)
  {
    hide TablesOk, Ledger, JobOk, Kept, GoodRequest, PrivateRecord, Saving, SavingOffline, Unused, Distinct, HasClientId,
      AfterBegin, AfterAsking, AfterLooking, AfterStoring, AfterFinding, AfterChecking, AfterLookingAgain, AfterPushing,
      AfterFallingBack, AfterCounting, AfterGathering, AfterPartition, AfterGroupStoring, AfterGroupCounting,
      AfterGroupPushing, GroupRecord, Applies;
    match e {
      case Begin(job, request) => BeginKeeps(s, job, request);
      case AskFriends(job, known, fault) => AskingKeeps(s, job, known, fault);
      case Look(job, found) => LookingKeeps(s, job, found);
      case Store(job, id, now, fault) => StoringKeeps(s, job, id, now, fault);
      case Find(job, id, fault) => FindingKeeps(s, job, id, fault);
      case CheckDelivered(job, fault) => CheckingKeeps(s, job, fault);
      case LookAgain(job, found) => LookingAgainKeeps(s, job, found);
      case Push(job, accepted) => PushingKeeps(s, job, accepted);
      case FallBack(job, now, fault) => FallingBackKeeps(s, job, now, fault);
      case Count(job, made) => CountingKeeps(s, job, made);
      case Gather(job, known, members, fault) => GatheringKeeps(s, job, known, members, fault);
      case Partition(job, found) => PartitionKeeps(s, job, found);
      case GroupStore(job, id, now, fault) => GroupStoringKeeps(s, job, id, now, fault);
      case GroupCount(job, made) => GroupCountingKeeps(s, job, made);
      case GroupPush(job, refusal) => GroupPushingKeeps(s, job, refusal);
    }
  }

  lemma StoringKeeps(s: System, job: nat, id: MessageId, now: Int64, fault: Fault)
    requires Ready(s, job) && s.jobs[job].phase.Storing? && Unused(s.tables, id)
    ensures Kept(s, AfterStoring(s, job, id, now, fault), job)
  {
    hide Kept, AfterStoring, Saving, PrivateRecord;
    if Applies(PrivateSaving(s, job, id, now), fault) {
      StoringSaves(s, job, id, now, fault);
    } else {
      StoringRests(s, job, id, now, fault);
    }
  }

  lemma GroupStoringKeeps(s: System, job: nat, id: MessageId, now: Int64, fault: Fault)
    requires Ready(s, job) && s.jobs[job].phase.Partitioning? && Unused(s.tables, id)
    requires s.jobs[job].phase.at == |s.jobs[job].members|
    ensures Kept(s, AfterGroupStoring(s, job, id, now, fault), job)
  {
    hide Kept, AfterGroupStoring, Saving, GroupRecord;
    if Applies(GroupSaving(s, job, id, now), fault) {
      GroupStoringSaves(s, job, id, now, fault);
    } else {
      GroupStoringRests(s, job, id, now, fault);
    }
  }

  lemma FallingBackKeeps(s: System, job: nat, now: Int64, fault: Fault)
    requires Ready(s, job) && s.jobs[job].phase.FallingBack?
    ensures Kept(s, AfterFallingBack(s, job, now, fault), job)
  {
    hide Kept, AfterFallingBack, SavingOffline;
    if Applies(Fallback(s, job, now), fault) {
      FallingBackSaves(s, job, now, fault);
    } else {
      FallingBackRests(s, job, now, fault);
    }
  }

  lemma StepKeeps(s: System, t: System)
    requires Inv(s) && Next(s, t)
    ensures Inv(t) && Later(s, t)
  {
    hide Inv, Grows, Kept, Enabled, AfterAckDelivery, AfterAckOffline, AfterClearUnread, AfterBefriend;
    var e :| Enabled(s, e) && t == After(s, e);
    if e.AckDelivery? {
      AckDeliveryKeeps(s, e.user, e.message, e.now, e.fault);
      JobsUntouched(s, e);
    } else if e.AckOffline? {
      AckOfflineKeeps(s, e.user, e.ids, e.now, e.fault);
      JobsUntouched(s, e);
    } else if e.ClearUnread? {
      ClearUnreadKeeps(s, e.counter, e.made);
      JobsUntouched(s, e);
    } else if e.Befriend? {
      BefriendKeeps(s, e.call, e.fault);
      JobsUntouched(s, e);
    } else {
      MessageStepKeeps(s, e);
      KeptKeeps(s, t, e.job);
    }
  }

  lemma JobsUntouched(s: System, e: Step)
    requires Enabled(s, e) && (e.AckDelivery? || e.AckOffline? || e.ClearUnread? || e.Befriend?)
    ensures After(s, e).jobs == s.jobs
  {
  }

  lemma InitKeeps(s: System)
    requires Init(s)
    ensures Inv(s)
  {
  }

  lemma RunsKeep(run: seq<System>, i: nat)
    requires Runs.IsRun(Init, Next, run) && i < |run|
    ensures Inv(run[i])
  {
    hide Inv, Init, Next;
    forall s | Init(s) ensures Inv(s) {
      InitKeeps(s);
    }
    forall s, t | Inv(s) && Next(s, t) ensures Inv(t) {
      StepKeeps(s, t);
    }
    Runs.Invariance(Init, Next, Inv, run);
  }

  lemma LaterTransitive(s: System, t: System, u: System)
    requires Later(s, t) && Later(t, u)
    ensures Later(s, u)
  {
    hide Advances;
    AdvancesTransitive(s.tables, t.tables, u.tables);
    Friends.GrowsTransitive(s.friends, t.friends, u.friends);
  }

  lemma LaterReflexive(s: System)
    ensures Later(s, s)
  {
  }

  lemma RunsGoForward(run: seq<System>, i: nat, j: nat)
    requires Runs.IsRun(Init, Next, run) && i <= j < |run|
    ensures Later(run[i], run[j])
  {
    hide Inv, Init, Next, Later;
    forall s | Init(s) ensures Inv(s) {
      InitKeeps(s);
    }
    forall s, t | Inv(s) && Next(s, t) ensures Inv(t) && Later(s, t) {
      StepKeeps(s, t);
    }
    forall s ensures Later(s, s) {
      LaterReflexive(s);
    }
    forall s, t, u | Later(s, t) && Later(t, u) ensures Later(s, u) {
      LaterTransitive(s, t, u);
    }
    Runs.Progress(Init, Next, Inv, Later, run, i, j);
  }

  // ---- The theorems ------------------------------------------------------------------------------------

  /** Over every run, with any failures and any concurrent retries, a sender and a client id
      have at most one message row, and two successful responses for them, whenever they
      were given, carry the same record: the one in the table. */
  lemma RetriesAgree(run: seq<System>, i: nat, j: nat, a: nat, b: nat)
    requires Runs.IsRun(Init, Next, run) && i <= j < |run|
    requires a in run[i].jobs && run[i].jobs[a].phase.Answered? && run[i].jobs[a].request.PrivateMessage?
    requires b in run[j].jobs && run[j].jobs[b].phase.Answered? && run[j].jobs[b].request.PrivateMessage?
    requires run[i].jobs[a].request.sender == run[j].jobs[b].request.sender
    requires ClientId(run[i].jobs[a].request) == ClientId(run[j].jobs[b].request) != []
    ensures run[i].jobs[a].phase.m == run[j].jobs[b].phase.m
    ensures OneRowPerClientId(run[j].tables) && Stored(run[j].tables, run[j].jobs[b].phase.m)
  {
    hide Init, Next, Ledger, Grows, Covered, RowsAgree;
    RunsKeep(run, j);
    RunsGoForward(run, i, j);
    var s := run[j];
    assert JobOk(s, s.jobs[a]) && JobOk(s, s.jobs[b]);
  }

  // ---- What an answer says about its request --------------------------------------------------

  /** The client id of the request stands for another message already. */
  ghost predicate Clashes(t: Tables, r: Request)
    requires r.PrivateMessage?
  {
    && ClientId(r) != []
    && exists id :: id in t.messages && Matches(t.messages[id], r.sender, ClientId(r)) && Differs(t.messages[id], r)
  }

  predicate Differs(m: MessageRecord, r: Request)
    requires r.PrivateMessage?
  {
    m.receiverId != r.receiver || m.text != r.text
  }

  predicate Early(phase: Phase) {
    phase.Asking? || phase.Looking? || phase.Storing?
  }

  /** The save of job a is the step from run[k]. */
  ghost predicate SavesAt(run: seq<System>, k: nat, a: nat) {
    && k + 1 < |run| && a in run[k].jobs && run[k].jobs[a].phase.Storing?
    && a in run[k + 1].jobs && !run[k + 1].jobs[a].phase.Storing?
  }

  /** A job moves only by its own steps. */
  lemma MovesByItself(s: System, e: Step, a: nat)
    requires Inv(s) && Enabled(s, e) && a in After(s, e).jobs
    requires a in s.jobs ==> After(s, e).jobs[a] != s.jobs[a]
    ensures !e.AckDelivery? && !e.AckOffline? && !e.ClearUnread? && !e.Befriend? && e.job == a
  {
    hide Inv, Grows, TablesOk, JobOk, Ledger, Enabled, After;
    if e.AckDelivery? || e.AckOffline? || e.ClearUnread? || e.Befriend? {
      JobsUntouched(s, e);
    } else {
      MessageStepKeeps(s, e);
    }
  }

  lemma LeavingEarly(s: System, e: Step, a: nat)
    requires Inv(s) && Enabled(s, e) && a in After(s, e).jobs && After(s, e).jobs[a].request.PrivateMessage?
    requires a in s.jobs ==> Early(s.jobs[a].phase)
    requires !Early(After(s, e).jobs[a].phase) && !After(s, e).jobs[a].phase.Failed?
    ensures e.Store? && e.job == a
  {
    hide Inv, PrivateRecord, AfterStoring;
    MovesByItself(s, e, a);
    assert e.Begin? || e.AskFriends? || e.Look? || e.Store?;
  }

  /** An answered private request has been saved, or found, at some step. */
  lemma SaveTookPlace(run: seq<System>, i: nat, a: nat) returns (k: nat)
    requires Runs.IsRun(Init, Next, run) && i < |run|
    requires a in run[i].jobs && run[i].jobs[a].phase.Answered? && run[i].jobs[a].request.PrivateMessage?
    ensures k < i && SavesAt(run, k, a)
  {
    hide Inv, Grows, Enabled, After;
    k := i;
    while k > 0 && a in run[k].jobs && !Early(run[k].jobs[a].phase)
      invariant 0 <= k <= i
      invariant k < i ==> a in run[k + 1].jobs && !Early(run[k + 1].jobs[a].phase)
    {
      k := k - 1;
    }
    assert !(a in run[k].jobs && !Early(run[k].jobs[a].phase));
    RunsKeep(run, k);
    RunsGoForward(run, k + 1, i);
    assert Next(run[k], run[k + 1]);
    var e :| Enabled(run[k], e) && run[k + 1] == After(run[k], e);
    LeavingEarly(run[k], e, a);
    StoresWhenStoring(run[k], e);
  }

  lemma StoresWhenStoring(s: System, e: Step)
    requires Enabled(s, e) && e.Store?
    ensures e.job in s.jobs && s.jobs[e.job].phase.Storing?
  {
  }

  lemma OnlyStoreLeavesStoring(s: System, e: Step, a: nat)
    requires Inv(s) && Enabled(s, e) && a in s.jobs && s.jobs[a].phase.Storing?
    requires a in After(s, e).jobs && !After(s, e).jobs[a].phase.Storing?
    ensures e.Store? && e.job == a
  {
    hide Inv, After;
    MovesByItself(s, e, a);
  }

  /** A row under the client id, read at any later time, is the row that was there. */
  lemma RowStays(s: System, t: System, id: MessageId, m: MessageRecord)
    requires Advances(s.tables, t.tables) && OneRowPerClientId(t.tables) && Stored(t.tables, m) && m.clientMsgId != []
    requires id in s.tables.messages && Matches(s.tables.messages[id], m.senderId, m.clientMsgId)
    ensures m == s.tables.messages[id]
  {
  }

  /** Where no row has the client id, the save fails or makes the requested row. */
  lemma FirstSave(s: System, job: nat, id: MessageId, now: Int64, fault: Fault)
    requires Ready(s, job) && s.jobs[job].phase.Storing? && Unused(s.tables, id)
    requires !HasClientId(s.tables, s.jobs[job].request.sender, ClientId(s.jobs[job].request))
    ensures var t := AfterStoring(s, job, id, now, fault);
            && job in t.jobs
            && (t.jobs[job].phase.Failed?
                || (id in t.tables.messages && AsRequested(s.jobs[job].request, t.tables.messages[id])))
  {
    hide TablesOk, Ledger, GoodRequest, MessageOk, Saving, SlotsOf, PrivateRecord, HasClientId;
    var r := s.jobs[job].request;
    var users := if s.jobs[job].phase.receiverOnline then [] else [r.receiver];
    PrivateRecordOk(s, r);
    NotTaken(s.tables, PrivateRecord(r).value, users, id, now);
    if Applies(PrivateSaving(s, job, id, now), fault) {
      SavedRows(s, PrivateRecord(r).value, users, id, now);
    }
  }

  lemma NotTaken(t: Tables, m: MessageRecord, users: seq<UserId>, id: MessageId, now: Int64)
    requires !HasClientId(t, m.senderId, m.clientMsgId)
    ensures Saving(t, m, users, id, now) != Failure(AlreadyExists)
  {
  }

  /** Under (sender, client id), a row answers the request as asked exactly when it has the
      request's receiver and text. */
  lemma SameRow(s: System, r: Request, m: MessageRecord)
    requires TablesOk(s) && Stored(s.tables, m) && r.PrivateMessage?
    requires Matches(m, r.sender, ClientId(r)) && ClientId(r) != []
    ensures AsRequested(r, m) <==> !Differs(m, r)
  {
    hide Consistent, Friends.Inv;
    assert MessageOk(s.friends, m);
  }

  /** An answer is the requested message, its id and time filled in: always for a group and
      without a client id; with one, if and only if, when the save took its step, the client
      id did not stand for a message with another receiver or text. */
  lemma AnswerIsAsRequested(run: seq<System>, k: nat, i: nat, a: nat)
    requires Runs.IsRun(Init, Next, run) && k < i < |run| && SavesAt(run, k, a)
    requires a in run[i].jobs && run[i].jobs[a].phase.Answered? && run[i].jobs[a].request.PrivateMessage?
    ensures AsRequested(run[i].jobs[a].request, run[i].jobs[a].phase.m)
            <==> !Clashes(run[k].tables, run[i].jobs[a].request)
    ensures Mine(run[i].tables, run[i].jobs[a].request, run[i].jobs[a].phase.m)
  {
    hide Inv, Init, Next, Grows, AsRequested, HasClientId, Matches, Differs;
    RunsKeep(run, k);
    RunsKeep(run, i);
    AnsweredIsMine(run[i], a);
    RunsGoForward(run, k, i);
    RunsGoForward(run, k + 1, i);
    var r, m := run[i].jobs[a].request, run[i].jobs[a].phase.m;
    if ClientId(r) != [] {
      OneAnswer(run[k], run[i], r, m);
      if !HasClientId(run[k].tables, r.sender, ClientId(r)) {
        FirstAnswer(run[k], run[k + 1], run[i], a);
        NoClash(run[k].tables, r);
      }
    }
  }

  lemma NoClash(t: Tables, r: Request)
    requires r.PrivateMessage? && !HasClientId(t, r.sender, ClientId(r))
    ensures !Clashes(t, r)
  {
  }

  lemma AnsweredIsMine(s: System, a: nat)
    requires Inv(s) && a in s.jobs && s.jobs[a].phase.Answered? && s.jobs[a].request.PrivateMessage?
    ensures Mine(s.tables, s.jobs[a].request, s.jobs[a].phase.m) && Covered(s, ReceiverSlot(s.jobs[a].phase.m))
  {
    hide TablesOk, Ledger;
    assert JobOk(s, s.jobs[a]);
  }

  /** The row was there at the save: the answer is that row. */
  lemma OneAnswer(s: System, t: System, r: Request, m: MessageRecord)
    requires Inv(t) && Grows(s, t) && Mine(t.tables, r, m) && ClientId(r) != []
    ensures HasClientId(s.tables, r.sender, ClientId(r)) ==> (AsRequested(r, m) <==> !Clashes(s.tables, r))
  {
    hide AsRequested, Ledger, JobsOk, Friends.Inv, MessageOk;
    if HasClientId(s.tables, r.sender, ClientId(r)) {
      var id :| id in s.tables.messages && Matches(s.tables.messages[id], r.sender, ClientId(r));
      RowStays(s, t, id, m);
      SameRow(t, r, m);
      forall other | other in s.tables.messages && Matches(s.tables.messages[other], r.sender, ClientId(r))
        ensures s.tables.messages[other] == m
      {
        RowStays(s, t, other, m);
      }
    }
  }

  /** No row was there: the answer is the row that the save made. */
  lemma FirstAnswer(s: System, t: System, u: System, a: nat)
    requires Inv(s) && Next(s, t) && Later(s, u) && Later(t, u) && Inv(u)
    requires a in s.jobs && s.jobs[a].phase.Storing? && a in t.jobs && !t.jobs[a].phase.Storing?
    requires u.jobs[a].phase.Answered? && u.jobs[a].request.PrivateMessage?
    requires ClientId(s.jobs[a].request) != [] && !HasClientId(s.tables, s.jobs[a].request.sender, ClientId(s.jobs[a].request))
    ensures AsRequested(u.jobs[a].request, u.jobs[a].phase.m)
  {
    hide Ledger, TablesOk, JobOk, Grows, Enabled, After, HasClientId;
    var e :| Enabled(s, e) && t == After(s, e);
    OnlyStoreLeavesStoring(s, e, a);
    StoreStep(s, e);
    FirstSave(s, a, e.id, e.now, e.fault);
    AnsweredIsMine(u, a);
    var r, m := u.jobs[a].request, u.jobs[a].phase.m;
    KeyOf(r, t.tables.messages[e.id]);
    UniqueRows(u);
    GrowsAdvances(t, u);
    RowStays(t, u, e.id, m);
  }

  lemma StoreStep(s: System, e: Step)
    requires Enabled(s, e) && e.Store?
    ensures e.job in s.jobs && s.jobs[e.job].phase.Storing? && s.jobs[e.job].request.PrivateMessage? && Unused(s.tables, e.id)
    ensures After(s, e) == AfterStoring(s, e.job, e.id, e.now, e.fault)
  {
  }

  lemma KeyOf(r: Request, m: MessageRecord)
    requires AsRequested(r, m)
    ensures Matches(m, r.sender, ClientId(r))
  {
  }

  lemma UniqueRows(s: System)
    requires Inv(s)
    ensures OneRowPerClientId(s.tables)
  {
  }

  lemma GrowsAdvances(s: System, t: System)
    requires Grows(s, t)
    ensures Advances(s.tables, t.tables)
  {
  }

  /** A successful response means that every other recipient of the requested message has,
      then and from then on, an accepted push, an offline row, or a state of at least
      delivered: every member of a group, and the receiver of a private request unless its
      client id stood for another message when the save took its step (k). */
  lemma RecipientsAreCovered(run: seq<System>, i: nat, j: nat, a: nat) returns (k: nat)
    requires Runs.IsRun(Init, Next, run) && i <= j < |run|
    requires a in run[i].jobs && run[i].jobs[a].phase.Answered?
    ensures var job, m := run[i].jobs[a], run[i].jobs[a].phase.m;
            && Stored(run[j].tables, m)
            && if job.request.GroupMessage? then
                 && AsRequested(job.request, m)
                 && forall u :: u in job.members && u != job.request.sender ==> Covered(run[j], Slot(u, m.messageId))
               else
                 && k < i && SavesAt(run, k, a) && Covered(run[j], ReceiverSlot(m))
                 && (AsRequested(job.request, m) <==> !Clashes(run[k].tables, job.request))
                 && (!Clashes(run[k].tables, job.request) ==>
                       m.text == job.request.text && Covered(run[j], Slot(job.request.receiver, m.messageId)))
  {
    hide Init, Next, Ledger, Grows, Covered, TablesOk, Clashes, SavesAt;
    RunsKeep(run, j);
    RunsGoForward(run, i, j);
    assert JobOk(run[j], run[j].jobs[a]);
    k := 0;
    if run[i].jobs[a].request.PrivateMessage? {
      k := SaveTookPlace(run, i, a);
      AnswerIsAsRequested(run, k, i, a);
    }
  }

  /** Unread increments never exceed offline rows, row by row; and when no storage or cache
      call has failed and every handler has finished, they are exactly the rows. */
  lemma IncrementsMatchRows(run: seq<System>, i: nat)
    requires Runs.IsRun(Init, Next, run) && i < |run|
    ensures run[i].counted <= multiset(run[i].tables.offline.Keys)
    ensures run[i].clean && (forall k :: k in run[i].jobs ==> run[i].jobs[k].phase.Answered? || run[i].jobs[k].phase.Failed?)
            ==> run[i].counted == multiset(run[i].tables.offline.Keys)
  {
    hide Init, Next, TablesOk, JobsOk;
    RunsKeep(run, i);
    var s := run[i];
    forall x: Slot ensures s.counted[x] <= multiset(s.tables.offline.Keys)[x] {
      assert x in s.counted ==> s.counted[x] == 1 && x in s.tables.offline;
    }
    if s.clean && (forall k :: k in s.jobs ==> s.jobs[k].phase.Answered? || s.jobs[k].phase.Failed?) {
      forall x: Slot ensures s.counted[x] == multiset(s.tables.offline.Keys)[x] {
        assert !IsOwed(s, x);
        assert x in s.counted ==> s.counted[x] == 1 && x in s.tables.offline;
      }
    }
  }

  /** The delivery tables agree in every state, and only move forward. */
  lemma DeliveryTablesAgree(run: seq<System>, i: nat, j: nat)
    requires Runs.IsRun(Init, Next, run) && i <= j < |run|
    ensures Schema(run[i].tables) && RowsAgree(run[i].tables)
    ensures Advances(run[i].tables, run[j].tables)
  {
    hide Init, Next, Ledger, JobsOk, Advances, Schema, RowsAgree;
    RunsKeep(run, i);
    RunsGoForward(run, i, j);
  }

  /** Every stored private message is between friends, and its history admits exactly the
      two of them. */
  lemma PrivateMessagesAreBetweenFriends(run: seq<System>, i: nat, id: MessageId, user: UserId)
    requires Runs.IsRun(Init, Next, run) && i < |run|
    requires id in run[i].tables.messages && run[i].tables.messages[id].conversation.kind.Private?
    ensures var m := run[i].tables.messages[id];
            && AreFriends(run[i].friends, m.senderId, m.receiverId)
            && AreFriends(run[i].friends, m.receiverId, m.senderId)
            && (Conversation.IsPrivateConversationMember(user, m.conversation.id)
                <==> user == m.senderId || user == m.receiverId)
  {
    hide Init, Next, Ledger, JobsOk, Advances, Schema, RowsAgree;
    RunsKeep(run, i);
    var m := run[i].tables.messages[id];
    assert MessageOk(run[i].friends, m);
    assert Friends.Reverse(Friends.Pair(m.senderId, m.receiverId)) == Friends.Pair(m.receiverId, m.senderId);
    Conversation.NoOverflow(m.senderId, m.receiverId);
    Conversation.ExactlyTheTwo(m.senderId, m.receiverId, user);
  }

  /** Whatever the handlers have let into the table, up to 100 stored messages go into one
      packet, and the client gets exactly them, in order, out of its body. */
  lemma StoredMessagesReachTheClient(
      run: seq<System>, i: nat, self: UserId, ms: seq<MessageRecord>, header: Packet.PacketHeader)
    requires Runs.IsRun(Init, Next, run) && i < |run| && |ms| <= 100
    requires forall k :: 0 <= k < |ms| ==> Stored(run[i].tables, ms[k])
    requires header.magic == Packet.PACKET_MAGIC && header.version == Packet.PACKET_VERSION
    requires header.flags == Packet.PACKET_FLAGS_NONE
    ensures Tlv.AllFit(MessageFields.FieldsOfAll(ms))
    ensures var body := Tlv.BodyBytes(MessageFields.FieldsOfAll(ms));
            && |body| <= 835200 && Packet.Encodable(Packet.Packet(header, body))
            && var shown := MessageFields.Recovered(self, body);
               && shown.Success? && |shown.value| == |ms|
               && forall k :: 0 <= k < |ms| ==> shown.value[k] == MessageFields.Shown(self, ms[k])
  {
    hide Init, Next, Ledger, JobsOk, Consistent, Friends.Inv;
    hide MessageFields.FieldsOfAll, Tlv.BodyBytes, MessageFields.Recovered, MessageFields.Shown, Packet.Encodable;
    RunsKeep(run, i);
    forall k | 0 <= k < |ms| ensures MessageFields.Validated(ms[k]) {
      assert Stored(run[i].tables, ms[k]);
      assert MessageOk(run[i].friends, ms[k]);
    }
    MessageFields.PullFitsInPacket(ms, header);
    MessageFields.ClientRecoversMessages(self, ms);
  }
}
