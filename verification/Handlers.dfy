/**
 The message handlers as the program writes them, calling the storage objects one after
 another, while other handlers do anything between two calls.  Each is proved to make, call by
 call, a path of the machine in `Delivery`, so everything in `DeliveryRuns` holds of it.
 */
module Handlers {
  import opened Base
  import opened Records
  import opened Storage
  import opened Transactions
  import opened Delivery
  import Conversation
  import DeliveryPaths
  import DeliveryRuns
  import Friends
  import Runs

  // ---- Paths of the machine ---------------------------------------------------------------------

  ghost predicate IsPath(s: System, steps: seq<Step>)
    decreases |steps|, 0
  {
    |steps| == 0
    || (IsPath(s, steps[..|steps| - 1]) && Enabled(End(s, steps[..|steps| - 1]), steps[|steps| - 1]))
  }

  ghost function End(s: System, steps: seq<Step>): (t: System)
    requires IsPath(s, steps)
    decreases |steps|, 1
  {
    if |steps| == 0 then s else After(End(s, steps[..|steps| - 1]), steps[|steps| - 1])
  }

  lemma OneMore(s: System, steps: seq<Step>, e: Step)
    requires IsPath(s, steps) && Enabled(End(s, steps), e)
    ensures IsPath(s, steps + [e]) && End(s, steps + [e]) == After(End(s, steps), e)
  {
    assert (steps + [e])[..|steps|] == steps;
  }

  /** A path from the end of a run makes a longer run: the theorems about runs hold on it. */
  lemma {:induction false} PathsExtendRuns(run: seq<System>, steps: seq<Step>) returns (longer: seq<System>)
    requires Runs.IsRun(Init, Next, run) && IsPath(run[|run| - 1], steps)
    ensures Runs.IsRun(Init, Next, longer) && |longer| == |run| + |steps|
    ensures longer[..|run|] == run && longer[|longer| - 1] == End(run[|run| - 1], steps)
    decreases |steps|
  {
    if |steps| == 0 {
      longer := run;
    } else {
      hide Next, Enabled, After;
      var before := PathsExtendRuns(run, steps[..|steps| - 1]);
      Follows(before[|before| - 1], steps[|steps| - 1]);
      Runs.Extend(Init, Next, before, End(run[|run| - 1], steps));
      longer := before + [End(run[|run| - 1], steps)];
    }
  }

  // ---- What others do between two calls -----------------------------------------------------------

  /** A step of another handler than `own`; the id that its insert will get is not given away. */
  predicate IsForeign(e: Step, own: Option<nat>, id: MessageId) {
    match e
    case AckDelivery(_, _, _, _) => true
    case AckOffline(_, _, _, _) => true
    case ClearUnread(_, _) => true
    case Befriend(_, _) => true
    case Store(other, taken, _, _) => Some(other) != own && taken != id
    case GroupStore(other, taken, _, _) => Some(other) != own && taken != id
    case _ => Some(e.job) != own
  }

  /** This handler's place and its id are as they were. */
  ghost predicate LeavesAlone(s: System, t: System, own: Option<nat>, id: MessageId) {
    && (own.Some? ==> (own.value in s.jobs <==> own.value in t.jobs))
    && (own.Some? && own.value in s.jobs ==> t.jobs[own.value] == s.jobs[own.value])
    && (Unused(s.tables, id) ==> Unused(t.tables, id))
    && DeliveryRuns.Later(s, t)
  }

  lemma ForeignLeavesAlone(s: System, e: Step, own: Option<nat>, id: MessageId)
    requires DeliveryRuns.Inv(s) && Enabled(s, e) && IsForeign(e, own, id)
    ensures LeavesAlone(s, After(s, e), own, id)
  {
    hide DeliveryRuns.Inv, DeliveryRuns.Grows, Enabled, After;
    Follows(s, e);
    DeliveryRuns.StepKeeps(s, After(s, e));
    if own.Some? && own.value in After(s, e).jobs
       && (own.value in s.jobs ==> After(s, e).jobs[own.value] != s.jobs[own.value]) {
      DeliveryRuns.MovesByItself(s, e, own.value);
    }
    InvSchema(s);
    if id in After(s, e).tables.messages && id !in s.tables.messages {
      DeliveryPaths.OnlyStoresAdd(s, e, id);
    }
  }

  lemma LeavesAloneTwice(s: System, t: System, u: System, own: Option<nat>, id: MessageId)
    requires LeavesAlone(s, t, own, id) && LeavesAlone(t, u, own, id)
    ensures LeavesAlone(s, u, own, id)
  {
    hide DeliveryRuns.Grows;
    DeliveryRuns.LaterTransitive(s, t, u);
  }

  // ---- The machine's steps, one by one -----------------------------------------------------------

  lemma BeginStep(s: System, job: nat, request: Request)
    requires job !in s.jobs && request.sender != 0
    ensures Enabled(s, Begin(job, request)) && After(s, Begin(job, request)) == AfterBegin(s, job, request)
  {
  }

  lemma AskStep(s: System, job: nat, known: bool, fault: Fault)
    requires job in s.jobs && s.jobs[job].phase.Asking? && s.jobs[job].request.PrivateMessage?
    ensures Enabled(s, AskFriends(job, known, fault)) && After(s, AskFriends(job, known, fault)) == AfterAsking(s, job, known, fault)
  {
  }

  lemma LookStep(s: System, job: nat, found: Lookup)
    requires job in s.jobs && s.jobs[job].phase.Looking? && s.jobs[job].request.PrivateMessage?
    ensures Enabled(s, Look(job, found)) && After(s, Look(job, found)) == AfterLooking(s, job, found)
  {
  }

  /** Nothing outside the tables has changed, and this handler is now here. */
  ghost predicate OnlyTables(s: System, t: System, tables: Tables, job: nat, phase: Phase) {
    && t.tables == tables && t.friends == s.friends && t.pushed == s.pushed && t.counted == s.counted && t.unread == s.unread
    && job in s.jobs && job in t.jobs && t.jobs[job].request == s.jobs[job].request && t.jobs[job].phase == phase
  }

  lemma StoreStep(s: System, job: nat, id: MessageId, now: Int64, fault: Fault, tables: Tables, result: Result<MessageRecord>)
    requires job in s.jobs && s.jobs[job].phase.Storing? && s.jobs[job].request.PrivateMessage? && Unused(s.tables, id)
    requires var r, online := s.jobs[job].request, s.jobs[job].phase.receiverOnline;
             PrivateRecord(r).Success? && Perform(s.tables, Saving(s.tables, PrivateRecord(r).value,
               if online then [] else [r.receiver], id, now), fault) == (tables, result)
    ensures Enabled(s, Store(job, id, now, fault))
    ensures OnlyTables(s, After(s, Store(job, id, now, fault)), tables, job, match result
              case Success(m) => if s.jobs[job].phase.receiverOnline then Pushing(m) else Counting(m)
              case Failure(e) => if e.AlreadyExists? && ClientId(s.jobs[job].request) != [] then Finding else Failed(e))
  {
    hide Saving, PrivateRecord, Perform;
  }

  lemma FindStep(s: System, job: nat, id: MessageId, fault: Fault, found: Result<MessageRecord>)
    requires job in s.jobs && s.jobs[job].phase.Finding? && s.jobs[job].request.PrivateMessage?
    requires s.jobs[job].request.sender != 0 && ClientId(s.jobs[job].request) != []
    requires match found
             case Success(m) => fault.NoFault? && id in s.tables.messages && s.tables.messages[id] == m
                                && Matches(m, s.jobs[job].request.sender, ClientId(s.jobs[job].request))
             case Failure(e) => if fault.NoFault? then e == NotFound && !HasClientId(s.tables, s.jobs[job].request.sender, ClientId(s.jobs[job].request))
                                else e == fault.error
    ensures Enabled(s, Find(job, id, fault))
    ensures OnlyTables(s, After(s, Find(job, id, fault)), s.tables, job, match found
              case Success(m) => CheckingDelivered(m)
              case Failure(e) => Failed(e))
  {
  }

  lemma CheckStep(s: System, job: nat, fault: Fault)
    requires job in s.jobs && s.jobs[job].phase.CheckingDelivered?
    ensures Enabled(s, CheckDelivered(job, fault))
    ensures var t, m := After(s, CheckDelivered(job, fault)), s.jobs[job].phase.m;
            && t.tables == s.tables && t.friends == s.friends && t.pushed == s.pushed
            && t.counted == s.counted && t.unread == s.unread
            && job in t.jobs && t.jobs[job].request == s.jobs[job].request
            && t.jobs[job].phase ==
                 if m.receiverId == 0 || m.messageId == 0 then Failed(InvalidArgument)
                 else if !fault.NoFault? then Failed(fault.error)
                 else if IsDelivered(s.tables, ReceiverSlot(m)) then Answered(m) else LookingAgain(m)
  {
  }

  lemma LookAgainStep(s: System, job: nat, found: Lookup)
    requires job in s.jobs && s.jobs[job].phase.LookingAgain?
    ensures Enabled(s, LookAgain(job, found)) && After(s, LookAgain(job, found)) == AfterLookingAgain(s, job, found)
  {
  }

  lemma PushStep(s: System, job: nat, accepted: bool)
    requires job in s.jobs && s.jobs[job].phase.Pushing?
    ensures Enabled(s, Push(job, accepted)) && After(s, Push(job, accepted)) == AfterPushing(s, job, accepted)
  {
  }

  lemma FallBackStep(s: System, job: nat, now: Int64, fault: Fault, tables: Tables, result: Result<()>)
    requires job in s.jobs && s.jobs[job].phase.FallingBack?
    requires var m := s.jobs[job].phase.m;
             Perform(s.tables, SavingOffline(s.tables, m.receiverId, m.messageId, now), fault) == (tables, result)
    ensures Enabled(s, FallBack(job, now, fault))
    ensures OnlyTables(s, After(s, FallBack(job, now, fault)), tables, job, match result
              case Success(_) => Counting(s.jobs[job].phase.m)
              case Failure(e) => if e.AlreadyExists? then Answered(s.jobs[job].phase.m) else Failed(e))
  {
    hide SavingOffline, Perform;
  }

  lemma CountStep(s: System, job: nat, made: bool)
    requires job in s.jobs && s.jobs[job].phase.Counting?
    ensures Enabled(s, Count(job, made)) && After(s, Count(job, made)) == AfterCounting(s, job, made)
  {
  }

  lemma GatherStep(s: System, job: nat, known: bool, members: seq<UserId>, fault: Fault)
    requires job in s.jobs && s.jobs[job].phase.Gathering? && s.jobs[job].request.GroupMessage? && Distinct(members)
    ensures Enabled(s, Gather(job, known, members, fault)) && After(s, Gather(job, known, members, fault)) == AfterGathering(s, job, known, members, fault)
  {
  }

  lemma PartitionStep(s: System, job: nat, found: Lookup)
    requires job in s.jobs && s.jobs[job].phase.Partitioning? && s.jobs[job].phase.at < |s.jobs[job].members|
    ensures Enabled(s, Partition(job, found)) && After(s, Partition(job, found)) == AfterPartition(s, job, found)
  {
  }

  lemma GroupStoreStep(s: System, job: nat, id: MessageId, now: Int64, fault: Fault, tables: Tables, result: Result<MessageRecord>)
    requires job in s.jobs && s.jobs[job].phase.Partitioning? && s.jobs[job].phase.at == |s.jobs[job].members|
    requires s.jobs[job].request.GroupMessage? && Unused(s.tables, id)
    requires Perform(s.tables, Saving(s.tables, GroupRecord(s.jobs[job].request), s.jobs[job].phase.offline, id, now), fault)
          == (tables, result)
    ensures Enabled(s, GroupStore(job, id, now, fault))
    ensures OnlyTables(s, After(s, GroupStore(job, id, now, fault)), tables, job, match result
              case Success(m) => GroupCounting(m, s.jobs[job].phase.offline, s.jobs[job].phase.online)
              case Failure(e) => Failed(e))
  {
    hide Saving, GroupRecord, Perform;
  }

  lemma GroupCountStep(s: System, job: nat, made: bool)
    requires job in s.jobs && s.jobs[job].phase.GroupCounting?
    ensures Enabled(s, GroupCount(job, made)) && After(s, GroupCount(job, made)) == AfterGroupCounting(s, job, made)
  {
  }

  lemma GroupPushStep(s: System, job: nat, refusal: Option<ErrorCode>)
    requires job in s.jobs && s.jobs[job].phase.GroupPushing?
    ensures Enabled(s, GroupPush(job, refusal)) && After(s, GroupPush(job, refusal)) == AfterGroupPushing(s, job, refusal)
  {
  }

  lemma AckDeliveryStep(s: System, user: UserId, message: MessageId, now: Int64, fault: Fault)
    ensures Enabled(s, AckDelivery(user, message, now, fault)) && After(s, AckDelivery(user, message, now, fault)) == AfterAckDelivery(s, user, message, now, fault)
  {
  }

  lemma AckOfflineStep(s: System, user: UserId, ids: seq<MessageId>, now: Int64, fault: Fault)
    ensures Enabled(s, AckOffline(user, ids, now, fault)) && After(s, AckOffline(user, ids, now, fault)) == AfterAckOffline(s, user, ids, now, fault)
  {
  }

  lemma ClearStep(s: System, c: Counter, made: bool)
    ensures Enabled(s, ClearUnread(c, made)) && After(s, ClearUnread(c, made)) == AfterClearUnread(s, c, made)
  {
  }

  // ---- What the environment answers -----------------------------------------------------------------

  /** To the calls of one private handler; `others(k)` is what others do before its k-th call. */
  datatype PrivateWorld = PrivateWorld(
    others: nat -> seq<Step>,
    known: bool, askFault: Fault, found: Lookup,
    id: MessageId, now: Int64, storeFault: Fault,
    findFault: Fault, checkFault: Fault, foundAgain: Lookup,
    accepted: bool, fallbackNow: Int64, fallbackFault: Fault, made: bool)

  /** To those of one group handler; the lists are read by position. */
  datatype GroupWorld = GroupWorld(
    others: nat -> seq<Step>, othersInLoop: (nat, nat) -> seq<Step>,
    known: bool, members: seq<UserId>, gatherFault: Fault, found: nat -> Lookup,
    id: MessageId, now: Int64, storeFault: Fault,
    made: nat -> bool, refusal: nat -> Option<ErrorCode>)

  /** No one else moves. */
  ghost predicate Alone(w: PrivateWorld) {
    forall k :: w.others(k) == []
  }

  /** No one else moves, and no call of the handler fails. */
  ghost predicate Calm(w: PrivateWorld) {
    && Alone(w) && w.known && w.askFault.NoFault? && w.storeFault.NoFault? && w.findFault.NoFault?
    && w.checkFault.NoFault? && w.fallbackFault.NoFault? && w.made
  }

  /** What users can come to see: the messages, who has an offline row or an accepted push
      for which of them, and the unread counters. */
  datatype Visible = Visible(
    messages: map<MessageId, MessageRecord>, rows: set<Slot>, pushed: set<Slot>, unread: map<Counter, nat>)

  function OneMoreUnread(unread: map<Counter, nat>, c: Counter): (u: map<Counter, nat>) {
    unread[c := (if c in unread then unread[c] else 0) + 1]
  }

  /** The receiver of `m` has been pushed to, and nothing else has happened. */
  predicate OnlyPushed(before: Visible, after: Visible, m: MessageRecord) {
    after == before.(pushed := before.pushed + {Slot(m.receiverId, m.messageId)})
  }

  /** The receiver of `m` has a row that they had not before and one more unread message. */
  predicate OnlyRow(before: Visible, after: Visible, m: MessageRecord) {
    after == before.(rows := before.rows + {Slot(m.receiverId, m.messageId)},
                     unread := OneMoreUnread(before.unread, Counter(m.receiverId, m.conversation)))
  }

  /** The receiver of `m` has a row; a new one is counted. */
  predicate FellBack(before: Visible, after: Visible, m: MessageRecord) {
    if Slot(m.receiverId, m.messageId) in before.rows then after == before else OnlyRow(before, after, m)
  }

  /** `m` is new: it is stored and pushed, or stored with a row. */
  predicate SentNew(before: Visible, after: Visible, m: MessageRecord, reached: bool) {
    var saved := before.(messages := before.messages[m.messageId := m]);
    if reached then OnlyPushed(saved, after, m) else OnlyRow(saved, after, m)
  }

  /** `m` was stored before: nothing is done for a delivered one; else it is pushed, or falls back. */
  predicate SentAgain(before: Visible, after: Visible, m: MessageRecord, delivered: bool, w: PrivateWorld,
                      r: Result<MessageRecord>) {
    if delivered then r == Success(m) && after == before
    else
      match w.foundAgain
      case Online => r == Success(m) && (if w.accepted then OnlyPushed(before, after, m) else FellBack(before, after, m))
      case Offline => r == Success(m) && FellBack(before, after, m)
      case LookupFails(e) => r == Failure(e) && after == before
  }

  /** Everything that a private handler does in a calm world. */
  ghost predicate CalmlyHandled(tables: Tables, befriended: bool, before: Visible, after: Visible, request: Request,
                                w: PrivateWorld, r: Result<MessageRecord>)
    requires request.PrivateMessage?
  {
    if !GoodRequest(request) || !befriended then r == Failure(InvalidArgument) && after == before
    else if !Conversation.CanTalk(request.sender, request.receiver) then r.Failure? && after == before
    else if w.found.LookupFails? then r == Failure(w.found.error) && after == before
    else CalmlyDelivered(tables, before, after, request, w.found == Online, w, r)
  }

  /** From the save on. */
  ghost predicate CalmlyDelivered(tables: Tables, before: Visible, after: Visible, request: Request, online: bool,
                                  w: PrivateWorld, r: Result<MessageRecord>)
    requires request.PrivateMessage?
  {
    if ClientIdIsFree(tables, request.sender, ClientId(request)) then
      && r.Success? && r.value.messageId == w.id && DeliveryRuns.AsRequested(request, r.value)
      && SentNew(before, after, r.value, online && w.accepted)
    else
      exists id :: id in tables.messages && Matches(tables.messages[id], request.sender, ClientId(request))
                   && SentAgain(before, after, tables.messages[id], IsDelivered(tables, ReceiverSlot(tables.messages[id])), w, r)
  }

  // ---- The same for a group -----------------------------------------------------------------------

  ghost predicate CalmGroup(w: GroupWorld) {
    && (forall k :: w.others(k) == []) && (forall k, i :: w.othersInLoop(k, i) == [])
    && w.known && 0 !in w.members && w.gatherFault.NoFault? && w.storeFault.NoFault?
    && (forall i :: w.made(i)) && (forall i :: w.refusal(i).None?) && (forall i :: !w.found(i).LookupFails?)
  }

  /** The lists hold the members but the sender, each where its look-up puts it. */
  ghost predicate Sorted(members: seq<UserId>, sender: UserId, found: nat -> Lookup, n: nat,
                         online: seq<UserId>, offline: seq<UserId>)
    requires n <= |members|
  {
    && (forall x :: 0 <= x < n && members[x] != sender ==>
          && (members[x] in online <==> found(x) == Online)
          && (members[x] in offline <==> found(x) == Offline))
    && (forall u :: u in online || u in offline ==> u in members[..n] && u != sender)
    && Distinct(offline)
  }

  function CountAll(unread: map<Counter, nat>, users: seq<UserId>, conversation: ConversationKey): (u: map<Counter, nat>)
    decreases |users|
  {
    if |users| == 0 then unread
    else CountAll(OneMoreUnread(unread, Counter(users[0], conversation)), users[1..], conversation)
  }

  function Unread(unread: map<Counter, nat>, c: Counter): (n: nat) {
    if c in unread then unread[c] else 0
  }

  lemma {:induction false} CountAllMeans(unread: map<Counter, nat>, users: seq<UserId>, conversation: ConversationKey, c: Counter)
    requires Distinct(users)
    ensures Unread(CountAll(unread, users, conversation), c)
         == Unread(unread, c) + if c.conversation == conversation && c.user in users then 1 else 0
    decreases |users|
  {
    if |users| > 0 {
      assert users == [users[0]] + users[1..];
      assert users[0] !in users[1..];
      assert forall i, j :: 0 <= i < j < |users[1..]| ==> users[1..][i] == users[i + 1] && users[1..][j] == users[j + 1];
      CountAllMeans(OneMoreUnread(unread, Counter(users[0], conversation)), users[1..], conversation, c);
    }
  }

  /** In a calm world a group message is stored, each other member that was found offline has
      a row and one more unread message, each that was found online an accepted push, and
      nothing else happens. */
  ghost predicate SentToGroup(before: Visible, after: Visible, request: Request, m: MessageRecord, w: GroupWorld)
    requires request.GroupMessage?
  {
    && m.messageId == w.id && DeliveryRuns.AsRequested(request, m)
    && after.messages == before.messages[w.id := m]
    && (forall x :: 0 <= x < |w.members| && w.members[x] != request.sender ==>
          && (Slot(w.members[x], w.id) in after.rows <==> w.found(x) == Offline)
          && (Slot(w.members[x], w.id) in after.pushed <==> Slot(w.members[x], w.id) in before.pushed || w.found(x) == Online)
          && Unread(after.unread, Counter(w.members[x], m.conversation))
               == Unread(before.unread, Counter(w.members[x], m.conversation)) + if w.found(x) == Offline then 1 else 0)
    && (forall s: Slot :: s.message != w.id || s.user !in w.members || s.user == request.sender ==>
          && (s in after.rows <==> s in before.rows) && (s in after.pushed <==> s in before.pushed))
    && (forall c: Counter :: c.conversation != m.conversation || c.user !in w.members || c.user == request.sender ==>
          Unread(after.unread, c) == Unread(before.unread, c))
  }

  class Server {
    const storage: MySqlStorage
    const friends: Friends.FriendDao
    var pushed: set<Slot>
    var counted: multiset<Slot>
    var unread: map<Counter, nat>
    // the whole server as the machine sees it; a handler itself uses only the objects above
    var system: System
    // the path that the current handler has made
    ghost var start: System
    ghost var steps: seq<Step>

    ghost predicate Agrees()
      reads this, storage, friends
    {
      && system.tables == storage.tables && system.friends == friends.Model()
      && system.pushed == pushed && system.counted == counted && system.unread == unread
    }

    ghost predicate OnPath()
      reads this
    {
      DeliveryRuns.Inv(system) && IsPath(start, steps) && system == End(start, steps)
    }

    ghost predicate Valid()
      reads this, storage, friends
    {
      Agrees() && OnPath()
    }

    /** The handler of this job is here. */
    ghost predicate At(job: nat, request: Request, phase: Phase)
      reads this
    {
      job in system.jobs && system.jobs[job].request == request && system.jobs[job].phase == phase
    }

    ghost function Seen(): (v: Visible)
      reads this, storage
    {
      Visible(storage.tables.messages, storage.tables.offline.Keys, pushed, unread)
    }

    constructor ()
      ensures Valid() && fresh(storage) && fresh(friends) && Init(system)
    {
      storage := new MySqlStorage();
      friends := new Friends.FriendDao();
      pushed, counted, unread := {}, multiset{}, map[];
      system := System(Tables(map[], map[], map[]), Friends.Tables(map[], {}), map[], {}, multiset{}, map[], true);
      start := System(Tables(map[], map[], map[]), Friends.Tables(map[], {}), map[], {}, multiset{}, map[], true);
      steps := [];
      new;
      DeliveryRuns.InitKeeps(system);
    }

    /** One step of the machine. */
    method Follow(e: Step)
      requires OnPath() && Enabled(system, e)
      modifies this`system, this`steps
      ensures OnPath() && system == After(old(system), e) && steps == old(steps) + [e]
    {
      hide DeliveryRuns.Inv, Enabled, After, IsPath, End;
      OneMore(start, steps, e);
      Follows(system, e);
      DeliveryRuns.StepKeeps(system, After(system, e));
      system, steps := After(system, e), steps + [e];
    }

    /** Others run: any of their steps that can happen, in any order. */
    method Yield(own: Option<nat>, id: MessageId, others: seq<Step>)
      requires Valid()
      modifies this, storage, friends
      ensures Valid() && start == old(start) && old(steps) <= steps && LeavesAlone(old(system), system, own, id)
      ensures others == [] ==> system == old(system) && steps == old(steps) && Seen() == old(Seen())
      ensures forall e :: e in steps ==> e in old(steps) || IsForeign(e, own, id)
    {
      hide DeliveryRuns.Inv, IsPath, End, Enabled, After, LeavesAlone, Unused, IsForeign;
      NobodyMoves(system, own, id);
      for i := 0 to |others|
        invariant OnPath() && start == old(start) && old(steps) <= steps && LeavesAlone(old(system), system, own, id)
        invariant i == 0 ==> system == old(system) && steps == old(steps)
        invariant forall e :: e in steps ==> e in old(steps) || IsForeign(e, own, id)
      {
        if IsForeign(others[i], own, id) && Enabled(system, others[i]) {
          ForeignLeavesAlone(system, others[i], own, id);
          LeavesAloneTwice(old(system), system, After(system, others[i]), own, id);
          Follow(others[i]);
        }
      }
      storage.tables := system.tables;
      friends.requests, friends.friendships := system.friends.requests, system.friends.friendships;
      pushed, counted, unread := system.pushed, system.counted, system.unread;
    }

    /** Redis `incrUnread` by one. */
    method IncrUnread(slot: Slot, conversation: ConversationKey)
      modifies this`counted, this`unread
      ensures counted == old(counted) + multiset{slot}
      ensures unread == OneMoreUnread(old(unread), Counter(slot.user, conversation))
    {
      var c := Counter(slot.user, conversation);
      counted := counted + multiset{slot};
      unread := unread[c := (if c in unread then unread[c] else 0) + 1];
    }

    /** `incrementUnreadForMessage`: a failure is only logged. */
    method CountUnread(job: nat, request: Request, m: MessageRecord, w: PrivateWorld)
      requires Valid() && At(job, request, Counting(m))
      modifies this, storage, friends
      ensures Valid() && At(job, request, Answered(m)) && start == old(start)
      ensures Calm(w) ==>
                Seen() == old(Seen()).(unread := OneMoreUnread(old(unread), Counter(m.receiverId, m.conversation)))
    {
      hide DeliveryRuns.Inv, DeliveryRuns.Later, IsPath, End, Enabled, After;
      Yield(Some(job), w.id, w.others(8));
      CountStep(system, job, w.made);
      Follow(Count(job, w.made));
      if w.made {
        IncrUnread(ReceiverSlot(m), m.conversation);
      }
    }

    /** The row of `ensureOfflineFallback`. */
    method SaveFallback(job: nat, request: Request, m: MessageRecord, w: PrivateWorld) returns (saved: Result<()>)
      requires Valid() && At(job, request, FallingBack(m))
      modifies this, storage, friends
      ensures Valid() && start == old(start)
      ensures At(job, request, match saved
                               case Success(_) => Counting(m)
                               case Failure(e) => if e.AlreadyExists? then Answered(m) else Failed(e))
      ensures Calm(w) ==>
                && (saved.Failure? <==> Slot(m.receiverId, m.messageId) in old(Seen()).rows)
                && (saved.Failure? ==> saved.error == AlreadyExists)
                && Seen() == old(Seen()).(rows := old(Seen()).rows + {Slot(m.receiverId, m.messageId)})
    {
      hide DeliveryRuns.Inv, DeliveryRuns.Later, IsPath, End, Enabled, After, SavingOffline, Schema, IsForeign, Perform;
      Yield(Some(job), w.id, w.others(7));
      InvSchema(system);
      FallbackSaves(system, job, w.fallbackNow);
      var before := storage.tables;
      saved := storage.SaveOfflineMessage(m.receiverId, m.messageId, w.fallbackNow, w.fallbackFault);
      var f := Performed(before, SavingOffline(before, m.receiverId, m.messageId, w.fallbackNow), w.fallbackFault,
                               storage.tables, saved);
      FallBackStep(system, job, w.fallbackNow, f, storage.tables, saved);
      Follow(FallBack(job, w.fallbackNow, f));
    }

    /** `ensureOfflineFallback`. */
    method EnsureOfflineFallback(job: nat, request: Request, m: MessageRecord, w: PrivateWorld)
      returns (r: Result<MessageRecord>)
      requires Valid() && At(job, request, FallingBack(m))
      modifies this, storage, friends
      ensures Valid() && At(job, request, EndPhase(r)) && start == old(start)
      ensures r.Success? ==> r.value == m
      ensures Calm(w) ==> r == Success(m) && FellBack(old(Seen()), Seen(), m)
    {
      hide Agrees, OnPath, OneMoreUnread;
      var saved := SaveFallback(job, request, m, w);
      if saved.Success? {
        CountUnread(job, request, m, w);
        return Success(m);
      }
      if saved.error.AlreadyExists? {
        assert Calm(w) ==> old(Seen()).rows + {Slot(m.receiverId, m.messageId)} == old(Seen()).rows;
        return Success(m);
      }
      return Failure(saved.error);
    }

    /** `pushPrivateOrFallback`. */
    method PushPrivateOrFallback(job: nat, request: Request, m: MessageRecord, w: PrivateWorld)
      returns (r: Result<MessageRecord>)
      requires Valid() && At(job, request, Pushing(m))
      modifies this, storage, friends
      ensures Valid() && At(job, request, EndPhase(r)) && start == old(start)
      ensures r.Success? ==> r.value == m
      ensures Calm(w) ==>
                r == Success(m) && (if w.accepted then OnlyPushed(old(Seen()), Seen(), m) else FellBack(old(Seen()), Seen(), m))
    {
      hide DeliveryRuns.Inv, DeliveryRuns.Later, IsPath, End, Enabled, After, OneMoreUnread;
      Yield(Some(job), w.id, w.others(6));
      PushStep(system, job, w.accepted);
      Follow(Push(job, w.accepted));
      if w.accepted {
        pushed := pushed + {ReceiverSlot(m)};
        return Success(m);
      }
      r := EnsureOfflineFallback(job, request, m, w);
    }

    /** The part of the handler for a client id that is already stored. */
    method Retry(job: nat, request: Request, w: PrivateWorld) returns (r: Result<MessageRecord>)
      requires Valid() && request.PrivateMessage? && At(job, request, Finding)
      requires request.sender != 0 && ClientId(request) != []
      modifies this, storage, friends
      ensures Valid() && At(job, request, EndPhase(r)) && start == old(start)
      ensures Calm(w) && HasClientId(old(storage.tables), request.sender, ClientId(request)) ==>
                CalmlyDelivered(old(storage.tables), old(Seen()), Seen(), request, true, w, r)
    {
      hide Agrees, OnPath, OneMoreUnread, OnlyPushed, FellBack, IsDelivered, HasClientId, SentAgain;
      var found := FindForRetry(job, request, w);
      if found.Failure? {
        return Failure(found.error);
      }
      r := Redeliver(job, request, found.value, w);
      if Calm(w) && HasClientId(old(storage.tables), request.sender, ClientId(request)) {
        TakenIsNotFree(old(storage.tables), request.sender, ClientId(request), found.value.messageId);
      }
    }

    /** `findMessageByClientMessageId`. */
    method FindForRetry(job: nat, request: Request, w: PrivateWorld) returns (found: Result<MessageRecord>)
      requires Valid() && request.PrivateMessage? && At(job, request, Finding)
      requires request.sender != 0 && ClientId(request) != []
      modifies this, storage, friends
      ensures Valid() && start == old(start)
      ensures At(job, request, match found case Success(m) => CheckingDelivered(m) case Failure(e) => Failed(e))
      ensures Calm(w) ==> storage.tables == old(storage.tables) && Seen() == old(Seen())
      ensures Calm(w) && HasClientId(old(storage.tables), request.sender, ClientId(request)) ==>
                && found.Success? && found.value.messageId in old(storage.tables.messages)
                && old(storage.tables.messages)[found.value.messageId] == found.value
                && Matches(found.value, request.sender, ClientId(request))
    {
      hide DeliveryRuns.Inv, DeliveryRuns.Later, IsPath, End, Enabled, After, Matches, HasClientId, Schema, IsForeign;
      Yield(Some(job), w.id, w.others(3));
      InvSchema(system);
      found := storage.FindMessageByClientMessageId(request.sender, ClientId(request), w.findFault);
      var f := if found.Success? || found.error.NotFound? then NoFault else w.findFault;
      FindStep(system, job, if found.Success? then found.value.messageId else 0, f, found);
      Follow(Find(job, if found.Success? then found.value.messageId else 0, f));
    }

    /** `isMessageAlreadyDelivered`. */
    method IsMessageAlreadyDelivered(job: nat, request: Request, m: MessageRecord, w: PrivateWorld) returns (r: Result<bool>)
      requires Valid() && At(job, request, CheckingDelivered(m))
      modifies this, storage, friends
      ensures Valid() && start == old(start)
      ensures At(job, request, match r
                               case Failure(e) => Failed(e)
                               case Success(delivered) => if delivered then Answered(m) else LookingAgain(m))
      ensures Calm(w) ==> storage.tables == old(storage.tables) && Seen() == old(Seen())
      ensures Calm(w) && m.receiverId != 0 && m.messageId != 0 ==>
                r == Success(IsDelivered(old(storage.tables), ReceiverSlot(m)))
    {
      hide DeliveryRuns.Inv, DeliveryRuns.Later, IsPath, End, Enabled, After;
      Yield(Some(job), w.id, w.others(4));
      var status := storage.FindDeliveryStatus(m.receiverId, m.messageId, w.checkFault);
      var f := if status.Success? || status.error.NotFound? then NoFault else w.checkFault;
      CheckStep(system, job, f);
      Follow(CheckDelivered(job, f));
      if status.Failure? && !status.error.NotFound? {
        return Failure(status.error);
      }
      return Success(status.Success? && status.value >= DELIVERED);
    }

    method Redeliver(job: nat, request: Request, m: MessageRecord, w: PrivateWorld)
      returns (r: Result<MessageRecord>)
      requires Valid() && At(job, request, CheckingDelivered(m))
      modifies this, storage, friends
      ensures Valid() && At(job, request, EndPhase(r)) && start == old(start)
      ensures Calm(w) ==> SentAgain(old(Seen()), Seen(), m, IsDelivered(old(storage.tables), ReceiverSlot(m)), w, r)
    {
      HeldIsGood(system, job);
      hide Agrees, OnPath, OneMoreUnread, OnlyPushed, FellBack, IsDelivered;
      var delivered := IsMessageAlreadyDelivered(job, request, m, w);
      if delivered.Failure? {
        return Failure(delivered.error);
      }
      if delivered.value {
        return Success(m);
      }
      r := LookAndRedeliver(job, request, m, w);
    }

    method LookAndRedeliver(job: nat, request: Request, m: MessageRecord, w: PrivateWorld)
      returns (r: Result<MessageRecord>)
      requires Valid() && At(job, request, LookingAgain(m))
      modifies this, storage, friends
      ensures Valid() && At(job, request, EndPhase(r)) && start == old(start)
      ensures Calm(w) ==> SentAgain(old(Seen()), Seen(), m, false, w, r)
    {
      hide DeliveryRuns.Inv, DeliveryRuns.Later, IsPath, End, Enabled, After, OneMoreUnread, OnlyPushed, FellBack;
      Yield(Some(job), w.id, w.others(5));
      LookAgainStep(system, job, w.foundAgain);
      Follow(LookAgain(job, w.foundAgain));
      match w.foundAgain {
        case Online => r := PushPrivateOrFallback(job, request, m, w);
        case Offline => r := EnsureOfflineFallback(job, request, m, w);
        case LookupFails(e) => r := Failure(e);
      }
    }

    /** The save of a private message; an offline receiver gets its row with it. */
    method StoreMessage(job: nat, request: Request, message: MessageRecord, online: bool, w: PrivateWorld)
      returns (r: Result<MessageRecord>)
      requires Valid() && request.PrivateMessage? && At(job, request, Storing(online))
      requires PrivateRecord(request) == Success(message) && Unused(storage.tables, w.id)
      modifies this, storage, friends
      ensures Valid() && start == old(start)
      ensures At(job, request, match r
                               case Success(m) => if online then Pushing(m) else Counting(m)
                               case Failure(e) => if e.AlreadyExists? && ClientId(request) != [] then Finding else Failed(e))
      ensures Calm(w) ==>
                && (r.Success? <==> ClientIdIsFree(old(storage.tables), request.sender, ClientId(request)))
                && (r.Failure? ==> r.error == AlreadyExists && storage.tables == old(storage.tables) && Seen() == old(Seen()))
                && (r.Success? ==>
                      && r.value.messageId == w.id && DeliveryRuns.AsRequested(request, r.value)
                      && r.value.receiverId == request.receiver
                      && Seen() == old(Seen()).(
                           messages := old(Seen()).messages[w.id := r.value],
                           rows := if online then old(Seen()).rows else old(Seen()).rows + {Slot(request.receiver, w.id)})
                      && Slot(request.receiver, w.id) !in old(Seen()).rows)
    {
      hide DeliveryRuns.Inv, DeliveryRuns.Later, IsPath, End, Enabled, After, Saving, PrivateRecord, Schema, ClientIdIsFree,
        DeliveryRuns.AsRequested, IsForeign, Perform;
      Yield(Some(job), w.id, w.others(2));
      InvSchema(system);
      PrivateSaves(system, job, w.id, w.now);
      var offline := if online then [] else [request.receiver];
      var before := storage.tables;
      r := storage.SaveMessageWithOfflineRecipients(message, offline, w.id, w.now, w.storeFault);
      var f := Performed(before, Saving(before, message, offline, w.id, w.now), w.storeFault, storage.tables, r);
      StoreStep(system, job, w.id, w.now, f, storage.tables, r);
      Follow(Store(job, w.id, w.now, f));
    }

    /** The save, and what follows from its result. */
    method StoreAndDeliver(job: nat, request: Request, message: MessageRecord, online: bool, w: PrivateWorld)
      returns (r: Result<MessageRecord>)
      requires Valid() && request.PrivateMessage? && At(job, request, Storing(online)) && request.sender != 0
      requires PrivateRecord(request) == Success(message) && Unused(storage.tables, w.id)
      modifies this, storage, friends
      ensures Valid() && At(job, request, EndPhase(r)) && start == old(start)
      ensures Calm(w) ==> CalmlyDelivered(old(storage.tables), old(Seen()), Seen(), request, online, w, r)
    {
      hide Agrees, OnPath, OneMoreUnread, ClientIdIsFree, HasClientId, SentAgain, DeliveryRuns.AsRequested, PrivateRecord;
      var saved := StoreMessage(job, request, message, online, w);
      if saved.Failure? {
        if Calm(w) {
          NotFreeIsTaken(old(storage.tables), request.sender, ClientId(request));
        }
        if !saved.error.AlreadyExists? || ClientId(request) == [] {
          return Failure(saved.error);
        }
        r := Retry(job, request, w);
      } else if online {
        r := PushPrivateOrFallback(job, request, saved.value, w);
      } else {
        CountUnread(job, request, saved.value, w);
        r := Success(saved.value);
      }
    }

    /** The checks before the session look-up; the record to be saved. */
    method Admit(job: nat, request: Request, w: PrivateWorld) returns (r: Result<MessageRecord>)
      requires Valid() && request.PrivateMessage? && At(job, request, Asking)
      requires GoodRequest(request) && request.sender != 0 && Unused(storage.tables, w.id)
      modifies this, storage, friends
      ensures Valid() && start == old(start) && Unused(storage.tables, w.id)
      ensures r.Success? ==> At(job, request, Looking) && r == PrivateRecord(request)
      ensures r.Failure? ==> At(job, request, Failed(r.error))
      ensures !w.known ==> r == Failure(NotFound)
      ensures Calm(w) ==>
                && storage.tables == old(storage.tables) && Seen() == old(Seen())
                && (r.Success? <==> Friends.Pair(request.sender, request.receiver) in old(friends.friendships)
                                    && Conversation.CanTalk(request.sender, request.receiver))
                && (Friends.Pair(request.sender, request.receiver) !in old(friends.friendships) ==>
                      r == Failure(InvalidArgument))
    {
      hide DeliveryRuns.Inv, DeliveryRuns.Later, IsPath, End, Enabled, After, PrivateRecord;
      RecordsOfTalkers(request);
      Yield(Some(job), w.id, w.others(0));
      if !w.known {
        AskStep(system, job, false, NoFault);
        Follow(AskFriends(job, false, NoFault));
        return Failure(NotFound);
      }
      var areFriends := friends.AreFriends(Friends.Pair(request.sender, request.receiver), w.askFault);
      AskStep(system, job, true, if areFriends.Failure? then w.askFault else NoFault);
      Follow(AskFriends(job, true, if areFriends.Failure? then w.askFault else NoFault));
      if areFriends.Failure? {
        return Failure(areFriends.error);
      }
      if !areFriends.value {
        return Failure(InvalidArgument);
      }
      return PrivateRecord(request);
    }

    /** `ChatService::handlePrivateMessage`, from the point where the sender is known. */
    method HandlePrivateMessage(job: nat, request: Request, w: PrivateWorld) returns (r: Result<MessageRecord>)
      requires Valid() && job !in system.jobs && request.PrivateMessage? && request.sender != 0
      requires Unused(storage.tables, w.id)
      modifies this, storage, friends
      ensures Valid() && At(job, request, EndPhase(r)) && start == old(system)
      ensures !GoodRequest(request) ==> r == Failure(InvalidArgument) && Seen() == old(Seen())
      ensures GoodRequest(request) && !w.known ==> r == Failure(NotFound)
      ensures Calm(w) ==>
                CalmlyHandled(old(storage.tables), Friends.Pair(request.sender, request.receiver) in old(friends.friendships),
                              old(Seen()), Seen(), request, w, r)
    {
      hide DeliveryRuns.Inv, DeliveryRuns.Later, IsPath, End, Enabled, After, PrivateRecord, GoodRequest, CalmlyDelivered;
      start, steps := system, [];
      EmptyPath(system);
      BeginStep(system, job, request);
      Follow(Begin(job, request));
      if !GoodRequest(request) {
        return Failure(InvalidArgument);
      }
      var message := Admit(job, request, w);
      if message.Failure? {
        return message;
      }
      r := LookAndDeliver(job, request, message.value, w);
    }

    method LookAndDeliver(job: nat, request: Request, message: MessageRecord, w: PrivateWorld)
      returns (r: Result<MessageRecord>)
      requires Valid() && request.PrivateMessage? && At(job, request, Looking) && request.sender != 0
      requires PrivateRecord(request) == Success(message) && Unused(storage.tables, w.id)
      modifies this, storage, friends
      ensures Valid() && At(job, request, EndPhase(r)) && start == old(start)
      ensures Calm(w) ==>
                if w.found.LookupFails? then r == Failure(w.found.error) && Seen() == old(Seen())
                else CalmlyDelivered(old(storage.tables), old(Seen()), Seen(), request, w.found == Online, w, r)
    {
      hide DeliveryRuns.Inv, DeliveryRuns.Later, IsPath, End, Enabled, After, PrivateRecord, CalmlyDelivered;
      Yield(Some(job), w.id, w.others(1));
      LookStep(system, job, w.found);
      Follow(Look(job, w.found));
      match w.found {
        case Online => r := StoreAndDeliver(job, request, message, true, w);
        case Offline => r := StoreAndDeliver(job, request, message, false, w);
        case LookupFails(e) => r := Failure(e);
      }
    }

    /** The loop over the members: who is online, who is not. */
    method PartitionMembers(job: nat, request: Request, w: GroupWorld)
      returns (failed: Option<ErrorCode>, online: seq<UserId>, offline: seq<UserId>)
      requires Valid() && job in system.jobs && system.jobs[job] == Job(request, w.members, Partitioning(0, [], []))
      requires Unused(storage.tables, w.id)
      modifies this, storage, friends
      ensures Valid() && start == old(start) && Unused(storage.tables, w.id) && job in system.jobs
      ensures failed.None? ==> system.jobs[job] == Job(request, w.members, Partitioning(|w.members|, online, offline))
      ensures failed.Some? ==> At(job, request, Failed(failed.value))
      ensures failed.None? ==> Sorted(w.members, request.sender, w.found, |w.members|, online, offline)
      ensures failed.Some? ==> exists x :: 0 <= x < |w.members| && w.found(x) == LookupFails(failed.value)
      ensures CalmGroup(w) ==> Seen() == old(Seen())
    {
      hide Agrees, OnPath, Unused, Sorted, Distinct;
      DistinctHere(job);
      online, offline := [], [];
      NothingSorted(w.members, request.sender, w.found);
      for i := 0 to |w.members|
        invariant Valid() && start == old(start) && Unused(storage.tables, w.id) && job in system.jobs
        invariant system.jobs[job] == Job(request, w.members, Partitioning(i, online, offline))
        invariant Sorted(w.members, request.sender, w.found, i, online, offline)
        invariant CalmGroup(w) ==> Seen() == old(Seen())
      {
        var member := w.members[i];
        LookUpMember(job, request, w, i, online, offline);
        OneMoreSorted(w.members, request.sender, w.found, i, online, offline);
        if member == request.sender {
          continue;
        }
        match w.found(i) {
          case Online => online := online + [member];
          case Offline => offline := offline + [member];
          case LookupFails(e) => return Some(e), online, offline;
        }
      }
      return None, online, offline;
    }

    lemma DistinctHere(job: nat)
      requires Valid() && job in system.jobs && system.jobs[job].phase.Partitioning?
      ensures Distinct(system.jobs[job].members)
    {
      hide DeliveryRuns.Inv, IsPath, End;
      MembersAreDistinct(system, job);
    }

    /** One turn of the loop, as the machine sees it. */
    method LookUpMember(job: nat, request: Request, w: GroupWorld, i: nat, online: seq<UserId>, offline: seq<UserId>)
      requires Valid() && job in system.jobs && i < |w.members|
      requires system.jobs[job] == Job(request, w.members, Partitioning(i, online, offline))
      requires Unused(storage.tables, w.id)
      modifies this, storage, friends
      ensures Valid() && start == old(start) && Unused(storage.tables, w.id) && job in system.jobs
      ensures system.jobs[job] == Job(request, w.members,
                if w.members[i] == request.sender then Partitioning(i + 1, online, offline)
                else match w.found(i)
                     case Online => Partitioning(i + 1, online + [w.members[i]], offline)
                     case Offline => Partitioning(i + 1, online, offline + [w.members[i]])
                     case LookupFails(e) => Failed(e))
      ensures CalmGroup(w) ==> Seen() == old(Seen())
    {
      hide DeliveryRuns.Inv, DeliveryRuns.Later, IsPath, End, Enabled, After, IsForeign;
      Yield(Some(job), w.id, w.othersInLoop(0, i));
      PartitionStep(system, job, w.found(i));
      Follow(Partition(job, w.found(i)));
    }

    method CountMember(job: nat, request: Request, m: MessageRecord, left: seq<UserId>,
                       online: seq<UserId>, made: bool, id: MessageId, others: seq<Step>)
      requires Valid() && At(job, request, GroupCounting(m, left, online)) && left != []
      modifies this, storage, friends
      ensures Valid() && start == old(start) && At(job, request, GroupCounting(m, left[1..], online))
      ensures others == [] && made ==>
                Seen() == old(Seen()).(unread := OneMoreUnread(old(unread), Counter(left[0], m.conversation)))
    {
      hide DeliveryRuns.Inv, DeliveryRuns.Later, IsPath, End, Enabled, After, IsForeign;
      Yield(Some(job), id, others);
      GroupCountStep(system, job, made);
      Follow(GroupCount(job, made));
      if made {
        IncrUnread(Slot(left[0], m.messageId), m.conversation);
      }
    }

    /** The unread loop. */
    method CountOffline(job: nat, request: Request, m: MessageRecord, offline: seq<UserId>,
                        online: seq<UserId>, w: GroupWorld)
      requires Valid() && At(job, request, GroupCounting(m, offline, online))
      modifies this, storage, friends
      ensures Valid() && start == old(start) && At(job, request, GroupCounting(m, [], online))
      ensures CalmGroup(w) ==> Seen() == old(Seen()).(unread := CountAll(old(unread), offline, m.conversation))
    {
      hide Agrees, OnPath, OneMoreUnread;
      assert offline[0..] == offline;
      for i := 0 to |offline|
        invariant Valid() && start == old(start) && At(job, request, GroupCounting(m, offline[i..], online))
        invariant CalmGroup(w) ==>
                    && Seen() == old(Seen()).(unread := unread)
                    && CountAll(unread, offline[i..], m.conversation) == CountAll(old(unread), offline, m.conversation)
      {
        assert offline[i..][1..] == offline[i + 1..];
        CountMember(job, request, m, offline[i..], online, w.made(i), w.id, w.othersInLoop(1, i));
      }
      assert offline[|offline|..] == [];
    }

    method PushMember(job: nat, request: Request, m: MessageRecord, left: seq<UserId>, refusal: Option<ErrorCode>,
                      id: MessageId, others: seq<Step>)
      requires Valid() && At(job, request, GroupPushing(m, left)) && left != []
      modifies this, storage, friends
      ensures Valid() && start == old(start)
      ensures At(job, request, if refusal.Some? then Failed(refusal.value) else GroupPushing(m, left[1..]))
      ensures others == [] && refusal.None? ==>
                Seen() == old(Seen()).(pushed := old(pushed) + {Slot(left[0], m.messageId)})
    {
      hide DeliveryRuns.Inv, DeliveryRuns.Later, IsPath, End, Enabled, After, IsForeign;
      Yield(Some(job), id, others);
      GroupPushStep(system, job, refusal);
      Follow(GroupPush(job, refusal));
      if refusal.None? {
        pushed := pushed + {Slot(left[0], m.messageId)};
      }
    }

    /** The push loop; the first refusal ends it. */
    method PushOnline(job: nat, request: Request, m: MessageRecord, online: seq<UserId>, w: GroupWorld)
      returns (refused: Option<ErrorCode>)
      requires Valid() && At(job, request, GroupPushing(m, online))
      modifies this, storage, friends
      ensures Valid() && start == old(start)
      ensures At(job, request, if refused.Some? then Failed(refused.value) else GroupPushing(m, []))
      ensures CalmGroup(w) ==>
                refused.None? && Seen() == old(Seen()).(pushed := old(pushed) + SlotsOf(online, m.messageId))
    {
      hide Agrees, OnPath, SlotsOf;
      assert online[0..] == online;
      NoSlots(old(pushed), m.messageId);
      for i := 0 to |online|
        invariant Valid() && start == old(start) && At(job, request, GroupPushing(m, online[i..]))
        invariant CalmGroup(w) ==>
                    Seen() == old(Seen()).(pushed := old(pushed) + SlotsOf(online[..i], m.messageId))
      {
        OneMoreSlot(old(pushed), online, i, m.messageId);
        assert online[i..][1..] == online[i + 1..];
        PushMember(job, request, m, online[i..], w.refusal(i), w.id, w.othersInLoop(2, i));
        if w.refusal(i).Some? {
          return w.refusal(i);
        }
      }
      assert online[|online|..] == [] && online[..|online|] == online;
      return None;
    }

    /** `GroupService::handleGroupMessage`, from the point where the sender is known. */
    method HandleGroupMessage(job: nat, request: Request, w: GroupWorld) returns (r: Result<MessageRecord>)
      requires Valid() && job !in system.jobs && request.GroupMessage? && request.sender != 0
      requires Unused(storage.tables, w.id) && Distinct(w.members)
      modifies this, storage, friends
      ensures Valid() && At(job, request, EndPhase(r)) && start == old(system)
      ensures !GoodRequest(request) ==> r == Failure(InvalidArgument) && Seen() == old(Seen())
      ensures GoodRequest(request) && !w.known ==> r == Failure(NotFound)
      ensures r.Success? ==> GoodRequest(request) && w.known && w.gatherFault.NoFault? && request.sender in w.members
      ensures GoodRequest(request) && w.known && w.gatherFault.NoFault? && request.sender !in w.members ==>
                r == Failure(InvalidArgument) && forall e :: e in steps ==> !(e.GroupStore? && e.job == job)
      ensures CalmGroup(w) && GoodRequest(request) && request.sender in w.members ==>
                r.Success? && SentToGroup(old(Seen()), Seen(), request, r.value, w)
    {
      hide DeliveryRuns.Inv, DeliveryRuns.Later, IsPath, End, Enabled, After, GoodRequest, SentToGroup;
      start, steps := system, [];
      EmptyPath(system);
      BeginStep(system, job, request);
      Follow(Begin(job, request));
      if !GoodRequest(request) {
        return Failure(InvalidArgument);
      }
      r := GatherAndSend(job, request, w);
    }

    method GatherAndSend(job: nat, request: Request, w: GroupWorld) returns (r: Result<MessageRecord>)
      requires Valid() && request.GroupMessage? && At(job, request, Gathering)
      requires Unused(storage.tables, w.id) && Distinct(w.members)
      modifies this, storage, friends
      ensures Valid() && At(job, request, EndPhase(r)) && start == old(start)
      ensures !w.known ==> r == Failure(NotFound)
      ensures r.Success? ==> w.known && w.gatherFault.NoFault? && request.sender in w.members
      ensures w.known && w.gatherFault.NoFault? && request.sender !in w.members ==>
                r == Failure(InvalidArgument) && forall e :: e in steps ==> e in old(steps) || !(e.GroupStore? && e.job == job)
      ensures CalmGroup(w) && request.sender in w.members ==>
                r.Success? && SentToGroup(old(Seen()), Seen(), request, r.value, w)
    {
      hide DeliveryRuns.Inv, DeliveryRuns.Later, IsPath, End, Enabled, After, SentToGroup;
      Yield(Some(job), w.id, w.others(0));
      GatherStep(system, job, w.known, w.members, w.gatherFault);
      Follow(Gather(job, w.known, w.members, w.gatherFault));
      if !w.known {
        return Failure(NotFound);
      }
      if !w.gatherFault.NoFault? {
        return Failure(w.gatherFault.error);
      }
      if request.sender !in w.members {
        return Failure(InvalidArgument);
      }
      r := StoreAndPush(job, request, w);
    }

    method StoreAndPush(job: nat, request: Request, w: GroupWorld) returns (r: Result<MessageRecord>)
      requires Valid() && job in system.jobs && system.jobs[job] == Job(request, w.members, Partitioning(0, [], []))
      requires request.GroupMessage? && Unused(storage.tables, w.id)
      modifies this, storage, friends
      ensures Valid() && start == old(start) && At(job, request, EndPhase(r))
      ensures CalmGroup(w) ==> r.Success? && SentToGroup(old(Seen()), Seen(), request, r.value, w)
    {
      hide Agrees, OnPath, Unused, CountAll, SlotsOf, DeliveryRuns.AsRequested, Sorted, SentToGroup, Distinct;
      var failed, online, offline := PartitionMembers(job, request, w);
      if failed.Some? {
        return Failure(failed.value);
      }
      SortedAreMembers(w.members, request.sender, w.found, online, offline);
      r := StoreForGroup(job, request, online, offline, w);
      if r.Success? {
        r := CountAndPush(job, request, r.value, online, offline, w);
      }
      if CalmGroup(w) {
        AllSent(old(Seen()), Seen(), request, r.value, w, online, offline);
      }
    }

    method StoreForGroup(job: nat, request: Request, online: seq<UserId>, offline: seq<UserId>, w: GroupWorld)
      returns (r: Result<MessageRecord>)
      requires Valid() && request.GroupMessage? && Unused(storage.tables, w.id) && job in system.jobs
      requires system.jobs[job] == Job(request, w.members, Partitioning(|w.members|, online, offline))
      modifies this, storage, friends
      ensures Valid() && start == old(start)
      ensures At(job, request, if r.Success? then GroupCounting(r.value, offline, online) else Failed(r.error))
      ensures CalmGroup(w) && 0 !in offline ==>
                && r.Success? && r.value.messageId == w.id && DeliveryRuns.AsRequested(request, r.value)
                && Seen() == old(Seen()).(messages := old(Seen()).messages[w.id := r.value],
                                          rows := old(Seen()).rows + SlotsOf(offline, w.id))
                && (forall s: Slot :: s.message == w.id ==> s !in old(Seen()).rows)
    {
      hide DeliveryRuns.Inv, DeliveryRuns.Later, IsPath, End, Enabled, After, Saving, Schema, GroupRecord, SlotsOf, IsForeign,
        DeliveryRuns.AsRequested, Perform;
      Yield(Some(job), w.id, w.others(1));
      InvSchema(system);
      GroupSaves(system, job, w.id, w.now);
      var before := storage.tables;
      r := storage.SaveMessageWithOfflineRecipients(GroupRecord(request), offline, w.id, w.now, w.storeFault);
      var f := Performed(before, Saving(before, GroupRecord(request), offline, w.id, w.now), w.storeFault,
                               storage.tables, r);
      GroupStoreStep(system, job, w.id, w.now, f, storage.tables, r);
      Follow(GroupStore(job, w.id, w.now, f));
    }

    method CountAndPush(job: nat, request: Request, m: MessageRecord, online: seq<UserId>, offline: seq<UserId>,
                        w: GroupWorld) returns (r: Result<MessageRecord>)
      requires Valid() && At(job, request, GroupCounting(m, offline, online))
      modifies this, storage, friends
      ensures Valid() && start == old(start) && At(job, request, EndPhase(r))
      ensures CalmGroup(w) ==>
                && r == Success(m)
                && Seen() == old(Seen()).(unread := CountAll(old(unread), offline, m.conversation),
                                          pushed := old(pushed) + SlotsOf(online, m.messageId))
    {
      hide Agrees, OnPath, CountAll, SlotsOf;
      CountOffline(job, request, m, offline, online, w);
      CountsDone(job, request, m, online);
      var refused := PushOnline(job, request, m, online, w);
      if refused.Some? {
        return Failure(refused.value);
      }
      PushesDone(job, request, m);
      return Success(m);
    }

    method CountsDone(job: nat, request: Request, m: MessageRecord, online: seq<UserId>)
      requires Valid() && At(job, request, GroupCounting(m, [], online))
      modifies this`system, this`steps
      ensures Valid() && start == old(start) && At(job, request, GroupPushing(m, online)) && Seen() == old(Seen())
    {
      hide DeliveryRuns.Inv, DeliveryRuns.Later, IsPath, End, Enabled, After;
      GroupCountStep(system, job, true);
      Follow(GroupCount(job, true));
    }

    method PushesDone(job: nat, request: Request, m: MessageRecord)
      requires Valid() && At(job, request, GroupPushing(m, []))
      modifies this`system, this`steps
      ensures Valid() && start == old(start) && At(job, request, Answered(m)) && Seen() == old(Seen())
    {
      hide DeliveryRuns.Inv, DeliveryRuns.Later, IsPath, End, Enabled, After;
      GroupPushStep(system, job, None);
      Follow(GroupPush(job, None));
    }

    /** `ChatService::handleDeliveryAck`. */
    method HandleDeliveryAck(user: UserId, message: MessageId, now: Int64, fault: Fault, others: seq<Step>)
      returns (r: Result<MessageRecord>)
      requires Valid()
      modifies this, storage, friends
      ensures Valid() && start == old(system)
      ensures message == 0 ==> r == Failure(InvalidArgument) && system == old(system)
      ensures r.Success? ==> r.value.receiverId == user && IsDelivered(storage.tables, Slot(user, message))
      ensures others == [] && fault.NoFault? ==>
                (r.Success? <==>
                  && user != 0 && message in old(storage.tables.messages)
                  && old(storage.tables.messages)[message].conversation.kind.Private?
                  && old(storage.tables.messages)[message].receiverId == user)
    {
      hide DeliveryRuns.Inv, DeliveryRuns.Later, IsPath, End, Enabled, After, AckingPrivate, IsDelivered, IsForeign,
        Schema, Consistent;
      NoMessageZero(system);
      start, steps := system, [];
      EmptyPath(system);
      if message == 0 {
        return Failure(InvalidArgument);
      }
      Yield(None, 0, others);
      InvSchema(system);
      AckedIsDelivered(storage.tables, user, message, now);
      var before := storage.tables;
      r := storage.AckPrivateMessageDelivery(user, message, now, fault);
      var f := Performed(before, AckingPrivate(before, user, message, now), fault, storage.tables, r);
      AckDeliveryStep(system, user, message, now, f);
      Follow(AckDelivery(user, message, now, f));
    }

    /** `OfflineMessageService::handleOfflineMessagesAck`.  `cleared` lists the counters that were
        cleared; a failing clear ends the clearing and is only logged. */
    method HandleOfflineMessagesAck(user: UserId, ids: seq<MessageId>, w: AckWorld)
      returns (r: Result<seq<MessageRecord>>, ghost cleared: seq<Counter>)
      requires Valid()
      modifies this, storage, friends
      ensures Valid() && start == old(system)
      ensures ids == [] ==> r == Failure(InvalidArgument) && system == old(system)
      ensures r.Success? ==> forall m :: m in ids ==> IsDelivered(storage.tables, Slot(user, m))
      ensures forall c :: c in cleared ==> ClearUnread(c, true) in steps
      ensures r.Success? && (forall i :: w.clears(i)) ==> forall m :: m in r.value ==> Counter(user, m.conversation) in cleared
    {
      hide DeliveryRuns.Inv, DeliveryRuns.Later, IsPath, End, Acking;
      start, steps, cleared := system, [], [];
      EmptyPath(system);
      if ids == [] {
        return Failure(InvalidArgument), [];
      }
      r := AckInStorage(user, ids, w);
      if r.Failure? {
        return;
      }
      cleared := ClearUnreadForMessages(user, ids, r.value, w);
    }

    method AckInStorage(user: UserId, ids: seq<MessageId>, w: AckWorld) returns (r: Result<seq<MessageRecord>>)
      requires Valid() && ids != []
      modifies this, storage, friends
      ensures Valid() && start == old(start)
      ensures r.Success? ==> forall m :: m in ids ==> IsDelivered(storage.tables, Slot(user, m))
    {
      hide DeliveryRuns.Inv, DeliveryRuns.Later, IsPath, End, Enabled, After, Acking;
      Yield(None, 0, w.others(0));
      InvSchema(system);
      var before := storage.tables;
      AckAllOrNothing(before, user, ids, w.now);
      r := storage.AckOfflineMessages(user, ids, w.now, w.fault);
      var f := Performed(before, Acking(before, user, ids, w.now), w.fault, storage.tables, r);
      AckOfflineStep(system, user, ids, w.now, f);
      Follow(AckOffline(user, ids, w.now, f));
    }

    /** `clearUnreadForMessages`: each conversation once, until a clear fails. */
    method ClearUnreadForMessages(user: UserId, ghost ids: seq<MessageId>, messages: seq<MessageRecord>, w: AckWorld)
      returns (ghost cleared: seq<Counter>)
      requires Valid() && forall m :: m in ids ==> IsDelivered(storage.tables, Slot(user, m))
      modifies this, storage, friends
      ensures Valid() && start == old(start)
      ensures forall m :: m in ids ==> IsDelivered(storage.tables, Slot(user, m))
      ensures forall c :: c in cleared ==> ClearUnread(c, true) in steps
      ensures (forall i :: w.clears(i)) ==> forall m :: m in messages ==> Counter(user, m.conversation) in cleared
    {
      hide Agrees, OnPath, IsDelivered;
      cleared := [];
      var conversations := DistinctConversations(messages);
      for i := 0 to |conversations|
        invariant Valid() && start == old(start)
        invariant forall m :: m in ids ==> IsDelivered(storage.tables, Slot(user, m))
        invariant forall c :: c in cleared ==> ClearUnread(c, true) in steps
        invariant forall k :: 0 <= k < i ==> Counter(user, conversations[k]) in cleared
      {
        ClearOne(Counter(user, conversations[i]), user, ids, w.clears(i), w.others(i + 1));
        if !w.clears(i) {
          return;
        }
        cleared := cleared + [Counter(user, conversations[i])];
      }
      forall m | m in messages ensures Counter(user, m.conversation) in cleared {
        var i :| 0 <= i < |conversations| && conversations[i] == m.conversation;
      }
    }

    method ClearOne(c: Counter, ghost user: UserId, ghost ids: seq<MessageId>, made: bool, others: seq<Step>)
      requires Valid() && forall m :: m in ids ==> IsDelivered(storage.tables, Slot(user, m))
      modifies this, storage, friends
      ensures Valid() && start == old(start) && old(steps) <= steps
      ensures forall m :: m in ids ==> IsDelivered(storage.tables, Slot(user, m))
      ensures ClearUnread(c, made) in steps && (made ==> c !in unread)
    {
      hide DeliveryRuns.Inv, DeliveryRuns.Later, IsPath, End, Enabled, After;
      ghost var before := system;
      Yield(None, 0, others);
      DeliveredStay(before, system, user, ids);
      ClearStep(system, c, made);
      Follow(ClearUnread(c, made));
      if made {
        unread := unread - {c};
      }
      assert steps[|steps| - 1] == ClearUnread(c, made);
    }
  }

  /** To the calls of an offline ack. */
  datatype AckWorld = AckWorld(others: nat -> seq<Step>, now: Int64, fault: Fault, clears: nat -> bool)

  /** The conversations of the messages, each once, in the order of their first message. */
  method DistinctConversations(messages: seq<MessageRecord>) returns (cs: seq<ConversationKey>)
    ensures forall c :: c in cs ==> exists m :: m in messages && m.conversation == c
    ensures forall m :: m in messages ==> m.conversation in cs
    ensures forall i, j :: 0 <= i < j < |cs| ==> cs[i] != cs[j]
  {
    cs := [];
    for i := 0 to |messages|
      invariant forall c :: c in cs ==> exists m :: m in messages[..i] && m.conversation == c
      invariant forall k :: 0 <= k < i ==> messages[k].conversation in cs
      invariant forall k, l :: 0 <= k < l < |cs| ==> cs[k] != cs[l]
    {
      assert messages[i] in messages[..i + 1];
      if messages[i].conversation !in cs {
        cs := cs + [messages[i].conversation];
      }
    }
    assert messages[..|messages|] == messages;
  }

  /** What a handler holds can be stored. */
  lemma HeldIsGood(s: System, job: nat)
    requires DeliveryRuns.Inv(s) && job in s.jobs && (s.jobs[job].phase.FallingBack? || s.jobs[job].phase.CheckingDelivered?)
    ensures var m := s.jobs[job].phase.m; m.receiverId != 0 && m.messageId != 0 && m.messageId in s.tables.messages
  {
    hide DeliveryRuns.Ledger, GoodRequest, RowsAgree, Friends.Inv, Referenced, OneRowPerClientId;
    assert DeliveryRuns.JobOk(s, s.jobs[job]);
    var m := s.jobs[job].phase.m;
    assert DeliveryRuns.MessageOk(s.friends, s.tables.messages[m.messageId]);
  }

  /** When a fallback makes a row. */
  lemma FallbackSaves(s: System, job: nat, now: Int64)
    requires DeliveryRuns.Inv(s) && job in s.jobs && s.jobs[job].phase.FallingBack?
    ensures var m := s.jobs[job].phase.m; var saving := SavingOffline(s.tables, m.receiverId, m.messageId, now);
            if Slot(m.receiverId, m.messageId) in s.tables.offline then saving == Failure(AlreadyExists)
            else
              && saving.Success? && saving.value.tables.messages == s.tables.messages
              && saving.value.tables.offline.Keys == s.tables.offline.Keys + {Slot(m.receiverId, m.messageId)}
  {
    HeldIsGood(s, job);
    InvSchema(s);
    var m := s.jobs[job].phase.m;
    FallbackMakesTheRow(s.tables, m.receiverId, m.messageId, now);
    hide DeliveryRuns.Inv, SavingOffline;
  }

  /** In a calm world the save of a group message succeeds. */
  lemma GroupSaves(s: System, job: nat, id: MessageId, now: Int64)
    requires DeliveryRuns.Inv(s) && job in s.jobs && s.jobs[job].phase.Partitioning? && s.jobs[job].request.GroupMessage?
    requires Unused(s.tables, id) && s.jobs[job].phase.at == |s.jobs[job].members|
    ensures var r := s.jobs[job].request; var saving := Saving(s.tables, GroupRecord(r), s.jobs[job].phase.offline, id, now);
            && (saving.Failure? ==> 0 in s.jobs[job].phase.offline)
            && (saving.Success? ==>
                  && saving.value.value.messageId == id && DeliveryRuns.AsRequested(r, saving.value.value)
                  && saving.value.tables.messages == s.tables.messages[id := saving.value.value]
                  && saving.value.tables.offline.Keys == s.tables.offline.Keys + SlotsOf(s.jobs[job].phase.offline, id))
            && (forall x :: x in s.tables.offline ==> x.message != id)
  {
    hide DeliveryRuns.Ledger, Saving, DeliveryRuns.MessageOk, Consistent, Friends.Inv, SlotsOf, DeliveryRuns.Split;
    var r, users := s.jobs[job].request, s.jobs[job].phase.offline;
    assert DeliveryRuns.JobOk(s, s.jobs[job]);
    DeliveryRuns.GroupRecordOk(s, s.jobs[job]);
    SavesExactlyWhen(s.tables, GroupRecord(r), users, id, now);
    DeliveryPaths.InvReferenced(s);
    if Saving(s.tables, GroupRecord(r), users, id, now).Success? {
      DeliveryRuns.SavedRows(s, GroupRecord(r), users, id, now);
    }
  }

  lemma AllSent(before: Visible, after: Visible, request: Request, m: MessageRecord, w: GroupWorld,
                online: seq<UserId>, offline: seq<UserId>)
    requires request.GroupMessage? && Sorted(w.members, request.sender, w.found, |w.members|, online, offline)
    requires m.messageId == w.id && DeliveryRuns.AsRequested(request, m)
    requires after == Visible(before.messages[w.id := m], before.rows + SlotsOf(offline, w.id),
                              before.pushed + SlotsOf(online, w.id), CountAll(before.unread, offline, m.conversation))
    requires forall s: Slot :: s.message == w.id ==> s !in before.rows
    ensures SentToGroup(before, after, request, m, w)
  {
    hide DeliveryRuns.AsRequested, CountAll, Unread;
    assert w.members[..|w.members|] == w.members;
    forall c: Counter ensures Unread(after.unread, c)
                           == Unread(before.unread, c) + if c.conversation == m.conversation && c.user in offline then 1 else 0 {
      CountAllMeans(before.unread, offline, m.conversation, c);
    }
    forall s: Slot ensures s in SlotsOf(offline, w.id) <==> s.message == w.id && s.user in offline {
      assert s == Slot(s.user, s.message);
    }
    forall s: Slot ensures s in SlotsOf(online, w.id) <==> s.message == w.id && s.user in online {
      assert s == Slot(s.user, s.message);
    }
    hide SlotsOf;
  }

  lemma MembersAreDistinct(s: System, job: nat)
    requires DeliveryRuns.Inv(s) && job in s.jobs && s.jobs[job].phase.Partitioning?
    ensures Distinct(s.jobs[job].members)
  {
    hide DeliveryRuns.TablesOk, DeliveryRuns.Ledger, GoodRequest;
    assert DeliveryRuns.JobOk(s, s.jobs[job]);
  }

  lemma SortedAreMembers(members: seq<UserId>, sender: UserId, found: nat -> Lookup, online: seq<UserId>, offline: seq<UserId>)
    requires Sorted(members, sender, found, |members|, online, offline)
    ensures forall u :: u in offline ==> u in members
  {
    assert members[..|members|] == members;
  }

  lemma NothingSorted(members: seq<UserId>, sender: UserId, found: nat -> Lookup)
    ensures Sorted(members, sender, found, 0, [], [])
  {
  }

  lemma OneMoreSorted(members: seq<UserId>, sender: UserId, found: nat -> Lookup, n: nat,
                      online: seq<UserId>, offline: seq<UserId>)
    requires n < |members| && Distinct(members) && Sorted(members, sender, found, n, online, offline)
    ensures members[n] == sender ==> Sorted(members, sender, found, n + 1, online, offline)
    ensures members[n] != sender && found(n) == Online ==> Sorted(members, sender, found, n + 1, online + [members[n]], offline)
    ensures members[n] != sender && found(n) == Offline ==> Sorted(members, sender, found, n + 1, online, offline + [members[n]])
  {
    assert members[..n + 1] == members[..n] + [members[n]];
    assert members[n] !in members[..n];
    assert forall x :: 0 <= x < n ==> members[x] in members[..n];
  }

  lemma NoSlots(pushed: set<Slot>, id: MessageId)
    ensures pushed + SlotsOf([], id) == pushed
  {
  }

  lemma OneMoreSlot(pushed: set<Slot>, users: seq<UserId>, i: nat, id: MessageId)
    requires i < |users|
    ensures pushed + SlotsOf(users[..i + 1], id) == pushed + SlotsOf(users[..i], id) + {Slot(users[i], id)}
  {
    assert users[..i + 1] == users[..i] + [users[i]];
    assert SlotsOf(users[..i + 1], id) == SlotsOf(users[..i], id) + {Slot(users[i], id)};
  }

  lemma TakenIsNotFree(t: Tables, sender: UserId, client: Bytes, id: MessageId)
    requires client != [] && id in t.messages && Matches(t.messages[id], sender, client)
    ensures !ClientIdIsFree(t, sender, client)
  {
  }

  lemma NotFreeIsTaken(t: Tables, sender: UserId, client: Bytes)
    requires !ClientIdIsFree(t, sender, client)
    ensures HasClientId(t, sender, client) && client != []
  {
    var id :| id in t.messages && t.messages[id].senderId == sender && t.messages[id].clientMsgId == client;
    assert Matches(t.messages[id], sender, client);
  }

  lemma RecordsOfTalkers(request: Request)
    requires request.PrivateMessage?
    ensures PrivateRecord(request).Success? <==> Conversation.CanTalk(request.sender, request.receiver)
  {
    Conversation.NoOverflow(request.sender, request.receiver);
  }

  /** When the save of a private message succeeds, and what it then writes. */
  lemma PrivateSaves(s: System, job: nat, id: MessageId, now: Int64)
    requires DeliveryRuns.Inv(s) && job in s.jobs && s.jobs[job].phase.Storing? && Unused(s.tables, id)
    ensures var r, online := s.jobs[job].request, s.jobs[job].phase.receiverOnline;
            && r.PrivateMessage? && PrivateRecord(r).Success?
            && var saving := Saving(s.tables, PrivateRecord(r).value, if online then [] else [r.receiver], id, now);
               && (saving.Success? <==> ClientIdIsFree(s.tables, r.sender, ClientId(r)))
               && (saving.Failure? ==> saving.error == AlreadyExists)
               && (saving.Success? ==>
                     && saving.value.value.messageId == id && DeliveryRuns.AsRequested(r, saving.value.value)
                     && saving.value.value.receiverId == r.receiver
                     && saving.value.tables.messages == s.tables.messages[id := saving.value.value]
                     && saving.value.tables.offline.Keys
                          == (if online then s.tables.offline.Keys else s.tables.offline.Keys + {Slot(r.receiver, id)})
                     && Slot(r.receiver, id) !in s.tables.offline)
  {
    hide DeliveryRuns.Ledger, Saving, DeliveryRuns.MessageOk, PrivateRecord, ClientIdIsFree, Consistent, Friends.Inv, SlotsOf;
    var r, online := s.jobs[job].request, s.jobs[job].phase.receiverOnline;
    assert DeliveryRuns.JobOk(s, s.jobs[job]);
    DeliveryRuns.PrivateRecordOk(s, r);
    var m, users := PrivateRecord(r).value, if online then [] else [r.receiver];
    Conversation.NoOverflow(r.sender, r.receiver);
    SavesExactlyWhen(s.tables, m, users, id, now);
    DeliveryRuns.FewSlots(r.receiver, id);
    DeliveryPaths.InvReferenced(s);
    if Saving(s.tables, m, users, id, now).Success? {
      DeliveryRuns.SavedRows(s, m, users, id, now);
    }
  }

  /** The phase in which a handler with this result has ended. */
  function EndPhase(r: Result<MessageRecord>): (p: Phase) {
    match r
    case Success(m) => Answered(m)
    case Failure(e) => Failed(e)
  }

  lemma Follows(s: System, e: Step)
    requires Enabled(s, e)
    ensures Next(s, After(s, e))
  {
  }

  lemma DeliveredStay(s: System, t: System, user: UserId, ids: seq<MessageId>)
    requires LeavesAlone(s, t, None, 0) && forall m :: m in ids ==> IsDelivered(s.tables, Slot(user, m))
    ensures forall m :: m in ids ==> IsDelivered(t.tables, Slot(user, m))
  {
  }

  lemma NoMessageZero(s: System)
    requires DeliveryRuns.Inv(s)
    ensures 0 !in s.tables.messages
  {
  }

  lemma AckedIsDelivered(t: Tables, user: UserId, message: MessageId, now: Int64)
    ensures AckingPrivate(t, user, message, now).Success? <==>
              && user != 0 && message != 0 && message in t.messages
              && t.messages[message].conversation.kind.Private? && t.messages[message].receiverId == user
    ensures AckingPrivate(t, user, message, now).Success? ==>
              && AckingPrivate(t, user, message, now).value.value.receiverId == user
              && IsDelivered(AckingPrivate(t, user, message, now).value.tables, Slot(user, message))
  {
  }

  lemma NobodyMoves(s: System, own: Option<nat>, id: MessageId)
    ensures LeavesAlone(s, s, own, id)
  {
    DeliveryRuns.LaterReflexive(s);
  }

  lemma EmptyPath(s: System)
    ensures IsPath(s, []) && End(s, []) == s
  {
  }

  lemma InvSchema(s: System)
    requires DeliveryRuns.Inv(s)
    ensures Schema(s.tables) && Consistent(s.tables)
  {
  }

  /** The fault with which a step of the machine has the outcome of this call. */
  function Performed<V, T(==)>(before: T, intended: Result<Effect<V, T>>, fault: Fault, after: T, r: Result<V>): (f: Fault)
    requires Outcome(before, intended, fault, after, r)
    ensures Perform(before, intended, f) == (after, r)
  {
    if r.Success? || (intended.Failure? && r.error == intended.error) then NoFault
    else if after == before then Broken(0, fault.error)
    else CommitLost(fault.error, true)
  }
}
