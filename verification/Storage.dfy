/**
 The three message tables and the storage calls on them.  Each call works on a copy of the
 tables and replaces them when it commits; a failed statement drops the copy.
 */
module Storage {
  import opened Base
  import opened Records
  import opened Transactions

  type StatusCode = s: int | 0 <= s <= 3

  const PENDING: StatusCode := 0
  const DELIVERED: StatusCode := 2

  /** The key of a row about one message and one of its recipients. */
  datatype Slot = Slot(user: UserId, message: MessageId)

  datatype OfflineRow = OfflineRow(delivered: bool, createdAtMs: Int64, deliveredAtMs: Option<Int64>)

  datatype DeliveryRow = DeliveryRow(status: StatusCode, deliveredAtMs: Option<Int64>)

  datatype Tables = Tables(
    messages: map<MessageId, MessageRecord>,
    offline: map<Slot, OfflineRow>,
    deliveries: map<Slot, DeliveryRow>)

  // ---- Statements ------------------------------------------------------------------------------

  function Coalesce(time: Option<Int64>, at: Int64): (r: Option<Int64>) {
    if time.Some? then time else Some(at)
  }

  /** INSERT of offline rows, and of pending delivery rows where there is none yet. */
  function WithPending(t: Tables, slots: set<Slot>, at: Int64): (u: Tables) {
    t.(offline := map s | s in t.offline.Keys + slots ::
         if s in slots then OfflineRow(false, at, None) else t.offline[s],
       deliveries := map s | s in t.deliveries.Keys + slots ::
         if s in t.deliveries then t.deliveries[s] else DeliveryRow(PENDING, None))
  }

  /** UPDATE of offline rows to delivered, keeping a delivery time that is set. */
  function WithMarked(t: Tables, slots: set<Slot>, at: Int64): (u: Tables) {
    t.(offline := map s | s in t.offline ::
         if s in slots then t.offline[s].(delivered := true, deliveredAtMs := Coalesce(t.offline[s].deliveredAtMs, at))
         else t.offline[s])
  }

  /** INSERT of a delivered row, or the greater status and the earlier set time. */
  function DeliveredRow(t: Tables, s: Slot, at: Int64): (row: DeliveryRow) {
    if s !in t.deliveries then DeliveryRow(DELIVERED, Some(at))
    else
      var row := t.deliveries[s];
      DeliveryRow(if row.status > DELIVERED then row.status else DELIVERED, Coalesce(row.deliveredAtMs, at))
  }

  function WithDelivered(t: Tables, slots: set<Slot>, at: Int64): (u: Tables) {
    t.(deliveries := map s | s in t.deliveries.Keys + slots ::
         if s in slots then DeliveredRow(t, s, at) else t.deliveries[s])
  }

  function SlotsOf(users: seq<UserId>, message: MessageId): (slots: set<Slot>) {
    set u | u in users :: Slot(u, message)
  }

  function SlotsFor(user: UserId, messages: seq<MessageId>): (slots: set<Slot>) {
    set m | m in messages :: Slot(user, m)
  }

  predicate Matches(m: MessageRecord, sender: UserId, client: Bytes) {
    m.senderId == sender && m.clientMsgId == client
  }

  predicate HasClientId(t: Tables, sender: UserId, client: Bytes) {
    exists id :: id in t.messages && Matches(t.messages[id], sender, client)
  }

  /** The checks and defaults before an insert. */
  function Normalize(m: MessageRecord, now: Int64): (r: Result<MessageRecord>) {
    if m.conversation.id == 0 || m.senderId == 0 then Failure(InvalidArgument)
    else if m.conversation.kind.Private? && m.receiverId == 0 then Failure(InvalidArgument)
    else Success(m.(receiverId := if m.receiverId == 0 then m.conversation.id else m.receiverId,
                    createdAtMs := if m.createdAtMs > 0 then m.createdAtMs else now))
  }

  // ---- What each call does when nothing fails --------------------------------------------------

  function Saving(t: Tables, m: MessageRecord, users: seq<UserId>, id: MessageId, now: Int64):
    (r: Result<Effect<MessageRecord, Tables>>)
  {
    if 0 in users then Failure(InvalidArgument)
    else
      var n := Normalize(m, now);
      if n.Failure? then Failure(n.error)
      else if m.clientMsgId != [] && HasClientId(t, m.senderId, m.clientMsgId) then Failure(AlreadyExists)
      else
        var saved := n.value.(messageId := id);
        Success(Effect(saved, WithPending(t.(messages := t.messages[id := saved]), SlotsOf(users, id), now)))
  }

  function SavingOffline(t: Tables, user: UserId, message: MessageId, at: Int64): (r: Result<Effect<(), Tables>>) {
    if user == 0 || message == 0 then Failure(InvalidArgument)
    else if Slot(user, message) in t.offline then Failure(AlreadyExists)
    else if message !in t.messages then Failure(IoError)
    else Success(Effect((), WithPending(t, {Slot(user, message)}, at)))
  }

  function Acking(t: Tables, user: UserId, ids: seq<MessageId>, at: Int64):
    (r: Result<Effect<seq<MessageRecord>, Tables>>)
    requires Referenced(t)
  {
    if ids == [] then Success(Effect([], t))
    else if user == 0 || 0 in ids then Failure(InvalidArgument)
    else
      var slots := SlotsFor(user, ids);
      if exists s :: s in slots && s !in t.offline then Failure(NotFound)
      else
        assert forall m :: m in ids ==> Slot(user, m) in slots;
        assert forall m :: m in Unique(ids) ==> m in ids by { UniqueElements(ids); }
        Success(Effect(Fetched(t, Unique(ids)), WithDelivered(WithMarked(t, slots, at), slots, at)))
  }

  function AckingPrivate(t: Tables, user: UserId, message: MessageId, at: Int64):
    (r: Result<Effect<MessageRecord, Tables>>)
  {
    if user == 0 || message == 0 then Failure(InvalidArgument)
    else if message !in t.messages then Failure(NotFound)
    else
      var m := t.messages[message];
      if !m.conversation.kind.Private? || m.receiverId != user then Failure(NotFound)
      else Success(Effect(m, WithDelivered(t, {Slot(user, message)}, at)))
  }

  /** Rows refer to messages. */
  predicate Referenced(t: Tables) {
    && (forall s :: s in t.offline ==> s.message in t.messages)
    && (forall s :: s in t.deliveries ==> s.message in t.messages)
  }

  function Fetched(t: Tables, ids: seq<MessageId>): (r: seq<MessageRecord>)
    requires forall m :: m in ids ==> m in t.messages
    ensures |r| == |ids| && forall i :: 0 <= i < |ids| ==> r[i] == t.messages[ids[i]]
  {
    if |ids| == 0 then [] else Fetched(t, ids[..|ids| - 1]) + [t.messages[ids[|ids| - 1]]]
  }

  /** The first occurrences, in order. */
  function Unique(ids: seq<Uint64>): (r: seq<Uint64>) {
    if |ids| == 0 then []
    else
      var r := Unique(ids[..|ids| - 1]);
      if ids[|ids| - 1] in r then r else r + [ids[|ids| - 1]]
  }

  lemma {:induction false} UniqueElements(ids: seq<Uint64>)
    ensures forall x :: x in Unique(ids) <==> x in ids
    ensures forall i, j :: 0 <= i < j < |Unique(ids)| ==> Unique(ids)[i] != Unique(ids)[j]
  {
    if |ids| > 0 {
      var n := |ids| - 1;
      UniqueElements(ids[..n]);
      assert ids == ids[..n] + [ids[n]];
    }
  }

  /** `validateOfflineRecipients` and `validateMessageIds`: the same loop. */
  method UniqueIds(ids: seq<Uint64>) returns (r: Result<seq<Uint64>>)
    ensures r == if 0 in ids then Failure(InvalidArgument) else Success(Unique(ids))
  {
    var unique: seq<Uint64> := [];
    for i := 0 to |ids|
      invariant 0 !in ids[..i] && unique == Unique(ids[..i])
    {
      assert ids[..i + 1] == ids[..i] + [ids[i]];
      assert ids[..i + 1][..i] == ids[..i];
      if ids[i] == 0 {
        return Failure(InvalidArgument);
      }
      if ids[i] !in unique {
        unique := unique + [ids[i]];
      }
    }
    assert ids[..|ids|] == ids;
    return Success(unique);
  }

  // ---- The calls -----------------------------------------------------------------------------------

  /** What the schema guarantees: keys, references and the unique client id per sender. */
  ghost predicate Schema(t: Tables) {
    && Referenced(t)
    && (forall id :: id in t.messages ==> id != 0 && t.messages[id].messageId == id)
    && OneRowPerClientId(t)
  }

  ghost predicate OneRowPerClientId(t: Tables) {
    forall i, j :: i in t.messages && j in t.messages && i != j && t.messages[i].clientMsgId != [] ==>
      !Matches(t.messages[j], t.messages[i].senderId, t.messages[i].clientMsgId)
  }

  class MySqlStorage {
    var tables: Tables

    constructor ()
      ensures tables == Tables(map[], map[], map[])
    {
      tables := Tables(map[], map[], map[]);
    }

    method Commit(work: Tables, fault: Fault) returns (committed: bool)
      modifies this
      ensures committed <==> !fault.CommitLost?
      ensures tables == Committed(old(tables), work, fault)
    {
      tables := Committed(tables, work, fault);
      return !fault.CommitLost?;
    }

    /** `id` is the value AUTO_INCREMENT gives; `now` is the clock. */
    method SaveMessageWithOfflineRecipients(m: MessageRecord, users: seq<UserId>, id: MessageId, now: Int64, fault: Fault)
      returns (r: Result<MessageRecord>)
      requires Schema(tables) && id != 0 && id !in tables.messages
      modifies this
      ensures Outcome(old(tables), Saving(old(tables), m, users, id, now), fault, tables, r)
    {
      var unique := UniqueIds(users);
      if unique.Failure? {
        return Failure(unique.error);
      }
      UniqueElements(users);
      if Breaks(fault, 0) {
        return Failure(fault.error);
      }
      var n := Normalize(m, now);
      if n.Failure? {
        return Failure(n.error);
      }
      if Breaks(fault, 1) {
        return Failure(fault.error);
      }
      if m.clientMsgId != [] && HasClientId(tables, m.senderId, m.clientMsgId) {
        return Failure(AlreadyExists);
      }
      var saved := n.value.(messageId := id);
      var work := InsertPending(unique.value, saved, now, fault);
      if work.Failure? {
        return Failure(work.error);
      }
      assert SlotsOf(unique.value, id) == SlotsOf(users, id);
      var committed := Commit(work.value, fault);
      return if committed then Success(saved) else Failure(fault.error);
    }

    /** The loop over the recipients, on the copy that holds the new message. */
    method InsertPending(unique: seq<UserId>, saved: MessageRecord, now: Int64, fault: Fault) returns (r: Result<Tables>)
      requires Referenced(tables) && saved.messageId !in tables.messages
      ensures r.Success? ==> r.value == WithPending(tables.(messages := tables.messages[saved.messageId := saved]),
                                                    SlotsOf(unique, saved.messageId), now)
      ensures r.Failure? ==> fault.Broken? && r.error == fault.error
    {
      var id := saved.messageId;
      var start := tables.(messages := tables.messages[id := saved]);
      var work := start;
      for i := 0 to |unique|
        invariant work == WithPending(start, SlotsOf(unique[..i], id), now)
      {
        if Breaks(fault, 2 * i + 2) || Breaks(fault, 2 * i + 3) {
          return Failure(fault.error);
        }
        work := WithPending(work, {Slot(unique[i], id)}, now);
        OnePending(start, unique, i, id, now);
      }
      assert unique[..|unique|] == unique;
      return Success(work);
    }

    method SaveOfflineMessage(user: UserId, message: MessageId, now: Int64, fault: Fault) returns (r: Result<()>)
      requires Schema(tables)
      modifies this
      ensures Outcome(old(tables), SavingOffline(old(tables), user, message, now), fault, tables, r)
    {
      if Breaks(fault, 0) {
        return Failure(fault.error);
      }
      if user == 0 || message == 0 {
        return Failure(InvalidArgument);
      }
      if Breaks(fault, 1) {
        return Failure(fault.error);
      }
      if Slot(user, message) in tables.offline {
        return Failure(AlreadyExists);
      }
      if message !in tables.messages {
        return Failure(IoError);
      }
      if Breaks(fault, 2) {
        return Failure(fault.error);
      }
      var committed := Commit(WithPending(tables, {Slot(user, message)}, now), fault);
      return if committed then Success(()) else Failure(fault.error);
    }

    method FindDeliveryStatus(user: UserId, message: MessageId, fault: Fault) returns (r: Result<StatusCode>)
      ensures user == 0 || message == 0 ==> r == Failure(InvalidArgument)
      ensures r.Success? ==> Slot(user, message) in tables.deliveries && r.value == tables.deliveries[Slot(user, message)].status
      ensures r.Failure? ==>
                || (r.error == InvalidArgument && (user == 0 || message == 0))
                || (r.error == NotFound && Slot(user, message) !in tables.deliveries)
                || (!fault.NoFault? && r.error == fault.error)
      ensures fault.NoFault? && user != 0 && message != 0 ==>
                r == if Slot(user, message) in tables.deliveries then Success(tables.deliveries[Slot(user, message)].status)
                     else Failure(NotFound)
    {
      if user == 0 || message == 0 {
        return Failure(InvalidArgument);
      }
      if Breaks(fault, 0) {
        return Failure(fault.error);
      }
      if Slot(user, message) !in tables.deliveries {
        return Failure(NotFound);
      }
      return Success(tables.deliveries[Slot(user, message)].status);
    }

    method FindMessageByClientMessageId(sender: UserId, client: Bytes, fault: Fault) returns (r: Result<MessageRecord>)
      requires Schema(tables)
      ensures r.Success? ==> sender != 0 && client != [] && r.value.messageId in tables.messages
                             && tables.messages[r.value.messageId] == r.value && Matches(r.value, sender, client)
      ensures fault.NoFault? && sender != 0 && client != [] ==> (r.Success? <==> HasClientId(tables, sender, client))
      ensures r.Failure? ==>
                || (r.error == InvalidArgument && (sender == 0 || client == []))
                || (r.error == NotFound && !HasClientId(tables, sender, client))
                || (!fault.NoFault? && r.error == fault.error)
    {
      if sender == 0 || client == [] {
        return Failure(InvalidArgument);
      }
      if Breaks(fault, 0) {
        return Failure(fault.error);
      }
      if !HasClientId(tables, sender, client) {
        return Failure(NotFound);
      }
      var id :| id in tables.messages && Matches(tables.messages[id], sender, client);
      return Success(tables.messages[id]);
    }

    method AckPrivateMessageDelivery(user: UserId, message: MessageId, now: Int64, fault: Fault)
      returns (r: Result<MessageRecord>)
      requires Schema(tables)
      modifies this
      ensures Outcome(old(tables), AckingPrivate(old(tables), user, message, now), fault, tables, r)
    {
      if user == 0 || message == 0 {
        return Failure(InvalidArgument);
      }
      if Breaks(fault, 0) {
        return Failure(fault.error);
      }
      if message !in tables.messages {
        return Failure(NotFound);
      }
      var found := tables.messages[message];
      if !found.conversation.kind.Private? || found.receiverId != user {
        return Failure(NotFound);
      }
      if Breaks(fault, 1) {
        return Failure(fault.error);
      }
      var committed := Commit(WithDelivered(tables, {Slot(user, message)}, now), fault);
      return if committed then Success(found) else Failure(fault.error);
    }

    method AckOfflineMessages(user: UserId, ids: seq<MessageId>, now: Int64, fault: Fault)
      returns (r: Result<seq<MessageRecord>>)
      requires Schema(tables)
      modifies this
      ensures Outcome(old(tables), Acking(old(tables), user, ids, now), fault, tables, r)
    {
      if ids == [] {
        return Success([]);
      }
      if user == 0 {
        return Failure(InvalidArgument);
      }
      var unique := UniqueIds(ids);
      if unique.Failure? {
        return Failure(unique.error);
      }
      UniqueElements(ids);
      assert SlotsFor(user, unique.value) == SlotsFor(user, ids);
      if Breaks(fault, 0) {
        return Failure(fault.error);
      }
      var records := FetchForAck(user, unique.value, fault);
      if records.Failure? {
        return Failure(records.error);
      }
      var marked := MarkOfflineDeliveredInTransaction(tables, user, unique.value, now, fault);
      if marked.Failure? {
        return Failure(marked.error);
      }
      var work := UpsertDelivered(marked.value, user, unique.value, now, fault);
      if work.Failure? {
        return Failure(work.error);
      }
      var committed := Commit(work.value, fault);
      return if committed then Success(records.value) else Failure(fault.error);
    }

    /** The first loop of the ack: every id must have its row, or the call ends. */
    method FetchForAck(user: UserId, unique: seq<MessageId>, fault: Fault) returns (r: Result<seq<MessageRecord>>)
      requires Referenced(tables)
      ensures r.Success? ==> (forall m :: m in unique ==> Slot(user, m) in tables.offline)
                             && r.value == Fetched(tables, unique)
      ensures r.Failure? ==> (fault.Broken? && r.error == fault.error)
                             || (r.error == NotFound && exists m :: m in unique && Slot(user, m) !in tables.offline)
    {
      var records: seq<MessageRecord> := [];
      for i := 0 to |unique|
        invariant forall m :: m in unique[..i] ==> Slot(user, m) in tables.offline
        invariant records == Fetched(tables, unique[..i])
      {
        assert unique[..i + 1] == unique[..i] + [unique[i]];
        if Breaks(fault, i + 1) {
          return Failure(fault.error);
        }
        if Slot(user, unique[i]) !in tables.offline {
          return Failure(NotFound);
        }
        records := records + [tables.messages[unique[i]]];
        assert unique[..i + 1][..i] == unique[..i];
      }
      assert unique[..|unique|] == unique;
      return Success(records);
    }
  }

  method MarkOfflineDeliveredInTransaction(start: Tables, user: UserId, unique: seq<MessageId>, now: Int64, fault: Fault)
    returns (r: Result<Tables>)
    ensures r.Success? ==> r.value == WithMarked(start, SlotsFor(user, unique), now)
    ensures r.Failure? ==> fault.Broken? && r.error == fault.error
  {
    var work := start;
    for i := 0 to |unique|
      invariant work == WithMarked(start, SlotsFor(user, unique[..i]), now)
    {
      if Breaks(fault, |unique| + i + 1) {
        return Failure(fault.error);
      }
      work := WithMarked(work, {Slot(user, unique[i])}, now);
      OneMarked(start, user, unique, i, now);
    }
    assert unique[..|unique|] == unique;
    return Success(work);
  }

  method UpsertDelivered(start: Tables, user: UserId, unique: seq<MessageId>, now: Int64, fault: Fault)
    returns (r: Result<Tables>)
    ensures r.Success? ==> r.value == WithDelivered(start, SlotsFor(user, unique), now)
    ensures r.Failure? ==> fault.Broken? && r.error == fault.error
  {
    var work := start;
    for i := 0 to |unique|
      invariant work == WithDelivered(start, SlotsFor(user, unique[..i]), now)
    {
      if Breaks(fault, 2 * |unique| + i + 1) {
        return Failure(fault.error);
      }
      work := WithDelivered(work, {Slot(user, unique[i])}, now);
      OneDelivered(start, user, unique, i, now);
    }
    assert unique[..|unique|] == unique;
    return Success(work);
  }

  lemma OnePending(t: Tables, users: seq<UserId>, i: nat, id: MessageId, at: Int64)
    requires i < |users|
    ensures WithPending(WithPending(t, SlotsOf(users[..i], id), at), {Slot(users[i], id)}, at)
         == WithPending(t, SlotsOf(users[..i + 1], id), at)
  {
    assert users[..i + 1] == users[..i] + [users[i]];
    assert SlotsOf(users[..i + 1], id) == SlotsOf(users[..i], id) + {Slot(users[i], id)};
    PendingTwice(t, SlotsOf(users[..i], id), {Slot(users[i], id)}, at);
  }

  lemma PendingTwice(t: Tables, a: set<Slot>, b: set<Slot>, at: Int64)
    ensures WithPending(WithPending(t, a, at), b, at) == WithPending(t, a + b, at)
  {
    var l, r := WithPending(WithPending(t, a, at), b, at), WithPending(t, a + b, at);
    assert l.offline == r.offline;
    assert l.deliveries == r.deliveries;
  }

  lemma OneMarked(t: Tables, user: UserId, ids: seq<MessageId>, i: nat, at: Int64)
    requires i < |ids|
    ensures WithMarked(WithMarked(t, SlotsFor(user, ids[..i]), at), {Slot(user, ids[i])}, at)
         == WithMarked(t, SlotsFor(user, ids[..i + 1]), at)
  {
    assert ids[..i + 1] == ids[..i] + [ids[i]];
    assert SlotsFor(user, ids[..i + 1]) == SlotsFor(user, ids[..i]) + {Slot(user, ids[i])};
    assert WithMarked(WithMarked(t, SlotsFor(user, ids[..i]), at), {Slot(user, ids[i])}, at).offline
        == WithMarked(t, SlotsFor(user, ids[..i + 1]), at).offline;
  }

  lemma OneDelivered(t: Tables, user: UserId, ids: seq<MessageId>, i: nat, at: Int64)
    requires i < |ids|
    ensures WithDelivered(WithDelivered(t, SlotsFor(user, ids[..i]), at), {Slot(user, ids[i])}, at)
         == WithDelivered(t, SlotsFor(user, ids[..i + 1]), at)
  {
    assert ids[..i + 1] == ids[..i] + [ids[i]];
    assert SlotsFor(user, ids[..i + 1]) == SlotsFor(user, ids[..i]) + {Slot(user, ids[i])};
    assert WithDelivered(WithDelivered(t, SlotsFor(user, ids[..i]), at), {Slot(user, ids[i])}, at).deliveries
        == WithDelivered(t, SlotsFor(user, ids[..i + 1]), at).deliveries;
  }

  // ---- When each call succeeds, and what it then writes ---------------------------------------

  predicate ClientIdIsFree(t: Tables, sender: UserId, client: Bytes) {
    client == [] || forall id :: id in t.messages ==> t.messages[id].senderId != sender || t.messages[id].clientMsgId != client
  }

  lemma SavesExactlyWhen(t: Tables, m: MessageRecord, users: seq<UserId>, id: MessageId, now: Int64)
    ensures Saving(t, m, users, id, now).Success? <==>
              && 0 !in users && m.conversation.id != 0 && m.senderId != 0
              && (m.conversation.kind.Private? ==> m.receiverId != 0)
              && ClientIdIsFree(t, m.senderId, m.clientMsgId)
    ensures Saving(t, m, users, id, now).Failure? ==>
              (Saving(t, m, users, id, now).error == AlreadyExists <==>
                && 0 !in users && m.conversation.id != 0 && m.senderId != 0
                && (m.conversation.kind.Private? ==> m.receiverId != 0))
  {
  }

  /** A save writes the message with its id and, for each recipient, one undelivered row and a
      pending state; nothing else changes. */
  lemma SaveMakesTheRows(t: Tables, m: MessageRecord, users: seq<UserId>, id: MessageId, now: Int64)
    requires Schema(t) && id !in t.messages && Saving(t, m, users, id, now).Success?
    ensures var saved, u := Saving(t, m, users, id, now).value.value, Saving(t, m, users, id, now).value.tables;
            && saved.messageId == id && saved.conversation == m.conversation && saved.senderId == m.senderId
            && saved.receiverId == (if m.receiverId == 0 then m.conversation.id else m.receiverId)
            && saved.text == m.text && saved.clientMsgId == m.clientMsgId
            && saved.createdAtMs == (if m.createdAtMs > 0 then m.createdAtMs else now)
            && u.messages == t.messages[id := saved]
            && (forall s :: s in u.offline <==> s in t.offline || (s.message == id && s.user in users))
            && (forall s :: s in u.deliveries <==> s in t.deliveries || (s.message == id && s.user in users))
            && (forall s :: s in u.offline ==>
                  u.offline[s] == if s.message == id then OfflineRow(false, now, None) else t.offline[s])
            && (forall s :: s in u.deliveries ==>
                  u.deliveries[s] == if s.message == id then DeliveryRow(PENDING, None) else t.deliveries[s])
  {
    assert forall s :: s in SlotsOf(users, id) <==> s.message == id && s.user in users by {
      forall s: Slot ensures s in SlotsOf(users, id) <==> s.message == id && s.user in users {
        assert s == Slot(s.user, s.message);
      }
    }
  }

  /** A fallback row is made exactly for a stored message that has none yet for this user. */
  lemma FallbackMakesTheRow(t: Tables, user: UserId, message: MessageId, at: Int64)
    requires Schema(t)
    ensures SavingOffline(t, user, message, at).Success? <==>
              user != 0 && message in t.messages && Slot(user, message) !in t.offline
    ensures SavingOffline(t, user, message, at) == Failure(AlreadyExists) <==>
              user != 0 && message != 0 && Slot(user, message) in t.offline
    ensures SavingOffline(t, user, message, at).Success? ==>
              var u := SavingOffline(t, user, message, at).value.tables;
              && u.messages == t.messages
              && u.offline == t.offline[Slot(user, message) := OfflineRow(false, at, None)]
              && (forall s :: s in u.deliveries <==> s in t.deliveries || s == Slot(user, message))
              && (forall s :: s in u.deliveries ==>
                    u.deliveries[s] == if s in t.deliveries then t.deliveries[s] else DeliveryRow(PENDING, None))
  {
    if SavingOffline(t, user, message, at).Success? {
      var u := SavingOffline(t, user, message, at).value.tables;
      assert u.offline == t.offline[Slot(user, message) := OfflineRow(false, at, None)];
    }
  }

  /** A delivery ack is for the receiver of a stored private message; it raises that one state
      to delivered, keeps a time that is set, and touches nothing else. */
  lemma AckRaisesOneState(t: Tables, user: UserId, message: MessageId, at: Int64)
    requires Schema(t)
    ensures AckingPrivate(t, user, message, at).Success? <==>
              && user != 0 && message in t.messages
              && t.messages[message].conversation.kind.Private? && t.messages[message].receiverId == user
    ensures AckingPrivate(t, user, message, at).Success? ==>
              var u := AckingPrivate(t, user, message, at).value.tables; var s := Slot(user, message);
              && AckingPrivate(t, user, message, at).value.value == t.messages[message]
              && u.messages == t.messages && u.offline == t.offline
              && s in u.deliveries && u.deliveries[s].status >= DELIVERED
              && (s in t.deliveries ==> t.deliveries[s].status <= u.deliveries[s].status)
              && (s in t.deliveries && t.deliveries[s].status >= DELIVERED ==> u.deliveries[s].status == t.deliveries[s].status)
              && u.deliveries[s].deliveredAtMs
                   == (if s in t.deliveries && t.deliveries[s].deliveredAtMs.Some? then t.deliveries[s].deliveredAtMs else Some(at))
              && (forall x :: x in u.deliveries <==> x in t.deliveries || x == s)
              && (forall x :: x in t.deliveries && x != s ==> u.deliveries[x] == t.deliveries[x])
  {
  }

  // ---- What every call keeps ---------------------------------------------------------------

  /** Each offline row has a delivery row; a delivered offline row means a status of at least
      delivered; and a delivery time is set exactly when its row says delivered. */
  ghost predicate RowsAgree(t: Tables) {
    && (forall s :: s in t.offline ==> s in t.deliveries)
    && (forall s :: s in t.offline && t.offline[s].delivered ==> t.deliveries[s].status >= DELIVERED)
    && (forall s :: s in t.offline ==> (t.offline[s].delivered <==> t.offline[s].deliveredAtMs.Some?))
    && (forall s :: s in t.deliveries ==> (t.deliveries[s].status >= DELIVERED <==> t.deliveries[s].deliveredAtMs.Some?))
  }

  ghost predicate Consistent(t: Tables) {
    Schema(t) && RowsAgree(t)
  }

  ghost predicate MessagesStay(t: Tables, u: Tables) {
    forall id :: id in t.messages ==> id in u.messages && u.messages[id] == t.messages[id]
  }

  ghost predicate OfflineAdvances(t: Tables, u: Tables) {
    && (forall s :: s in t.offline ==> s in u.offline)
    && (forall s :: s in t.offline && t.offline[s].delivered ==> u.offline[s].delivered)
    && (forall s :: s in t.offline && t.offline[s].deliveredAtMs.Some? ==>
          u.offline[s].deliveredAtMs == t.offline[s].deliveredAtMs)
  }

  ghost predicate DeliveriesAdvance(t: Tables, u: Tables) {
    && (forall s :: s in t.deliveries ==> s in u.deliveries)
    && (forall s :: s in t.deliveries ==> t.deliveries[s].status <= u.deliveries[s].status)
    && (forall s :: s in t.deliveries && t.deliveries[s].deliveredAtMs.Some? ==>
          u.deliveries[s].deliveredAtMs == t.deliveries[s].deliveredAtMs)
  }

  /** Messages never change, rows never go away, a status never decreases, and a delivery
      time that is set never changes. */
  ghost predicate Advances(t: Tables, u: Tables) {
    MessagesStay(t, u) && OfflineAdvances(t, u) && DeliveriesAdvance(t, u)
  }

  lemma AdvancesReflexive(t: Tables)
    ensures Advances(t, t)
  {
  }

  lemma AdvancesTransitive(t: Tables, u: Tables, v: Tables)
    requires Advances(t, u) && Advances(u, v)
    ensures Advances(t, v)
  {
    assert MessagesStay(t, v);
    assert OfflineAdvances(t, v);
    assert DeliveriesAdvance(t, v);
  }

  lemma PendingKeeps(t: Tables, slots: set<Slot>, at: Int64)
    requires Consistent(t)
    requires forall s :: s in slots ==> s.message in t.messages && s !in t.offline
    ensures Consistent(WithPending(t, slots, at)) && Advances(t, WithPending(t, slots, at))
  {
    hide RowsAgree, Advances;
    PendingRows(t, slots, at);
    PendingAdvances(t, slots, at);
  }

  lemma PendingRows(t: Tables, slots: set<Slot>, at: Int64)
    requires RowsAgree(t) && forall s :: s in slots ==> s !in t.offline
    ensures RowsAgree(WithPending(t, slots, at))
  {
  }

  lemma PendingAdvances(t: Tables, slots: set<Slot>, at: Int64)
    requires forall s :: s in slots ==> s !in t.offline
    ensures Advances(t, WithPending(t, slots, at))
  {
  }

  lemma InsertKeeps(t: Tables, m: MessageRecord)
    requires Consistent(t) && m.messageId != 0 && m.messageId !in t.messages
    requires m.clientMsgId != [] ==> !HasClientId(t, m.senderId, m.clientMsgId)
    ensures Consistent(t.(messages := t.messages[m.messageId := m]))
    ensures Advances(t, t.(messages := t.messages[m.messageId := m]))
  {
    var u := t.(messages := t.messages[m.messageId := m]);
    assert OneRowPerClientId(u);
  }

  lemma SavingKeeps(t: Tables, m: MessageRecord, users: seq<UserId>, id: MessageId, now: Int64)
    requires Consistent(t) && id != 0 && id !in t.messages && Saving(t, m, users, id, now).Success?
    ensures Consistent(Saving(t, m, users, id, now).value.tables)
    ensures Advances(t, Saving(t, m, users, id, now).value.tables)
  {
    hide Consistent, Advances;
    var saved := Saving(t, m, users, id, now).value.value;
    var u := t.(messages := t.messages[id := saved]);
    InsertKeeps(t, saved);
    NewSlots(t, saved, users);
    PendingKeeps(u, SlotsOf(users, id), now);
    AdvancesTransitive(t, u, WithPending(u, SlotsOf(users, id), now));
  }

  lemma NewSlots(t: Tables, m: MessageRecord, users: seq<UserId>)
    requires Consistent(t) && m.messageId !in t.messages
    ensures forall s :: s in SlotsOf(users, m.messageId) ==>
      s.message in t.messages[m.messageId := m] && s !in t.offline
  {
  }

  lemma SavingOfflineKeeps(t: Tables, user: UserId, message: MessageId, at: Int64)
    requires Consistent(t) && SavingOffline(t, user, message, at).Success?
    ensures Consistent(SavingOffline(t, user, message, at).value.tables)
    ensures Advances(t, SavingOffline(t, user, message, at).value.tables)
  {
    hide Consistent, Advances;
    PendingKeeps(t, {Slot(user, message)}, at);
  }

  lemma DeliveredKeeps(t: Tables, slots: set<Slot>, at: Int64)
    requires Consistent(t) && forall s :: s in slots ==> s.message in t.messages
    ensures Consistent(WithDelivered(t, slots, at)) && Advances(t, WithDelivered(t, slots, at))
  {
    hide RowsAgree, Advances;
    DeliveredRows(t, slots, at);
    DeliveredAdvances(t, slots, at);
  }

  lemma DeliveredRows(t: Tables, slots: set<Slot>, at: Int64)
    requires RowsAgree(t)
    ensures RowsAgree(WithDelivered(t, slots, at))
  {
  }

  lemma DeliveredAdvances(t: Tables, slots: set<Slot>, at: Int64)
    ensures Advances(t, WithDelivered(t, slots, at))
  {
  }

  lemma AckingPrivateKeeps(t: Tables, user: UserId, message: MessageId, at: Int64)
    requires Consistent(t) && AckingPrivate(t, user, message, at).Success?
    ensures Consistent(AckingPrivate(t, user, message, at).value.tables)
    ensures Advances(t, AckingPrivate(t, user, message, at).value.tables)
  {
    hide Consistent, Advances;
    DeliveredKeeps(t, {Slot(user, message)}, at);
  }

  lemma AckedKeeps(t: Tables, slots: set<Slot>, at: Int64)
    requires Consistent(t) && forall s :: s in slots ==> s in t.offline
    ensures Consistent(WithDelivered(WithMarked(t, slots, at), slots, at))
    ensures Advances(t, WithDelivered(WithMarked(t, slots, at), slots, at))
  {
    hide RowsAgree, Advances;
    AckedRows(t, slots, at);
    MarkedAdvances(t, slots, at);
    DeliveredAdvances(WithMarked(t, slots, at), slots, at);
    AdvancesTransitive(t, WithMarked(t, slots, at), WithDelivered(WithMarked(t, slots, at), slots, at));
  }

  lemma AckedRows(t: Tables, slots: set<Slot>, at: Int64)
    requires RowsAgree(t) && forall s :: s in slots ==> s in t.offline
    ensures RowsAgree(WithDelivered(WithMarked(t, slots, at), slots, at))
  {
    var u := WithDelivered(WithMarked(t, slots, at), slots, at);
    forall s | s in u.offline && u.offline[s].delivered ensures s in u.deliveries && u.deliveries[s].status >= DELIVERED {
      if s !in slots {
        assert u.offline[s] == t.offline[s];
      }
    }
  }

  lemma MarkedAdvances(t: Tables, slots: set<Slot>, at: Int64)
    ensures Advances(t, WithMarked(t, slots, at))
  {
  }

  lemma AckingKeeps(t: Tables, user: UserId, ids: seq<MessageId>, at: Int64)
    requires Consistent(t) && Acking(t, user, ids, at).Success?
    ensures Consistent(Acking(t, user, ids, at).value.tables)
    ensures Advances(t, Acking(t, user, ids, at).value.tables)
  {
    hide Consistent, Advances, WithDelivered, WithMarked;
    AdvancesReflexive(t);
    if ids != [] {
      AckedKeeps(t, SlotsFor(user, ids), at);
    }
  }

  // ---- The offline ack ------------------------------------------------------------------------

  /** All or nothing: it succeeds exactly when every id has a row of this user, and then every
      one of them is delivered and no other row has changed. */
  lemma AckAllOrNothing(t: Tables, user: UserId, ids: seq<MessageId>, at: Int64)
    requires Consistent(t) && ids != []
    ensures Acking(t, user, ids, at).Success? <==>
              user != 0 && forall m :: m in ids ==> m != 0 && Slot(user, m) in t.offline
    ensures Acking(t, user, ids, at).Success? ==>
              var u := Acking(t, user, ids, at).value.tables;
              && (forall m :: m in ids ==> Slot(user, m) in u.offline && u.offline[Slot(user, m)].delivered)
              && (forall m :: m in ids ==> Slot(user, m) in u.deliveries && u.deliveries[Slot(user, m)].status >= DELIVERED)
              && u.messages == t.messages && u.offline.Keys == t.offline.Keys && u.deliveries.Keys == t.deliveries.Keys
              && (forall s :: s in t.offline && (s.user != user || s.message !in ids) ==> u.offline[s] == t.offline[s])
              && (forall s :: s in t.deliveries && (s.user != user || s.message !in ids) ==> u.deliveries[s] == t.deliveries[s])
  {
    var slots := SlotsFor(user, ids);
    assert forall m :: m in ids ==> Slot(user, m) in slots;
  }

  /** Repeating an ack, at any later time, succeeds again and changes nothing more. */
  lemma AckTwice(t: Tables, user: UserId, ids: seq<MessageId>, at: Int64, later: Int64)
    requires Consistent(t) && Acking(t, user, ids, at).Success?
    ensures Referenced(Acking(t, user, ids, at).value.tables)
    ensures Acking(Acking(t, user, ids, at).value.tables, user, ids, later) == Acking(t, user, ids, at)
  {
    if ids != [] {
      var slots := SlotsFor(user, ids);
      var u := WithDelivered(WithMarked(t, slots, at), slots, at);
      AckedTwice(t, slots, at, later);
      UniqueElements(ids);
      assert forall m :: m in ids ==> Slot(user, m) in slots;
      assert Fetched(u, Unique(ids)) == Fetched(t, Unique(ids));
    }
  }

  lemma AckedTwice(t: Tables, slots: set<Slot>, at: Int64, later: Int64)
    requires Consistent(t) && forall s :: s in slots ==> s in t.offline
    ensures var u := WithDelivered(WithMarked(t, slots, at), slots, at);
            u == WithDelivered(WithMarked(u, slots, later), slots, later)
  {
    var u := WithDelivered(WithMarked(t, slots, at), slots, at);
    MarkedTwice(t, slots, at, later);
    assert WithMarked(u, slots, later).offline == u.offline;
    DeliveredTwice(WithMarked(t, slots, at), slots, at, later);
    assert WithMarked(u, slots, later) == u;
  }

  lemma MarkedTwice(t: Tables, slots: set<Slot>, at: Int64, later: Int64)
    ensures WithMarked(WithMarked(t, slots, at), slots, later) == WithMarked(t, slots, at)
  {
    assert WithMarked(WithMarked(t, slots, at), slots, later).offline == WithMarked(t, slots, at).offline;
  }

  lemma DeliveredTwice(t: Tables, slots: set<Slot>, at: Int64, later: Int64)
    ensures WithDelivered(WithDelivered(t, slots, at), slots, later) == WithDelivered(t, slots, at)
  {
    assert WithDelivered(WithDelivered(t, slots, at), slots, later).deliveries == WithDelivered(t, slots, at).deliveries;
  }

  /** Duplicated or reordered ids make no difference to the tables. */
  lemma AckSeesOnlyTheSet(t: Tables, user: UserId, ids: seq<MessageId>, others: seq<MessageId>, at: Int64)
    requires Consistent(t) && forall m :: m in ids <==> m in others
    ensures Acking(t, user, ids, at).Success? <==> Acking(t, user, others, at).Success?
    ensures Acking(t, user, ids, at).Success? ==>
              && Acking(t, user, ids, at).value.tables == Acking(t, user, others, at).value.tables
              && (forall m :: m in Acking(t, user, ids, at).value.value <==> m in Acking(t, user, others, at).value.value)
  {
    assert SlotsFor(user, ids) == SlotsFor(user, others);
    assert |others| > 0 ==> others[0] in ids;
    if ids != [] {
      assert ids[0] in others;
      if Acking(t, user, ids, at).Success? {
        assert forall m :: m in ids ==> Slot(user, m) in SlotsFor(user, ids);
        FetchedElements(t, ids);
        FetchedElements(t, others);
      }
    }
  }

  lemma FetchedElements(t: Tables, ids: seq<MessageId>)
    requires forall m :: m in ids ==> m in t.messages
    ensures forall m :: m in Unique(ids) ==> m in t.messages
    ensures forall r :: r in Fetched(t, Unique(ids)) <==> exists m :: m in ids && r == t.messages[m]
  {
    UniqueElements(ids);
    var records := Fetched(t, Unique(ids));
    forall r | r in records ensures exists m :: m in ids && r == t.messages[m] {
      var i :| 0 <= i < |records| && records[i] == r;
      assert Unique(ids)[i] in ids;
    }
    forall m | m in ids ensures t.messages[m] in records {
      var i :| 0 <= i < |Unique(ids)| && Unique(ids)[i] == m;
      assert records[i] == t.messages[m];
    }
  }
}
