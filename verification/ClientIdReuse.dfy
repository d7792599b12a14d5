/**
 A client id that a sender uses for two receivers: the second request succeeds and its
 receiver gets nothing.  The run that shows it.
 */
module ClientIdReuse {
  import opened Base
  import opened Records
  import opened Storage
  import opened Transactions
  import opened Delivery
  import DeliveryRuns
  import Friends
  import Runs

  const FIRST: Request := PrivateMessage(1, 2, [65], Some([67]))
  const SECOND: Request := PrivateMessage(1, 3, [66], Some([67]))
  const STORED: MessageRecord := MessageRecord(1, ConversationKey(Private, 10002), 1, 2, [65], 5, [67])

  ghost function Last(run: seq<System>): (s: System)
    requires |run| > 0
  {
    run[|run| - 1]
  }

  lemma Taking(run: seq<System>, e: Step) returns (longer: seq<System>)
    requires Runs.IsRun(Init, Next, run) && Enabled(Last(run), e)
    ensures Runs.IsRun(Init, Next, longer) && Last(longer) == After(Last(run), e)
  {
    longer := run + [After(Last(run), e)];
    Runs.Extend(Init, Next, run, After(Last(run), e));
  }

  ghost predicate Ready(s: System) {
    && s.tables == Tables(map[], map[], map[]) && s.jobs == map[] && s.pushed == {} && s.counted == multiset{}
    && Friends.Pair(1, 2) in s.friends.friendships && Friends.Pair(1, 3) in s.friends.friendships
  }

  lemma MakeFriends() returns (run: seq<System>)
    ensures Runs.IsRun(Init, Next, run) && Ready(Last(run))
  {
    run := [System(Tables(map[], map[], map[]), Friends.Tables(map[], {}), map[], {}, multiset{}, map[], true)];
    assert Runs.IsRun(Init, Next, run);
    hide Runs.IsRun, Next;
    run := Taking(run, Befriend(Friends.Create(Friends.Pair(1, 2)), NoFault));
    run := Taking(run, Befriend(Friends.Accept(Friends.Pair(1, 2)), NoFault));
    run := Taking(run, Befriend(Friends.Create(Friends.Pair(1, 3)), NoFault));
    run := Taking(run, Befriend(Friends.Accept(Friends.Pair(1, 3)), NoFault));
  }

  /** The first request is stored for an offline receiver and answered. */
  ghost predicate Sent(s: System) {
    && s.tables.messages == map[1 := STORED]
    && s.tables.offline == map[Slot(2, 1) := OfflineRow(false, 5, None)]
    && s.tables.deliveries == map[Slot(2, 1) := DeliveryRow(PENDING, None)]
    && s.jobs == map[0 := Job(FIRST, [], Answered(STORED))] && s.pushed == {}
    && Friends.Pair(1, 3) in s.friends.friendships
  }

  lemma AskFirst(ready: seq<System>) returns (run: seq<System>)
    requires Runs.IsRun(Init, Next, ready) && Ready(Last(ready))
    ensures Runs.IsRun(Init, Next, run) && Last(run).jobs == map[0 := Job(FIRST, [], Storing(false))]
    ensures Last(run).tables == Tables(map[], map[], map[]) && Last(run).pushed == {}
    ensures Friends.Pair(1, 3) in Last(run).friends.friendships
  {
    SavesFirst(Last(ready));
    hide Runs.IsRun, Next, PrivateRecord, Saving;
    run := Taking(ready, Begin(0, FIRST));
    run := Taking(run, AskFriends(0, true, NoFault));
    run := Taking(run, Look(0, Offline));
  }

  lemma SendFirst(ready: seq<System>) returns (run: seq<System>)
    requires Runs.IsRun(Init, Next, ready) && Ready(Last(ready))
    ensures Runs.IsRun(Init, Next, run) && Sent(Last(run))
  {
    run := AskFirst(ready);
    SavesFirst(Last(run));
    hide Runs.IsRun, Next, PrivateRecord, Saving;
    run := Taking(run, Store(0, 1, 5, NoFault));
    assert Last(run).jobs == map[0 := Job(FIRST, [], Counting(STORED))];
    run := Taking(run, Count(0, true));
  }

  lemma SavesFirst(s: System)
    requires s.tables == Tables(map[], map[], map[])
    ensures PrivateRecord(FIRST) == Success(STORED.(messageId := 0, createdAtMs := 0))
    ensures Saving(s.tables, PrivateRecord(FIRST).value, [2], 1, 5)
         == Success(Effect(STORED, Tables(map[1 := STORED], map[Slot(2, 1) := OfflineRow(false, 5, None)],
                                          map[Slot(2, 1) := DeliveryRow(PENDING, None)])))
  {
    var start := s.tables.(messages := map[1 := STORED]);
    assert SlotsOf([2], 1) == {Slot(2, 1)};
    assert WithPending(start, {Slot(2, 1)}, 5).offline == map[Slot(2, 1) := OfflineRow(false, 5, None)];
    assert WithPending(start, {Slot(2, 1)}, 5).deliveries == map[Slot(2, 1) := DeliveryRow(PENDING, None)];
    assert s.tables.messages[1 := STORED] == map[1 := STORED];
  }

  /** The tables of the first request, while the second one is where its phase says. */
  ghost predicate Asked(s: System, phase: Phase) {
    && s.tables.messages == map[1 := STORED] && s.tables.offline.Keys == {Slot(2, 1)}
    && s.tables.deliveries == map[Slot(2, 1) := DeliveryRow(PENDING, None)] && s.pushed == {}
    && 1 in s.jobs && s.jobs[1] == Job(SECOND, [], phase)
  }

  lemma AskSecond(sent: seq<System>) returns (run: seq<System>)
    requires Runs.IsRun(Init, Next, sent) && Sent(Last(sent))
    ensures Runs.IsRun(Init, Next, run) && Asked(Last(run), Storing(false))
  {
    ClientIdTaken(Last(sent));
    hide Runs.IsRun, Next, PrivateRecord;
    run := Taking(sent, Begin(1, SECOND));
    run := Taking(run, AskFriends(1, true, NoFault));
    run := Taking(run, Look(1, Offline));
  }

  lemma FindFirst(asked: seq<System>) returns (run: seq<System>)
    requires Runs.IsRun(Init, Next, asked) && Asked(Last(asked), Storing(false))
    ensures Runs.IsRun(Init, Next, run) && Asked(Last(run), CheckingDelivered(STORED))
  {
    ClientIdTaken(Last(asked));
    hide Runs.IsRun, Next, PrivateRecord, Saving;
    run := Taking(asked, Store(1, 2, 6, NoFault));
    run := Taking(run, Find(1, 1, NoFault));
  }

  /** The second request ends with the first one's record, and user 3 has nothing. */
  lemma SecondReceiverGetsNothing() returns (run: seq<System>)
    ensures Runs.IsRun(Init, Next, run)
    ensures 1 in Last(run).jobs && Last(run).jobs[1] == Job(SECOND, [], Answered(STORED))
    ensures !DeliveryRuns.AsRequested(SECOND, STORED)
    ensures forall slot: Slot :: slot.user == 3 ==> !DeliveryRuns.Covered(Last(run), slot)
  {
    hide Runs.IsRun, Next, Sent;
    run := MakeFriends();
    run := SendFirst(run);
    run := AskSecond(run);
    run := FindFirst(run);
    run := Taking(run, CheckDelivered(1, NoFault));
    run := Taking(run, LookAgain(1, Offline));
    run := Taking(run, FallBack(1, 7, NoFault));
  }

  lemma ClientIdTaken(s: System)
    requires s.tables.messages == map[1 := STORED]
    ensures PrivateRecord(SECOND).Success?
    ensures HasClientId(s.tables, 1, [67])
    ensures Saving(s.tables, PrivateRecord(SECOND).value, [3], 2, 6) == Failure(AlreadyExists)
  {
    assert Matches(s.tables.messages[1], 1, [67]);
  }
}
