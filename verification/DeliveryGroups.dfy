/**
 Group messages in every run: they come from members, and what the look-up of a member found
 decides between a push and an offline row.
 */
module DeliveryGroups {
  import opened Base
  import opened Records
  import opened Storage
  import opened Transactions
  import opened Delivery
  import opened DeliveryRuns
  import opened DeliveryPaths
  import Friends
  import Runs

  // ---- Senders are members --------------------------------------------------------------------

  /** A handler past the member list has found its sender in it. */
  ghost predicate MemberOk(j: Job) {
    && (j.phase.Gathering? ==> j.members == [])
    && (j.members != [] ==> j.request.GroupMessage? && j.request.sender in j.members)
    && (j.request.GroupMessage? && !j.phase.Gathering? && !j.phase.Failed? ==> j.request.sender in j.members)
  }

  /** An own step keeps this, and only the reading of the member list sets the members. */
  ghost predicate KeepsMembers(s: System, e: Step, t: System, a: nat) {
    && a in t.jobs && MemberOk(t.jobs[a])
    && (a in s.jobs && t.jobs[a].members != s.jobs[a].members ==> e == Gather(a, true, t.jobs[a].members, NoFault))
    && (a !in s.jobs ==> t.jobs[a].members == [])
  }

  lemma PrivateStepMembers(s: System, e: Step, a: nat)
    requires Enabled(s, e) && OwnStep(e, a) && (a in s.jobs ==> MemberOk(s.jobs[a]))
    requires !e.Gather? && !e.Partition? && !e.GroupStore? && !e.GroupCount? && !e.GroupPush?
    ensures KeepsMembers(s, e, After(s, e), a)
  {
    hide PrivateRecord, Saving, SavingOffline, HasClientId, Unused, Matches, IsDelivered, GoodText;
  }

  lemma GroupStepMembers(s: System, e: Step, a: nat)
    requires Enabled(s, e) && OwnStep(e, a) && a in s.jobs && MemberOk(s.jobs[a])
    requires e.Gather? || e.Partition? || e.GroupStore? || e.GroupCount? || e.GroupPush?
    ensures KeepsMembers(s, e, After(s, e), a)
  {
    hide GroupRecord, Saving, Unused, Distinct;
  }

  lemma {:induction false} MembersAlong(steps: seq<Step>, run: seq<System>, i: nat)
    requires Makes(steps, run) && i < |run|
    ensures forall a :: a in run[i].jobs ==> MemberOk(run[i].jobs[a])
    decreases i
  {
    hide Inv, Enabled, After, MemberOk, KeepsMembers;
    if i > 0 {
      MembersAlong(steps, run, i - 1);
      forall a | a in run[i].jobs ensures MemberOk(run[i].jobs[a]) {
        if a !in run[i - 1].jobs || run[i].jobs[a] != run[i - 1].jobs[a] {
          MembersStep(steps, run, i - 1, a);
          KeptMembersAreOk(run[i - 1], steps[i - 1], run[i], a);
        }
      }
    }
  }

  lemma KeptMembersAreOk(s: System, e: Step, t: System, a: nat)
    requires KeepsMembers(s, e, t, a)
    ensures a in t.jobs && MemberOk(t.jobs[a])
  {
    hide MemberOk;
  }

  lemma MembersStep(steps: seq<Step>, run: seq<System>, i: nat, a: nat)
    requires Makes(steps, run) && i < |steps| && a in run[i + 1].jobs
    requires a in run[i].jobs ==> MemberOk(run[i].jobs[a]) && run[i + 1].jobs[a] != run[i].jobs[a]
    ensures OwnStep(steps[i], a) && KeepsMembers(run[i], steps[i], run[i + 1], a)
  {
    hide Inv, Init, After, MemberOk, KeepsMembers;
    MakesRun(steps, run);
    RunsKeep(run, i);
    var s, e := run[i], steps[i];
    MovesByItself(s, e, a);
    if e.Gather? || e.Partition? || e.GroupStore? || e.GroupCount? || e.GroupPush? {
      GroupStepMembers(s, e, a);
    } else {
      PrivateStepMembers(s, e, a);
    }
  }

  /** The members of a handler are the list that it has read. */
  lemma {:induction false} GatheredAt(steps: seq<Step>, run: seq<System>, i: nat, a: nat) returns (n: nat)
    requires Makes(steps, run) && i < |run| && a in run[i].jobs && run[i].jobs[a].members != []
    ensures n < i && steps[n] == Gather(a, true, run[i].jobs[a].members, NoFault)
    decreases i
  {
    hide Inv, Enabled, After, MemberOk;
    if i == 0 {
      assert false;
    } else if a in run[i - 1].jobs && run[i - 1].jobs[a].members == run[i].jobs[a].members {
      n := GatheredAt(steps, run, i - 1, a);
    } else {
      MembersAlong(steps, run, i - 1);
      MembersStep(steps, run, i - 1, a);
      n := i - 1;
    }
  }

  /** In every run, a group handler that has read its member list and not failed has a sender in it. */
  lemma GroupSendersAreMembers(steps: seq<Step>, run: seq<System>, i: nat, a: nat) returns (n: nat)
    requires Makes(steps, run) && i < |run| && a in run[i].jobs && run[i].jobs[a].request.GroupMessage?
    requires !run[i].jobs[a].phase.Gathering? && !run[i].jobs[a].phase.Failed?
    ensures run[i].jobs[a].request.sender in run[i].jobs[a].members
    ensures n < i && steps[n] == Gather(a, true, run[i].jobs[a].members, NoFault)
  {
    hide Inv, Init, Enabled, After;
    MembersAlong(steps, run, i);
    n := GatheredAt(steps, run, i, a);
  }

  // ---- Where a stored message comes from ------------------------------------------------------

  lemma PrivateStoredAsRequested(s: System, e: Step)
    requires Inv(s) && Enabled(s, e) && e.Store? && e.id in After(s, e).tables.messages
    ensures e.job in s.jobs && s.jobs[e.job].request.PrivateMessage?
    ensures AsRequested(s.jobs[e.job].request, After(s, e).tables.messages[e.id])
  {
    hide Ledger, GoodRequest, MessageOk, Saving, PrivateRecord, HasClientId, SlotsOf, Friends.Inv, RowsAgree;
    var a := e.job;
    assert JobOk(s, s.jobs[a]);
    var r := s.jobs[a].request;
    PrivateRecordOk(s, r);
    if Applies(PrivateSaving(s, a, e.id, e.now), e.fault) {
      SavedRows(s, PrivateRecord(r).value, if s.jobs[a].phase.receiverOnline then [] else [r.receiver], e.id, e.now);
    }
  }

  lemma GroupStoreGoes(s: System, e: Step)
    requires Inv(s) && Enabled(s, e) && e.GroupStore?
    ensures var t := After(s, e); var a := e.job;
            && a in s.jobs && s.jobs[a].request.GroupMessage? && s.jobs[a].phase.Partitioning?
            && s.jobs[a].phase.at == |s.jobs[a].members| && e.id !in s.tables.messages
            && a in t.jobs && t.jobs[a].request == s.jobs[a].request && t.jobs[a].members == s.jobs[a].members
            && t.pushed == s.pushed
            && (e.id in t.tables.messages ==>
                  && AsRequested(s.jobs[a].request, t.tables.messages[e.id])
                  && t.tables.offline.Keys == s.tables.offline.Keys + SlotsOf(s.jobs[a].phase.offline, e.id))
            && (!t.jobs[a].phase.Failed? ==>
                  e.id in t.tables.messages
                  && t.jobs[a].phase == GroupCounting(t.tables.messages[e.id], s.jobs[a].phase.offline, s.jobs[a].phase.online)
                  && t.tables.messages[e.id].messageId == e.id)
  {
    hide Ledger, GoodRequest, MessageOk, Saving, GroupRecord, HasClientId, SlotsOf, Friends.Inv, RowsAgree, Split;
    var a := e.job;
    assert JobOk(s, s.jobs[a]);
    var r := s.jobs[a].request;
    GroupRecordOk(s, s.jobs[a]);
    GroupRecordAsRequested(r);
    if Applies(GroupSaving(s, a, e.id, e.now), e.fault) {
      SavedRows(s, GroupRecord(r), s.jobs[a].phase.offline, e.id, e.now);
    }
  }

  lemma GroupRecordAsRequested(r: Request)
    requires r.GroupMessage?
    ensures AsRequested(r, GroupRecord(r))
  {
  }

  lemma {:induction false} StoredAt(steps: seq<Step>, run: seq<System>, i: nat, id: MessageId) returns (k: nat)
    requires Makes(steps, run) && i < |run| && id in run[i].tables.messages
    ensures k < i && (steps[k].Store? || steps[k].GroupStore?) && steps[k].id == id && id in run[k + 1].tables.messages
    decreases i
  {
    hide Inv, Enabled, After;
    if i == 0 {
      assert false;
    } else if id in run[i - 1].tables.messages {
      k := StoredAt(steps, run, i - 1, id);
    } else {
      MakesRun(steps, run);
      RunsKeep(run, i - 1);
      InvReferenced(run[i - 1]);
      OnlyStoresAdd(run[i - 1], steps[i - 1], id);
      k := i - 1;
    }
  }

  /** Every stored group message is as one handler's request says, and its sender is in the
      member list that this handler had read. */
  lemma GroupMessagesComeFromMembers(steps: seq<Step>, run: seq<System>, i: nat, id: MessageId)
    returns (a: nat, members: seq<UserId>, n: nat, k: nat)
    requires Makes(steps, run) && i < |run| && id in run[i].tables.messages
    requires run[i].tables.messages[id].conversation.kind.Group?
    ensures n < k < i && steps[n] == Gather(a, true, members, NoFault)
    ensures steps[k].GroupStore? && steps[k].job == a && steps[k].id == id
    ensures run[i].tables.messages[id].senderId in members
    ensures a in run[k].jobs && AsRequested(run[k].jobs[a].request, run[i].tables.messages[id])
  {
    hide Inv, Init, After, Friends.Grows, OfflineAdvances, DeliveriesAdvance;
    k := StoredAt(steps, run, i, id);
    MakesRun(steps, run);
    RunsKeep(run, k);
    RunsGoForward(run, k + 1, i);
    assert Enabled(run[k], steps[k]) && run[k + 1] == After(run[k], steps[k]);
    if steps[k].Store? {
      PrivateStoredAsRequested(run[k], steps[k]);
    }
    GroupStoreGoes(run[k], steps[k]);
    a := steps[k].job;
    n := GroupSendersAreMembers(steps, run, k, a);
    members := run[k].jobs[a].members;
  }

  // ---- Looking the members up ------------------------------------------------------------------

  predicate GroupStep(e: Step) {
    e.Gather? || e.Partition? || e.GroupStore? || e.GroupCount? || e.GroupPush?
  }

  predicate InGroupPhase(p: Phase) {
    p.Partitioning? || p.GroupCounting? || p.GroupPushing?
  }

  lemma EarlyStaysPrivate(s: System, e: Step, b: nat)
    requires Enabled(s, e) && OwnStep(e, b) && (e.Begin? || e.AskFriends? || e.Look? || e.Store? || e.Find?)
    ensures b in After(s, e).jobs && !InGroupPhase(After(s, e).jobs[b].phase)
  {
    hide PrivateRecord, Saving, HasClientId, Unused, Matches, GoodRequest;
  }

  lemma LateStaysPrivate(s: System, e: Step, b: nat)
    requires Enabled(s, e) && OwnStep(e, b) && (e.CheckDelivered? || e.LookAgain? || e.Push? || e.FallBack? || e.Count?)
    ensures b in After(s, e).jobs && !InGroupPhase(After(s, e).jobs[b].phase)
  {
    hide SavingOffline, IsDelivered;
  }

  lemma PrivateStepsStayPrivate(s: System, e: Step, b: nat)
    requires Enabled(s, e) && OwnStep(e, b) && !GroupStep(e)
    ensures b in After(s, e).jobs && !InGroupPhase(After(s, e).jobs[b].phase)
  {
    hide Enabled, After;
    if e.CheckDelivered? || e.LookAgain? || e.Push? || e.FallBack? || e.Count? {
      LateStaysPrivate(s, e, b);
    } else {
      EarlyStaysPrivate(s, e, b);
    }
  }

  /** How the two lists come to their next state. */
  lemma PartitionGoes(s: System, e: Step, a: nat)
    requires Enabled(s, e) && OwnStep(e, a) && GroupStep(e) && a in s.jobs && a in After(s, e).jobs
    requires After(s, e).jobs[a].phase.Partitioning?
    ensures e.Gather? ==> After(s, e).jobs[a].phase.at == 0
    ensures !e.Gather? ==>
              && e.Partition? && s.jobs[a].phase.Partitioning?
              && s.jobs[a].phase.at < |s.jobs[a].members| && After(s, e).jobs[a].members == s.jobs[a].members
              && After(s, e).jobs[a].request == s.jobs[a].request
              && var p, q, u := s.jobs[a].phase, After(s, e).jobs[a].phase, s.jobs[a].members[s.jobs[a].phase.at];
                 && q.at == p.at + 1
                 && (u == s.jobs[a].request.sender ==> q.online == p.online && q.offline == p.offline)
                 && (u != s.jobs[a].request.sender ==>
                       || (e.found == Online && q.online == p.online + [u] && q.offline == p.offline)
                       || (e.found == Offline && q.online == p.online && q.offline == p.offline + [u]))
  {
    hide GroupRecord, Saving, Unused, Distinct;
  }

  lemma SplitOf(s: System, a: nat)
    requires Inv(s) && a in s.jobs && s.jobs[a].phase.Partitioning?
    ensures Split(s.jobs[a], s.jobs[a].phase.at, s.jobs[a].phase.online, s.jobs[a].phase.offline)
  {
    hide TablesOk, Ledger, GoodRequest, Split;
    assert JobOk(s, s.jobs[a]);
  }

  /** The look-up of one member. */
  ghost predicate LooksUp(s: System, e: Step, a: nat, x: nat) {
    e.Partition? && e.job == a && a in s.jobs && s.jobs[a].phase.Partitioning? && s.jobs[a].phase.at == x
  }

  /** Each member but the sender has been looked up once, and is in the online list exactly if
      it was found online, in the offline list exactly if it was found offline. */
  lemma {:induction false} MembersAreLookedUp(steps: seq<Step>, run: seq<System>, i: nat, a: nat, x: nat) returns (p: nat)
    requires Makes(steps, run) && i < |run| && a in run[i].jobs && run[i].jobs[a].phase.Partitioning?
    requires x < run[i].jobs[a].phase.at <= |run[i].jobs[a].members|
    requires run[i].jobs[a].members[x] != run[i].jobs[a].request.sender
    ensures p < i && LooksUp(run[p], steps[p], a, x) && !steps[p].found.LookupFails?
    ensures steps[p].found == Online <==> run[i].jobs[a].members[x] in run[i].jobs[a].phase.online
    ensures steps[p].found == Offline <==> run[i].jobs[a].members[x] in run[i].jobs[a].phase.offline
    decreases i
  {
    hide Inv, Enabled, After, Split;
    MakesRun(steps, run);
    RunsKeep(run, i);
    SplitOf(run[i], a);
    if i == 0 {
      assert false;
    } else if a in run[i - 1].jobs && run[i - 1].jobs[a] == run[i].jobs[a] {
      p := MembersAreLookedUp(steps, run, i - 1, a, x);
    } else {
      RunsKeep(run, i - 1);
      MovesByItself(run[i - 1], steps[i - 1], a);
      if !GroupStep(steps[i - 1]) {
        PrivateStepsStayPrivate(run[i - 1], steps[i - 1], a);
      }
      PartitionsGoOn(run[i - 1], steps[i - 1], a);
      PartitionGoes(run[i - 1], steps[i - 1], a);
      SplitOf(run[i - 1], a);
      if run[i - 1].jobs[a].phase.at == x {
        p := i - 1;
        JustLookedUp(run[i].jobs[a], x);
      } else {
        p := MembersAreLookedUp(steps, run, i - 1, a, x);
        OtherMember(run[i].jobs[a], x, run[i - 1].jobs[a].phase.at);
      }
    }
  }

  lemma PartitionsGoOn(s: System, e: Step, a: nat)
    requires Enabled(s, e) && OwnStep(e, a) && a in After(s, e).jobs && After(s, e).jobs[a].phase.Partitioning?
    ensures a in s.jobs
  {
    if a !in s.jobs {
      BeginGoes(s, e, a);
    }
  }

  lemma JustLookedUp(j: Job, x: nat)
    requires j.phase.Partitioning? && Split(j, j.phase.at, j.phase.online, j.phase.offline) && x < |j.members|
    ensures j.members[x] in j.phase.online ==> j.members[x] !in j.phase.offline
  {
  }

  lemma OtherMember(j: Job, x: nat, y: nat)
    requires j.phase.Partitioning? && Split(j, j.phase.at, j.phase.online, j.phase.offline)
    requires x < |j.members| && y < |j.members| && x != y
    ensures j.members[x] != j.members[y]
  {
  }

  // ---- Where pushes come from --------------------------------------------------------------------

  lemma PushesComeFrom(s: System, e: Step, slot: Slot)
    requires Enabled(s, e) && slot in After(s, e).pushed && slot !in s.pushed
    ensures e.Push? || e.GroupPush?
    ensures e.Push? ==> e.job in s.jobs && s.jobs[e.job].phase.Pushing? && slot == ReceiverSlot(s.jobs[e.job].phase.m)
    ensures e.GroupPush? ==>
              && e.job in s.jobs && s.jobs[e.job].phase.GroupPushing? && s.jobs[e.job].phase.left != [] && e.refusal.None?
              && slot == Slot(s.jobs[e.job].phase.left[0], s.jobs[e.job].phase.m.messageId)
  {
    hide PrivateRecord, GroupRecord, Saving, SavingOffline, HasClientId, Unused, Matches, Distinct, IsDelivered, GoodRequest,
      Acking, AckingPrivate, Friends.Intended, Referenced;
  }

  /** What a handler holds is a stored message of its kind. */
  lemma HeldIsStored(s: System, a: nat)
    requires Inv(s) && a in s.jobs
    ensures var p := s.jobs[a].phase;
            && (p.Pushing? || p.FallingBack? ==>
                  p.m.messageId in s.tables.messages && s.tables.messages[p.m.messageId].conversation.kind.Private?)
            && (p.GroupCounting? || p.GroupPushing? ==> p.m.messageId in s.tables.messages)
  {
    hide TablesOk, Ledger, GoodRequest;
    assert JobOk(s, s.jobs[a]);
  }

  lemma {:induction false} PushesAreOfMessages(steps: seq<Step>, run: seq<System>, i: nat)
    requires Makes(steps, run) && i < |run|
    ensures forall x :: x in run[i].pushed ==> x.message in run[i].tables.messages
    decreases i
  {
    hide Inv, Enabled, After, Friends.Grows, OfflineAdvances, DeliveriesAdvance;
    if i > 0 {
      PushesAreOfMessages(steps, run, i - 1);
      MakesRun(steps, run);
      RunsKeep(run, i - 1);
      RunsGoForward(run, i - 1, i);
      forall x | x in run[i].pushed ensures x.message in run[i].tables.messages {
        if x !in run[i - 1].pushed {
          PushesComeFrom(run[i - 1], steps[i - 1], x);
          HeldIsStored(run[i - 1], steps[i - 1].job);
        }
      }
    }
  }

  // ---- After the save -----------------------------------------------------------------------------

  /** Where handler `a` is with message `id`: who has been pushed to so far. */
  ghost predicate PushedSoFar(s: System, id: MessageId, phase: Phase, online: seq<UserId>) {
    match phase
    case GroupCounting(m, _, on) => m.messageId == id && on == online && forall u :: Slot(u, id) !in s.pushed
    case GroupPushing(m, left) =>
      && m.messageId == id && |left| <= |online| && left == online[|online| - |left|..]
      && forall u :: Slot(u, id) in s.pushed <==> u in online[..|online| - |left|]
    case Answered(m) => m.messageId == id && forall u :: Slot(u, id) in s.pushed <==> u in online
    case Failed(_) => forall u :: Slot(u, id) in s.pushed ==> u in online
    case _ => false
  }

  ghost predicate OthersElsewhere(s: System, a: nat, id: MessageId) {
    forall b :: b in s.jobs && b != a && (s.jobs[b].phase.GroupCounting? || s.jobs[b].phase.GroupPushing?) ==>
      s.jobs[b].phase.m.messageId != id
  }

  ghost predicate RowsAre(s: System, id: MessageId, offline: seq<UserId>) {
    && id in s.tables.messages && s.tables.messages[id].conversation.kind.Group?
    && forall u :: Slot(u, id) in s.tables.offline <==> u in offline
  }

  ghost predicate Tracked(s: System, a: nat, id: MessageId, online: seq<UserId>, offline: seq<UserId>) {
    && a in s.jobs && RowsAre(s, id, offline) && PushedSoFar(s, id, s.jobs[a].phase, online)
    && OthersElsewhere(s, a, id)
  }

  lemma RowsStayTheSame(s: System, e: Step, id: MessageId, offline: seq<UserId>)
    requires Inv(s) && Enabled(s, e) && RowsAre(s, id, offline)
    ensures RowsAre(After(s, e), id, offline)
  {
    hide Inv, After, Enabled, Friends.Grows, DeliveriesAdvance;
    var t := After(s, e);
    assert Next(s, t);
    StepKeeps(s, t);
    forall u ensures Slot(u, id) in t.tables.offline <==> u in offline {
      if Slot(u, id) in t.tables.offline && Slot(u, id) !in s.tables.offline {
        RowsComeFrom(s, e, Slot(u, id));
        if e.Store? || e.GroupStore? {
          StoresAreNew(s, e);
        } else {
          HeldIsStored(s, e.job);
        }
      }
    }
  }

  /** Nobody else pushes this message. */
  lemma OthersDoNotPush(s: System, e: Step, a: nat, id: MessageId)
    requires Inv(s) && Enabled(s, e) && OthersElsewhere(s, a, id)
    requires id in s.tables.messages && s.tables.messages[id].conversation.kind.Group?
    requires !(e.GroupPush? && e.job == a)
    ensures forall u :: Slot(u, id) in After(s, e).pushed ==> Slot(u, id) in s.pushed
  {
    hide Inv, After, Enabled;
    forall u | Slot(u, id) in After(s, e).pushed ensures Slot(u, id) in s.pushed {
      if Slot(u, id) !in s.pushed {
        PushesComeFrom(s, e, Slot(u, id));
        HeldIsStored(s, e.job);
      }
    }
  }

  lemma GroupStepsGoOn(s: System, e: Step, b: nat)
    requires Enabled(s, e) && OwnStep(e, b) && (e.Gather? || e.Partition? || e.GroupCount? || e.GroupPush?)
    ensures b in s.jobs && b in After(s, e).jobs
    ensures After(s, e).jobs[b].phase.GroupCounting? || After(s, e).jobs[b].phase.GroupPushing? ==>
              && (s.jobs[b].phase.GroupCounting? || s.jobs[b].phase.GroupPushing?)
              && After(s, e).jobs[b].phase.m == s.jobs[b].phase.m
  {
    hide Distinct;
  }

  lemma GroupPhaseGoes(s: System, e: Step, b: nat)
    requires Inv(s) && Enabled(s, e) && OwnStep(e, b) && b in After(s, e).jobs
    requires After(s, e).jobs[b].phase.GroupCounting? || After(s, e).jobs[b].phase.GroupPushing?
    ensures b in s.jobs
    ensures e.GroupStore? || s.jobs[b].phase.GroupCounting? || s.jobs[b].phase.GroupPushing?
    ensures !e.GroupStore? ==> After(s, e).jobs[b].phase.m == s.jobs[b].phase.m
  {
    hide Inv, Enabled, After;
    if e.GroupStore? {
      GroupStoreGoes(s, e);
    } else if e.Gather? || e.Partition? || e.GroupCount? || e.GroupPush? {
      GroupStepsGoOn(s, e, b);
    } else {
      PrivateStepsStayPrivate(s, e, b);
    }
  }

  lemma OthersStayElsewhere(s: System, e: Step, a: nat, id: MessageId)
    requires Inv(s) && Enabled(s, e) && OthersElsewhere(s, a, id) && id in s.tables.messages
    ensures OthersElsewhere(After(s, e), a, id)
  {
    hide Inv, After, Enabled;
    var t := After(s, e);
    forall b | b in t.jobs && b != a && (t.jobs[b].phase.GroupCounting? || t.jobs[b].phase.GroupPushing?)
      ensures t.jobs[b].phase.m.messageId != id
    {
      if b !in s.jobs || t.jobs[b] != s.jobs[b] {
        MovesByItself(s, e, b);
        GroupPhaseGoes(s, e, b);
        if e.GroupStore? {
          StoresAreNew(s, e);
          GroupStoreGoes(s, e);
        }
      }
    }
  }

  lemma OwnPushes(s: System, e: Step, a: nat, id: MessageId, online: seq<UserId>)
    requires Enabled(s, e) && OwnStep(e, a) && a in s.jobs && PushedSoFar(s, id, s.jobs[a].phase, online)
    ensures a in After(s, e).jobs && PushedSoFar(After(s, e), id, After(s, e).jobs[a].phase, online)
  {
    hide PrivateRecord, GroupRecord, Saving, SavingOffline, HasClientId, Unused, Matches, Distinct, IsDelivered, GoodRequest;
    var p := s.jobs[a].phase;
    if p.GroupCounting? {
      assert online[|online| - |online|..] == online && online[..0] == [];
    } else if p.GroupPushing? && p.left != [] {
      var n := |online| - |p.left|;
      assert p.left[0] == online[n] && p.left[1..] == online[n + 1..] && online[..n + 1] == online[..n] + [online[n]];
    } else if p.GroupPushing? {
      assert online[..|online|] == online;
    }
  }

  lemma TrackedStays(s: System, e: Step, a: nat, id: MessageId, online: seq<UserId>, offline: seq<UserId>)
    requires Inv(s) && Enabled(s, e) && Tracked(s, a, id, online, offline)
    ensures Tracked(After(s, e), a, id, online, offline)
  {
    hide Inv, After, Enabled, PushedSoFar, RowsAre, OthersElsewhere;
    RowsStayTheSame(s, e, id, offline);
    RowsMean(s, id, offline);
    OthersStayElsewhere(s, e, a, id);
    if OwnStep(e, a) {
      OwnPushes(s, e, a, id, online);
    } else {
      NotItsStep(s, e, a);
      OthersDoNotPush(s, e, a, id);
      PushesStay(s, e);
      SameSoFar(s, After(s, e), id, s.jobs[a].phase, online);
    }
  }

  lemma NotItsStep(s: System, e: Step, a: nat)
    requires Inv(s) && Enabled(s, e) && a in s.jobs && !OwnStep(e, a)
    ensures a in After(s, e).jobs && After(s, e).jobs[a] == s.jobs[a]
  {
    hide Inv, After, Enabled, Grows;
    assert Next(s, After(s, e));
    StepKeeps(s, After(s, e));
    if After(s, e).jobs[a] != s.jobs[a] {
      MovesByItself(s, e, a);
    }
  }

  lemma RowsMean(s: System, id: MessageId, offline: seq<UserId>)
    requires RowsAre(s, id, offline)
    ensures id in s.tables.messages && s.tables.messages[id].conversation.kind.Group?
  {
  }

  lemma PushesStay(s: System, e: Step)
    requires Inv(s) && Enabled(s, e)
    ensures s.pushed <= After(s, e).pushed
  {
    hide Inv, After, Enabled;
    assert Next(s, After(s, e));
    StepKeeps(s, After(s, e));
  }

  lemma SameSoFar(s: System, t: System, id: MessageId, phase: Phase, online: seq<UserId>)
    requires PushedSoFar(s, id, phase, online) && s.pushed <= t.pushed
    requires forall u :: Slot(u, id) in t.pushed ==> Slot(u, id) in s.pushed
    ensures PushedSoFar(t, id, phase, online)
  {
  }

  lemma TrackedFromTheSave(steps: seq<Step>, run: seq<System>, k: nat)
    requires Makes(steps, run) && k < |steps| && steps[k].GroupStore?
    requires steps[k].job in run[k + 1].jobs ==> run[k + 1].jobs[steps[k].job].phase.GroupCounting?
    ensures var a := steps[k].job;
            && a in run[k].jobs && run[k].jobs[a].phase.Partitioning?
            && Tracked(run[k + 1], a, steps[k].id, run[k].jobs[a].phase.online, run[k].jobs[a].phase.offline)
  {
    hide Inv, Init, After, Enabled;
    var s, e := run[k], steps[k];
    MakesRun(steps, run);
    RunsKeep(run, k);
    GroupStoreGoes(s, e);
    PushesAreOfMessages(steps, run, k);
    InvReferenced(s);
    NobodyElseHolds(s, e.job, e.id);
    OthersStillElsewhere(s, e);
    assert forall u :: Slot(u, e.id) in SlotsOf(s.jobs[e.job].phase.offline, e.id) <==> u in s.jobs[e.job].phase.offline;
  }

  lemma NobodyElseHolds(s: System, a: nat, id: MessageId)
    requires Inv(s) && id !in s.tables.messages
    ensures OthersElsewhere(s, a, id)
  {
    hide Inv;
    forall b | b in s.jobs ensures s.jobs[b].phase.GroupCounting? || s.jobs[b].phase.GroupPushing? ==>
                                     s.jobs[b].phase.m.messageId != id {
      HeldIsStored(s, b);
    }
  }

  lemma OthersStillElsewhere(s: System, e: Step)
    requires Inv(s) && Enabled(s, e) && e.GroupStore? && OthersElsewhere(s, e.job, e.id)
    ensures OthersElsewhere(After(s, e), e.job, e.id)
  {
    hide Inv, After, Enabled;
    var t := After(s, e);
    forall b | b in t.jobs && b != e.job && (t.jobs[b].phase.GroupCounting? || t.jobs[b].phase.GroupPushing?)
      ensures t.jobs[b].phase.m.messageId != e.id
    {
      if b !in s.jobs || t.jobs[b] != s.jobs[b] {
        MovesByItself(s, e, b);
      }
    }
  }

  lemma {:induction false} TrackedAlong(steps: seq<Step>, run: seq<System>, k: nat, j: nat)
    requires Makes(steps, run) && k < j < |run| && steps[k].GroupStore?
    requires steps[k].job in run[k + 1].jobs ==> run[k + 1].jobs[steps[k].job].phase.GroupCounting?
    ensures var a := steps[k].job;
            && a in run[k].jobs && run[k].jobs[a].phase.Partitioning?
            && Tracked(run[j], a, steps[k].id, run[k].jobs[a].phase.online, run[k].jobs[a].phase.offline)
    decreases j
  {
    hide Inv, Init, After, Enabled, Tracked;
    if j == k + 1 {
      TrackedFromTheSave(steps, run, k);
    } else {
      TrackedAlong(steps, run, k, j - 1);
      MakesRun(steps, run);
      RunsKeep(run, j - 1);
      TrackedStays(run[j - 1], steps[j - 1], steps[k].job, steps[k].id,
                   run[k].jobs[steps[k].job].phase.online, run[k].jobs[steps[k].job].phase.offline);
    }
  }

  // ---- The theorem ---------------------------------------------------------------------------------

  /** Once a group message is saved, each other member has its offline row exactly if its
      look-up said offline, from the save on; and when the handler has answered, an accepted
      push exactly if its look-up said online.  Nobody else has either. */
  lemma MembersGetWhatWasFound(steps: seq<Step>, run: seq<System>, k: nat, j: nat, x: nat) returns (p: nat)
    requires Makes(steps, run) && k < j < |run| && steps[k].GroupStore?
    requires steps[k].job in run[k + 1].jobs ==> run[k + 1].jobs[steps[k].job].phase.GroupCounting?
    ensures var a, id := steps[k].job, steps[k].id;
            && a in run[k].jobs && a in run[j].jobs
            && var members, sender := run[k].jobs[a].members, run[k].jobs[a].request.sender;
               && (x < |members| && members[x] != sender ==>
                     && p < k && LooksUp(run[p], steps[p], a, x) && !steps[p].found.LookupFails?
                     && (Slot(members[x], id) in run[j].tables.offline <==> steps[p].found == Offline)
                     && (Slot(members[x], id) in run[j].pushed ==> steps[p].found == Online)
                     && (run[j].jobs[a].phase.Answered? && steps[p].found == Online ==> Slot(members[x], id) in run[j].pushed))
               && (forall u :: Slot(u, id) in run[j].tables.offline || Slot(u, id) in run[j].pushed ==>
                     u in members && u != sender)
  {
    hide Inv, Init, After, Enabled;
    TrackedAlong(steps, run, k, j);
    MakesRun(steps, run);
    RunsKeep(run, k);
    var a := steps[k].job;
    GroupStoreGoes(run[k], steps[k]);
    SplitOf(run[k], a);
    var job := run[k].jobs[a];
    assert job.members[..|job.members|] == job.members;
    p := 0;
    if x < |job.members| && job.members[x] != job.request.sender {
      p := MembersAreLookedUp(steps, run, k, a, x);
    }
    hide Split;
    forall u | Slot(u, steps[k].id) in run[j].pushed ensures u in job.phase.online {
      PushedAreOnline(run[j], a, steps[k].id, job.phase.online, u);
    }
  }

  lemma PushedAreOnline(s: System, a: nat, id: MessageId, online: seq<UserId>, u: UserId)
    requires a in s.jobs && PushedSoFar(s, id, s.jobs[a].phase, online) && Slot(u, id) in s.pushed
    ensures u in online
  {
  }
}
