/**
 Which way a private message goes: what its handler found when it looked for the receiver
 decides between a push and an offline row, in every run.
 */
module DeliveryPaths {
  import opened Base
  import opened Records
  import opened Storage
  import opened Transactions
  import opened Delivery
  import opened DeliveryRuns
  import Conversation
  import Friends
  import Runs

  /** `run` is what `steps` make of an empty server. */
  ghost predicate Makes(steps: seq<Step>, run: seq<System>) {
    && |run| == |steps| + 1 && Init(run[0])
    && (forall i :: 0 <= i < |steps| ==> Enabled(run[i], steps[i]) && run[i + 1] == After(run[i], steps[i]))
  }

  lemma MakesRun(steps: seq<Step>, run: seq<System>)
    requires Makes(steps, run)
    ensures Runs.IsRun(Init, Next, run)
  {
    hide Enabled, After, Init;
    forall i | 0 <= i < |run| - 1 ensures Next(run[i], run[i + 1]) {
      assert Enabled(run[i], steps[i]) && run[i + 1] == After(run[i], steps[i]);
    }
  }

  /** A step of this handler. */
  predicate OwnStep(e: Step, a: nat) {
    !e.AckDelivery? && !e.AckOffline? && !e.ClearUnread? && !e.Befriend? && e.job == a
  }

  predicate Pushes(e: Step, a: nat) {
    e.Push? && e.job == a
  }

  // ---- A private handler only goes forward ---------------------------------------------------

  function Rank(p: Phase): (n: nat) {
    match p
    case Asking => 0
    case Looking => 1
    case Storing(_) => 2
    case Finding => 3
    case CheckingDelivered(_) => 4
    case LookingAgain(_) => 5
    case Pushing(_) => 6
    case FallingBack(_) => 7
    case Counting(_) => 8
    case _ => 9
  }

  lemma PrivatePhases(s: System, a: nat)
    requires Inv(s) && a in s.jobs && s.jobs[a].request.PrivateMessage?
    ensures var p := s.jobs[a].phase; !p.Gathering? && !p.Partitioning? && !p.GroupCounting? && !p.GroupPushing?
  {
    hide TablesOk, Ledger, GoodRequest;
    assert JobOk(s, s.jobs[a]);
  }

  lemma EarlyRank(s: System, e: Step, a: nat)
    requires Enabled(s, e) && OwnStep(e, a) && (e.AskFriends? || e.Look? || e.Store? || e.Find?)
    ensures a in s.jobs && a in After(s, e).jobs && Rank(After(s, e).jobs[a].phase) > Rank(s.jobs[a].phase)
  {
    hide PrivateRecord, Saving, HasClientId, Unused, Matches;
  }

  lemma LateRank(s: System, e: Step, a: nat)
    requires Enabled(s, e) && OwnStep(e, a) && (e.CheckDelivered? || e.LookAgain? || e.Push? || e.FallBack? || e.Count?)
    ensures a in s.jobs && a in After(s, e).jobs && Rank(After(s, e).jobs[a].phase) > Rank(s.jobs[a].phase)
  {
    hide SavingOffline, IsDelivered;
  }

  lemma PrivateSteps(s: System, e: Step, a: nat)
    requires Inv(s) && Enabled(s, e) && OwnStep(e, a) && a in s.jobs && s.jobs[a].request.PrivateMessage?
    ensures !e.Begin? && !e.Gather? && !e.Partition? && !e.GroupStore? && !e.GroupCount? && !e.GroupPush?
  {
    PrivatePhases(s, a);
    hide Inv, HasClientId, Unused, Matches, Distinct;
  }

  lemma OwnStepRank(s: System, e: Step, a: nat)
    requires Inv(s) && Enabled(s, e) && OwnStep(e, a) && a in s.jobs && s.jobs[a].request.PrivateMessage?
    ensures a in After(s, e).jobs && Rank(After(s, e).jobs[a].phase) > Rank(s.jobs[a].phase)
  {
    hide Inv, Enabled, After, Rank;
    PrivateSteps(s, e, a);
    if e.AskFriends? || e.Look? || e.Store? || e.Find? {
      EarlyRank(s, e, a);
    } else {
      LateRank(s, e, a);
    }
  }

  lemma OneStep(steps: seq<Step>, run: seq<System>, i: nat, a: nat)
    requires Makes(steps, run) && i < |steps| && a in run[i].jobs
    ensures Inv(run[i]) && Later(run[i], run[i + 1]) && a in run[i + 1].jobs
    ensures run[i + 1].jobs[a].request == run[i].jobs[a].request
    ensures run[i + 1].jobs[a] != run[i].jobs[a] ==> OwnStep(steps[i], a)
  {
    hide Inv, Init, Enabled, After, Grows;
    MakesRun(steps, run);
    RunsKeep(run, i);
    RunsGoForward(run, i, i + 1);
    if run[i + 1].jobs[a] != run[i].jobs[a] {
      MovesByItself(run[i], steps[i], a);
    }
  }

  lemma {:induction false} RankAlong(steps: seq<Step>, run: seq<System>, i: nat, j: nat, a: nat)
    requires Makes(steps, run) && i <= j < |run| && a in run[i].jobs && run[i].jobs[a].request.PrivateMessage?
    ensures a in run[j].jobs && run[j].jobs[a].request == run[i].jobs[a].request
    ensures Rank(run[i].jobs[a].phase) <= Rank(run[j].jobs[a].phase)
    ensures Rank(run[i].jobs[a].phase) == Rank(run[j].jobs[a].phase) ==> run[j].jobs[a] == run[i].jobs[a]
    decreases j
  {
    hide Inv, Init, Enabled, After, Grows, Rank;
    if i < j {
      RankAlong(steps, run, i, j - 1, a);
      OneStep(steps, run, j - 1, a);
      if run[j].jobs[a] != run[j - 1].jobs[a] {
        OwnStepRank(run[j - 1], steps[j - 1], a);
      }
    }
  }

  /** The step by which a handler leaves the place it is at. */
  lemma LeavesAt(steps: seq<Step>, run: seq<System>, i: nat, j: nat, a: nat) returns (n: nat)
    requires Makes(steps, run) && i <= j < |run| && a in run[i].jobs
    requires a in run[j].jobs ==> run[j].jobs[a] != run[i].jobs[a]
    ensures i <= n < j && a in run[n].jobs && run[n].jobs[a] == run[i].jobs[a] && OwnStep(steps[n], a)
    ensures Inv(run[n]) && a in run[n + 1].jobs && run[n + 1].jobs[a] != run[n].jobs[a]
  {
    hide Inv, Init, Enabled, After, Grows;
    n := i;
    OneStepIfAny(steps, run, n, j, a);
    while n < j && run[n + 1].jobs[a] == run[i].jobs[a]
      invariant i <= n <= j && a in run[n].jobs && run[n].jobs[a] == run[i].jobs[a]
      invariant n < j ==> a in run[n + 1].jobs
    {
      n := n + 1;
      OneStepIfAny(steps, run, n, j, a);
    }
    OneStep(steps, run, n, a);
  }

  lemma OneStepIfAny(steps: seq<Step>, run: seq<System>, n: nat, j: nat, a: nat)
    requires Makes(steps, run) && n <= j < |run| && a in run[n].jobs
    ensures n < j ==> a in run[n + 1].jobs
  {
    hide Inv, Init, Enabled, After, Grows;
    if n < j {
      OneStep(steps, run, n, a);
    }
  }

  // ---- What each step of the way does --------------------------------------------------------

  lemma LookGoes(s: System, a: nat, found: Lookup)
    requires Enabled(s, Look(a, found))
    ensures var t := After(s, Look(a, found));
            && a in t.jobs && t.jobs[a].request == s.jobs[a].request
            && (found == Online ==> t.jobs[a].phase == Storing(true))
            && (found == Offline ==> t.jobs[a].phase == Storing(false))
            && (found.LookupFails? ==> t.jobs[a].phase == Failed(found.error))
  {
  }

  lemma LookAgainGoes(s: System, a: nat, found: Lookup)
    requires Enabled(s, LookAgain(a, found))
    ensures var t := After(s, LookAgain(a, found));
            && a in t.jobs && a in s.jobs && s.jobs[a].phase.LookingAgain? && t.jobs[a].request == s.jobs[a].request
            && (found == Online ==> t.jobs[a].phase == Pushing(s.jobs[a].phase.m))
            && (found == Offline ==> t.jobs[a].phase == FallingBack(s.jobs[a].phase.m))
            && (found.LookupFails? ==> t.jobs[a].phase == Failed(found.error))
  {
  }

  /** The save has made the message's row. */
  predicate Saved(p: Phase) {
    !p.Failed? && !p.Finding?
  }

  /** A save leads an online receiver to the push and an offline one to its row. */
  lemma StoreGoes(s: System, a: nat, id: MessageId, now: Int64, fault: Fault)
    requires Inv(s) && Enabled(s, Store(a, id, now, fault))
    ensures var t := After(s, Store(a, id, now, fault));
            && a in t.jobs && a in s.jobs && s.jobs[a].phase.Storing? && s.jobs[a].request.PrivateMessage?
            && t.jobs[a].request == s.jobs[a].request
            && (Saved(t.jobs[a].phase) ==>
                  && (if s.jobs[a].phase.receiverOnline then t.jobs[a].phase.Pushing? else t.jobs[a].phase.Counting?)
                  && t.jobs[a].phase.m.messageId == id && AsRequested(s.jobs[a].request, t.jobs[a].phase.m)
                  && id in t.tables.messages && id !in s.tables.messages
                  && forall u :: Slot(u, id) in t.tables.offline <==>
                       !s.jobs[a].phase.receiverOnline && u == s.jobs[a].request.receiver)
  {
    hide Ledger, GoodRequest, MessageOk, Saving, PrivateRecord, HasClientId, SlotsOf, Friends.Inv, RowsAgree;
    assert JobOk(s, s.jobs[a]);
    StoreStep(s, Store(a, id, now, fault));
    var r := s.jobs[a].request;
    var users := if s.jobs[a].phase.receiverOnline then [] else [r.receiver];
    PrivateRecordOk(s, r);
    FewSlots(r.receiver, id);
    if Applies(PrivateSaving(s, a, id, now), fault) {
      SavedRows(s, PrivateRecord(r).value, users, id, now);
    }
  }

  lemma PushGoes(s: System, e: Step, a: nat)
    requires Enabled(s, e) && OwnStep(e, a) && a in s.jobs && s.jobs[a].phase.Pushing?
    ensures e.Push? && a in After(s, e).jobs
    ensures After(s, e).jobs[a].phase == if e.accepted then Answered(s.jobs[a].phase.m) else FallingBack(s.jobs[a].phase.m)
    ensures After(s, e).pushed == s.pushed + if e.accepted then {ReceiverSlot(s.jobs[a].phase.m)} else {}
    ensures After(s, e).tables == s.tables
  {
  }

  lemma FallBackGoes(s: System, e: Step, a: nat)
    requires Inv(s) && Enabled(s, e) && OwnStep(e, a) && a in s.jobs && s.jobs[a].phase.FallingBack?
    ensures var p := s.jobs[a].phase; var t := After(s, e);
            && e.FallBack? && a in t.jobs
            && (t.jobs[a].phase == Counting(p.m) || t.jobs[a].phase == Answered(p.m) || t.jobs[a].phase.Failed?)
            && (!t.jobs[a].phase.Failed? ==> ReceiverSlot(p.m) in t.tables.offline)
  {
    hide JobsOk, Ledger, TablesOk;
  }

  lemma CountGoes(s: System, e: Step, a: nat)
    requires Enabled(s, e) && OwnStep(e, a) && a in s.jobs && s.jobs[a].phase.Counting?
    ensures e.Count? && a in After(s, e).jobs && After(s, e).jobs[a].phase == Answered(s.jobs[a].phase.m)
    ensures After(s, e).tables == s.tables
  {
  }

  // ---- The ways to an answer ------------------------------------------------------------------

  ghost predicate IsAnswered(s: System, a: nat) {
    a in s.jobs && s.jobs[a].phase.Answered? && s.jobs[a].request.PrivateMessage?
  }

  lemma RowsStay(steps: seq<Step>, run: seq<System>, i: nat, j: nat)
    requires Makes(steps, run) && i <= j < |run|
    ensures run[i].tables.offline.Keys <= run[j].tables.offline.Keys && run[i].pushed <= run[j].pushed
    ensures forall a :: a in run[i].jobs ==> a in run[j].jobs && run[j].jobs[a].request == run[i].jobs[a].request
    ensures forall a :: a in run[i].jobs && HasEnded(run[i].jobs[a].phase) ==> a in run[j].jobs && run[j].jobs[a] == run[i].jobs[a]
  {
    hide Init, Inv;
    MakesRun(steps, run);
    RunsGoForward(run, i, j);
  }

  lemma CountedAnswer(steps: seq<Step>, run: seq<System>, i: nat, j: nat, a: nat)
    requires Makes(steps, run) && i <= j < |run| && a in run[i].jobs && run[i].jobs[a].phase.Counting?
    requires IsAnswered(run[j], a)
    ensures run[j].jobs[a].phase == Answered(run[i].jobs[a].phase.m)
  {
    hide Inv, Init, Enabled, After;
    var n := LeavesAt(steps, run, i, j, a);
    CountGoes(run[n], steps[n], a);
    RowsStay(steps, run, n + 1, j);
  }

  lemma FellBackAnswer(steps: seq<Step>, run: seq<System>, i: nat, j: nat, a: nat)
    requires Makes(steps, run) && i <= j < |run| && a in run[i].jobs && run[i].jobs[a].phase.FallingBack?
    requires IsAnswered(run[j], a)
    ensures run[j].jobs[a].phase == Answered(run[i].jobs[a].phase.m)
    ensures ReceiverSlot(run[i].jobs[a].phase.m) in run[j].tables.offline
  {
    hide Inv, Init, Enabled, After;
    var n := LeavesAt(steps, run, i, j, a);
    FallBackGoes(run[n], steps[n], a);
    RowsStay(steps, run, n + 1, j);
    if run[n + 1].jobs[a].phase.Counting? {
      CountedAnswer(steps, run, n + 1, j, a);
    }
  }

  /** A handler about to push does push, and its answer means an accepted push or, after a
      refused one, an offline row. */
  lemma PushedAnswer(steps: seq<Step>, run: seq<System>, i: nat, j: nat, a: nat) returns (n: nat)
    requires Makes(steps, run) && i <= j < |run| && a in run[i].jobs && run[i].jobs[a].phase.Pushing?
    requires IsAnswered(run[j], a)
    ensures i <= n < j && Pushes(steps[n], a) && run[j].jobs[a].phase == Answered(run[i].jobs[a].phase.m)
    ensures var slot := ReceiverSlot(run[i].jobs[a].phase.m);
            if steps[n].accepted then slot in run[n + 1].pushed && slot in run[j].pushed else slot in run[j].tables.offline
  {
    hide Inv, Init, Enabled, After;
    n := LeavesAt(steps, run, i, j, a);
    PushGoes(run[n], steps[n], a);
    RowsStay(steps, run, n + 1, j);
    if !steps[n].accepted {
      FellBackAnswer(steps, run, n + 1, j, a);
    }
  }

  /** From a rank above the push on, a handler tries no push. */
  lemma NoPushAfter(steps: seq<Step>, run: seq<System>, i: nat, j: nat, a: nat)
    requires Makes(steps, run) && i <= j < |run| && a in run[i].jobs && run[i].jobs[a].request.PrivateMessage?
    requires Rank(run[i].jobs[a].phase) > 6
    ensures forall n :: i <= n < j ==> !Pushes(steps[n], a)
  {
    hide Inv, Init, After;
    forall n | i <= n < j ensures !Pushes(steps[n], a) {
      RankAlong(steps, run, i, n, a);
      assert Enabled(run[n], steps[n]);
    }
  }

  /** At the save, a handler still has what its look-up found. */
  lemma StoresWhatItFound(steps: seq<Step>, run: seq<System>, i: nat, k: nat, a: nat)
    requires Makes(steps, run) && i < k < |steps| && steps[i].Look? && steps[i].job == a
    requires steps[k].Store? && steps[k].job == a
    ensures a in run[k].jobs && run[k].jobs[a].request.PrivateMessage? && !steps[i].found.LookupFails?
    ensures run[k].jobs[a].phase == Storing(steps[i].found == Online)
    ensures Inv(run[k]) && Enabled(run[k], steps[k]) && run[k + 1] == After(run[k], steps[k])
    ensures a in run[k + 1].jobs && run[k + 1].jobs[a].request == run[k].jobs[a].request
  {
    hide Inv, Init, After;
    assert Enabled(run[i], steps[i]) && run[i + 1] == After(run[i], steps[i]);
    LookGoes(run[i], a, steps[i].found);
    RankAlong(steps, run, i + 1, k, a);
    assert Enabled(run[k], steps[k]);
    OneStep(steps, run, k, a);
  }

  // ---- The theorems ----------------------------------------------------------------------------

  /** The receiver was found online and the message was saved: no row is made with it, and an
      answer means that the handler has pushed, with the push accepted or a row after all. */
  lemma OnlineReceiversArePushedTo(steps: seq<Step>, run: seq<System>, i: nat, k: nat, j: nat, a: nat) returns (n: nat)
    requires Makes(steps, run) && i < k < j < |run| && steps[i] == Look(a, Online)
    requires steps[k].Store? && steps[k].job == a
    requires a in run[k + 1].jobs ==> Saved(run[k + 1].jobs[a].phase)
    requires IsAnswered(run[j], a)
    ensures var slot := Slot(run[j].jobs[a].request.receiver, steps[k].id);
            && (forall u :: Slot(u, steps[k].id) !in run[k + 1].tables.offline)
            && k < n < j && Pushes(steps[n], a)
            && run[j].jobs[a].phase.m.messageId == steps[k].id && AsRequested(run[j].jobs[a].request, run[j].jobs[a].phase.m)
            && (if steps[n].accepted then slot in run[n + 1].pushed && slot in run[j].pushed
                else slot in run[j].tables.offline)
  {
    hide Inv, Init, Enabled, After;
    StoresWhatItFound(steps, run, i, k, a);
    var e := steps[k];
    StoreGoes(run[k], a, e.id, e.now, e.fault);
    RankAlong(steps, run, k + 1, j, a);
    n := PushedAnswer(steps, run, k + 1, j, a);
  }

  /** The receiver was found offline and the message was saved: its row is there with the
      message, nobody else has one, and the handler tries no push. */
  lemma OfflineReceiversGetARow(steps: seq<Step>, run: seq<System>, i: nat, k: nat, j: nat, a: nat)
    requires Makes(steps, run) && i < k < j < |run| && steps[i] == Look(a, Offline)
    requires steps[k].Store? && steps[k].job == a
    requires a in run[k + 1].jobs ==> Saved(run[k + 1].jobs[a].phase)
    ensures a in run[j].jobs && run[j].jobs[a].request.PrivateMessage?
    ensures forall u :: Slot(u, steps[k].id) in run[k + 1].tables.offline <==> u == run[j].jobs[a].request.receiver
    ensures Slot(run[j].jobs[a].request.receiver, steps[k].id) in run[j].tables.offline
    ensures forall n :: i <= n < j ==> !Pushes(steps[n], a)
    ensures run[j].jobs[a].phase.Answered? ==> run[j].jobs[a].phase.m.messageId == steps[k].id
  {
    hide Inv, Init, Enabled, After;
    StoresWhatItFound(steps, run, i, k, a);
    var e := steps[k];
    StoreGoes(run[k], a, e.id, e.now, e.fault);
    RankAlong(steps, run, k + 1, j, a);
    RowsStay(steps, run, k + 1, j);
    NoPushAfter(steps, run, k + 1, j, a);
    NoPushBefore(steps, run, i, k, a);
    if run[j].jobs[a].phase.Answered? {
      CountedAnswer(steps, run, k + 1, j, a);
    }
  }

  lemma NoPushBefore(steps: seq<Step>, run: seq<System>, i: nat, k: nat, a: nat)
    requires Makes(steps, run) && i < k < |steps| && steps[i].Look? && steps[i].job == a
    requires steps[k].Store? && steps[k].job == a
    ensures forall n :: i <= n <= k ==> !Pushes(steps[n], a)
  {
    hide Inv, Init, After;
    forall n | i < n < k ensures !Pushes(steps[n], a) {
      assert Enabled(run[i], steps[i]) && run[i + 1] == After(run[i], steps[i]);
      LookGoes(run[i], a, steps[i].found);
      RankAlong(steps, run, i + 1, n, a);
      RankAlong(steps, run, n, k, a);
      assert Enabled(run[k], steps[k]) && Enabled(run[n], steps[n]);
    }
  }

  /** On a retry, a receiver found online is pushed to before the answer ... */
  lemma OnlineRetriesPush(steps: seq<Step>, run: seq<System>, i: nat, j: nat, a: nat) returns (n: nat)
    requires Makes(steps, run) && i < j < |run| && steps[i] == LookAgain(a, Online) && IsAnswered(run[j], a)
    ensures i < n < j && Pushes(steps[n], a)
    ensures var slot := ReceiverSlot(run[j].jobs[a].phase.m);
            if steps[n].accepted then slot in run[n + 1].pushed && slot in run[j].pushed else slot in run[j].tables.offline
  {
    hide Inv, Init, After;
    assert Enabled(run[i], steps[i]) && run[i + 1] == After(run[i], steps[i]);
    LookAgainGoes(run[i], a, Online);
    n := PushedAnswer(steps, run, i + 1, j, a);
  }

  /** ... and one found offline has its row with the answer, without a push. */
  lemma OfflineRetriesFallBack(steps: seq<Step>, run: seq<System>, i: nat, j: nat, a: nat)
    requires Makes(steps, run) && i < j < |run| && steps[i] == LookAgain(a, Offline) && IsAnswered(run[j], a)
    ensures ReceiverSlot(run[j].jobs[a].phase.m) in run[j].tables.offline
    ensures forall n :: i <= n < j ==> !Pushes(steps[n], a)
  {
    hide Inv, Init, After;
    assert Enabled(run[i], steps[i]) && run[i + 1] == After(run[i], steps[i]);
    LookAgainGoes(run[i], a, Offline);
    FellBackAnswer(steps, run, i + 1, j, a);
    RowsStay(steps, run, i + 1, j);
    NoPushAfter(steps, run, i + 1, j, a);
  }

  // ---- Every answer has gone this way -----------------------------------------------------------

  lemma EarlyGoes(s: System, e: Step, a: nat)
    requires Enabled(s, e) && OwnStep(e, a) && a in s.jobs && Early(s.jobs[a].phase)
    ensures match s.jobs[a].phase
            case Asking => e.AskFriends? && a in After(s, e).jobs
                           && (After(s, e).jobs[a].phase == Looking || After(s, e).jobs[a].phase.Failed?)
            case Looking => e.Look?
            case Storing(_) => e.Store?
            case _ => true
  {
    hide PrivateRecord, Saving, HasClientId, Unused, Matches, Distinct;
  }

  lemma BegunAt(steps: seq<Step>, run: seq<System>, j: nat, a: nat) returns (b: nat)
    requires Makes(steps, run) && j < |run| && a in run[j].jobs
    ensures b < j && steps[b].Begin? && steps[b].job == a && a in run[b + 1].jobs
    ensures run[b + 1].jobs[a] == Job(steps[b].request, [], FirstPhase(steps[b].request))
    ensures run[j].jobs[a].request == steps[b].request
  {
    hide Inv, Enabled, After, Grows, FirstPhase;
    b := j;
    while b > 0 && a in run[b].jobs
      invariant 0 <= b <= j && (b < j ==> a in run[b + 1].jobs)
    {
      b := b - 1;
    }
    MakesRun(steps, run);
    RunsKeep(run, b);
    MovesByItself(run[b], steps[b], a);
    BeginGoes(run[b], steps[b], a);
    RowsStay(steps, run, b + 1, j);
  }

  lemma BeginGoes(s: System, e: Step, a: nat)
    requires Enabled(s, e) && OwnStep(e, a) && a !in s.jobs
    ensures e.Begin? && a in After(s, e).jobs && After(s, e).jobs[a] == Job(e.request, [], FirstPhase(e.request))
  {
    hide FirstPhase;
  }

  /** Whoever is answered has been through a look-up that found something, and a save. */
  lemma AnswersWereLookedUp(steps: seq<Step>, run: seq<System>, j: nat, a: nat) returns (i: nat, k: nat)
    requires Makes(steps, run) && j < |run| && IsAnswered(run[j], a)
    ensures i < k < j && steps[i].Look? && steps[i].job == a && !steps[i].found.LookupFails?
    ensures steps[k].Store? && steps[k].job == a
  {
    hide Inv, Init, Enabled, After, GoodRequest;
    var b := BegunAt(steps, run, j, a);
    RowsStay(steps, run, b + 1, j);
    var n := LeavesAt(steps, run, b + 1, j, a);
    EarlyGoes(run[n], steps[n], a);
    RowsStay(steps, run, n + 1, j);
    i := LeavesAt(steps, run, n + 1, j, a);
    EarlyGoes(run[i], steps[i], a);
    LookGoes(run[i], a, steps[i].found);
    RowsStay(steps, run, i + 1, j);
    k := LeavesAt(steps, run, i + 1, j, a);
    EarlyGoes(run[k], steps[k], a);
  }

  // ---- Where rows come from -------------------------------------------------------------------

  lemma TablesRest(s: System, e: Step)
    requires Enabled(s, e) && !e.Store? && !e.GroupStore? && !e.FallBack? && !e.AckDelivery? && !e.AckOffline?
    ensures After(s, e).tables == s.tables
  {
    hide PrivateRecord, HasClientId, IsDelivered, Friends.Intended;
  }

  lemma StoresAdd(s: System, e: Step, id: MessageId)
    requires Enabled(s, e) && (e.Store? || e.GroupStore?) && id in After(s, e).tables.messages && id !in s.tables.messages
    ensures e.id == id
  {
    hide Saving, PrivateRecord, GroupRecord;
    var r := s.jobs[e.job].request;
    if e.GroupStore? {
      SavingAdds(s.tables, GroupRecord(r), s.jobs[e.job].phase.offline, e.id, e.now);
    } else if PrivateRecord(r).Success? {
      var users := if s.jobs[e.job].phase.receiverOnline then [] else [r.receiver];
      SavingAdds(s.tables, PrivateRecord(r).value, users, e.id, e.now);
    }
  }

  lemma OthersAdd(s: System, e: Step)
    requires Referenced(s.tables) && Enabled(s, e) && (e.FallBack? || e.AckDelivery? || e.AckOffline?)
    ensures After(s, e).tables.messages == s.tables.messages
  {
    hide SavingOffline, Acking, AckingPrivate;
    if e.FallBack? {
      var m := s.jobs[e.job].phase.m;
      OthersAddNone(s.tables, m.receiverId, m.messageId, e.now);
    } else if e.AckDelivery? {
      OthersAddNone(s.tables, e.user, e.message, e.now);
    } else if Acking(s.tables, e.user, e.ids, e.now).Success? {
      AckTouchesNoKeys(s.tables, e.user, e.ids, e.now);
    }
  }

  lemma OnlyStoresAdd(s: System, e: Step, id: MessageId)
    requires Referenced(s.tables) && Enabled(s, e) && id in After(s, e).tables.messages && id !in s.tables.messages
    ensures (e.Store? || e.GroupStore?) && e.id == id
  {
    hide Enabled, After, Referenced;
    if e.Store? || e.GroupStore? {
      StoresAdd(s, e, id);
    } else if e.FallBack? || e.AckDelivery? || e.AckOffline? {
      OthersAdd(s, e);
    } else {
      TablesRest(s, e);
    }
  }

  lemma SavingAdds(t: Tables, m: MessageRecord, users: seq<UserId>, id: MessageId, now: Int64)
    ensures Saving(t, m, users, id, now).Success? ==>
              forall x :: x in Saving(t, m, users, id, now).value.tables.messages ==> x in t.messages || x == id
  {
  }

  lemma OthersAddNone(t: Tables, user: UserId, message: MessageId, now: Int64)
    ensures SavingOffline(t, user, message, now).Success? ==>
              SavingOffline(t, user, message, now).value.tables.messages == t.messages
    ensures AckingPrivate(t, user, message, now).Success? ==>
              AckingPrivate(t, user, message, now).value.tables.messages == t.messages
  {
  }

  lemma StoredRows(s: System, e: Step, slot: Slot)
    requires Enabled(s, e) && (e.Store? || e.GroupStore?) && slot in After(s, e).tables.offline && slot !in s.tables.offline
    ensures slot.message == e.id
  {
    hide Saving, PrivateRecord, GroupRecord, HasClientId;
    var r := s.jobs[e.job].request;
    if e.GroupStore? {
      SavingRows(s.tables, GroupRecord(r), s.jobs[e.job].phase.offline, e.id, e.now);
    } else if PrivateRecord(r).Success? {
      SavingRows(s.tables, PrivateRecord(r).value, if s.jobs[e.job].phase.receiverOnline then [] else [r.receiver], e.id, e.now);
    }
  }

  lemma SavingRows(t: Tables, m: MessageRecord, users: seq<UserId>, id: MessageId, now: Int64)
    ensures Saving(t, m, users, id, now).Success? ==>
              forall x :: x in Saving(t, m, users, id, now).value.tables.offline ==> x in t.offline || x.message == id
  {
  }

  lemma OtherRows(s: System, e: Step, slot: Slot)
    requires Referenced(s.tables) && Enabled(s, e) && (e.FallBack? || e.AckDelivery? || e.AckOffline?)
    requires slot in After(s, e).tables.offline && slot !in s.tables.offline
    ensures e.FallBack? && slot == ReceiverSlot(s.jobs[e.job].phase.m)
  {
    hide Acking, AckingPrivate, SavingOffline, Referenced;
    if e.AckOffline? && Acking(s.tables, e.user, e.ids, e.now).Success? {
      AckTouchesNoKeys(s.tables, e.user, e.ids, e.now);
    } else if e.AckDelivery? {
      RowsOfOne(s.tables, e.user, e.message, e.now);
    } else if e.FallBack? {
      RowsOfOne(s.tables, s.jobs[e.job].phase.m.receiverId, s.jobs[e.job].phase.m.messageId, e.now);
    }
  }

  lemma RowsOfOne(t: Tables, user: UserId, message: MessageId, now: Int64)
    ensures SavingOffline(t, user, message, now).Success? ==>
              SavingOffline(t, user, message, now).value.tables.offline.Keys == t.offline.Keys + {Slot(user, message)}
    ensures AckingPrivate(t, user, message, now).Success? ==>
              AckingPrivate(t, user, message, now).value.tables.offline == t.offline
  {
  }

  /** A new offline row belongs to the message just saved, or to the one that falls back. */
  lemma RowsComeFrom(s: System, e: Step, slot: Slot)
    requires Inv(s) && Enabled(s, e) && slot in After(s, e).tables.offline && slot !in s.tables.offline
    ensures e.Store? || e.GroupStore? || e.FallBack?
    ensures e.Store? || e.GroupStore? ==> slot.message == e.id
    ensures e.FallBack? ==> e.job in s.jobs && s.jobs[e.job].phase.FallingBack? && slot == ReceiverSlot(s.jobs[e.job].phase.m)
  {
    InvReferenced(s);
    hide Inv, After, Referenced, Unused, HasClientId;
    if e.Store? || e.GroupStore? {
      StoredRows(s, e, slot);
    } else if e.FallBack? || e.AckDelivery? || e.AckOffline? {
      OtherRows(s, e, slot);
    } else {
      TablesRest(s, e);
    }
  }

  lemma InvReferenced(s: System)
    requires Inv(s)
    ensures Referenced(s.tables)
  {
  }

  /** A receiver of message `id` is turned away: a push of it is refused, or a retry finds them offline. */
  predicate TurnsAway(s: System, e: Step, id: MessageId) {
    || (e.Push? && !e.accepted && e.job in s.jobs && s.jobs[e.job].phase.Pushing?
        && s.jobs[e.job].phase.m.messageId == id)
    || (e.LookAgain? && e.found == Offline && e.job in s.jobs && s.jobs[e.job].phase.LookingAgain?
        && s.jobs[e.job].phase.m.messageId == id)
  }

  ghost predicate NoRows(s: System, id: MessageId) {
    && id in s.tables.messages && (forall u :: Slot(u, id) !in s.tables.offline)
    && (forall b :: b in s.jobs && s.jobs[b].phase.FallingBack? ==> s.jobs[b].phase.m.messageId != id)
  }

  lemma OnlyTheTurnedAwayFallBack(s: System, e: Step, b: nat)
    requires Inv(s) && Enabled(s, e) && b in After(s, e).jobs && After(s, e).jobs[b].phase.FallingBack?
    requires b in s.jobs ==> After(s, e).jobs[b] != s.jobs[b]
    ensures TurnsAway(s, e, After(s, e).jobs[b].phase.m.messageId)
  {
    hide Inv, After;
    MovesByItself(s, e, b);
    FallingBackIsNew(s, e);
  }

  lemma FallingBackIsNew(s: System, e: Step)
    requires Enabled(s, e) && !e.AckDelivery? && !e.AckOffline? && !e.ClearUnread? && !e.Befriend?
    ensures e.job in After(s, e).jobs
    ensures After(s, e).jobs[e.job].phase.FallingBack? ==> TurnsAway(s, e, After(s, e).jobs[e.job].phase.m.messageId)
  {
    hide After, Enabled, TurnsAway;
    if e.Gather? || e.Partition? || e.GroupStore? || e.GroupCount? || e.GroupPush? {
      GroupsDoNotFallBack(s, e);
    } else {
      FallingBackIsTurnedAway(s, e);
    }
  }

  lemma GroupsDoNotFallBack(s: System, e: Step)
    requires Enabled(s, e) && (e.Gather? || e.Partition? || e.GroupStore? || e.GroupCount? || e.GroupPush?)
    ensures e.job in After(s, e).jobs && !After(s, e).jobs[e.job].phase.FallingBack?
  {
    hide GroupRecord, Saving, Unused, Distinct;
  }

  lemma FallingBackIsTurnedAway(s: System, e: Step)
    requires Enabled(s, e) && !e.AckDelivery? && !e.AckOffline? && !e.ClearUnread? && !e.Befriend?
    requires !e.Gather? && !e.Partition? && !e.GroupStore? && !e.GroupCount? && !e.GroupPush?
    ensures e.job in After(s, e).jobs
    ensures After(s, e).jobs[e.job].phase.FallingBack? ==> TurnsAway(s, e, After(s, e).jobs[e.job].phase.m.messageId)
  {
    hide PrivateRecord, Saving, SavingOffline, HasClientId, Unused, Matches, IsDelivered, GoodRequest;
  }

  lemma StepNoRows(s: System, e: Step, id: MessageId)
    requires Inv(s) && Enabled(s, e) && NoRows(s, id) && !TurnsAway(s, e, id)
    ensures NoRows(After(s, e), id)
  {
    hide Inv, After, TurnsAway, Enabled, Friends.Grows, OfflineAdvances, DeliveriesAdvance;
    var t := After(s, e);
    assert Next(s, t);
    StepKeeps(s, t);
    forall u ensures Slot(u, id) !in t.tables.offline {
      if Slot(u, id) in t.tables.offline {
        RowsComeFrom(s, e, Slot(u, id));
        if e.Store? || e.GroupStore? {
          StoresAreNew(s, e);
        }
      }
    }
    forall b | b in t.jobs && t.jobs[b].phase.FallingBack? ensures t.jobs[b].phase.m.messageId != id {
      if b !in s.jobs || t.jobs[b] != s.jobs[b] {
        OnlyTheTurnedAwayFallBack(s, e, b);
      }
    }
  }

  lemma StoresAreNew(s: System, e: Step)
    requires Enabled(s, e) && (e.Store? || e.GroupStore?)
    ensures e.id !in s.tables.messages
  {
  }

  lemma NobodyFallsBackYet(s: System, id: MessageId)
    requires Inv(s) && id !in s.tables.messages
    ensures forall b :: b in s.jobs && s.jobs[b].phase.FallingBack? ==> s.jobs[b].phase.m.messageId != id
  {
    hide TablesOk, Ledger, GoodRequest;
    forall b | b in s.jobs && s.jobs[b].phase.FallingBack? ensures s.jobs[b].phase.m.messageId != id {
      assert JobOk(s, s.jobs[b]);
    }
  }

  /** A private message saved for an online receiver has no offline row, as long as no push of
      it is refused and no retry finds the receiver offline. */
  lemma {:induction false} NoRowUntilTurnedAway(steps: seq<Step>, run: seq<System>, i: nat, k: nat, j: nat, a: nat)
    requires Makes(steps, run) && i < k < j < |run| && steps[i] == Look(a, Online)
    requires steps[k].Store? && steps[k].job == a
    requires a in run[k + 1].jobs ==> Saved(run[k + 1].jobs[a].phase)
    requires forall n :: k < n < j ==> !TurnsAway(run[n], steps[n], steps[k].id)
    ensures NoRows(run[j], steps[k].id)
    decreases j
  {
    hide Inv, Init, Enabled, After, TurnsAway;
    var e := steps[k];
    if j == k + 1 {
      StoresWhatItFound(steps, run, i, k, a);
      StoreGoes(run[k], a, e.id, e.now, e.fault);
      MakesRun(steps, run);
      NobodyFallsBackYet(run[k], e.id);
      StillNobody(run[k], e, a);
    } else {
      NoRowUntilTurnedAway(steps, run, i, k, j - 1, a);
      MakesRun(steps, run);
      RunsKeep(run, j - 1);
      StepNoRows(run[j - 1], steps[j - 1], e.id);
    }
  }

  lemma StillNobody(s: System, e: Step, a: nat)
    requires Inv(s) && Enabled(s, e) && e.Store? && e.job == a
    requires forall b :: b in s.jobs && s.jobs[b].phase.FallingBack? ==> s.jobs[b].phase.m.messageId != e.id
    ensures forall b :: b in After(s, e).jobs && After(s, e).jobs[b].phase.FallingBack? ==>
              After(s, e).jobs[b].phase.m.messageId != e.id
  {
    hide Inv, Enabled, After;
    forall b | b in After(s, e).jobs && After(s, e).jobs[b].phase.FallingBack?
      ensures After(s, e).jobs[b].phase.m.messageId != e.id
    {
      if b !in s.jobs || After(s, e).jobs[b] != s.jobs[b] {
        OnlyTheTurnedAwayFallBack(s, e, b);
      }
    }
  }

  // ---- A handler can always go on ----------------------------------------------------------------

  lemma RequestFitsPhase(s: System, a: nat)
    requires Inv(s) && a in s.jobs
    ensures var j := s.jobs[a];
            && (Early(j.phase) || j.phase.Finding? ==> j.request.PrivateMessage?)
            && (j.phase.Gathering? || j.phase.Partitioning? ==> j.request.GroupMessage?)
            && (j.phase.Partitioning? ==> j.phase.at <= |j.members|)
  {
    hide TablesOk, Ledger, GoodRequest;
    assert JobOk(s, s.jobs[a]);
  }

  lemma FindCanGoOn(s: System, a: nat) returns (e: Step)
    requires a in s.jobs && s.jobs[a].phase.Finding? && s.jobs[a].request.PrivateMessage?
    ensures Enabled(s, e) && OwnStep(e, a)
  {
    var r := s.jobs[a].request;
    if HasClientId(s.tables, r.sender, ClientId(r)) {
      var row :| row in s.tables.messages && Matches(s.tables.messages[row], r.sender, ClientId(r));
      e := Find(a, row, NoFault);
    } else {
      e := Find(a, 0, NoFault);
    }
  }

  /** A handler that has not ended has a next step, whatever the others are doing. */
  lemma HandlersCanGoOn(s: System, a: nat, id: MessageId) returns (e: Step)
    requires Inv(s) && a in s.jobs && !HasEnded(s.jobs[a].phase) && Unused(s.tables, id)
    ensures Enabled(s, e) && OwnStep(e, a)
  {
    RequestFitsPhase(s, a);
    var j := s.jobs[a];
    if j.phase.Finding? {
      e := FindCanGoOn(s, a);
      return;
    }
    hide Inv, Unused, HasClientId, Distinct, Enabled;
    if Early(j.phase) {
      e := if j.phase.Asking? then AskFriends(a, true, NoFault) else if j.phase.Looking? then Look(a, Online)
           else Store(a, id, 0, NoFault);
      EarlyEnabled(s, a, id);
    } else if j.phase.Gathering? || j.phase.Partitioning? {
      e := if j.phase.Gathering? then Gather(a, true, [], NoFault)
           else if j.phase.at < |j.members| then Partition(a, Online) else GroupStore(a, id, 0, NoFault);
      GroupEnabled(s, a, id);
    } else {
      e := match j.phase
        case CheckingDelivered(_) => CheckDelivered(a, NoFault)
        case LookingAgain(_) => LookAgain(a, Online)
        case Pushing(_) => Push(a, true)
        case FallingBack(_) => FallBack(a, 0, NoFault)
        case Counting(_) => Count(a, true)
        case GroupCounting(_, _, _) => GroupCount(a, true)
        case _ => GroupPush(a, None);
      LateEnabled(s, a);
    }
  }

  lemma EarlyEnabled(s: System, a: nat, id: MessageId)
    requires a in s.jobs && s.jobs[a].request.PrivateMessage? && Unused(s.tables, id)
    ensures s.jobs[a].phase.Asking? ==> Enabled(s, AskFriends(a, true, NoFault))
    ensures s.jobs[a].phase.Looking? ==> Enabled(s, Look(a, Online))
    ensures s.jobs[a].phase.Storing? ==> Enabled(s, Store(a, id, 0, NoFault))
  {
  }

  lemma GroupEnabled(s: System, a: nat, id: MessageId)
    requires a in s.jobs && s.jobs[a].request.GroupMessage? && Unused(s.tables, id)
    ensures s.jobs[a].phase.Gathering? ==> Enabled(s, Gather(a, true, [], NoFault))
    ensures s.jobs[a].phase.Partitioning? && s.jobs[a].phase.at < |s.jobs[a].members| ==> Enabled(s, Partition(a, Online))
    ensures s.jobs[a].phase.Partitioning? && s.jobs[a].phase.at == |s.jobs[a].members| ==>
              Enabled(s, GroupStore(a, id, 0, NoFault))
  {
  }

  lemma LateEnabled(s: System, a: nat)
    requires a in s.jobs
    ensures s.jobs[a].phase.CheckingDelivered? ==> Enabled(s, CheckDelivered(a, NoFault))
    ensures s.jobs[a].phase.LookingAgain? ==> Enabled(s, LookAgain(a, Online))
    ensures s.jobs[a].phase.Pushing? ==> Enabled(s, Push(a, true))
    ensures s.jobs[a].phase.FallingBack? ==> Enabled(s, FallBack(a, 0, NoFault))
    ensures s.jobs[a].phase.Counting? ==> Enabled(s, Count(a, true))
    ensures s.jobs[a].phase.GroupCounting? ==> Enabled(s, GroupCount(a, true))
    ensures s.jobs[a].phase.GroupPushing? ==> Enabled(s, GroupPush(a, None))
  {
  }

  /** Who accepts a pending request can be written to by the other, and the other way round. */
  lemma AcceptedFriendsCanWrite(s: System, p: Friends.Pair, a: nat, text: Bytes) returns (t: System, u: System)
    requires Friends.Inv(s.friends) && p in s.friends.requests && s.friends.requests[p].Pending?
    requires a !in s.jobs && GoodText(text) && p.first <= 0xFFFF_FFFF && p.second <= 0xFFFF_FFFF
    ensures Enabled(s, Befriend(Friends.Accept(p), NoFault)) && t == After(s, Befriend(Friends.Accept(p), NoFault))
    ensures AreFriends(t.friends, p.first, p.second) && AreFriends(t.friends, p.second, p.first)
    ensures a in u.jobs && u.jobs[a].phase == Looking
    ensures exists v :: && Enabled(t, Begin(a, PrivateMessage(p.first, p.second, text, None)))
                        && v == After(t, Begin(a, PrivateMessage(p.first, p.second, text, None)))
                        && Enabled(v, AskFriends(a, true, NoFault)) && u == After(v, AskFriends(a, true, NoFault))
  {
    assert Friends.ValidPair(p);
    t := After(s, Befriend(Friends.Accept(p), NoFault));
    var request := PrivateMessage(p.first, p.second, text, None);
    Conversation.NoOverflow(p.first, p.second);
    var v := After(t, Begin(a, request));
    u := After(v, AskFriends(a, true, NoFault));
  }
}
