/** The unread counters in Redis against the offline rows, over every run. */
module UnreadRuns {
  import opened Base
  import opened Records
  import opened Storage
  import opened Transactions
  import opened Delivery
  import DeliveryRuns
  import Friends
  import Runs

  /** The offline rows of one user in one conversation. */
  function RowsIn(s: System, c: Counter): (rows: set<Slot>) {
    set x | x in s.tables.offline && BelongsTo(s, x, c)
  }

  predicate BelongsTo(s: System, x: Slot, c: Counter) {
    x.user == c.user && x.message in s.tables.messages && s.tables.messages[x.message].conversation == c.conversation
  }

  function CountedIn(s: System, c: Counter): (rows: set<Slot>) {
    set x | x in s.counted && BelongsTo(s, x, c)
  }

  ghost predicate UnreadOk(s: System) {
    forall c :: c in s.unread ==> s.unread[c] <= |CountedIn(s, c)|
  }

  lemma SubsetSize(a: set<Slot>, b: set<Slot>)
    requires a <= b
    ensures |a| <= |b|
  {
    if a != {} {
      var x :| x in a;
      SubsetSize(a - {x}, b - {x});
    }
  }

  /** A step that counts nothing and sets no counter. */
  lemma RestKeeps(s: System, t: System)
    requires UnreadOk(s) && t.counted == s.counted && MessagesStay(s.tables, t.tables)
    requires forall c :: c in t.unread ==> c in s.unread && t.unread[c] == s.unread[c]
    ensures UnreadOk(t)
  {
    forall c | c in t.unread ensures t.unread[c] <= |CountedIn(t, c)| {
      SubsetSize(CountedIn(s, c), CountedIn(t, c));
    }
  }

  /** One increment for a row of the conversation that was not counted before. */
  lemma CountKeeps(s: System, t: System, slot: Slot, conversation: ConversationKey)
    requires UnreadOk(s) && t.tables == s.tables && slot !in s.counted
    requires BelongsTo(s, slot, Counter(slot.user, conversation))
    requires t.counted == Counted(s, slot, conversation, true).counted
    requires t.unread == Counted(s, slot, conversation, true).unread
    ensures UnreadOk(t)
  {
    hide CountedIn, BelongsTo;
    var own := Counter(slot.user, conversation);
    OneMoreCounted(s, t, slot, own);
    forall c | c in t.unread ensures t.unread[c] <= |CountedIn(t, c)| {
      if c != own {
        CountedStay(s, t, c);
      }
    }
  }

  lemma OneMoreCounted(s: System, t: System, slot: Slot, c: Counter)
    requires t.tables == s.tables && slot !in s.counted && BelongsTo(s, slot, c)
    requires t.counted == s.counted + multiset{slot}
    ensures |CountedIn(t, c)| == |CountedIn(s, c)| + 1
  {
    assert CountedIn(t, c) == CountedIn(s, c) + {slot};
  }

  lemma CountedStay(s: System, t: System, c: Counter)
    requires t.tables == s.tables && s.counted <= t.counted
    ensures |CountedIn(s, c)| <= |CountedIn(t, c)|
  {
    SubsetSize(CountedIn(s, c), CountedIn(t, c));
  }

  lemma OthersCountNothing(s: System, e: Step)
    requires Enabled(s, e) && !e.Count? && !e.GroupCount?
    ensures After(s, e).counted == s.counted
    ensures forall c :: c in After(s, e).unread ==> c in s.unread && After(s, e).unread[c] == s.unread[c]
  {
    hide Saving, SavingOffline, PrivateRecord, Friends.Intended, Acking, AckingPrivate, HasClientId, IsDelivered;
  }

  lemma CountStepKeeps(s: System, job: nat, made: bool)
    requires DeliveryRuns.Inv(s) && UnreadOk(s) && Enabled(s, Count(job, made))
    ensures UnreadOk(After(s, Count(job, made)))
  {
    hide UnreadOk, DeliveryRuns.TablesOk;
    var t, m := After(s, Count(job, made)), s.jobs[job].phase.m;
    assert DeliveryRuns.JobOk(s, s.jobs[job]);
    assert ReceiverSlot(m) in DeliveryRuns.Owes(s.jobs[job]);
    if made {
      CountKeeps(s, t, ReceiverSlot(m), m.conversation);
    } else {
      RestKeeps(s, t);
    }
  }

  lemma GroupCountStepKeeps(s: System, job: nat, made: bool)
    requires DeliveryRuns.Inv(s) && UnreadOk(s) && Enabled(s, GroupCount(job, made))
    ensures UnreadOk(After(s, GroupCount(job, made)))
  {
    hide UnreadOk, DeliveryRuns.TablesOk;
    var t := After(s, GroupCount(job, made));
    var GroupCounting(m, left, online) := s.jobs[job].phase;
    assert DeliveryRuns.JobOk(s, s.jobs[job]);
    if left != [] && made {
      assert Slot(left[0], m.messageId) in DeliveryRuns.Owes(s.jobs[job]);
      CountKeeps(s, t, Slot(left[0], m.messageId), m.conversation);
    } else {
      RestKeeps(s, t);
    }
  }

  lemma StepKeeps(s: System, t: System)
    requires DeliveryRuns.Inv(s) && UnreadOk(s) && Next(s, t)
    ensures DeliveryRuns.Inv(t) && UnreadOk(t)
  {
    hide DeliveryRuns.Inv, UnreadOk, Enabled, After;
    DeliveryRuns.StepKeeps(s, t);
    var e :| Enabled(s, e) && t == After(s, e);
    if e.Count? {
      CountStepKeeps(s, e.job, e.made);
    } else if e.GroupCount? {
      GroupCountStepKeeps(s, e.job, e.made);
    } else {
      OthersCountNothing(s, e);
      RestKeeps(s, t);
    }
  }

  ghost predicate BothInv(s: System) {
    DeliveryRuns.Inv(s) && UnreadOk(s)
  }

  /** Over every run, with any failures and clearings, an unread counter never exceeds the
      offline rows of its user in its conversation. */
  lemma UnreadNeverExceedsRows(run: seq<System>, i: nat, c: Counter)
    requires Runs.IsRun(Init, Next, run) && i < |run|
    ensures UnreadOf(run[i], c) <= |RowsIn(run[i], c)|
  {
    forall s | Init(s) ensures BothInv(s) {
      DeliveryRuns.InitKeeps(s);
    }
    hide Init, Next, UnreadOk, DeliveryRuns.TablesOk, DeliveryRuns.JobsOk;
    forall s, t | BothInv(s) && Next(s, t) ensures BothInv(t) {
      StepKeeps(s, t);
    }
    Runs.Invariance(Init, Next, BothInv, run);
    CountersBounded(run[i], c);
  }

  lemma CountersBounded(s: System, c: Counter)
    requires BothInv(s)
    ensures UnreadOf(s, c) <= |RowsIn(s, c)|
  {
    hide DeliveryRuns.TablesOk, DeliveryRuns.JobsOk;
    assert CountedIn(s, c) <= RowsIn(s, c);
    SubsetSize(CountedIn(s, c), RowsIn(s, c));
  }
}
