/**
 The timer heap: a priority queue with lazy deletion beside a map of live timers.
 `Timers` is what it stands for, a plain map; the class is proved to refine it.
 A callback may add, cancel and clear timers; what it does is an input.
 */
module TimerHeap {
  import opened Base

  type TimerId = nat
  type CallbackId = nat

  datatype HeapEntry = HeapEntry(expiration: Int64, id: TimerId)

  /** The order of the queue: by expiration, then by identifier. */
  predicate Before(a: HeapEntry, b: HeapEntry) {
    a.expiration < b.expiration || (a.expiration == b.expiration && a.id < b.id)
  }

  datatype Timer = Timer(expiration: Int64, callback: Option<CallbackId>)

  datatype Timers = Timers(active: map<TimerId, Timer>, nextId: TimerId)

  datatype Action = AddTimer(expiration: Int64, callback: Option<CallbackId>) | CancelTimer(id: TimerId) | ClearAll

  // ---- The plain map ------------------------------------------------------------------------

  function Entry(a: Timers, id: TimerId): (e: HeapEntry)
    requires id in a.active
  {
    HeapEntry(a.active[id].expiration, id)
  }

  function Apply(a: Timers, action: Action): (b: Timers) {
    match action
    case AddTimer(expiration, callback) =>
      Timers(a.active[a.nextId := Timer(expiration, callback)], a.nextId + 1)
    case CancelTimer(id) => a.(active := a.active - {id})
    case ClearAll => a.(active := map[])
  }

  function ApplyAll(a: Timers, actions: seq<Action>): (b: Timers)
    decreases |actions|
  {
    if |actions| == 0 then a else ApplyAll(Apply(a, actions[0]), actions[1..])
  }

  ghost predicate Wellformed(a: Timers) {
    forall id :: id in a.active ==> id < a.nextId
  }

  ghost predicate Earliest(a: Timers, id: TimerId) {
    id in a.active && forall other :: other in a.active && other != id ==> Before(Entry(a, id), Entry(a, other))
  }

  ghost predicate Due(a: Timers, id: TimerId, now: Int64) {
    id in a.active && a.active[id].expiration <= now
  }

  ghost predicate NothingDue(a: Timers, now: Int64) {
    forall id :: !Due(a, id, now)
  }

  /** The timer is removed first; then its callback, if it has one, does its actions. */
  function Fire(a: Timers, id: TimerId, actions: seq<Action>): (b: Timers)
    requires id in a.active
  {
    var rest := a.(active := a.active - {id});
    if a.active[id].callback.None? then rest else ApplyAll(rest, actions)
  }

  function Behaviour(behaviours: seq<seq<Action>>, k: nat): (actions: seq<Action>) {
    if k < |behaviours| then behaviours[k] else []
  }

  /** A sequence of firings in which each timer is the earliest one at its turn and is due. */
  ghost predicate Legal(a: Timers, now: Int64, behaviours: seq<seq<Action>>, fired: seq<TimerId>)
    decreases |fired|, 0
  {
    if |fired| == 0 then true
    else
      var before := fired[..|fired| - 1];
      && Legal(a, now, behaviours, before)
      && Earliest(Reached(a, now, behaviours, before), fired[|fired| - 1])
      && Due(Reached(a, now, behaviours, before), fired[|fired| - 1], now)
  }

  /** The timers after those firings. */
  ghost function Reached(a: Timers, now: Int64, behaviours: seq<seq<Action>>, fired: seq<TimerId>): (b: Timers)
    requires Legal(a, now, behaviours, fired)
    decreases |fired|, 1
  {
    if |fired| == 0 then a
    else
      var n := |fired| - 1;
      Fire(Reached(a, now, behaviours, fired[..n]), fired[n], Behaviour(behaviours, n))
  }

  // ---- The heap --------------------------------------------------------------------------------

  ghost predicate Sorted(h: seq<HeapEntry>) {
    forall i, j :: 0 <= i < j < |h| ==> Before(h[i], h[j])
  }

  /** `push` of the priority queue, whose order is total on distinct entries. */
  function Push(h: seq<HeapEntry>, e: HeapEntry): (r: seq<HeapEntry>)
    ensures |r| == |h| + 1
    ensures forall x :: x in r <==> x == e || x in h
  {
    if |h| == 0 then [e]
    else if Before(e, h[0]) then [e] + h
    else [h[0]] + Push(h[1..], e)
  }

  lemma {:induction false} PushSorted(h: seq<HeapEntry>, e: HeapEntry)
    requires Sorted(h) && e !in h
    ensures Sorted(Push(h, e))
  {
    if |h| > 0 && !Before(e, h[0]) {
      PushSorted(h[1..], e);
      var r := Push(h[1..], e);
      forall j | 0 <= j < |r| ensures Before(h[0], r[j]) {
        assert r[j] in r;
      }
    }
  }

  class TimerHeap {
    var nextTimerId: TimerId
    var heap: seq<HeapEntry>
    var timers: map<TimerId, Timer>

    function Model(): Timers
      reads this
    {
      Timers(timers, nextTimerId)
    }

    /** Every live timer has its entry in the sorted queue; other entries are stale. */
    ghost predicate Valid()
      reads this
    {
      && Sorted(heap)
      && Wellformed(Model())
      && (forall e :: e in heap ==> e.id < nextTimerId)
      && (forall id :: id in timers ==> Entry(Model(), id) in heap)
    }

    constructor ()
      ensures Valid() && Model() == Timers(map[], 1)
    {
      nextTimerId, heap, timers := 1, [], map[];
    }

    method Add(expiration: Int64, callback: Option<CallbackId>) returns (id: TimerId)
      requires Valid()
      modifies this
      ensures Valid() && id == old(nextTimerId) && nextTimerId == id + 1 && id !in old(timers)
      ensures timers == old(timers)[id := Timer(expiration, callback)]
      ensures Model() == Apply(old(Model()), AddTimer(expiration, callback))
    {
      id := nextTimerId;
      nextTimerId := nextTimerId + 1;
      timers := timers[id := Timer(expiration, callback)];
      PushSorted(heap, HeapEntry(expiration, id));
      heap := Push(heap, HeapEntry(expiration, id));
    }

    method Cancel(id: TimerId)
      requires Valid()
      modifies this
      ensures Valid() && id !in timers && nextTimerId == old(nextTimerId)
      ensures forall other :: other != id ==> (other in timers <==> other in old(timers))
      ensures forall other :: other in timers ==> timers[other] == old(timers)[other]
      ensures Model() == Apply(old(Model()), CancelTimer(id))
    {
      timers := timers - {id};
    }

    method Clear()
      requires Valid()
      modifies this
      ensures Valid() && timers == map[] && heap == [] && nextTimerId == old(nextTimerId)
      ensures Model() == Apply(old(Model()), ClearAll)
    {
      timers := map[];
      heap := [];
    }

    method ActiveTimerCount() returns (n: nat)
      ensures n == |Model().active|
    {
      n := |timers|;
    }

    /** Drops stale entries until the top one belongs to a live timer. */
    method RemoveStaleTopEntries()
      requires Valid()
      modifies this`heap
      ensures Valid() && |heap| <= |old(heap)|
      ensures |heap| > 0 ==> Earliest(Model(), heap[0].id) && heap[0] == Entry(Model(), heap[0].id)
      ensures |heap| == 0 ==> timers == map[]
    {
      while |heap| > 0
        invariant Valid() && |heap| <= |old(heap)|
        decreases |heap|
      {
        var top := heap[0];
        if top.id in timers && timers[top.id].expiration == top.expiration {
          TopIsEarliest(Model(), heap);
          return;
        }
        heap := heap[1..];
      }
    }

    method NextExpirationMilliseconds() returns (r: Int64)
      requires Valid()
      modifies this`heap
      ensures Valid()
      ensures timers == map[] ==> r == -1
      ensures timers != map[] ==> exists id :: Earliest(Model(), id) && r == timers[id].expiration
    {
      RemoveStaleTopEntries();
      if |heap| == 0 {
        return -1;
      }
      assert Earliest(Model(), heap[0].id);
      return heap[0].expiration;
    }

    method ApplyActions(actions: seq<Action>)
      requires Valid()
      modifies this
      ensures Valid() && Model() == ApplyAll(old(Model()), actions)
      ensures |actions| == 0 ==> heap == old(heap)
    {
      assert actions[0..] == actions;
      for i := 0 to |actions|
        invariant Valid()
        invariant ApplyAll(old(Model()), actions) == ApplyAll(Model(), actions[i..])
        invariant i == 0 ==> heap == old(heap)
      {
        assert actions[i..][1..] == actions[i + 1..];
        match actions[i] {
          case AddTimer(expiration, callback) =>
            var id := Add(expiration, callback);
          case CancelTimer(id) => Cancel(id);
          case ClearAll => Clear();
        }
      }
    }

    /** Fires due timers until none is left.  The k-th callback does `behaviours[k]`; a
        finite list of behaviours is what makes the loop end, and between two callbacks
        that act the size of the queue does. */
    method PopExpired(now: Int64, behaviours: seq<seq<Action>>) returns (firedCount: nat, ghost fired: seq<TimerId>)
      requires Valid()
      modifies this
      ensures Valid()
      ensures Legal(old(Model()), now, behaviours, fired)
      ensures Model() == Reached(old(Model()), now, behaviours, fired)
      ensures NothingDue(Model(), now)
      ensures firedCount == |fired|
    {
      hide Legal, Reached;
      firedCount, fired := 0, [];
      NoneYet(Model(), now, behaviours);
      while true
        invariant Valid()
        invariant Legal(old(Model()), now, behaviours, fired)
        invariant Model() == Reached(old(Model()), now, behaviours, fired)
        invariant firedCount == |fired|
        decreases if firedCount <= |behaviours| then |behaviours| - firedCount else 0, |heap|
      {
        RemoveStaleTopEntries();
        if |heap| == 0 || heap[0].expiration > now {
          return;
        }
        var top := heap[0];
        heap := heap[1..];
        var callback := timers[top.id].callback;
        timers := timers - {top.id};
        if callback.Some? {
          ApplyActions(Behaviour(behaviours, firedCount));
        }
        OneMore(old(Model()), now, behaviours, fired, top.id);
        fired := fired + [top.id];
        firedCount := firedCount + 1;
      }
    }
  }

  lemma NoneYet(a: Timers, now: Int64, behaviours: seq<seq<Action>>)
    ensures Legal(a, now, behaviours, []) && Reached(a, now, behaviours, []) == a
  {
  }

  lemma OneMore(a: Timers, now: Int64, behaviours: seq<seq<Action>>, fired: seq<TimerId>, id: TimerId)
    requires Legal(a, now, behaviours, fired)
    requires Earliest(Reached(a, now, behaviours, fired), id) && Due(Reached(a, now, behaviours, fired), id, now)
    ensures Legal(a, now, behaviours, fired + [id])
    ensures Reached(a, now, behaviours, fired + [id])
         == Fire(Reached(a, now, behaviours, fired), id, Behaviour(behaviours, |fired|))
  {
    assert (fired + [id])[..|fired|] == fired;
  }

  lemma TopIsEarliest(a: Timers, h: seq<HeapEntry>)
    requires Sorted(h) && |h| > 0
    requires forall id :: id in a.active ==> Entry(a, id) in h
    requires h[0].id in a.active && h[0] == Entry(a, h[0].id)
    ensures Earliest(a, h[0].id)
  {
    forall other | other in a.active && other != h[0].id ensures Before(h[0], Entry(a, other)) {
      assert Entry(a, other) in h;
    }
  }

  // ---- What a pop does, whatever the callbacks do -------------------------------------------

  /** Timers are never renumbered, changed or revived: `b` comes after `a`. */
  ghost predicate Follows(a: Timers, b: Timers) {
    && a.nextId <= b.nextId
    && (forall id :: id in b.active && id < a.nextId ==> id in a.active && b.active[id] == a.active[id])
    && (Wellformed(a) ==> Wellformed(b))
  }

  lemma {:induction false} ActionsFollow(a: Timers, actions: seq<Action>)
    ensures Follows(a, ApplyAll(a, actions))
    decreases |actions|
  {
    if |actions| > 0 {
      ActionsFollow(Apply(a, actions[0]), actions[1..]);
    }
  }

  lemma FireFollows(a: Timers, id: TimerId, actions: seq<Action>)
    requires Wellformed(a) && id in a.active
    ensures Follows(a, Fire(a, id, actions)) && id !in Fire(a, id, actions).active
  {
    ActionsFollow(a.(active := a.active - {id}), actions);
  }

  /** The timers before the i-th firing. */
  ghost function At(a: Timers, now: Int64, behaviours: seq<seq<Action>>, fired: seq<TimerId>, i: nat): (b: Timers)
    requires i <= |fired| && Legal(a, now, behaviours, fired[..i])
  {
    Reached(a, now, behaviours, fired[..i])
  }

  /** One firing: it is due, it is the earliest, and `Fire` gives the next state. */
  ghost predicate Fires(before: Timers, id: TimerId, now: Int64, actions: seq<Action>, after: Timers) {
    Due(before, id, now) && Earliest(before, id) && after == Fire(before, id, actions)
  }

  lemma {:induction false} Prefixes(a: Timers, now: Int64, behaviours: seq<seq<Action>>, fired: seq<TimerId>, i: nat)
    requires i <= |fired| && Legal(a, now, behaviours, fired)
    ensures Legal(a, now, behaviours, fired[..i])
    decreases |fired|
  {
    assert fired[..|fired|] == fired;
    if i < |fired| {
      var n := |fired| - 1;
      Prefixes(a, now, behaviours, fired[..n], i);
      assert fired[..n][..i] == fired[..i];
    }
  }

  /** Never early and always the earliest: the i-th fired timer was live and due at its turn. */
  lemma FiresInTurn(a: Timers, now: Int64, behaviours: seq<seq<Action>>, fired: seq<TimerId>, i: nat)
    requires i < |fired| && Legal(a, now, behaviours, fired)
    ensures Legal(a, now, behaviours, fired[..i]) && Legal(a, now, behaviours, fired[..i + 1])
    ensures Fires(At(a, now, behaviours, fired, i), fired[i], now, Behaviour(behaviours, i),
                  At(a, now, behaviours, fired, i + 1))
  {
    Prefixes(a, now, behaviours, fired, i);
    Prefixes(a, now, behaviours, fired, i + 1);
    assert fired[..i + 1][..i] == fired[..i];
  }

  lemma {:induction false} StatesFollow(a: Timers, now: Int64, behaviours: seq<seq<Action>>, fired: seq<TimerId>, i: nat, j: nat)
    requires i <= j <= |fired| && Legal(a, now, behaviours, fired) && Wellformed(a)
    ensures Legal(a, now, behaviours, fired[..i]) && Legal(a, now, behaviours, fired[..j])
    ensures Follows(At(a, now, behaviours, fired, i), At(a, now, behaviours, fired, j))
    ensures Wellformed(At(a, now, behaviours, fired, i))
    decreases j
  {
    hide Legal, Reached;
    Prefixes(a, now, behaviours, fired, i);
    Prefixes(a, now, behaviours, fired, j);
    if i < j {
      StatesFollow(a, now, behaviours, fired, i, j - 1);
      StatesFollow(a, now, behaviours, fired, j - 1, j - 1);
      FiresInTurn(a, now, behaviours, fired, j - 1);
      FireFollows(At(a, now, behaviours, fired, j - 1), fired[j - 1], Behaviour(behaviours, j - 1));
    } else if i > 0 {
      StatesFollow(a, now, behaviours, fired, i - 1, i - 1);
      FiresInTurn(a, now, behaviours, fired, i - 1);
      FireFollows(At(a, now, behaviours, fired, i - 1), fired[i - 1], Behaviour(behaviours, i - 1));
    } else {
      StartsAt(a, now, behaviours, fired);
    }
  }

  lemma StartsAt(a: Timers, now: Int64, behaviours: seq<seq<Action>>, fired: seq<TimerId>)
    ensures Legal(a, now, behaviours, fired[..0]) && At(a, now, behaviours, fired, 0) == a
  {
  }

  /** A timer that has been removed, by firing, cancelling or clearing, never fires again. */
  lemma RemovedNeverFires(a: Timers, now: Int64, behaviours: seq<seq<Action>>, fired: seq<TimerId>, i: nat, j: nat, id: TimerId)
    requires Wellformed(a) && Legal(a, now, behaviours, fired) && i <= j < |fired|
    requires Legal(a, now, behaviours, fired[..i])
    requires id < At(a, now, behaviours, fired, i).nextId && id !in At(a, now, behaviours, fired, i).active
    ensures fired[j] != id
  {
    hide Legal, Reached;
    StatesFollow(a, now, behaviours, fired, i, j);
    FiresInTurn(a, now, behaviours, fired, j);
  }

  lemma NeverFiresTwice(a: Timers, now: Int64, behaviours: seq<seq<Action>>, fired: seq<TimerId>, i: nat, j: nat)
    requires Wellformed(a) && Legal(a, now, behaviours, fired) && i < j < |fired|
    ensures fired[i] != fired[j]
  {
    hide Legal, Reached;
    FiresInTurn(a, now, behaviours, fired, i);
    StatesFollow(a, now, behaviours, fired, i, i + 1);
    FireFollows(At(a, now, behaviours, fired, i), fired[i], Behaviour(behaviours, i));
    RemovedNeverFires(a, now, behaviours, fired, i + 1, j, fired[i]);
  }

  /** A callback that takes a timer away without firing it. */
  predicate Removes(actions: seq<Action>, id: TimerId) {
    CancelTimer(id) in actions || ClearAll in actions
  }

  lemma {:induction false} ActionsKeep(a: Timers, actions: seq<Action>, id: TimerId)
    requires Wellformed(a) && id in a.active && !Removes(actions, id)
    ensures id in ApplyAll(a, actions).active && ApplyAll(a, actions).active[id] == a.active[id]
    decreases |actions|
  {
    if |actions| > 0 {
      ActionsKeep(Apply(a, actions[0]), actions[1..], id);
    }
  }

  lemma {:induction false} LiveUntilFiredOrRemoved(
    a: Timers, now: Int64, behaviours: seq<seq<Action>>, fired: seq<TimerId>, id: TimerId, i: nat)
    requires Wellformed(a) && Legal(a, now, behaviours, fired) && id in a.active && i <= |fired|
    requires id !in fired && forall k :: 0 <= k < i ==> !Removes(Behaviour(behaviours, k), id)
    ensures Legal(a, now, behaviours, fired[..i])
    ensures id in At(a, now, behaviours, fired, i).active
    ensures At(a, now, behaviours, fired, i).active[id] == a.active[id]
  {
    hide Legal, Reached;
    StartsAt(a, now, behaviours, fired);
    if i > 0 {
      LiveUntilFiredOrRemoved(a, now, behaviours, fired, id, i - 1);
      FiresInTurn(a, now, behaviours, fired, i - 1);
      StatesFollow(a, now, behaviours, fired, i - 1, i - 1);
      var before := At(a, now, behaviours, fired, i - 1);
      ActionsKeep(before.(active := before.active - {fired[i - 1]}), Behaviour(behaviours, i - 1), id);
    }
  }

  /** Nothing is forgotten: once nothing is due, every timer that was due has fired, or some
      callback has cancelled it or cleared the heap. */
  lemma DueFiresOrIsRemoved(a: Timers, now: Int64, behaviours: seq<seq<Action>>, fired: seq<TimerId>, id: TimerId)
    requires Wellformed(a) && Legal(a, now, behaviours, fired)
    requires NothingDue(Reached(a, now, behaviours, fired), now)
    requires Due(a, id, now)
    ensures id in fired || exists k :: 0 <= k < |fired| && Removes(Behaviour(behaviours, k), id)
  {
    hide Legal, Reached;
    assert fired[..|fired|] == fired;
    assert !Due(Reached(a, now, behaviours, fired), id, now);
    if id !in fired && forall k :: 0 <= k < |fired| ==> !Removes(Behaviour(behaviours, k), id) {
      LiveUntilFiredOrRemoved(a, now, behaviours, fired, id, |fired|);
    }
  }

  // ---- Callbacks that add only later timers ---------------------------------------------------

  predicate OnlyLater(actions: seq<Action>, now: Int64) {
    forall i :: 0 <= i < |actions| && actions[i].AddTimer? ==> actions[i].expiration > now
  }

  ghost predicate NothingNewDue(a: Timers, b: Timers, now: Int64) {
    forall id :: Due(b, id, now) ==> id in a.active && a.active[id] == b.active[id]
  }

  lemma {:induction false} ActionsAddNothingDue(a: Timers, actions: seq<Action>, now: Int64)
    requires OnlyLater(actions, now)
    ensures NothingNewDue(a, ApplyAll(a, actions), now)
    decreases |actions|
  {
    if |actions| > 0 {
      var b := Apply(a, actions[0]);
      ActionsAddNothingDue(b, actions[1..], now);
      var c := ApplyAll(a, actions);
      forall id | Due(c, id, now) ensures id in a.active && a.active[id] == c.active[id] {
        assert Due(b, id, now);
      }
    }
  }

  lemma {:induction false} StatesAddNothingDue(
    a: Timers, now: Int64, behaviours: seq<seq<Action>>, fired: seq<TimerId>, i: nat, j: nat)
    requires i <= j <= |fired| && Legal(a, now, behaviours, fired)
    requires forall k :: 0 <= k < |behaviours| ==> OnlyLater(behaviours[k], now)
    ensures Legal(a, now, behaviours, fired[..i]) && Legal(a, now, behaviours, fired[..j])
    ensures NothingNewDue(At(a, now, behaviours, fired, i), At(a, now, behaviours, fired, j), now)
    decreases j
  {
    hide Legal, Reached;
    Prefixes(a, now, behaviours, fired, i);
    Prefixes(a, now, behaviours, fired, j);
    if i < j {
      StatesAddNothingDue(a, now, behaviours, fired, i, j - 1);
      FiresInTurn(a, now, behaviours, fired, j - 1);
      var first := At(a, now, behaviours, fired, i);
      var before := At(a, now, behaviours, fired, j - 1);
      var after := At(a, now, behaviours, fired, j);
      ActionsAddNothingDue(before.(active := before.active - {fired[j - 1]}), Behaviour(behaviours, j - 1), now);
      forall id | Due(after, id, now) ensures id in first.active && first.active[id] == after.active[id] {
        assert Due(before, id, now);
      }
    }
  }

  /** Then only timers due at the start fire, in ascending order of (expiration, identifier). */
  lemma FiresInOrder(a: Timers, now: Int64, behaviours: seq<seq<Action>>, fired: seq<TimerId>, i: nat, j: nat)
    requires Wellformed(a) && Legal(a, now, behaviours, fired) && i < j < |fired|
    requires forall k :: 0 <= k < |behaviours| ==> OnlyLater(behaviours[k], now)
    ensures Due(a, fired[i], now) && Due(a, fired[j], now)
    ensures Before(Entry(a, fired[i]), Entry(a, fired[j]))
  {
    hide Legal, Reached;
    StartsAt(a, now, behaviours, fired);
    StatesAddNothingDue(a, now, behaviours, fired, 0, i);
    StatesAddNothingDue(a, now, behaviours, fired, 0, j);
    StatesAddNothingDue(a, now, behaviours, fired, i, j);
    FiresInTurn(a, now, behaviours, fired, i);
    FiresInTurn(a, now, behaviours, fired, j);
    NeverFiresTwice(a, now, behaviours, fired, i, j);
  }

  /** And if no callback cancels or clears, exactly the timers due at the start fire. */
  lemma FiresExactlyTheDue(a: Timers, now: Int64, behaviours: seq<seq<Action>>, fired: seq<TimerId>, id: TimerId)
    requires Wellformed(a) && Legal(a, now, behaviours, fired)
    requires NothingDue(Reached(a, now, behaviours, fired), now)
    requires forall k :: 0 <= k < |behaviours| ==> OnlyLater(behaviours[k], now) && !Removes(behaviours[k], id)
    ensures id in fired <==> Due(a, id, now)
  {
    hide Legal, Reached;
    if Due(a, id, now) {
      DueFiresOrIsRemoved(a, now, behaviours, fired, id);
    }
    if id in fired {
      var i :| 0 <= i < |fired| && fired[i] == id;
      StartsAt(a, now, behaviours, fired);
      StatesAddNothingDue(a, now, behaviours, fired, 0, i);
      FiresInTurn(a, now, behaviours, fired, i);
    }
  }

  function DueSet(a: Timers, now: Int64): (ids: set<TimerId>) {
    set id | id in a.active && a.active[id].expiration <= now
  }

  lemma {:induction false} DistinctFit(fired: seq<TimerId>, ids: set<TimerId>)
    requires forall i, j :: 0 <= i < j < |fired| ==> fired[i] != fired[j]
    requires forall i :: 0 <= i < |fired| ==> fired[i] in ids
    ensures |fired| <= |ids|
    decreases |fired|
  {
    if |fired| > 0 {
      var n := |fired| - 1;
      DistinctFit(fired[..n], ids - {fired[n]});
    }
  }

  /** A pop whose callbacks add only later timers fires no more often than timers were due at
      the start, so it ends however often callbacks act. */
  lemma FiringsAreBounded(a: Timers, now: Int64, behaviours: seq<seq<Action>>, fired: seq<TimerId>)
    requires Wellformed(a) && Legal(a, now, behaviours, fired)
    requires forall k :: 0 <= k < |behaviours| ==> OnlyLater(behaviours[k], now)
    ensures |fired| <= |DueSet(a, now)|
  {
    hide Legal, Reached;
    forall i, j | 0 <= i < j < |fired| ensures fired[i] != fired[j] {
      NeverFiresTwice(a, now, behaviours, fired, i, j);
    }
    forall i | 0 <= i < |fired| ensures fired[i] in DueSet(a, now) {
      StartsAt(a, now, behaviours, fired);
      StatesAddNothingDue(a, now, behaviours, fired, 0, i);
      FiresInTurn(a, now, behaviours, fired, i);
    }
    DistinctFit(fired, DueSet(a, now));
  }

  // ---- Every sequence of calls ------------------------------------------------------------------

  datatype Call = Change(action: Action) | Pop(now: Int64, behaviours: seq<seq<Action>>)

  /** What the calls of the heap do to the plain map: `PopExpired` fires `fired`. */
  ghost predicate Performs(a: Timers, call: Call, fired: seq<TimerId>, b: Timers) {
    match call
    case Change(action) => fired == [] && b == Apply(a, action)
    case Pop(now, behaviours) =>
      Legal(a, now, behaviours, fired) && b == Reached(a, now, behaviours, fired) && NothingDue(b, now)
  }

  /** Calls on a new heap, the states between them and what each of them fired. */
  ghost predicate IsHistory(states: seq<Timers>, calls: seq<Call>, fired: seq<seq<TimerId>>) {
    && |states| == |calls| + 1 && |fired| == |calls| && states[0] == Timers(map[], 1)
    && forall k :: 0 <= k < |calls| ==> Performs(states[k], calls[k], fired[k], states[k + 1])
  }

  lemma PopFollows(a: Timers, now: Int64, behaviours: seq<seq<Action>>, fired: seq<TimerId>, i: nat)
    requires Wellformed(a) && Legal(a, now, behaviours, fired) && i <= |fired|
    ensures Legal(a, now, behaviours, fired[..i])
    ensures Follows(a, At(a, now, behaviours, fired, i))
    ensures Follows(At(a, now, behaviours, fired, i), Reached(a, now, behaviours, fired))
    ensures Wellformed(At(a, now, behaviours, fired, i))
  {
    hide Legal, Reached;
    StartsAt(a, now, behaviours, fired);
    StatesFollow(a, now, behaviours, fired, 0, i);
    StatesFollow(a, now, behaviours, fired, i, |fired|);
    assert fired[..|fired|] == fired;
  }

  lemma CallFollows(a: Timers, call: Call, fired: seq<TimerId>, b: Timers)
    requires Wellformed(a) && Performs(a, call, fired, b)
    ensures Follows(a, b) && Wellformed(b)
  {
    hide Legal, Reached;
    if call.Pop? {
      PopFollows(a, call.now, call.behaviours, fired, |fired|);
      assert fired[..|fired|] == fired;
    }
  }

  lemma {:induction false} HistoryFollows(states: seq<Timers>, calls: seq<Call>, fired: seq<seq<TimerId>>, i: nat, j: nat)
    requires IsHistory(states, calls, fired) && i <= j < |states|
    ensures Wellformed(states[i]) && Follows(states[i], states[j])
    decreases j
  {
    hide Performs;
    if i < j {
      HistoryFollows(states, calls, fired, i, j - 1);
      HistoryFollows(states, calls, fired, j - 1, j - 1);
      CallFollows(states[j - 1], calls[j - 1], fired[j - 1], states[j]);
    } else if i > 0 {
      HistoryFollows(states, calls, fired, i - 1, i - 1);
      CallFollows(states[i - 1], calls[i - 1], fired[i - 1], states[i]);
    }
  }

  /** Over every sequence of add, cancel, clear and pop: an identifier that has been given out
      and is not live, however it was removed, never fires in any later call. */
  lemma RemovedNeverFiresLater(
      states: seq<Timers>, calls: seq<Call>, fired: seq<seq<TimerId>>, i: nat, k: nat, j: nat, id: TimerId)
    requires IsHistory(states, calls, fired) && i <= k < |calls| && j < |fired[k]|
    requires id < states[i].nextId && id !in states[i].active
    ensures fired[k][j] != id
  {
    hide Legal, Reached;
    HistoryFollows(states, calls, fired, i, k);
    HistoryFollows(states, calls, fired, k, k);
    assert Performs(states[k], calls[k], fired[k], states[k + 1]);
    var Pop(now, behaviours) := calls[k];
    PopFollows(states[k], now, behaviours, fired[k], j);
    FiresInTurn(states[k], now, behaviours, fired[k], j);
  }

  /** What a pop fired is gone after it. */
  lemma FiredIsGone(a: Timers, now: Int64, behaviours: seq<seq<Action>>, fired: seq<TimerId>, i: nat)
    requires Wellformed(a) && Legal(a, now, behaviours, fired) && i < |fired|
    ensures fired[i] < Reached(a, now, behaviours, fired).nextId
    ensures fired[i] !in Reached(a, now, behaviours, fired).active
  {
    hide Legal, Reached;
    PopFollows(a, now, behaviours, fired, i);
    PopFollows(a, now, behaviours, fired, i + 1);
    FiresInTurn(a, now, behaviours, fired, i);
    FireFollows(At(a, now, behaviours, fired, i), fired[i], Behaviour(behaviours, i));
  }

  /** A cancelled identifier, and after a clear every identifier given out, never fires again. */
  lemma CancelledNeverFires(
      states: seq<Timers>, calls: seq<Call>, fired: seq<seq<TimerId>>, k: nat, l: nat, j: nat, id: TimerId)
    requires IsHistory(states, calls, fired) && k <= l < |calls| && j < |fired[l]|
    requires calls[k] == Change(CancelTimer(id)) || calls[k] == Change(ClearAll)
    requires id < states[k].nextId
    ensures fired[l][j] != id
  {
    hide Legal, Reached;
    assert Performs(states[k], calls[k], fired[k], states[k + 1]);
    RemovedNeverFiresLater(states, calls, fired, k + 1, l, j, id);
  }

  /** An added timer is live at once, with its expiration and callback, and no other has changed. */
  lemma AddedIsLive(states: seq<Timers>, calls: seq<Call>, fired: seq<seq<TimerId>>, k: nat)
    requires IsHistory(states, calls, fired) && k < |calls| && calls[k].Change? && calls[k].action.AddTimer?
    ensures var id := states[k].nextId;
            && id !in states[k].active && id in states[k + 1].active
            && states[k + 1].active[id] == Timer(calls[k].action.expiration, calls[k].action.callback)
            && forall other :: other in states[k].active ==>
                 other in states[k + 1].active && states[k + 1].active[other] == states[k].active[other]
  {
    HistoryFollows(states, calls, fired, k, k);
    assert Performs(states[k], calls[k], fired[k], states[k + 1]);
  }

  /** No action of this call, and none of its callbacks, removes the timer. */
  predicate Spares(call: Call, id: TimerId) {
    match call
    case Change(action) => !Removes([action], id)
    case Pop(_, behaviours) => forall k :: 0 <= k < |behaviours| ==> !Removes(behaviours[k], id)
  }

  lemma OneCallSpares(a: Timers, call: Call, fired: seq<TimerId>, b: Timers, id: TimerId)
    requires Wellformed(a) && Performs(a, call, fired, b) && Spares(call, id) && id in a.active && id !in fired
    ensures id in b.active && b.active[id] == a.active[id]
  {
    match call {
      case Change(action) =>
        assert action in [action];
      case Pop(now, behaviours) =>
        hide Legal, Reached;
        assert fired[..|fired|] == fired;
        LiveUntilFiredOrRemoved(a, now, behaviours, fired, id, |fired|);
    }
  }

  /** Over every history, a live timer stays live, as it is, until it fires, is cancelled or is
      cleared; so one that is due at a pop and is spared fires in it. */
  lemma {:induction false} LivesUntilFiredOrRemoved(
      states: seq<Timers>, calls: seq<Call>, fired: seq<seq<TimerId>>, k: nat, l: nat, id: TimerId)
    requires IsHistory(states, calls, fired) && k <= l <= |calls| && id in states[k].active
    requires forall n :: k <= n < l ==> Spares(calls[n], id) && id !in fired[n]
    ensures id in states[l].active && states[l].active[id] == states[k].active[id]
    decreases l
  {
    hide Performs, Spares, Wellformed;
    if k < l {
      LivesUntilFiredOrRemoved(states, calls, fired, k, l - 1, id);
      HistoryFollows(states, calls, fired, l - 1, l - 1);
      OneCallSpares(states[l - 1], calls[l - 1], fired[l - 1], states[l], id);
    }
  }

  lemma {:induction false} ActionsRemove(a: Timers, actions: seq<Action>, id: TimerId)
    requires id < a.nextId && Removes(actions, id)
    ensures id !in ApplyAll(a, actions).active
    decreases |actions|
  {
    var b := Apply(a, actions[0]);
    if actions[0] == CancelTimer(id) || actions[0] == ClearAll {
      ActionsFollow(b, actions[1..]);
    } else {
      ActionsRemove(b, actions[1..], id);
    }
  }

  /** A callback's cancel or clear works at once: what it removes does not fire in the same pop,
      and is not live after it. */
  lemma RemovedByCallbackNeverFires(
      a: Timers, now: Int64, behaviours: seq<seq<Action>>, fired: seq<TimerId>, i: nat, id: TimerId)
    requires Wellformed(a) && Legal(a, now, behaviours, fired) && i < |fired|
    requires Legal(a, now, behaviours, fired[..i]) && fired[i] in At(a, now, behaviours, fired, i).active
    requires At(a, now, behaviours, fired, i).active[fired[i]].callback.Some?
    requires id < At(a, now, behaviours, fired, i).nextId && Removes(Behaviour(behaviours, i), id)
    ensures forall j :: i < j < |fired| ==> fired[j] != id
    ensures id !in Reached(a, now, behaviours, fired).active
  {
    hide Legal, Reached;
    var before := At(a, now, behaviours, fired, i);
    FiresInTurn(a, now, behaviours, fired, i);
    ActionsRemove(before.(active := before.active - {fired[i]}), Behaviour(behaviours, i), id);
    PopFollows(a, now, behaviours, fired, i);
    PopFollows(a, now, behaviours, fired, i + 1);
    StatesFollow(a, now, behaviours, fired, i, i + 1);
    forall j | i < j < |fired| ensures fired[j] != id {
      RemovedNeverFires(a, now, behaviours, fired, i + 1, j, id);
    }
  }

  /** No identifier fires twice over every sequence of calls. */
  lemma FiresOnceEver(
      states: seq<Timers>, calls: seq<Call>, fired: seq<seq<TimerId>>, k: nat, i: nat, l: nat, j: nat)
    requires IsHistory(states, calls, fired) && k <= l < |calls| && i < |fired[k]| && j < |fired[l]|
    requires k == l ==> i < j
    ensures fired[k][i] != fired[l][j]
  {
    hide Legal, Reached;
    HistoryFollows(states, calls, fired, k, k);
    assert Performs(states[k], calls[k], fired[k], states[k + 1]);
    var Pop(now, behaviours) := calls[k];
    if k == l {
      NeverFiresTwice(states[k], now, behaviours, fired[k], i, j);
    } else {
      FiredIsGone(states[k], now, behaviours, fired[k], i);
      RemovedNeverFiresLater(states, calls, fired, k + 1, l, j, fired[k][i]);
    }
  }
}
