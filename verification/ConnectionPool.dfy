/**
 The connection pool behind both MySQL and Redis, under every interleaving of acquire,
 guard moves, release and close.  One step is one lock region, one unlocked connection
 check, or one notification.
 */
module ConnectionPool {
  import opened Base
  import Runs

  type Connection = nat
  type ThreadId = nat
  type GuardId = nat

  /** What a thread holding a connection outside the lock is about to do with it. */
  datatype Stage =
    | Checking(conn: Connection)    // ensureConnectionReady
    | Verified(conn: Connection)    // lock and look at `closed` again
    | Handing(conn: Connection)     // put it into the caller's guard
    | Releasing(conn: Connection)   // releaseConnection

  datatype State = State(
    started: bool,
    closed: bool,
    all: set<Connection>,
    idle: seq<Connection>,
    connected: set<Connection>,
    looking: set<ThreadId>,           // in acquire, about to test the wait predicate
    sleeping: set<ThreadId>,          // in wait_for, not notified
    inHand: map<ThreadId, Stage>,
    guards: map<GuardId, Connection>,
    signalling: set<ThreadId>,        // between push_back and notify_one
    closing: seq<Connection>,         // taken from the idle queue by close, not yet closed
    broadcasting: bool,               // close has not called notify_all yet
    gone: set<Connection>)            // closed and given up

  ghost predicate Init(s: State) {
    s == State(false, false, {}, [], {}, {}, {}, map[], map[], {}, [], false, {})
  }

  predicate NoDuplicates(a: seq<Connection>) {
    forall i, j :: 0 <= i < j < |a| ==> a[i] != a[j]
  }

  predicate Idle(s: State, t: ThreadId) {
    t !in s.looking && t !in s.sleeping && t !in s.inHand && t !in s.signalling
  }

  datatype Step =
    | Start(connections: seq<Connection>)
    | Begin(thread: ThreadId)
    | Refused(thread: ThreadId)
    | TakeIdle(thread: ThreadId)
    | Sleep(thread: ThreadId) | TimeOut(thread: ThreadId) | WakeUp(thread: ThreadId)
    | CheckSucceeds(thread: ThreadId) | CheckFails(thread: ThreadId)
    | Confirm(thread: ThreadId)
    | HandOver(thread: ThreadId, guard: GuardId)
    | MoveGuard(source: GuardId, target: GuardId)
    | DropGuard(thread: ThreadId, guard: GuardId)
    | Release(thread: ThreadId)
    | NotifyOne(thread: ThreadId, woken: Option<ThreadId>)
    | CloseBegins | CloseNext | CloseBroadcasts
    | LoseConnection(conn: Connection)


  predicate Enabled(s: State, e: Step) {
    match e
    case Start(connections) => !s.started && !s.closed && connections != [] && NoDuplicates(connections)
    case Begin(t) => Idle(s, t)
    case Refused(t) => t in s.looking && (!s.started || s.closed)
    case TakeIdle(t) => t in s.looking && s.started && !s.closed && s.idle != [] && t !in s.inHand
    case Sleep(t) => t in s.looking && s.started && !s.closed && s.idle == []
    case TimeOut(t) => t in s.looking && s.started && !s.closed && s.idle == []
    case WakeUp(t) => t in s.sleeping
    case CheckSucceeds(t) => t in s.inHand && s.inHand[t].Checking?
    case CheckFails(t) => t in s.inHand && s.inHand[t].Checking?
    case Confirm(t) => t in s.inHand && s.inHand[t].Verified?
    case HandOver(t, g) => t in s.inHand && s.inHand[t].Handing? && g !in s.guards
    case MoveGuard(g, h) => g in s.guards && h !in s.guards
    case DropGuard(t, g) => Idle(s, t) && g in s.guards
    case Release(t) => t in s.inHand && s.inHand[t].Releasing? && t !in s.signalling
    case NotifyOne(t, woken) =>
      && t in s.signalling
      && (woken.None? ==> s.sleeping == {})
      && (woken.Some? ==> woken.value in s.sleeping)
    case CloseBegins => !s.closed
    case CloseNext => s.closing != []
    case CloseBroadcasts => s.broadcasting && s.closing == []
    case LoseConnection(c) => c in s.connected
  }

  function Unhand(s: State, t: ThreadId): (u: State) {
    s.(inHand := s.inHand - {t})
  }

  function GiveUp(s: State, c: Connection): (u: State) {
    s.(connected := s.connected - {c}, gone := s.gone + {c})
  }

  function After(s: State, e: Step): (u: State)
    requires Enabled(s, e)
  {
    match e
    case Start(connections) =>
      var ids := set c | c in connections;
      s.(started := true, all := ids, idle := connections, connected := ids)
    case Begin(t) => s.(looking := s.looking + {t})
    case Refused(t) => s.(looking := s.looking - {t})
    case TakeIdle(t) =>
      s.(looking := s.looking - {t}, idle := s.idle[1..], inHand := s.inHand[t := Checking(s.idle[0])])
    case Sleep(t) => s.(looking := s.looking - {t}, sleeping := s.sleeping + {t})
    case TimeOut(t) => s.(looking := s.looking - {t})
    case WakeUp(t) => s.(sleeping := s.sleeping - {t}, looking := s.looking + {t})
    case CheckSucceeds(t) =>
      var c := s.inHand[t].conn;
      s.(inHand := s.inHand[t := Verified(c)], connected := s.connected + {c})
    case CheckFails(t) =>
      var c := s.inHand[t].conn;
      s.(inHand := s.inHand[t := Releasing(c)], connected := s.connected - {c})
    case Confirm(t) =>
      var c := s.inHand[t].conn;
      if s.closed then GiveUp(Unhand(s, t), c) else s.(inHand := s.inHand[t := Handing(c)])
    case HandOver(t, g) => Unhand(s, t).(guards := s.guards[g := s.inHand[t].conn])
    case MoveGuard(g, h) => s.(guards := (s.guards - {g})[h := s.guards[g]])
    case DropGuard(t, g) => s.(guards := s.guards - {g}, inHand := s.inHand[t := Releasing(s.guards[g])])
    case Release(t) =>
      var c := s.inHand[t].conn;
      if s.started && !s.closed
      then Unhand(s, t).(idle := s.idle + [c], signalling := s.signalling + {t})
      else GiveUp(Unhand(s, t), c)
    case NotifyOne(t, woken) =>
      var u := s.(signalling := s.signalling - {t});
      if woken.None? then u
      else u.(sleeping := s.sleeping - {woken.value}, looking := s.looking + {woken.value})
    case CloseBegins => s.(closed := true, closing := s.idle, idle := [], broadcasting := true)
    case CloseNext => GiveUp(s, s.closing[0]).(closing := s.closing[1..])
    case CloseBroadcasts => s.(broadcasting := false, sleeping := {}, looking := s.looking + s.sleeping)
    case LoseConnection(c) => s.(connected := s.connected - {c})
  }

  ghost predicate Next(s: State, t: State) {
    exists e :: Enabled(s, e) && t == After(s, e)
  }

  // ---- The invariant ----------------------------------------------------------------------

  /** The places a connection can be. */
  datatype Place = InIdle(index: nat) | InHandOf(thread: ThreadId) | InGuard(guard: GuardId)
                 | InClosing(index: nat) | IsGone(conn: Connection)

  predicate At(s: State, p: Place, c: Connection) {
    match p
    case InIdle(i) => i < |s.idle| && s.idle[i] == c
    case InHandOf(t) => t in s.inHand && s.inHand[t].conn == c
    case InGuard(g) => g in s.guards && s.guards[g] == c
    case InClosing(i) => i < |s.closing| && s.closing[i] == c
    case IsGone(d) => d == c && c in s.gone
  }

  /** No connection is in two places. */
  ghost predicate Exclusive(s: State) {
    forall p, q, c :: At(s, p, c) && At(s, q, c) ==> p == q
  }

  ghost predicate Somewhere(s: State, c: Connection) {
    exists p :: At(s, p, c)
  }

  /** The pool's connections are exactly the ones that are somewhere. */
  ghost predicate Accounted(s: State) {
    && (forall p, c :: At(s, p, c) ==> c in s.all)
    && (forall c :: c in s.all ==> Somewhere(s, c))
  }

  ghost predicate Closure(s: State) {
    && (s.closed ==> s.idle == [])
    && (!s.closed ==> s.closing == [] && s.gone == {} && !s.broadcasting)
    && s.gone !! s.connected
    && s.connected <= s.all
    && (!s.started ==> s.all == {})
    && s.looking !! s.sleeping
    && s.looking + s.sleeping !! s.inHand.Keys
  }

  ghost predicate NoneStranded(s: State) {
    && (s.sleeping != {} ==> |s.idle| <= |s.signalling| + |s.looking|)
    && (s.sleeping != {} && s.closed ==> s.broadcasting)
    && (s.sleeping != {} ==> s.started)
  }

  ghost predicate Inv(s: State) {
    Exclusive(s) && Accounted(s) && Closure(s) && NoneStranded(s)
  }

  // Every step but Start moves at most one connection, and shifts the rest of a queue.

  /** Where the connection that `e` leaves at `p` was before. */
  function From(s: State, e: Step, p: Place): (q: Place)
    requires Enabled(s, e)
  {
    match e
    case TakeIdle(t) =>
      if p == InHandOf(t) then InIdle(0) else if p.InIdle? then InIdle(p.index + 1) else p
    case Confirm(t) => if s.closed && p == IsGone(s.inHand[t].conn) then InHandOf(t) else p
    case HandOver(t, g) => if p == InGuard(g) then InHandOf(t) else p
    case MoveGuard(g, h) => if p == InGuard(h) then InGuard(g) else p
    case DropGuard(t, g) => if p == InHandOf(t) then InGuard(g) else p
    case Release(t) =>
      if s.started && !s.closed then (if p == InIdle(|s.idle|) then InHandOf(t) else p)
      else if p == IsGone(s.inHand[t].conn) then InHandOf(t) else p
    case CloseBegins => if p.InClosing? then InIdle(p.index) else p
    case CloseNext =>
      if p == IsGone(s.closing[0]) then InClosing(0) else if p.InClosing? then InClosing(p.index + 1) else p
    case _ => p
  }

  /** Where `e` puts the connection that is at `p`. */
  function To(s: State, e: Step, p: Place): (q: Place)
    requires Enabled(s, e)
  {
    match e
    case TakeIdle(t) =>
      if p == InIdle(0) then InHandOf(t) else if p.InIdle? then InIdle(p.index - 1) else p
    case Confirm(t) => if s.closed && p == InHandOf(t) then IsGone(s.inHand[t].conn) else p
    case HandOver(t, g) => if p == InHandOf(t) then InGuard(g) else p
    case MoveGuard(g, h) => if p == InGuard(g) then InGuard(h) else p
    case DropGuard(t, g) => if p == InGuard(g) then InHandOf(t) else p
    case Release(t) =>
      if p != InHandOf(t) then p
      else if s.started && !s.closed then InIdle(|s.idle|) else IsGone(s.inHand[t].conn)
    case CloseBegins => if p.InIdle? then InClosing(p.index) else p
    case CloseNext =>
      if p == InClosing(0) then IsGone(s.closing[0])
      else if p.InClosing? then InClosing(p.index - 1) else p
    case _ => p
  }

  /** `e` takes what is at `p` to `To`, and `From` names the origin uniquely. */
  ghost predicate Moved(s: State, e: Step, p: Place, c: Connection)
    requires Enabled(s, e)
  {
    && (At(s, p, c) ==> At(After(s, e), To(s, e, p), c))
    && (At(After(s, e), p, c) ==> At(s, From(s, e, p), c) && To(s, e, From(s, e, p)) == p)
  }

  lemma TakeIdleMoves(s: State, t: ThreadId, p: Place, c: Connection)
    requires Enabled(s, TakeIdle(t))
    ensures Moved(s, TakeIdle(t), p, c)
  {
  }

  lemma CloseBeginsMoves(s: State, p: Place, c: Connection)
    requires Closure(s) && Enabled(s, CloseBegins)
    ensures Moved(s, CloseBegins, p, c)
  {
  }

  lemma CloseNextMoves(s: State, p: Place, c: Connection)
    requires Exclusive(s) && Enabled(s, CloseNext)
    ensures Moved(s, CloseNext, p, c)
  {
    var d := s.closing[0];
    assert d !in s.gone by {
      assert At(s, InClosing(0), d);
      assert d in s.gone ==> At(s, IsGone(d), d);
    }
    hide Exclusive;
  }

  lemma NotGone(s: State, t: ThreadId)
    requires Exclusive(s) && t in s.inHand
    ensures s.inHand[t].conn !in s.gone
  {
    var d := s.inHand[t].conn;
    assert At(s, InHandOf(t), d);
    assert d in s.gone ==> At(s, IsGone(d), d);
  }

  lemma ConfirmMoves(s: State, t: ThreadId, p: Place, c: Connection)
    requires Exclusive(s) && Enabled(s, Confirm(t))
    ensures Moved(s, Confirm(t), p, c)
  {
    hide Exclusive;
    NotGone(s, t);
  }

  lemma ReleaseMoves(s: State, t: ThreadId, p: Place, c: Connection)
    requires Exclusive(s) && Enabled(s, Release(t))
    ensures Moved(s, Release(t), p, c)
  {
    hide Exclusive;
    NotGone(s, t);
  }

  lemma HandOverMoves(s: State, t: ThreadId, g: GuardId, p: Place, c: Connection)
    requires Enabled(s, HandOver(t, g))
    ensures Moved(s, HandOver(t, g), p, c)
  {
  }

  lemma MoveGuardMoves(s: State, g: GuardId, h: GuardId, p: Place, c: Connection)
    requires Enabled(s, MoveGuard(g, h))
    ensures Moved(s, MoveGuard(g, h), p, c)
  {
  }

  lemma DropGuardMoves(s: State, t: ThreadId, g: GuardId, p: Place, c: Connection)
    requires Enabled(s, DropGuard(t, g))
    ensures Moved(s, DropGuard(t, g), p, c)
  {
  }

  predicate Moving(e: Step) {
    || e.TakeIdle? || e.CloseBegins? || e.CloseNext? || e.Confirm? || e.Release?
    || e.HandOver? || e.MoveGuard? || e.DropGuard?
  }

  lemma NothingMoves(s: State, e: Step)
    requires Enabled(s, e) && !Moving(e) && !e.Start?
    ensures var u := After(s, e);
            && u.idle == s.idle && u.guards == s.guards && u.closing == s.closing && u.gone == s.gone
            && u.inHand.Keys == s.inHand.Keys
            && forall t :: t in s.inHand ==> u.inHand[t].conn == s.inHand[t].conn
  {
  }

  lemma Moves(s: State, e: Step, p: Place, c: Connection)
    requires Exclusive(s) && Closure(s) && Enabled(s, e) && !e.Start?
    ensures Moved(s, e, p, c)
  {
    hide Exclusive, Closure, After;
    if !Moving(e) {
      NothingMoves(s, e);
    } else {
      hide Moved, From, To;
      match e {
        case TakeIdle(t) => TakeIdleMoves(s, t, p, c);
        case CloseBegins => CloseBeginsMoves(s, p, c);
        case CloseNext => CloseNextMoves(s, p, c);
        case Confirm(t) => ConfirmMoves(s, t, p, c);
        case Release(t) => ReleaseMoves(s, t, p, c);
        case HandOver(t, g) => HandOverMoves(s, t, g, p, c);
        case MoveGuard(g, h) => MoveGuardMoves(s, g, h, p, c);
        case DropGuard(t, g) => DropGuardMoves(s, t, g, p, c);
      }
    }
  }

  lemma StepKeepsPlaces(s: State, e: Step)
    requires Exclusive(s) && Accounted(s) && Closure(s) && Enabled(s, e) && !e.Start?
    ensures Exclusive(After(s, e)) && Accounted(After(s, e))
  {
    hide Closure, From, To, At;
    var u := After(s, e);
    forall p, q, c | At(u, p, c) && At(u, q, c) ensures p == q {
      Moves(s, e, p, c);
      Moves(s, e, q, c);
    }
    AllUnchanged(s, e);
    forall p, c | At(u, p, c) ensures c in u.all {
      Moves(s, e, p, c);
    }
    forall c | c in u.all ensures Somewhere(u, c) {
      assert Somewhere(s, c);
      var p :| At(s, p, c);
      Moves(s, e, p, c);
    }
  }

  lemma AllUnchanged(s: State, e: Step)
    requires Enabled(s, e) && !e.Start?
    ensures After(s, e).all == s.all
  {
  }

  lemma StepKeepsClosure(s: State, e: Step)
    requires Exclusive(s) && Accounted(s) && Closure(s) && Enabled(s, e)
    ensures Closure(After(s, e))
  {
    match e {
      case CheckSucceeds(t) =>
        var c := s.inHand[t].conn;
        assert At(s, InHandOf(t), c);
        assert c in s.gone ==> At(s, IsGone(c), c);
      case Release(t) => assert At(s, InHandOf(t), s.inHand[t].conn);
      case _ =>
    }
  }

  lemma StepKeepsCover(s: State, e: Step)
    requires Closure(s) && NoneStranded(s) && Enabled(s, e)
    ensures NoneStranded(After(s, e))
  {
  }

  lemma StartKeeps(s: State, connections: seq<Connection>)
    requires Inv(s) && Enabled(s, Start(connections))
    ensures Exclusive(After(s, Start(connections))) && Accounted(After(s, Start(connections)))
  {
    var u := After(s, Start(connections));
    assert forall p, c :: At(s, p, c) ==> c in s.all;
    forall p, c | At(u, p, c) ensures p.InIdle? && c in u.all {
      if !p.InIdle? {
        assert At(s, p, c);
      }
    }
    forall c | c in u.all ensures Somewhere(u, c) {
      var i :| 0 <= i < |connections| && connections[i] == c;
      assert At(u, InIdle(i), c);
    }
  }

  lemma StepKeeps(s: State, e: Step)
    requires Inv(s) && Enabled(s, e)
    ensures Inv(After(s, e))
  {
    hide Exclusive, Accounted, Closure, NoneStranded, After;
    if e.Start? {
      StartKeeps(s, e.connections);
    } else {
      StepKeepsPlaces(s, e);
    }
    StepKeepsClosure(s, e);
    StepKeepsCover(s, e);
  }

  lemma InitKeeps(s: State)
    requires Init(s)
    ensures Inv(s)
  {
  }

  // ---- Theorems over all runs --------------------------------------------------------------

  lemma RunsKeep(run: seq<State>, i: nat)
    requires Runs.IsRun(Init, Next, run) && i < |run|
    ensures Inv(run[i])
  {
    hide Inv, After;
    forall s | Init(s) ensures Inv(s) {
      InitKeeps(s);
    }
    forall s, t | Inv(s) && Next(s, t) ensures Inv(t) {
      var e :| Enabled(s, e) && t == After(s, e);
      StepKeeps(s, e);
    }
    Runs.Invariance(Init, Next, Inv, run);
  }

  /** Before close, every connection of the pool is in exactly one of: the idle queue, the
      hands of one thread inside acquire or release, or one guard. */
  lemma ExactlyOneHolder(run: seq<State>, i: nat, c: Connection)
    requires Runs.IsRun(Init, Next, run) && i < |run|
    requires c in run[i].all
    ensures exists p :: At(run[i], p, c) && forall q :: At(run[i], q, c) ==> q == p
    ensures !run[i].closed ==>
              forall p :: At(run[i], p, c) ==> p.InIdle? || p.InHandOf? || p.InGuard?
  {
    RunsKeep(run, i);
    assert Somewhere(run[i], c);
    var p :| At(run[i], p, c);
    assert forall q :: At(run[i], q, c) ==> q == p;
  }

  /** Two guards never share a connection, and nobody else can be handed a guarded one. */
  lemma GuardsAreExclusive(run: seq<State>, i: nat, g: GuardId, h: GuardId)
    requires Runs.IsRun(Init, Next, run) && i < |run|
    requires g in run[i].guards && h in run[i].guards && g != h
    ensures run[i].guards[g] != run[i].guards[h]
    ensures run[i].guards[g] !in run[i].idle
    ensures forall t :: t in run[i].inHand ==> run[i].inHand[t].conn != run[i].guards[g]
  {
    RunsKeep(run, i);
    var s := run[i];
    assert At(s, InGuard(g), s.guards[g]) && At(s, InGuard(h), s.guards[h]);
    assert forall k: nat :: k < |s.idle| ==> At(s, InIdle(k), s.idle[k]);
    assert forall t :: t in s.inHand ==> At(s, InHandOf(t), s.inHand[t].conn);
  }

  /** After close nothing is idle, and a connection that is still connected is on its way:
      in close's own list, in a thread's hands, or in a guard.  So once those are gone every
      connection is disconnected. */
  lemma ClosedPoolDrains(run: seq<State>, i: nat)
    requires Runs.IsRun(Init, Next, run) && i < |run|
    requires run[i].closed
    ensures run[i].idle == []
    ensures run[i].closing == [] && run[i].inHand == map[] && run[i].guards == map[] ==>
              run[i].connected == {} && run[i].gone == run[i].all
    ensures run[i].sleeping != {} ==> run[i].broadcasting
  {
    RunsKeep(run, i);
    var s := run[i];
    if s.closing == [] && s.inHand == map[] && s.guards == map[] {
      forall c | c in s.all ensures c in s.gone {
        assert Somewhere(s, c);
        var p :| At(s, p, c);
      }
      forall c | c in s.gone ensures c in s.all {
        assert At(s, IsGone(c), c);
      }
    }
  }

  /** While an open pool has an idle connection and somebody waits for one, a waiter takes it
      or the notification that wakes one is on its way. */
  lemma IdleConnectionsAreTaken(s: State) returns (e: Step)
    requires Inv(s) && s.started && !s.closed && s.idle != [] && s.looking + s.sleeping != {}
    ensures Enabled(s, e) && (e.TakeIdle? || e.NotifyOne?)
  {
    hide Exclusive, Accounted;
    if s.looking != {} {
      var t :| t in s.looking;
      e := TakeIdle(t);
    } else {
      var w :| w in s.sleeping;
      assert s.signalling != {};
      var t :| t in s.signalling;
      e := NotifyOne(t, Some(w));
    }
  }

  /** A thread sleeping in acquire is never left beside an idle connection that nobody is
      about to offer or take. */
  lemma NoStrandedWaiter(run: seq<State>, i: nat)
    requires Runs.IsRun(Init, Next, run) && i < |run|
    requires run[i].sleeping != {}
    ensures |run[i].idle| <= |run[i].signalling| + |run[i].looking|
    ensures run[i].idle != [] ==> run[i].signalling != {} || run[i].looking != {}
  {
    RunsKeep(run, i);
  }

  ghost predicate StaysClosed(s: State, t: State) {
    s.closed ==> t.closed && t.all == s.all && s.gone <= t.gone
  }

  /** Close is final: the pool never reopens and what was given up stays given up. */
  lemma CloseIsFinal(run: seq<State>, i: nat, j: nat)
    requires Runs.IsRun(Init, Next, run) && i <= j < |run|
    requires run[i].closed
    ensures run[j].closed && run[j].idle == [] && run[j].all == run[i].all && run[i].gone <= run[j].gone
    ensures run[i].gone !! run[j].connected
  {
    hide Init, Next, Inv;
    RunsKeep(run, j);
    ClosedIsIdle(run[j]);
    var k := i;
    while k < j
      invariant i <= k <= j
      invariant StaysClosed(run[i], run[k])
    {
      ClosedNext(run[k], run[k + 1]);
      k := k + 1;
    }
  }

  lemma ClosedIsIdle(s: State)
    requires Inv(s)
    ensures s.closed ==> s.idle == []
    ensures s.gone !! s.connected
  {
  }

  lemma ClosedNext(s: State, t: State)
    requires s.closed && Next(s, t)
    ensures StaysClosed(s, t)
  {
    hide Enabled, After;
    var e :| Enabled(s, e) && t == After(s, e);
    ClosedStep(s, e);
  }

  lemma ClosedStep(s: State, e: Step)
    requires s.closed && Enabled(s, e)
    ensures StaysClosed(s, After(s, e))
  {
  }
}
