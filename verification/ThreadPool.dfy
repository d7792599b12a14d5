/**
 The business thread pool under every interleaving: a bounded queue, a condition
 variable with spurious wakeups, workers, and a stop that drains.  One step is one
 lock region, one notification, or the end of a task.
 */
module ThreadPool {
  import opened Base
  import Runs

  type Task = nat
  type WorkerId = nat
  type ThreadId = nat

  /** Who calls `submit` or `stop`: an outside thread, or a worker from inside its task. */
  datatype Caller = Outside(thread: ThreadId) | Worker(worker: WorkerId)

  /** Where an outside `stop` is after its notify_all. */
  datatype StopPosition = WantsMutex | AtCheck | Joining | Clearing

  datatype State = State(
    limit: nat,                      // 0 means unbounded
    accepting: bool,                 // running_
    tasks: seq<Task>,
    workers: set<WorkerId>,          // workers_
    ready: set<WorkerId>,            // about to take the lock and test the predicate
    waiting: set<WorkerId>,          // asleep in the condition variable, not notified
    busy: map<WorkerId, nat>,        // running the task with this submission number
    exited: set<WorkerId>,
    signalling: set<Caller>,         // between push_back and notify_one
    notifying: set<Caller>,          // in stop, between clearing running_ and notify_all
    stopping: map<ThreadId, StopPosition>,
    stopMutex: Option<ThreadId>,
    // history
    accepted: seq<Task>,
    started: nat,
    finished: set<nat>)

  ghost predicate Init(s: State) {
    s == State(s.limit, false, [], {}, {}, {}, map[], {}, {}, {}, map[], None, [], 0, {})
  }

  predicate Idle(s: State, c: Caller) {
    && c !in s.signalling && c !in s.notifying
    && match c
       case Outside(t) => t !in s.stopping
       case Worker(w) => w in s.busy
  }

  datatype Step =
    | Start(ids: set<WorkerId>)
    | Submit(caller: Caller, task: Task)
    | NotifyOne(caller: Caller, woken: Option<WorkerId>)
    | Sleep(worker: WorkerId) | Exit(worker: WorkerId) | Take(worker: WorkerId)
    | Spurious(worker: WorkerId)
    | Finish(worker: WorkerId)
    | StopBegins(caller: Caller)
    | StopNotifies(caller: Caller)
    | StopLocks(thread: ThreadId)
    | StopFindsEmpty(thread: ThreadId) | StopFindsWorkers(thread: ThreadId)
    | StopJoined(thread: ThreadId)
    | StopClears(thread: ThreadId)

  /** `submit` accepts: the pool runs and the queue is below a positive limit. */
  predicate Accepts(s: State) {
    s.accepting && (s.limit > 0 ==> |s.tasks| < s.limit)
  }

  predicate Enabled(s: State, e: Step) {
    match e
    case Start(ids) => !s.accepting && s.workers == {} && ids != {}
    case Submit(caller, _) => Idle(s, caller) && Accepts(s)
    case NotifyOne(caller, woken) =>
      && caller in s.signalling
      && (woken.None? ==> s.waiting == {})
      && (woken.Some? ==> woken.value in s.waiting)
    case Sleep(w) => w in s.ready && s.accepting && s.tasks == []
    case Exit(w) => w in s.ready && !s.accepting && s.tasks == []
    case Take(w) => w in s.ready && |s.tasks| > 0
    case Spurious(w) => w in s.waiting
    case Finish(w) => w in s.busy && Idle(s, Worker(w))
    case StopBegins(caller) => Idle(s, caller) && (s.accepting || s.workers != {})
    case StopNotifies(caller) => caller in s.notifying
    case StopLocks(t) => t in s.stopping && s.stopping[t] == WantsMutex && s.stopMutex.None?
    case StopFindsEmpty(t) => t in s.stopping && s.stopping[t] == AtCheck && s.workers == {}
    case StopFindsWorkers(t) => t in s.stopping && s.stopping[t] == AtCheck && s.workers != {}
    case StopJoined(t) => t in s.stopping && s.stopping[t] == Joining && s.workers == s.exited
    case StopClears(t) => t in s.stopping && s.stopping[t] == Clearing
  }

  function After(s: State, e: Step): (t: State)
    requires Enabled(s, e)
  {
    match e
    case Start(ids) => s.(accepting := true, workers := ids, ready := ids)
    case Submit(caller, task) =>
      s.(tasks := s.tasks + [task], accepted := s.accepted + [task], signalling := s.signalling + {caller})
    case NotifyOne(caller, woken) =>
      var u := s.(signalling := s.signalling - {caller});
      if woken.None? then u
      else u.(waiting := s.waiting - {woken.value}, ready := s.ready + {woken.value})
    case Sleep(w) => s.(ready := s.ready - {w}, waiting := s.waiting + {w})
    case Exit(w) => s.(ready := s.ready - {w}, exited := s.exited + {w})
    case Take(w) =>
      s.(ready := s.ready - {w}, busy := s.busy[w := s.started], tasks := s.tasks[1..], started := s.started + 1)
    case Spurious(w) => s.(waiting := s.waiting - {w}, ready := s.ready + {w})
    case Finish(w) => s.(busy := s.busy - {w}, ready := s.ready + {w}, finished := s.finished + {s.busy[w]})
    case StopBegins(caller) => s.(accepting := false, notifying := s.notifying + {caller})
    case StopNotifies(caller) =>
      var u := s.(notifying := s.notifying - {caller}, waiting := {}, ready := s.ready + s.waiting);
      if caller.Worker? then u else u.(stopping := s.stopping[caller.thread := WantsMutex])
    case StopLocks(t) => s.(stopMutex := Some(t), stopping := s.stopping[t := AtCheck])
    case StopFindsEmpty(t) => s.(stopMutex := None, stopping := s.stopping - {t})
    case StopFindsWorkers(t) => s.(stopping := s.stopping[t := Joining])
    case StopJoined(t) => s.(stopping := s.stopping[t := Clearing])
    case StopClears(t) => s.(workers := {}, exited := {}, stopMutex := None, stopping := s.stopping - {t})
  }

  ghost predicate Next(s: State, t: State) {
    exists e :: Enabled(s, e) && t == After(s, e)
  }

  // ---- The invariant --------------------------------------------------------------------

  ghost predicate Partition(s: State) {
    && s.workers == s.ready + s.waiting + s.busy.Keys + s.exited
    && s.ready !! s.waiting !! s.busy.Keys !! s.exited
    && (s.exited != {} || s.workers == {} ==> !s.accepting && s.tasks == [])
  }

  /** Whoever sleeps un-notified is covered: queued tasks by notifications on their way
      or workers about to look, a stop by its notify_all on its way. */
  ghost predicate NoneStranded(s: State) {
    && (s.waiting != {} ==> |s.tasks| <= |s.signalling| + |s.ready|)
    && (s.waiting != {} && !s.accepting ==> s.notifying != {})
  }

  ghost predicate Account(s: State) {
    && s.started <= |s.accepted|
    && s.tasks == s.accepted[s.started..]
    && (s.limit > 0 ==> |s.tasks| <= s.limit)
    && (forall w :: w in s.busy ==> s.busy[w] < s.started && s.busy[w] !in s.finished)
    && (forall v, w :: v in s.busy && w in s.busy && s.busy[v] == s.busy[w] ==> v == w)
    && (forall k :: k in s.finished ==> k < s.started)
    && (forall k: nat :: k < s.started && k !in s.finished ==> InProgress(s, k))
  }

  ghost predicate InProgress(s: State, k: nat) {
    exists w :: w in s.busy && s.busy[w] == k
  }

  ghost predicate Calls(s: State) {
    && s.signalling !! s.notifying
    && (forall w :: Worker(w) in s.signalling + s.notifying ==> w in s.busy)
    && (forall t :: t in s.stopping ==> Outside(t) !in s.notifying && Outside(t) !in s.signalling)
    && (forall t :: t in s.stopping ==> (s.stopMutex == Some(t) <==> s.stopping[t] != WantsMutex))
    && (s.stopMutex.Some? ==> s.stopMutex.value in s.stopping)
    && (forall t :: t in s.stopping && s.stopping[t] == Joining ==> s.workers != {})
    && (forall t :: t in s.stopping && s.stopping[t] == Clearing ==> s.workers == s.exited != {})
  }

  ghost predicate Inv(s: State) {
    Partition(s) && NoneStranded(s) && Account(s) && Calls(s)
  }

  lemma StepKeepsPartition(s: State, e: Step)
    requires Partition(s) && Calls(s) && Enabled(s, e)
    ensures Partition(After(s, e))
  {
  }

  predicate WorkerStep(e: Step) {
    e.Sleep? || e.Exit? || e.Take? || e.Spurious? || e.Finish?
  }

  lemma WorkerStepKeepsCover(s: State, e: Step)
    requires Partition(s) && NoneStranded(s) && Enabled(s, e) && WorkerStep(e)
    ensures NoneStranded(After(s, e))
  {
    var t := After(s, e);
    match e {
      case Take(w) => assert |t.ready| == |s.ready| - 1;
      case Spurious(w) => assert |t.ready| == |s.ready| + 1;
      case Finish(w) => assert |t.ready| == |s.ready| + 1;
      case _ =>
    }
  }

  lemma NotifyKeepsCover(s: State, caller: Caller, woken: Option<WorkerId>)
    requires Partition(s) && NoneStranded(s) && Enabled(s, NotifyOne(caller, woken))
    ensures NoneStranded(After(s, NotifyOne(caller, woken)))
  {
    var t := After(s, NotifyOne(caller, woken));
    assert |t.signalling| == |s.signalling| - 1;
    if woken.Some? {
      assert |t.ready| == |s.ready| + 1;
    }
  }

  lemma SubmitKeepsCover(s: State, caller: Caller, task: Task)
    requires NoneStranded(s) && Enabled(s, Submit(caller, task))
    ensures NoneStranded(After(s, Submit(caller, task)))
  {
    assert |s.signalling + {caller}| == |s.signalling| + 1;
  }

  lemma CallKeepsCover(s: State, t: State)
    requires NoneStranded(s)
    requires t.waiting != {} ==>
               && t.waiting == s.waiting && t.ready == s.ready
               && t.tasks == s.tasks && t.signalling == s.signalling
               && (!t.accepting ==> !s.accepting || t.notifying != {})
               && s.notifying <= t.notifying
    ensures NoneStranded(t)
  {
  }

  /** The steps of an outside stop after its notify_all. */
  predicate LateStopStep(e: Step) {
    e.StopLocks? || e.StopFindsEmpty? || e.StopFindsWorkers? || e.StopJoined? || e.StopClears?
  }

  lemma LateStopFrame(s: State, e: Step)
    requires Enabled(s, e) && LateStopStep(e)
    ensures var t := After(s, e);
            && t.waiting == s.waiting && t.ready == s.ready && t.busy == s.busy
            && t.tasks == s.tasks && t.accepting == s.accepting && t.limit == s.limit
            && t.signalling == s.signalling && t.notifying == s.notifying
            && t.accepted == s.accepted && t.started == s.started && t.finished == s.finished
  {
  }

  lemma StepKeepsCover(s: State, e: Step)
    requires Partition(s) && NoneStranded(s) && Enabled(s, e)
    ensures NoneStranded(After(s, e))
  {
    hide NoneStranded, Partition;
    if WorkerStep(e) {
      hide After;
      WorkerStepKeepsCover(s, e);
    } else if LateStopStep(e) {
      hide After;
      LateStopFrame(s, e);
      CallKeepsCover(s, After(s, e));
    } else {
      match e {
        case NotifyOne(caller, woken) => NotifyKeepsCover(s, caller, woken);
        case Submit(caller, task) => SubmitKeepsCover(s, caller, task);
        case Start(ids) => StartKeepsCover(s, ids);
        case StopBegins(caller) => CallKeepsCover(s, After(s, e));
        case StopNotifies(caller) => CallKeepsCover(s, After(s, e));
      }
    }
  }

  lemma StartKeepsCover(s: State, ids: set<WorkerId>)
    requires Partition(s) && Enabled(s, Start(ids))
    ensures NoneStranded(After(s, Start(ids)))
  {
  }

  lemma TakeKeepsAccount(s: State, w: WorkerId)
    requires Account(s) && Enabled(s, Take(w)) && w !in s.busy
    ensures Account(After(s, Take(w)))
  {
    var t := After(s, Take(w));
    assert t.tasks == t.accepted[t.started..];
    assert forall v :: v in t.busy && v != w ==> v in s.busy && t.busy[v] == s.busy[v];
    forall k: nat | k < t.started && k !in t.finished ensures InProgress(t, k) {
      if k == s.started {
        assert t.busy[w] == k;
      } else {
        assert InProgress(s, k);
        var v :| v in s.busy && s.busy[v] == k;
        assert v in t.busy && t.busy[v] == k;
      }
    }
  }

  lemma FinishKeepsAccount(s: State, w: WorkerId)
    requires Partition(s) && Account(s) && Enabled(s, Finish(w))
    ensures Account(After(s, Finish(w)))
  {
    var t := After(s, Finish(w));
    forall k: nat | k < t.started && k !in t.finished ensures InProgress(t, k) {
      assert InProgress(s, k);
      var v :| v in s.busy && s.busy[v] == k;
      assert v in t.busy && t.busy[v] == k;
    }
  }

  lemma StepKeepsAccount(s: State, e: Step)
    requires Partition(s) && Account(s) && Enabled(s, e)
    ensures Account(After(s, e))
  {
    hide Account, Partition;
    if e.Take? {
      Apart(s);
      TakeKeepsAccount(s, e.worker);
    } else if e.Finish? {
      FinishKeepsAccount(s, e.worker);
    } else if LateStopStep(e) {
      hide After;
      LateStopFrame(s, e);
      SameAccount(s, After(s, e));
    } else {
      SameAccount(s, After(s, e));
    }
  }

  lemma SameAccount(s: State, t: State)
    requires Account(s)
    requires t.busy == s.busy && t.started == s.started && t.finished == s.finished && t.limit == s.limit
    requires (t.tasks == s.tasks && t.accepted == s.accepted)
          || (Accepts(s) && |t.accepted| > 0 && t.accepted == s.accepted + [t.accepted[|t.accepted| - 1]]
              && t.tasks == s.tasks + [t.accepted[|t.accepted| - 1]])
    ensures Account(t)
  {
    assert forall k: nat :: InProgress(s, k) ==> InProgress(t, k);
  }

  lemma WorkerStepKeepsCalls(s: State, e: Step)
    requires Partition(s) && Calls(s) && Enabled(s, e) && WorkerStep(e)
    ensures Calls(After(s, e))
  {
  }

  lemma LateStopStepKeepsCalls(s: State, e: Step)
    requires Partition(s) && Calls(s) && Enabled(s, e) && LateStopStep(e)
    ensures Calls(After(s, e))
  {
  }

  lemma CallStepKeepsCalls(s: State, e: Step)
    requires Partition(s) && Calls(s) && Enabled(s, e) && !WorkerStep(e) && !LateStopStep(e)
    ensures Calls(After(s, e))
  {
  }

  lemma StepKeepsCalls(s: State, e: Step)
    requires Partition(s) && Calls(s) && Enabled(s, e)
    ensures Calls(After(s, e))
  {
    hide Partition, Calls, Enabled, After;
    if WorkerStep(e) {
      WorkerStepKeepsCalls(s, e);
    } else if LateStopStep(e) {
      LateStopStepKeepsCalls(s, e);
    } else {
      CallStepKeepsCalls(s, e);
    }
  }

  lemma StepKeeps(s: State, e: Step)
    requires Inv(s) && Enabled(s, e)
    ensures Inv(After(s, e))
  {
    hide Partition, NoneStranded, Account, Calls, After;
    StepKeepsPartition(s, e);
    StepKeepsCover(s, e);
    StepKeepsAccount(s, e);
    StepKeepsCalls(s, e);
  }

  lemma InitKeeps(s: State)
    requires Init(s)
    ensures Inv(s)
  {
  }

  // ---- Theorems over all runs -----------------------------------------------------------

  lemma RunsKeep(run: seq<State>, i: nat)
    requires Runs.IsRun(Init, Next, run) && i < |run|
    ensures Inv(run[i])
  {
    hide Inv, After;
    forall s | Init(s) ensures Inv(s) {
      InitKeeps(s);
    }
    forall s, t | Inv(s) && Next(s, t) ensures Inv(t) {
      var e :| Enabled(s, e) && t == After(s, e);
      StepKeeps(s, e);
    }
    Runs.Invariance(Init, Next, Inv, run);
  }

  /** Accepted tasks leave the queue in order, and each one that left is either finished
      or being run by exactly one worker; a positive limit bounds the queue. */
  lemma TasksConserved(run: seq<State>, i: nat)
    requires Runs.IsRun(Init, Next, run) && i < |run|
    ensures var s := run[i];
            && s.started <= |s.accepted| && s.tasks == s.accepted[s.started..]
            && (s.limit > 0 ==> |s.tasks| <= s.limit)
            && (forall k: nat :: k in s.finished || InProgress(s, k) <==> k < s.started)
            && (forall k: nat :: !(k in s.finished && InProgress(s, k)))
            && (forall v, w :: v in s.busy && w in s.busy && s.busy[v] == s.busy[w] ==> v == w)
  {
    RunsKeep(run, i);
  }

  /** A running pool takes a task exactly while its queue is below the limit, always when the
      limit is 0; it refuses only with a queue that is exactly full.  The task goes last. */
  lemma RunningPoolAccepts(run: seq<State>, i: nat, caller: Caller, task: Task)
    requires Runs.IsRun(Init, Next, run) && i < |run| && Idle(run[i], caller)
    ensures var s := run[i];
            && (Enabled(s, Submit(caller, task)) <==> s.accepting && (s.limit == 0 || |s.tasks| < s.limit))
            && (s.accepting && !Enabled(s, Submit(caller, task)) ==> |s.tasks| == s.limit)
            && (Enabled(s, Submit(caller, task)) ==>
                  && After(s, Submit(caller, task)).tasks == s.tasks + [task]
                  && After(s, Submit(caller, task)).accepted == s.accepted + [task])
  {
    hide Init, Next, Idle, Partition, NoneStranded, Calls;
    RunsKeep(run, i);
  }

  /** If a worker sleeps un-notified, the queued tasks are covered one by one by
      notifications in flight and workers about to look; so a queued task is never stranded. */
  lemma NoStrandedTask(run: seq<State>, i: nat)
    requires Runs.IsRun(Init, Next, run) && i < |run|
    ensures run[i].waiting != {} ==> |run[i].tasks| <= |run[i].signalling| + |run[i].ready|
    ensures run[i].tasks != [] ==>
              run[i].signalling != {} || run[i].ready != {} || run[i].busy.Keys != {}
  {
    RunsKeep(run, i);
  }

  ghost predicate AllFinished(s: State) {
    s.tasks == [] && s.busy == map[] && forall k: nat :: k < |s.accepted| <==> k in s.finished
  }

  lemma NoWorkersLeft(s: State)
    requires Inv(s) && s.workers == s.exited
    ensures AllFinished(s)
  {
    assert s.tasks == [];
    assert s.busy.Keys == {};
    assert s.started == |s.accepted|;
    assert forall k: nat :: !InProgress(s, k);
  }

  /** A `stop` called from outside the workers returns only when every accepted task has
      finished, on each of its three return paths. */
  lemma StopReturnsDrained(run: seq<State>, i: nat, t: ThreadId)
    requires Runs.IsRun(Init, Next, run) && i < |run|
    ensures !run[i].accepting && run[i].workers == {} ==> AllFinished(run[i])
    ensures Enabled(run[i], StopFindsEmpty(t)) ==> AllFinished(After(run[i], StopFindsEmpty(t)))
    ensures Enabled(run[i], StopClears(t)) ==> AllFinished(After(run[i], StopClears(t)))
  {
    RunsKeep(run, i);
    DrainedWhenStopReturns(run[i], t);
  }

  lemma DrainedWhenStopReturns(s: State, t: ThreadId)
    requires Inv(s)
    ensures !s.accepting && s.workers == {} ==> AllFinished(s)
    ensures Enabled(s, StopFindsEmpty(t)) ==> AllFinished(After(s, StopFindsEmpty(t)))
    ensures Enabled(s, StopClears(t)) ==> AllFinished(After(s, StopClears(t)))
  {
    hide Inv, AllFinished;
    if s.workers == {} || Enabled(s, StopClears(t)) {
      AllExited(s, t);
      NoWorkersLeft(s);
    }
    if Enabled(s, StopFindsEmpty(t)) {
      StillFinished(s, After(s, StopFindsEmpty(t)));
    }
    if Enabled(s, StopClears(t)) {
      StillFinished(s, After(s, StopClears(t)));
    }
  }

  lemma AllExited(s: State, t: ThreadId)
    requires Inv(s) && (s.workers == {} || Enabled(s, StopClears(t)))
    ensures s.workers == s.exited
  {
  }

  lemma StillFinished(s: State, t: State)
    requires AllFinished(s)
    requires t.tasks == s.tasks && t.busy == s.busy && t.accepted == s.accepted && t.finished == s.finished
    ensures AllFinished(t)
  {
  }

  // ---- Draining terminates -----------------------------------------------------------------

  /** Steps that are not the start of a new call. */
  predicate Internal(e: Step) {
    WorkerStep(e) || e.NotifyOne? || e.StopNotifies?
  }

  ghost function Work(s: State): (n: nat) {
    3 * |s.tasks| + 2 * |s.busy.Keys| + 2 * |s.waiting| + |s.ready| + |s.signalling| + |s.notifying|
  }

  lemma CardinalityPlus<T>(a: set<T>, x: T)
    requires x !in a
    ensures |a + {x}| == |a| + 1
  {
  }

  lemma CardinalityMinus<T>(a: set<T>, x: T)
    requires x in a
    ensures |a - {x}| == |a| - 1
  {
  }

  lemma TakeUsesWork(s: State, w: WorkerId)
    requires w !in s.busy && Enabled(s, Take(w))
    ensures Work(After(s, Take(w))) < Work(s)
  {
    CardinalityMinus(s.ready, w);
    CardinalityPlus(s.busy.Keys, w);
    KeysOfUpdate(s.busy, w, s.started);
  }

  lemma KeysOfUpdate<K, V>(m: map<K, V>, k: K, v: V)
    ensures m[k := v].Keys == m.Keys + {k}
  {
  }

  lemma LookUsesWork(s: State, w: WorkerId)
    ensures Enabled(s, Exit(w)) ==> Work(After(s, Exit(w))) < Work(s)
    ensures Enabled(s, Spurious(w)) && w !in s.ready ==> Work(After(s, Spurious(w))) < Work(s)
  {
    if w in s.ready {
      CardinalityMinus(s.ready, w);
    } else if w in s.waiting {
      CardinalityPlus(s.ready, w);
      CardinalityMinus(s.waiting, w);
    }
  }

  lemma FinishUsesWork(s: State, w: WorkerId)
    requires w !in s.ready && Enabled(s, Finish(w))
    ensures Work(After(s, Finish(w))) < Work(s)
  {
    CardinalityPlus(s.ready, w);
    CardinalityMinus(s.busy.Keys, w);
    assert (s.busy - {w}).Keys == s.busy.Keys - {w};
  }

  lemma NotifyUsesWork(s: State, c: Caller, woken: Option<WorkerId>)
    requires s.waiting !! s.ready && Enabled(s, NotifyOne(c, woken))
    ensures Work(After(s, NotifyOne(c, woken))) < Work(s)
  {
    CardinalityMinus(s.signalling, c);
    if woken.Some? {
      CardinalityPlus(s.ready, woken.value);
      CardinalityMinus(s.waiting, woken.value);
    }
  }

  lemma StopNotifyUsesWork(s: State, c: Caller)
    requires s.waiting !! s.ready && Enabled(s, StopNotifies(c))
    ensures Work(After(s, StopNotifies(c))) < Work(s)
  {
    CardinalityMinus(s.notifying, c);
    assert |s.ready + s.waiting| == |s.ready| + |s.waiting|;
  }

  lemma StillStopped(s: State, e: Step)
    requires !s.accepting && Enabled(s, e) && Internal(e)
    ensures !After(s, e).accepting
  {
  }

  lemma Apart(s: State)
    requires Partition(s)
    ensures s.ready !! s.waiting && s.ready !! s.busy.Keys
  {
  }

  /** After stop has cleared the flag, every step of a worker or a notifier uses up work ... */
  lemma DrainingDecreases(s: State, e: Step)
    requires Inv(s) && !s.accepting && Enabled(s, e) && Internal(e)
    ensures !After(s, e).accepting
    ensures Work(After(s, e)) < Work(s)
  {
    hide Partition, NoneStranded, Account, Calls, After, Work;
    Apart(s);
    StillStopped(s, e);
    match e {
      case Take(w) => TakeUsesWork(s, w);
      case Finish(w) => FinishUsesWork(s, w);
      case Exit(w) => LookUsesWork(s, w);
      case Spurious(w) => LookUsesWork(s, w);
      case NotifyOne(c, woken) => NotifyUsesWork(s, c, woken);
      case StopNotifies(c) => StopNotifyUsesWork(s, c);
      case _ =>
    }
  }

  /** ... and until all workers have exited one of them can move. */
  lemma DrainingContinues(s: State) returns (e: Step)
    requires Inv(s) && !s.accepting && s.workers != s.exited
    ensures Enabled(s, e) && Internal(e)
  {
    if s.notifying != {} {
      var c :| c in s.notifying;
      e := StopNotifies(c);
    } else if s.signalling != {} {
      var c :| c in s.signalling;
      e := NotifyOne(c, None);
    } else if s.ready != {} {
      var w :| w in s.ready;
      e := if s.tasks == [] then Exit(w) else Take(w);
    } else {
      assert s.busy.Keys != {};
      var w :| w in s.busy.Keys;
      e := Finish(w);
    }
  }

  lemma WorkHasAWorker(s: State)
    requires Inv(s) && s.tasks != []
    ensures s.signalling != {} || s.ready != {} || s.busy.Keys != {}
  {
    hide Account, Calls;
  }

  /** While tasks are queued, a worker or a notifier can move. */
  lemma QueuedWorkContinues(s: State) returns (e: Step)
    requires Inv(s) && s.tasks != []
    ensures Enabled(s, e) && (e.Take? || e.Finish? || e.NotifyOne? || e.StopNotifies?)
  {
    hide Inv;
    WorkHasAWorker(s);
    if s.notifying != {} {
      var c :| c in s.notifying;
      e := StopNotifies(c);
    } else if s.signalling != {} {
      var c :| c in s.signalling;
      if s.waiting == {} {
        e := NotifyOne(c, None);
      } else {
        var w :| w in s.waiting;
        e := NotifyOne(c, Some(w));
      }
    } else if s.ready != {} {
      var w :| w in s.ready;
      e := Take(w);
    } else {
      var w :| w in s.busy.Keys;
      e := Finish(w);
    }
  }

  ghost predicate InternalNext(s: State, t: State) {
    exists e :: Enabled(s, e) && Internal(e) && t == After(s, e)
  }

  /** So a stopped pool drains: its workers and notifiers can take only boundedly many
      steps, and when none of them can move any more every accepted task has finished. */
  lemma {:induction false} DrainEnds(run: seq<State>)
    requires |run| > 0 && Inv(run[0]) && !run[0].accepting
    requires forall i :: 0 <= i < |run| - 1 ==> InternalNext(run[i], run[i + 1])
    ensures |run| - 1 + Work(run[|run| - 1]) <= Work(run[0])
    ensures (forall e :: !(Enabled(run[|run| - 1], e) && Internal(e))) ==> AllFinished(run[|run| - 1])
    decreases |run|
  {
    hide Inv, After, Work, AllFinished;
    var s := run[0];
    if |run| == 1 {
      if s.workers == s.exited {
        NoWorkersLeft(s);
      } else {
        var e := DrainingContinues(s);
      }
    } else {
      assert InternalNext(run[0], run[1]);
      var e :| Enabled(s, e) && Internal(e) && run[1] == After(s, e);
      StepKeeps(s, e);
      DrainingDecreases(s, e);
      DrainEnds(run[1..]);
    }
  }
}
