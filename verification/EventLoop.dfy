/**
 The event loop's task queue and eventfd wakeup, under every interleaving of the loop
 thread with any number of other threads.  One step is one lock region or one atomic
 access.  Channel callbacks and tasks are arbitrary code that may queue tasks or quit.
 */
module EventLoop {
  import Runs

  type Task = nat
  type ThreadId = nat

  const EVENTFD_MAX: nat := 0xFFFF_FFFF_FFFF_FFFE

  /** `loop` calls `doPendingTasks` twice: before polling and after handling events. */
  datatype Call = BeforePoll | AfterEvents

  /** Where the loop thread is in `loop`. */
  datatype Position =
    | NotStarted
    | AtSwap(call: Call)
    | Swapped(call: Call, batch: seq<Task>)
    | InBatch(call: Call, current: seq<Task>, rest: seq<Task>)
    | AtQuitCheck(call: Call)
    | Polling
    | Handling(wakeActive: bool)
    | Exited

  /** Where the loop thread is in a `queueInLoop` of its own. */
  datatype OwnCall = NoCall | Pushed | Waking

  /** What is remembered of the first quit: how many tasks had been queued and how many
      of them had been taken, and whether the loop was past a swap, before its check. */
  datatype QuitMark = NoQuit | QuitAt(queued: nat, taken: nat, inWindow: bool)

  datatype State = State(
    pending: seq<Task>,
    quit: bool,
    calling: bool,
    eventfd: nat,
    at: Position,
    own: OwnCall,
    waking: set<ThreadId>,    // other threads between their write and their wakeup
    // history
    queued: seq<Task>,
    executed: seq<Task>,
    taken: nat,
    mark: QuitMark)

  predicate Window(p: Position) {
    p.Swapped? || p.InBatch? || p.AtQuitCheck?
  }

  /** User code runs on the loop thread: a task, a channel callback, or code before `loop`. */
  predicate UserCode(p: Position) {
    p.NotStarted? || p.Handling? || (p.InBatch? && |p.current| > 0)
  }

  function InFlight(p: Position): (tasks: seq<Task>) {
    match p
    case Swapped(_, batch) => batch
    case InBatch(_, current, rest) => current + rest
    case _ => []
  }

  function Bumped(eventfd: nat): (n: nat) {
    if eventfd < EVENTFD_MAX then eventfd + 1 else eventfd
  }

  function WithQuit(s: State): (t: State) {
    s.(quit := true,
       mark := if s.mark.NoQuit? then QuitAt(|s.queued|, s.taken, Window(s.at)) else s.mark)
  }

  function WithTask(s: State, task: Task): (t: State) {
    s.(pending := s.pending + [task], queued := s.queued + [task])
  }

  ghost predicate Init(s: State) {
    s == State([], false, false, 0, NotStarted, NoCall, {}, [], [], 0, NoQuit)
  }

  datatype Step =
    | StartLoop | Swap | SetCalling | BeginTask | EndTask | ClearCalling | CheckQuit
    | PollReturns(wakeActive: bool) | ReadEventfd | EndHandling
    | OwnPush(task: Task) | OwnDecide | OwnWake | OwnQuit
    | OtherPush(thread: ThreadId, task: Task) | OtherQuit(thread: ThreadId) | OtherWake(thread: ThreadId)

  predicate Enabled(s: State, e: Step) {
    match e
    case StartLoop => s.at.NotStarted? && s.own.NoCall?
    case Swap => s.at.AtSwap?
    case SetCalling => s.at.Swapped?
    case BeginTask => s.at.InBatch? && s.at.current == [] && |s.at.rest| > 0
    case EndTask => s.at.InBatch? && |s.at.current| > 0 && s.own.NoCall?
    case ClearCalling => s.at.InBatch? && s.at.current == [] && s.at.rest == []
    case CheckQuit => s.at.AtQuitCheck?
    case PollReturns(wakeActive) => s.at.Polling? && (wakeActive ==> s.eventfd > 0)
    case ReadEventfd => s.at.Handling? && s.at.wakeActive && s.own.NoCall?
    case EndHandling => s.at.Handling? && !s.at.wakeActive && s.own.NoCall?
    case OwnPush(_) => UserCode(s.at) && s.own.NoCall?
    case OwnDecide => s.own.Pushed?
    case OwnWake => s.own.Waking?
    case OwnQuit => UserCode(s.at) && s.own.NoCall?
    case OtherPush(thread, _) => thread !in s.waking
    case OtherQuit(thread) => thread !in s.waking
    case OtherWake(thread) => thread in s.waking
  }

  function After(s: State, e: Step): (t: State)
    requires Enabled(s, e)
  {
    match e
    case StartLoop => s.(at := AtSwap(BeforePoll))
    case Swap => s.(at := Swapped(s.at.call, s.pending), pending := [], taken := |s.queued|)
    case SetCalling => s.(at := InBatch(s.at.call, [], s.at.batch), calling := true)
    case BeginTask => s.(at := InBatch(s.at.call, [s.at.rest[0]], s.at.rest[1..]))
    case EndTask => s.(at := InBatch(s.at.call, [], s.at.rest), executed := s.executed + s.at.current)
    case ClearCalling => s.(at := AtQuitCheck(s.at.call), calling := false)
    case CheckQuit =>
      s.(at := if s.quit then Exited else if s.at.call == BeforePoll then Polling else AtSwap(BeforePoll))
    case PollReturns(wakeActive) => s.(at := Handling(wakeActive))
    case ReadEventfd => s.(at := Handling(false), eventfd := 0)
    case EndHandling => s.(at := AtSwap(AfterEvents))
    case OwnPush(task) => WithTask(s, task).(own := Pushed)
    case OwnDecide => s.(own := if s.calling then Waking else NoCall)
    case OwnWake => s.(own := NoCall, eventfd := Bumped(s.eventfd))
    case OwnQuit => WithQuit(s)
    case OtherPush(thread, task) => WithTask(s, task).(waking := s.waking + {thread})
    case OtherQuit(thread) => WithQuit(s).(waking := s.waking + {thread})
    case OtherWake(thread) => s.(waking := s.waking - {thread}, eventfd := Bumped(s.eventfd))
  }

  ghost predicate Next(s: State, t: State) {
    exists e :: Enabled(s, e) && t == After(s, e)
  }

  // ---- The invariant -----------------------------------------------------------------

  /** A wakeup has happened since the loop last drained the eventfd, or is on its way. */
  ghost predicate Armed(s: State) {
    s.eventfd > 0 || s.waking != {} || s.own.Waking? || (s.own.Pushed? && s.calling)
  }

  ghost predicate Shape(s: State) {
    && (s.calling <==> s.at.InBatch?)
    && (!s.own.NoCall? ==> UserCode(s.at))
    && (s.own.Waking? ==> s.calling)
    && (s.at.InBatch? ==> |s.at.current| <= 1)
    && (s.at.Exited? ==> s.quit)
    && (s.quit <==> s.mark.QuitAt?)
  }

  ghost predicate Fifo(s: State) {
    && s.taken <= |s.queued|
    && s.executed + InFlight(s.at) == s.queued[..s.taken]
    && s.pending == s.queued[s.taken..]
  }

  ghost predicate NothingLost(s: State) {
    && (Window(s.at) || s.at.Polling? ==> s.pending != [] ==> Armed(s))
    && (s.at.Polling? && s.quit ==> Armed(s))
  }

  ghost predicate QuitAccount(s: State) {
    match s.mark
    case NoQuit => true
    case QuitAt(queued, taken, inWindow) =>
      && taken <= queued <= |s.queued|
      && (inWindow ==> (Window(s.at) || s.at.Exited?) && s.taken == taken)
      && (!inWindow && (Window(s.at) || s.at.Exited?) ==> queued <= s.taken)
  }

  ghost predicate Inv(s: State) {
    Shape(s) && Fifo(s) && NothingLost(s) && QuitAccount(s)
  }

  lemma SameFifo(s: State, t: State)
    requires Fifo(s) && t.queued == s.queued && t.pending == s.pending && t.taken == s.taken
    requires t.executed + InFlight(t.at) == s.executed + InFlight(s.at)
    ensures Fifo(t)
  {
  }

  lemma SwapKeepsFifo(s: State)
    requires Fifo(s) && Enabled(s, Swap)
    ensures Fifo(After(s, Swap))
  {
    assert s.queued[..s.taken] + s.queued[s.taken..] == s.queued == s.queued[..|s.queued|];
    assert s.executed + [] == s.executed;
  }

  lemma PushKeepsFifo(s: State, t: State, task: Task)
    requires Fifo(s) && t.at == s.at && t.executed == s.executed && t.taken == s.taken
    requires t.queued == s.queued + [task] && t.pending == s.pending + [task]
    ensures Fifo(t)
  {
    assert t.queued[..s.taken] == s.queued[..s.taken];
    assert t.queued[s.taken..] == s.queued[s.taken..] + [task];
  }

  lemma Regroup(a: seq<Task>, b: seq<Task>, c: seq<Task>)
    ensures (a + b) + ([] + c) == a + (b + c)
  {
  }

  lemma HeadAndTail(tasks: seq<Task>)
    requires |tasks| > 0
    ensures [tasks[0]] + tasks[1..] == [] + tasks
  {
  }

  /** What is in flight keeps its order. */
  lemma MoveKeepsOrder(s: State, e: Step)
    requires Enabled(s, e) && (e.SetCalling? || e.BeginTask? || e.EndTask? || e.ClearCalling?)
    ensures var t := After(s, e); t.executed + InFlight(t.at) == s.executed + InFlight(s.at)
  {
    if e.SetCalling? {
      assert [] + s.at.batch == s.at.batch;
    } else if e.BeginTask? {
      HeadAndTail(s.at.rest);
    } else if e.EndTask? {
      Regroup(s.executed, s.at.current, s.at.rest);
    } else {
      assert s.at.current + s.at.rest == [];
    }
  }

  lemma StepKeepsFifo(s: State, e: Step)
    requires Shape(s) && Fifo(s) && Enabled(s, e)
    ensures Fifo(After(s, e))
  {
    hide Fifo;
    var t := After(s, e);
    match e {
      case Swap => SwapKeepsFifo(s);
      case OwnPush(task) => PushKeepsFifo(s, t, task);
      case OtherPush(_, task) => PushKeepsFifo(s, t, task);
      case SetCalling => MoveKeepsOrder(s, e); SameFifo(s, t);
      case BeginTask => MoveKeepsOrder(s, e); SameFifo(s, t);
      case EndTask => MoveKeepsOrder(s, e); SameFifo(s, t);
      case ClearCalling => MoveKeepsOrder(s, e); SameFifo(s, t);
      case _ => SameFifo(s, t);
    }
  }

  lemma StepKeepsShape(s: State, e: Step)
    requires Shape(s) && Enabled(s, e)
    ensures Shape(After(s, e))
  {
  }

  lemma StepKeepsNothingLost(s: State, e: Step)
    requires Shape(s) && NothingLost(s) && Enabled(s, e)
    ensures NothingLost(After(s, e))
  {
  }

  lemma StepKeepsQuitAccount(s: State, e: Step)
    requires Shape(s) && Fifo(s) && QuitAccount(s) && Enabled(s, e)
    ensures QuitAccount(After(s, e))
  {
  }

  lemma StepKeeps(s: State, e: Step)
    requires Inv(s) && Enabled(s, e)
    ensures Inv(After(s, e))
  {
    hide Shape, Fifo, NothingLost, QuitAccount, After;
    StepKeepsShape(s, e);
    StepKeepsFifo(s, e);
    StepKeepsNothingLost(s, e);
    StepKeepsQuitAccount(s, e);
  }

  // ---- Theorems over all runs -------------------------------------------------------------

  lemma RunsKeep(run: seq<State>, i: nat)
    requires Runs.IsRun(Init, Next, run) && i < |run|
    ensures Inv(run[i])
  {
    hide Inv, After;
    forall s | Init(s) ensures Inv(s) {
      InitKeeps(s);
    }
    forall s, t | Inv(s) && Next(s, t) ensures Inv(t) {
      var e :| Enabled(s, e) && t == After(s, e);
      StepKeeps(s, e);
    }
    Runs.Invariance(Init, Next, Inv, run);
  }

  lemma InitKeeps(s: State)
    requires Init(s)
    ensures Inv(s)
  {
  }

  /** No task is lost, repeated or overtaken: what was executed, what is being executed
      and what waits are, in this order, what was queued. */
  lemma QueueOrder(run: seq<State>, i: nat)
    requires Runs.IsRun(Init, Next, run) && i < |run|
    ensures run[i].executed + InFlight(run[i].at) + run[i].pending == run[i].queued
  {
    RunsKeep(run, i);
    var s := run[i];
    assert s.queued[..s.taken] + s.queued[s.taken..] == s.queued;
  }

  /** While the loop thread is at or blocked in poll, a queued task or a set quit flag
      means the eventfd is readable or another thread is about to make it so. */
  lemma NoLostWakeup(run: seq<State>, i: nat)
    requires Runs.IsRun(Init, Next, run) && i < |run|
    requires run[i].at.Polling?
    requires run[i].pending != [] || run[i].quit
    ensures run[i].eventfd > 0 || run[i].waking != {}
  {
    RunsKeep(run, i);
  }

  /** Nobody can move: the loop sleeps in poll with nothing readable and no other thread
      is inside a call. */
  ghost predicate Asleep(s: State) {
    s.at.Polling? && s.eventfd == 0 && s.waking == {}
  }

  lemma AsleepOnlyWhenIdle(run: seq<State>, i: nat)
    requires Runs.IsRun(Init, Next, run) && i < |run|
    requires Asleep(run[i])
    ensures !run[i].quit && run[i].executed == run[i].queued
  {
    RunsKeep(run, i);
    AsleepIsDone(run[i]);
  }

  // ---- The loop gets to every task --------------------------------------------------------------

  /** The loop's own steps and the wakeups that are on their way: nobody queues or quits. */
  predicate Internal(e: Step) {
    !e.OwnPush? && !e.OwnQuit? && !e.OtherPush? && !e.OtherQuit? && e != PollReturns(false)
  }

  function Rank(p: Position): (n: nat) {
    match p
    case NotStarted => 12
    case Handling(_) => 11
    case AtSwap(c) => if c == AfterEvents then 10 else 6
    case Swapped(c, _) => if c == AfterEvents then 9 else 5
    case InBatch(c, _, _) => if c == AfterEvents then 8 else 4
    case AtQuitCheck(c) => if c == AfterEvents then 7 else 3
    case _ => 0
  }

  /** What the loop still has to do before it can sleep: a round for a readable eventfd, two
      steps for each task, and a round for each wakeup to come. */
  function Work(s: State): (n: nat) {
    (if s.at == Handling(true) then 14 else Rank(s.at) + if s.eventfd > 0 then 15 else 0)
    + 2 * |s.pending|
    + (match s.at
       case Swapped(_, batch) => 2 * |batch|
       case InBatch(_, current, rest) => |current| + 2 * |rest|
       case _ => 0)
    + 20 * |s.waking|
    + (match s.own case NoCall => 0 case Waking => 20 case Pushed => 21)
  }

  lemma InternalDecreases(s: State, e: Step)
    requires Enabled(s, e) && Internal(e)
    ensures Work(After(s, e)) < Work(s)
  {
    if e.OtherWake? {
      assert s.waking == (s.waking - {e.thread}) + {e.thread};
    }
  }

  lemma LoopCanMove(s: State) returns (e: Step)
    requires Inv(s) && !s.at.Exited? && !Asleep(s)
    ensures Enabled(s, e) && Internal(e)
  {
    hide Fifo, NothingLost, QuitAccount;
    if s.waking != {} {
      var t :| t in s.waking;
      return OtherWake(t);
    }
    match s.own {
      case Pushed => return OwnDecide;
      case Waking => return OwnWake;
      case NoCall =>
    }
    match s.at {
      case NotStarted => e := StartLoop;
      case AtSwap(_) => e := Swap;
      case Swapped(_, _) => e := SetCalling;
      case InBatch(_, current, rest) => e := if |current| > 0 then EndTask else if |rest| > 0 then BeginTask else ClearCalling;
      case AtQuitCheck(_) => e := CheckQuit;
      case Polling => e := PollReturns(true);
      case Handling(wakeActive) => e := if wakeActive then ReadEventfd else EndHandling;
      case Exited => assert false;
    }
  }

  ghost predicate InternalNext(s: State, t: State) {
    exists e :: Enabled(s, e) && Internal(e) && t == After(s, e)
  }

  /** Left alone, the loop takes a bounded number of steps; and when none is left it has
      exited after a quit, or it sleeps with every queued task executed. */
  lemma {:induction false} LoopFinishesItsWork(run: seq<State>)
    requires |run| > 0 && Inv(run[0])
    requires forall i :: 0 <= i < |run| - 1 ==> InternalNext(run[i], run[i + 1])
    ensures |run| - 1 + Work(run[|run| - 1]) <= Work(run[0])
    ensures var last := run[|run| - 1];
            (forall e :: !(Enabled(last, e) && Internal(e))) ==>
              (last.at.Exited? && last.quit) || (Asleep(last) && last.executed == last.queued)
    decreases |run|
  {
    hide Inv, Enabled, After, Work;
    var s := run[0];
    if |run| == 1 {
      ExitedHasQuit(s);
      if Asleep(s) {
        AsleepIsDone(s);
      } else if !s.at.Exited? {
        var e := LoopCanMove(s);
      }
    } else {
      assert InternalNext(run[0], run[1]);
      var e :| Enabled(s, e) && Internal(e) && run[1] == After(s, e);
      StepKeeps(s, e);
      InternalDecreases(s, e);
      LoopFinishesItsWork(run[1..]);
    }
  }

  lemma ExitedHasQuit(s: State)
    requires Inv(s)
    ensures s.at.Exited? ==> s.quit
  {
  }

  lemma AsleepIsDone(s: State)
    requires Inv(s) && Asleep(s)
    ensures !s.quit && s.executed == s.queued
  {
    assert s.queued[..s.taken] + s.queued[s.taken..] == s.queued;
    assert s.executed + [] == s.executed;
  }

  /** When the loop has exited, the tasks queued before the first quit have all run if and
      only if quit did not come between a swap and its check with tasks waiting. */
  lemma ExitAccount(run: seq<State>, i: nat)
    requires Runs.IsRun(Init, Next, run) && i < |run|
    requires run[i].at.Exited?
    ensures run[i].mark.QuitAt? && run[i].mark.queued <= |run[i].queued|
    ensures var m := run[i].mark;
            run[i].queued[..m.queued] <= run[i].executed <==> !m.inWindow || m.taken == m.queued
  {
    RunsKeep(run, i);
    var s := run[i];
    assert s.executed + [] == s.executed == s.queued[..s.taken];
    if s.mark.queued <= s.taken {
      assert s.queued[..s.taken][..s.mark.queued] == s.queued[..s.mark.queued];
    }
  }

  /** The unconditional claim is false: a task queued before quit can be left behind. */
  lemma TaskLeftBehind() returns (run: seq<State>)
    ensures Runs.IsRun(Init, Next, run)
    ensures |run| == 8 && run[5].pending == [7] && !run[5].quit
    ensures run[7].at.Exited? && run[7].executed == [] && run[7].queued == [7]
  {
    run := [State([], false, false, 0, NotStarted, NoCall, {}, [], [], 0, NoQuit)];
    assert Runs.IsRun(Init, Next, run);
    hide Runs.IsRun, Next;
    run := Taking(run, StartLoop);
    run := Taking(run, Swap);
    run := Taking(run, SetCalling);
    run := Taking(run, ClearCalling);
    assert run[4] == State([], false, false, 0, AtQuitCheck(BeforePoll), NoCall, {}, [], [], 0, NoQuit);
    run := Taking(run, OtherPush(1, 7));
    run := Taking(run, OtherQuit(2));
    run := Taking(run, CheckQuit);
  }

  lemma Taking(run: seq<State>, e: Step) returns (longer: seq<State>)
    requires Runs.IsRun(Init, Next, run) && Enabled(run[|run| - 1], e)
    ensures Runs.IsRun(Init, Next, longer)
    ensures longer == run + [After(run[|run| - 1], e)]
  {
    longer := run + [After(run[|run| - 1], e)];
    Runs.Extend(Init, Next, run, After(run[|run| - 1], e));
  }
}
