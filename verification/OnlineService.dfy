/**
 Binding and unbinding across the maps and Redis, with any number of calls interleaved: one
 step is one lock region of the session manager or one cache call, which may fail.
 */
module OnlineService {
  import opened Base
  import opened Records
  import opened SessionManager
  import Runs

  datatype BindAt = BindChecks | BindWritesCache | BindWritesMaps | BindRollsBack | BindReturns

  datatype UnbindAt = Finds | Removes(user: UserId) | WritesOffline(user: UserId) | UnbindReturns

  datatype Call =
    | Bind(user: UserId, session: SessionRef, bindAt: BindAt)
    | Unbind(sessionId: SessionId, unbindAt: UnbindAt)

  /** `redis`: the session number stored under each user's online key. */
  datatype State = State(maps: Bindings, redis: map<UserId, SessionId>, calls: map<nat, Call>)

  datatype Step =
    | BeginBind(c: nat, user: UserId, session: SessionRef)
    | CheckBound(c: nat, alive: bool)
    | SetOnline(c: nat, ok: bool)
    | BindMaps(c: nat, closed: bool)
    | RollBack(c: nat, ok: bool)
    | BeginUnbind(c: nat, sessionId: SessionId)
    | FindBound(c: nat)
    | Remove(c: nat)
    | SetOffline(c: nat, ok: bool)
    | LookUpUser(user: UserId, alive: bool)
    | LookUpSession(sessionId: SessionId, alive: bool)

  predicate Binds(s: State, c: nat, at: BindAt) {
    c in s.calls && s.calls[c].Bind? && s.calls[c].bindAt == at
  }

  predicate Unbinds(s: State, c: nat) {
    c in s.calls && s.calls[c].Unbind?
  }

  predicate Enabled(s: State, e: Step) {
    match e
    case BeginBind(c, user, session) => c !in s.calls && user != 0 && session.id != 0
    case CheckBound(c, _) => Binds(s, c, BindChecks)
    case SetOnline(c, _) => Binds(s, c, BindWritesCache)
    case BindMaps(c, _) => Binds(s, c, BindWritesMaps)
    case RollBack(c, _) => Binds(s, c, BindRollsBack)
    case BeginUnbind(c, sessionId) => c !in s.calls && sessionId != 0
    case FindBound(c) => Unbinds(s, c) && s.calls[c].unbindAt.Finds?
    case Remove(c) => Unbinds(s, c) && s.calls[c].unbindAt.Removes?
    case SetOffline(c, _) => Unbinds(s, c) && s.calls[c].unbindAt.WritesOffline?
    case LookUpUser(user, _) => user in s.maps.users
    case LookUpSession(sessionId, _) => sessionId in s.maps.sessions
  }

  function MoveBind(s: State, c: nat, at: BindAt): (t: State)
    requires c in s.calls && s.calls[c].Bind?
  {
    s.(calls := s.calls[c := s.calls[c].(bindAt := at)])
  }

  function MoveUnbind(s: State, c: nat, at: UnbindAt): (t: State)
    requires c in s.calls && s.calls[c].Unbind?
  {
    s.(calls := s.calls[c := s.calls[c].(unbindAt := at)])
  }

  /** A look-up that meets a dead session removes its binding. */
  function Looked(s: State, user: UserId, sessionId: SessionId, alive: bool): (t: State) {
    if alive then s else s.(maps := Unbound(s.maps, user, sessionId))
  }

  function AfterCheck(s: State, c: nat, alive: bool): (t: State)
    requires Binds(s, c, BindChecks)
  {
    var call := s.calls[c];
    var id := call.session.id;
    if id !in s.maps.sessions then MoveBind(s, c, BindWritesCache)
    else if alive && s.maps.sessions[id] != call.user then MoveBind(s, c, BindReturns)
    else MoveBind(Looked(s, s.maps.sessions[id], id, alive), c, BindWritesCache)
  }

  function AfterBindMaps(s: State, c: nat, closed: bool): (t: State)
    requires Binds(s, c, BindWritesMaps)
  {
    var call := s.calls[c];
    var bound := Binding(s.maps, call.user, call.session);
    if closed || bound.Failure? then MoveBind(s, c, BindRollsBack)
    else MoveBind(s.(maps := bound.value), c, BindReturns)
  }

  function AfterRemove(s: State, c: nat): (t: State)
    requires Unbinds(s, c) && s.calls[c].unbindAt.Removes?
  {
    var call := s.calls[c];
    var user := call.unbindAt.user;
    if IsBound(s.maps, user, call.sessionId) then
      MoveUnbind(s.(maps := Unbound(s.maps, user, call.sessionId)), c, WritesOffline(user))
    else MoveUnbind(s, c, UnbindReturns)
  }

  function After(s: State, e: Step): (t: State)
    requires Enabled(s, e)
  {
    match e
    case BeginBind(c, user, session) => s.(calls := s.calls[c := Bind(user, session, BindChecks)])
    case CheckBound(c, alive) => AfterCheck(s, c, alive)
    case SetOnline(c, ok) =>
      if ok then
        MoveBind(s.(redis := s.redis[s.calls[c].user := s.calls[c].session.id]), c, BindWritesMaps)
      else MoveBind(s, c, BindReturns)
    case BindMaps(c, closed) => AfterBindMaps(s, c, closed)
    case RollBack(c, ok) =>
      MoveBind(if ok then s.(redis := s.redis - {s.calls[c].user}) else s, c, BindReturns)
    case BeginUnbind(c, sessionId) => s.(calls := s.calls[c := Unbind(sessionId, Finds)])
    case FindBound(c) =>
      if s.calls[c].sessionId in s.maps.sessions then MoveUnbind(s, c, Removes(s.maps.sessions[s.calls[c].sessionId]))
      else MoveUnbind(s, c, UnbindReturns)
    case Remove(c) => AfterRemove(s, c)
    case SetOffline(c, ok) =>
      MoveUnbind(if ok then s.(redis := s.redis - {s.calls[c].unbindAt.user}) else s, c, UnbindReturns)
    case LookUpUser(user, alive) => Looked(s, user, s.maps.users[user].id, alive)
    case LookUpSession(sessionId, alive) => Looked(s, s.maps.sessions[sessionId], sessionId, alive)
  }

  ghost predicate Init(s: State) {
    s == State(Bindings(map[], map[]), map[], map[])
  }

  ghost predicate Next(s: State, t: State) {
    exists e :: Enabled(s, e) && t == After(s, e)
  }

  // ---- What every run keeps ------------------------------------------------------------------

  ghost predicate Inv(s: State) {
    Inverse(s.maps)
  }

  lemma StepKeeps(s: State, e: Step)
    requires Inv(s) && Enabled(s, e)
    ensures Inv(After(s, e))
  {
    hide Inverse, Binding, Unbound;
    forall user, id ensures Inverse(Unbound(s.maps, user, id)) {
      UnboundKeeps(s.maps, user, id);
    }
    if e.BindMaps? && Binding(s.maps, s.calls[e.c].user, s.calls[e.c].session).Success? {
      BindingKeeps(s.maps, s.calls[e.c].user, s.calls[e.c].session);
    }
  }

  /** The maps are inverse in every state of every run, so their sizes are equal. */
  lemma MapsStayInverse(run: seq<State>, i: nat)
    requires Runs.IsRun(Init, Next, run) && i < |run|
    ensures Inverse(run[i].maps) && |run[i].maps.users| == |run[i].maps.sessions|
  {
    forall s, t | Inv(s) && Next(s, t) ensures Inv(t) {
      var e :| Enabled(s, e) && t == After(s, e);
      StepKeeps(s, e);
    }
    Runs.Invariance(Init, Next, Inv, run);
    CountsAreEqual(run[i].maps);
  }

  // ---- A session that a bind replaces ------------------------------------------------------------

  /** The steps that make the run. */
  ghost predicate Makes(steps: seq<Step>, run: seq<State>) {
    && |run| == |steps| + 1
    && forall i :: 0 <= i < |steps| ==> Enabled(run[i], steps[i]) && run[i + 1] == After(run[i], steps[i])
  }

  /** `e` writes the binding of this session into the maps. */
  predicate BindsSession(s: State, e: Step, session: SessionId) {
    e.BindMaps? && Binds(s, e.c, BindWritesMaps) && s.calls[e.c].session.id == session
  }

  /** `e` gives the user of `session` another session. */
  predicate Replaces(s: State, e: Step, session: SessionId) {
    && e.BindMaps? && !e.closed && Binds(s, e.c, BindWritesMaps) && s.calls[e.c].session.id != session
    && IsBound(s.maps, s.calls[e.c].user, session)
    && Binding(s.maps, s.calls[e.c].user, s.calls[e.c].session).Success?
  }

  /** A step of this unbind call. */
  predicate StepOf(e: Step, c: nat) {
    (e.FindBound? || e.Remove? || e.SetOffline?) && e.c == c
  }

  /** An unbind of `session` that has not removed anything yet. */
  predicate Undecided(s: State, c: nat, session: SessionId) {
    && Unbinds(s, c) && s.calls[c].sessionId == session
    && (s.calls[c].unbindAt.Finds? || s.calls[c].unbindAt.Removes?)
  }

  predicate Returned(s: State, c: nat, session: SessionId) {
    Unbinds(s, c) && s.calls[c] == Unbind(session, UnbindReturns)
  }

  /** With the replacement the session leaves the maps ... */
  lemma ReplacedLeaves(s: State, e: Step, session: SessionId)
    requires Inv(s) && Enabled(s, e) && Replaces(s, e, session)
    ensures session !in After(s, e).maps.sessions
  {
  }

  /** ... and only a bind of that session brings it back. */
  lemma StaysOut(s: State, e: Step, session: SessionId)
    requires Inv(s) && Enabled(s, e) && session !in s.maps.sessions && !BindsSession(s, e, session)
    ensures session !in After(s, e).maps.sessions
  {
  }

  /** While it is out, an unbind of it has no effect and returns at its next step. */
  lemma OutUnbindReturns(s: State, e: Step, c: nat, session: SessionId)
    requires Inv(s) && Enabled(s, e) && session !in s.maps.sessions
    requires Undecided(s, c, session) || Returned(s, c, session)
    ensures StepOf(e, c) ==>
              After(s, e).maps == s.maps && After(s, e).redis == s.redis && Returned(After(s, e), c, session)
    ensures c in After(s, e).calls && (!StepOf(e, c) ==> After(s, e).calls[c] == s.calls[c])
    ensures Undecided(After(s, e), c, session) || Returned(After(s, e), c, session)
    ensures Returned(s, c, session) ==> Returned(After(s, e), c, session)
    ensures Undecided(s, c, session) && !StepOf(e, c) ==> Undecided(After(s, e), c, session)
  {
  }

  lemma InverseAlong(run: seq<State>)
    requires Runs.IsRun(Init, Next, run)
    ensures forall i :: 0 <= i < |run| ==> Inv(run[i])
  {
    forall i | 0 <= i < |run| ensures Inv(run[i]) {
      MapsStayInverse(run, i);
    }
  }

  /** A login that replaces a session at step k, while an `unbindSession` of the old session is
      under way and has removed nothing: as long as the old session is not bound again, it
      stays out of the maps, no step of that unbind changes the maps or Redis, and the
      unbind has returned as soon as it has taken one. */
  lemma ReplacedUnbindChangesNothing(
      run: seq<State>, steps: seq<Step>, k: nat, j: nat, c: nat, session: SessionId)
    requires Runs.IsRun(Init, Next, run) && Makes(steps, run) && k < j < |run|
    requires Replaces(run[k], steps[k], session) && Undecided(run[k], c, session)
    requires forall i :: k < i < j ==> !BindsSession(run[i], steps[i], session)
    ensures forall i :: k < i <= j ==> session !in run[i].maps.sessions
    ensures forall i :: k < i < j && StepOf(steps[i], c) ==>
              run[i + 1].maps == run[i].maps && run[i + 1].redis == run[i].redis
    ensures if HasActed(steps, k, j, c) then Returned(run[j], c, session)
            else Undecided(run[j], c, session) && run[j].calls[c] == run[k].calls[c]
  {
    hide Init, Next, Inv, Enabled, After, Replaces, BindsSession, Undecided, IsQuiet;
    InverseAlong(run);
    ReplacedLeaves(run[k], steps[k], session);
    UndecidedRests(run[k], steps[k], c, session);
    QuietAtFirst(run, steps, k, c, session);
    var n := k + 1;
    while n < j
      invariant k < n <= j && IsQuiet(run, steps, k, n, c, session)
    {
      QuietGoesOn(run, steps, k, n, c, session);
      n := n + 1;
    }
    QuietMeans(run, steps, k, j, c, session);
  }

  /** What holds from the replacement at k up to n. */
  ghost predicate IsQuiet(run: seq<State>, steps: seq<Step>, k: nat, n: nat, c: nat, session: SessionId) {
    && k < n < |run| && |run| == |steps| + 1
    && (forall i :: k < i <= n ==> session !in run[i].maps.sessions)
    && (forall i :: k < i < n && StepOf(steps[i], c) ==>
          run[i + 1].maps == run[i].maps && run[i + 1].redis == run[i].redis)
    && c in run[k].calls && c in run[n].calls
    && if HasActed(steps, k, n, c) then Returned(run[n], c, session)
       else Undecided(run[n], c, session) && run[n].calls[c] == run[k].calls[c]
  }

  lemma QuietAtFirst(run: seq<State>, steps: seq<Step>, k: nat, c: nat, session: SessionId)
    requires k + 1 < |run| == |steps| + 1 && session !in run[k + 1].maps.sessions
    requires c in run[k].calls && Undecided(run[k + 1], c, session) && run[k + 1].calls[c] == run[k].calls[c]
    ensures IsQuiet(run, steps, k, k + 1, c, session)
  {
  }

  lemma QuietGoesOn(run: seq<State>, steps: seq<Step>, k: nat, n: nat, c: nat, session: SessionId)
    requires IsQuiet(run, steps, k, n, c, session) && n + 1 < |run| && Inv(run[n])
    requires Enabled(run[n], steps[n]) && run[n + 1] == After(run[n], steps[n])
    requires !BindsSession(run[n], steps[n], session)
    ensures IsQuiet(run, steps, k, n + 1, c, session)
  {
    hide Inv, Enabled, After, BindsSession, Undecided, Returned, StepOf;
    StaysOut(run[n], steps[n], session);
    OutUnbindReturns(run[n], steps[n], c, session);
    assert HasActed(steps, k, n + 1, c) <==> HasActed(steps, k, n, c) || StepOf(steps[n], c);
  }

  lemma QuietMeans(run: seq<State>, steps: seq<Step>, k: nat, n: nat, c: nat, session: SessionId)
    requires IsQuiet(run, steps, k, n, c, session)
    ensures k < n < |run| && |run| == |steps| + 1
    ensures forall i :: k < i <= n ==> session !in run[i].maps.sessions
    ensures forall i :: k < i < n && StepOf(steps[i], c) ==>
              run[i + 1].maps == run[i].maps && run[i + 1].redis == run[i].redis
    ensures c in run[k].calls && c in run[n].calls
    ensures if HasActed(steps, k, n, c) then Returned(run[n], c, session)
            else Undecided(run[n], c, session) && run[n].calls[c] == run[k].calls[c]
  {
  }

  ghost predicate HasActed(steps: seq<Step>, k: nat, j: nat, c: nat) {
    exists i :: k < i < j && i < |steps| && StepOf(steps[i], c)
  }

  lemma UndecidedRests(s: State, e: Step, c: nat, session: SessionId)
    requires Enabled(s, e) && Replaces(s, e, session) && Undecided(s, c, session)
    ensures c in s.calls && c in After(s, e).calls && After(s, e).calls[c] == s.calls[c]
    ensures Undecided(After(s, e), c, session)
  {
  }

  // ---- A call that nobody disturbs ------------------------------------------------------------------

  /** A login whose steps come one after another, with a cache that answers, binds the user to the
      session in the maps and in Redis, and leaves everybody else's binding alone. */
  lemma UndisturbedLogin(s: State, c: nat, user: UserId, session: SessionRef) returns (t: State)
    requires Inv(s) && c !in s.calls && user != 0 && session.id != 0
    requires session.id in s.maps.sessions ==> s.maps.sessions[session.id] == user
    ensures exists run :: IsPath(s, [BeginBind(c, user, session), CheckBound(c, true), SetOnline(c, true), BindMaps(c, false)], run, t)
    ensures t.maps.users == s.maps.users[user := session] && t.redis == s.redis[user := session.id]
    ensures session.id in t.maps.sessions && t.maps.sessions[session.id] == user && Inverse(t.maps)
    ensures Binds(t, c, BindReturns)
  {
    var s1 := After(s, BeginBind(c, user, session));
    var s2 := After(s1, CheckBound(c, true));
    var s3 := After(s2, SetOnline(c, true));
    t := After(s3, BindMaps(c, false));
    var steps := [BeginBind(c, user, session), CheckBound(c, true), SetOnline(c, true), BindMaps(c, false)];
    assert IsPath(s, steps, [s, s1, s2, s3, t], t);
    BindingKeeps(s.maps, user, session);
  }

  /** A logout whose steps come one after another takes the user out of the maps and of Redis. */
  lemma UndisturbedLogout(s: State, c: nat, user: UserId) returns (t: State)
    requires Inv(s) && c !in s.calls && user in s.maps.users && s.maps.users[user].id != 0
    ensures var id := s.maps.users[user].id;
            && (exists run :: IsPath(s, [BeginUnbind(c, id), FindBound(c), Remove(c), SetOffline(c, true)], run, t))
            && t.maps == Bindings(s.maps.users - {user}, s.maps.sessions - {id}) && t.redis == s.redis - {user}
  {
    var id := s.maps.users[user].id;
    var s1 := After(s, BeginUnbind(c, id));
    var s2 := After(s1, FindBound(c));
    var s3 := After(s2, Remove(c));
    t := After(s3, SetOffline(c, true));
    assert IsPath(s, [BeginUnbind(c, id), FindBound(c), Remove(c), SetOffline(c, true)], [s, s1, s2, s3, t], t);
  }

  ghost predicate IsPath(s: State, steps: seq<Step>, run: seq<State>, t: State) {
    Makes(steps, run) && run[0] == s && run[|run| - 1] == t
  }

  // ---- The service, one call at a time -----------------------------------------------------------

  class OnlineService {
    const sessions: SessionManager
    var redis: map<UserId, SessionId>

    constructor ()
      ensures fresh(sessions) && sessions.Valid() && redis == map[]
    {
      sessions := new SessionManager();
      redis := map[];
    }

    /** The session number belongs to another user whose session is alive. */
    predicate TakenByAnother(user: UserId, session: SessionRef, alive: set<SessionObject>)
      reads this, sessions
      requires sessions.Valid()
    {
      && session.id in sessions.sessions && sessions.sessions[session.id] != user
      && sessions.users[sessions.sessions[session.id]].target in alive
    }

    /** `alive` are the live sessions at the check, `later` those at the binding. */
    method BindUser(user: UserId, session: Option<SessionRef>, alive: set<SessionObject>, later: set<SessionObject>,
                    cacheFails: Option<ErrorCode>, rollbackFails: bool) returns (r: Result<()>)
      requires sessions.Valid()
      modifies this, sessions
      ensures sessions.Valid()
      ensures r.Success? <==>
                && user != 0 && session.Some? && session.value.id != 0
                && session.value.target in alive && session.value.target in later && cacheFails.None?
                && !old(TakenByAnother(user, session.value, alive))
      ensures r.Success? ==>
                && IsBound(sessions.Model(), user, session.value.id)
                && redis == old(redis)[user := session.value.id]
      ensures r.Failure? ==>
                || sessions.Model() == old(sessions.Model())
                || (session.Some? && session.value.id in old(sessions.sessions)
                    && sessions.Model() == Unbound(old(sessions.Model()), old(sessions.sessions)[session.value.id], session.value.id))
      ensures r.Failure? ==>
                if user != 0 && session.Some? && session.value.id != 0 && session.value.target in alive
                   && cacheFails.None? && !old(TakenByAnother(user, session.value, alive))
                then redis == if rollbackFails then old(redis)[user := session.value.id] else old(redis) - {user}
                else redis == old(redis)
      ensures user != 0 && session.Some? && session.value.id != 0 && session.value.target in alive ==>
                (old(TakenByAnother(user, session.value, alive)) ==> r == Failure(AlreadyExists))
    {
      if user == 0 || session.None? || session.value.id == 0 || session.value.target !in alive {
        return Failure(InvalidArgument);
      }
      var bound := sessions.GetUserBySession(session.value.id, alive);
      if bound.Success? && bound.value != user {
        return Failure(AlreadyExists);
      }
      var trouble := if bound.Failure? then bound.error else NotFound;
      if !trouble.NotFound? {
        return Failure(trouble);
      }
      if cacheFails.Some? {
        return Failure(cacheFails.value);
      }
      redis := redis[user := session.value.id];
      var kicked;
      r, kicked := sessions.BindUser(user, session, later);
      if r.Failure? {
        if !rollbackFails {
          redis := redis - {user};
          assert redis == old(redis) - {user};
        }
        return;
      }
      assert IsBound(sessions.Model(), user, session.value.id);
    }

    /** Redis is touched exactly when the binding removed was this session's. */
    method UnbindUser(user: UserId, session: SessionId, cacheFails: Option<ErrorCode>) returns (r: Result<()>)
      requires sessions.Valid()
      modifies this, sessions
      ensures sessions.Valid()
      ensures user == 0 || session == 0 || !IsBound(old(sessions.Model()), user, session) ==>
                sessions.Model() == old(sessions.Model()) && redis == old(redis)
      ensures user != 0 && session != 0 && IsBound(old(sessions.Model()), user, session) ==>
                && sessions.Model() == Unbound(old(sessions.Model()), user, session)
                && redis == (if cacheFails.Some? then old(redis) else old(redis) - {user})
    {
      var removed;
      r, removed := sessions.UnbindUser(user, session);
      if r.Failure? || !removed {
        return;
      }
      if cacheFails.Some? {
        return Failure(cacheFails.value);
      }
      redis := redis - {user};
    }

    /** The connection that a user has replaced can go without any effect. */
    method UnbindSession(session: SessionId, cacheFails: Option<ErrorCode>) returns (r: Result<()>)
      requires sessions.Valid()
      modifies this, sessions
      ensures sessions.Valid()
      ensures session !in old(sessions.sessions) ==> sessions.Model() == old(sessions.Model()) && redis == old(redis)
      ensures session != 0 && session in old(sessions.sessions) ==>
                var user := old(sessions.sessions)[session];
                user != 0 ==>
                  && sessions.Model() == Unbound(old(sessions.Model()), user, session)
                  && redis == (if cacheFails.Some? then old(redis) else old(redis) - {user})
    {
      var bound := sessions.GetBoundUserBySession(session);
      if bound.Failure? {
        return if bound.error.NotFound? then Success(()) else Failure(bound.error);
      }
      r := UnbindUser(bound.value, session, cacheFails);
    }
  }
}
