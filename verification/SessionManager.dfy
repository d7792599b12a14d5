/** The two maps between users and sessions, which stay exact inverses. */
module SessionManager {
  import opened Base
  import opened Records

  type SessionId = Uint64
  type SessionObject = nat

  /** A session pointer: the object and its number. */
  datatype SessionRef = SessionRef(id: SessionId, target: SessionObject)

  /** What the maps say; `users` also holds a weak pointer to the session object. */
  datatype Bindings = Bindings(users: map<UserId, SessionRef>, sessions: map<SessionId, UserId>)

  ghost predicate Inverse(b: Bindings) {
    && (forall u :: u in b.users ==> b.users[u].id in b.sessions && b.sessions[b.users[u].id] == u)
    && (forall s :: s in b.sessions ==> b.sessions[s] in b.users && b.users[b.sessions[s]].id == s)
  }

  predicate IsBound(b: Bindings, user: UserId, session: SessionId) {
    user in b.users && b.users[user].id == session
  }

  function Erased(b: Bindings, user: UserId, session: SessionId): (c: Bindings) {
    Bindings(b.users - {user}, b.sessions - {session})
  }

  /** `unbindUser`: only the current binding of the user is removed. */
  function Unbound(b: Bindings, user: UserId, session: SessionId): (c: Bindings) {
    if IsBound(b, user, session) then Erased(b, user, session) else b
  }

  /** `bindUser`: the new session replaces the one the user had. */
  function Binding(b: Bindings, user: UserId, session: SessionRef): (r: Result<Bindings>) {
    if session.id in b.sessions && b.sessions[session.id] != user then Failure(AlreadyExists)
    else
      var kept := if user in b.users then b.sessions - {b.users[user].id} else b.sessions;
      Success(Bindings(b.users[user := session], kept[session.id := user]))
  }

  lemma BindingKeeps(b: Bindings, user: UserId, session: SessionRef)
    requires Inverse(b) && Binding(b, user, session).Success?
    ensures Inverse(Binding(b, user, session).value)
    ensures IsBound(Binding(b, user, session).value, user, session.id)
    ensures forall u :: u in b.users && u != user ==>
              u in Binding(b, user, session).value.users && Binding(b, user, session).value.users[u] == b.users[u]
  {
  }

  lemma UnboundKeeps(b: Bindings, user: UserId, session: SessionId)
    requires Inverse(b)
    ensures Inverse(Unbound(b, user, session))
    ensures !IsBound(Unbound(b, user, session), user, session)
    ensures forall u :: u in b.users && u != user ==>
              u in Unbound(b, user, session).users && Unbound(b, user, session).users[u] == b.users[u]
  {
  }

  lemma {:induction false} CountsAreEqual(b: Bindings)
    requires Inverse(b)
    ensures |b.users| == |b.sessions|
    decreases |b.users|
  {
    if b.users == map[] {
      assert b.sessions.Keys == {};
    } else {
      var u :| u in b.users;
      var c := Erased(b, u, b.users[u].id);
      assert b.users.Keys == c.users.Keys + {u};
      assert b.sessions.Keys == c.sessions.Keys + {b.users[u].id};
      UnboundKeeps(b, u, b.users[u].id);
      CountsAreEqual(c);
    }
  }

  class SessionManager {
    var users: map<UserId, SessionRef>
    var sessions: map<SessionId, UserId>

    function Model(): Bindings
      reads this
    {
      Bindings(users, sessions)
    }

    ghost predicate Valid()
      reads this
    {
      Inverse(Model())
    }

    constructor ()
      ensures Valid() && Model() == Bindings(map[], map[])
    {
      users, sessions := map[], map[];
    }

    /** `alive`: the objects that are neither gone nor closed.  `kicked`: the old session that
        a second login closes. */
    method BindUser(user: UserId, session: Option<SessionRef>, alive: set<SessionObject>)
      returns (r: Result<()>, kicked: Option<SessionObject>)
      requires Valid()
      modifies this
      ensures Valid()
      ensures r.Success? <==>
                && user != 0 && session.Some? && session.value.id != 0 && session.value.target in alive
                && (session.value.id !in old(sessions) || old(sessions)[session.value.id] == user)
      ensures r.Success? ==>
                && users == old(users)[user := session.value]
                && (forall s :: s in sessions <==> s == session.value.id || (s in old(sessions) && old(sessions)[s] != user))
                && sessions[session.value.id] == user
                && (forall s :: s in sessions && s != session.value.id ==> sessions[s] == old(sessions)[s])
      ensures r.Failure? ==> users == old(users) && sessions == old(sessions)
      ensures user == 0 || session.None? || session.value.id == 0 || session.value.target !in alive ==>
                r == Failure(InvalidArgument) && Model() == old(Model())
      ensures user != 0 && session.Some? && session.value.id != 0 && session.value.target in alive ==>
                match Binding(old(Model()), user, session.value)
                case Failure(e) => r == Failure(e) && Model() == old(Model())
                case Success(b) => r == Success(()) && Model() == b
      ensures kicked == if r.Success? && user in old(users) && old(users)[user].id != session.value.id
                           && old(users)[user].target in alive && old(users)[user].target != session.value.target
                        then Some(old(users)[user].target) else None
    {
      if user == 0 || session.None? || session.value.id == 0 || session.value.target !in alive {
        return Failure(InvalidArgument), None;
      }
      var s := session.value;
      if s.id in sessions && sessions[s.id] != user {
        return Failure(AlreadyExists), None;
      }
      BindingKeeps(Model(), user, s);
      var oldSession: Option<SessionObject> := None;
      if user in users {
        if users[user].id == s.id {
          users := users[user := s];
          sessions := sessions[s.id := user];
          return Success(()), None;
        }
        oldSession := Some(users[user].target);
        sessions := sessions - {users[user].id};
      }
      users := users[user := s];
      sessions := sessions[s.id := user];
      if oldSession.Some? && oldSession.value != s.target && oldSession.value in alive {
        return Success(()), oldSession;
      }
      return Success(()), None;
    }

    method UnbindUser(user: UserId, session: SessionId) returns (r: Result<()>, removed: bool)
      requires Valid()
      modifies this
      ensures Valid()
      ensures r.Failure? <==> user == 0 || session == 0
      ensures removed <==> r.Success? && user in old(users) && old(users)[user].id == session
      ensures removed ==> users == old(users) - {user} && sessions == old(sessions) - {session}
      ensures !removed ==> users == old(users) && sessions == old(sessions)
      ensures Model() == if removed then Unbound(old(Model()), user, session) else old(Model())
    {
      if user == 0 || session == 0 {
        return Failure(InvalidArgument), false;
      }
      UnboundKeeps(Model(), user, session);
      if user !in users || users[user].id != session {
        return Success(()), false;
      }
      users, sessions := users - {user}, sessions - {session};
      return Success(()), true;
    }

    /** A binding to a dead session is dropped on sight. */
    method GetSessionByUser(user: UserId, alive: set<SessionObject>) returns (r: Result<SessionObject>)
      requires Valid()
      modifies this
      ensures Valid()
      ensures r.Success? <==> user != 0 && user in old(users) && old(users)[user].target in alive
      ensures r.Success? ==> r.value == old(users)[user].target && Model() == old(Model())
      ensures r.Failure? && user != 0 && user in old(users) ==> Model() == Unbound(old(Model()), user, old(users)[user].id)
      ensures r.Failure? && (user == 0 || user !in old(users)) ==> Model() == old(Model())
      ensures r.Failure? ==> r.error == if user == 0 then InvalidArgument else NotFound
    {
      if user == 0 {
        return Failure(InvalidArgument);
      }
      if user !in users {
        return Failure(NotFound);
      }
      UnboundKeeps(Model(), user, users[user].id);
      if users[user].target !in alive {
        users, sessions := users - {user}, sessions - {users[user].id};
        return Failure(NotFound);
      }
      return Success(users[user].target);
    }

    /** `getUserBySession` also tests for a session whose user is bound elsewhere; that test never
        succeeds. */
    method GetUserBySession(session: SessionId, alive: set<SessionObject>) returns (r: Result<UserId>)
      requires Valid()
      modifies this
      ensures Valid()
      ensures r.Success? <==> session != 0 && session in old(sessions) && old(users)[old(sessions)[session]].target in alive
      ensures r.Success? ==> r.value == old(sessions)[session] && Model() == old(Model())
      ensures r.Failure? && session != 0 && session in old(sessions) ==>
                Model() == Unbound(old(Model()), old(sessions)[session], session)
      ensures r.Failure? && (session == 0 || session !in old(sessions)) ==> Model() == old(Model())
      ensures r.Failure? ==> r.error == if session == 0 then InvalidArgument else NotFound
    {
      if session == 0 {
        return Failure(InvalidArgument);
      }
      if session !in sessions {
        return Failure(NotFound);
      }
      var user := sessions[session];
      assert user in users && users[user].id == session;
      UnboundKeeps(Model(), user, session);
      if users[user].target !in alive {
        users, sessions := users - {user}, sessions - {session};
        return Failure(NotFound);
      }
      return Success(user);
    }

    method GetBoundUserBySession(session: SessionId) returns (r: Result<UserId>)
      requires Valid()
      ensures r.Success? <==> session != 0 && session in sessions
      ensures r.Success? ==> IsBound(Model(), r.value, session)
      ensures r.Failure? ==> r.error == if session == 0 then InvalidArgument else NotFound
    {
      if session == 0 {
        return Failure(InvalidArgument);
      }
      if session !in sessions {
        return Failure(NotFound);
      }
      return Success(sessions[session]);
    }

    method Counts() returns (userCount: nat, sessionCount: nat)
      requires Valid()
      ensures userCount == |users| && sessionCount == |sessions| && userCount == sessionCount
    {
      CountsAreEqual(Model());
      return |users|, |sessions|;
    }
  }
}
