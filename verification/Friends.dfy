/** Friend requests and friendships: the two tables behind `FriendDao`. */
module Friends {
  import opened Base
  import opened Transactions
  import opened Records
  import Runs

  datatype Pair = Pair(first: UserId, second: UserId)

  datatype RequestStatus = Pending | Accepted | Rejected

  datatype Tables = Tables(requests: map<Pair, RequestStatus>, friendships: set<Pair>)

  function Reverse(p: Pair): (q: Pair) {
    Pair(p.second, p.first)
  }

  predicate ValidPair(p: Pair) {
    p.first != 0 && p.second != 0 && p.first != p.second
  }

  // ---- What each call does when nothing fails --------------------------------------------------

  datatype Call = Create(pair: Pair) | Accept(pair: Pair) | Reject(pair: Pair)

  function Creating(t: Tables, p: Pair): (r: Result<Effect<(), Tables>>) {
    if !ValidPair(p) then Failure(InvalidArgument)
    else if p in t.friendships || p in t.requests then Failure(AlreadyExists)
    else if Reverse(p) in t.requests && !t.requests[Reverse(p)].Rejected? then Failure(AlreadyExists)
    else Success(Effect((), t.(requests := t.requests[p := Pending])))
  }

  function Accepting(t: Tables, p: Pair): (r: Result<Effect<(), Tables>>) {
    if !ValidPair(p) then Failure(InvalidArgument)
    else if p !in t.requests then Failure(if p in t.friendships then AlreadyExists else NotFound)
    else if !t.requests[p].Pending? then Failure(AlreadyExists)
    else Success(Effect((), Tables(t.requests[p := Accepted], t.friendships + {p, Reverse(p)})))
  }

  function Rejecting(t: Tables, p: Pair): (r: Result<Effect<(), Tables>>) {
    if !ValidPair(p) then Failure(InvalidArgument)
    else if p !in t.requests then Failure(NotFound)
    else if !t.requests[p].Pending? then Failure(AlreadyExists)
    else Success(Effect((), t.(requests := t.requests[p := Rejected])))
  }

  function Intended(t: Tables, c: Call): (r: Result<Effect<(), Tables>>) {
    match c
    case Create(p) => Creating(t, p)
    case Accept(p) => Accepting(t, p)
    case Reject(p) => Rejecting(t, p)
  }

  // ---- The calls ----------------------------------------------------------------------------------

  class FriendDao {
    var requests: map<Pair, RequestStatus>
    var friendships: set<Pair>

    function Model(): Tables
      reads this
    {
      Tables(requests, friendships)
    }

    constructor ()
      ensures Model() == Tables(map[], {})
    {
      requests, friendships := map[], {};
    }

    method AreFriends(p: Pair, fault: Fault) returns (r: Result<bool>)
      ensures r.Success? ==> ValidPair(p) && r.value == (p in friendships)
      ensures fault.NoFault? ==> (r.Success? <==> ValidPair(p))
      ensures r.Failure? ==> (r.error == InvalidArgument && !ValidPair(p)) || (!fault.NoFault? && r.error == fault.error)
    {
      if !ValidPair(p) {
        return Failure(InvalidArgument);
      }
      if Breaks(fault, 0) {
        return Failure(fault.error);
      }
      return Success(p in friendships);
    }

    /** Three look-ups, then an INSERT that commits by itself. */
    method CreateFriendRequest(p: Pair, fault: Fault) returns (r: Result<()>)
      modifies this
      ensures r.Success? ==> requests == old(requests)[p := Pending] && friendships == old(friendships)
      ensures r.Success? || fault.NoFault? ==>
                (r.Success? <==>
                  && p.first != 0 && p.second != 0 && p.first != p.second
                  && p !in old(friendships) && p !in old(requests)
                  && (Pair(p.second, p.first) in old(requests) ==> old(requests)[Pair(p.second, p.first)] == Rejected))
      ensures Outcome(old(Model()), Creating(old(Model()), p), fault, Model(), r)
    {
      if !ValidPair(p) {
        return Failure(InvalidArgument);
      }
      if Breaks(fault, 0) {
        return Failure(fault.error);
      }
      if p in friendships {
        return Failure(AlreadyExists);
      }
      if Breaks(fault, 1) {
        return Failure(fault.error);
      }
      if p in requests {
        return Failure(AlreadyExists);
      }
      if Breaks(fault, 2) {
        return Failure(fault.error);
      }
      var reverse := Reverse(p);
      if reverse in requests && (requests[reverse].Pending? || requests[reverse].Accepted?) {
        return Failure(AlreadyExists);
      }
      if Breaks(fault, 3) {
        return Failure(fault.error);
      }
      requests := Committed(requests, requests[p := Pending], fault);
      return if fault.CommitLost? then Failure(fault.error) else Success(());
    }

    /** One transaction: the request becomes accepted and both friendship rows appear. */
    method AcceptFriendRequest(p: Pair, fault: Fault) returns (r: Result<()>)
      modifies this
      ensures r.Success? ==>
                && requests == old(requests)[p := Accepted]
                && friendships == old(friendships) + {p, Pair(p.second, p.first)}
      ensures r.Success? || fault.NoFault? ==>
                (r.Success? <==>
                  && p.first != 0 && p.second != 0 && p.first != p.second
                  && p in old(requests) && old(requests)[p] == Pending)
      ensures Outcome(old(Model()), Accepting(old(Model()), p), fault, Model(), r)
    {
      if !ValidPair(p) {
        return Failure(InvalidArgument);
      }
      if Breaks(fault, 0) {
        return Failure(fault.error);
      }
      if p !in requests {
        if Breaks(fault, 1) {
          return Failure(fault.error);
        }
        return Failure(if p in friendships then AlreadyExists else NotFound);
      }
      if requests[p].Accepted? || requests[p].Rejected? {
        return Failure(AlreadyExists);
      }
      var updated := requests[p := Accepted];
      if Breaks(fault, 2) {
        return Failure(fault.error);
      }
      var inserted := friendships + {p, Reverse(p)};
      if Breaks(fault, 3) {
        return Failure(fault.error);
      }
      requests, friendships := Committed(requests, updated, fault), Committed(friendships, inserted, fault);
      return if fault.CommitLost? then Failure(fault.error) else Success(());
    }

    method RejectFriendRequest(p: Pair, fault: Fault) returns (r: Result<()>)
      modifies this
      ensures r.Success? ==> requests == old(requests)[p := Rejected] && friendships == old(friendships)
      ensures r.Success? || fault.NoFault? ==>
                (r.Success? <==>
                  && p.first != 0 && p.second != 0 && p.first != p.second
                  && p in old(requests) && old(requests)[p] == Pending)
      ensures Outcome(old(Model()), Rejecting(old(Model()), p), fault, Model(), r)
    {
      if !ValidPair(p) {
        return Failure(InvalidArgument);
      }
      if Breaks(fault, 0) {
        return Failure(fault.error);
      }
      if p !in requests {
        return Failure(NotFound);
      }
      if requests[p].Accepted? || requests[p].Rejected? {
        return Failure(AlreadyExists);
      }
      if Breaks(fault, 1) {
        return Failure(fault.error);
      }
      requests := Committed(requests, requests[p := Rejected], fault);
      return if fault.CommitLost? then Failure(fault.error) else Success(());
    }
  }

  // ---- Runs of calls, any of which may fail ---------------------------------------------------

  ghost predicate Init(t: Tables) {
    t == Tables(map[], {})
  }

  ghost predicate Happens(s: Tables, c: Call, fault: Fault, r: Result<()>, t: Tables) {
    Outcome(s, Intended(s, c), fault, t, r)
  }

  ghost predicate Next(s: Tables, t: Tables) {
    exists c, fault, r :: Happens(s, c, fault, r, t)
  }

  predicate Is(t: Tables, p: Pair, status: RequestStatus) {
    p in t.requests && t.requests[p] == status
  }

  ghost predicate OneDirection(t: Tables) {
    forall p :: p in t.requests && Reverse(p) in t.requests ==>
      t.requests[p].Rejected? || t.requests[Reverse(p)].Rejected?
  }

  ghost predicate Symmetric(t: Tables) {
    forall p :: p in t.friendships ==> Reverse(p) in t.friendships
  }

  ghost predicate FriendsWhenAccepted(t: Tables) {
    forall p :: p in t.friendships <==> Is(t, p, Accepted) || Is(t, Reverse(p), Accepted)
  }

  ghost predicate ProperPairs(t: Tables) {
    && (forall p :: p in t.friendships ==> ValidPair(p))
    && (forall p :: p in t.requests ==> ValidPair(p))
  }

  ghost predicate Inv(t: Tables) {
    OneDirection(t) && Symmetric(t) && FriendsWhenAccepted(t) && ProperPairs(t)
  }

  /** Friendships are never lost, and a request only leaves the pending state, once. */
  ghost predicate Grows(s: Tables, t: Tables) {
    && s.friendships <= t.friendships
    && (forall p :: p in s.requests ==> p in t.requests)
    && (forall p :: p in s.requests && !s.requests[p].Pending? ==> t.requests[p] == s.requests[p])
  }

  lemma ReverseTwice(p: Pair)
    ensures Reverse(Reverse(p)) == p
  {
  }

  lemma CallKeeps(s: Tables, c: Call)
    requires Inv(s) && Intended(s, c).Success?
    ensures Inv(Intended(s, c).value.tables) && Grows(s, Intended(s, c).value.tables)
  {
    var t := Intended(s, c).value.tables;
    var p := c.pair;
    forall q: Pair ensures Reverse(Reverse(q)) == q {
      ReverseTwice(q);
    }
    forall q: Pair ensures q in t.friendships <==> Is(t, q, Accepted) || Is(t, Reverse(q), Accepted) {
      assert q in s.friendships <==> Is(s, q, Accepted) || Is(s, Reverse(q), Accepted);
    }
  }

  lemma StepKeeps(s: Tables, t: Tables)
    requires Inv(s) && Next(s, t)
    ensures Inv(t) && Grows(s, t)
  {
    hide Inv, Grows, Intended;
    var c, fault, r :| Happens(s, c, fault, r, t);
    if Intended(s, c).Success? {
      CallKeeps(s, c);
    }
    GrowsReflexive(s);
  }

  lemma GrowsReflexive(s: Tables)
    ensures Grows(s, s)
  {
  }

  /** Over every run from empty tables: at most one direction of a pair is not rejected,
      friendship is symmetric, and two users are friends exactly when one direction of
      their requests is accepted. */
  lemma TablesStaySound(run: seq<Tables>, i: nat)
    requires Runs.IsRun(Init, Next, run) && i < |run|
    ensures OneDirection(run[i]) && Symmetric(run[i]) && FriendsWhenAccepted(run[i]) && ProperPairs(run[i])
  {
    forall s, t | Inv(s) && Next(s, t) ensures Inv(t) {
      StepKeeps(s, t);
    }
    Runs.Invariance(Init, Next, Inv, run);
  }

  /** Nothing is taken back: neither a friendship, nor an acceptance, nor a rejection. */
  lemma NothingIsTakenBack(run: seq<Tables>, i: nat, j: nat)
    requires Runs.IsRun(Init, Next, run) && i <= j < |run|
    ensures Grows(run[i], run[j])
  {
    forall s, t | Inv(s) && Next(s, t) ensures Inv(t) && Grows(s, t) {
      StepKeeps(s, t);
    }
    forall s, t, u | Grows(s, t) && Grows(t, u) ensures Grows(s, u) {
      GrowsTransitive(s, t, u);
    }
    Runs.Progress(Init, Next, Inv, Grows, run, i, j);
  }

  lemma GrowsTransitive(s: Tables, t: Tables, u: Tables)
    requires Grows(s, t) && Grows(t, u)
    ensures Grows(s, u)
  {
  }
}
