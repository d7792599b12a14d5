/** Pulling offline messages page by page and acknowledging each page. */
module OfflinePull {
  import opened Base
  import opened Records
  import opened Storage
  import opened Transactions

  /** The limit of a pull request: 0 is refused, a large one is cut to the option. */
  function PullLimit(requested: Option<Uint64>, maxPerPull: Uint32): (r: Result<Uint32>)
    ensures r.Failure? <==> requested == Some(0)
    ensures r.Success? ==> r.value <= maxPerPull && (requested.Some? ==> r.value <= requested.value)
    ensures r.Success? ==> r.value == maxPerPull || requested == Some(r.value)
  {
    if requested.None? then Success(maxPerPull)
    else if requested.value == 0 then Failure(InvalidArgument)
    else Success(if requested.value < maxPerPull then requested.value else maxPerPull)
  }

  // ---- SELECT ... WHERE delivered = 0 ORDER BY offline_message_id LIMIT n -----------------------

  /** The AUTO_INCREMENT numbers of one user's offline rows. */
  type Numbers = MessageId -> nat

  ghost predicate Injective(number: Numbers) {
    forall x, y :: number(x) == number(y) ==> x == y
  }

  /** The messages of this user's rows, and of those that are not delivered. */
  function RowIds(t: Tables, user: UserId): (ids: set<MessageId>) {
    set s | s in t.offline && s.user == user :: s.message
  }

  function PendingIds(t: Tables, user: UserId): (ids: set<MessageId>) {
    set s | s in t.offline && s.user == user && !t.offline[s].delivered :: s.message
  }

  lemma InPending(t: Tables, user: UserId, m: MessageId)
    ensures m in PendingIds(t, user) <==> Slot(user, m) in t.offline && !t.offline[Slot(user, m)].delivered
    ensures m in RowIds(t, user) <==> Slot(user, m) in t.offline
  {
    assert Slot(user, m).user == user && Slot(user, m).message == m;
  }

  lemma {:induction false} FindLeast(ids: set<MessageId>, number: Numbers) returns (m: MessageId)
    requires ids != {}
    ensures m in ids && forall x :: x in ids ==> number(m) <= number(x)
    decreases |ids|
  {
    var a :| a in ids;
    var rest := ids - {a};
    m := a;
    if rest != {} {
      var b := FindLeast(rest, number);
      if number(b) < number(a) {
        m := b;
      }
    }
    forall x | x in ids ensures number(m) <= number(x) {
      assert x == a || x in rest;
    }
  }

  function Least(ids: set<MessageId>, number: Numbers): (m: MessageId)
    requires ids != {} && Injective(number)
    ensures m in ids && forall x :: x in ids ==> number(m) <= number(x)
  {
    assert exists m :: m in ids && forall x :: x in ids ==> number(m) <= number(x) by {
      var m := FindLeast(ids, number);
    }
    var m :| m in ids && forall x :: x in ids ==> number(m) <= number(x);
    m
  }

  function Ascending(ids: set<MessageId>, number: Numbers): (r: seq<MessageId>)
    requires Injective(number)
    ensures |r| == |ids|
    decreases |ids|
  {
    if ids == {} then [] else [Least(ids, number)] + Ascending(ids - {Least(ids, number)}, number)
  }

  function Page(t: Tables, user: UserId, number: Numbers, limit: nat): (p: seq<MessageId>)
    requires Injective(number)
  {
    var all := Ascending(PendingIds(t, user), number);
    if |all| <= limit then all else all[..limit]
  }

  /** `getOfflineMessages`: the messages of the page. */
  method GetOfflineMessages(t: Tables, user: UserId, number: Numbers, limit: Uint32) returns (r: Result<seq<MessageRecord>>)
    requires Referenced(t) && Injective(number)
    ensures r.Failure? <==> user == 0 || limit == 0
    ensures r.Failure? ==> r.error == InvalidArgument
    ensures r.Success? ==>
              var page := Page(t, user, number, limit);
              |r.value| == |page| && forall i :: 0 <= i < |page| ==> page[i] in t.messages && r.value[i] == t.messages[page[i]]
  {
    if user == 0 || limit == 0 {
      return Failure(InvalidArgument);
    }
    var rows := Page(t, user, number, limit);
    var messages: seq<MessageRecord> := [];
    for i := 0 to |rows|
      invariant |messages| == i && forall k :: 0 <= k < i ==> rows[k] in t.messages && messages[k] == t.messages[rows[k]]
    {
      PageIsPending(t, user, number, limit, i);
      messages := messages + [t.messages[rows[i]]];
    }
    return Success(messages);
  }

  // ---- Order -------------------------------------------------------------------------------------

  ghost predicate InOrder(r: seq<MessageId>, number: Numbers) {
    forall i, j :: 0 <= i < j < |r| ==> number(r[i]) < number(r[j])
  }

  lemma DifferentNumbers(number: Numbers, x: MessageId, y: MessageId)
    requires Injective(number) && x != y
    ensures number(x) != number(y)
  {
  }

  lemma {:induction false} AscendingHas(ids: set<MessageId>, number: Numbers)
    requires Injective(number)
    ensures forall x :: x in Ascending(ids, number) <==> x in ids
    decreases |ids|
  {
    hide Injective;
    if ids != {} {
      AscendingHas(ids - {Least(ids, number)}, number);
    }
  }

  lemma LeastIsLess(ids: set<MessageId>, number: Numbers, x: MessageId)
    requires Injective(number) && x in ids && x != Least(ids, number)
    ensures number(Least(ids, number)) < number(x)
  {
    hide Injective;
    DifferentNumbers(number, x, Least(ids, number));
  }

  lemma {:induction false} AscendingInOrder(ids: set<MessageId>, number: Numbers)
    requires Injective(number)
    ensures InOrder(Ascending(ids, number), number)
    decreases |ids|
  {
    hide Injective, Least;
    if ids != {} {
      var m := Least(ids, number);
      var others := ids - {m};
      var rest := Ascending(others, number);
      AscendingInOrder(others, number);
      AscendingHas(others, number);
      forall x | x in rest ensures number(m) < number(x) {
        LeastIsLess(ids, number, x);
      }
      assert Ascending(ids, number) == [m] + rest;
      hide Ascending;
      Joined([m], rest, number);
    }
  }

  /** A page is in order, holds only pending rows, as many as the limit allows, and no other
      pending row comes before it. */
  lemma PageFacts(t: Tables, user: UserId, number: Numbers, limit: nat)
    requires Injective(number)
    ensures var page := Page(t, user, number, limit);
            && InOrder(page, number) && (forall x :: x in page ==> x in PendingIds(t, user))
            && (forall x, y :: x in page && y in PendingIds(t, user) && y !in page ==> number(x) < number(y))
            && |page| == (if |PendingIds(t, user)| <= limit then |PendingIds(t, user)| else limit)
            && (limit > 0 && page == [] ==> PendingIds(t, user) == {})
  {
    hide Injective, Ascending, PendingIds;
    var ids := PendingIds(t, user);
    var all, page := Ascending(ids, number), Page(t, user, number, limit);
    AscendingHas(ids, number);
    AscendingInOrder(ids, number);
    forall x, y | x in page && y in ids && y !in page ensures number(x) < number(y) {
      var i :| 0 <= i < |page| && page[i] == x;
      var j :| 0 <= j < |all| && all[j] == y;
      assert all[i] == x;
      assert j >= |page|;
    }
  }

  lemma PageIsPending(t: Tables, user: UserId, number: Numbers, limit: nat, i: nat)
    requires Injective(number) && Referenced(t) && i < |Page(t, user, number, limit)|
    ensures Page(t, user, number, limit)[i] in t.messages
  {
    hide Page;
    var page := Page(t, user, number, limit);
    PageFacts(t, user, number, limit);
    assert page[i] in page;
    InPending(t, user, page[i]);
  }

  // ---- Pull and acknowledge -----------------------------------------------------------------------

  /** The tables after the client has acknowledged a page. */
  ghost function Acked(t: Tables, user: UserId, page: seq<MessageId>, at: Int64): (u: Tables)
    requires Consistent(t)
  {
    var r := Acking(t, user, page, at);
    if r.Success? then r.value.tables else t
  }

  /** What others may do between two pulls: anything, except acknowledge for this user; their
      new rows get greater numbers. */
  ghost predicate Between(a: Tables, b: Tables, user: UserId, number: Numbers) {
    && Advances(a, b)
    && (forall s :: s in a.offline && s.user == user && !a.offline[s].delivered ==> !b.offline[s].delivered)
    && (forall s, x :: s in b.offline && s !in a.offline && s.user == user && x in RowIds(a, user) ==>
          number(x) < number(s.message))
  }

  /** A client that pulls, acknowledges what it got, and pulls again until a page is empty. */
  ghost predicate Pulling(
    user: UserId, number: Numbers, worlds: seq<Tables>, limits: seq<nat>, times: seq<Int64>, pages: seq<seq<MessageId>>)
  {
    && user != 0 && Injective(number) && |worlds| == |limits| == |times| == |pages| > 0
    && (forall k :: 0 <= k < |worlds| ==> Consistent(worlds[k]) && limits[k] > 0)
    && (forall k :: 0 <= k < |pages| ==> pages[k] == Page(worlds[k], user, number, limits[k]))
    && (forall k :: 0 <= k < |pages| - 1 ==>
          pages[k] != [] && Between(Acked(worlds[k], user, pages[k], times[k]), worlds[k + 1], user, number))
  }

  function Concat(pages: seq<seq<MessageId>>): (r: seq<MessageId>) {
    if |pages| == 0 then [] else Concat(pages[..|pages| - 1]) + pages[|pages| - 1]
  }

  /** The ack of a page succeeds and takes exactly the page out of the pending rows. */
  lemma AckTakesThePage(t: Tables, user: UserId, page: seq<MessageId>, at: Int64)
    requires Consistent(t) && user != 0 && forall x :: x in page ==> x in PendingIds(t, user)
    ensures Acking(t, user, page, at).Success?
    ensures var u := Acked(t, user, page, at);
            && RowIds(u, user) == RowIds(t, user)
            && forall m :: m in PendingIds(u, user) <==> m in PendingIds(t, user) && m !in page
  {
    hide Acking;
    forall m ensures m in PendingIds(t, user) <==> Slot(user, m) in t.offline && !t.offline[Slot(user, m)].delivered {
      InPending(t, user, m);
    }
    if page == [] {
      EmptyAck(t, user, at);
    } else {
      hide Consistent, PendingIds, RowIds;
      KnownIds(t, user, page);
      AckAllOrNothing(t, user, page, at);
      var u := Acked(t, user, page, at);
      forall m ensures m in PendingIds(u, user) <==> m in PendingIds(t, user) && m !in page {
        InPending(t, user, m);
        InPending(u, user, m);
      }
      forall m ensures m in RowIds(u, user) <==> m in RowIds(t, user) {
        InPending(t, user, m);
        InPending(u, user, m);
      }
    }
  }

  lemma EmptyAck(t: Tables, user: UserId, at: Int64)
    requires Consistent(t)
    ensures Acking(t, user, [], at) == Success(Effect([], t))
  {
  }

  lemma KnownIds(t: Tables, user: UserId, page: seq<MessageId>)
    requires Consistent(t) && forall x :: x in page ==> x in PendingIds(t, user)
    ensures forall m :: m in page ==> m != 0 && Slot(user, m) in t.offline
  {
    forall m | m in page ensures m != 0 && Slot(user, m) in t.offline {
      InPending(t, user, m);
    }
  }

  /** What others add between two pulls is new and comes last. */
  lemma BetweenAdds(a: Tables, b: Tables, user: UserId, number: Numbers)
    requires Between(a, b, user, number)
    ensures RowIds(a, user) <= RowIds(b, user)
    ensures PendingIds(a, user) <= PendingIds(b, user)
    ensures forall m, x :: m in PendingIds(b, user) && m !in PendingIds(a, user) && x in RowIds(a, user) ==>
              number(x) < number(m)
  {
    forall m ensures m in RowIds(a, user) ==> m in RowIds(b, user) {
      InPending(a, user, m);
      InPending(b, user, m);
    }
    forall m ensures m in PendingIds(a, user) ==> m in PendingIds(b, user) {
      InPending(a, user, m);
      InPending(b, user, m);
    }
    forall m, x | m in PendingIds(b, user) && m !in PendingIds(a, user) && x in RowIds(a, user)
      ensures number(x) < number(m)
    {
      InPending(a, user, m);
      InPending(b, user, m);
    }
  }

  /** After k pages: what was seen is in order and behind it lies everything still pending. */
  ghost predicate Seen(user: UserId, number: Numbers, start: Tables, world: Tables, seen: seq<MessageId>) {
    && InOrder(seen, number)
    && (forall x :: x in seen ==> x in RowIds(world, user) && x !in PendingIds(world, user))
    && (forall x, y :: x in seen && y in PendingIds(world, user) ==> number(x) < number(y))
    && (forall x :: x in PendingIds(start, user) ==> x in seen || x in PendingIds(world, user))
  }

  lemma SeesOneMore(
      user: UserId, number: Numbers, start: Tables, t: Tables, next: Tables, seen: seq<MessageId>, limit: nat, at: Int64)
    requires user != 0 && Injective(number) && Consistent(t) && Seen(user, number, start, t, seen)
    requires Between(Acked(t, user, Page(t, user, number, limit), at), next, user, number)
    ensures Seen(user, number, start, next, seen + Page(t, user, number, limit))
  {
    hide Page, PendingIds, RowIds, Acking, Between, Consistent, Injective;
    var page := Page(t, user, number, limit);
    PageFacts(t, user, number, limit);
    AckTakesThePage(t, user, page, at);
    var u := Acked(t, user, page, at);
    BetweenAdds(u, next, user, number);
    PendingAreRows(t, user);
    assert forall x :: x in seen + page ==> x in RowIds(u, user) && x !in PendingIds(u, user);
    Joined(seen, page, number);
  }

  lemma PendingAreRows(t: Tables, user: UserId)
    ensures PendingIds(t, user) <= RowIds(t, user)
  {
    forall m ensures m in PendingIds(t, user) ==> m in RowIds(t, user) {
      InPending(t, user, m);
    }
  }

  lemma Joined(a: seq<MessageId>, b: seq<MessageId>, number: Numbers)
    requires InOrder(a, number) && InOrder(b, number)
    requires forall x, y :: x in a && y in b ==> number(x) < number(y)
    ensures InOrder(a + b, number)
  {
  }

  lemma {:induction false} SeenAfter(
      user: UserId, number: Numbers, worlds: seq<Tables>, limits: seq<nat>, times: seq<Int64>, pages: seq<seq<MessageId>>,
      k: nat)
    requires Pulling(user, number, worlds, limits, times, pages) && k < |pages|
    ensures Seen(user, number, worlds[0], worlds[k], Concat(pages[..k])) && |Concat(pages[..k])| >= k
  {
    hide Seen, Between, Page, Consistent;
    if k == 0 {
      NothingSeen(user, number, worlds[0]);
    } else {
      SeenAfter(user, number, worlds, limits, times, pages, k - 1);
      SeesOneMore(user, number, worlds[0], worlds[k - 1], worlds[k], Concat(pages[..k - 1]), limits[k - 1], times[k - 1]);
      assert pages[..k][..k - 1] == pages[..k - 1];
    }
  }

  lemma NothingSeen(user: UserId, number: Numbers, t: Tables)
    ensures Seen(user, number, t, t, [])
  {
  }

  lemma {:induction false} OrderedFit(r: seq<MessageId>, ids: set<MessageId>, number: Numbers)
    requires InOrder(r, number) && forall x :: x in r ==> x in ids
    ensures |r| <= |ids|
    decreases |r|
  {
    if |r| > 0 {
      var n := |r| - 1;
      assert forall x :: x in r[..n] ==> x != r[n];
      OrderedFit(r[..n], ids - {r[n]}, number);
    }
  }

  /** Pulling with any positive limits and acknowledging each page, while others add rows, shows
      no message twice and all of them in the order of their rows.  It takes at most one pull
      per row and one more; and when a page is empty every row of the user is delivered and
      every message that was pending at the start has been seen. */
  lemma PullingDeliversEverything(
      user: UserId, number: Numbers, worlds: seq<Tables>, limits: seq<nat>, times: seq<Int64>, pages: seq<seq<MessageId>>)
    requires Pulling(user, number, worlds, limits, times, pages)
    ensures InOrder(Concat(pages), number)
    ensures |pages| <= |RowIds(worlds[|worlds| - 1], user)| + 1
    ensures pages[|pages| - 1] == [] ==>
              && (forall s :: s in worlds[|worlds| - 1].offline && s.user == user ==> worlds[|worlds| - 1].offline[s].delivered)
              && (forall m :: m in PendingIds(worlds[0], user) ==> m in Concat(pages))
  {
    var n := |pages| - 1;
    SeenAfter(user, number, worlds, limits, times, pages, n);
    var seen, last := Concat(pages[..n]), worlds[n];
    hide Concat, Page, PendingIds, RowIds, Between, Consistent, Injective;
    PageFacts(last, user, number, limits[n]);
    WholeConcat(pages);
    Joined(seen, pages[n], number);
    OrderedFit(seen, RowIds(last, user), number);
    if pages[n] == [] {
      forall s | s in last.offline && s.user == user ensures last.offline[s].delivered {
        InPending(last, user, s.message);
        assert s == Slot(user, s.message);
      }
    }
  }

  lemma WholeConcat(pages: seq<seq<MessageId>>)
    requires |pages| > 0
    ensures Concat(pages) == Concat(pages[..|pages| - 1]) + pages[|pages| - 1]
  {
  }
}
