/** History pages: the query, and what a client gets that asks page after page. */
module History {
  import opened Base
  import opened Records

  const HARD_MAX_LIMIT: Uint32 := 50

  type Messages = map<MessageId, MessageRecord>

  datatype Query = Query(conversation: ConversationKey, before: MessageId, limit: Uint32)

  // ---- The limit of a request ---------------------------------------------------------------------

  /** What the constructor of the service demands of its options. */
  predicate GoodOptions(defaultLimit: Uint32, maxLimit: Uint32) {
    1 <= defaultLimit <= maxLimit <= HARD_MAX_LIMIT
  }

  /** `buildQuery`, its limit part: 0 is refused, a large one is cut. */
  function RequestedLimit(requested: Option<Uint64>, defaultLimit: Uint32, maxLimit: Uint32): (r: Result<Uint32>)
    requires GoodOptions(defaultLimit, maxLimit)
    ensures r.Success? ==> 1 <= r.value <= maxLimit
    ensures r.Failure? <==> requested == Some(0)
    ensures requested.None? ==> r == Success(defaultLimit)
    ensures requested.Some? && 1 <= requested.value <= maxLimit ==> r == Success(requested.value)
    ensures requested.Some? && requested.value > maxLimit ==> r == Success(maxLimit)
  {
    if requested.None? then Success(defaultLimit)
    else if requested.value == 0 then Failure(InvalidArgument)
    else Success(if requested.value > maxLimit then maxLimit else requested.value)
  }

  // ---- SELECT ... ORDER BY message_id DESC LIMIT n ----------------------------------------------

  lemma {:induction false} FindGreatest(ids: set<MessageId>) returns (m: MessageId)
    requires ids != {}
    ensures m in ids && forall x :: x in ids ==> x <= m
    decreases |ids|
  {
    var a :| a in ids;
    var rest := ids - {a};
    m := a;
    if rest != {} {
      var b := FindGreatest(rest);
      if a < b {
        m := b;
      }
    }
    forall x | x in ids ensures x <= m {
      assert x == a || x in rest;
    }
  }

  function Greatest(ids: set<MessageId>): (m: MessageId)
    requires ids != {}
    ensures m in ids && forall x :: x in ids ==> x <= m
  {
    assert exists m :: m in ids && forall x :: x in ids ==> x <= m by {
      var m := FindGreatest(ids);
    }
    var m :| m in ids && forall x :: x in ids ==> x <= m;
    m
  }

  /** All of them, the greatest first. */
  function Descending(ids: set<MessageId>): (r: seq<MessageId>)
    ensures |r| == |ids|
  {
    if ids == {} then [] else [Greatest(ids)] + Descending(ids - {Greatest(ids)})
  }

  lemma {:induction false} DescendingHas(ids: set<MessageId>)
    ensures forall x :: x in Descending(ids) <==> x in ids
    decreases |ids|
  {
    if ids != {} {
      DescendingHas(ids - {Greatest(ids)});
    }
  }

  function Under(ids: set<MessageId>, bound: MessageId): (r: set<MessageId>) {
    set x | x in ids && x < bound
  }

  function Below(ids: set<MessageId>, before: MessageId): (r: set<MessageId>) {
    if before == 0 then ids else Under(ids, before)
  }

  function Take(r: seq<MessageId>, n: nat): (p: seq<MessageId>) {
    if |r| <= n then r else r[..n]
  }

  function Page(ids: set<MessageId>, before: MessageId, limit: Uint32): (p: seq<MessageId>) {
    Take(Descending(Below(ids, before)), if limit < HARD_MAX_LIMIT then limit else HARD_MAX_LIMIT)
  }

  function IdsOf(t: Messages, c: ConversationKey): (ids: set<MessageId>) {
    set id | id in t && t[id].conversation == c
  }

  /** `getHistoryByConversation`. */
  method GetHistory(t: Messages, q: Query) returns (r: Result<seq<MessageRecord>>)
    ensures r.Failure? <==> q.conversation.id == 0 || q.limit == 0
    ensures r.Failure? ==> r.error == InvalidArgument
    ensures r.Success? ==>
              var page := Page(IdsOf(t, q.conversation), q.before, q.limit);
              |r.value| == |page| && forall i :: 0 <= i < |page| ==> page[i] in t && r.value[i] == t[page[i]]
  {
    if q.conversation.id == 0 || q.limit == 0 {
      return Failure(InvalidArgument);
    }
    var rows := Page(IdsOf(t, q.conversation), q.before, q.limit);
    PageIsBelow(IdsOf(t, q.conversation), q.before, q.limit);
    var messages: seq<MessageRecord> := [];
    for i := 0 to |rows|
      invariant |messages| == i && forall k :: 0 <= k < i ==> rows[k] in t && messages[k] == t[rows[k]]
    {
      assert rows[i] in rows;
      messages := messages + [t[rows[i]]];
    }
    return Success(messages);
  }

  /** A page holds as many as the limit and the cut at 50 allow: the greatest ids of the
      conversation below the cursor, the greatest first. */
  lemma PageIsExact(ids: set<MessageId>, before: MessageId, limit: Uint32)
    ensures var page := Page(ids, before, limit);
            && |page| <= limit && |page| <= 50 && |page| <= |Below(ids, before)|
            && (|page| == limit || |page| == 50 || |page| == |Below(ids, before)|)
            && StrictlyDescending(page)
            && (forall x :: x in page ==> x in ids && (before == 0 || x < before))
            && (forall x, y :: x in page && y in ids && (before == 0 || y < before) && y !in page ==> y < x)
  {
    hide Descending;
    var below := Below(ids, before);
    var all, page := Descending(below), Page(ids, before, limit);
    DescendingHas(below);
    DescendingDescends(below);
    PageIsBelow(ids, before, limit);
    forall x, y | x in page && y in below && y !in page ensures y < x {
      var i :| 0 <= i < |page| && page[i] == x;
      var j :| 0 <= j < |all| && all[j] == y;
      assert all[i] == x;
      assert j >= |page|;
    }
  }

  lemma PageIsBelow(ids: set<MessageId>, before: MessageId, limit: Uint32)
    ensures forall x :: x in Page(ids, before, limit) ==> x in Below(ids, before)
  {
    DescendingHas(Below(ids, before));
  }

  // ---- Paging -------------------------------------------------------------------------------------

  predicate StrictlyDescending(r: seq<MessageId>) {
    forall i, j :: 0 <= i < j < |r| ==> r[i] > r[j]
  }

  lemma {:induction false} DescendingDescends(ids: set<MessageId>)
    ensures StrictlyDescending(Descending(ids))
    decreases |ids|
  {
    if ids != {} {
      DescendingDescends(ids - {Greatest(ids)});
      DescendingHas(ids - {Greatest(ids)});
      var r := Descending(ids - {Greatest(ids)});
      forall j | 0 <= j < |r| ensures Greatest(ids) > r[j] {
        assert r[j] in r;
      }
    }
  }

  lemma BelowGreatest(ids: set<MessageId>, m: MessageId, bound: MessageId)
    requires bound <= m
    ensures Under(ids, bound) == Under(ids - {m}, bound)
  {
  }

  /** After the first k of the list comes the list of what lies below the k-th. */
  lemma {:induction false} RestIsBelow(ids: set<MessageId>, k: nat)
    requires 0 < k <= |ids|
    ensures Descending(ids)[k..] == Descending(Under(ids, Descending(ids)[k - 1]))
    decreases |ids|
  {
    var m := Greatest(ids);
    var rest := ids - {m};
    var all := Descending(ids);
    assert all == [m] + Descending(rest);
    hide Descending, Greatest;
    if k == 1 {
      BelowGreatest(ids, m, m);
      assert Under(rest, m) == rest;
    } else {
      RestIsBelow(rest, k - 1);
      var bound := Descending(rest)[k - 2];
      DescendingHas(rest);
      assert bound in rest;
      assert all[k - 1] == bound && all[k..] == Descending(rest)[k - 1..];
      BelowGreatest(ids, m, bound);
    }
  }

  /** A client that asks, each time, before the smallest id it has seen.  `worlds[k]` is the
      conversation at the k-th request: between two requests it only gains greater ids. */
  ghost predicate Paging(worlds: seq<set<MessageId>>, limits: seq<Uint32>, pages: seq<seq<MessageId>>) {
    && |worlds| == |limits| == |pages|
    && (forall k :: 0 <= k < |worlds| ==> limits[k] > 0 && 0 !in worlds[k])
    && (forall k :: 0 <= k < |worlds| - 1 ==> GainsGreater(worlds[k], worlds[k + 1]))
    && (forall k :: 0 <= k < |pages| - 1 ==> pages[k] != [])
    && (forall k :: 0 <= k < |pages| ==> pages[k] == Page(worlds[k], Cursor(pages, k), limits[k]))
  }

  ghost predicate GainsGreater(a: set<MessageId>, b: set<MessageId>) {
    a <= b && forall x, y :: x in b && x !in a && y in a ==> x > y
  }

  function Cursor(pages: seq<seq<MessageId>>, k: nat): (before: MessageId)
    requires k <= |pages|
  {
    if k == 0 || pages[k - 1] == [] then 0 else pages[k - 1][|pages[k - 1]| - 1]
  }

  function Concat(pages: seq<seq<MessageId>>): (r: seq<MessageId>) {
    if |pages| == 0 then [] else Concat(pages[..|pages| - 1]) + pages[|pages| - 1]
  }

  lemma {:induction false} GainsAlong(worlds: seq<set<MessageId>>, n: nat)
    requires n < |worlds|
    requires forall k :: 0 <= k < |worlds| - 1 ==> GainsGreater(worlds[k], worlds[k + 1])
    ensures GainsGreater(worlds[0], worlds[n])
  {
    if n > 0 {
      GainsAlong(worlds, n - 1);
      assert GainsGreater(worlds[n - 1], worlds[n]);
    }
  }

  /** What the first n pages are together. */
  ghost predicate Read(start: set<MessageId>, pages: seq<seq<MessageId>>, n: nat)
    requires n <= |pages|
  {
    var r := Concat(pages[..n]);
    && |r| <= |start| && r == Descending(start)[..|r|]
    && (n > 0 && pages[n - 1] != [] ==> r != [] && Cursor(pages, n) == r[|r| - 1])
  }

  /** New messages do not show: a page is the next stretch of the list at the start. */
  lemma NextStretch(start: set<MessageId>, world: set<MessageId>, k: nat, limit: Uint32)
    requires GainsGreater(start, world) && 0 !in world && k <= |start|
    requires k == 0 ==> world == start
    ensures Page(world, if k == 0 then 0 else Descending(start)[k - 1], limit)
         == Take(Descending(start)[k..], if limit < HARD_MAX_LIMIT then limit else HARD_MAX_LIMIT)
  {
    if k == 0 {
      assert Descending(start)[0..] == Descending(start);
    } else {
      hide Descending;
      RestIsBelow(start, k);
      DescendingHas(start);
      var cursor := Descending(start)[k - 1];
      assert cursor in start;
      assert Below(world, cursor) == Under(start, cursor);
    }
  }

  lemma Stretch(all: seq<MessageId>, r: seq<MessageId>, page: seq<MessageId>, n: nat)
    requires |r| <= |all| && r == all[..|r|] && page == Take(all[|r|..], n) && n > 0
    ensures |r + page| <= |all| && r + page == all[..|r + page|]
    ensures page == [] ==> |r| == |all|
  {
  }

  lemma {:induction false} PagesAreAPrefix(
    worlds: seq<set<MessageId>>, limits: seq<Uint32>, pages: seq<seq<MessageId>>, n: nat)
    requires Paging(worlds, limits, pages) && 0 < |pages| && n <= |pages|
    ensures Read(worlds[0], pages, n)
    ensures n < |pages| ==> |Concat(pages[..n])| >= n
    ensures n > 0 && pages[n - 1] == [] ==> |Concat(pages[..n])| == |worlds[0]|
  {
    hide Descending, Page, Paging, GainsGreater;
    if n > 0 {
      PagesAreAPrefix(worlds, limits, pages, n - 1);
      PageAt(worlds, limits, pages, n - 1);
      assert pages[..n][..n - 1] == pages[..n - 1];
      var start, r := worlds[0], Concat(pages[..n - 1]);
      NextStretch(start, worlds[n - 1], |r|, limits[n - 1]);
      Stretch(Descending(start), r, pages[n - 1], if limits[n - 1] < HARD_MAX_LIMIT then limits[n - 1] else HARD_MAX_LIMIT);
    }
  }

  lemma PageAt(worlds: seq<set<MessageId>>, limits: seq<Uint32>, pages: seq<seq<MessageId>>, k: nat)
    requires Paging(worlds, limits, pages) && k < |pages|
    ensures |worlds| == |limits| == |pages|
    ensures GainsGreater(worlds[0], worlds[k]) && 0 !in worlds[k] && limits[k] > 0
    ensures pages[k] == Page(worlds[k], Cursor(pages, k), limits[k])
    ensures (k > 0 ==> pages[k - 1] != []) && (k < |pages| - 1 ==> pages[k] != [])
  {
    GainsAlong(worlds, k);
  }

  /** Asking on until an empty page ends after at most one request per message and one more,
      and lists every message that was there at the start, once, in descending order. */
  lemma PagingListsEverything(worlds: seq<set<MessageId>>, limits: seq<Uint32>, pages: seq<seq<MessageId>>)
    requires Paging(worlds, limits, pages) && 0 < |pages|
    ensures |pages| <= |worlds[0]| + 1
    ensures pages[|pages| - 1] == [] ==>
              Concat(pages) == Descending(worlds[0]) && StrictlyDescending(Concat(pages))
              && forall x :: x in Concat(pages) <==> x in worlds[0]
  {
    var n := |pages|;
    PagesAreAPrefix(worlds, limits, pages, n - 1);
    PagesAreAPrefix(worlds, limits, pages, n);
    assert pages[..n] == pages;
    DescendingHas(worlds[0]);
    DescendingDescends(worlds[0]);
  }
}
