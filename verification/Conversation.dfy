/** Private conversation ids, as the server and the client make them and as history reads them. */
module Conversation {
  import opened Base
  import opened Records

  const SMALL_USER_ID_BASE: Uint64 := 10000
  const MAX_UINT32: Uint64 := 0xFFFF_FFFF

  function Min(a: Uint64, b: Uint64): (m: Uint64) {
    if a <= b then a else b
  }

  function Max(a: Uint64, b: Uint64): (m: Uint64) {
    if a <= b then b else a
  }

  /** `left * base + right` in 64 bits. */
  function SmallId(left: Uint64, right: Uint64): (id: Uint64) {
    (left * SMALL_USER_ID_BASE + right) % TWO_POW_64
  }

  /** `(left << 32) | right` in 64 bits, for a `right` of at most 32 bits. */
  function LargeId(left: Uint64, right: Uint64): (id: Uint64)
    requires right <= MAX_UINT32
  {
    (left * TWO_POW_32) % TWO_POW_64 / TWO_POW_32 * TWO_POW_32 + right
  }

  /** The server's `privateConversationId`. */
  function PrivateConversationId(sender: UserId, receiver: UserId): (r: Result<Uint64>) {
    if sender == 0 || receiver == 0 || sender == receiver then Failure(InvalidArgument)
    else
      var left, right := Min(sender, receiver), Max(sender, receiver);
      if left < SMALL_USER_ID_BASE && right < SMALL_USER_ID_BASE then Success(SmallId(left, right))
      else if right > MAX_UINT32 then Failure(InvalidArgument)
      else Success(LargeId(left, right))
  }

  /** The client's, where 0 stands for every refusal. */
  function ClientConversationId(a: UserId, b: UserId): (id: Uint64) {
    if a == 0 || b == 0 || a == b then 0
    else
      var left, right := Min(a, b), Max(a, b);
      if left < SMALL_USER_ID_BASE && right < SMALL_USER_ID_BASE then SmallId(left, right)
      else if right > MAX_UINT32 then 0
      else LargeId(left, right)
  }

  /** The decoder of the history service. */
  function DecodePrivateConversationId(id: Uint64): (r: Option<(UserId, UserId)>) {
    if id == 0 then None
    else
      var small := id < SMALL_USER_ID_BASE * SMALL_USER_ID_BASE;
      var left: Uint64 := if small then id / SMALL_USER_ID_BASE else id / TWO_POW_32;
      var right: Uint64 := if small then id % SMALL_USER_ID_BASE else id % TWO_POW_32;
      if left != 0 && right != 0 && left != right then Some((left, right)) else None
  }

  predicate IsPrivateConversationMember(user: UserId, id: Uint64) {
    var pair := DecodePrivateConversationId(id);
    pair.Some? && (user == pair.value.0 || user == pair.value.1)
  }

  // ---- Properties ---------------------------------------------------------------------------

  /** Which pairs have a conversation: distinct users that fit in 32 bits. */
  predicate CanTalk(a: UserId, b: UserId) {
    a != 0 && b != 0 && a != b && a <= MAX_UINT32 && b <= MAX_UINT32
  }

  /** No 64-bit overflow: the id is the exact integer, and 0 is never an id. */
  lemma NoOverflow(a: UserId, b: UserId)
    ensures PrivateConversationId(a, b).Success? <==> CanTalk(a, b)
    ensures CanTalk(a, b) ==>
              var left, right := Min(a, b), Max(a, b);
              && PrivateConversationId(a, b).value
                   == (if right < SMALL_USER_ID_BASE then left * SMALL_USER_ID_BASE + right
                       else left * TWO_POW_32 + right)
              && 0 < PrivateConversationId(a, b).value
  {
    if CanTalk(a, b) {
      var left, right := Min(a, b), Max(a, b);
      if right < SMALL_USER_ID_BASE {
        assert left * SMALL_USER_ID_BASE + right < TWO_POW_64;
      } else {
        assert left * TWO_POW_32 <= MAX_UINT32 * TWO_POW_32 < TWO_POW_64;
        assert (left * TWO_POW_32) % TWO_POW_64 == left * TWO_POW_32;
        assert left * TWO_POW_32 / TWO_POW_32 == left;
      }
    }
  }

  lemma Symmetric(a: UserId, b: UserId)
    ensures PrivateConversationId(a, b) == PrivateConversationId(b, a)
    ensures ClientConversationId(a, b) == ClientConversationId(b, a)
  {
  }

  /** The client computes the server's id, and 0 exactly where the server refuses. */
  lemma ClientAgrees(a: UserId, b: UserId)
    ensures match PrivateConversationId(a, b)
            case Success(id) => ClientConversationId(a, b) == id && id != 0
            case Failure(_) => ClientConversationId(a, b) == 0
  {
    NoOverflow(a, b);
  }

  /** The decoder gives the two users back, across the small and the large encoding. */
  lemma DecodeOfId(a: UserId, b: UserId)
    requires CanTalk(a, b)
    ensures PrivateConversationId(a, b).Success?
    ensures DecodePrivateConversationId(PrivateConversationId(a, b).value) == Some((Min(a, b), Max(a, b)))
  {
    NoOverflow(a, b);
    var left, right := Min(a, b), Max(a, b);
    var id := PrivateConversationId(a, b).value;
    if right < SMALL_USER_ID_BASE {
      assert left * 10000 + right <= 9998 * 10000 + 9999;
      assert id / 10000 == left && id % 10000 == right;
    } else {
      assert id >= TWO_POW_32 + right;
      assert id / TWO_POW_32 == left && id % TWO_POW_32 == right;
    }
  }

  /** One id per unordered pair. */
  lemma Injective(a: UserId, b: UserId, c: UserId, d: UserId)
    requires CanTalk(a, b) && CanTalk(c, d)
    requires PrivateConversationId(a, b) == PrivateConversationId(c, d)
    ensures {a, b} == {c, d}
  {
    DecodeOfId(a, b);
    DecodeOfId(c, d);
    assert Min(a, b) == Min(c, d) && Max(a, b) == Max(c, d);
    assert (a == c && b == d) || (a == d && b == c);
  }

  /** History admits exactly the two participants. */
  lemma ExactlyTheTwo(a: UserId, b: UserId, user: UserId)
    requires CanTalk(a, b)
    ensures PrivateConversationId(a, b).Success?
    ensures IsPrivateConversationMember(user, PrivateConversationId(a, b).value) <==> user == a || user == b
  {
    DecodeOfId(a, b);
  }
}
