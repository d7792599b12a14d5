/** The strings kept in Redis: online sessions, login-failure keys and unread keys. */
module CacheCodec {
  import opened Base
  import opened Records

  // ---- Decimal numbers ---------------------------------------------------------------------------

  predicate IsDigit(c: char) {
    '0' <= c <= '9'
  }

  predicate AllDigits(s: string) {
    forall i :: 0 <= i < |s| ==> IsDigit(s[i])
  }

  function Digit(d: int): (c: char)
    requires 0 <= d < 10
    ensures IsDigit(c) && c as int - '0' as int == d
  {
    ('0' as int + d) as char
  }

  /** `std::to_string` and `operator<<` of an unsigned number. */
  function Decimal(n: nat): (s: string)
    ensures |s| > 0 && AllDigits(s)
  {
    if n < 10 then [Digit(n)] else Decimal(n / 10) + [Digit(n % 10)]
  }

  function SignedDecimal(n: int): (s: string) {
    if n < 0 then "-" + Decimal(-n) else Decimal(n)
  }

  function NumberOf(s: string): (n: nat)
    requires AllDigits(s)
  {
    if |s| == 0 then 0 else 10 * NumberOf(s[..|s| - 1]) + (s[|s| - 1] as int - '0' as int)
  }

  lemma {:induction false} NumberOfDecimal(n: nat)
    ensures NumberOf(Decimal(n)) == n
  {
    if n >= 10 {
      NumberOfDecimal(n / 10);
      assert Decimal(n)[..|Decimal(n)| - 1] == Decimal(n / 10);
    }
  }

  // ---- `stoull` and `stoll` ------------------------------------------------------------------------

  predicate IsSpace(c: char) {
    c == ' ' || '\t' <= c <= '\r'
  }

  function Spaces(s: string): (n: nat)
    ensures n <= |s|
  {
    if |s| > 0 && IsSpace(s[0]) then 1 + Spaces(s[1..]) else 0
  }

  function Digits(s: string): (n: nat)
    ensures n <= |s| && AllDigits(s[..n])
  {
    if |s| > 0 && IsDigit(s[0]) then
      var n := 1 + Digits(s[1..]);
      assert s[..n] == [s[0]] + s[1..][..n - 1];
      n
    else 0
  }

  /** Sign, magnitude and number of characters used; None where no digit is found. */
  function Scan(s: string): (r: Option<(bool, nat, nat)>) {
    var a := Spaces(s);
    var signed := a < |s| && (s[a] == '+' || s[a] == '-');
    var b := if signed then a + 1 else a;
    var n := Digits(s[b..]);
    if n == 0 then None else Some((signed && s[a] == '-', NumberOf(s[b..][..n]), b + n))
  }

  /** `std::stoull` with the whole string used: a minus sign wraps, an overflow throws. */
  function ParseUint64(s: string): (r: Result<Uint64>) {
    match Scan(s)
    case None => Failure(ParseError)
    case Some((minus, n, used)) =>
      if n >= TWO_POW_64 || used != |s| then Failure(ParseError)
      else Success(if minus then (TWO_POW_64 - n) % TWO_POW_64 else n)
  }

  function ParseInt64(s: string): (r: Result<Int64>) {
    match Scan(s)
    case None => Failure(ParseError)
    case Some((minus, n, used)) =>
      if used != |s| then Failure(ParseError)
      else if minus && n <= TWO_POW_63 then Success(0 - (n as int))
      else if !minus && n < TWO_POW_63 then Success(n)
      else Failure(ParseError)
  }

  lemma {:induction false} AllAreDigits(s: string)
    requires AllDigits(s)
    ensures Digits(s) == |s|
  {
    if |s| > 0 {
      AllAreDigits(s[1..]);
    }
  }

  lemma ScanDigits(s: string)
    requires AllDigits(s) && |s| > 0
    ensures Scan(s) == Some((false, NumberOf(s), |s|))
  {
    AllAreDigits(s);
    assert IsDigit(s[0]);
    assert s[0..] == s && s[..|s|] == s;
  }

  lemma ScanMinus(s: string)
    requires AllDigits(s) && |s| > 0
    ensures Scan("-" + s) == Some((true, NumberOf(s), 1 + |s|))
  {
    AllAreDigits(s);
    assert ("-" + s)[1..] == s && s[..|s|] == s;
  }

  lemma ScanDecimal(n: nat)
    ensures Scan(Decimal(n)) == Some((false, n, |Decimal(n)|))
    ensures Scan("-" + Decimal(n)) == Some((true, n, 1 + |Decimal(n)|))
  {
    hide Scan;
    NumberOfDecimal(n);
    ScanDigits(Decimal(n));
    ScanMinus(Decimal(n));
  }

  lemma ParsesDecimal(n: Uint64)
    ensures ParseUint64(Decimal(n)) == Success(n)
  {
    ScanDecimal(n);
  }

  lemma ParsesSignedDecimal(n: Int64)
    ensures ParseInt64(SignedDecimal(n)) == Success(n)
  {
    hide Scan, Decimal;
    if n < 0 {
      var magnitude: nat := 0 - (n as int);
      ScanDecimal(magnitude);
    } else {
      ScanDecimal(n);
    }
  }

  lemma DecimalInjective(m: nat, n: nat)
    requires Decimal(m) == Decimal(n)
    ensures m == n
  {
    NumberOfDecimal(m);
    NumberOfDecimal(n);
  }

  // ---- Tokens -------------------------------------------------------------------------------------

  predicate NoColon(s: string) {
    forall i :: 0 <= i < |s| ==> s[i] != ':'
  }

  /** The text before and after the first colon. */
  function NextToken(s: string): (r: Option<(string, string)>) {
    if |s| == 0 then None
    else if s[0] == ':' then Some(("", s[1..]))
    else match NextToken(s[1..])
      case None => None
      case Some((token, rest)) => Some(([s[0]] + token, rest))
  }

  lemma {:induction false} TokenOf(token: string, rest: string)
    requires NoColon(token)
    ensures NextToken(token + ":" + rest) == Some((token, rest))
  {
    var s := token + ":" + rest;
    if |token| == 0 {
      assert s[1..] == rest;
    } else {
      TokenOf(token[1..], rest);
      assert s[1..] == token[1..] + ":" + rest;
      assert [token[0]] + token[1..] == token;
    }
  }

  lemma DecimalToken(n: nat, rest: string)
    ensures NextToken(Decimal(n) + ":" + rest) == Some((Decimal(n), rest))
  {
    TokenOf(Decimal(n), rest);
  }

  lemma {:induction false} TokenAt(s: string, at: nat)
    requires at < |s| && s[at] == ':' && NoColon(s[..at])
    ensures NextToken(s) == Some((s[..at], s[at + 1..]))
  {
    TokenOf(s[..at], s[at + 1..]);
    assert s == s[..at] + ":" + s[at + 1..];
  }

  lemma {:induction false} NoToken(s: string)
    requires NoColon(s)
    ensures NextToken(s).None?
  {
    if |s| > 0 {
      NoToken(s[1..]);
    }
  }

  /** `readToken`: finds the next colon from `offset` on and moves past it. */
  method ReadToken(value: string, offset: nat) returns (found: bool, token: string, next: nat)
    requires offset <= |value|
    ensures offset <= next <= |value|
    ensures NextToken(value[offset..]) == if found then Some((token, value[next..])) else None
    ensures !found ==> next == offset
  {
    for i := offset to |value|
      invariant NoColon(value[offset..i])
    {
      assert value[offset..i + 1] == value[offset..i] + [value[i]];
      if value[i] == ':' {
        var rest := value[offset..];
        assert rest[..i - offset] == value[offset..i] && rest[i - offset + 1..] == value[i + 1..];
        TokenAt(rest, i - offset);
        return true, value[offset..i], i + 1;
      }
    }
    assert value[offset..|value|] == value[offset..];
    NoToken(value[offset..]);
    return false, "", offset;
  }

  // ---- Online sessions ----------------------------------------------------------------------------

  datatype OnlineSession = OnlineSession(userId: UserId, sessionId: Uint64, lastActiveMs: Int64, serverId: string)

  predicate ValidSession(s: OnlineSession) {
    s.userId != 0 && s.sessionId != 0 && s.serverId != ""
  }

  function SerializeSession(s: OnlineSession): (v: string) {
    "v1:" + Decimal(s.userId) + ":" + Decimal(s.sessionId) + ":" + SignedDecimal(s.lastActiveMs) + ":"
    + Decimal(|s.serverId|) + ":" + s.serverId
  }

  function ParseNumberToken(s: string): (r: Result<(Uint64, string)>) {
    match NextToken(s)
    case None => Failure(ParseError)
    case Some((token, rest)) =>
      match ParseUint64(token)
      case Failure(e) => Failure(e)
      case Success(n) => Success((n, rest))
  }

  function ParseTimeToken(s: string): (r: Result<(Int64, string)>) {
    match NextToken(s)
    case None => Failure(ParseError)
    case Some((token, rest)) =>
      match ParseInt64(token)
      case Failure(e) => Failure(e)
      case Success(n) => Success((n, rest))
  }

  /** What a stored value means. */
  function SessionOf(v: string): (r: Result<OnlineSession>) {
    if !("v1:" <= v) then Failure(ParseError)
    else
      var user := ParseNumberToken(v[3..]);
      if user.Failure? then Failure(user.error) else
      var session := ParseNumberToken(user.value.1);
      if session.Failure? then Failure(session.error) else
      var time := ParseTimeToken(session.value.1);
      if time.Failure? then Failure(time.error) else
      var size := ParseNumberToken(time.value.1);
      if size.Failure? then Failure(size.error)
      else if |size.value.1| != size.value.0 then Failure(ParseError)
      else
        var s := OnlineSession(user.value.0, session.value.0, time.value.0, size.value.1);
        if ValidSession(s) then Success(s) else Failure(InvalidArgument)
  }

  /** `parseSessionValue`, with its offset. */
  method ParseSessionValue(v: string) returns (r: Result<OnlineSession>)
    ensures r == SessionOf(v)
  {
    if !("v1:" <= v) {
      return Failure(ParseError);
    }
    var offset := 3;
    var found, token, next := ReadToken(v, offset);
    if !found {
      return Failure(ParseError);
    }
    var user := ParseUint64(token);
    if user.Failure? {
      return Failure(user.error);
    }
    offset := next;
    found, token, next := ReadToken(v, offset);
    if !found {
      return Failure(ParseError);
    }
    var session := ParseUint64(token);
    if session.Failure? {
      return Failure(session.error);
    }
    offset := next;
    found, token, next := ReadToken(v, offset);
    if !found {
      return Failure(ParseError);
    }
    var time := ParseInt64(token);
    if time.Failure? {
      return Failure(time.error);
    }
    offset := next;
    found, token, next := ReadToken(v, offset);
    if !found {
      return Failure(ParseError);
    }
    var size := ParseUint64(token);
    if size.Failure? {
      return Failure(size.error);
    }
    offset := next;
    if size.value > |v| - offset {
      return Failure(ParseError);
    }
    var server := v[offset..];
    if |server| != size.value {
      return Failure(ParseError);
    }
    var s := OnlineSession(user.value, session.value, time.value, server);
    return if ValidSession(s) then Success(s) else Failure(InvalidArgument);
  }

  lemma {:induction false} TokenSplits(s: string)
    requires NextToken(s).Some?
    ensures NoColon(NextToken(s).value.0) && s == NextToken(s).value.0 + ":" + NextToken(s).value.1
  {
    if s[0] != ':' {
      TokenSplits(s[1..]);
    }
  }

  /** The text of a value with these parts. */
  function Joined(user: string, session: string, time: string, size: string, server: string): (v: string) {
    "v1:" + (user + ":" + (session + ":" + (time + ":" + (size + ":" + server))))
  }

  /** Exactly these texts are read as this session: a version, four numbers that end at their
      colons, the last of which is the length of the server id, and the server id. */
  ghost predicate Reads(v: string, s: OnlineSession, user: string, session: string, time: string, size: string) {
    && v == Joined(user, session, time, size, s.serverId)
    && NoColon(user) && NoColon(session) && NoColon(time) && NoColon(size)
    && ParseUint64(user) == Success(s.userId) && ParseUint64(session) == Success(s.sessionId)
    && ParseInt64(time) == Success(s.lastActiveMs) && ParseUint64(size) == Success(|s.serverId|)
    && s.userId != 0 && s.sessionId != 0 && s.serverId != ""
  }

  lemma ReadsAccepted(v: string) returns (user: string, session: string, time: string, size: string)
    requires SessionOf(v).Success?
    ensures Reads(v, SessionOf(v).value, user, session, time, size)
  {
    hide ParseUint64, ParseInt64, NextToken;
    var r0 := v[3..];
    TokenSplits(r0);
    user := NextToken(r0).value.0;
    var r1 := NextToken(r0).value.1;
    TokenSplits(r1);
    session := NextToken(r1).value.0;
    var r2 := NextToken(r1).value.1;
    TokenSplits(r2);
    time := NextToken(r2).value.0;
    var r3 := NextToken(r2).value.1;
    TokenSplits(r3);
    size := NextToken(r3).value.0;
    assert v == "v1:" + r0;
  }

  lemma AcceptsReads(v: string, s: OnlineSession, user: string, session: string, time: string, size: string)
    requires Reads(v, s, user, session, time, size)
    ensures SessionOf(v) == Success(s)
  {
    hide ParseUint64, ParseInt64, NextToken;
    var r3 := size + ":" + s.serverId;
    var r2 := time + ":" + r3;
    var r1 := session + ":" + r2;
    var r0 := user + ":" + r1;
    assert v[3..] == r0;
    TokenOf(user, r1);
    TokenOf(session, r2);
    TokenOf(time, r3);
    TokenOf(size, s.serverId);
  }

  /** Which stored values are accepted, and as what. */
  lemma AcceptsExactly(v: string, s: OnlineSession)
    ensures SessionOf(v) == Success(s) <==> exists user, session, time, size :: Reads(v, s, user, session, time, size)
  {
    hide SessionOf, Reads;
    if SessionOf(v) == Success(s) {
      var user, session, time, size := ReadsAccepted(v);
    }
    if exists user, session, time, size :: Reads(v, s, user, session, time, size) {
      var user, session, time, size :| Reads(v, s, user, session, time, size);
      AcceptsReads(v, s, user, session, time, size);
    }
  }

  /** Every valid session is read back as it was written, whatever its server id holds. */
  lemma SessionRoundTrip(s: OnlineSession)
    requires ValidSession(s) && |s.serverId| < TWO_POW_64
    ensures SessionOf(SerializeSession(s)) == Success(s)
  {
    hide ParseUint64, ParseInt64, NextToken, Decimal, SignedDecimal;
    var v := SerializeSession(s);
    var r3 := Decimal(|s.serverId|) + ":" + s.serverId;
    var r2 := SignedDecimal(s.lastActiveMs) + ":" + r3;
    var r1 := Decimal(s.sessionId) + ":" + r2;
    var r0 := Decimal(s.userId) + ":" + r1;
    assert v == "v1:" + r0;
    assert v[3..] == r0;
    DecimalToken(s.userId, r1);
    ParsesDecimal(s.userId);
    DecimalToken(s.sessionId, r2);
    ParsesDecimal(s.sessionId);
    SignedToken(s.lastActiveMs, r3);
    ParsesSignedDecimal(s.lastActiveMs);
    DecimalToken(|s.serverId|, s.serverId);
    ParsesDecimal(|s.serverId|);
  }

  lemma SignedToken(n: int, rest: string)
    ensures NextToken(SignedDecimal(n) + ":" + rest) == Some((SignedDecimal(n), rest))
  {
    TokenOf(SignedDecimal(n), rest);
  }

  // ---- Keys -----------------------------------------------------------------------------------------

  function OnlineKey(user: UserId): (k: string) {
    "online:user:" + Decimal(user)
  }

  function LoginFailureKey(username: string, ip: string): (k: string) {
    "login:failure:" + Decimal(|username|) + ":" + username + ":" + Decimal(|ip|) + ":" + ip
  }

  function UnreadKey(user: UserId, c: ConversationKey): (k: string) {
    "unread:user:" + Decimal(user) + ":conversation:" + Decimal(TypeCode(c.kind)) + ":" + Decimal(c.id)
  }

  lemma SameTail(prefix: string, x: string, y: string)
    requires prefix + x == prefix + y
    ensures x == y
  {
    assert (prefix + x)[|prefix|..] == x;
    assert (prefix + y)[|prefix|..] == y;
  }

  /** A decimal, a colon and a rest determine the number and the rest. */
  lemma SameNumber(m: nat, n: nat, x: string, y: string)
    requires Decimal(m) + ":" + x == Decimal(n) + ":" + y
    ensures m == n && x == y
  {
    DecimalToken(m, x);
    DecimalToken(n, y);
    DecimalInjective(m, n);
  }

  lemma OnlineKeyInjective(user1: UserId, user2: UserId)
    requires OnlineKey(user1) == OnlineKey(user2)
    ensures user1 == user2
  {
    SameTail("online:user:", Decimal(user1), Decimal(user2));
    DecimalInjective(user1, user2);
  }

  /** Different names or addresses never share a key, colons and digits in them or not. */
  lemma LoginFailureKeyInjective(name1: string, ip1: string, name2: string, ip2: string)
    requires LoginFailureKey(name1, ip1) == LoginFailureKey(name2, ip2)
    ensures name1 == name2 && ip1 == ip2
  {
    hide Decimal;
    var x := name1 + ":" + Decimal(|ip1|) + ":" + ip1;
    var y := name2 + ":" + Decimal(|ip2|) + ":" + ip2;
    assert LoginFailureKey(name1, ip1) == "login:failure:" + (Decimal(|name1|) + ":" + x);
    assert LoginFailureKey(name2, ip2) == "login:failure:" + (Decimal(|name2|) + ":" + y);
    SameTail("login:failure:", Decimal(|name1|) + ":" + x, Decimal(|name2|) + ":" + y);
    SameNumber(|name1|, |name2|, x, y);
    assert x[..|name1|] == name1 && y[..|name2|] == name2;
    var p := Decimal(|ip1|) + ":" + ip1;
    var q := Decimal(|ip2|) + ":" + ip2;
    assert x == name1 + ":" + p && y == name2 + ":" + q;
    SameTail(name1 + ":", p, q);
    SameNumber(|ip1|, |ip2|, ip1, ip2);
  }

  /** The part of an unread key after the user. */
  function ConversationPart(c: ConversationKey): (k: string) {
    Decimal(TypeCode(c.kind)) + ":" + Decimal(c.id)
  }

  lemma UnreadKeyParts(user: UserId, c: ConversationKey)
    ensures UnreadKey(user, c) == "unread:user:" + (Decimal(user) + ":" + ("conversation:" + ConversationPart(c)))
  {
    hide Decimal, TypeCode;
    var number := Decimal(user);
    assert number + ":conversation:" == number + ":" + "conversation:";
  }

  lemma UnreadKeyInjective(user1: UserId, c1: ConversationKey, user2: UserId, c2: ConversationKey)
    requires UnreadKey(user1, c1) == UnreadKey(user2, c2)
    ensures user1 == user2 && c1 == c2
  {
    hide Decimal, UnreadKey;
    var x, y := "conversation:" + ConversationPart(c1), "conversation:" + ConversationPart(c2);
    UnreadKeyParts(user1, c1);
    UnreadKeyParts(user2, c2);
    SameTail("unread:user:", Decimal(user1) + ":" + x, Decimal(user2) + ":" + y);
    SameNumber(user1, user2, x, y);
    SameTail("conversation:", ConversationPart(c1), ConversationPart(c2));
    SameNumber(TypeCode(c1.kind), TypeCode(c2.kind), Decimal(c1.id), Decimal(c2.id));
    DecimalInjective(c1.id, c2.id);
  }
}
