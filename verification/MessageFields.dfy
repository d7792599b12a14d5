/**
 Messages on the wire: the server appends the fields of each message to one body, and
 the client recovers the list from the columns of the parsed body.
 */
module MessageFields {
  import opened Base
  import opened ByteOrder
  import opened Records
  import opened Tlv
  import Packet

  function ToUint64(n: Int64): (m: Uint64) {
    if n < 0 then n + TWO_POW_64 else n
  }

  function ToInt64(n: Uint64): (m: Int64) {
    if n >= TWO_POW_63 then n - TWO_POW_64 else n
  }

  // ---- The server side --------------------------------------------------------------------

  /** The fields of one message, in the order they are written. */
  function FieldsOf(m: MessageRecord): (fs: seq<Field>) {
    [ Field(MESSAGE_ID, BE(m.messageId, 8)),
      Field(CONVERSATION_TYPE, BE(TypeCode(m.conversation.kind), 8)),
      Field(CONVERSATION_ID, BE(m.conversation.id, 8)),
      Field(SENDER_ID, BE(m.senderId, 8)),
      Field(RECEIVER_ID, BE(m.receiverId, 8)),
      Field(MESSAGE_TEXT, m.text) ]
    + (if m.clientMsgId != [] then [Field(CLIENT_MESSAGE_ID, m.clientMsgId)] else [])
    + [ Field(TIMESTAMP_MS, BE(ToUint64(m.createdAtMs), 8)) ]
  }

  function FieldsOfAll(ms: seq<MessageRecord>): (fs: seq<Field>) {
    if |ms| == 0 then [] else FieldsOf(ms[0]) + FieldsOfAll(ms[1..])
  }

  predicate Sendable(m: MessageRecord) {
    |m.text| <= MAX_TLV_VALUE_LENGTH && |m.clientMsgId| <= MAX_TLV_VALUE_LENGTH
  }

  predicate AllSendable(ms: seq<MessageRecord>) {
    forall i :: 0 <= i < |ms| ==> Sendable(ms[i])
  }

  lemma FieldsFit(m: MessageRecord)
    requires Sendable(m)
    ensures AllFit(FieldsOf(m))
  {
  }

  lemma {:induction false} AllFieldsFit(ms: seq<MessageRecord>)
    requires AllSendable(ms)
    ensures AllFit(FieldsOfAll(ms))
    decreases |ms|
  {
    hide FieldsOf;
    if |ms| > 0 {
      FieldsFit(ms[0]);
      AllFieldsFit(ms[1..]);
    }
  }

  lemma {:induction false} BodyAppend(a: seq<Field>, b: seq<Field>)
    requires AllFit(a) && AllFit(b)
    ensures AllFit(a + b)
    ensures BodyBytes(a + b) == BodyBytes(a) + BodyBytes(b)
    decreases |a|
  {
    hide FieldBytes;
    if |a| == 0 {
      assert a + b == b;
    } else {
      BodyAppend(a[1..], b);
      assert (a + b)[1..] == a[1..] + b;
    }
  }

  lemma BodyOfOne(f: Field)
    requires Fits(f)
    ensures BodyBytes([f]) == FieldBytes(f)
  {
    assert [f][1..] == [];
  }

  lemma NothingYet()
    ensures FieldsOfAll([]) == [] && BodyBytes([]) == []
  {
  }

  /** Appends one more field to a body that already prints `fs`. */
  method AddString(kind: TlvType, value: Bytes, body: Bytes, ghost start: Bytes, ghost fs: seq<Field>)
    returns (status: Result<()>, r: Bytes)
    requires kind != TLV_UNKNOWN
    requires AllFit(fs) && body == start + BodyBytes(fs)
    ensures status.Success? <==> Fits(Field(kind, value))
    ensures status.Success? ==> AllFit(fs + [Field(kind, value)])
                                && r == start + BodyBytes(fs + [Field(kind, value)])
    ensures status.Failure? ==> status.error == InvalidArgument
  {
    hide FieldBytes, BodyBytes;
    status, r := AppendString(kind, value, body);
    if status.Success? {
      BodyOfOne(Field(kind, value));
      BodyAppend(fs, [Field(kind, value)]);
    }
  }

  method AddUint64(kind: TlvType, value: Uint64, body: Bytes, ghost start: Bytes, ghost fs: seq<Field>)
    returns (r: Bytes)
    requires kind != TLV_UNKNOWN
    requires AllFit(fs) && body == start + BodyBytes(fs)
    ensures AllFit(fs + [Field(kind, BE(value, 8))])
    ensures r == start + BodyBytes(fs + [Field(kind, BE(value, 8))])
  {
    hide FieldBytes, BodyBytes;
    var status;
    status, r := AppendUint64(kind, value, body);
    BodyOfOne(Field(kind, BE(value, 8)));
    BodyAppend(fs, [Field(kind, BE(value, 8))]);
  }

  method AppendMessageFields(m: MessageRecord, body: Bytes) returns (status: Result<()>, r: Bytes)
    ensures status.Success? <==> Sendable(m)
    ensures status.Success? ==> AllFit(FieldsOf(m)) && r == body + BodyBytes(FieldsOf(m))
    ensures status.Failure? ==> status.error == InvalidArgument
  {
    hide BE, FieldBytes, BodyBytes;
    ghost var fs: seq<Field> := [];
    NothingYet();
    assert body == body + BodyBytes([]);
    r := AddUint64(MESSAGE_ID, m.messageId, body, body, fs);
    fs := fs + [Field(MESSAGE_ID, BE(m.messageId, 8))];
    r := AddUint64(CONVERSATION_TYPE, TypeCode(m.conversation.kind), r, body, fs);
    fs := fs + [Field(CONVERSATION_TYPE, BE(TypeCode(m.conversation.kind), 8))];
    r := AddUint64(CONVERSATION_ID, m.conversation.id, r, body, fs);
    fs := fs + [Field(CONVERSATION_ID, BE(m.conversation.id, 8))];
    r := AddUint64(SENDER_ID, m.senderId, r, body, fs);
    fs := fs + [Field(SENDER_ID, BE(m.senderId, 8))];
    r := AddUint64(RECEIVER_ID, m.receiverId, r, body, fs);
    fs := fs + [Field(RECEIVER_ID, BE(m.receiverId, 8))];
    status, r := AddString(MESSAGE_TEXT, m.text, r, body, fs);
    if status.Failure? {
      return;
    }
    fs := fs + [Field(MESSAGE_TEXT, m.text)];
    if |m.clientMsgId| != 0 {
      status, r := AddString(CLIENT_MESSAGE_ID, m.clientMsgId, r, body, fs);
      if status.Failure? {
        return;
      }
      fs := fs + [Field(CLIENT_MESSAGE_ID, m.clientMsgId)];
    }
    r := AddUint64(TIMESTAMP_MS, ToUint64(m.createdAtMs), r, body, fs);
    fs := fs + [Field(TIMESTAMP_MS, BE(ToUint64(m.createdAtMs), 8))];
    assert fs == FieldsOf(m);
    status := Success(());
  }

  /** The response loop of the history and offline handlers. */
  method AppendMessages(ms: seq<MessageRecord>, body: Bytes) returns (status: Result<()>, r: Bytes)
    ensures status.Success? <==> AllSendable(ms)
    ensures status.Success? ==> AllFit(FieldsOfAll(ms)) && r == body + BodyBytes(FieldsOfAll(ms))
  {
    hide FieldsOf, FieldsOfAll, FieldBytes, BodyBytes, Sendable;
    r := body;
    NothingYet();
    assert ms[..0] == [] && body == body + BodyBytes([]);
    for i := 0 to |ms|
      invariant AllSendable(ms[..i])
      invariant AllFit(FieldsOfAll(ms[..i])) && r == body + BodyBytes(FieldsOfAll(ms[..i]))
    {
      status, r := AppendMessageFields(ms[i], r);
      if status.Failure? {
        return;
      }
      AllFieldsAppend(ms[..i], ms[i]);
      assert ms[..i + 1] == ms[..i] + [ms[i]];
      BodyAppend(FieldsOfAll(ms[..i]), FieldsOf(ms[i]));
      assert r == body + (BodyBytes(FieldsOfAll(ms[..i])) + BodyBytes(FieldsOf(ms[i])));
    }
    assert ms[..|ms|] == ms;
    status := Success(());
  }

  lemma {:induction false} AllFieldsAppend(ms: seq<MessageRecord>, m: MessageRecord)
    ensures FieldsOfAll(ms + [m]) == FieldsOfAll(ms) + FieldsOf(m)
    decreases |ms|
  {
    hide FieldsOf;
    if |ms| == 0 {
      assert ms + [m] == [m] && [m][1..] == [];
    } else {
      AllFieldsAppend(ms[1..], m);
      assert (ms + [m])[1..] == ms[1..] + [m];
    }
  }

  // ---- The client side -----------------------------------------------------------------------

  /** The conversation key of the client: its peer, or the group. */
  datatype ChatKey = PeerChat(peer: Uint64) | GroupChat(group: Uint64)

  datatype ChatMessage = ChatMessage(
    messageId: Uint64, senderId: Uint64, chat: ChatKey, text: Bytes, sentAtMs: Int64, outgoing: bool)

  function ChatKeyFor(self: Uint64, kind: Uint64, id: Uint64, sender: Uint64, receiver: Uint64): (k: ChatKey) {
    if kind == 2 then GroupChat(id) else PeerChat(if sender == self then receiver else sender)
  }

  /** What the client shows for a stored message. */
  function Shown(self: Uint64, m: MessageRecord): (c: ChatMessage) {
    ChatMessage(
      m.messageId, m.senderId,
      match m.conversation.kind
      case Group => GroupChat(m.conversation.id)
      case Private => PeerChat(if m.senderId == self then m.receiverId else m.senderId),
      m.text, m.createdAtMs, m.senderId == self)
  }

  /** The seven columns, in the order in which the client asks for them. */
  datatype Columns = Columns(
    ids: seq<Uint64>, kinds: seq<Uint64>, conversations: seq<Uint64>, senders: seq<Uint64>, receivers: seq<Uint64>,
    texts: seq<Bytes>, times: seq<Uint64>)

  /** The columns are those of the body. */
  ghost predicate AreColumns(c: Columns, fs: seq<Field>) {
    && NumberColumn(fs, MESSAGE_ID) == Success(c.ids) && NumberColumn(fs, CONVERSATION_TYPE) == Success(c.kinds)
    && NumberColumn(fs, CONVERSATION_ID) == Success(c.conversations) && NumberColumn(fs, SENDER_ID) == Success(c.senders)
    && NumberColumn(fs, RECEIVER_ID) == Success(c.receivers)
    && Column(fs, MESSAGE_TEXT) == c.texts != [] && NumberColumn(fs, TIMESTAMP_MS) == Success(c.times)
  }

  predicate SameLength(c: Columns) {
    |c.kinds| == |c.conversations| == |c.senders| == |c.receivers| == |c.texts| == |c.times| == |c.ids|
  }

  /** Reads the seven columns; the first that fails decides the error. */
  method ReadColumns(fields: TlvMap, ghost fs: seq<Field>) returns (r: Result<Columns>)
    requires Indexes(fields, fs)
    ensures r.Success? ==> AreColumns(r.value, fs)
    ensures r.Failure? ==> forall self :: Column(fs, MESSAGE_ID) != [] ==> RecoveredFields(self, fs) == Failure(r.error)
  {
    hide NumberColumn, Column, Indexes, Rows;
    var ids := GetRepeatedUint64(fields, MESSAGE_ID);
    if ids.Failure? { return Failure(ids.error); }
    var kinds := GetRepeatedUint64(fields, CONVERSATION_TYPE);
    if kinds.Failure? { return Failure(kinds.error); }
    var conversations := GetRepeatedUint64(fields, CONVERSATION_ID);
    if conversations.Failure? { return Failure(conversations.error); }
    var senders := GetRepeatedUint64(fields, SENDER_ID);
    if senders.Failure? { return Failure(senders.error); }
    var receivers := GetRepeatedUint64(fields, RECEIVER_ID);
    if receivers.Failure? { return Failure(receivers.error); }
    var texts := GetRepeatedString(fields, MESSAGE_TEXT);
    if texts.Failure? { return Failure(texts.error); }
    var times := GetRepeatedUint64(fields, TIMESTAMP_MS);
    if times.Failure? { return Failure(times.error); }
    return Success(Columns(ids.value, kinds.value, conversations.value, senders.value, receivers.value, texts.value,
                           times.value));
  }

  /** The loop that reads the columns side by side. */
  method BuildRows(self: Uint64, c: Columns) returns (messages: seq<ChatMessage>)
    requires SameLength(c)
    ensures messages == Rows(self, c.ids, c.kinds, c.conversations, c.senders, c.receivers, c.texts, c.times)
  {
    messages := [];
    for i := 0 to |c.ids|
      invariant |messages| == i
      invariant forall k :: 0 <= k < i ==>
                  messages[k] == RowOf(self, c.ids[k], c.kinds[k], c.conversations[k], c.senders[k], c.receivers[k],
                                       c.texts[k], c.times[k])
    {
      messages := messages + [RowOf(self, c.ids[i], c.kinds[i], c.conversations[i], c.senders[i], c.receivers[i],
                                    c.texts[i], c.times[i])];
    }
  }

  method ParseRepeatedMessages(self: Uint64, body: Bytes) returns (r: Result<seq<ChatMessage>>)
    ensures r == Recovered(self, body)
  {
    hide ParseFields, NumberColumn, Column, Rows;
    var parsed := ParseTlvMap(View(body));
    if parsed.Failure? {
      return Failure(parsed.error);
    }
    if MESSAGE_ID !in parsed.value {
      return Success([]);
    }
    var columns := ReadColumns(parsed.value, ParseFields(body).value);
    if columns.Failure? {
      return Failure(columns.error);
    }
    if !SameLength(columns.value) {
      return Failure(ParseError);
    }
    var messages := BuildRows(self, columns.value);
    return Success(messages);
  }

  function RowOf(self: Uint64, id: Uint64, kind: Uint64, conversation: Uint64, sender: Uint64,
                 receiver: Uint64, text: Bytes, time: Uint64): (c: ChatMessage)
  {
    ChatMessage(id, sender, ChatKeyFor(self, kind, conversation, sender, receiver), text, ToInt64(time),
                sender == self)
  }

  function Rows(self: Uint64, ids: seq<Uint64>, kinds: seq<Uint64>, conversations: seq<Uint64>,
                senders: seq<Uint64>, receivers: seq<Uint64>, texts: seq<Bytes>, times: seq<Uint64>)
    : (rows: seq<ChatMessage>)
    requires |kinds| == |conversations| == |senders| == |receivers| == |texts| == |times| == |ids|
    ensures |rows| == |ids|
  {
    seq(|ids|, i requires 0 <= i < |ids| =>
      RowOf(self, ids[i], kinds[i], conversations[i], senders[i], receivers[i], texts[i], times[i]))
  }

  /** What the client makes of a body: its columns, read side by side. */
  function Recovered(self: Uint64, body: Bytes): (r: Result<seq<ChatMessage>>) {
    match ParseFields(body)
    case None => Failure(ParseError)
    case Some(fs) => RecoveredFields(self, fs)
  }

  function RecoveredFields(self: Uint64, fs: seq<Field>): (r: Result<seq<ChatMessage>>) {
    if Column(fs, MESSAGE_ID) == [] then Success([])
    else
      match (NumberColumn(fs, MESSAGE_ID), NumberColumn(fs, CONVERSATION_TYPE), NumberColumn(fs, CONVERSATION_ID),
             NumberColumn(fs, SENDER_ID), NumberColumn(fs, RECEIVER_ID))
      case (Success(ids), Success(kinds), Success(conversations), Success(senders), Success(receivers)) =>
        var texts := Column(fs, MESSAGE_TEXT);
        if texts == [] then Failure(NotFound)
        else
          (match NumberColumn(fs, TIMESTAMP_MS)
           case Failure(error) => Failure(error)
           case Success(times) =>
             if |kinds| == |conversations| == |senders| == |receivers| == |texts| == |times| == |ids|
             then Success(Rows(self, ids, kinds, conversations, senders, receivers, texts, times))
             else Failure(ParseError))
      case (Failure(error), _, _, _, _) => Failure(error)
      case (_, Failure(error), _, _, _) => Failure(error)
      case (_, _, Failure(error), _, _) => Failure(error)
      case (_, _, _, Failure(error), _) => Failure(error)
      case (_, _, _, _, Failure(error)) => Failure(error)
  }

  // ---- Writing by message, reading by column ---------------------------------------------------

  /** The numeric fields that every message carries exactly once. */
  predicate NumberKind(kind: TlvType) {
    kind in {MESSAGE_ID, CONVERSATION_TYPE, CONVERSATION_ID, SENDER_ID, RECEIVER_ID, TIMESTAMP_MS}
  }

  function NumberOf(m: MessageRecord, kind: TlvType): (n: Uint64)
    requires NumberKind(kind)
  {
    if kind == MESSAGE_ID then m.messageId
    else if kind == CONVERSATION_TYPE then TypeCode(m.conversation.kind)
    else if kind == CONVERSATION_ID then m.conversation.id
    else if kind == SENDER_ID then m.senderId
    else if kind == RECEIVER_ID then m.receiverId
    else ToUint64(m.createdAtMs)
  }

  function ValueOf(m: MessageRecord, kind: TlvType): (v: Bytes)
    requires NumberKind(kind) || kind == MESSAGE_TEXT
  {
    if kind == MESSAGE_TEXT then m.text else BE(NumberOf(m, kind), 8)
  }

  lemma {:induction false} ColumnMiss(fs: seq<Field>, kind: TlvType)
    requires forall i :: 0 <= i < |fs| ==> fs[i].kind != kind
    ensures Column(fs, kind) == []
    decreases |fs|
  {
    if |fs| > 0 {
      ColumnMiss(fs[1..], kind);
    }
  }

  lemma ColumnHit(fs: seq<Field>, k: nat, kind: TlvType)
    requires k < |fs| && fs[k].kind == kind
    requires forall i :: 0 <= i < |fs| && i != k ==> fs[i].kind != kind
    ensures Column(fs, kind) == [fs[k].value]
  {
    assert fs == fs[..k] + ([fs[k]] + fs[k + 1..]);
    ColumnMiss(fs[..k], kind);
    ColumnMiss(fs[k + 1..], kind);
    ColumnAppend(fs[..k], [fs[k]] + fs[k + 1..], kind);
    ColumnAppend([fs[k]], fs[k + 1..], kind);
    assert [fs[k]][1..] == [];
  }

  /** Each such field occurs once in a message, whether or not it carries a client id. */
  lemma OneValue(m: MessageRecord, kind: TlvType)
    requires NumberKind(kind) || kind == MESSAGE_TEXT
    ensures Column(FieldsOf(m), kind) == [ValueOf(m, kind)]
  {
    hide BE, Column;
    var fs := FieldsOf(m);
    var k :=
      if kind == MESSAGE_ID then 0
      else if kind == CONVERSATION_TYPE then 1
      else if kind == CONVERSATION_ID then 2
      else if kind == SENDER_ID then 3
      else if kind == RECEIVER_ID then 4
      else if kind == MESSAGE_TEXT then 5
      else |fs| - 1;
    ColumnHit(fs, k, kind);
  }

  lemma {:induction false} ColumnOfAll(ms: seq<MessageRecord>, kind: TlvType)
    requires NumberKind(kind) || kind == MESSAGE_TEXT
    ensures |Column(FieldsOfAll(ms), kind)| == |ms|
    ensures forall i :: 0 <= i < |ms| ==> Column(FieldsOfAll(ms), kind)[i] == ValueOf(ms[i], kind)
    decreases |ms|
  {
    hide FieldsOf, ValueOf;
    if |ms| > 0 {
      OneValue(ms[0], kind);
      ColumnOfAll(ms[1..], kind);
      ColumnAppend(FieldsOf(ms[0]), FieldsOfAll(ms[1..]), kind);
    }
  }

  lemma NumbersOfAll(ms: seq<MessageRecord>, kind: TlvType)
    requires NumberKind(kind) && |ms| > 0
    ensures var r := NumberColumn(FieldsOfAll(ms), kind);
            && r.Success? && |r.value| == |ms|
            && forall i :: 0 <= i < |ms| ==> r.value[i] == NumberOf(ms[i], kind)
  {
    hide BE, FieldsOfAll, Column;
    ColumnOfAll(ms, kind);
    Pow256Values();
    forall i | 0 <= i < |ms| ensures DecodeNumber(ValueOf(ms[i], kind)) == NumberOf(ms[i], kind) {
      FromBEOfBE(NumberOf(ms[i], kind), 8);
    }
  }

  /** A list of messages written field by field is recovered by the client in order and
      in full, whichever of them carry the optional client id. */
  lemma ClientRecoversMessages(self: Uint64, ms: seq<MessageRecord>)
    requires AllSendable(ms)
    ensures AllFit(FieldsOfAll(ms))
    ensures var r := Recovered(self, BodyBytes(FieldsOfAll(ms)));
            && r.Success? && |r.value| == |ms|
            && forall i :: 0 <= i < |ms| ==> r.value[i] == Shown(self, ms[i])
  {
    hide FieldsOfAll, NumberColumn, Column, Sendable, ParseFields;
    AllFieldsFit(ms);
    var fs := FieldsOfAll(ms);
    ParseOfPrint(fs);
    ColumnOfAll(ms, MESSAGE_ID);
    if |ms| > 0 {
      NumbersOfAll(ms, MESSAGE_ID);
      NumbersOfAll(ms, CONVERSATION_TYPE);
      NumbersOfAll(ms, CONVERSATION_ID);
      NumbersOfAll(ms, SENDER_ID);
      NumbersOfAll(ms, RECEIVER_ID);
      NumbersOfAll(ms, TIMESTAMP_MS);
      ColumnOfAll(ms, MESSAGE_TEXT);
    }
  }

  /** The numeric columns have one eight-byte value for each message, and there is a text for each. */
  ghost predicate Complete(fs: seq<Field>) {
    var n := |Column(fs, MESSAGE_ID)|;
    && (forall kind :: NumberKind(kind) ==>
          |Column(fs, kind)| == n && forall i :: 0 <= i < n ==> |Column(fs, kind)[i]| == 8)
    && |Column(fs, MESSAGE_TEXT)| == n
  }

  lemma CompleteColumns(self: Uint64, fs: seq<Field>)
    ensures RecoveredFields(self, fs).Success? <==> Column(fs, MESSAGE_ID) == [] || Complete(fs)
  {
    hide Column, Rows;
    assert NumberKind(MESSAGE_ID) && NumberKind(CONVERSATION_TYPE) && NumberKind(CONVERSATION_ID);
    assert NumberKind(SENDER_ID) && NumberKind(RECEIVER_ID) && NumberKind(TIMESTAMP_MS);
  }

  /** The client accepts exactly the concatenations of fields without a message id, which it
      reads as no messages, and those whose columns are complete. */
  lemma RecoversExactlyWhen(self: Uint64, body: Bytes)
    ensures Recovered(self, body).Success? <==>
              exists fs :: AllFit(fs) && BodyBytes(fs) == body && (Column(fs, MESSAGE_ID) == [] || Complete(fs))
  {
    ParsesExactlyPrintedBodies(body);
    hide RecoveredFields, ParseFields, BodyBytes, Column, Complete, AllFit;
    if ParseFields(body).Some? {
      CompleteColumns(self, ParseFields(body).value);
    }
  }

  // ---- Sizes ---------------------------------------------------------------------------------

  /** The lengths that the services admit before a message is stored. */
  predicate Validated(m: MessageRecord) {
    |m.text| <= MAX_MESSAGE_TEXT_BYTES && |m.clientMsgId| <= MAX_CLIENT_MESSAGE_ID_BYTES
  }

  const MAX_MESSAGE_BYTES: nat := 8352

  function SizeOf(fs: seq<Field>): (n: nat) {
    if |fs| == 0 then 0 else TLV_HEADER_SIZE + |fs[0].value| + SizeOf(fs[1..])
  }

  lemma {:induction false} BodySize(fs: seq<Field>)
    requires AllFit(fs)
    ensures |BodyBytes(fs)| == SizeOf(fs)
    decreases |fs|
  {
    hide FieldBytes;
    if |fs| > 0 {
      BodySize(fs[1..]);
    }
  }

  lemma {:induction false} SizeAppend(a: seq<Field>, b: seq<Field>)
    ensures SizeOf(a + b) == SizeOf(a) + SizeOf(b)
    decreases |a|
  {
    if |a| == 0 {
      assert a + b == b;
    } else {
      SizeAppend(a[1..], b);
      assert (a + b)[1..] == a[1..] + b;
    }
  }

  lemma SizeOfMessage(m: MessageRecord)
    ensures SizeOf(FieldsOf(m)) ==
              90 + |m.text| + if m.clientMsgId != [] then TLV_HEADER_SIZE + |m.clientMsgId| else 0
  {
    hide BE;
    var ids := [ Field(MESSAGE_ID, BE(m.messageId, 8)),
                 Field(CONVERSATION_TYPE, BE(TypeCode(m.conversation.kind), 8)),
                 Field(CONVERSATION_ID, BE(m.conversation.id, 8)) ];
    var people := [ Field(SENDER_ID, BE(m.senderId, 8)),
                    Field(RECEIVER_ID, BE(m.receiverId, 8)),
                    Field(MESSAGE_TEXT, m.text) ];
    var client := if m.clientMsgId != [] then [Field(CLIENT_MESSAGE_ID, m.clientMsgId)] else [];
    var time := [ Field(TIMESTAMP_MS, BE(ToUint64(m.createdAtMs), 8)) ];
    assert FieldsOf(m) == ids + people + client + time;
    SizeAppend(ids + people + client, time);
    SizeAppend(ids + people, client);
    SizeAppend(ids, people);
    SizeOfThree(ids);
    SizeOfThree(people);
  }

  lemma SizeOfThree(fs: seq<Field>)
    requires |fs| == 3
    ensures SizeOf(fs) == 18 + |fs[0].value| + |fs[1].value| + |fs[2].value|
  {
    assert SizeOf(fs[1..]) == 6 + |fs[1].value| + SizeOf(fs[1..][1..]);
    assert SizeOf(fs[1..][1..]) == 6 + |fs[2].value| + SizeOf(fs[1..][1..][1..]);
  }

  lemma {:induction false} SizeOfMessages(ms: seq<MessageRecord>)
    requires forall i :: 0 <= i < |ms| ==> Validated(ms[i])
    ensures SizeOf(FieldsOfAll(ms)) <= |ms| * MAX_MESSAGE_BYTES
    decreases |ms|
  {
    hide FieldsOf;
    if |ms| > 0 {
      SizeOfMessage(ms[0]);
      SizeOfMessages(ms[1..]);
      SizeAppend(FieldsOf(ms[0]), FieldsOfAll(ms[1..]));
    }
  }

  /** A pull of at most 100 stored messages always fits in one packet: at most 835200 of
      the 1048576 body bytes. */
  lemma PullFitsInPacket(ms: seq<MessageRecord>, header: Packet.PacketHeader)
    requires |ms| <= 100
    requires forall i :: 0 <= i < |ms| ==> Validated(ms[i])
    requires header.magic == Packet.PACKET_MAGIC && header.version == Packet.PACKET_VERSION
    requires header.flags == Packet.PACKET_FLAGS_NONE
    ensures AllSendable(ms) && AllFit(FieldsOfAll(ms))
    ensures |BodyBytes(FieldsOfAll(ms))| <= 835200
    ensures Packet.Encodable(Packet.Packet(header, BodyBytes(FieldsOfAll(ms))))
  {
    hide FieldsOfAll, BodyBytes;
    AllFieldsFit(ms);
    BodySize(FieldsOfAll(ms));
    SizeOfMessages(ms);
  }
}
