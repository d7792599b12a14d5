/** The storage records that several modules share. */
module Records {
  import opened Base

  type UserId = Uint64
  type MessageId = Uint64

  const MAX_MESSAGE_TEXT_BYTES: nat := 8 * 1024
  const MAX_CLIENT_MESSAGE_ID_BYTES: nat := 64

  datatype ConversationType = Private | Group

  /** The numeric value stored and sent for a conversation type. */
  function TypeCode(t: ConversationType): (n: Uint64) {
    match t case Private => 1 case Group => 2
  }

  datatype ConversationKey = ConversationKey(kind: ConversationType, id: Uint64)

  datatype MessageRecord = MessageRecord(
    messageId: MessageId,
    conversation: ConversationKey,
    senderId: UserId,
    receiverId: Uint64,
    text: Bytes,
    createdAtMs: Int64,
    clientMsgId: Bytes)
}
