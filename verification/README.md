# LiteIM: verified core

A Dafny model of the logic of LiteIM, a multi-reactor instant-messaging server, with proofs of
what that logic promises.  `dafny verify dfyconfig.toml` checks all of it.

The project follows the server from the bottom up.

- **Concurrency.** `EventLoop`, `ThreadPool` and `ConnectionPool` (the one design behind the
  MySQL and the Redis pool) are step machines: one step is one lock region, one atomic access or
  one notification, and a theorem holds in every state of every interleaving (`Runs`).  `Router`
  puts the message router on top of the pool's machine, and `RouterAnswers` says why each client
  gets the answer it gets.
- **Bytes.** `ByteOrder`, `Packet`, `Tlv`, `Buffer`, `FrameDecoder` and `Session` are the code
  that turns packets into a byte stream and back, proved against what a byte string means.
  `SessionRuns` composes them: whatever reaches the peer, in whatever pieces, decodes to a
  prefix of what was accepted; `SessionSends` says that what is accepted is what was sent.
- **Delivery.** `Storage` holds the three message tables and the transactions on them, each of
  which may fail at any statement or lose its commit (`Transactions`).  `Friends` is the friend
  tables.  `Delivery` is the private, group and ack handlers as a machine in which any number of
  them run at once, with free look-ups, pushes and failures; `DeliveryRuns` proves what every run
  keeps: idempotent retries, covered recipients, exact unread increments, delivery tables that
  agree and only move forward.  `DeliveryPaths` and `DeliveryGroups` follow the steps of a run:
  what a look-up found decides between a push and an offline row, and group messages come from
  members.  `ClientIdReuse` is the run that shows where a response does not
  cover the requested receiver, and `UnreadRuns` bounds the unread counters.  `Handlers` has the
  handlers as the program writes them and proves that each makes a path of that machine while
  others run.  `OfflinePull` is the pull-and-acknowledge loop of a client.  `MessageFields` carries stored messages to the
  client.
- **Indexes and codecs.** `TimerHeap` refines a plain map of timers; `SessionManager` keeps two
  inverse maps, and `OnlineService` interleaves calls on them and Redis; `Conversation`,
  `History` and `CacheCodec` are ids, pages and cache strings.

What the program leaves to its environment is an input of the model: clocks, the results of
system calls, AUTO_INCREMENT values, which sessions are alive, what callbacks and handlers do,
and which database or cache calls fail.  Integers have the program's widths where it matters.

## Model

| member | source | states |
|---|---|---|
| `EventLoop.QueueOrder` | src/net/EventLoop.cpp:121-213 | In every state of every interleaving, executed ++ current batch ++ pending is exactly the order in which tasks were queued: none lost, repeated or overtaken. |
| `EventLoop.NoLostWakeup` | src/net/EventLoop.cpp:65-135 | While the loop thread is at or blocked in poll, a queued task or a set quit flag means the eventfd count is positive or some thread is between its write and its wakeup. |
| `EventLoop.AsleepOnlyWhenIdle` | src/net/EventLoop.cpp:65-99 | A loop asleep with nothing readable and nobody inside a call has executed every queued task and has not been asked to quit. |
| `EventLoop.LoopFinishesItsWork` | src/net/EventLoop.cpp:65-213 | Left alone from any reachable state, the loop takes a bounded number of steps; when none is left it has exited after a quit, or sleeps with every queued task executed. |
| `EventLoop.ExitAccount` | src/net/EventLoop.cpp:65-106 | After the loop has exited, everything queued before the first quit has run if and only if that quit did not come between a swap and its quit check with tasks waiting. |
| `EventLoop.TaskLeftBehind` | src/net/EventLoop.cpp:94-97 | A concrete run in which a task queued before quit is never executed: the unconditional claim is false. |
| `ThreadPool.TasksConserved` | src/concurrency/ThreadPool.cpp:82-102 | In every interleaving, tasks leave the queue in order, each accepted task is exactly one of queued, run by exactly one worker, or finished, and a positive limit bounds the queue. |
| `ThreadPool.RunningPoolAccepts` | src/concurrency/ThreadPool.cpp:82-102 | In every reachable state, a running pool takes a task exactly while its queue is below the limit, always with limit 0, and puts it last; it refuses only with a queue that is exactly full. |
| `ThreadPool.NoStrandedTask` | src/concurrency/ThreadPool.cpp:158-178 | If a worker sleeps un-notified, queued tasks are covered one for one by signals in flight and workers about to look; so a queued task always has someone coming for it. |
| `ThreadPool.QueuedWorkContinues` | src/concurrency/ThreadPool.cpp:158-178 | While tasks are queued, some worker or notifier can move. |
| `ThreadPool.StopReturnsDrained` | src/concurrency/ThreadPool.cpp:104-139 | A stop called from outside the workers returns, on each of its three return paths, only when every accepted task has finished. |
| `ThreadPool.DrainingContinues` | src/concurrency/ThreadPool.cpp:158-178 | Once stop has cleared the flag, some worker or notifier can move until all workers have exited. |
| `ThreadPool.DrainEnds` | src/concurrency/ThreadPool.cpp:104-139 | A stopped pool drains: workers and notifiers can take only boundedly many steps, and when none can move every accepted task has finished. |
| `ConnectionPool.ExactlyOneHolder` | src/storage/MySqlPool.cpp:196-245 | In every interleaving each connection is in exactly one place; before close that is the idle queue, the hands of one thread inside acquire or release, or one guard. |
| `ConnectionPool.GuardsAreExclusive` | src/storage/MySqlPool.cpp:105-152 | Two guards never share a connection, and a guarded connection is neither idle nor in anybody else's hands, through guard moves and resets. |
| `ConnectionPool.ClosedPoolDrains` | src/storage/MySqlPool.cpp:78-101 | After close the idle queue stays empty; once close, in-flight acquires and guards are done every connection is disconnected; a sleeper implies the broadcast is still to come. |
| `ConnectionPool.NoStrandedWaiter` | src/cache/RedisPool.cpp:194-244 | A thread asleep in acquire is never left beside an idle connection that nobody is about to offer or take. |
| `ConnectionPool.IdleConnectionsAreTaken` | src/storage/MySqlPool.cpp:196-245 | While an open pool has an idle connection and somebody waits, a waiter can take it or the notification that wakes one can be given. |
| `ConnectionPool.CloseIsFinal` | src/cache/RedisPool.cpp:54-98 | A closed pool never reopens and never has an idle connection again, and what was given up is never connected again. |
| `ByteOrder.FromBEOfBE` | include/liteim/protocol/ByteOrder.hpp:10-45 | Reading the big-endian bytes of any value of any width gives the value back. |
| `ByteOrder.BEOfFromBE` | include/liteim/protocol/ByteOrder.hpp:10-45 | Writing what was read gives the bytes back. |
| `ByteOrder.AppendUint16BE` | include/liteim/protocol/ByteOrder.hpp:10-13 | Appends the two big-endian bytes and nothing else. |
| `ByteOrder.AppendUint32BE` | include/liteim/protocol/ByteOrder.hpp:15-20 | Appends the four big-endian bytes. |
| `ByteOrder.AppendUint64BE` | include/liteim/protocol/ByteOrder.hpp:22-26 | The shifting loop appends the eight big-endian bytes. |
| `ByteOrder.ReadUint16BE` | include/liteim/protocol/ByteOrder.hpp:28-31 | Reads the big-endian value of two bytes. |
| `ByteOrder.ReadUint32BE` | include/liteim/protocol/ByteOrder.hpp:33-37 | Reads the big-endian value of four bytes. |
| `ByteOrder.ReadUint64BE` | include/liteim/protocol/ByteOrder.hpp:39-45 | The accumulating loop reads the big-endian value of eight bytes. |
| `Packet.EncodePacket` | src/protocol/Packet.cpp:23-48 | Succeeds exactly on encodable packets, and then the output is the wire form with the body length filled in; the output is cleared first, so it is empty after a failure, whose code is given. |
| `Packet.ParseHeader` | src/protocol/Packet.cpp:50-73 | Byte by byte: accepts exactly twenty or more bytes that start with 4C 49 4D 31, 1, 0 and hold a length of at most 2^20 at offset 16, and reads type, sequence number and length from offsets 6, 8 and 16; each refusal has its code. |
| `Packet.HeaderOnTheWire` | src/protocol/Packet.cpp:6-20 | A header is valid exactly if its bytes are those. |
| `Packet.EncodingOnTheWire` | src/protocol/Packet.cpp:23-48 | Which packets can be encoded, and every byte of the encoding. |
| `Packet.HeaderOfHeaderBytes` | src/protocol/Packet.cpp:23-73 | Reading a written header, whatever follows it, gives the header back. |
| `Packet.HeaderBytesOfHeaderOf` | src/protocol/Packet.cpp:50-73 | Writing a read header gives its twenty bytes back. |
| `FrameDecoder.DecodeFrames` | src/protocol/FrameDecoder.cpp:36-62 | The decoding loop finds exactly the packets that the stream holds, stops at the right byte, and fails exactly on a refused header. |
| `FrameDecoder.FrameDecoder.Feed` | src/protocol/FrameDecoder.cpp:10-63 | One feed takes the decoder to the state and output that the whole buffered stream determines; a null pointer with a length is refused; an error is sticky. |
| `FrameDecoder.FrameDecoder.CompactConsumed` | src/protocol/FrameDecoder.cpp:25-34 | Compaction drops exactly the consumed bytes. |
| `FrameDecoder.FrameDecoder.Reset` | src/protocol/FrameDecoder.cpp:77-80 | Reset forgets buffer and error. |
| `FrameDecoder.ChunkingInvariance` | src/protocol/FrameDecoder.cpp:10-63 | For every stream and every split into chunks, the concatenated outputs and the final error flag equal those of one whole feed. |
| `FrameDecoder.DecodeOfEncode` | src/protocol/Packet.cpp:23-73 | Every list of encodable packets decodes to itself with the body lengths filled in, leaving nothing behind. |
| `FrameDecoder.DrainSound` | src/protocol/FrameDecoder.cpp:10-63 | Re-encoding the decoded packets and appending the undecoded rest gives the stream back: nothing invented, nothing lost. |
| `FrameDecoder.PrefixDecodes` | src/protocol/FrameDecoder.cpp:10-63 | A stream of encoded packets cut anywhere yields a prefix of the packets and no error. |
| `FrameDecoder.BufferBounded` | src/protocol/FrameDecoder.cpp:10-63 | After a feed without an error less than one maximal frame is buffered. |
| `Buffer.Buffer.constructor` | src/net/Buffer.cpp:10-10 | An empty buffer of the given size, of one byte for size 0. |
| `Buffer.Buffer.Append` | src/net/Buffer.cpp:24-36 | The readable contents grow by exactly the appended bytes; a null pointer with a length is refused and changes nothing. |
| `Buffer.Buffer.EnsureWritableBytes` | src/net/Buffer.cpp:70-92 | Moving to the front or growing makes room and leaves the readable contents as they were. |
| `Buffer.Buffer.Retrieve` | src/net/Buffer.cpp:46-57 | Drops exactly the given number of bytes from the front, or refuses more than there are. |
| `Buffer.Buffer.RetrieveAll` | src/net/Buffer.cpp:59-62 | Empties the buffer. |
| `Buffer.Buffer.RetrieveAllAsString` | src/net/Buffer.cpp:64-68 | Returns the contents and empties the buffer. |
| `Session.Session.SetOutputHighWaterMark` | src/net/Session.cpp:78-85 | The mark becomes a positive argument; zero leaves it. |
| `Session.Session.StartInLoop` | src/net/Session.cpp:125-158 | A new, open session becomes started and registered; any other is left as it is. |
| `Session.Session.SendPacketInLoop` | src/net/Session.cpp:92-118 | Succeeds exactly if the session is started and not closed, the packet can be encoded, and pending plus encoding is within the mark; then exactly the encoding is appended, the packet is the next one accepted and write interest is on. No failure accepts anything: beyond the mark the session is closed and emptied with ResourceExhausted, and every other failure changes nothing. |
| `Session.Session.SendEncodedInLoop` | src/net/Session.cpp:160-188 | Succeeds exactly if the session is started and not closed and pending plus frame is within the mark; then the frame is appended and write interest is on. Beyond the mark: closed, emptied, ResourceExhausted; otherwise InvalidArgument and no change. |
| `Session.Session.HandleRead` | src/net/Session.cpp:190-234 | On a started session: would-block changes nothing, end of file, an empty read and an error close it without another packet, received bytes are added to what was received before anything else; any other session is left as it is. |
| `Session.Session.HandleWrite` | src/net/Session.cpp:236-270 | On a started session: pending bytes move to written in order and none is lost while it stays open; a run of partial writes that adds up to n moves exactly the first n, and all of them drop write interest; would-block changes nothing, an error or an impossible count closes it. |
| `Session.WritesInFull` | src/net/Session.cpp:236-270 | Writes that add up to n bytes write exactly the first n pending bytes, in any pieces and with interruptions between. |
| `Session.Session.CloseInLoop` | src/net/Session.cpp:272-301 | The first close marks it closed, closes the descriptor, drops what is pending, unregisters it and calls the callback once; a second one changes nothing. |
| `SessionRuns.RunsAreSafe` | src/net/Session.cpp:160-301 | Over every run: while started, written ++ pending is the concatenated encodings of the accepted packets; pending never exceeds the largest mark since the start; unsent bytes imply write interest; the close callback has fired exactly if closed; dispatched packets are a prefix of those received. |
| `SessionRuns.PendingWithinFixedMark` | src/net/Session.cpp:78-85 | In a run whose mark does not change after the start, pending bytes never exceed the mark. |
| `SessionRuns.RunsGoForward` | src/net/Session.cpp:125-301 | State, written bytes, accepted packets and the close only move forward along every run. |
| `SessionRuns.EndToEnd` | src/net/Session.cpp:236-270 | End to end: whatever part of the written bytes has reached the peer, in whatever chunks, its decoder has produced a prefix of the accepted packets and no error. |
| `SessionRuns.DeliveredInFull` | src/net/Session.cpp:236-270 | Once nothing is pending, a peer that has read it all has decoded exactly the accepted packets. |
| `SessionSends.StepAccepts` | src/net/Session.cpp:92-188 | In every step: a packet offered on the loop thread, by a call or by a queued send, is appended to the accepted ones exactly if it fits on a started session, and only then; a send from another thread queues exactly one such task, or a close if the frame alone exceeds the mark; no other step but a read accepts anything. |
| `SessionSends.OpenSessionAcceptsAll` | src/net/Session.cpp:92-234 | Over every run: while a started session stays open, the packets accepted are exactly those it was given, sends, queued sends in queue order and replies to the packets in the received bytes, in that order. |
| `SessionSends.CalmReads` | src/net/Session.cpp:190-234 | Reads of well-formed bytes, with replies that fit, leave the session open: every byte is taken, every packet in the stream is handed on and every reply is accepted, in order. |
| `Tlv.ParseOfPrint` | src/protocol/TlvCodec.cpp:12-82 | Parsing printed fields gives them back in order. |
| `Tlv.PrintOfParse` | src/protocol/TlvCodec.cpp:53-82 | Printing what was parsed gives the body back byte for byte. |
| `Tlv.ParsesExactlyPrintedBodies` | src/protocol/TlvCodec.cpp:53-82 | Parsing succeeds exactly on concatenations of well-formed fields, and the fields are then unique. |
| `Tlv.FieldOnTheWire` | src/protocol/TlvCodec.cpp:12-30 | Every byte of a field: type, length, value. |
| `Tlv.ParseTlvMap` | src/protocol/TlvCodec.cpp:53-82 | The parse loop fills a map that holds, for each type that occurs, exactly its values in body order; failures and the null pointer have their codes. |
| `Tlv.AppendValue` | src/protocol/TlvCodec.cpp:12-30 | Appends exactly one field, or refuses an unknown type, a too long value or a null pointer and leaves the output alone. |
| `Tlv.AppendString` | src/protocol/TlvCodec.cpp:42-44 | Appends one string field. |
| `Tlv.AppendUint64` | src/protocol/TlvCodec.cpp:46-51 | Appends one eight-byte big-endian field. |
| `Tlv.GetString` | src/protocol/TlvCodec.cpp:88-97 | In the map of a parsed body: the first value of the type in body order, NotFound exactly when the body has none. |
| `Tlv.GetUint64` | src/protocol/TlvCodec.cpp:99-112 | In the map of a parsed body: the number whose eight big-endian bytes are the first value of the type; NotFound without one, ParseError on any other width. |
| `Tlv.GetRepeatedString` | src/protocol/TlvCodec.cpp:114-126 | In the map of a parsed body: the whole column of the type in body order, NotFound exactly when it is empty. |
| `Tlv.GetRepeatedUint64` | src/protocol/TlvCodec.cpp:128-143 | In the map of a parsed body: the whole column as numbers in body order, ParseError on any other width. |
| `MessageFields.AppendMessageFields` | src/service/MessagePacketBuilder.cpp:14-50 | Appends the fields of one message in order, the client id only when it is not empty; fails exactly on an oversized text or client id. |
| `MessageFields.AppendMessages` | src/service/HistoryService.cpp:239-248 | The response loop appends every message's fields in order. |
| `MessageFields.ParseRepeatedMessages` | client_qt/src/chat/ChatController.cpp:383-464 | The client's column-wise parser computes the reference reading of a body, error cases included. |
| `MessageFields.ReadColumns` | client_qt/src/chat/ChatController.cpp:396-431 | Reads the seven columns of the body; the first that fails decides the error. |
| `MessageFields.BuildRows` | client_qt/src/chat/ChatController.cpp:440-462 | The loop reads the columns side by side, row by row. |
| `MessageFields.ClientRecoversMessages` | client_qt/src/chat/ChatController.cpp:383-464 | A message list written field by field is recovered by the client message for message, in order, whichever of them carry the optional client id. |
| `MessageFields.RecoversExactlyWhen` | client_qt/src/chat/ChatController.cpp:383-464 | The client accepts exactly the concatenations of fields without a message id, and those with one eight-byte number of each kind and one text per message id. |
| `MessageFields.PullFitsInPacket` | src/service/OfflineMessageService.cpp:157-187 | With validated lengths, 100 messages take at most 835200 bytes and make an encodable packet. |
| `Transactions.OutcomesArePerformed` | src/storage/MySqlStorage.cpp:313-318 | Every outcome that a storage call can have, under any failing statement or lost commit, is one that a step of a run can have. |
| `Storage.UniqueIds` | src/storage/MySqlStorage.cpp:24-40 | The dedupe loop refuses a zero id and otherwise keeps the first occurrences in order. |
| `Storage.UniqueElements` | src/storage/OfflineMessageDao.cpp:92-106 | The deduplicated list has the same elements and no duplicates. |
| `Storage.MySqlStorage.SaveMessageWithOfflineRecipients` | src/storage/MySqlStorage.cpp:270-319 | All or nothing under any failing statement: the normalized message, one offline row and one pending delivery row per distinct recipient, or no change; AlreadyExists exactly on a repeated client id. |
| `Storage.MySqlStorage.InsertPending` | src/storage/MySqlStorage.cpp:300-311 | The recipient loop adds exactly the rows of the recipients to the copy of the tables. |
| `Storage.MySqlStorage.SaveOfflineMessage` | src/storage/OfflineMessageDao.cpp:354-413 | One offline row and a pending delivery row where there is none, AlreadyExists if the row is there, or no change. |
| `Storage.MySqlStorage.FindDeliveryStatus` | src/storage/MySqlStorage.cpp:325-371 | The stored status, or NotFound exactly when there is no row. |
| `Storage.MySqlStorage.FindMessageByClientMessageId` | src/storage/MessageDao.cpp:353-388 | A stored row with this sender and client id, and NotFound only when there is none. |
| `Storage.MySqlStorage.AckPrivateMessageDelivery` | src/storage/MySqlStorage.cpp:389-436 | Only the receiver of a private message moves its delivery row to delivered; all or nothing. |
| `Storage.MySqlStorage.AckOfflineMessages` | src/storage/OfflineMessageDao.cpp:550-627 | The three loops and the commit are all or nothing under any failing statement. |
| `Storage.MySqlStorage.FetchForAck` | src/storage/OfflineMessageDao.cpp:592-604 | Fetches the messages of all ids in order, or reports the first id without a row. |
| `Storage.MarkOfflineDeliveredInTransaction` | src/storage/OfflineMessageDao.cpp:244-277 | Marks exactly the given rows delivered and keeps a time that is set. |
| `Storage.UpsertDelivered` | src/storage/OfflineMessageDao.cpp:279-315 | Raises exactly the given rows to at least delivered and keeps a time that is set. |
| `Storage.AckAllOrNothing` | src/storage/OfflineMessageDao.cpp:550-627 | An offline ack succeeds exactly when every id has a row of this user; then all of them are delivered in both tables and no other row has changed. |
| `Storage.SavesExactlyWhen` | src/storage/MySqlStorage.cpp:270-299 | A save succeeds exactly with valid ids and a client id that this sender has not used. |
| `Storage.SaveMakesTheRows` | src/storage/MySqlStorage.cpp:77-107 | A save writes the message, its id and defaults filled in, and for each recipient one undelivered row and a pending state; no other row changes. |
| `Storage.FallbackMakesTheRow` | src/storage/OfflineMessageDao.cpp:317-413 | A fallback makes exactly one undelivered row, exactly for a stored message that has none for this user. |
| `Storage.AckRaisesOneState` | src/storage/MySqlStorage.cpp:109-145 | A delivery ack succeeds exactly for the receiver of a stored private message, raises that one state to at least delivered, keeps a time that is set, and touches nothing else. |
| `Storage.AckTwice` | src/storage/OfflineMessageDao.cpp:550-627 | Repeating an ack at any later time succeeds again, returns the same records and changes nothing more. |
| `Storage.AckSeesOnlyTheSet` | src/storage/OfflineMessageDao.cpp:92-106 | Duplicated or reordered ids make no difference to the outcome or the tables. |
| `Storage.SavingKeeps` | src/storage/MySqlStorage.cpp:77-107 | Saving keeps the tables consistent and only moves them forward. |
| `Storage.SavingOfflineKeeps` | src/storage/OfflineMessageDao.cpp:317-347 | So does the offline fallback. |
| `Storage.AckingPrivateKeeps` | src/storage/MySqlStorage.cpp:109-145 | So does a delivery ack. |
| `Storage.AckingKeeps` | src/storage/OfflineMessageDao.cpp:244-315 | So does an offline ack. |
| `DeliveryRuns.RetriesAgree` | src/service/ChatService.cpp:256-304 | Over every run, with any failures and concurrent retries: at most one message row per sender and non-empty client id, and all successful responses for the pair, whenever given, carry the identical stored record. |
| `DeliveryRuns.RecipientsAreCovered` | src/service/ChatService.cpp:51-110 | A successful response means that every other recipient of the requested message has, then and ever after, an accepted push, an offline row, or a status of at least delivered: every group member, and the receiver of a private request exactly unless its client id stood for a message with another receiver or text when the save took its step. |
| `DeliveryRuns.AnswerIsAsRequested` | src/service/ChatService.cpp:243-304 | A private answer is the requested message, sender, receiver, text, client id and conversation, if and only if the client id did not stand for a message with another receiver or text at the save; without a client id always. |
| `DeliveryRuns.SaveTookPlace` | src/service/ChatService.cpp:256-258 | Every answered private request has a save step in its run. |
| `DeliveryPaths.OnlineReceiversArePushedTo` | src/service/ChatService.cpp:234-312 | Over every run: if the look-up found the receiver online and the save succeeded, no row is made with the message, and an answer means that this handler has pushed it since: accepted, or refused and then a row. |
| `DeliveryPaths.OfflineReceiversGetARow` | src/service/ChatService.cpp:234-318 | Over every run: if the look-up found the receiver offline and the save succeeded, the receiver, and nobody else, has a row from the save on, and this handler tries no push. |
| `DeliveryPaths.NoRowUntilTurnedAway` | src/service/ChatService.cpp:62-110 | Over every run: a message saved for an online receiver has no offline row until some push of it is refused or some retry of it finds the receiver offline. |
| `DeliveryPaths.OnlineRetriesPush` | src/service/ChatService.cpp:280-296 | Over every run: a retry that finds the receiver online pushes before it answers: accepted, or refused and then a row. |
| `DeliveryPaths.OfflineRetriesFallBack` | src/service/ChatService.cpp:280-299 | Over every run: a retry that finds the receiver offline has their row with its answer and tries no push. |
| `DeliveryPaths.AnswersWereLookedUp` | src/service/ChatService.cpp:234-262 | Over every run: whoever is answered has been through a look-up that did not fail, and then a save. |
| `DeliveryPaths.AcceptedFriendsCanWrite` | src/service/ChatService.cpp:218-232 | Accepting a pending request makes the two friends in both directions, and a message between them is then admitted. |
| `DeliveryPaths.HandlersCanGoOn` | src/service/ChatService.cpp:161-324 | In every reachable state a handler that has not ended has a step of its own, whatever the others do. |
| `DeliveryGroups.GroupSendersAreMembers` | src/service/GroupService.cpp:226-235 | Over every run: a group handler past its member list that has not failed has its sender in the list that it read. |
| `DeliveryGroups.GroupMessagesComeFromMembers` | src/service/GroupService.cpp:226-273 | Over every run: every stored group message is as one handler's request says, field by field, and its sender is in the member list that this handler read before it saved. |
| `DeliveryGroups.MembersAreLookedUp` | src/service/GroupService.cpp:237-259 | Over every run: each member but the sender is looked up once, and is in the online list exactly if it was found online, in the offline list exactly if it was found offline. |
| `DeliveryGroups.MembersGetWhatWasFound` | src/service/GroupService.cpp:237-300 | Over every run: once a group message is saved, a member has its row exactly if it was found offline; with the answer, an accepted push exactly if it was found online; nobody else, the sender included, has either. |
| `ClientIdReuse.SecondReceiverGetsNothing` | src/service/ChatService.cpp:259-304 | A run in which a client id is reused for a second receiver: the request succeeds with the first message, and the second receiver has no push, no row and no delivery. |
| `UnreadRuns.UnreadNeverExceedsRows` | src/service/ChatService.cpp:51-60 | Over every run, with any failures and clearings, an unread counter never exceeds the offline rows of its user in its conversation. |
| `DeliveryRuns.IncrementsMatchRows` | src/service/GroupService.cpp:236-305 | Unread increments never exceed offline rows, row by row; when no storage or cache call has failed and all handlers are done they are exactly the rows. |
| `DeliveryRuns.DeliveryTablesAgree` | src/storage/OfflineMessageDao.cpp:244-413 | Over every run: each offline row has a delivery row, a delivered offline row has a status of at least delivered, a status never decreases, a set delivery time never changes, no row goes away. |
| `DeliveryRuns.PrivateMessagesAreBetweenFriends` | src/service/ChatService.cpp:218-232 | Every stored private message is between friends, and its history admits exactly its two participants. |
| `DeliveryRuns.StoredMessagesReachTheClient` | src/service/OfflineMessageService.cpp:177-187 | Any 100 stored messages of any run go into one packet, and the client gets exactly them out of its body, in order. |
| `DeliveryRuns.StoringKeeps` | src/service/ChatService.cpp:252-324 | The save step of a private handler, with every failure of the call, keeps the tables, the coverage of recipients and the ledger of increments. |
| `DeliveryRuns.FallingBackKeeps` | src/service/ChatService.cpp:62-72 | The fallback step keeps them: only a row it created is counted, and a row that was there already covers. |
| `DeliveryRuns.GroupStoringKeeps` | src/service/GroupService.cpp:268-273 | The save step of a group handler keeps them for all offline members at once. |
| `DeliveryRuns.PartitionKeeps` | src/service/GroupService.cpp:237-259 | The loop over the members keeps: the two lists hold every member so far but the sender, each in exactly one of them, once. |
| `DeliveryRuns.CheckingKeeps` | src/service/ChatService.cpp:74-91 | The delivered check keeps the invariant, and answers a retry without a push only when its message is delivered. |
| `Handlers.Server.HandlePrivateMessage` | src/service/ChatService.cpp:161-324 | With any steps of others between its calls, a path of the machine that ends as the handler returns. Alone and without failures: a bad request or a stranger is refused and nothing changes; a new message is stored as requested and, found online and accepted, pushed, with no row and no unread; else it has one row for its receiver and one more unread, and no push; a known client id leads to nothing if delivered, else to a push or a row, counted only if new. |
| `Handlers.Server.StoreAndDeliver` | src/service/ChatService.cpp:252-318 | The save and its continuations; alone and without failures, the same effects on messages, rows, pushes and counters. |
| `Handlers.Server.StoreMessage` | src/service/ChatService.cpp:252-262 | Alone and without failures the save succeeds exactly if the client id is free, stores the message as requested, with a row exactly for an offline receiver; otherwise AlreadyExists and no change. |
| `Handlers.Server.Retry` | src/service/ChatService.cpp:259-267 | The look-up after a repeated client id follows the machine. |
| `Handlers.Server.Redeliver` | src/service/ChatService.cpp:268-304 | Alone and without failures: nothing for a delivered message, else a push to a receiver who is online and accepts it, else a row. |
| `Handlers.Server.IsMessageAlreadyDelivered` | src/service/ChatService.cpp:74-91 | Says delivered exactly for a stored status of at least delivered; no row means not delivered; nothing changes. |
| `Handlers.Server.PushPrivateOrFallback` | src/service/ChatService.cpp:93-110 | Alone and without failures: an accepted push and nothing else, or, refused, the fallback. |
| `Handlers.Server.EnsureOfflineFallback` | src/service/ChatService.cpp:62-72 | Alone and without failures: a row for the receiver, and one more unread exactly if the row is new. |
| `Handlers.Server.CountUnread` | src/service/ChatService.cpp:51-60 | One increment, or a failure that is only noted. |
| `Handlers.Server.Admit` | src/service/ChatService.cpp:212-232 | An unknown receiver is NotFound; alone and without failures, admitted exactly if the two are friends and their ids fit a conversation. |
| `Handlers.Server.HandleGroupMessage` | src/service/GroupService.cpp:187-306 | With any steps of others between its calls, a path of the machine that ends as the handler returns. Success only for a sender in the member list; for a good request to a known group by anybody else, InvalidArgument and no save. Alone and without failures: stored as requested, a row and one more unread exactly for each other member found offline, an accepted push exactly for each found online, and nothing else. |
| `Handlers.Server.PartitionMembers` | src/service/GroupService.cpp:237-259 | Sorts every member but the sender by what its look-up found; stops with the error of a look-up that fails. |
| `Handlers.Server.CountOffline` | src/service/GroupService.cpp:276-287 | One step per offline member; alone and without failures, one more unread for each. |
| `Handlers.Server.PushOnline` | src/service/GroupService.cpp:289-300 | One step per online member up to the first refusal; alone and without refusals, an accepted push for each. |
| `Handlers.Server.HandleDeliveryAck` | src/service/ChatService.cpp:326-357 | An ack that succeeds is the receiver's, and the message is then delivered to them; alone and without failures it succeeds exactly for the receiver of a stored private message. |
| `Handlers.Server.HandleOfflineMessagesAck` | src/service/OfflineMessageService.cpp:101-138 | An ack that succeeds leaves every acked message delivered to this user; then the counter of every conversation of the acked messages is cleared, until a clear fails; all of it is a path of the machine among any steps of others. |
| `Handlers.Server.ClearUnreadForMessages` | src/service/OfflineMessageService.cpp:210-228 | Clears each conversation of the messages once, until a clear fails. |
| `Handlers.DistinctConversations` | src/service/OfflineMessageService.cpp:213-219 | The conversations of the messages, each once. |
| `Handlers.Server.Yield` | src/service/ChatService.cpp:161-324 | Whatever other handlers do between two calls leaves this handler where it is and its id unused. |
| `Handlers.PathsExtendRuns` | src/service/ChatService.cpp:161-324 | A handler's path from the end of any run makes a longer run. |
| `Friends.FriendDao.CreateFriendRequest` | src/storage/FriendDao.cpp:331-418 | Without failures succeeds exactly for two distinct users who are not friends, have no such request, and no reverse one but a rejected; then the request is pending. All or nothing under any failing statement. |
| `Friends.FriendDao.AcceptFriendRequest` | src/storage/FriendDao.cpp:420-506 | Without failures succeeds exactly for a pending request; then it is accepted and both friendship rows are there. All or nothing under any failing statement. |
| `Friends.FriendDao.RejectFriendRequest` | src/storage/FriendDao.cpp:508-564 | Without failures succeeds exactly for a pending request; then it is rejected and no friendship has changed. All or nothing. |
| `Friends.FriendDao.AreFriends` | src/storage/FriendDao.cpp:566-580 | Whether the row of the pair is there. |
| `Friends.TablesStaySound` | src/storage/FriendDao.cpp:235-280 | Over runs from empty tables with any failures: at most one direction of a pair is not rejected, friendship is symmetric, and two users are friends exactly when one direction is accepted. |
| `Friends.NothingIsTakenBack` | src/storage/FriendDao.cpp:420-564 | Friendships are never lost and a request leaves the pending state at most once. |
| `Conversation.NoOverflow` | src/service/ChatService.cpp:113-133 | The id exists exactly for distinct non-zero users that fit in 32 bits, and is then the exact integer: no 64-bit overflow, never 0. |
| `Conversation.Symmetric` | src/service/ChatService.cpp:113-133 | The id does not depend on who sends. |
| `Conversation.ClientAgrees` | client_qt/src/chat/ChatController.cpp:199-214 | The client computes the server's id, and 0 exactly where the server refuses. |
| `Conversation.DecodeOfId` | src/service/HistoryService.cpp:59-77 | The history decoder inverts the id, across the small and the large encoding. |
| `Conversation.Injective` | src/service/ChatService.cpp:113-133 | Different unordered pairs have different ids, across both encodings. |
| `Conversation.ExactlyTheTwo` | src/service/HistoryService.cpp:80-87 | The membership test admits exactly the two users. |
| `OfflinePull.PullLimit` | src/service/OfflineMessageService.cpp:157-176 | The limit of a pull is the requested one or the option, the smaller; only 0 is refused. |
| `OfflinePull.GetOfflineMessages` | src/storage/OfflineMessageDao.cpp:415-472 | The messages of the undelivered rows with the smallest row numbers, in order, at most the limit; zero arguments are refused. |
| `OfflinePull.PageFacts` | src/storage/OfflineMessageDao.cpp:415-472 | A page has as many pending rows as the limit allows: those with the smallest numbers, in order. |
| `OfflinePull.AckTakesThePage` | src/storage/OfflineMessageDao.cpp:550-627 | The ack of a pulled page succeeds and takes exactly the page out of the pending rows. |
| `OfflinePull.PullingDeliversEverything` | src/storage/OfflineMessageDao.cpp:415-472 | Pulling with any positive limits and acknowledging each page, while others add rows, shows no message twice and all in row order, ends after at most one pull per row and one more, and then every row of the user is delivered and every message pending at the start has been seen. |
| `History.RequestedLimit` | src/service/HistoryService.cpp:193-207 | The default without a request, the request up to the maximum, the maximum beyond it; never more than 50, and only 0 is refused. |
| `History.GetHistory` | src/storage/MessageDao.cpp:424-502 | The records of the page: the greatest ids below the cursor, at most the limit and at most 50. |
| `History.PageIsExact` | src/storage/MessageDao.cpp:443-502 | A page has as many ids as the limit, the cut at 50 and the conversation allow: the greatest below the cursor, in descending order. |
| `History.PagingListsEverything` | src/storage/MessageDao.cpp:443-502 | Asking again before the smallest id seen, with any positive limits, ends after at most one request per message and one more, and lists every message present at the start exactly once in descending order, even if greater ids are inserted between pages. |
| `History.PagesAreAPrefix` | src/storage/MessageDao.cpp:443-502 | After any number of pages, what has been listed is a prefix of the descending list at the start. |
| `TimerHeap.TimerHeap.Add` | src/timer/TimerHeap.cpp:14-19 | Adds exactly one timer, with this time and callback, under an identifier never given before. |
| `TimerHeap.TimerHeap.Cancel` | src/timer/TimerHeap.cpp:21-23 | The timer is gone from the map, every other one is as it was, and no identifier becomes free. |
| `TimerHeap.TimerHeap.Clear` | src/timer/TimerHeap.cpp:68-71 | No timer and no queue entry is left; identifiers are not given out again. |
| `TimerHeap.TimerHeap.RemoveStaleTopEntries` | src/timer/TimerHeap.cpp:73-83 | Drops stale entries only, until the top one is the earliest live timer or none is left. |
| `TimerHeap.TimerHeap.NextExpirationMilliseconds` | src/timer/TimerHeap.cpp:52-58 | The expiration of the earliest live timer, or -1 without one. |
| `TimerHeap.TimerHeap.PopExpired` | src/timer/TimerHeap.cpp:25-50 | Refines the plain map: each fired timer was live, due and the earliest at its turn, the state is the one those firings lead to, nothing due is left, and the count is right; callbacks may add, cancel and clear. |
| `TimerHeap.CancelledNeverFires` | src/timer/TimerHeap.cpp:21-71 | Over every history, a timer that was cancelled, or that a clear found, is in no later list of fired timers. |
| `TimerHeap.RemovedByCallbackNeverFires` | src/timer/TimerHeap.cpp:25-50 | The same within one pop: a timer that a callback cancels or clears does not fire later in that pop. |
| `TimerHeap.AddedIsLive` | src/timer/TimerHeap.cpp:14-19 | Over every history, an added timer is live at once with its time and callback under a new identifier, and no other timer has changed. |
| `TimerHeap.LivesUntilFiredOrRemoved` | src/timer/TimerHeap.cpp:14-83 | Over every history, a live timer stays live and as it is until it fires, is cancelled or is cleared, by a call or by a callback. |
| `TimerHeap.FiresInTurn` | src/timer/TimerHeap.cpp:30-48 | No timer fires early or out of turn, whatever the callbacks do. |
| `TimerHeap.RemovedNeverFires` | src/timer/TimerHeap.cpp:21-48 | Within a pop, a timer that has fired, been cancelled or cleared does not fire any more, whatever the callbacks do. |
| `TimerHeap.NeverFiresTwice` | src/timer/TimerHeap.cpp:25-50 | Within a pop, no timer fires twice. |
| `TimerHeap.RemovedNeverFiresLater` | src/timer/TimerHeap.cpp:14-83 | Over every sequence of add, cancel, clear and pop, an identifier that has been given out and is not live never fires in any later call. |
| `TimerHeap.FiresOnceEver` | src/timer/TimerHeap.cpp:14-83 | Over every sequence of calls no identifier fires twice. |
| `TimerHeap.FiringsAreBounded` | src/timer/TimerHeap.cpp:25-50 | If callbacks add only later timers, a pop fires no more often than timers were due at its start, so it ends. |
| `TimerHeap.DueFiresOrIsRemoved` | src/timer/TimerHeap.cpp:25-50 | Every timer that was due has fired when the pop ends, unless some callback cancelled it or cleared the heap. |
| `TimerHeap.FiresInOrder` | src/timer/TimerHeap.cpp:7-12 | If callbacks add only later timers, the fired ones were all due at the start and fire in order of (time, identifier). |
| `TimerHeap.FiresExactlyTheDue` | src/timer/TimerHeap.cpp:25-50 | If they also remove none of them, exactly the due timers fire. |
| `Router.MessageRouter.constructor` | src/service/MessageRouter.cpp:16-24 | A new router handles heartbeats inline. |
| `Router.MessageRouter.RegisterHandler` | src/service/MessageRouter.cpp:27-38 | Registers exactly request types with a handler. |
| `Router.MessageRouter.RouteDecision` | src/service/MessageRouter.cpp:41-80 | For a request type whose body is a concatenation of well-formed fields: inline exactly if registered inline, to the pool exactly if registered for the business thread, NotFound exactly if not registered. InvalidArgument exactly for any other type, ParseError exactly for any other body. |
| `Router.BuildErrorBody` | src/service/MessageRouter.cpp:131-152 | Builds the error body, and none exactly when the text is too long for a TLV. |
| `Router.ErrorReadsBack` | src/service/MessageRouter.cpp:131-152 | A client reads the error code and text back out of an error response. |
| `Router.AtMostOneResponse` | src/service/MessageRouter.cpp:41-167 | Over every interleaving with the pool, each routed request has at most one send attempt, always with its own sequence number in a proper header. |
| `Router.ExactlyOneAfterDrain` | src/service/MessageRouter.cpp:81-128 | After the pool has drained, exactly one send attempt, on all paths, unless a check saw the session closed or the error text was too long. |
| `Router.StoppedPoolHasAnswered` | src/concurrency/ThreadPool.cpp:104-139 | So a stop of the pool that has returned leaves no accepted request unanswered. |
| `Router.TheAnswerIsSent` | src/service/MessageRouter.cpp:106-167 | What a request was refused, failed or replied with is exactly what its client is sent. |
| `RouterAnswers.ArrivalGoesOn` | src/service/MessageRouter.cpp:41-80 | An arrival on an open session starts to execute exactly if it is to run inline, goes to the pool exactly if it is to run there, and is otherwise refused with its code. |
| `RouterAnswers.RequestsGoForward` | src/service/MessageRouter.cpp:81-128 | A running pool below its limit queues the request, a worker takes it in order, an open session lets its handler run, and the outcome is sent: reply, the error returned, or InternalError for an exception. |
| `RouterAnswers.SettledAt` | src/service/MessageRouter.cpp:41-128 | Over every run, a settled request was settled by one step since its arrival: a refusal on arrival, a pool that was stopped or full, or its own handler. |
| `RouterAnswers.TheAnswerHasItsCause` | src/service/MessageRouter.cpp:41-167 | Over every run, an answered request has exactly one packet, with its sequence number: the handler's reply, or an error from which the client reads the code and text of the step that refused or failed it. |
| `RouterAnswers.TheReplyIsSent` | src/service/MessageRouter.cpp:106-167 | Over every run, once a handler has replied on an open session, that reply, type, body and sequence number, is the only packet ever sent for the request. |
| `RouterAnswers.ClosedWasSeen` | src/service/MessageRouter.cpp:42-44 | Over every run, a request is given up only after one of its own checks found the session closed. |
| `SessionManager.SessionManager.BindUser` | src/service/SessionManager.cpp:7-53 | Succeeds exactly for a valid user, a live session with a number, and a number that is free or already theirs; then the user has this session, the number this user, their old number is free and everything else is as before; it names the old session to close. A failure changes nothing. |
| `SessionManager.SessionManager.UnbindUser` | src/service/SessionManager.cpp:60-78 | Removes exactly the current binding, and says so. |
| `SessionManager.SessionManager.GetSessionByUser` | src/service/SessionManager.cpp:80-100 | The live session of a user; a binding to a dead one is dropped from both maps. |
| `SessionManager.SessionManager.GetUserBySession` | src/service/SessionManager.cpp:102-129 | The user of a live session; the stale branch is unreachable. |
| `SessionManager.SessionManager.GetBoundUserBySession` | src/service/SessionManager.cpp:131-145 | The bound user of a session, live or not. |
| `SessionManager.SessionManager.Counts` | src/service/SessionManager.cpp:147-155 | The two counts are equal. |
| `SessionManager.BindingKeeps` | src/service/SessionManager.cpp:27-46 | Binding keeps the maps inverse, binds exactly this pair and leaves other users alone. |
| `SessionManager.UnboundKeeps` | src/service/SessionManager.cpp:157-160 | So does unbinding. |
| `SessionManager.CountsAreEqual` | src/service/SessionManager.cpp:147-155 | Inverse maps have the same size. |
| `OnlineService.MapsStayInverse` | src/service/OnlineService.cpp:20-82 | Over every interleaving of binds, unbinds, look-ups and cache failures the two maps are exact inverses of equal size. |
| `OnlineService.ReplacedUnbindChangesNothing` | src/service/OnlineService.cpp:56-82 | Over every run: when a login replaces a session while an unbindSession of the old one is under way and has removed nothing, then, until the old session is bound again, it stays out of the maps, no step of that unbind changes the maps or Redis, and the unbind has returned as soon as it has taken one. |
| `OnlineService.ReplacedLeaves` | src/service/SessionManager.cpp:33-46 | A bind that gives a user another session takes the old one out of the maps. |
| `OnlineService.StaysOut` | src/service/SessionManager.cpp:60-160 | Only a bind of that session brings it back. |
| `OnlineService.UndisturbedLogin` | src/service/OnlineService.cpp:20-54 | The four steps of a login, one after another, bind the user in the maps and in Redis and leave every other user alone. |
| `OnlineService.UndisturbedLogout` | src/service/OnlineService.cpp:56-82 | The four steps of a logout, one after another, take exactly this user out of the maps and of Redis. |
| `OnlineService.OnlineService.BindUser` | src/service/OnlineService.cpp:20-54 | Succeeds exactly if the arguments are valid, the session is alive at the check and at the binding, the cache answers, and the session does not belong to another user's live session; then the maps and Redis hold the binding. A failure leaves the maps as they were, up to a dead binding that is dropped, and Redis as it was, unless the session died in between: then rolled back, or left if the rollback fails. |
| `OnlineService.OnlineService.UnbindUser` | src/service/OnlineService.cpp:56-69 | Maps and Redis change exactly when the binding is this session's. |
| `OnlineService.OnlineService.UnbindSession` | src/service/OnlineService.cpp:71-82 | An unbound session changes nothing; a bound one takes its user offline. |
| `CacheCodec.ReadToken` | src/cache/OnlineStatusCache.cpp:123-131 | Finds the next colon and moves past it. |
| `CacheCodec.ParseSessionValue` | src/cache/OnlineStatusCache.cpp:143-196 | The offset-driven parser computes the reference reading of a value, error cases included. |
| `CacheCodec.SessionRoundTrip` | src/cache/OnlineStatusCache.cpp:133-140 | Parsing a serialized valid session gives it back for every 64-bit value and any non-empty server id, colons included. |
| `CacheCodec.AcceptsExactly` | src/cache/OnlineStatusCache.cpp:143-196 | A stored value is read as a session exactly if it is the version, four numbers that end at their colons, the last of them the length of the server id, and a non-empty server id. |
| `CacheCodec.ParsesDecimal` | src/cache/OnlineStatusCache.cpp:94-106 | Every unsigned 64-bit number is read back from its decimal. |
| `CacheCodec.ParsesSignedDecimal` | src/cache/OnlineStatusCache.cpp:108-120 | Every signed 64-bit number is read back from its decimal, the smallest included. |
| `CacheCodec.LoginFailureKeyInjective` | src/cache/LoginRateLimiter.cpp:46-49 | Different user names or addresses never share a key, whatever characters they hold. |
| `CacheCodec.UnreadKeyInjective` | src/cache/UnreadCounter.cpp:58-67 | Different users or conversations never share an unread key. |
| `CacheCodec.OnlineKeyInjective` | src/cache/OnlineStatusCache.cpp:21-23 | Different users never share an online key. |

## Left out

- Update in place of the concurrent objects: `EventLoop`, `ThreadPool`, `ConnectionPool` and the requests in `Router` are machines on values, because their methods interleave within a call; what one thread does alone is a class.
- Sockets, epoll, timerfd, signals and accept: only partial reads and writes and the eventfd count appear.
- The MySQL and Redis client libraries, row-to-record parsing and password hashing: only their effects on tables and keys.
- Redis expiry, the wall clock, logging and configuration.
- Thread creation failure in the pool's start, and exceptions thrown by timer callbacks or epoll updates.
- TimerHeap.TimerHeap.Add: identifiers are unbounded, so the wrap-around after 2^64 timers is not modelled, and the priority queue is its contract, a sorted sequence.
- Fairness: only that draining, the loop's own work and paging end, that handlers can go on and that nobody sleeps beside work.
- DeliveryRuns.RetriesAgree: client ids are compared as bytes, so an id stands for all those that the column's collation treats as equal.
- `markOfflineDelivered` and `addFriendship`: no handler calls them.
- OfflinePull.PullingDeliversEverything: row numbers are any injective numbering of the user's rows in which later rows get greater numbers, and only this client acknowledges for the user.
- DeliveryPaths.NoRowUntilTurnedAway: a refused push is not the only way to a row, since a retry of the same client id looks the receiver up again and falls back when it finds them offline.
- DeliveryRuns.IncrementsMatchRows: the distinctness of a group's member list is taken from the primary key of its table.
- Friends.TablesStaySound: each friend call is one step; `createFriendRequest` checks and inserts without a transaction, so two opposite calls at once are outside the claim.
- Agreement of Redis with the session maps: bind and unbind are not atomic across them, and the program does not have it.
- ThreadPool.StopReturnsDrained: a stop called by a worker of the pool does not wait, so only outside callers get the promise.
- Registration, login, group management, the Qt windows, the command line and the benchmark.
