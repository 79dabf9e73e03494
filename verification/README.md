# A verified model of a collaborative-document server and its sync client

This project models, in Dafny, how documents are kept in step between many clients and one server, and
the machinery around it: the client's send queue, the wire formats, the server's registry of
connections, the access-control cache, document templates, stored blobs and snapshots, ids and rate
limits. Code that changes things in place is modelled by classes and methods with loops, each proved
against a specification function; the properties below are proved about those functions, over whole
runs where the program runs on.

## How it is laid out

- `CrdtDocument` states what is assumed of the document library: a document is the set of operations
  it has received, named by author and clock; operations after a gap are kept but not integrated; a
  state vector counts the integrated ones; a difference is taken by clock, and applying is union.
- `SyncMachine` is the whole system as a state machine: any number of clients, FIFO channels that are
  emptied by a disconnect, handshakes, updates, broadcasts that skip the origin, the eviction of the
  document's group with all its subscriptions, and a send queue given only by what it may do.
  `SyncEndpoints` has the two loops that the program runs at either end, tied to steps of the machine.
- `SendQueue` is the heap-based queue and its runner; `SendQueueRuns`, `SendQueueOrder` and
  `SendQueueDrains` are about its runs while only updates are queued.
- `SendQueueRefinement` shows that a client with that queue, inits, server inits, failed sends and
  losses included, takes only steps of the machine's client; `SyncWithQueues` puts such clients and
  the server together, each step with the choice its heap makes among equals, and carries convergence
  over to all their runs.
- `SyncSteps` builds runs of that system step by step. `SyncSettles` reaches the settled states of the
  convergence theorem and shows who is left behind; `SyncStuck` says when attached clients settle
  without a handshake; `SyncLossy` shows why no frame of an attached client may vanish. `SomeLibrary` has
  a document library and a heap that meet everything these runs assume of them.
- `MessageCodec` and `FrameStream` are the two wire formats. `Registry` has the server's maps and
  `RegistryHistory` says of each, from the events alone, what it holds after any run.
- `TemplateCompiler` and `ViewHierarchy` are the workspace templates.
- `PolicyCache` has keys, matcher and groupings, `PolicyEnforcer` the cached enforcer over runs,
  `CachedEnforcer` the object that works in place, `PolicyLog` the tables and the change log.
- `BlobQuota`, `BlobStorage`, `Snapshots` and `BatchQuery` are about stored data; `RateLimit` and
  `Snowflake` about bounded arithmetic.

## Where the code differs from what is said of it

- A merge that answers "stop" drops the message it has just popped, although the comment beside it
  wants it pushed back (libs/client-api/src/collab_sync/sink.rs:265-273). The no-loss theorem therefore
  has that as its exact condition, and the losing inputs are stated. A client whose queue must run into
  this is stuck: whatever anyone does, it is not quiet and attached again before its next handshake.
- A call that finds the head still processing pops it without pushing it back
  (libs/client-api/src/collab_sync/sink.rs:256-259), so a send that fails after the message was marked
  loses it; the losing run is stated, and this is the other half of the exact condition.
- The runner that is told of an ack pops whatever is at the head by then
  (libs/client-api/src/collab_sync/sink.rs:329-332): a reconnect in between has its init popped unsent.
  While sends succeed this race is the only way to pop an unsent head.
- The eviction of an inactive group stops every subscription and tells no client
  (libs/realtime/src/collaborate/group.rs:44-62,101-126), and a later message that is not an init
  subscribes again without a handshake (libs/realtime/src/collaborate/retry.rs:92-145). A client can so
  be left behind with every handshake complete and nothing queued; convergence therefore asks that each
  client's handshake was answered by the subscription the server still has for it, and the diverging
  runs are stated.
- An ack that arrives after its message timed out finds no waiting receiver and is not accepted, so an
  init's reply that comes late is not worked through; convergence speaks of completed handshakes.
- An ack names a message, not a send: a late ack of a first copy completes a second copy into which more
  was merged. While frames arrive in order this does no harm; if the rate limiter drops the second frame
  (libs/realtime/src/client.rs:237-248) the merged edit is lost, and that run is stated.
- Only the exact policy key is dropped from the result cache when a policy is removed
  (src/biz/casbin/enforcer.rs:120-126), so a cached answer about an action outlives a change of level;
  the theorem says exactly when the answer is still right.
- When the sequence wraps within a millisecond the generator waits for the next one but uses the old
  one (libs/snowflake/src/lib.rs:31-42); ids increase exactly when that does not happen.
- A frame of 2 to the 32 bytes or more is written behind a truncated length
  (libs/client-api/src/native/http_native.rs:71-83).

## Model

| member | source | states |
|---|---|---|
| `SyncMachine.Convergence` | libs/realtime-protocol/src/protocol.rs:14-107 | in every run of any number of clients and one server, evictions of the group and losses of queued messages included, at any point where nothing is queued or in flight and every client's handshake was answered by the subscription the server still has for it, its queue having lost nothing since, every client and the server hold exactly the union of all edits, without gaps |
| `SyncSettles.CanAlwaysSettle` | libs/client-api/src/collab_sync/sync.rs:134-151 | from every reachable state of clients with the real queues the run can go on, each step the program's own with the heap's order, merges and accepted acks, with no further edit and no disconnect, to a settled point where everyone holds exactly the union of all edits made so far |
| `SyncStuck.ConnectedClientsSettleIff` | libs/client-api/src/collab_sync/sink.rs:244-358 | attached clients with updates queued settle without any new handshake if and only if no queue must run over the limit: sending head after head, each merging what it can, never outgrows the maximum with messages waiting, and a head already given to a send was handed over as it stands |
| `SyncStuck.StuckNeedsHandshake` | libs/client-api/src/collab_sync/sink.rs:244-358 | the other side of it over every run, with edits, evictions, disconnects and failed sends: an attached client whose queue must run over the limit is never again attached with an empty queue unless it starts a new handshake |
| `SyncStuck.OversizedNeedsHandshake` | libs/client-api/src/collab_sync/sink.rs:257-281 | the stuck input: an unsent update over the limit at the head and another behind it |
| `SyncStuck.StaysStuck` | libs/client-api/src/collab_sync/sink.rs:244-358 | no step of any run but its own handshake frees a stuck client, or one that has lost a message, from being one or the other |
| `SyncSettles.UnsubscribedIsLeftBehind` | libs/realtime/src/collaborate/group.rs:101-126 | a client without a subscription is left behind by the next edit of another: from every quiet state the run goes on, with one edit and no handshake, to a quiet state in which that client is exactly as it was and lacks the edit |
| `SyncSettles.EvictionCanLeaveAClientBehind` | libs/realtime/src/collaborate/group.rs:44-62 | the diverging family, as runs of the real queues: from every reachable state with two clients the run goes on to a settled state, then by one eviction, a handshake and one edit of the other client to a quiet state with every handshake complete in which the first client is exactly as it was and lacks the edit |
| `SyncSettles.Handshake` | libs/client-api/src/collab_sync/sync.rs:134-151 | a client at rest can handshake: its init is sent and served, the reply accepted and worked through, the answer sent, served and popped, and the client ends attached with an empty queue |
| `SyncLossy.VanishedFrameLosesAnEdit` | libs/realtime/src/client.rs:237-248 | why no frame of an attached client may vanish: an edit is acknowledged too late, its message is sent again with a second edit merged in and that frame vanishes, the late ack completes it, and the client ends attached and quiet with an edit the server lacks |
| `SyncMachine.NothingInvented` | libs/realtime-protocol/src/protocol.rs:79-107 | at every moment of every run nobody holds an operation nobody authored, and every client holds all of its own |
| `SyncMachine.RunKeeps` | libs/realtime-protocol/src/protocol.rs:14-107 | the whole-system invariant (who may lack what, through which subscription, and where the missing operations are on their way) holds in every reachable state |
| `SyncWithQueues.QueuesConverge` | libs/client-api/src/collab_sync/sink.rs:121-358 | convergence of the system whose clients run the heap-based queues, in every run, whatever sends fail, whatever is lost on the way and however each step's heap chooses among equals: at any such quiet point all hold exactly the union of all edits |
| `SyncWithQueues.RunsRefine` | libs/client-api/src/collab_sync/sink.rs:121-358 | every run of that system is a run of the machine that ends in the same state |
| `SyncWithQueues.OnlyTheRaceLoses` | libs/client-api/src/collab_sync/sink.rs:323-343 | while sends succeed, a queue loses a message exactly by a merge over the limit or by the race in which the runner, told of an ack, pops a head that was never sent |
| `SyncWithQueues.RaceLosesTheInit` | libs/client-api/src/collab_sync/sink.rs:135-148 | the race at its simplest: a reconnect between the ack and the pop has its init popped unsent |
| `SyncMachine.OtherKeeps` | libs/realtime/src/collaborate/broadcast.rs:57-104 | a subscriber that is not the origin stays covered when the server integrates something: what it lacks is broadcast to it |
| `SyncMachine.NewsIsKnownToOrigin` | libs/realtime/src/collaborate/broadcast.rs:146-213 | skipping the origin is safe: everything a message makes the server integrate is already in the sender's document |
| `SyncMachine.ReplyCovers` | libs/realtime/src/collaborate/sync_protocol.rs:10-25 | the server's reply to a Step1 brings the client all the server has beyond the client's state vector, then asks with the server's own |
| `SyncMachine.ReplyIsExact` | libs/realtime/src/collaborate/sync_protocol.rs:10-25 | when the Step1's state vector counts what a document has integrated, the reply is exactly what the server has beyond that, and a Step1 that counts what the server has integrated; nothing else is replied to |
| `SyncMachine.InitIsExact` | libs/client-api/src/collab_sync/sync.rs:134-151 | an init leaves itself alone in the queue, counts exactly what the client has integrated and touches neither document nor channels |
| `SyncMachine.AnswerIsExact` | libs/client-api/src/collab_sync/sync.rs:306-344 | the answer to the server's Step1 is exactly what the client has and the server has not integrated; it completes the handshake only if the reply is to that handshake's init, and the other messages of a reply are applied and queue nothing |
| `SyncMachine.OnlyOthersHear` | libs/realtime/src/collaborate/broadcast.rs:146-213 | when a subscriber's message is taken up the origin gets its ack and nothing else, every other subscriber exactly what became integrated, if anything, and nobody else anything |
| `SyncMachine.ReceiveMeaning` | libs/client-api/src/collab_sync/sync.rs:268-304 | a broadcast only extends the document, an accepted ack only starts its reply, and any other ack leaves no trace |
| `SyncMachine.DropMeaning` | libs/client-api/src/collab_sync/sync.rs:134-151 | a lost connection ends one client's subscription and empties its channels; its document and queue stay |
| `SyncMachine.EditMeaning` | libs/client-api/src/collab_sync/plugin.rs:127-139 | an edit extends the document by exactly the client's next operations and waits, as one update, to be queued |
| `SyncMachine.QueueEditMeaning` | libs/client-api/src/collab_sync/sink.rs:121-133 | queueing an edit moves it, and nothing else, into the queue, unsent and under the next id |
| `SyncMachine.SendMeaning` | libs/client-api/src/collab_sync/sink.rs:244-310 | a merge, sent or not, takes the absorbed messages out of the queue and all they held into the one that is sent, and touches no other; a send hands over just that message |
| `SyncMachine.OtherStepsMeaning` | libs/client-api/src/collab_sync/sink.rs:244-358 | forgetting or losing a message takes that one out of the queue, only a sent one can be forgotten, and only a loss undoes a complete handshake |
| `SyncMachine.LossMeaning` | libs/realtime/src/collaborate/group.rs:44-62 | what an eviction and a lost message take away, and from whom a message may be lost |
| `SyncEndpoints.Handshake` | libs/realtime-protocol/src/protocol.rs:62-96 | with edits allowed on both sides between the three messages, the client ends with all the server had when it replied and the server with all the client had when it answered; without such edits both hold the union |
| `CrdtDocument.EncodeIsDifference` | libs/realtime-protocol/src/protocol.rs:62-77 | a clock-based difference equals the set difference exactly when the other side holds nothing after a gap; in general it repeats only such operations |
| `CrdtDocument.EncodeCovers` | libs/realtime-protocol/src/protocol.rs:62-77 | a difference taken against a state vector covers all its owner lacks and adds nothing foreign |
| `CrdtDocument.IntegratedMeaning` | libs/realtime/src/collaborate/broadcast.rs:57-104 | an operation is integrated exactly when all its author's earlier operations are there |
| `CrdtDocument.DifferenceIsRest` | libs/realtime-protocol/src/protocol.rs:62-77 | against any state vector that counts what a document has integrated, the difference is exactly what that document has not integrated |
| `CrdtDocument.StateVectorCounts` | libs/realtime-protocol/src/protocol.rs:47-58 | a document's state vector counts exactly its integrated operations, author by author |
| `SyncEndpoints.HandleAllIsServes` | libs/realtime/src/collaborate/broadcast.rs:223-304 | the group's loop over a payload is as many server steps of the whole-system machine in a row, and consumes the upstream message |
| `SyncEndpoints.HandleIsHandleOne` | libs/realtime/src/collaborate/broadcast.rs:223-304 | a subscribed client's message in the whole-system machine does to the group what one turn of its loop does |
| `SyncEndpoints.PayloadStartsWithInit` | libs/realtime-protocol/src/protocol.rs:47-58 | no payload a client makes is empty or asks for a handshake after its first message, so the loop's theorem speaks of all of them |
| `SyncEndpoints.CollabBroadcast.HandleUserCollabMessage` | libs/realtime/src/collaborate/broadcast.rs:223-304 | every message of a payload is applied, fanned out and acknowledged in turn |
| `SyncEndpoints.CollabBroadcast.HandleCollabMessage` | libs/realtime-protocol/src/protocol.rs:142-177 | the reply and the new document of each kind of message, with the server's two-message answer to a Step1 |
| `SyncEndpoints.CollabBroadcast.ApplyUpdate` | libs/realtime/src/collaborate/broadcast.rs:57-104 | what became integrated reaches every subscriber but the origin |
| `SyncEndpoints.CollabBroadcast.Subscribe` | libs/realtime/src/collaborate/broadcast.rs:124-221 | a subscription takes the place of an old one under a new number; what the old one still had to send stays on the client's channel, where it may be lost |
| `SyncEndpoints.SubscribedIsSubscribe` | libs/realtime/src/collaborate/retry.rs:92-145 | the machine's subscribing, by an init or by a message of a client without a subscription, is the group's |
| `SyncEndpoints.SyncStream.InitSync` | libs/client-api/src/collab_sync/sync.rs:134-151 | an init replaces everything queued by a Step1 with the document's current state vector |
| `SyncEndpoints.SyncStream.ProcessMessage` | libs/client-api/src/collab_sync/sync.rs:268-304 | a broadcast is applied at once, an ack's reply only if the sink accepted the ack |
| `SyncEndpoints.SyncStream.ProcessPayload` | libs/client-api/src/collab_sync/sync.rs:306-344 | the reply is worked through message by message, and a Step1 in it is answered with the missing operations |
| `SyncEndpoints.ProcessAllMeaning` | libs/client-api/src/collab_sync/sync.rs:306-344 | a reply brings the document exactly what its messages carry, and queues nothing unless it has a Step1 |
| `SendQueueRuns.NoEditLost` | libs/client-api/src/collab_sync/sink.rs:244-358 | in every run of queued updates that meets neither losing guard everything ever queued is in the heap or was handed to the socket, through merging, failed sends, timeouts, re-sends and late or repeated acks |
| `SendQueueRuns.EditLostIff` | libs/client-api/src/collab_sync/sink.rs:244-358 | in every run, when queued updates carry new operations, an edit is lost if and only if some send's payload grew over the limit with messages waiting, or some head was popped that was not handed to the socket as it stood |
| `SendQueueRuns.DroppedIffOverflows` | libs/realtime-entity/src/collab_msg.rs:349-365 | a merge loop over updates drops a message exactly when the head outgrows the maximum payload size before the heap is empty or a merge errs |
| `SendQueueRuns.DroppedIffOverflowing` | libs/client-api/src/collab_sync/sink.rs:257-281 | the same for a step of the queue: a message is dropped exactly by a send whose payload grows over the limit |
| `SendQueueOrder.OversizedUpdateLosesTheNext` | libs/client-api/src/collab_sync/sink.rs:257-281 | the losing family: an oversized update, another behind it and one send; the second update is in neither the queue nor the socket |
| `SendQueueOrder.FailedSendLosesTheHead` | libs/client-api/src/collab_sync/sink.rs:256-259 | the other losing family: a send that fails marks the head, and the next step pops it; it is in neither the queue nor the socket |
| `SendQueueOrder.FailedSendRun` | libs/client-api/src/collab_sync/sink.rs:308-322 | the smallest such run: one queued update, one failed send, and nothing is kept |
| `SendQueueDrains.CanAlwaysDrain` | libs/client-api/src/collab_sync/sink.rs:244-358 | from every state of such a run, failed sends included, sends and acks can go on until the queue is empty |
| `SendQueueDrains.LosslessDrainIff` | libs/client-api/src/collab_sync/sink.rs:244-358 | they can do so without losing a message if and only if nothing was lost so far, no send on the way must run over the limit, and a head already given to a send was handed over; after every such drain the socket has been handed exactly the edits ever queued |
| `SendQueueDrains.HeadIsSent` | libs/client-api/src/collab_sync/sink.rs:244-310 | an idle runner sends an unsent head, never growing the queue, and the head then waits for its own ack |
| `SendQueueRefinement.SinkRefinesMachine` | libs/client-api/src/collab_sync/sink.rs:121-358 | every step of a client with the heap-based queue (edits, inits and server inits queued, sends that work or fail, acks late or repeated, timeouts, a runner whose completion is gone, both ways of losing a message) is a step of the machine's client or none, a send that drops a message being a loss and a send; and it keeps what the next step needs |
| `SendQueueRefinement.SendRefines` | libs/client-api/src/collab_sync/sink.rs:244-322 | popping, merging and sending the head is the machine's send, or its merge if the send fails, with the absorbed messages made explicit, once the message the merge drops is lost |
| `SendQueueRefinement.PushRefines` | libs/client-api/src/collab_sync/sink.rs:121-133 | queueing a message adds it to the machine's queue as not yet sent |
| `SendQueueRuns.RunKeeps` | libs/client-api/src/collab_sync/sink.rs:165-188 | in every run only the oldest message was ever given to a send, a message waiting for its re-send or its pop is in the socket as it stands, and nothing is kept that was not queued |
| `SendQueueRuns.MergeLoopConserves` | libs/client-api/src/collab_sync/sink.rs:257-281 | the merge loop moves operations from the heap into the head and loses at most the one message it pops last |
| `SendQueue.OrderIsTotalPreorder` | libs/realtime-entity/src/collab_msg.rs:84-98 | the heap's order is a total preorder: client init, server init, then updates by ascending id; messages tie without being equal only if both are inits of one side |
| `SendQueue.OrderIsByRank` | libs/realtime-entity/src/collab_msg.rs:84-98 | which of two messages leaves first, and when neither does: client inits, server inits, messages without an id, then updates and acks by ascending id |
| `SendQueueOrder.HeadAfterPush` | libs/client-api/src/collab_sync/pending_msg.rs:157-164 | a new update never displaces the head of a queue of updates; a client init always becomes the head |
| `SendQueueOrder.UpdatesLeaveInOrder` | libs/client-api/src/collab_sync/sink.rs:244-358 | over every run, failed sends included, updates leave in id order, and only the last one sent is ever sent again |
| `SendQueueOrder.AckCompletesAtMostOncePerSend` | libs/client-api/src/collab_sync/pending_msg.rs:85-114 | in every run the sends completed by acks are pairwise different, and a send still waited for has not been completed |
| `SendQueueOrder.AcceptedAckPopsItsMessage` | libs/client-api/src/collab_sync/sink.rs:165-188 | an accepted ack leads to the removal of exactly the head it names |
| `SendQueue.MergeMeaning` | libs/realtime-entity/src/collab_msg.rs:349-365 | a merged update keeps the head's id and holds what both parts held |
| `SendQueue.MergeIff` | libs/realtime-entity/src/collab_msg.rs:52-63 | when a merge succeeds: two updates merge exactly when the first is within the limit and the library merges what they hold, whatever their ids; a library error is an error, and everything else says stop |
| `SendQueue.AsUpdateMeaning` | libs/realtime-entity/src/collab_msg.rs:369-373 | a payload counts as an update exactly if the first message in it decodes and is one |
| `SendQueueOrder.MergesAllIff` | libs/client-api/src/collab_sync/sink.rs:257-281 | the merge loop empties a queue of updates without dropping one exactly if their payloads, folded oldest first, all merge within the limit; the head then holds every queued operation under its own id |
| `SendQueueOrder.SendMergesAll` | libs/client-api/src/collab_sync/sink.rs:244-310 | a send over such a queue leaves one message, under the first id, with every queued operation in it, and hands that message to the socket |
| `SendQueue.CollabSink.QueueMsg` | libs/client-api/src/collab_sync/sink.rs:121-133 | a message takes the next id and waits as pending |
| `SendQueue.CollabSink.QueueInitSync` | libs/client-api/src/collab_sync/sink.rs:135-148 | an init clears the queue and is then the only message |
| `SendQueue.CollabSink.Clear` | libs/client-api/src/collab_sync/sink.rs:150-152 | the queue is emptied and nothing else changes |
| `SendQueue.CollabSink.Ack` | libs/client-api/src/collab_sync/sink.rs:165-188 | only the head can be acked; the answer says whether its completion reached the waiting runner |
| `SendQueue.CollabSink.SetState` | libs/client-api/src/collab_sync/pending_msg.rs:85-114 | a state change touches one message; Done fires and takes its completion |
| `SendQueue.CollabSink.ProcessNextMsg` | libs/client-api/src/collab_sync/sink.rs:190-242 | nothing while paused; an init or a finished head at once; anything else only after the interval |
| `SendQueue.CollabSink.TrySendMsgImmediately` | libs/client-api/src/collab_sync/sink.rs:244-358 | a finished or processing head is popped; any other is merged into, marked processing and handed to the socket |
| `SendQueue.CollabSink.MergePending` | libs/client-api/src/collab_sync/sink.rs:257-281 | the loop computes the merge of the heap's messages into the head, with each of the three merge results |
| `SendQueue.CollabSink.OnAcked` | libs/client-api/src/collab_sync/sink.rs:326-340 | a completed send pops the head |
| `SendQueue.CollabSink.OnTimeout` | libs/client-api/src/collab_sync/sink.rs:341-358 | a send that was not acked marks the head for a re-send |
| `MessageCodec.StreamRoundTrip` | libs/realtime-protocol/src/message.rs:273-283 | reading the concatenated encodings of any messages yields those messages and stops |
| `MessageCodec.StreamCut` | libs/realtime-protocol/src/message.rs:273-283 | a stream cut at any byte yields, without an error, exactly the messages that end before the cut: their encodings together fit in front of it, and with the next message's they would not |
| `MessageCodec.MessageRoundTrip` | libs/realtime-protocol/src/message.rs:30-86 | decoding inverts encoding and leaves the following bytes untouched |
| `MessageCodec.MessageCut` | libs/realtime-protocol/src/message.rs:58-86 | a proper prefix of a message always reads as an exhausted buffer, never as another message |
| `MessageCodec.SyncRoundTrip` | libs/realtime-protocol/src/message.rs:189-228 | the same for a sync message's tag and buffer |
| `MessageCodec.CustomRoundTrip` | libs/realtime-protocol/src/message.rs:114-154 | the same for a custom message's fixed-size metadata |
| `MessageCodec.AuthRoundTrip` | libs/realtime-protocol/src/message.rs:30-86 | the same for an auth message with and without a reason |
| `MessageCodec.DigitsRoundTrip` | libs/realtime-protocol/src/message.rs:30-56 | a varint of any size reads back as its number |
| `MessageCodec.GenUpdateMessageIsEncode` | libs/realtime/src/collaborate/broadcast.rs:327-336 | the hand-written update message equals the codec's encoding |
| `MessageCodec.WireFormat` | libs/realtime-protocol/src/message.rs:30-56 | the bytes of each kind of message, tag by tag |
| `MessageCodec.VarIntFormat` | libs/realtime-protocol/src/message.rs:30-56 | numbers are written seven bits to a byte, the lowest first, with the high bit on all but the last |
| `MessageCodec.UnknownTags` | libs/realtime-protocol/src/message.rs:58-86 | an unknown kind of message, sync message or custom message is refused, a tag beyond a byte is too large, and every flag of an auth message but "denied" grants |
| `MessageCodec.BadBuffers` | libs/realtime-protocol/src/message.rs:58-86 | a buffer longer than the input reads as exhausted, one beyond a u32 as too large, and one the library does not decode fails with the library's error |
| `MessageCodec.MetadataLength` | libs/realtime-protocol/src/message.rs:114-154 | custom metadata of fewer than eight bytes is refused, and of more the first eight are read |
| `MessageCodec.Encoder.WriteMessage` | libs/realtime-protocol/src/message.rs:30-56 | the encoder appends exactly the message's encoding to its buffer |
| `MessageCodec.MessageReader.TakeMessage` | libs/realtime-protocol/src/message.rs:58-86 | the cursor's decoder agrees with the function on the remaining bytes and advances past what it read |
| `MessageCodec.MessageReader.Next` | libs/realtime-protocol/src/message.rs:273-283 | the iterator yields a message, an error, or the end on an exhausted buffer |
| `FrameStream.ChunkingDoesNotMatter` | src/api/workspace.rs:336-376 | the frames emitted, the bytes left over and the first rejected frame are the same for every cutting of the body into chunks |
| `FrameStream.ParserInvertsWriter` | libs/client-api/src/native/http_native.rs:71-83 | for any decoder, the server reads back exactly the frames written, with nothing left over, if and only if every frame is shorter than 2 to the 32 and each of them decodes |
| `FrameStream.BigEndianMeaning` | libs/client-api/src/native/http_native.rs:71-83 | a length header has its most significant byte first |
| `FrameStream.LongFrameReadsShort` | libs/client-api/src/native/http_native.rs:71-83 | the losing family: a longer frame is read back cut to its length modulo 2 to the 32 |
| `FrameStream.FirstBadFrameIsRejected` | src/api/workspace.rs:349-366 | the first frame that does not decode is the one reported, after the frames before it |
| `FrameStream.ReadFramedData` | src/api/workspace.rs:336-385 | the nested parsing loops terminate and return the frames of the whole body, or fail on a bad frame or an empty list |
| `FrameStream.WriteFramedData` | libs/client-api/src/native/http_native.rs:71-83 | the framing loop writes each frame behind its 4-byte big-endian length |
| `Registry.AlwaysConsistent` | libs/realtime/src/collaborate/server.rs:225-316 | in every run every live stream belongs to the current user of its device, and every subscriber has a live stream, an editing record for that object, and a subscription made through that stream |
| `Registry.OneSubscriptionPerDevice` | libs/realtime/src/collaborate/server.rs:225-267 | in every run a device has at most one subscription to a document |
| `Registry.RemoveUserLeavesNoGroup` | libs/realtime/src/collaborate/server.rs:184-202 | after remove_user the user is in no group, in any consistent state |
| `Registry.ConnectStartsClean` | libs/realtime/src/collaborate/server.rs:225-267 | after a connect no user of that device is subscribed anywhere |
| `Registry.DisconnectIsExact` | libs/realtime/src/collaborate/server.rs:286-316 | a late disconnect of a replaced session changes nothing; the current session's takes the user's stream and all its subscriptions and nobody else's |
| `Registry.InitSubscribesUntilEnded` | libs/realtime/src/collaborate/retry.rs:74-159 | an init of a connected user subscribes it through its current connection, whatever it had before, and that subscription lasts through every run that has none of the events that end it |
| `Registry.SubscriptionEndsIff` | libs/realtime/src/collaborate/server.rs:225-316 | a subscription ends with exactly these events: a connect from the same device, a disconnect not of a replaced session, the eviction of the group |
| `RegistryHistory.SubscriptionsMean` | libs/realtime/src/collaborate/retry.rs:74-159 | after any run a subscription is there exactly if a message made it and no event has ended it since, and it has the origin of the latest message that made one and the connection that message came through; the editing record is told by the same messages |
| `RegistryHistory.SubscriberIsRecorded` | libs/realtime/src/collaborate/retry.rs:100-158 | in every run a subscriber's editing record names the very origin it is subscribed under, that of the message that made the subscription |
| `RegistryHistory.StreamsMean` | libs/realtime/src/collaborate/server.rs:225-316 | after any run a user's stream is that of its latest connect, unless its device connected again or its session disconnected since |
| `RegistryHistory.SessionsMean` | libs/realtime/src/collaborate/server.rs:225-267 | after any run a user's session is that of its latest connect, whatever disconnected since |
| `RegistryHistory.DevicesMean` | libs/realtime/src/collaborate/server.rs:225-267 | after any run a device belongs to the user that connected from it last |
| `RegistryHistory.GroupsMean` | libs/realtime/src/collaborate/retry.rs:74-159 | after any run a group exists exactly if a message created it after its last eviction |
| `RegistryHistory.LateDisconnect` | libs/realtime/src/collaborate/server.rs:286-316 | over every run, a disconnect of any session of a user but its latest changes nothing; one of the latest takes the stream |
| `Registry.CollabServer.HandleConnect` | libs/realtime/src/collaborate/server.rs:225-267 | the handler's effect on the five maps |
| `Registry.CollabServer.HandleDisconnect` | libs/realtime/src/collaborate/server.rs:286-316 | the handler's effect on the five maps |
| `Registry.CollabServer.HandleClientMessage` | libs/realtime/src/collaborate/server.rs:120-181 | a message of a user without a stream is refused and changes nothing; any other may subscribe |
| `Registry.CollabServer.Subscribe` | libs/realtime/src/collaborate/retry.rs:74-159 | when a group is created, when a subscription is kept, and when it is made anew |
| `Registry.CollabServer.RemoveUserEverywhere` | libs/realtime/src/collaborate/server.rs:184-202 | the loop over the editing records takes the user out of exactly those groups |
| `Registry.CollabServer.Tick` | libs/realtime/src/collaborate/group.rs:44-62 | the inactive groups, and only those, are removed |
| `TemplateCompiler.CompilationPreservesTree` | libs/workspace-template/src/document/parser.rs:15-118 | with distinct fresh names, reading the document back from its page through the children index, the block table and the text index gives the very tree that was compiled |
| `TemplateCompiler.EveryBlockHasOnePlace` | libs/workspace-template/src/document/parser.rs:70-91 | every block but the page is listed exactly once, in its parent's list and in no other; the page is listed nowhere |
| `TemplateCompiler.DocumentIsExact` | libs/workspace-template/src/document/parser.rs:15-118 | the tables hold what belongs in them and nothing more: each block under its own id and only the page without a parent; a children list for every block but a page without children, each with the ids of its children in order, and no other key; the texts of exactly the blocks that had a delta |
| `TemplateCompiler.ChildMapDomain` | libs/workspace-template/src/document/parser.rs:70-91 | after any part of the loop a block has a list exactly if it was visited and has a parent, or a child of it was visited |
| `TemplateCompiler.ChildMapLookup` | libs/workspace-template/src/document/parser.rs:70-91 | after any part of the loop each block's list is exactly its visited children, in order |
| `TemplateCompiler.GeneratedDistinct` | libs/workspace-template/src/document/parser.rs:93-118 | no two blocks share an id or a list name, and no two texts share an id |
| `TemplateCompiler.ParentIsGenerated` | libs/workspace-template/src/document/parser.rs:39-61 | every block but the root has one of the generated blocks for parent |
| `TemplateCompiler.ParentFollows` | libs/workspace-template/src/document/parser.rs:39-61 | the recursion inserts every block before its parent, the root last |
| `TemplateCompiler.JsonToDocument` | libs/workspace-template/src/document/parser.rs:15-37 | the whole compiler: its result reads back as the template |
| `TemplateCompiler.GenerateBlocks` | libs/workspace-template/src/document/parser.rs:39-61 | the recursion over insertion-ordered maps yields the blocks and texts of the specification, in order |
| `TemplateCompiler.BlockToPb` | libs/workspace-template/src/document/parser.rs:93-118 | the block's id is the given one or the first name drawn, the next names its text if it has a delta and the one after that its children; the delta leaves the data, and the text's id and type are there exactly with a delta |
| `TemplateCompiler.GenerateChildrenMap` | libs/workspace-template/src/document/parser.rs:70-91 | the loop builds the children index of the specification |
| `ViewHierarchy.FlatteningPreservesTrees` | libs/workspace-template/src/hierarchy_builder.rs:146-155 | selecting the flat list by parent, from the workspace down, gives back the planned trees with every sibling in its place |
| `ViewHierarchy.FlatListsPreOrder` | libs/workspace-template/src/hierarchy_builder.rs:146-155 | every view is listed once, in pre-order |
| `ViewHierarchy.ParentPrecedes` | libs/workspace-template/src/hierarchy_builder.rs:99-107 | a view's recorded parent is the workspace or a view listed before it |
| `ViewHierarchy.ChildrenFieldAgrees` | libs/workspace-template/src/hierarchy_builder.rs:109-135 | each view's children are, in order, the ids of the views that name it as parent |
| `ViewHierarchy.FlattenViews` | libs/workspace-template/src/hierarchy_builder.rs:146-155 | the loop with its recursive call computes the flat list |
| `PolicyLog.ReplayEqualsReload` | src/biz/casbin/pg_listen.rs:20-112 | after any log of member inserts, updates and deletes, with questions in between, a running server holds the policies a restart would load from the final tables, each as often, and get_action answers alike |
| `PolicyLog.ReplayKeepsAgreement` | src/biz/casbin/pg_listen.rs:20-112 | at every point of the log the enforcer lists exactly what the tables grant, each once, and the action cache is true |
| `PolicyLog.WorkspaceUpdateAgreesIff` | src/biz/casbin/pg_listen.rs:71-90 | a consumed update agrees with a reload exactly when it kept the row's key; a moved row leaves its old policy behind |
| `PolicyLog.CollabUpdateAgreesIff` | src/biz/casbin/pg_listen.rs:20-60 | the same for an update of a collab member |
| `PolicyLog.TablesStep` | src/biz/casbin/pg_listen.rs:20-112 | a reported change of the tables is the same single change of who holds what |
| `PolicyLog.LoadPolicy` | src/biz/casbin/adapter.rs:69-105 | the loaded list is the policies of the rows of the two queries, in order, and so holds exactly what the tables grant, each once |
| `PolicyLog.CreateWorkspacePolicies` | src/biz/casbin/adapter.rs:48-66 | the loop turns each member row into its policy, in order |
| `PolicyLog.CreateCollabPolicies` | src/biz/casbin/adapter.rs:29-46 | the same for collab members and their access level |
| `PolicyLog.ListenOnCollabMemberChange` | src/biz/casbin/pg_listen.rs:15-62 | the receive loop applies each change in turn; changes without a row or with an unknown permission are dropped |
| `PolicyLog.ListenOnWorkspaceMemberChange` | src/biz/casbin/pg_listen.rs:64-112 | the same for workspace members, an unknown role id counting as guest |
| `PolicyEnforcer.GetActionIsNeverStale` | src/biz/casbin/enforcer.rs:150-172 | in every run, whatever was asked and however updates were lost, there is at most one policy for a user on an object, and get_action answers what an uncached scan would |
| `PolicyEnforcer.CachedAnswerIsFreshIff` | src/biz/casbin/enforcer.rs:131-148 | in every run, whatever else is asked, once an action has been asked about enforce gives that first answer for ever; it is the bare matcher's exactly if what the last update or removal left permits the action as it did then |
| `PolicyEnforcer.UntouchedPairStaysFresh` | src/biz/casbin/enforcer.rs:131-148 | in every run, for any question about a user and object that no later update or removal names, enforce equals the bare matcher |
| `PolicyEnforcer.UpgradeIsNotSeen` | src/biz/casbin/enforcer.rs:120-126 | the stale family: a reader refused a write is still refused after being given full access |
| `PolicyEnforcer.PlainRunAgrees` | src/biz/casbin/enforcer.rs:57-80 | when enforce is only asked about read, write and delete, no update is lost to the result cache and no cached answer is ever dropped |
| `PolicyEnforcer.UpdateTakesEffectIff` | src/biz/casbin/enforcer.rs:57-66 | why that is needed: an update to a level not yet held takes effect exactly when that very level has no cached answer, and asking about it caches one |
| `PolicyEnforcer.UpdateAgrees` | src/biz/casbin/enforcer.rs:51-82 | past its checks, update leaves exactly one policy for the user on the object, the new one, and reports that it was added |
| `PolicyEnforcer.RemoveAgrees` | src/biz/casbin/enforcer.rs:84-129 | remove takes exactly the pair's policy and keeps the action cache true |
| `PolicyEnforcer.RemoveForgets` | src/biz/casbin/enforcer.rs:84-129 | a removal forgets the cached answer about the very level held and the pair's action, and no other answer |
| `PolicyEnforcer.UpdateAnswers` | src/biz/casbin/enforcer.rs:51-82 | each answer of an update and when it is given: a role on a collab or a level on a workspace is refused, a cached key answers with what is cached, both changing nothing; any other update succeeds |
| `PolicyEnforcer.QuestionsAreCached` | src/biz/casbin/enforcer.rs:131-172 | a question leaves its own answer in its cache and changes nothing else; a get_action without an answer leaves no trace |
| `PolicyLog.MalformedIsDropped` | src/biz/casbin/pg_listen.rs:20-112 | a delete without its old row, any other change without its new row and a collab change to an unknown permission change nothing |
| `PolicyCache.ObjectKeyInjective` | src/biz/casbin/enforcer.rs:190-197 | the object key tells every user and object apart, whatever colons the object's id holds |
| `PolicyCache.PolicyKeyInjective` | src/biz/casbin/enforcer.rs:174-181 | so does the policy key for every user, object and action |
| `PolicyCache.LinkedMeaning` | src/biz/casbin/access_control.rs:101-117 | under the matcher and the loaded groupings every level reads, exactly read-and-write and full access write, full access alone deletes, and a role permits only itself |
| `PolicyCache.Spelling` | src/biz/casbin/access_control.rs:162-214 | the spelling of actions, roles, levels and objects in policies and requests, literally |
| `PolicyCache.DigitsReadBack` | src/biz/casbin/access_control.rs:162-214 | a user id or a level is spelled in decimal without a leading zero |
| `PolicyCache.RoleOfCodeMeaning` | libs/database-entity/src/dto.rs:312-346 | a role's id reads back as the role, and every other id as a guest |
| `PolicyEnforcer.VerdictByGrant` | src/biz/casbin/adapter.rs:88-101 | what the matcher permits a user on an object by what the user holds there: write exactly with read-and-write or full access, delete exactly with full access, read with any level, a role or level exactly with itself |
| `CachedEnforcer.AFEnforcer.Update` | src/biz/casbin/enforcer.rs:51-82 | policies, caches and result after an update, with its two early returns |
| `CachedEnforcer.AFEnforcer.Remove` | src/biz/casbin/enforcer.rs:84-129 | policies and caches after a removal, and the policies it returns |
| `CachedEnforcer.AFEnforcer.Enforce` | src/biz/casbin/enforcer.rs:131-148 | the verdict and the result cache |
| `CachedEnforcer.AFEnforcer.GetAction` | src/biz/casbin/enforcer.rs:150-172 | the action and the action cache |
| `BlobQuota.UsageBound` | libs/database/src/file/file_storage.rs:52-95 | however checks, commits, aborts and deletes interleave, with at most k uploads in flight a workspace's usage never passes MAX_USAGE by more than k blobs |
| `BlobQuota.UsageInsert` | libs/database/src/resource_usage.rs:36-63 | writing a row changes the usage by the difference of the sizes, a replaced row counting once |
| `BlobStorage.AgreementKeptIff` | libs/database/src/file/file_storage.rs:52-105 | a request keeps one object for each row, of the recorded size, if and only if it is not one that passes the size, row and quota tests, is accepted by the bucket and then loses its commit |
| `BlobStorage.AloneIsInterleaved` | libs/database/src/file/file_storage.rs:52-105 | a put or delete that runs alone does to the rows what its steps do in the concurrent system of the quota bound |
| `BlobStorage.RunKeepsAgreement` | libs/database/src/file/file_storage.rs:52-105 | over any run of puts and deletes without such a loss rows and objects agree, no object is larger than a blob may be, and the usage is the number of bytes stored |
| `BlobStorage.ObjectKeyInjective` | libs/database/src/file/file_storage.rs:81 | an object key names one file of one workspace |
| `BlobStorage.BucketStorage.PutBlob` | libs/database/src/file/file_storage.rs:52-95 | when nothing is done, when the quota refuses, and what is written |
| `BlobStorage.PutAnswers` | src/api/file_storage.rs:49-106 | each answer to an upload and when it is given, with the limits in bytes: a wrong declared length, a short or long payload, a full quota, a refusing bucket, a lost commit; a file already there is left alone, and only a success adds the row, with the payload's size |
| `BlobStorage.DeleteAnswers` | libs/database/src/file/file_storage.rs:98-105 | each answer to a deletion and what it leaves |
| `BlobStorage.BucketStorage.DeleteBlob` | libs/database/src/file/file_storage.rs:98-105 | a missing row fails and changes nothing; otherwise row and object go together |
| `BlobStorage.BucketStorage.UsageSize` | libs/database/src/resource_usage.rs:151-162 | the sum over a workspace's rows, in whatever order they are added |
| `Snapshots.RetentionOverRuns` | libs/database/src/collab/collab_db_ops.rs:337-378 | after any creations across documents each document keeps exactly the newest of all its snapshots, as many as the limit allows, listed newest first |
| `Snapshots.RestoreReadsTheLast` | libs/realtime/src/collaborate/plugin.rs:277-285 | the restore path reads the most recent snapshot ever made of the document |
| `Snapshots.CreateKeepsNewest` | libs/database/src/collab/collab_db_ops.rs:359-370 | one creation trims its own document to the newest and touches no other |
| `Snapshots.RetentionAtAnyClock` | libs/database/src/collab/collab_db_ops.rs:337-378 | in every run, whatever the clock reads, one more creation keeps as many of the document's snapshots as the limit allows, none older than one it drops, and touches no other document |
| `Snapshots.NewestFirstMeaning` | libs/database/src/collab/collab_db_ops.rs:359-370 | the list is a permutation of the rows in descending order of creation |
| `Snapshots.SnapshotStore.CreateSnapshot` | libs/database/src/collab/collab_db_ops.rs:337-378 | insert and trim, in place |
| `BatchQuery.BatchGetCollab` | src/biz/collab/storage.rs:265-306 | every queried object is answered, by the one-query answer of some query for it, and there are no other answers; only queries of a type whose SQL fails are missing |
| `BatchQuery.AnswerMeaning` | src/biz/collab/storage.rs:265-306 | what a batch answers about an object that one of its queries names: an empty id is refused with its error, an open document that encodes wins over its row, a missing row is reported, and the object is left out exactly if it is neither and its type's SQL fails |
| `BatchQuery.AnswersArePointwiseIff` | src/biz/collab/storage.rs:265-306 | without an SQL error the keys are exactly the queried ids, and every query gets the answer it would get alone if and only if no closed object is queried under two types whose rows differ |
| `BatchQuery.BatchSelectCollabBlob` | libs/database/src/collab/collab_db_ops.rs:205-260 | the same for the queries that reach the database, whatever order the groups are taken in |
| `BatchQuery.PartitionQueries` | src/biz/collab/storage.rs:270-301 | the two partitions split the queries into invalid, answered from memory and left for the database |
| `RateLimit.IntervalBound` | libs/realtime/src/client.rs:237-248 | for every arrival trace any closed interval as long as the limit's sees at most twice the maximum let through |
| `RateLimit.IntervalBoundIsReached` | libs/realtime/src/client.rs:237-248 | and a trace that reaches that number |
| `RateLimit.WindowBound` | libs/realtime/src/client.rs:237-248 | each counting window lets through its first messages up to the maximum and no more |
| `RateLimit.DroppedOnlyAfterTheMaximum` | libs/realtime/src/client.rs:237-248 | a message is dropped only if the maximum was already let through within the interval before it |
| `RateLimit.ClientSession.Receive` | libs/realtime/src/client.rs:237-248 | the window after a message, and whether the message passes |
| `Snowflake.IdsIncreaseIff` | libs/snowflake/src/lib.rs:25-43 | over a run with a non-decreasing clock the ids strictly increase exactly when no call wraps the sequence of its millisecond |
| `Snowflake.RunIdsDecode` | libs/snowflake/src/lib.rs:40-42 | every id of a run is non-negative and tells its millisecond, node and sequence |
| `Snowflake.NodesDoNotClash` | libs/snowflake/src/lib.rs:40-42 | two nodes never give the same id, on any two runs |
| `Snowflake.WrapRepeatsTheFirstId` | libs/snowflake/src/lib.rs:31-42 | the failing family: a call that wraps waits but keeps the old millisecond, and repeats that millisecond's first id |
| `Snowflake.Generator.NextId` | libs/snowflake/src/lib.rs:25-43 | the generator's state and id after a call; a clock that went back fails and changes nothing |

## Left out

- Content of operations, deletions and awareness: an update is the set of operations it holds, and a presence message carries none.
- The document library, casbin, SQL and the object store themselves: documents as operation sets, the matcher of the model configuration, tables as maps or lists, a bucket whose requests apply fully or not at all.
- Failed lock attempts, lagging broadcast receivers and the permission checks around sending and receiving: every handler is one atomic step that takes its locks.
- Widths of ids and counters: message ids, edit clocks and the rate limiter's counter do not wrap; the sum of a length header's four bytes and its frame's length does not overflow.
- FrameStream.ReadFramedData: the decoder of a frame's content is a parameter, and bytes left in the buffer at the end of a body are ignored as the program does.
- A subscription whose new group finds no origin user; an evicted group is reopened with the document it had, as its flush to the store is taken to succeed.
- Frames of an attached client that the rate limiter drops unacknowledged: in the whole-system machine only a client that is not attached loses messages on the way up, and SyncLossy.VanishedFrameLosesAnEdit is the run that shows why. It takes the updates of the two edits to merge within the limit.
- SyncStuck.ConnectedClientsSettleIff: speaks of moments when every client is attached, its runner is free, only updates are queued and nothing of its own is in flight or being worked through; edits may still wait to be queued, and news may be on its way.
- SyncSettles.CanAlwaysSettle: takes the library to be able to write, as messages that read back, the updates, answers and inits over the operations made so far, as do the other runs that are built in SyncSettles, SyncStuck and SyncLossy; SomeLibrary.SoundWorldsExist shows that any operations have such a library.
- A send that succeeds without a connection, and a queue cleared without an init (libs/client-api/src/collab_sync/plugin.rs:145-147).
- The JSON parser in front of the template compiler; a value is its JSON text. nanoid is a supply of names that are distinct and not empty.
- The asynchronous view builders: a plan lists the views in the order in which the builders add them; time stamps and the author of a view are not modelled.
- PolicyLog.ReplayEqualsReload: assumes that a row's permission exists, as the tables' foreign key demands, and that every change reaches the listener in order.
- Whether an object has any policy at all, the HTTP methods' mapping to actions, and the transport of database notifications.
- BlobQuota.UsageBound: the conversion of the database's decimal sum to 64 bits is not modelled.
- Failures of the object store that take effect and still report an error.
- Snapshots.RetentionOverRuns: speaks of creation times that increase within a document; Snapshots.RetentionAtAnyClock does not. Which of two equally old rows the database keeps is open.
- The hourly test that decides whether a snapshot is due, soft deletion of snapshots, and compression.
- Memory-cache coherence of stored documents across aborted transactions and deletes.
- The heartbeat, and the kinds of web-socket frames behind the rate limit.
- Snowflake.RunIdsDecode: a clock reading is counted from the generator's epoch, so the subtraction of the epoch and a clock before it are not modelled.
- HTTP handlers, login, administration, configuration, encryption, metrics and close-code conversion.
