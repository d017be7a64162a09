# Verified model of the firmware's core

The firmware is a C application for a 32-bit microcontroller under FreeRTOS. This project models the parts of it
that hold state, loops or bounded arithmetic, and proves what callers rely on.

* **The memory pool** (`main/memory_pool.c`). `MemoryPool.dfy` is the allocator in place: one region of memory whose
  addresses hold headers, header padding and payload bytes, an intrusive linked list, a best-fit search loop, a split
  on allocation and a coalescing sweep on free. Each method is tied to a function on the list of blocks
  (`BlockList.dfy`), and the theorems about any run of allocations and frees are about those functions
  (`PoolTheorems.dfy`). The size of a header is a parameter, so nothing is claimed about 8-byte alignment of payloads.
* **Publish/subscribe with QoS retries** (`main/topic_manager.c`, `main/publisher.c`, `main/subscriber_manager.c`,
  `main/message_handler.c`). `PubSub.dfy` is one shared state changed by atomic steps: application tasks, one delivery
  task per topic and the timer daemon interleave in any order between lock operations, with four kinds of mutex, a
  bounded queue per topic and the pool above. `Boot` is the state after the init functions; a run is any list of
  enabled actions from there, and every result about runs holds for all of them. Results live in one file each:
  locks, ownership of blocks, queues, delivery, subscriber lists, retries, result codes, rollbacks. `PubSubCalls.dfy`
  reads off the shared tables what the steps of one call did and compares that with the code the caller gets, and
  `PubSubVerdicts.dfy` traces each code to the one step that decided it. `PubSubTurns.dfy` and `PubSubRounds.dfy` state
  every call, every firing of a timer and every pass of a delivery task as one sequential operation, and show that the
  atomic steps carry it out when nobody interrupts.
  `SubscriberList.dfy` holds the pointer-chasing loops of the same sources as a class over linked nodes.
* **The MQTT 3.1.1 codec** (`main/mqtt/mqtt_encoder.c`, `main/mqtt/mqtt_decoder.c`). `MqttWire.dfy`, `MqttPublish.dfy`,
  `MqttConnect.dfy` and `MqttTopics.dfy` give the byte layouts and the theorems; `MqttBuffers.dfy` holds the encoders and
  decoders that work at a moving position in a buffer.
* **The WebSocket frame codec** (`main/websocket/ws_frame.c`): `WsFrame.dfy` and, in place, `WsBuffers.dfy`.
* **The device protocol** (`main/protocol/device_protocol.c`): the CRC-16 in `ShiftRegister.dfy` and `Crc16.dfy`, the
  packed header in `DeviceProtocol.dfy`, the in-place functions and the sequence counter in `ProtocolEndpoint.dfy`.

Three kinds of statement deserve a word.

* Where the code does less than its standard or its comment promises, the model follows the code and the theorem gives
  the exact condition, with a concrete input on the wrong side of it. `(size + 7) & ~7` wraps for the seven largest
  sizes (`RoundUpCovers`, `RoundUpWraps`). The remaining-length decoder tests its multiplier after multiplying, so it
  refuses every four-byte length although section 2.2.3 of MQTT 3.1.1 allows 268,435,455; the round trip holds exactly
  below 128^3 (`LengthRoundTrip`, `FourByteLengthRefused`). The encoder stops at a fourth byte that says more follow, so
  what a packet announces is right exactly when every string fits 16 bits and the length is below 128^4
  (`SubscribeLength`, `TooManyTopics`); for CONNECT the first condition implies the second (`ConnectLength`,
  `LongClientId`). The PUBLISH decoder reads behind its buffer exactly when a packet is truncated and what the decoder
  does check is in order
  (`MqttPublish.PastEndIff`, `PastEndReached`), and it reads bytes behind the announced ones exactly when topic or packet
  identifier do not lie within them (`SelfDelimitingIff`, `BorrowedTopic`). The WebSocket encoder accepts a NULL payload
  with a length and reports a frame of stale bytes; its frames decode to the message exactly when pointer and length
  agree (`EncodeRoundTrip`, `StalePayloadReached`). Both size checks of the WebSocket codec add two 64-bit numbers and go
  wrong exactly when the sum wraps and the buffer holds the wrapped sum (`WsFrame.PastEndIff`, `WsFrame.PastEndReached`,
  `EncodeWrapsIff`, `EncodeWrapReached`); the decoder's never does when the top bit of the length is 0 as section 5.2 of
  RFC 6455 requires (`TopBitClear`). A device message whose payload exceeds 65,535 bytes is packed but does not come
  back (`PackRoundTrip`, `LongPayloadLost`). A QoS message to a name of 64 bytes or more is refused, and its retries go
  to the topic named by its first 63 (`LongNameRefused`, `RetriesAreTheCallers`, `StrayRetryReached`).
* The CRC table is abbreviated in the source: 16 entries are written out and C fills the rest with zeros. Round trips
  are proved for every table. A table detects every change of two adjacent bytes exactly when the low bytes of its
  entries are pairwise distinct (`TellsBurstsIff`), and the protocol rejects every such change of its messages under the
  same condition (`DetectionIff`). The full table of polynomial 0x1021, generated bit by bit, which the comment in the
  source says is meant, meets it (`FullTableLowDistinct`); the written entries agree with that table (`WrittenEntries`),
  and the abbreviated table does not meet it (`WrittenTableMisses`). Telling single bytes apart takes less, distinct
  entries (`TellsBytesIff`, `DistinctIsNotEnough`).
* Fields named `accepted`, `rounds`, `bytes`, `serial`, `attempts`, `ticket` and `issued` are history: they record what
  happened and no step reads them to decide anything but the ticket that names a timer.

## Model

| member | source | states |
|---|---|---|
| BlockList.BestFit | main/memory_pool.c:63-74 | the search returns the lowest-address free block of least slack, and nothing only when no free block is large enough |
| PoolTheorems.GrantExact | main/memory_pool.c:81-92 | of the free block of least size that holds the rounded request, lowest address first, exactly the rounded size is granted if and only if what is left over is nothing or at least a header and 8 bytes, and that remainder is then a free block; otherwise the whole block is granted |
| PoolTheorems.SplitsLeaveEight | main/memory_pool.c:82-86 | in every run a free block that appears with an allocation holds at least 8 bytes |
| PoolTheorems.NoTinyBlocks | main/memory_pool.c:51-120 | while no request exceeds SIZE_MAX - 7, no block of any run, live or free, merged or not, is smaller than 8 bytes |
| PoolTheorems.WholeBlockGranted | main/memory_pool.c:82 | 32 bytes freed and 16 asked for: all 32 are granted and used_size is 64 |
| PoolTheorems.AllocKeeps | main/memory_pool.c:51-100 | alloc keeps the list tiling the region in address order without two adjacent free blocks; the new block is disjoint from every live one, the live set grows by it alone, used_size by its size and header, peak_use is the larger of its old value and the new used_size; a NULL result changes nothing |
| PoolTheorems.AllocFailsOnlyWhenFull | main/memory_pool.c:57-79 | NULL if and only if no contiguous run of the region, listed as a block or not, is free of live blocks and holds a header and the rounded size |
| PoolTheorems.FreeKeeps | main/memory_pool.c:102-123 | free keeps the same invariant, removes exactly the freed block from the live set and its size and header from used_size |
| PoolTheorems.CanonicalForm | main/memory_pool.c:111-120 | two canonical block lists over the same region with the same live blocks are equal: the list is a function of the live set |
| PoolTheorems.AllocThenFree | main/memory_pool.c:81-120 | alloc followed by free of the result restores block list and used_size, split or not |
| PoolTheorems.FreesCommute | main/memory_pool.c:102-123 | freeing two live blocks in either order gives the same pool |
| PoolTheorems.FreeAllRestoresInit | main/memory_pool.c:38-46 | freeing all live blocks in any order restores the single block built by init |
| PoolTheorems.RoundUpCovers | main/memory_pool.c:57 | the rounded size covers the request if and only if the request is at most SIZE_MAX - 7; then it exceeds it by less than 8, and otherwise it is 0 |
| PoolTheorems.RoundUpWraps | main/memory_pool.c:57 | a request of SIZE_MAX is rounded to 0 |
| PoolTheorems.EveryRun | main/memory_pool.c:24-123 | in every run of allocs and frees from init each state satisfies the invariant, and peak_use is a used_size that occurred and that none exceeds |
| MemoryPool.MemoryPool.constructor | main/memory_pool.c:38-46 | init leaves one free block over the whole region, nothing used |
| MemoryPool.MemoryPool.Alloc | main/memory_pool.c:51-100 | the in-place alloc makes of list, used_size and peak_use what the block-list function says, returns that block's payload address or NULL, and writes no byte of a live payload |
| MemoryPool.MemoryPool.BestFitSearch | main/memory_pool.c:59-74 | the search loop with its early exit finds the same block as the specification, and its slack |
| MemoryPool.MemoryPool.Take | main/memory_pool.c:81-92 | the chosen block is cut, or granted whole, as in the function `GrantExact` speaks of; the remainder is linked behind it and no other header or live payload changes |
| MemoryPool.MemoryPool.Store | main/publisher.c:42 | bytes written into a granted payload reach no header and no other live payload |
| MemoryPool.MemoryPool.Free | main/memory_pool.c:102-123 | the in-place free of a live payload, or of NULL, makes of the state what the block-list function says and writes no byte of another live payload |
| MemoryPool.MemoryPool.Sweep | main/memory_pool.c:111-120 | the loop that merges and re-examines the same block leaves the coalesced list, linked in memory, payloads untouched |
| PubSubLocks.MutualExclusion | main/topic_manager.c:28-42 | two tasks are never inside sections guarded by the same mutex |
| PubSubLocks.StepKeepsLocks | main/publisher.c:13-67 | every step of every task keeps the owner table in agreement with the program points and indices in range |
| PubSubLocks.LocksAreOrdered | main/message_handler.c:124-154 | a task waiting for a mutex holds only mutexes of lower rank: handler lock, topics_lock, topic lock, pool mutex |
| PubSubLocks.SomeoneCanStep | main/memory_pool.c:54-98 | following owners from a waiting task ends at a task that can step |
| PubSubLocks.DeadlockFree | main/subscriber_manager.c:13-64 | in every reachable state in which some task waits for a mutex, some task can step |
| PubSubOwnership.StepKeepsOwners | main/publisher.c:36-65 | every step keeps: each live block is referred to by exactly one subscriber node, queued or in-flight message, pending entry or call under way, and nothing else is referred to |
| PubSubOwnership.ExactlyOneOwner | main/message_handler.c:75-111 | in every interleaving a block has one owner if it is live and none otherwise: no leak on any error path, no sharing, no stale pointer |
| PubSubOwnership.FreesAreOfLiveBlocks | main/topic_manager.c:38-40 | every memory_pool_free reached in any interleaving is about a block that is live at that moment |
| PubSubOwnership.ListedNodesAreLive | main/subscriber_manager.c:50-61 | the node of every listed subscriber is a live block in every reachable state |
| PubSubQueues.StepKeepsQueues | main/publisher.c:51-57 | every step keeps queue order, bound and conservation for every topic |
| PubSubQueues.MessagesAreConserved | main/publisher.c:51-57 | in every run a queue holds criticals newest first and then non-criticals oldest first, at most 100; accepted messages are the dequeued and the queued ones as multisets; non-criticals leave in the order they were accepted |
| PubSubQueues.FrontIsDequeued | main/topic_manager.c:28 | in every run the one step that takes a message off a queue is topic_task's receive, and it takes the first: no non-critical leaves while a critical waits, of the waiting criticals the newest leaves, of non-criticals alone the oldest; every other step leaves the queue or adds one message, at the front if critical and at the end if not |
| PubSubRounds.DeliverAlone | main/topic_manager.c:27-45 | when its locks are free and nobody interrupts, topic_task's pass is a legal run: the first message leaves the queue, every subscriber is called once with its bytes, its block is freed, and topic_task waits for the next message |
| PubSubDelivery.StepKeepsDelivery | main/topic_manager.c:28-42 | every step keeps payloads equal to the bytes given at publish and deliveries in step with the subscriber list |
| PubSubDelivery.EveryListenerOnce | main/topic_manager.c:31-35 | each finished delivery called every subscriber listed when the lock was taken exactly once, in list order, with the bytes given at publish |
| PubSubDelivery.VisitedNodesStayLive | main/topic_manager.c:28-42 | while a task delivers, the list is the one found when it took the lock and each of its nodes is live: none is freed under it |
| PubSubSubscribers.StepKeepsSubs | main/subscriber_manager.c:31-61 | every step keeps the subscriber lists and counts in order |
| PubSubSubscribers.SubscriberLists | main/subscriber_manager.c:29-61 | in every run no callback is subscribed to a topic twice, a topic has at most 20 subscribers, and subscriber_count is their number whenever nobody holds the topic lock |
| PubSubRetry.StepKeepsRetry | main/message_handler.c:32-51 | every step keeps the ids and attempt counts of the pending entries |
| PubSubRetry.AttemptsAreBounded | main/message_handler.c:32-51 | however often the auto-reload timers fire, a QoS message is published at most once plus the retry_count captured at its creation |
| PubSubRetryCalls.FiringsAreBounded | main/message_handler.c:32-51 | in every run the actions in which one entry's timer goes on to pubsub_publish are at most retry_count |
| PubSubRetryCalls.FiringPublishesIff | main/message_handler.c:35-50 | in every run a firing goes on to pubsub_publish if and only if fewer than retry_count firings of that timer have done so before |
| PubSubTurns.WholeFiring | main/message_handler.c:32-51 | when no mutex is held and nobody interrupts, a firing is a legal run: below max_retries the entry is published and retry_count grows by one whatever comes of it, otherwise nothing happens |
| PubSubRetry.IdsDecrease | main/message_handler.c:126-145 | until next_msg_id wraps, ids strictly decrease from the list head and stay below next_msg_id |
| PubSubRetry.RetriesRepeat | main/message_handler.c:42-43 | the bytes a retry reads from the pool are still those recorded when its entry was made, and so are topic and priority |
| PubSubRetryCalls.RetriesAreTheCallers | main/message_handler.c:75-92 | from the call that left an entry to any later firing of its timer: the retry offers pubsub_publish the caller's bytes and priority, and the caller's topic name if and only if it is shorter than 64 bytes, otherwise its first 63 |
| PubSubStrayRetry.StrayRetry | main/message_handler.c:87-88 | a QoS message to a longer name returns TOPIC_NOT_FOUND, and its first retry is accepted by the topic named by the first 63 bytes, action by action |
| PubSubStrayRetry.StrayRetryReached | main/message_handler.c:42-43 | a legal run from the start in which that happens |
| PubSubRollback.NoTrace | main/publisher.c:59-65 | two reachable states with the same lists, queues and deliveries, the same blocks in their pending entries and no block in a client's hands have the same block list and used_size, whatever interleaving lies between, timers that fired included |
| PubSubRollback.PoolCallRuns | main/memory_pool.c:51-123 | with the pool mutex free a client gets through a pool call in two steps, to the state the rollback results speak of |
| PubSubRollback.RefusedPublish | main/publisher.c:36-65 | a publish that finds the queue full ends with QUEUE_FULL and the pool, topics and handler as they were |
| PubSubRollback.FailedPendingData | main/message_handler.c:80-84 | create_pending_message without memory for the data leaves the pool as it was |
| PubSubRollback.FailedPendingTimer | main/message_handler.c:105-109 | create_pending_message without a timer leaves the pool as it was |
| PubSubRollback.SubscribeThenUnsubscribe | main/subscriber_manager.c:5-119 | the legal run of a client that subscribes and then unsubscribes a callback, from the first Begin to the second return: Okay twice, and lists, counts, locks and pool as they were |
| PubSubOutcomes.LookupFindsTheTopic | main/topic_manager.c:68-82 | in every run at most 50 topics with distinct names shorter than 64 bytes, so the lookup loop finds the topic of a name |
| PubSubOutcomes.SubscribeOutcome | main/subscriber_manager.c:31-47 | refused as a duplicate if and only if the callback is listed, and for the limit if and only if it is not and 20 subscribers really are |
| PubSubOutcomes.UnsubscribeOutcome | main/subscriber_manager.c:93-118 | refused if and only if the callback is not listed; otherwise it is gone afterwards and every other callback stays |
| PubSubOutcomes.NoMemoryOutcome | main/message_handler.c:75-84 | each of the four allocations fails, and its caller goes on to report NO_MEMORY, if and only if the pool has no contiguous room for the block; then nothing has changed |
| PubSubTurns.WholeCall | main/publisher.c:8-70 | when no mutex is held and nobody interrupts, any create, publish, subscribe, unsubscribe or QoS publish of any task is a legal run from its Begin to its return, with the code and the state of one sequential operation that names every check, constant and field |
| PubSubTurns.PublishCodes | main/publisher.c:24-67 | in that operation TOPIC_NOT_FOUND if and only if no topic has the name; NO_MEMORY if and only if there is a topic, a payload, and no contiguous room; QUEUE_FULL if and only if neither and 100 messages wait; otherwise Okay; a refusal leaves topics, handler, block list and used_size |
| PubSubTurns.PublishedMessage | main/publisher.c:29-57 | an accepted message is first in its queue if critical and last otherwise, under the name cut to 63 characters, with the caller's bytes in a block of its own, its length, priority and the time of the send; no other topic changes |
| PubSubTurns.FirstPublish | main/main.c:86-92 | the run of the application's first publish, from the start: created, published, both Okay, the message queued and 20 bytes of the pool used |
| PubSubVerdicts.StepKeepsVerdict | main/subscriber_manager.c:24-47 | every step of every task keeps a call's program point in agreement with what its steps have decided |
| PubSubVerdicts.CodeIsVerdict | main/publisher.c:8-70 | in every interleaving a call with bad arguments returns INVALID_PARAM and decides nothing; of any other call exactly one step decides, by the state it finds: lookup, list, limit, pool, queue below 100 or not, timer; and the call returns that code |
| PubSubCalls.StepKeepsCall | main/publisher.c:13-69 | every step of every task keeps a call's program point in agreement with the changes the call has made to the tables so far |
| PubSubCalls.CallOutcome | main/publisher.c:8-70 | in every interleaving, from the Begin of a create, publish, subscribe, unsubscribe or QoS publish to the client's return: the code is Okay if and only if that call's steps created the topic, appended one message with the caller's bytes to the topic of that name, or linked or unlinked the callback, exactly once; otherwise they did nothing, except for the entry that retries a QoS message. Which code is returned is `CodeIsVerdict` |
| PubSubCalls.LongNameRefused | main/publisher.c:15-27 | in every run a publish to a name of 64 bytes or more returns a code other than Okay |
| SubscriberList.List.Contains | main/subscriber_manager.c:32-40 | the duplicate loop finds the callback if and only if it is in the list |
| SubscriberList.List.Link | main/subscriber_manager.c:57-61 | the new node becomes the head, the rest of the list stays, the count grows by one |
| SubscriberList.List.Locate | main/subscriber_manager.c:93-114 | the loop with its trailing pointer stops at the first node with the callback and the node before it |
| SubscriberList.List.Unlink | main/subscriber_manager.c:93-111 | relinking removes exactly the first node with the callback, keeps the order of the rest and lowers the count |
| SubscriberList.List.Deliver | main/topic_manager.c:31-35 | the delivery loop makes one call per node, in order, with the payload |
| SubscriberList.FindTopic | main/publisher.c:16-22 | the lookup loop returns the first topic with the name |
| MqttWire.EncodeShortest | main/mqtt/mqtt_encoder.c:6-18 | below 128^4 the encoder writes a well-formed base-128 string of the value, and no shorter one exists |
| MqttWire.DecodeReads | main/mqtt/mqtt_decoder.c:6-24 | well-formed digits at the front of a buffer are read as their value if there are at most three, and refused otherwise |
| MqttWire.DecodeAccepts | main/mqtt/mqtt_decoder.c:6-24 | the decoder accepts if and only if one of the first three bytes ends the number; the value is below 128^3, so no 32-bit overflow |
| MqttWire.LengthRoundTrip | main/mqtt/mqtt_decoder.c:14-20 | decoding an encoded length under any suffix gives it back with its byte count if and only if it is below 128^3; above, it is refused |
| MqttWire.FourByteLengthRefused | main/mqtt/mqtt_decoder.c:18-19 | 2,097,152 is encoded as section 2.2.3 of MQTT 3.1.1 asks and refused |
| MqttWire.LengthAnnounces | main/mqtt/mqtt_encoder.c:6-18 | the digits written for n stand for a size if and only if n is that size and below 128^4; from there on they never end |
| MqttWire.PacketRead | main/mqtt/mqtt_encoder.c:6-18 | a receiver that reads lengths as section 2.2.3 says cuts off exactly the body when it was announced right, and fails from 128^4 on |
| MqttWire.StringRoundTrip | main/mqtt/mqtt_encoder.c:21-27 | an encoded string is read back under any suffix if and only if its length fits 16 bits and the room; one too long for the room is refused |
| MqttWire.LengthBytes | main/mqtt/mqtt_encoder.c:8-15 | the one to four digits of a length, byte by byte, lowest first |
| MqttWire.U16Bytes | main/mqtt/mqtt_encoder.c:23-24 | the high byte goes first |
| MqttWire.StringBytes | main/mqtt/mqtt_encoder.c:21-27 | a string of 16-bit length goes out behind its length, high byte first |
| MqttPublish.PublishRoundTrip | main/mqtt/mqtt_encoder.c:113-155 | topic, payload, QoS, DUP and RETAIN come back, with the offset behind the packet, whatever follows it |
| MqttPublish.PublishRefused | main/mqtt/mqtt_decoder.c:84-88 | a topic of 256 bytes or more, or a four-byte remaining length, is refused |
| MqttPublish.PublishRoundTripIff | main/mqtt/mqtt_decoder.c:74-118 | for every sendable message the round trip holds if and only if the topic is at most 255 bytes and the remaining length below 128^3 |
| MqttPublish.PublishBytes | main/mqtt/mqtt_encoder.c:121-152 | the bytes of the packet: 0x30 with DUP, QoS and RETAIN in their bits, the digits, the topic behind its length, the packet identifier high byte first for QoS above 0, the payload |
| MqttPublish.DecodeExact | main/mqtt/mqtt_decoder.c:74-118 | for any bytes at all: refused unless type 3, a length in three digits, a topic of at most 255 bytes and any packet identifier are there; otherwise the fields, the topic up to its first NUL, the remaining announced bytes as the payload and the offset behind them, or an overread if the announced bytes are not all there |
| MqttPublish.FirstNul | main/mqtt/mqtt_decoder.c:90 | the topic handed out is the part before the first NUL |
| MqttPublish.PublishLength | main/mqtt/mqtt_encoder.c:132-148 | the announced digits stand for the bytes written after them if and only if the topic fits 16 bits and the length is below 128^4 |
| MqttPublish.PastEndIff | main/mqtt/mqtt_decoder.c:74-118 | the decoder copies from behind the buffer if and only if kind, topic and packet identifier pass its checks and the announced packet is not all there |
| MqttPublish.PastEndReached | main/mqtt/mqtt_decoder.c:101-110 | four bytes for which it does |
| MqttPublish.SelfDelimitingIff | main/mqtt/mqtt_decoder.c:74-118 | a decoded packet is read the same whatever follows the bytes it announces if and only if its topic and packet identifier lie within them; no proper prefix of them is read as a packet |
| MqttPublish.BorrowedTopic | main/mqtt/mqtt_decoder.c:87-92 | a packet that announces nothing and takes its topic from behind itself |
| MqttPublish.StreamRoundTrip | main/mqtt/mqtt_decoder.c:74-118 | decoding again and again from the returned offset turns any concatenation of encoded messages back into the list |
| MqttConnect.ConnectLength | main/mqtt/mqtt_encoder.c:40-59 | for every combination of optional fields the announced digits stand for the bytes written after them if and only if no string exceeds 65,535 bytes |
| MqttConnect.ConnectFits | main/mqtt/mqtt_encoder.c:40-59 | with strings of 16-bit length the remaining length is below 128^4 |
| MqttConnect.LongClientId | main/mqtt/mqtt_encoder.c:44 | a client identifier of 65,536 bytes: 65,548 bytes announced, 12 written |
| MqttConnect.ConnectBytes | main/mqtt/mqtt_encoder.c:38-109 | the bytes of the packet: 0x10, the digits, 0, 4, "MQTT", 4, the flags, the keep-alive time high byte first, and the strings in their order |
| MqttConnect.FlagBits | main/mqtt/mqtt_encoder.c:71-88 | each bit of the connect flags, the reserved one 0 and will QoS and retain 0 without a will |
| MqttConnect.ConnectRoundTrip | main/mqtt/mqtt_encoder.c:30-110 | a reader that demands type 0x10 and protocol MQTT level 4, cuts the announced bytes off the buffer and is driven by the connect flags (sections 3.1.2 and 3.1.3 of MQTT 3.1.1) recovers options, will, credentials and what follows the packet if and only if no string exceeds 65,535 bytes |
| MqttTopics.SubscribeLength | main/mqtt/mqtt_encoder.c:169-186 | for topic lists of any length the digits written after the first loop stand for what the second writes if and only if every topic fits 16 bits and the sum is below 128^4 |
| MqttTopics.UnsubscribeLength | main/mqtt/mqtt_encoder.c:203-219 | the same for UNSUBSCRIBE |
| MqttTopics.TooManyTopics | main/mqtt/mqtt_encoder.c:15 | 4,097 topics of 65,535 bytes each fit 16 bits, and the digits for them never end |
| MqttTopics.FirstBytes | main/mqtt/mqtt_encoder.c:167-180 | a SUBSCRIBE starts with 0x82, an UNSUBSCRIBE with 0xA2; then the digits and the packet identifier, high byte first |
| MqttTopics.FilterBytes | main/mqtt/mqtt_encoder.c:183-186 | a topic goes out behind its length and its QoS behind it |
| MqttTopics.SubscribeRoundTrip | main/mqtt/mqtt_encoder.c:158-189 | a reader that demands type 0x82 and cuts the announced bytes off the buffer gets packet id, topics and QoS in order and what follows (section 3.8.3), if and only if every topic fits 16 bits and the length is below 128^4 |
| MqttTopics.UnsubscribeRoundTrip | main/mqtt/mqtt_encoder.c:192-222 | the same for type 0xA2, packet id and topics of UNSUBSCRIBE (section 3.10.3) |
| MqttBuffers.PutLength | main/mqtt/mqtt_encoder.c:6-18 | the do-while loop writes the base-128 string behind what is already in the buffer and nothing else |
| MqttBuffers.PutString | main/mqtt/mqtt_encoder.c:21-27 | the narrowed length and that many bytes are written and nothing else |
| MqttBuffers.PutPublish | main/mqtt/mqtt_encoder.c:113-155 | for every buffer: -1 below two bytes; if the packet fits, the buffer starts with the encoding the theorems speak of, the rest is untouched and the result is its length; exactly otherwise the source would write behind the buffer |
| MqttBuffers.PutConnect | main/mqtt/mqtt_encoder.c:30-110 | the same for CONNECT, with the length precomputed by a separate pass over the options |
| MqttBuffers.PutSubscribe | main/mqtt/mqtt_encoder.c:158-189 | the same for SUBSCRIBE, both loops |
| MqttBuffers.PutUnsubscribe | main/mqtt/mqtt_encoder.c:192-222 | the same for UNSUBSCRIBE, both loops |
| MqttBuffers.ConnectRemaining | main/mqtt/mqtt_encoder.c:40-56 | the running sum is the total of the strings that will be written plus 10 |
| MqttBuffers.GetLength | main/mqtt/mqtt_decoder.c:6-24 | the decoding loop agrees with the specification on every stretch of a buffer |
| MqttBuffers.GetString | main/mqtt/mqtt_decoder.c:27-37 | likewise for strings |
| MqttBuffers.GetPublish | main/mqtt/mqtt_decoder.c:74-118 | likewise for PUBLISH on every stretch of bytes, whole packet or not |
| WsFrame.FrameRoundTrip | main/websocket/ws_frame.c:58-135 | through all three length forms, unmasked or masked with any 4-byte key, a frame decodes to its message whatever follows it (sections 5.2 and 5.3 of RFC 6455) |
| WsFrame.EncodeRoundTrip | main/websocket/ws_frame.c:8-55 | for every message and buffer: the frame the encoder reports, with anything behind it, decodes to the message if and only if the payload pointer is NULL exactly for length 0 and the opcode has four bits; the encoder refuses only for want of room, and overruns only when its size check wraps |
| WsFrame.StalePayload | main/websocket/ws_frame.c:48-54 | a NULL payload announced with n bytes is reported as a frame whose payload is what the buffer held before |
| WsFrame.StalePayloadReached | main/websocket/ws_frame.c:48-54 | five bytes announced into seven: the last five go out as they were |
| WsFrame.EncodeWrapsIff | main/websocket/ws_frame.c:26-29 | the encoder's size check does its work if and only if header and payload length sum to less than 2^64 or the buffer is below even the wrapped sum |
| WsFrame.EncodeWrapReached | main/websocket/ws_frame.c:26-29 | a NULL payload announced with 2^64 - 5 bytes is accepted into ten bytes as a frame of five |
| WsFrame.MaskTwice | main/websocket/ws_frame.c:125-129 | masking twice with one key restores the payload |
| WsFrame.MaskBits | main/websocket/ws_frame.c:127 | masking is exclusive or in every bit |
| WsFrame.HeadBytes | main/websocket/ws_frame.c:34-46 | final bit, opcode, length code and length bytes of a header, in each of the three length forms |
| WsFrame.DecodeExact | main/websocket/ws_frame.c:58-135 | for any bytes at all: INVALID_ARG if and only if fewer than two; INVALID_STATE if and only if one of the bits 4 to 6 of the first is set; otherwise INVALID_SIZE, NO_MEM, the wrapped check or a frame under conditions on the bytes, and the frame's fields and every payload byte |
| WsFrame.PastEndIff | main/websocket/ws_frame.c:105-108 | the size check lets a frame through that the buffer does not hold if and only if header and payload length sum to 2^64 or more |
| WsFrame.PastEndReached | main/websocket/ws_frame.c:105-108 | a ten-byte buffer for which it does |
| WsFrame.TopBitClear | main/websocket/ws_frame.c:88-94 | that never happens when the top bit of a 64-bit length is 0 |
| WsFrame.SelfDelimiting | main/websocket/ws_frame.c:58-135 | an accepted frame decodes the same with any continuation, and every shorter prefix is refused for its size |
| WsFrame.ReencodeShortest | main/websocket/ws_frame.c:14-54 | re-encoding what was decoded gives a frame no longer than it that decodes to the same message |
| WsFrame.ExtendedShortest | main/websocket/ws_frame.c:18-24 | no accepted header is shorter than the one the encoder chooses for the same length |
| WsBuffers.EncodeFrame | main/websocket/ws_frame.c:8-55 | the in-place encoder does to the buffer exactly what the specification says, the wrapped size check included, and writes nothing behind the frame |
| WsBuffers.WriteWide | main/websocket/ws_frame.c:43-46 | the loop over eight shifts writes the big-endian form |
| WsBuffers.ReadLength | main/websocket/ws_frame.c:84-95 | the loop that shifts bytes in reads the big-endian number |
| WsBuffers.Unmask | main/websocket/ws_frame.c:125-129 | the in-place loop applies the mask |
| WsBuffers.DecodeFrame | main/websocket/ws_frame.c:58-135 | the in-place decoder agrees on every buffer with the function `DecodeExact` speaks of |
| ShiftRegister.ByteStepInjective | main/protocol/device_protocol.c:33 | eight single-bit steps of division by 0x1021 are injective in the register |
| ShiftRegister.ByteStepMoves | main/protocol/device_protocol.c:33 | a byte added at the bottom of the register arrives at its top unchanged |
| Crc16.Calculate | main/protocol/device_protocol.c:29-37 | the loop computes the checksum function, for any table |
| Crc16.TableIsSerial | main/protocol/device_protocol.c:33 | with the full table one step equals eight steps of bit-serial division by 0x1021 |
| Crc16.CrcIsSerial | main/protocol/device_protocol.c:29-37 | with the full table the checksum of any data is its bit-serial remainder from 0xFFFF on |
| Crc16.CrcInjective | main/protocol/device_protocol.c:32-34 | when the low bytes of the table's entries are distinct, two registers that agree after the same data were equal before it |
| Crc16.BurstDetected | main/protocol/device_protocol.c:29-37 | for such a table any change confined to two adjacent bytes changes the checksum |
| Crc16.TellsBurstsIff | main/protocol/device_protocol.c:29-37 | a table changes the checksum for every change of at most two adjacent bytes, anywhere in any message, if and only if the low bytes of its 256 entries are pairwise distinct |
| Crc16.FullTableLowDistinct | main/protocol/device_protocol.c:12-16 | the full table of polynomial 0x1021 is such a table |
| Crc16.WrittenEntries | main/protocol/device_protocol.c:12-16 | the sixteen entries written out are those of polynomial 0x1021, the other 240 are 0 |
| Crc16.TellsBytesIff | main/protocol/device_protocol.c:33 | a table tells any two one-byte payloads apart if and only if its 256 entries are distinct |
| Crc16.WrittenTableMisses | main/protocol/device_protocol.c:12-16 | the table as written is not, and neither are its entries distinct: payloads 0 and 1 have the same checksum |
| Crc16.DistinctIsNotEnough | main/protocol/device_protocol.c:33 | a table that tells any two single bytes apart and still misses a change of two |
| Crc16.FullTableDistinct | main/protocol/device_protocol.c:12-16 | the full table has distinct entries |
| DeviceProtocol.PackedFits | main/protocol/device_protocol.c:72-125 | for any table, unpack after pack returns type, sequence, timestamp and payload, whatever follows |
| DeviceProtocol.PackRoundTrip | main/protocol/device_protocol.c:39-125 | for any table the payload comes back if and only if it is at most 65,535 bytes |
| DeviceProtocol.PackedBytes | main/protocol/device_protocol.c:51-66 | the bytes of a packet: version 1, type, the low 16 bits of the length, sequence and timestamp lowest byte first, the checksum over the header and, if there is a payload, over that, then the payload |
| DeviceProtocol.PackAnswers | main/protocol/device_protocol.c:42-54 | a call without a pointer it needs is refused first, one without room second, and neither draws a number; any other makes the packet with the next |
| DeviceProtocol.UnpackExact | main/protocol/device_protocol.c:75-124 | for any bytes and any table: which of the five errors is returned, in the order of the checks, or the header and payload |
| DeviceProtocol.LongPayloadLost | main/protocol/device_protocol.c:53 | a payload of 65,536 bytes is packed with length 0 and never comes back |
| DeviceProtocol.CorruptionDetected | main/protocol/device_protocol.c:101-113 | with distinct low bytes in the table any change of a packed message within the type byte, two adjacent bytes of sequence and timestamp, the checksum, or two adjacent payload bytes is rejected by the checksum |
| DeviceProtocol.DetectionIff | main/protocol/device_protocol.c:61-66 | all those changes of all packed messages are rejected if and only if the low bytes of the table's entries are distinct |
| DeviceProtocol.FullTableDetects | main/protocol/device_protocol.c:12-16 | so they are with the full table, and not with the table as written |
| DeviceProtocol.FailuresConsumeNone | main/protocol/device_protocol.c:42-54 | dropping the failing calls from any run of pack calls changes no packet |
| DeviceProtocol.NumberOf | main/protocol/device_protocol.c:54 | the k-th packet of a run is made for the k-th call that fits, with the k-th number after the counter modulo 2^32 |
| DeviceProtocol.RunRoundTrip | main/protocol/device_protocol.c:18-27 | from protocol_init on, unpacking the k-th packet gives the message of the k-th call that fits and sequence k mod 2^32 |
| ProtocolEndpoint.Endpoint.Init | main/protocol/device_protocol.c:18-27 | a NULL argument changes nothing, otherwise the counter restarts at 0 |
| ProtocolEndpoint.Endpoint.PackMessage | main/protocol/device_protocol.c:39-70 | result, counter and buffer are those of the specification; on failure counter and buffer are unchanged, on success the bytes behind the packet are |
| ProtocolEndpoint.Endpoint.UnpackMessage | main/protocol/device_protocol.c:72-125 | result and payload buffer are those of the specification; the header is copied out as soon as the arguments are valid and the buffer holds one, refused or not; a refused message leaves the payload buffer unchanged |

## Left out

- PubSub: `topic_manager.c`, `publisher.c` and `message_handler.c` are modelled as one state machine over values, because
  the claims are about interleavings; update in place and aliasing appear in `MemoryPool` and `SubscriberList` only. The
  pool mutex is held for one step per call, so the writes inside one pool call are not interleaved with anything.
- PubSub: callbacks do not call back into the publish/subscribe API; with such calls the lock order does not hold.
- PubSub: NULL names, callbacks and buffers, answered before any shared state is touched, and the text in
  `main/topic_manager.c` lines 118-126, which is not code.
- PubSub: the clock, and whether FreeRTOS grants a queue, mutex, task or timer, are inputs of a step; a timer whose start
  fails is one that does not fire. Scheduling is arbitrary, so no step is promised to happen.
- PubSub: a publisher's buffer is at most SIZE_MAX - 7 bytes, the condition of `RoundUpCovers`.
- PubSub: pending entries are never released, as in the source: `message_acknowledge` is not part of this model.
- MemoryPool: stores of callers outside their own payload; `memory_pool_stats`; the failure paths of
  `memory_pool_init`. Freeing anything but a live payload or NULL is the caller's error.
- IdsDecrease: stated until the 32-bit `next_msg_id` wraps, after which ids restart at 0.
- SubscriberList.List.Unlink: which pool block is handed back is stated here; its release is in `PubSub`.
- MqttBuffers.PutPublish: where the packet does not fit the buffer the source writes on behind it; the model stops there
  with an outcome of its own and the buffer unchanged. The same holds for the other encoders.
- MqttBuffers.GetPublish: where the source copies from behind the buffer the model stops likewise; the packet identifier
  that is read and discarded is not part of the result, and a failing `strdup` is not modelled.
- MQTT: CONNACK, SUBACK and the packets without payload add only field reads.
- WsBuffers.DecodeFrame: where the wrapped size check lets a short buffer through the source copies on; the model stops
  there with an outcome of its own. The same holds for `WsBuffers.EncodeFrame`.
- DeviceProtocol.CorruptionDetected: a change that touches the length field or spans header, checksum and payload at once
  is not claimed to be detected; the device information kept by `protocol_init` is not modelled, and neither is the
  wrap of header plus payload size, which needs a payload within 14 bytes of SIZE_MAX.
- Network, TLS, WebSocket handshake and client loops, error log, and the pattern-matching topic manager: calls into
  libraries, or functions whose bodies are not in the repository.
- Declared functions without a body (`message_acknowledge`, `protocol_verify_checksum`, `pubsub_delete_topic`,
  compression, heartbeat, reconnection) are not part of this model.
