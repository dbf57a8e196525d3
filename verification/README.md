# Verified models of Water's queues, message delivery and bridges

Water is an in-process message bus. Threads hold `Endpoint`s on a `Net`; `Net::send` offers a message to every
endpoint of the net, and each endpoint decides whether the message is for it, checks its limits, queues the message
and wakes a receiver. This project models five parts of it and proves what they promise.

The concurrent parts are transition systems. A state holds the shared memory and one program counter per thread; a
step is one atomic operation or one lock region of the source, made by any thread at any moment; a `Run` is any
finite interleaving of any number of threads. Theorems about runs hold of every state of every run. The sequential
parts are classes and methods with loops, proved against functions on sequences and maps.

| part | files |
|---|---|
| `InfiniteLinkQueue` and `PointerCache`, one atomic operation at a time | `LinkQueue*.dfy`, `AtomicQueue.dfy` |
| the same queue used by one thread, with pointers into a memory that can be allocated and freed | `RingArithmetic.dfy`, `QueueMemory.dfy`, `SequentialQueue.dfy` |
| `NativeQueue` of the queue benchmark | `NativeQueue*.dfy` |
| send, give, sleep, wake and receive | `Routing.dfy`, `Delivery*.dfy`, `Tallies.dfy`, `RawMessage.dfy` |
| handles of endpoints and the list of a net | `Lifetime.dfy`, `LifetimeProof.dfy`, `NetRegistry.dfy` |
| the TCP bridge | `BridgeCodec.dfy`, `BridgeRouting.dfy` |
| the scatter/gather pipeline of the engine test | `ScatterGather.dfy` |

## How to read the machines

Each machine has a module with nothing but the state and the steps (`LinkQueueModel`, `NativeQueue`, `Delivery`,
`Lifetime`), in which every constructor of `Pc` names one operation of the source. An operation that dereferences
memory that is not allocated, or whose assertion or index fails, has no step; the `NeverStuck` theorems show that this
never stops a thread. Fields that no step tests are history variables, and each state type says which they are. Two
fields stand for what users can do: the `owner` of a buffer and the `users` of an endpoint are their handles, and only a
holder can use one.

`LinkQueueModel` has two modes. In `Recycling(c)` any thread puts, only thread `c` gets, and drained nodes are
recycled through the pointer cache, so that addresses come back. In `NoReuse` every thread may put and get and
`taildealloc` is switched off. Freed addresses may be allocated again in both machines of queues.

`AtomicQueue` is the specification of both concurrent queues: a sequence on which a put and a get take effect at one
instant between call and return. An item gets its position at the swap of its put and can be taken from the link on. At
the instant of its answer a get takes the oldest item if there is one and it is linked, and otherwise returns nothing
(`AtomicQueue.AnswerIff`). So a queue with items answers nothing exactly while the put of its oldest item is between its
swap and its link (`LinkQueueRefinement.NoneIff`, `NativeQueueProof.PopTells`), and this does happen:
`LinkQueueWitness.MissedItem` is a run in which a get finds nothing although a put that has returned left an item that
nobody took.

What the code does and its comments do not say, found on the way:

- The pending and memory limits are checked before the message is put, without a lock. With limit N and T senders up
  to N + T - 1 messages can be queued, and for every N and T there is a run that gets there, so the limit is kept in
  every run exactly if T is at most one (`DeliveryWitnesses.PendingKeptIff`). With limit L and messages of at most C
  bytes it is L - 1 + T * C bytes, attained as well (`DeliveryWitnesses.MemoryKeptIff`).
- A sender can be turned away by the memory limit although the queue is empty, in exactly two ways: a non-blocking
  receive has subtracted a message that is not yet added, and `memoryused` has wrapped below zero; or a message has
  been taken and is not yet subtracted. `DeliveryRefusals.RefusalIff` says when a sender is turned away,
  `DeliveryRefusals.BlockingRefusalIff` that the first way needs a non-blocking receive, and
  `DeliveryWitnesses.TurnedAwayBelow` and `TurnedAwayOver` are runs of the two ways, for every limit.
- A `get` recycles nodes only if it starts at a drained `lst`, and a `get` that starts at an unclaimed one moves `lst` on
  behind it. So a queue that never runs empty between gets keeps every node it ever had: `GetSpares` in
  `LinkQueueRecycling` says that such a `get` recycles nothing, `GetRecycles` that after one that finds `lst` drained
  everything older is gone.
- The boolean of `wait_timeout` is taken as it is used at src/endpoint.rs:591: false means that the wait timed out.
- A duplicate of a raw message always has `len` equal to `cap` (src/rawmessage.rs:76), so the content of a message
  is stated over all `cap` bytes.
- The comment at src/queue.rs:331 says "after"; `taildealloc` frees what is older than the node, along `next`.
- A frame with an empty body arrives as a raw message of length one (src/rawmessage.rs:56-58), so the round trip of
  the bridge holds exactly if no body is empty (`BridgeCodec.RoundTrip`). A message that a net has delivered has no
  empty body: it is a duplicate, and its capacity is at least one.

## Model

| member | source | states |
|---|---|---|
| LinkQueueSafety.RunKeeps | src/queue.rs:269-432 | The invariant of the queue holds in every state of every run, in both modes: `ptr`, `lst` and the links of every published node, what each thread in `put`, `get` and `taildealloc` may rely on, and where each node is. |
| LinkQueueTheorems.Ownership | src/queue.rs:269-306 | An address is allocated if and only if it is in one producer's or the consumer's hand, at one published position, or in one cache slot, and it is never at two of these places, also when addresses are recycled. |
| LinkQueueTheorems.MemorySafety | src/queue.rs:294-302 | No operation dereferences a freed, cached or foreign node, and the pending `(*oldhead).prev.store` always goes to a node that is in the chain to stay. |
| LinkQueueTheorems.NeverStuck | src/queue.rs:365-432 | Every thread in every reachable state has a next step, so the guards of the machine hide no failure. |
| LinkQueueTheorems.QuietConservation | src/queue.rs:346-363 | When all operations have finished, the allocated nodes are exactly those of the chain and those in the cache slots, each once and never in both. |
| LinkQueueTheorems.QuietChain | src/queue.rs:292-302 | At rest the chain is doubly linked from end to end in swap order, each node holds what was put, and exactly the taken ones are claimed. |
| LinkQueueRefinement.Linearizable | src/queue.rs:365-432 | Every run of any producers and consumers looks to its callers like the atomic queue: `put` takes effect at `ptr.swap`, its item can be taken from its link on, and `get` takes effect at its claim or at the load that makes it return nothing. |
| LinkQueueRefinement.NoneIff | src/queue.rs:370-427 | A `get` returns nothing if and only if, at a load of `lst` or `prev`, it has passed all claimed items and there is none left or the put of the oldest one left is not linked; the queue is then empty if and only if no such put is at work. |
| LinkQueueRefinement.MissBlames | src/queue.rs:294-302 | If a `get` returns nothing from a queue with items, some thread is between the swap and the link of the oldest of them. |
| AtomicQueue.AnswerIff | src/queue.rs:401-430 | The answer of a get on the atomic queue is the oldest item if it is linked, and nothing if and only if there is no such item. |
| LinkQueueRefinement.ClaimsArePrefix | src/queue.rs:401-426 | The claimed nodes are a prefix of the swap order, everything older than `lst` is claimed, and without reuse no position ever leaves the chain. |
| LinkQueueRefinement.LstForward | src/queue.rs:387-414 | `lst` only moves forward through the swap order and never beyond the first unclaimed node, whatever the compare-and-swaps of concurrent gets do. |
| AtomicQueue.OldestFirst | src/queue.rs:401-426 | In every history of the atomic queue, items leave oldest first and no item leaves twice. |
| LinkQueueLength.RunLen | src/queue.rs:304-310 | In every state `len` is, modulo the word size, the number of swapped and unclaimed items less what threads have yet to count. |
| LinkQueueLength.QuietLength | src/queue.rs:308-310 | At rest `len` is the number of queued items modulo 2^64. |
| LinkQueueTeardown.QuietDroppable | src/queue.rs:248-253 | After any concurrent run has come to rest, in either mode, the queue meets what `Drop` needs to free every node once. |
| LinkQueueRecycling.GetRecycles | src/queue.rs:376-385 | A `get` of the single consumer that finds its `lst` drained recycles everything older: when it returns, the chain starts at the position of that node. |
| LinkQueueRecycling.GetSpares | src/queue.rs:376-385 | A `get` that finds an item at its `lst` recycles nothing, so a queue that is never emptied keeps all its nodes. |
| LinkQueueRecycling.GetAdvances | src/queue.rs:387-414 | A `get` that starts where `lst` has a newer node behind it has moved `lst` on when it returns, whether it took the item there or found it taken. |
| LinkQueueRecycling.RunGuard | src/queue.rs:380-383 | The guard is taken in exactly the states in which the consumer is in `taildealloc`, so it never keeps a drained chain from being recycled. |
| LinkQueueRecycling.QuietMarks | src/queue.rs:418 | When all operations have finished, every claimed node has the mark that lets the next `get` recycle what is older. |
| LinkQueueRecycling.PutReuses | src/queue.rs:271-290 | A `put` that finds a node in its slot takes it out and uses it, and allocates a new one if and only if the slot is empty. |
| LinkQueueRecycling.LastIn | src/queue.rs:64-89 | The cache is last in, first out: if nobody moves the cursor in between, a `put` looks into the slot that was filled last. |
| LinkQueueWitness.MissedItem | src/queue.rs:294-302 | A run in which `get` returns nothing although a finished `put` left an item: another `put` is between its swap and its link. |
| RingArithmetic.SlotWraps | src/queue.rs:64-65 | Wrapping the cursor around at 2^64 does not change the slot it stands for, if the number of slots divides 2^64. |
| RingArithmetic.SlotVisited | src/queue.rs:28-38 | As many consecutive cursor positions as there are slots visit every slot, from any start, and each slot only once. |
| QueueMemory.PointerCache.constructor | src/queue.rs:41-54 | A power of two of empty slots. |
| QueueMemory.PointerCache.Pop | src/queue.rs:64-76 | Takes what the slot before the cursor holds, also when the cursor wraps below zero; the node leaves the ring. |
| QueueMemory.PointerCache.Push | src/queue.rs:78-89 | Puts the node into the slot at the cursor and frees what was there, and nothing else. |
| QueueMemory.PointerCache.Drop | src/queue.rs:28-38 | From any cursor position the null pushes free every stored node, each once, and no other. |
| SequentialQueue.InfiniteLinkQueue.constructor | src/queue.rs:256-267 | An empty queue with an empty cache of 1024 slots. |
| SequentialQueue.InfiniteLinkQueue.NewItem | src/queue.rs:271-290 | The node for a new item, recycled or allocated, is clean and was not in the chain. |
| SequentialQueue.InfiniteLinkQueue.Put | src/queue.rs:269-306 | Appends the item to the contents, through recycled or new nodes, and counts it. |
| SequentialQueue.InfiniteLinkQueue.TailDealloc | src/queue.rs:332-344 | Exactly the nodes older than `after` leave the chain for the cache; the contents stay the same. |
| SequentialQueue.InfiniteLinkQueue.Get | src/queue.rs:365-432 | Returns the oldest item and removes it, or nothing exactly if the queue is empty. |
| SequentialQueue.InfiniteLinkQueue.DeallocAll | src/queue.rs:346-363 | The whole chain goes into the cache: afterwards the allocated nodes are exactly those in the slots. |
| SequentialQueue.InfiniteLinkQueue.Drop | src/queue.rs:248-253 | Frees every node that is still allocated, each once: nothing is freed that is not allocated, and nothing is left. |
| SequentialQueue.Use | src/queue.rs:269-432 | Under every mix of puts and gets the queue answers like a plain sequence, and `len` is its length modulo 2^64. |
| SequentialQueue.UseAndDrop | src/queue.rs:248-432 | From any mix of puts and gets to the drop: the answers are those of a sequence, and no node is left allocated. |
| NativeQueueProof.Safe | benches/queuefight.rs:180-214 | What a thread dereferences is allocated, both asserts of `pop` hold, and a pusher's pending store goes to an unlinked node that the popper has not freed. |
| NativeQueueProof.NeverStuck | benches/queuefight.rs:180-214 | Every thread in every reachable state has a next step, so the guards of the machine hide no failure. |
| NativeQueueProof.Conservation | benches/queuefight.rs:180-214 | Every allocated node is in one pusher's hand or at one unpopped position, and nowhere else: no two pushers and no two positions share a node. |
| NativeQueueProof.Linearizable | benches/queuefight.rs:180-214 | Every run looks to its callers like the atomic queue: pops return the values in `head.swap` order, each once, answer without a value only if the queue is empty or the push of its oldest value is not linked, and `tail` is the node popped last. |
| NativeQueueProof.PopTells | benches/queuefight.rs:199-212 | A pop takes a value if and only if there is a next one and it is linked; otherwise all values are popped if and only if no push of the next one is between its swap and its link. |
| NativeQueueProof.HeadMeetsTail | benches/queuefight.rs:212 | The test that decides between `Empty` and `Inconsistent` succeeds exactly when every value swapped in has been popped. |
| NativeQueueProof.VerdictIff | benches/queuefight.rs:212 | In every run, a pop that has found no next node answers `Empty` if and only if every value swapped in has been popped, and `Inconsistent` if and only if there is one that has not. |
| NativeQueueProof.DataIs | benches/queuefight.rs:203-210 | In every run, a pop that has found a next node answers with the oldest value that has not been popped, and that value is then popped. |
| NativeQueueWitness.InconsistentPop | benches/queuefight.rs:188-214 | A run in which a pop answers `Inconsistent`: a push has swapped its value in and not yet linked it. |
| NativeQueueProof.QuietPopIsEmpty | benches/queuefight.rs:198-214 | If no push is in flight during a pop that finds no next node, the pop answers `Empty`, never `Inconsistent`. |
| NativeQueueProof.RestIsChain | benches/queuefight.rs:217-229 | After any run has come to rest, the allocated nodes are the unpopped ones, linked from `tail` in order. |
| NativeQueueProof.Drop | benches/queuefight.rs:217-229 | Frees every node that is left, each once. |
| DeliveryLimits.NoLostWakeup | src/endpoint.rs:404-414 | While a thread sleeps at an endpoint, the queue is no longer than the number of senders between put and notify plus the woken threads that have yet to look. |
| DeliveryLimits.SleepersSeeNothing | src/endpoint.rs:533-595 | If a thread sleeps and nobody is on the way to notify or to look, the queue is empty, also with timeouts, spurious wake-ups and non-blocking receives. |
| DeliveryCalls.SleepsOnEmpty | src/endpoint.rs:533-595 | A receive that is about to sleep has just found its queue empty, and the queue is empty still. |
| DeliveryCalls.ForeverEnds | src/endpoint.rs:533-551 | In every run, a call of `recvorblockforever` that has come back has returned one of the messages it removed; after that it only had to unlock. |
| DeliveryCalls.TimedEnds | src/endpoint.rs:571-595 | In every run, a call of `recvorblock` that has come back has returned a message or, if and only if it has not, its last look found the queue empty after one of its waits had expired. |
| DeliveryCalls.PollEnds | src/endpoint.rs:612-614 | In every run, a call of `recv` comes back empty-handed if and only if its last look found the queue empty, and otherwise its last step returned a message. |
| DeliveryCalls.LooksAgain | src/endpoint.rs:254-284 | A receive that throws away a copy of a sync message that another one has won looks into the same queue again. |
| DeliveryLimits.MutualExclusion | src/endpoint.rs:408-412 | At most one thread is between lock and unlock of an endpoint's mutex. |
| DeliveryLimits.PendingLimit | src/endpoint.rs:380-384 | With a limit N and T senders, queued messages plus senders past the check never exceed N + T - 1; with one sender the queue never exceeds N. |
| DeliveryLimits.MemoryCounter | src/endpoint.rs:266-269 | `memoryused` is, modulo 2^64, the queued bytes less those put but not yet added plus those taken but not yet subtracted. |
| DeliveryLimits.MemoryLimit | src/endpoint.rs:386-412 | With a limit L, T senders and messages of at most C bytes, small enough together not to wrap around, queued bytes never exceed L - 1 + T * C. |
| DeliveryWitnesses.PendingOvershoot | src/endpoint.rs:380-412 | For every limit N and every number T of senders a run with N + T - 1 queued messages. |
| DeliveryWitnesses.PendingKeptIff | src/endpoint.rs:380-412 | No run of T senders exceeds the pending limit if and only if T is at most one. |
| DeliveryWitnesses.MemoryOvershoot | src/endpoint.rs:386-412 | For every limit L, number T of senders and size C of messages a run with L - 1 + T * C queued bytes. |
| DeliveryWitnesses.MemoryKeptIff | src/endpoint.rs:386-412 | No run of T senders of messages of at most C bytes exceeds the memory limit if and only if T * C is at most one. |
| DeliveryRefusals.RefusalIff | src/endpoint.rs:386-389 | A sender is turned away by the memory limit L if and only if queued bytes plus bytes taken but not yet subtracted are less than the bytes put but not yet added, or at least L more than those; if the two transits balance, exactly if the queued bytes reach L. |
| DeliveryRefusals.BlockingRefusalIff | src/endpoint.rs:404-412 | At an endpoint where nobody calls the non-blocking `recv`, a sender is turned away if and only if queued and taken bytes are at least L more than the bytes not yet added, since put and add happen under the mutex. |
| DeliveryWitnesses.TurnedAwayBelow | src/endpoint.rs:266-269 | For every limit a run in which a non-blocking receive subtracts first, the counter wraps below zero and a sender is turned away from an empty queue. |
| DeliveryWitnesses.TurnedAwayOver | src/endpoint.rs:386-389 | For every limit a run with a blocking receive and without wrapping in which a sender is turned away from an empty queue. |
| DeliveryWitnesses.TimesOut | src/endpoint.rs:571-595 | A run in which `recvorblock` comes back without a message, from an empty queue and after its wait has expired. |
| DeliveryTheorems.InOrder | src/endpoint.rs:254-284 | What was put into an endpoint is what was taken out followed by what is queued, in order; what was taken is in one receive's hands, returned as it was put, or thrown away, and only sync messages are thrown away. |
| DeliverySends.SendReaches | src/net.rs:212-228 | When a send is over, each endpoint of its list has been settled at one of its steps: it got the message behind all others, or was at its pending limit, or at its memory limit, or the message was not for it; and it is that if the message is not for it. |
| DeliverySends.SendOnly | src/net.rs:212-228 | During a send its thread puts nothing but the message, and that only into an endpoint of its list that the message is for. |
| DeliverySends.SendOnce | src/net.rs:219-225 | No place of the list gets the message twice from one send. |
| DeliveryTheorems.FatesAreFinal | src/endpoint.rs:254-284 | No message that was returned or thrown away is ever returned or thrown away again, and the order of removal never changes. |
| DeliveryTheorems.DroppedWasWon | src/endpoint.rs:273-280 | A message is thrown away only if a receive has returned the same sync message. |
| DeliveryTheorems.AtMostOneReceives | src/syncmessage.rs:70-83 | Of all receives at all endpoints at most one returns a given sync message. |
| DeliveryTheorems.FlagTellsWinner | src/syncmessage.rs:70-83 | The shared flag is false exactly when a receive has returned the message. |
| DeliveryTheorems.ExactlyOneReceives | src/endpoint.rs:394-412 | A sync message accepted by at least one endpoint has been returned by a receive once no copy is queued or in a receive's hands. |
| DeliveryTheorems.ReturnedIsolated | src/endpoint.rs:271-272 | The buffer of a returned raw message belongs to that receive alone: no sender, no queued or travelling message and no other receive has it. |
| DeliveryTheorems.QueuedHoldsSnapshot | src/net.rs:201-208 | A queued raw message holds the bytes its sender's buffer held at the send, whatever users write meanwhile. |
| DeliveryTheorems.ReturnHoldsSnapshot | src/message.rs:131-166 | At the moment of its return a raw message holds the content that was taken at its send. |
| DeliveryTheorems.RawSnapshot | src/rawmessage.rs:74-86 | End to end: a returned raw message holds exactly the `cap` bytes that the sender's buffer held when it was sent. |
| DeliveryProgress.NeverStuck | src/endpoint.rs:254-284 | A thread in the middle of a send or a receive can always go on, unless it waits for a mutex that is taken: every buffer, flag and endpoint it uses is there. |
| DeliveryProgress.OwnerGoesOn | src/endpoint.rs:533-595 | A taken mutex belongs to a thread between lock and unlock that can go on; nobody sleeps with it or waits for another one. |
| RawMessages.RawMessage.constructor | src/rawmessage.rs:51-68 | A buffer of its own, of at least one byte, with `len` equal to `cap`. |
| RawMessages.RawMessage.Dup | src/rawmessage.rs:74-86 | A fresh buffer with all `cap` bytes of the original, whatever its `len`. |
| RawMessages.RawMessage.SetLen | src/rawmessage.rs:88-94 | Fails exactly if the length is beyond the capacity; the bytes stay. |
| RawMessages.RawMessage.WriteFromSlice | src/rawmessage.rs:214-229 | Fails exactly if the write would pass the end, and then nothing changed; otherwise writes the range and nothing else, and `len` never shrinks. |
| RawMessages.WrittenReads | src/rawmessage.rs:214-245 | What was written is what is read back, and the bytes before and after it are untouched. |
| LifetimeProof.RefcntCounts | src/endpoint.rs:214-241 | `refcnt` is the number of handles not yet dropped: the users', the list's, and those of sends and drops in progress. |
| LifetimeProof.UsedIsRegistered | src/net.rs:299-310 | An endpoint that a user still holds is on its net exactly once and is not marked as dropped. |
| LifetimeProof.NoReentry | src/endpoint.rs:231-241 | No thread enters `drop_endpoint` while it holds the net's mutex, not even through the drop of the removed handle, and the mutex has one owner. |
| LifetimeProof.NeverStuck | src/net.rs:212-296 | Every thread can go on unless it waits for the net's mutex while it is taken; in particular no panic is reached. |
| LifetimeProof.OwnerGoesOn | src/net.rs:212-228 | The net's mutex, when taken, belongs to a thread that has a next step and does not wait for it again, so there is no deadlock. |
| LifetimeProof.SearchFinds | src/net.rs:274-296 | `drop_endpoint` always finds the endpoint exactly once, so its panic cannot happen. |
| LifetimeProof.UnusedIsUnregistered | src/endpoint.rs:226-241 | Once no user holds the endpoint and no send or drop of it is under way, it is off its net and no handle is left. |
| LifetimeProof.CopiesAll | src/net.rs:219 | The list that a send goes through is the whole list of the net, in order, as it was under the mutex, and each of its endpoints has one handle more for it. |
| LifetimeProof.ListInOrder | src/net.rs:299-310 | The list of a net is in the order in which its endpoints were made, whatever is dropped in between. |
| NetRegistry.Registry.DropEndpoint | src/net.rs:274-296 | The loop removes the endpoint's first entry, changes nothing if there is none, and panics exactly if there are several. |
| BridgeCodec.ThreadTx | src/tcp/mod.rs:111-157 | The stream gets the net's identifier and then one frame for each raw message received before the termination message, in order; timeouts and other messages leave no trace. Byte by byte: each word is eight digits to base 256, the highest first, and each frame is its size, the type 1, the four addresses at 9, 17, 25 and 33, and the body at 41. |
| BridgeCodec.DigitAt | src/tcp/mod.rs:149-154 | Byte `i` of a word of `n` bytes is the digit of weight `256^(n - 1 - i)`. |
| BridgeCodec.ValueIsSum | src/tcp/mod.rs:66-77 | What is read from bytes is the sum of each byte times the weight of its place, the first byte weighing most. |
| BridgeCodec.WireIs | src/tcp/mod.rs:112-155 | The bytes written are, place by place, those of the identifier and of the size, type, addresses and body of each frame, and nothing follows. |
| BridgeCodec.ForwardedJoin | src/tcp/mod.rs:114-157 | What is forwarded of two stretches of events without an end is what is forwarded of the one and then of the other. |
| BridgeCodec.ForwardedOne | src/tcp/mod.rs:117-140 | A raw message is forwarded, a timeout and any other message is not, and nothing after the termination message is. |
| BridgeCodec.ReadFrame | src/tcp/mod.rs:73-107 | A frame is read exactly if its header is complete, its type is 1 and its size covers the header, and then its fields and bytes are those of the stream. |
| BridgeCodec.ThreadRx | src/tcp/mod.rs:45-109 | Takes the far net's identifier and then passes on what the stream holds, frame by frame, until it ends or is malformed. |
| BridgeCodec.FramesRead | src/tcp/mod.rs:58-109 | Whatever follows on the stream, reading takes off exactly the frames that were written, with their addresses and bytes. |
| BridgeCodec.RoundTrip | src/tcp/mod.rs:142-155 | All frames come out in order and the stream is used up, and they equal the frames that went in if and only if no body is empty. |
| BridgeCodec.Connect | src/tcp/mod.rs:45-157 | The two threads together: the bytes on the wire are the identifier and the frames, the far side learns the sender's net and passes on the forwarded messages, the same ones if and only if no body is empty. |
| BridgeRouting.SendInternal | src/net.rs:212-228 | Each endpoint that the message is meant for, by its address and origin, queues it once at its end, no other queue changes, and the result is the number of those endpoints. |
| BridgeRouting.AcceptsIff | src/endpoint.rs:354-378 | The address test passes if and only if the message is not the endpoint's own or may loop, and is for its system (any, the net's if the endpoint is of the net, or by name), and for it or for every endpoint. |
| BridgeRouting.LocalRoute | src/endpoint.rs:354-378 | A local message passes the test of the ordinary endpoints that it names or that it leaves open, except the one it comes from unless it may loop, and never that of the bridge. |
| BridgeRouting.BroadcastCount | src/net.rs:212-228 | A local broadcast that may not loop is for all endpoints of a net but the sender and the bridge, so their number less two is the answer of the send. |
| BridgeRouting.DirectedRoute | src/endpoint.rs:354-378 | A message from net A to net B is accepted in A by the bridge alone, and in B by all endpoints except the bridge. |
| BridgeRouting.LocalStays | src/endpoint.rs:359-373 | A message for the local net never crosses a bridge. |
| BridgeRouting.EchoedIff | src/endpoint.rs:354-378 | A message that crossed is sent back if and only if it was for any net and the far bridge does not take it for its own or for another endpoint's. |
| BridgeRouting.SendAcross | src/tcp/mod.rs:45-157 | Any list of messages, behind what the bridge has still to carry: each queue of both nets gains exactly the messages its endpoint accepts, in order, and the wire carries those that the near end accepts. |
| BridgeRouting.ListRoute | src/endpoint.rs:354-378 | Of any list of messages to all of net B or to the local net, the near end of the bridge takes those for B and nothing else, every ordinary endpoint of B takes each of them once, in order, and the far end none; at home every ordinary endpoint takes the local ones for it, and not its own unless they may loop. |
| BridgeRouting.SendAddressed | src/tcp/mod.rs:45-157 | From send to queues for any such list: local messages put no byte on the wire and reach the ordinary endpoints of A that they are for, every ordinary endpoint of B queues each message for B once, in order, none of those is queued at an ordinary endpoint of A, and nothing comes back. |
| ScatterGather.Split | tests/practicalengine.rs:168-209 | One chunk per worker, of equal length, the last with the slack. |
| ScatterGather.ChunksAdjoin | tests/practicalengine.rs:170-205 | The chunks follow one another without gap or overlap from the first byte to the last. |
| ScatterGather.ChunksPartition | tests/practicalengine.rs:184-205 | Every byte lies in exactly one chunk. |
| ScatterGather.Worker | tests/practicalengine.rs:99-117 | The reply is the byte function over the chunk, at the offset of the chunk. |
| ScatterGather.ProcessIs | tests/practicalengine.rs:105 | The byte function, in which the shift binds looser than the sum and bytes wrap around, is twice the two bits below the highest. |
| ScatterGather.Assemble | tests/practicalengine.rs:227-238 | The loops crash exactly if a reply does not fit, and otherwise compute all replies written over zeros in order of arrival. |
| ScatterGather.Manager.OnRequest | tests/practicalengine.rs:163-211 | Registers the request, replacing one with the same identifier, and hands out its chunks. |
| ScatterGather.Manager.OnReply | tests/practicalengine.rs:213-250 | Ignores unknown requests, collects replies, and answers the requester once there are as many replies as chunks. |
| ScatterGather.AnyOrder | tests/practicalengine.rs:222-239 | For every order of arrival of the replies, putting them together gives the byte function over the whole original data. |
| ScatterGather.Pipeline | tests/practicalengine.rs:163-250 | Any number of requests with distinct identifiers and any interleaving of their arrivals and replies: each event is answered exactly if it is the last reply to a request, with the right data for the right requester, and other entries stay as they are. |
| ScatterGather.AnsweredOnce | tests/practicalengine.rs:224-249 | A request all of whose replies have come has been answered at exactly one event. |

## Left out

- Weak memory orderings: all atomic operations are sequentially consistent, also those marked relaxed, acquire or release.
- Several concurrent consumers together with node reuse: the guard against it is commented out (src/queue.rs:376-377), so reuse is proved with one consumer and several consumers without reuse.
- Liveness and fairness: that a thread that can go on does go on, and that a sleeper is eventually woken. The condition variable and the mutexes are atomic regions.
- `SizedRingQueue` (src/queue.rs:92-197): its `put` does not wait for a free slot and a failed `get` still advances, so it has no queue property to prove.
- The counters `rinside`, `sent` and the queue's `needrel`, and `dbg`: nothing reads them.
- The block of slots of the pointer cache is not freed by `QueueMemory.PointerCache.Drop`; a garbage-collected array stands for it. Destructors of payloads are not run by the source either.
- The sequential classes keep raw pointers as addresses into a map of nodes (`QueueMemory.Memory`), because nodes come and go by explicit allocation and freeing.
- `SafeQueue` (src/queue.rs:199-227), the queue inside an endpoint, is an atomic sequence: each of its operations holds one mutex throughout.
- The resets of a recycled node in `put` (src/queue.rs:273-277) are one step: the node is in the hand of one thread.
- The popper's steps between loading `next` and returning (benches/queuefight.rs:204-209) are one step: only the popper touches what they read and write.
- Changes of limits, system, endpoint and group identifiers during a run of the delivery machine; direct calls of `give`, `add_endpoint` and `drop_endpoint`; mutation of the public fields of a message.
- The number that `Net::send` returns appears in `BridgeRouting.SendInternal`, not in the delivery machine.
- Buffers are never reclaimed in the delivery machine, so an address stands for one buffer for good.
- DeliveryLimits.MemoryLimit: needs that the limit, the senders' messages and the messages in receivers' hands together stay within a word; beyond that the counter is ambiguous.
- DeliveryRefusals.RefusalIff: needs the same.
- DeliveryRefusals.BlockingRefusalIff: needs the same.
- DeliveryWitnesses.MemoryKeptIff: speaks of limits, senders and sizes that need the same.
- LifetimeProof.NeverStuck: needs fewer than 2^64 handles of one endpoint; each handle takes memory.
- LifetimeProof.OwnerGoesOn: needs the same.
- `new_endpoint_withid` differs from `new_endpoint` only in the choice of the identifier; identifiers of endpoints are not modelled.
- BridgeCodec.ReadFrame: a frame shorter than announced is passed on with whatever the memory held (src/tcp/mod.rs:81-83), modelled as arbitrary bytes; a size below 33 wraps around to an impossible allocation and counts as a panic.
- BridgeCodec.Connect: writes to the stream always succeed, and the reader sees the stream after the writer has finished.
- BridgeRouting.SendAcross: with no limits, with both bridges already told the far net's identifier, and with the far side reading after the list has been sent.
- BridgeRouting.SendAddressed: starts with an idle bridge; `BridgeRouting.SendAcross` has any backlog.
- Raw broadcasts to all nets over a bridge, and messages to one endpoint of a remote net: `give` does not make their delivery unique. `BridgeRouting.EchoedIff` says exactly when a broadcast comes back.
- `RawMessage::resize` (src/rawmessage.rs:96-115): it copies more than the smaller buffer holds, so the capacity is fixed here.
- `as_mutslice` and the structure views of raw messages, type identifiers and `transmute`: payloads are opaque values.
- The manager never removes a finished request from its table; a reply that comes twice, and two requests with one identifier, are not part of `ScatterGather.Pipeline`.
- Receiving from a list of endpoints, `timespec`, assignment of identifiers, sockets, connecting and accepting, negotiation counts, clocks and printing, `compat`, `allocmutex` and the sleeper thread.
