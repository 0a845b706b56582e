# A verified model of libsinet's packet pipeline

libsinet moves packets between netmap rings without copying them. Receive threads mark
received slots BUSY and link their packets into lists; a sorter splits each list among
consumers, which rewrite packets in place and splice their lists onto shared work queues;
transmit threads take whole queues and move each packet into a free transmit slot, by
exchanging buffers or by copying, and release it; later the receive thread gives the longest
released prefix of its ring back to the kernel.

The project has three layers.

**The code on the heap.** Packets, lists, queues, sorter and rings are classes with the
source's fields, real `sinNext` links and ghost sequences for what they stand for; loops are
loops. `PacketLists`, `WorkQueue`, `PacketSorter`, `PacketDelivery`, `PacketRings`, `TxBatch`,
and the byte-level routines in `MemFast`, `Checksum` and `PacketRewrite`, are proved against
the specification functions in `QueueSpec`, `Routing`, `Circular`, `MemFast`, `Checksum` and
`PacketRewrite`; `PacketFrames` says what those of `PacketRewrite` mean for frames built field by
field.

**The system of steps.** `PipelineModel` describes any number of receive and transmit rings,
in any number of memory regions, and the steps that receive threads, transmit threads and the
kernel take in any interleaving; each turn of a per-packet loop is a step. `PipelineInv` is the
ownership invariant; `PipelineLinks`, `PipelineOrder`, `PipelineData`, `PipelineRx` and
`PipelineTx` show that every step keeps it; `Pipeline` and `EndToEnd` draw the conclusions for
every run. The system of steps decides by what lists hold; `PipelineHeaders` takes every step a
second time from the heads, tails, lengths, links and walking pointers the code reads, and
proves that the two have the same runs. `Drain` shows that no reachable state is stuck,
`Arrivals` that any packet can still come in and get through; `PipelineEffects` says what single
steps take, write and exchange; `Wiring` instantiates the theorems with the library's own rings,
sorters and queues.

**The thread protocols.** `Wakeup` is the condition-variable protocol of the queues with any
number of producers and consumers and spurious wakeups; the system of steps has it built in for
the one consumer each of its queues has. `Shutdown` is the handshake that stops a worker.

Some things turned out to hold only under a condition, and the exact condition is proved:
wakeups are never lost if and only if gets take everything or there is at most one consumer
(`Wakeup.WakeupExactly`; the library has one per queue); stopping a worker can hang if and only
if the pump falls between a transmit thread's failed control check and its next wait
(`Shutdown.HangsExactly`); an echo reply's ICMP checksum verifies if and only if adding 0x0008
to the stored word does not wrap, and its IP header checksum if and only if the request's
field held one of the two zeros (`PacketRewrite.ReplyIcmpSum`, `PacketRewrite.ReplyIpSum`; a
request that fails both is `PacketRewrite.ReplyCanFail`);
and putting an empty list on a non-empty queue loses the queue's tail
(`WorkQueue.WiQueue.PutItems`, `WorkQueue.LostTail`), which the sorter's guards rule out.

## What is assumed

- netmap: `nm_ring_next` is one slot further with wrap-around; a ring is empty when `cur`
  equals `tail` (the only reading under which the dequeue loop ends, since it moves only
  `cur`); `NETMAP_BUF` names one buffer per index and memory region; at the start every
  buffer is linked to exactly one slot; buffers are a multiple of 64 bytes long.
- The kernel touches only slots outside [head, tail), moves `tail` forward at most to the slot
  before `head`, never changes a slot's `buf_idx`, and keeps slot lengths within the buffer.
- A mutex-protected section is one step; `pthread_cond_signal` wakes one waiter if there is
  one; waits may return spuriously.
- Words are read as on a little-endian machine, and IP headers have 20 bytes, as the source's
  structures have.

## Model

| member | source | states |
|---|---|---|
| Circular.DistCountsSteps | src/sin_tx_thread.c:64-72 | the free-slot count is below num_slots and is the one number of nm_ring_next steps below num_slots that leads from cur to tail |
| Circular.WindowIsWalk | src/sin_tx_thread.c:64-72 | the slots counted from cur are exactly those between cur and tail |
| Circular.AdvanceStaysInWindow | src/sin_tx_thread.c:91-104 | advancing by ntx slots lands on (cur+ntx) mod num_slots, the slots taken are distinct and in [cur, tail), the distance shrinks by exactly ntx, and what stays free is the old window without the slots taken |
| MemFast.MemSwp | src/sin_mem_fast.h:36-46 | the byte-wise exclusive-or loop exchanges two disjoint ranges of any length and changes nothing else |
| MemFast.SwapTwice | src/sin_mem_fast.h:36-46 | the exchange undoes itself |
| MemFast.SwapRanges | src/sin_mem_fast.h:36-46 | each range ends up with what the other held |
| MemFast.XorThrice | src/sin_mem_fast.h:70-71 | three exclusive-or assignments exchange two values of any bit width |
| MemFast.MemCpy | src/sin_mem_fast.h:48-68 | the block loop and the long-copy branch write exactly CopyWidth(l) bytes of the source over the destination, for every l |
| MemFast.CopyMeans | src/sin_mem_fast.h:48-68 | after a copy the first l bytes equal the source's and everything past the rounded-up length is unchanged |
| MemFast.CopyWidthFits | src/sin_pkt_zone_fast.h:52-62 | a packet's length rounded up to whole blocks stays within a buffer of whole blocks, which is what the copy between zones needs |
| Checksum.Ip4Cksum | src/sin_ip4.h:28-65 | the loop with deferred carries and two folds returns the complement of the RFC 1071 one's-complement sum, for every length its accumulator allows, odd ones included |
| Checksum.OcSumIsCanon | src/sin_ip4.h:48-51 | adding carries back at once or reducing the plain word sum at the end is the same: the value congruent modulo 65535 that is zero only for zero |
| Checksum.FoldsToCanon | src/sin_ip4.h:60-64 | two folds are enough for every 32-bit accumulator |
| Checksum.FinishIsComplement | apps/udp_mirror/udpm_sorter.c:96-100 | the folding macro stores the complement of the one's-complement sum |
| Checksum.ZeroOnlyForZeros | src/sin_ip4.h:39-64 | the sum is zero if and only if every byte is zero |
| Checksum.AccumulatorFits | src/sin_ip4.h:31-51 | the signed 32-bit accumulator cannot overflow on any input of n bytes if and only if n is at most 65537 |
| PacketRewrite.ChksumUpdate | apps/udp_mirror/udpm_sorter.c:70-78 | the header macro adds the word sum of the given bytes, for the even lengths its assertion allows |
| PacketRewrite.ChksumUpdateData | apps/udp_mirror/udpm_sorter.c:79-95 | the data macro adds the word sum of the given bytes, an odd last byte included |
| PacketRewrite.MirrorUdp | apps/udp_mirror/udpm_sorter.c:146-193 | in place, on the memory from the packet's buffer on, the release build exchanges addresses and ports and the debug build also recomputes both checksums, as the functions the lemmas below speak of; the debug build asks only that the bytes its UDP length makes it read exist |
| PacketRewrite.MirrorParts | apps/udp_mirror/udpm_sorter.c:160-175 | Ethernet, IP and UDP sources and destinations are exchanged and every other byte is unchanged |
| PacketRewrite.MirrorInvolution | apps/udp_mirror/udpm_sorter.c:104-175 | mirroring twice restores the packet, and the taste gives the same answer on a packet and its mirror image |
| PacketRewrite.MirrorKeepsChecksums | apps/udp_mirror/udpm_sorter.c:165-180 | the IP header sum and the RFC 768 sum (pseudo-header, header, data) are unchanged by the mirror |
| PacketRewrite.DebugIpVerifies | apps/udp_mirror/udpm_sorter.c:165-172 | the recomputed IP checksum verifies, whatever the UDP pass stores, and equals a valid old one up to 0x0000 and 0xffff |
| PacketRewrite.DebugUdpVerifies | apps/udp_mirror/udpm_sorter.c:181-191 | over the memory from the packet's buffer on, the recomputed UDP checksum verifies, whatever the packet's was |
| PacketRewrite.DebugMirrors | apps/udp_mirror/udpm_sorter.c:160-191 | the debug build leaves the mirror image too: byte for byte the release build's, but for the two checksum fields |
| PacketRewrite.AcceptedFits | apps/udp_mirror/udpm_sorter.c:189-190 | for every packet the taste accepts, 65535 bytes past the IP header are all the debug build can read |
| PacketRewrite.AcceptedNeedNotFit | apps/udp_mirror/udpm_sorter.c:104-144 | a packet the taste accepts whose UDP length runs past its end |
| PacketRewrite.MirrorOfPacket | apps/udp_mirror/udpm_sorter.c:146-175 | mirroring in the buffer mirrors the packet at its front, whatever lies behind it |
| PacketRewrite.ReplyIcmp | src/sin_ip4_icmp.c:127-143 | in place, the reply is made as the function the lemmas below speak of |
| PacketRewrite.ReplyIsReply | src/sin_ip4_icmp.c:68-143 | an accepted echo request becomes a packet the reply taste accepts and the request taste does not, with addresses exchanged and all but type and checksums unchanged |
| PacketRewrite.ReplyIcmpSum | src/sin_ip4_icmp.c:140-142 | for a request whose ICMP checksum verifies, over any message length, the reply's verifies if and only if the 16-bit addition does not wrap |
| PacketRewrite.ReplyIpSum | src/sin_ip4_icmp.c:139 | the reply's IP header verifies if and only if the request's checksum field was 0x0000 or 0xffff; a valid request gets 0 stored |
| PacketRewrite.ReplyCanFail | src/sin_ip4_icmp.c:127-143 | an accepted 50-byte request with both checksums right whose reply has both wrong |
| PacketRewrite.ReplyOfPacket | src/sin_ip4_icmp.c:127-143 | replying in the buffer replies to the packet at its front, whatever lies behind it |
| PacketFrames.UdpmTasteExactly | apps/udp_mirror/udpm_sorter.c:104-144 | a frame built from its fields is taken by the mirror if and only if type, version, protocol, UDP length and both ports pass the source's tests |
| PacketFrames.EveryUdpFrame | apps/udp_mirror/udpm_sorter.c:111-117 | every packet long enough for the mirror is such a frame |
| PacketFrames.IcmpTasteExactly | src/sin_ip4_icmp.c:68-125 | a frame is taken as an echo request, or as a reply, if and only if it has 16 bytes behind the IP header and type, version, protocol and ICMP type are the ones asked for |
| PacketFrames.TastesApart | src/sin_ip4_icmp.c:73-91 | shorter packets are for neither consumer, and no packet is for both |
| PacketFrames.MirrorOfFrame | apps/udp_mirror/udpm_sorter.c:146-175 | the mirror image of a UDP frame is the frame with Ethernet, IP and UDP source and destination exchanged and every other field as it was |
| PacketLists.Pkt.constructor | src/sin_pkt.c:40-63 | a new packet is unlinked, not BUSY, of length 0, and has its slot's buffer |
| PacketLists.SinList.Append | src/sin_list.h:34-49 | the list is what it was followed by the new element, still acyclic, null-terminated and with head, tail and len in agreement; no link but the old tail's changes |
| PacketLists.SinList.Reset | src/sin_list.h:51 | the list is empty |
| Routing.FirstMatch | src/sin_pkt_sorter.c:114-121 | the index found accepts and none before it does; past the end none accepts |
| Routing.KeepApart | src/sin_pkt_sorter.c:112-128 | different consumers' lists share no packet |
| Routing.SortedIsPermutation | src/sin_pkt_sorter.c:112-128 | the consumers' lists together are a permutation of the input |
| PacketSorter.PktSorter.constructor | src/sin_pkt_sorter.c:63-80 | a sorter without entries, at rest |
| PacketSorter.PktSorter.Reg | src/sin_pkt_sorter.c:82-103 | the new entry is asked before all earlier ones, and the sorter stays at rest |
| PacketSorter.PktSorter.FindEntry | src/sin_pkt_sorter.c:114-122 | the inner loop ends at the first entry in registration order, newest first, whose taste accepts, or at none |
| PacketSorter.PktSorter.Partition | src/sin_pkt_sorter.c:112-128 | though every link is rewritten in place, every work list ends with exactly the packets of its class in arrival order |
| PacketSorter.Relink | src/sin_pkt_sorter.c:116-125 | one packet is unlinked and appended to its class's list; the rest of the input is still chained and the other lists are as they were |
| PacketDelivery.UdpmLoop | apps/udp_mirror/udpm_sorter.c:209-217 | the mirror's loop over its list replaces each packet's contents by its mirror image, exactly once |
| PacketDelivery.IcmpLoop | src/sin_ip4_icmp.c:157-167 | the replier's loop over its list replaces each request by its reply, exactly once |
| PacketDelivery.PutAndReset | src/sin_pkt_sorter.c:130-134 | one non-empty work list is spliced onto its consumer's queue and reset, all other lists and queues being unharmed even when several consumers share the queue |
| PacketDelivery.Proc | src/sin_pkt_sorter.c:105-141 | each packet ends up, rewritten by the first consumer that accepts it, on that consumer's queue, in consumer order and arrival order after what the queue held; all work lists are empty again |
| PacketRings.Ring.constructor | src/sin_pkt_zone.c:51-71 | one packet object a slot, in slot order, bound to the buffer its slot names, unlinked and not BUSY |
| PacketRings.Ring.DequeuePkts | src/sin_rx_thread.c:58-81 | every slot from cur up to tail, across the wrap, is marked BUSY, given its length and appended in ring order; the three assertions hold at every turn and the loop ends by the distance to tail |
| PacketRings.Ring.SpinRing | src/sin_rx_thread.c:86-118 | head moves past exactly the longest run of packets that are not BUSY, never past cur, and head, cur, tail stay in circular order |
| PacketRings.Ring.TxRingNslots | src/sin_tx_thread.c:64-72 | both branches give the number of slots from cur up to tail, fewer than num_slots, and counting that many from cur meets exactly the free ones |
| PacketRings.Ring.AdvanceTx | src/sin_tx_thread.c:91-104 | head and cur both become (cur+ntx) mod num_slots |
| PacketRings.Ring.RetAll | src/sin_pkt_zone.c:146-166 | every packet of the list is unlinked and released, and each is the zone's at its own index |
| TxBatch.PktZoneSwap | src/sin_pkt_zone_fast.h:37-50 | buffers and buffer indices are exchanged, the length goes to the transmit packet and slot, both slots are marked changed |
| TxBatch.PktZoneCopy | src/sin_pkt_zone_fast.h:52-62 | the contents are copied, the length goes to the transmit packet and slot, the indices stay |
| TxBatch.SendOne | src/sin_tx_thread.c:150-178 | one turn of the loop: the transmit slot carries the packet's contents, the packet is released, both links are null, and both walks go on from the old links |
| TxBatch.TxZoneGetPkts | src/sin_tx_thread.c:74-89 | the packets of exactly ntx slots from cur are linked in ring order, across the wrap |
| TxBatch.SendBatch | src/sin_tx_thread.c:137-188 | the free slots are read from the ring; with ntx the smaller of their number and the list's length, the k-th packet goes to the k-th free slot, the list is its input minus the first ntx with head, tail and len in agreement, the ring hands over those slots, and every packet linked for the batch ends unlinked |
| QueueSpec.Fifo | src/sin_wi_queue.c:103-253 | over any mix of bounded puts, bulk puts, single and bulk gets: what came out followed by what is left is what was there followed by what went in |
| QueueSpec.BoundKept | src/sin_wi_queue.c:112-119 | a queue fed through bounded puts never exceeds the bound |
| WorkQueue.WiQueue.PutItem | src/sin_wi_queue.c:103-142 | rejected exactly at the bound, otherwise last in the queue; signals exactly when somebody waits |
| WorkQueue.WiQueue.PutItems | src/sin_wi_queue.c:144-170 | a non-empty list is spliced to the end in order with length, head and tail in agreement; an empty one on a non-empty queue leaves head set and tail null |
| WorkQueue.LostTail | src/sin_wi_queue.c:158-162 | a queue left that way is no valid queue any more |
| WorkQueue.WiQueue.GetItem | src/sin_wi_queue.c:188-217 | takes the oldest item, unlinked, or waits, or returns nothing when it may not wait |
| WorkQueue.WiQueue.WakeItem | src/sin_wi_queue.c:202-217 | after a wake: returns nothing, waits again, or takes the oldest |
| WorkQueue.WiQueue.GetItems | src/sin_wi_queue.c:219-253 | takes the whole chain, spliced in order to the end of the caller's list |
| WorkQueue.WiQueue.WakeItems | src/sin_wi_queue.c:233-253 | after a wake: returns nothing, waits again, or takes the whole chain |
| Wakeup.RunCounts | src/sin_wi_queue.c:226-233 | in every run nwait is the number of consumers between their wait and their re-check |
| Wakeup.RunKeepsWakeup | src/sin_wi_queue.c:144-170 | while items are queued, a sleeping consumer implies another one already woken |
| Wakeup.WakeupExactly | src/sin_wi_queue.c:188-253 | that holds in every run if and only if gets take everything or there is at most one consumer |
| Wakeup.LostWakeup | src/sin_wi_queue.c:188-217 | two consumers taking single items: a run that ends with an item queued, one consumer asleep and none woken |
| Wakeup.SleepsOnlyWhenEmpty | src/sin_wi_queue.c:219-238 | with the one consumer each queue has, asleep and unsignalled implies an empty queue |
| Wakeup.SignalWakesOne | src/sin_wi_queue.c:112-141 | every put, rejected or not, and every pump wakes one sleeping consumer if there is any, and no other changes |
| Wakeup.RunConserves | src/sin_wi_queue.c:103-253 | in every run of any number of producers and consumers what the gets took, in order, followed by what is left is what was queued followed by what the accepted puts brought |
| Shutdown.CheckDelivers | src/sin_wrk_thread.c:146-177 | the destructor's bounded post is never rejected, and from then on the worker's next control check returns SIGTERM and ends its loop; no earlier check does |
| Shutdown.FreedOnce | src/sin_wrk_thread.c:171-186 | the signal object is freed exactly once, after the worker is gone, and the drain finds the queue empty |
| Shutdown.CheckSends | src/sin_tx_thread.c:145-188 | a cycle sends as many of the held packets as there are free slots, oldest first, and keeps exactly the others |
| Shutdown.CheckFrees | src/sin_wrk_thread.c:146-161 | a control check takes the oldest signal and frees it unless it is the thread's own |
| Shutdown.RunConserves | src/sin_tx_thread.c:136-203 | however a worker is being stopped, what was produced has been sent, is held or is still queued, in order |
| Shutdown.PumpReachesSleeper | src/sin_wi_queue.c:172-186 | a transmit thread asleep when pump runs is woken, comes back with an empty list, and its control check ends it |
| Shutdown.ShutdownCompletes | src/sin_wrk_thread.c:171-190 | outside the gap every continuation of the pump is at most five steps long, never stuck, and complete exactly when it has them all |
| Shutdown.HangsExactly | src/sin_tx_thread.c:136-203 | some continuation of the pump hangs if and only if the pump came while a transmit thread was between a failed control check and its next wait with nothing queued or held |
| Shutdown.GapIsReal | src/sin_tx_thread.c:197-203 | such a moment is reached by a run |
| Pipeline.StartInv | src/sin_pkt_zone.c:51-71 | packet zones filled from idle rings meet the ownership invariant |
| Pipeline.StepKeeps | src/sin_rx_thread.c:132-149 | from a state that meets the invariant every step of every thread and of the kernel meets the assertions on BUSY flags, zone_idx, buffers, links, counts and lengths, follows no null link, and keeps the invariant |
| Pipeline.RunKeeps | src/sin_tx_thread.c:142-188 | so does every run, of any length and interleaving, and no buffer appears or disappears |
| PipelineRx.DequeueKeeps | src/sin_rx_thread.c:66-80 | dequeuing a slot meets the assertions on the BUSY flag, zone_idx, the buffer and the null link, and keeps the invariant |
| PipelineRx.SortKeeps | src/sin_pkt_sorter.c:112-128 | relinking the next packet of the local list keeps the invariant |
| PipelineRx.DeliverKeeps | src/sin_pkt_sorter.c:129-140 | so does consuming a work list and splicing it onto a shared queue |
| PipelineRx.TurnKeeps | src/sin_rx_thread.c:132-149 | so does entering and leaving each loop of a receive thread, which outside its loops holds no packet |
| PipelineRx.SpinKeeps | src/sin_rx_thread.c:99-113 | so do continuing a scan for released slots and publishing it, while other threads release more |
| PipelineTx.SleepKeeps | src/sin_wi_queue.c:226-232 | so does falling asleep on an empty queue |
| PipelineTx.TakeKeeps | src/sin_wi_queue.c:233-252 | so does taking a whole queue, at once or after a wake |
| PipelineTx.GatherKeeps | src/sin_tx_thread.c:80-88 | so does linking one free transmit packet, which is unlinked beforehand |
| PipelineTx.MoveKeeps | src/sin_tx_thread.c:150-178 | so does moving one packet, exchanged or copied, and releasing it, with both walks still on their lists |
| PipelineTx.FinishKeeps | src/sin_tx_thread.c:179-188 | so does handing the batch over, meeting the assertions on ntx and on pkts_out's length |
| Pipeline.AssertionsHold | src/sin_pkt_zone_fast.h:28-35 | in every reachable state the assertions on BUSY flags, zone_idx, buffers, links, counts and lengths cannot fail at the next step, and no null link is followed |
| Pipeline.Ownership | src/sin_rx_thread.c:66-80 | a BUSY packet is in [head, cur) of its ring and on exactly one list at one position; any other received packet is on none and has a null link |
| Pipeline.LinksSpellLists | src/sin_list.h:34-49 | following the links from any list's head visits exactly that list and ends in null |
| Pipeline.BuffersConserved | src/sin_pkt_zone_fast.h:42-49 | in every run the buffers are the initial ones, each named by exactly one slot, and every packet's buf is the one its slot names |
| Pipeline.SleepersHaveNothing | src/sin_wi_queue.c:164-167 | in every reachable state of the whole system a transmit thread asleep in get_items, not signalled, has nothing queued, held or gathered |
| Pipeline.KernelSlotsUntouched | src/sin_tx_thread.c:146-180 | no step of the library changes a slot the kernel owns, or that slot's buffer |
| Pipeline.FinishHandsOver | src/sin_tx_thread.c:91-104 | advancing the transmit ring gives the kernel exactly the ntx slots just filled |
| Pipeline.SpinHandsOver | src/sin_rx_thread.c:99-113 | publishing the new head gives the kernel only slots whose packets are released, unlinked and on no list |
| PipelineEffects.MoveEffect | src/sin_pkt_zone_fast.h:37-62 | in every reachable state a move within one memory region writes no byte and exchanges the two slots' buffer indices and the two packets' buffers; across regions only the transmit packet's buffer is written; either way transmit slot and packet hold what the received packet held |
| PipelineEffects.BufferKept | src/sin_tx_thread.c:150-178 | over any run a received packet keeps its buffer for as long as it is BUSY |
| PipelineEffects.NoCopies | src/sin_tx_thread.c:152-156 | over any run within one memory region no byte of any buffer is written but by consumers and kernel |
| PipelineEffects.DeliverEffect | src/sin_pkt_sorter.c:129-134 | a consumer rewrites the packets of its list and writes no byte of any buffer outside them |
| PipelineEffects.SizeReadsRing | src/sin_tx_thread.c:137 | the slots a transmit thread counts on are exactly the free ones of its ring |
| PipelineEffects.TakesAll | src/sin_wi_queue.c:239-252 | taking a queue leaves it empty and the thread with all of it, in order |
| PipelineEffects.BatchIsLongest | src/sin_tx_thread.c:146 | a batch takes all held packets or all free slots counted, whichever are fewer |
| PipelineEffects.ReturnsToTop | src/sin_tx_thread.c:136-145 | a thread woken for nothing has nothing in hand and reads the ring again |
| PipelineEffects.DequeuesAll | src/sin_rx_thread.c:64-81 | a receive thread sorts only after it has dequeued everything delivered |
| PipelineEffects.PublishesLongest | src/sin_rx_thread.c:99-113 | the new head is past released slots only, and is cur or a BUSY slot |
| PipelineHeaders.SortAgrees | src/sin_pkt_sorter.c:112-128 | the walking pointer and the link read before it is cut pick the packets the list holds, and the append through the header writes the link the list calls for |
| PipelineHeaders.DeliverAgrees | src/sin_pkt_sorter.c:129-140 | a consumer's loop along the links meets exactly its list, and the splice through the two headers joins exactly the two lists |
| PipelineHeaders.TakeAgrees | src/sin_wi_queue.c:239-252 | the queue's header becomes pkts_out's and the queue's is reset |
| PipelineHeaders.GatherAgrees | src/sin_tx_thread.c:80-88 | pkts_tx's header, started afresh by its first packet, describes the packets linked so far, and the batch starts from the two heads |
| PipelineHeaders.FinishAgrees | src/sin_tx_thread.c:181-188 | pkts_out's header, stale during the batch, describes what is left once head, tail and length are set |
| PipelineHeaders.StepsAgree | src/sin_list.h:34-53 | in every state a guard that reads headers, links and walking pointers allows exactly the steps that look at list contents allow, and to the same links, lengths, phases and buffers |
| PipelineHeaders.CodeRunsAreRuns | src/sin_tx_thread.c:142-188 | every run by the code's own guards, from headers that describe the lists, is a run of the list-based system through the same states |
| PipelineHeaders.RunsAreCodeRuns | src/sin_wi_queue.c:153-162 | and every run of the list-based system is one of the code |
| PipelineHeaders.CodeReaches | src/sin_list.h:51-53 | the states the code comes to by its own guards, from filled zones and empty headers, are exactly the reachable ones |
| EndToEnd.Conservation | src/sin_tx_thread.c:142-188 | for every receive ring and consumer, what the kernel delivered is, in order and without loss or duplicate, what was handed over, what the current batch has placed, what the lists hold and what is still in receive slots, even when producers share a queue |
| EndToEnd.EndToEndOrder | src/sin_wi_queue.c:153-162 | the contents of the transmit slots handed over for a consumer are a prefix of its rewriting of what was delivered for it, in arrival order |
| EndToEnd.HandedOver | src/sin_tx_thread.c:150-180 | every slot handed over held the rewriting, by the consumer it was classified for, of something that arrived |
| Drain.SomeAdvances | src/sin_tx_thread.c:136-203 | from any state that meets the invariant, as long as work is in hand some thread has a step that does part of it, the one its cycle comes to next, or the kernel has a transmit slot to give back |
| Drain.RxAdvances | src/sin_rx_thread.c:132-149 | a receive thread that does not rest in poll gets on: the next step of its cycle lessens the measure |
| Drain.Drains | src/sin_rx_thread.c:132-149 | so all work in hand can be finished: the steps taken strictly lessen a measure over slots, lists and batches |
| Drain.NothingStuck | src/sin_rx_thread.c:132-149 | from every reachable state of every interleaving some run without arrivals ends with every packet released, every receive slot back with the kernel, and everything delivered handed over, rewritten, complete and in arrival order |
| Arrivals.AnyPacketPasses | src/sin_rx_thread.c:132-149 | from every reachable state of every interleaving some run takes in any given packet as the next arrival, hands everything over, that packet's rewriting last for its consumer, and ends with nothing in hand |
| Wiring.WiringOk | src/sin_init.c:205-238 | the library's rings, sorters and queues are a configuration the theorems apply to |
| Wiring.ClassOnPhy | src/sin_init.c:206-217 | which packets of an interface ring the mirror, the echo replier and the host get |
| Wiring.PhyWire | src/sin_sorter.c:35-52 | everything sent on an interface ring is a mirror image, with both checksums as good as before, or an echo reply, to a packet received on that ring, or on ring 0 an unchanged packet from the host |
| Wiring.HostWire | src/sin_init.c:205-211 | everything sent to the host is an unchanged packet from an interface ring that neither consumer takes |
| Wiring.AnsweredInOrder | src/sin_init.c:205-227 | per ring, mirror images, echo replies and pass-through packets are each a prefix, in arrival order, of what was due |
| Wiring.HostSendsInOrder | src/sin_init.c:229-238 | what the host sends goes out on ring 0, unchanged and in order |
| Wiring.EveryMoveExchanges | src/sin_tx_thread.c:152-156 | with the library's wiring every packet is sent by exchanging its buffer with the transmit slot's |
| Wiring.ZeroCopy | src/sin_init.c:205-238 | so in every run the library writes no byte of any buffer other than by its consumers |
| Wiring.Served | src/sin_init.c:205-227 | whatever has happened, any packet that comes in on an interface ring can be answered by its mirror image or reply on that ring, or passed to the host as it is |

## Left out

- AssertionsHold: the type-tag assertions are not among those shown.
- PhyWire: a reply's IP and ICMP checksums are not claimed to verify; `PacketRewrite.ReplyIpSum` and `PacketRewrite.ReplyIcmpSum` say exactly when they do.
- DebugUdpVerifies: speaks of the memory from the packet's buffer on, since the code trusts the UDP length, which the taste does not hold against the packet's; a computed 0 is not mapped to all ones, which the code does not do either although RFC 768 asks for it.
- ShutdownCompletes: no unconditional shutdown of a transmit thread; the gap excluded is the exact one of `Shutdown.HangsExactly`.
- NothingStuck: says that the work can be finished (and AnyPacketPasses and Served that a packet can get through), with no wakeup but the queues' signals, not that every fair schedule finishes it, and needs transmit rings of at least two slots, since netmap keeps one unused.
- PktZoneSwap: the exclusive-or exchange of the two buffer pointers is a reference exchange; `MemFast.XorThrice` covers values of any width.
- SendBatch: begins after the tests for free slots and held packets; the pairs' slots and buffers are required to be distinct and the transmit packets unlinked; the system of steps proves that they are.
- The classes on the heap and the system of steps share their specification functions (ring arithmetic, copying, first match) but are not joined by a simulation proof; locks and threads exist only in the second.
- A consumer's rewriting loop and its splice are one step, since the list is private to the thread until then.
- The queue class links packets; control signals, linked the same way, are values in `Shutdown`, where the queue is `QueueSpec`'s.
- Registering a consumer while receive threads run: the configuration is fixed. The mirror application's consumer is taken as registered or absent from the start, and the wiring uses its release build.
- Counters have no fixed width (list and queue lengths, nwait); ring indices, 16-bit checksum arithmetic and the 32-bit accumulator have theirs.
- Big-endian machines, IP options, timestamps, slot flags other than the changed mark, debug tracing, names and type tags.
- Failing allocation and its unwinding, opening and mapping the device, destruction of zones and queues, the ioctl, poll and usleep calls.
- Sockets (`sin_socket`, `sin_bind`, `sin_connect`, `sin_close`, `sin_queue`), the daemon code and the option parsing of the mirror application.
