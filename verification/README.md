# NetLink: a verified model of its transport

NetLink sends messages between peers of one network over UDP. This project models the part of it that does no I/O of its
own, and proves what it promises: a link that delivers in order over a network that does anything but that, the wire
format under it, the scheduler that shares one socket, the mailbox between threads, and the sessions of the engine.

Each component is described twice. Functions on values say what an operation makes of a state; classes keep the same
state in fields and change it in the loops and steps of the source, with contracts that equate their new state with the
function of the old one, and with what a caller can rely on. The laws are proved about the functions.

- `Transport`, `ByteOrder`, `PacketFlags`, `PacketHeader`, `AckRanges`: constants and the wire format.
- `SequenceBuffer`, `Fragments`, `MessageAssembler`, `MediaAssembler`, `RttEstimator`: what a link is built from.
- `LinkModel`: the state of a link and its operations; `LinkLaws`: what each of them does, in terms of the fields alone;
  `ReliableLink`: the same as a class.
- `LinkLedger`, `LinkRuns`, `LinkPause`, `LinkReorder`: what holds of one link in every run, whatever packets arrive.
- `LinkDelivery`, `LinkSending`, `LinkNetwork`, `LinkTheorems`, `AckOrder`, `LinkTraced`, `LinkProgress`: two links and the
  set of all datagrams ever sent; anything in the set may arrive at any time, any number of times, or never.
- `SendScheduler`, `Mailbox`, `MailboxWaiting`: the token bucket with its rings, the monitor, and the threads that sleep.
- `FlushDelivery`: a flush across mailbox, link, network and the link at the other end.
- `EngineModel`, `EngineLaws`, `EngineTrace`, `EngineOutcomes`, `EngineIndexes`, `NetworkEngine`: sessions, their events and
  indexes.

Time is an integer in microseconds that does not run backwards, sequence numbers are unbounded naturals, and the
congestion window and the tokens are reals. Everything a component asks of its surroundings is a parameter: the message a
source would hand out, the datagram that arrived, what a link or the discovery says when the engine looks, and the answers
of the peers a send run asks. Four results are negative, each with the exact condition: removing a peer in the middle of its
turn is not fair to the peer behind it, a crossing Hello that meets the limit on pending sessions drops an outcome, a connect
to a peer that was accepted without a question may get none, and a raised limit does not wake a push that waits for room.

## Model

| member | source | states |
|---|---|---|
| LinkTheorems.DeliveredInOrder | src/internal/Channel/Reliability/ReliableLink.cpp:152-255 | for two links and a network that loses, repeats and shuffles packets, in every reachable state: what was delivered on an acknowledged lane is a prefix, byte for byte and tag for tag, of what the other end drew from its source; every Media message delivered is one it drew |
| LinkTheorems.AcksNeverRenege | src/internal/Channel/Reliability/ReliableLink.cpp:118-149 | in every reachable state every Ack ever sent, late, repeated or cut to its limit of ranges, names only seqs its sender still holds or consumed; every seq ever sent is in flight or at the receiver, and the receiver holds nothing that was not sent |
| LinkTheorems.AcknowledgedMeansDelivered | src/internal/Channel/Reliability/ReliableLink.cpp:826-833 | nothing pending on a lane and no message refused at the receiver: delivered equals drawn |
| LinkTheorems.IdleMeansAcknowledged | src/internal/Channel/Reliability/ReliableLink.cpp:820-823 | a link without pending reliable data has every fragment of every message it drew at the receiver |
| LinkTheorems.SystemStep | src/internal/Channel/Reliability/ReliableLink.cpp:361-401 | whatever one end does next, with any datagram the other end ever sent, both ends stay in agreement on all lanes |
| LinkTheorems.EveryDatagramDecodes | src/internal/Channel/Reliability/ReliableLink.cpp:118-213 | in every reachable state everything either end ever put on the wire or is about to, Data, Acks and Pings, is at most 1200 bytes and decodes to what was built, and the body of every Ack decodes as well |
| LinkProgress.NeverStuck | src/internal/Channel/Reliability/ReliableLink.cpp:152-255 | from every reachable state with neither link failed there are turns, without a message more and without time passing, after which everything drawn on the lane is delivered and acknowledged; given memory for a message on every lane and one more, and a pause, if any, that an answer can lift |
| LinkProgress.CatchUp | src/internal/Channel/Reliability/ReliableLink.cpp:404-483 | the network can let everything that was sent on a lane arrive, in order, whatever was refused or buffered before |
| LinkProgress.Finish | src/internal/Channel/Reliability/ReliableLink.cpp:503-574 | and the receiver can then answer so that the sender has nothing in flight and its window moved up to the next seq |
| LinkProgress.NotHeldBack | src/internal/Channel/Reliability/ReliableLink.cpp:152-182 | with everything acknowledged a lane that is not paused may send, whatever the congestion window shrank to |
| LinkTraced.RunTraced | src/internal/Channel/Reliability/ReliableLink.cpp:216-255 | in every run each seq that was used has its packet among those sent, every packet is addressed to the other end or to nobody yet, and nothing refused is longer than a message can be |
| LinkRuns.StaleInvisible | src/internal/Channel/Reliability/ReliableLink.cpp:368-373 | packets of other streams leave no trace: every run ends in the same state as the run without them |
| LinkDelivery.TakeDataOk | src/internal/Channel/Reliability/ReliableLink.cpp:404-438 | any packet that carries what was sent under its seq, early, late or again, keeps the receiver in step with the sender and gives up nothing it held |
| LinkDelivery.RetriedOk | src/internal/Channel/Reliability/ReliableLink.cpp:475-483 | a refused message that gets its turn again keeps the receiver in step |
| LinkDelivery.WaitingRangesExact | src/internal/Channel/Reliability/ReliableLink.cpp:128-142 | the ranges of an Ack name exactly the seqs in the reorder buffer |
| LinkDelivery.AckPacketTrue | src/internal/Channel/Reliability/ReliableLink.cpp:118-149 | whatever the decoded body and header of a built Ack name, the receiver holds |
| LinkDelivery.HandleDataBudget | src/internal/Channel/Reliability/ReliableLink.cpp:441-459 | a Data packet changes the shared assembly budget by exactly what this link reserves or gives back, and keeps it within its limit |
| LinkReorder.RunWaits | src/internal/Channel/Reliability/ReliableLink.cpp:411-438 | in every run, with arbitrary packets and whatever other links do to the shared budget: what waits on a lane lies within one window from the next expected seq |
| LinkReorder.TakeDataWaits | src/internal/Channel/Reliability/ReliableLink.cpp:411-438 | a packet buffered behind a gap evicts no other: the ring insert is a plain map insert |
| LinkReorder.RefusedStays | src/internal/Channel/Reliability/ReliableLink.cpp:441-450 | a first fragment without room leaves the lane, its assembler, the budget and the deliveries as they were and marks the lane as paused |
| LinkReorder.RefusedNotAcknowledged | src/internal/Channel/Reliability/ReliableLink.cpp:118-149 | of the Acks built after a message was refused, the one of its lane decodes, ends before the message and names it in no range; it carries the pause bit unless answering a lane before made room |
| LinkReorder.RefusedAnswer | src/internal/Channel/Reliability/ReliableLink.cpp:118-149 | for a refused seq in the reorder buffer or not: the decoded Ack names it exactly if it waits there, and says to wait exactly if the link is paused or there is still no room |
| LinkReorder.AnswerIsBuilt | src/internal/Channel/Reliability/ReliableLink.cpp:84-108 | a lane whose Ack is due gets one with the next Acks built |
| LinkReorder.OneAnswer | src/internal/Channel/Reliability/ReliableLink.cpp:84-108 | and no other one |
| LinkSending.DataPacketWellFormed | src/internal/Channel/Reliability/ReliableLink.cpp:292-323 | every Data packet a link builds fits a datagram of 1200 bytes and passes every check of the decoder |
| LinkSending.OfferCarries | src/internal/Channel/Reliability/ReliableLink.cpp:152-197 | the datagram on offer carries the fragment its seq stands for in the sequence of all fragments drawn |
| LinkSending.HandleAckSends | src/internal/Channel/Reliability/ReliableLink.cpp:503-574 | an Ack takes a packet out of flight only if it names it, and touches no other lane |
| LinkLaws.PeekLaw | src/internal/Channel/Reliability/ReliableLink.cpp:152-213 | in every state of a link: a lane offers a datagram if and only if the link did not fail, the lane is not paused, a lost packet of it waits or its window has room, a lane under the congestion window has fewer packets on the wire than its integer part, and there is something to send; on offer is the first lost packet that is still in flight, else the next fragment of the message begun, else the first one of a new message |
| LinkLaws.PendingLaw | src/internal/Channel/Reliability/ReliableLink.cpp:826-833 | pending on an acknowledged lane is what is in flight and what is still being cut up, on Media only the latter |
| LinkLaws.NewLaw | src/internal/Channel/Reliability/ReliableLink.cpp:55-60 | a new link sent nothing; its window is the fixed one, or the initial one brought between 8 and 256, and its timeout the initial one within its bounds |
| LinkLaws.AckLaw | src/internal/Channel/Reliability/ReliableLink.cpp:503-574 | whatever an Ack claims: out of flight is exactly what it names; lost is what was and what three later transmissions overtook, and nothing else; the largest acknowledged transmission, the backoff, the measurement, the stall clock, the pause and the first probe of the lane follow; the window is halved once, not below 8, if one of the losses under it was sent after the last halving, is left alone by other losses, and otherwise is min(cwnd + n / cwnd, 256) with n the named packets sent since that halving |
| LinkLaws.AckTally | src/internal/Channel/Reliability/ReliableLink.cpp:527-558 | an Ack counts the packets in flight that it names, and of these the ones sent after the last halving; the youngest of those that were sent only once is measured |
| LinkLaws.SweepLaw | src/internal/Channel/Reliability/ReliableLink.cpp:609-649 | a scan of the log takes nothing out of flight, declares nothing lost that is not overdue, and halves the window once if and only if a packet under it that was sent after the last halving is among the lost |
| LinkLaws.SweepQueues | src/internal/Channel/Reliability/ReliableLink.cpp:634-649 | what is found lost queues up behind what was lost before |
| LinkLaws.AckPauses | src/internal/Channel/Reliability/ReliableLink.cpp:510-520 | an Ack with a serial less than 2^31 ahead of the last one decides whether its lane is paused; a pause that begins puts the first probe max(RTO in whole milliseconds, 50 ms) ahead, one that ends removes it |
| LinkLaws.AckStall | src/internal/Channel/Reliability/ReliableLink.cpp:670-679 | the stall clock runs if and only if something waits on a lane that is not paused, and starts over exactly when an Ack names something |
| LinkLaws.TimerLaw | src/internal/Channel/Reliability/ReliableLink.cpp:696-751 | a link fails exactly if an acknowledgement or any packet was missing for the peer timeout, and then keeps what it delivered and gives back what it reserved; otherwise lost is what was and what waited for min(RTO * 2^n, maxRto), the backoff grows by one for all of it together, the interval of a probe that is due doubles up to maxRto, and to be asked about is what was, the lanes whose probe was due, and Control after a silence of the keep-alive time |
| LinkLaws.SuperviseLaw | src/internal/Channel/Reliability/ReliableLink.cpp:77-81 | a link that is supervised from now on fails after the peer timeout from now, and asks after the keep-alive time, unless it hears something before |
| LinkLaws.AnswersLaw | src/internal/Channel/Reliability/ReliableLink.cpp:84-108 | with nothing built before left to send, exactly what is due is built: lane by lane, one Ack and then one Ping |
| LinkLaws.PingsFollow | src/internal/Channel/Reliability/ReliableLink.cpp:708-748 | after the timer, with nothing left to send: one Ping for each lane that was to be asked about, and for no other |
| LinkLaws.ReceiveLaw | src/internal/Channel/Reliability/ReliableLink.cpp:361-401 | a packet for or from another link changes nothing; any other shows that the peer lives, and does what its kind says: a Ping makes an Ack due, Data below the upper end of the window does, new or not, and Media is counted, assembled and delivered |
| LinkLaws.DataLaw | src/internal/Channel/Reliability/ReliableLink.cpp:404-438 | a packet outside the window or seen before changes nothing, one behind a gap waits, the next one in order is refused if it starts a message without room, and is taken otherwise with everything behind it |
| LinkLaws.DrainLaw | src/internal/Channel/Reliability/ReliableLink.cpp:462-472 | what leaves the reorder buffer is what was next in order, up to a gap or a message without room, whose length is remembered |
| LinkLaws.RetryLaw | src/internal/Channel/Reliability/ReliableLink.cpp:475-483 | a lane that refused a message tries again if and only if there is room for that message now |
| LinkRuns.RunKeeps | src/internal/Channel/Reliability/ReliableLink.cpp:336-354 | in every run of one link, with arbitrary packets and any mix of peeks with and without commits: each packet in flight is either marked lost and once in the queue of its lane, or unmarked and in the transmission log under its latest transmission; on-the-wire counts are exact; the front of the log is live; the log is in the order of transmission and send time; probe and stall clocks run exactly when they must; the congestion window stays in [8, 256] with at most 256 packets under it |
| LinkRuns.StepKeeps | src/internal/Channel/Reliability/ReliableLink.cpp:361-401 | each single operation keeps all of that |
| LinkLedger.PeekLaneKeeps | src/internal/Channel/Reliability/ReliableLink.cpp:152-197 | a peek changes nothing in flight, on the wire or in the log, and a datagram on offer is one commit will find |
| LinkLedger.CommitLaneKeeps | src/internal/Channel/Reliability/ReliableLink.cpp:216-255 | a commit that follows its peek keeps the ledger, for a retransmission and for a new fragment |
| LinkLedger.SweepKeeps | src/internal/Channel/Reliability/ReliableLink.cpp:609-631 | a scan that stops at the first record it keeps leaves no packet of any lane behind that it looks for |
| LinkLedger.HandleAckKeeps | src/internal/Channel/Reliability/ReliableLink.cpp:503-574 | whatever an Ack claims: the ledger stays right and nothing unmarked is left three or more transmissions behind the largest acknowledged one (section 6.1.1 of RFC 9002) |
| LinkLedger.AckReleasesNamed | src/internal/Channel/Reliability/ReliableLink.cpp:522-558 | an Ack releases exactly the packets in flight that it names, and the largest transmission remembered is theirs |
| LinkLedger.TimedOutKeeps | src/internal/Channel/Reliability/ReliableLink.cpp:714-750 | after the timer no unmarked packet is overdue |
| LinkLedger.LossDeadlineExact | src/internal/Channel/Reliability/ReliableLink.cpp:764-771 | the one lookup at the front of the log gives the minimum over all unmarked packets of send time plus timeout, and none exactly when there is no such packet |
| LinkLedger.NothingBeforeDeadline | src/internal/Channel/Reliability/ReliableLink.cpp:754-795 | before the next deadline the timer changes nothing |
| LinkLedger.UnackedHasDeadline | src/internal/Channel/Reliability/ReliableLink.cpp:670-679 | unacknowledged data always has a deadline; packets on paused lanes alone never start the stall clock that fails the link |
| LinkRuns.RunReductionsSeparated | src/internal/Channel/Reliability/ReliableLink.cpp:634-649 | in every run an operation reduces the window at most once, to max(cwnd / 2, 8), and any two reductions are separated by a lost transmission that was sent after the first of them |
| LinkRuns.GrowthPerWindow | src/internal/Channel/Reliability/ReliableLink.cpp:571-573 | in every run, with arbitrary packets and any losses in between: while its Acks count at most a window of packets, the window ends at most one above where it began |
| LinkRuns.RunGains | src/internal/Channel/Reliability/ReliableLink.cpp:571-573 | in every run whose Acks count at most the first window, whatever was lost in between: the growth times the first window is at most what they counted |
| LinkRuns.RunGrows | src/internal/Channel/Reliability/ReliableLink.cpp:571-573 | the same in every run without a halving, however much its Acks count |
| LinkRuns.RunNeverShrinks | src/internal/Channel/Reliability/ReliableLink.cpp:634-649 | a run without a halving does not shrink the window |
| LinkRuns.StepWindow | src/internal/Channel/Reliability/ReliableLink.cpp:336-574 | of the window, every operation of a link: losses halve it or leave it, and without losses it is min(cwnd + n / cwnd, 256), n the packets an Ack counts and 0 for everything else |
| LinkRuns.RunSquares | src/internal/Channel/Reliability/ReliableLink.cpp:571-573 | in every run without losses: the window is at 256, or its square grew by at least two for each packet its Acks counted |
| LinkRuns.GrowsPerWindow | src/internal/Channel/Reliability/ReliableLink.cpp:571-573 | in every run without losses whose Acks count at least a window of w packets: it ends at 256, or at least 1 - 1 / 2w above where it began |
| AckOrder.PauseIsLatest | src/internal/Channel/Reliability/ReliableLink.cpp:509-515 | two new links over any network, in every run: the k-th Ack an end builds decodes and carries the serial k modulo 2^32, and a lane of the other end is paused as the latest-built Ack says of those that arrived, in whatever order they did (section 3.2 of RFC 1982, while no Ack comes 2^31 places off) |
| AckOrder.PauseIsLatestEver | src/internal/Channel/Reliability/ReliableLink.cpp:509-515 | every run can be followed that way: each Ack that arrives is one that was built; without a condition on the order while at most 2^31 Acks were built |
| AckOrder.StepHistory | src/internal/Channel/Reliability/ReliableLink.cpp:118-125 | whatever an end of the system does, the Acks it built decode and stay numbered without gaps, and it sends no others |
| AckOrder.AnswersGoOut | src/internal/Channel/Reliability/ReliableLink.cpp:84-115 | what was built goes out in its order, each packet once, and nothing new is built before |
| LinkPause.StepPause | src/internal/Channel/Reliability/ReliableLink.cpp:503-515 | no operation but an Ack with a newer serial changes the pause of a lane |
| LinkPause.SerialOrder | src/internal/Channel/Reliability/ReliableLink.cpp:510-510 | the signed 32-bit difference of serials orders the counts they stand for |
| LinkPause.PauseAnnounced | src/internal/Channel/Reliability/ReliableLink.cpp:577-590 | a change of the pause is told on every data lane that exists, whatever Acks wait by then and whatever happens next: the first Acks built afterwards carry the pause of their time, or that a message was refused |
| ReliableLink.ReliableLink.constructor | src/internal/Channel/Reliability/ReliableLink.cpp:55-59 | a new link is the initial state of the model |
| ReliableLink.ReliableLink.NextLost | src/internal/Channel/Reliability/ReliableLink.cpp:270-282 | the loop leaves the queue of lost seqs from its first live entry on |
| ReliableLink.ReliableLink.Peek | src/internal/Channel/Reliability/ReliableLink.cpp:152-213 | the datagram, the state and whether a message was drawn are those of the model: on offer is exactly what PeekLaw says, and nothing on a lane that is paused |
| ReliableLink.ReliableLink.Commit | src/internal/Channel/Reliability/ReliableLink.cpp:216-255 | step by step, the state of the model after a commit |
| ReliableLink.ReliableLink.Transmit | src/internal/Channel/Reliability/ReliableLink.cpp:336-354 | one entry goes out, is logged and restarts the clocks as the model says |
| ReliableLink.ReliableLink.AcceptInOrder | src/internal/Channel/Reliability/ReliableLink.cpp:441-459 | takes the packet or refuses it for lack of room, as the model says |
| ReliableLink.ReliableLink.DrainReorderBuffer | src/internal/Channel/Reliability/ReliableLink.cpp:462-472 | the loop empties the reorder buffer up to the first gap or refusal |
| ReliableLink.ReliableLink.RetryRefused | src/internal/Channel/Reliability/ReliableLink.cpp:475-483 | the refused message has its turn, and the lane is answered |
| ReliableLink.ReliableLink.HandleData | src/internal/Channel/Reliability/ReliableLink.cpp:404-438 | the inbound half and the lanes to answer are those of the model |
| ReliableLink.ReliableLink.HandleMedia | src/internal/Channel/Reliability/ReliableLink.cpp:486-500 | the inbound half after a Media packet is that of the model |
| ReliableLink.ReliableLink.DetectLosses | src/internal/Channel/Reliability/ReliableLink.cpp:609-631 | the loop over the front of the log is the sweep of the model, and says whether it marked anything |
| ReliableLink.ReliableLink.MarkLost | src/internal/Channel/Reliability/ReliableLink.cpp:634-649 | marks, queues and reduces the window at most once per round |
| ReliableLink.ReliableLink.SetPeerPaused | src/internal/Channel/Reliability/ReliableLink.cpp:652-667 | pause, probe interval and probe time of the model |
| ReliableLink.ReliableLink.UpdateProgressClock | src/internal/Channel/Reliability/ReliableLink.cpp:670-679 | the stall clock of the model |
| ReliableLink.ReliableLink.ReleaseNamed | src/internal/Channel/Reliability/ReliableLink.cpp:522-558 | the loops over the cumulative seq and the ranges release what the model releases, with counts and the Karn sample |
| ReliableLink.ReliableLink.HandleAck | src/internal/Channel/Reliability/ReliableLink.cpp:503-574 | the outbound half after an Ack is that of the model, and all of what AckLaw says about flight, losses, window, times and pause holds of the fields |
| ReliableLink.ReliableLink.OnPacket | src/internal/Channel/Reliability/ReliableLink.cpp:361-401 | the link after any packet is that of the model and what ReceiveLaw says, and keeps its invariant |
| ReliableLink.ReliableLink.MakeAck | src/internal/Channel/Reliability/ReliableLink.cpp:118-149 | collects, sorts and encodes what waits: the Ack of the model |
| ReliableLink.ReliableLink.PeekAck | src/internal/Channel/Reliability/ReliableLink.cpp:84-108 | builds exactly what is due when nothing built before waits, lane by lane, and offers the first of it |
| ReliableLink.ReliableLink.SetPaused | src/internal/Channel/Reliability/ReliableLink.cpp:577-590 | the remote is told on every acknowledged data lane that exists |
| ReliableLink.ReliableLink.ExpireOverdue | src/internal/Channel/Reliability/ReliableLink.cpp:716-735 | the timer loop over the front of the log is the sweep of the model by time |
| ReliableLink.ReliableLink.OnTimer | src/internal/Channel/Reliability/ReliableLink.cpp:696-751 | the link after the timer is that of the model and what TimerLaw says: failure, keep-alive, expiry, backoff, probes and the Pings that become due; the invariant is kept |
| ReliableLink.ReliableLink.NextDeadline | src/internal/Channel/Reliability/ReliableLink.cpp:754-795 | the running minimum is the deadline of the model |
| ReliableLink.ReliableLink.Fail | src/internal/Channel/Reliability/ReliableLink.cpp:682-689 | everything of the streams is gone, reserved memory is given back, deliveries stay |
| ReliableLink.ReliableLink.ResetStreams | src/internal/Channel/Reliability/ReliableLink.cpp:845-867 | the streams, the log and the queues start over |
| ReliableLink.ReliableLink.HasPending | src/internal/Channel/Reliability/ReliableLink.cpp:826-833 | when nothing is pending on a lane of a sound ledger, nothing of it is on the wire, waits to be sent again, or makes a timer run |
| ReliableLink.ReliableLink.Supervise | src/internal/Channel/Reliability/ReliableLink.cpp:77-81 | without a stall the remote is given up exactly once it was silent for the peer timeout from then on |
| ReliableLink.ReliableLink.TakeDelivered | src/internal/Channel/Reliability/ReliableLink.h:159-159 | hands out what was delivered, in order, and keeps nothing |
| PacketHeader.PacketRoundTrip | src/internal/Channel/Protocol/PacketHeader.h:137-254 | every well-formed packet encodes to at most 1200 bytes and decodes back to itself, less the fields that do not travel |
| PacketHeader.PacketRewrite | src/internal/Channel/Protocol/PacketHeader.h:151-254 | re-encoding any datagram the decoder accepts gives the same bytes |
| PacketHeader.EncodeHeader | src/internal/Channel/Protocol/PacketHeader.h:103-134 | the buffer starts with the encoding, the rest of it is left alone, and the size is returned |
| PacketFlags.RawRoundTrip | src/internal/Channel/Protocol/PacketFlags.h:69-84 | flags survive their packing into a byte |
| PacketFlags.FromRawRoundTrip | src/internal/Channel/Protocol/PacketFlags.h:69-84 | every byte is the packing of what it unpacks to |
| ByteOrder.RoundTrip16 | src/internal/Channel/Protocol/ByteOrder.h:15-43 | a 16-bit value survives writing and reading |
| ByteOrder.RoundTrip32 | src/internal/Channel/Protocol/ByteOrder.h:22-49 | a 32-bit value survives writing and reading |
| ByteOrder.RoundTrip64 | src/internal/Channel/Protocol/ByteOrder.h:31-55 | a 64-bit value survives writing and reading |
| AckRanges.AckRoundTrip | src/internal/Channel/Protocol/AckRanges.h:58-101 | an Ack body decodes to what was encoded, cut to the ranges that fit |
| AckRanges.RangesRewrite | src/internal/Channel/Protocol/AckRanges.h:78-101 | every list of ranges the decoder accepts encodes back to the same bytes |
| AckRanges.RangesCover | src/internal/Channel/Protocol/AckRanges.h:104-126 | the ranges cover exactly the seqs of the input |
| AckRanges.FewestRanges | src/internal/Channel/Protocol/AckRanges.h:104-126 | no list of ranges that covers the same seqs is shorter |
| AckRanges.RangesNormal | src/internal/Channel/Protocol/AckRanges.h:104-126 | the ranges ascend, and two of them touch only where the count of the first is at its limit |
| AckRanges.ToRanges | src/internal/Channel/Protocol/AckRanges.h:104-126 | the loop over the sorted seqs gives the ranges of the set they form, whatever their order and however often they came |
| AckRanges.Sort | src/internal/Channel/Protocol/AckRanges.h:111-112 | sorted, with the same seqs |
| SequenceBuffer.NoEviction | src/internal/Channel/Queue/SequenceBuffer.h:30-41 | while all live seqs lie in one window of the capacity, an insert evicts none of them |
| SequenceBuffer.MaskIsIndex | src/internal/Channel/Queue/SequenceBuffer.h:112-112 | for every capacity that is a power of two, masking a seq bit by bit with one less gives its slot |
| SequenceBuffer.WindowMasks | src/internal/Channel/Queue/SequenceBuffer.h:112-112 | so for the window of every lane |
| SequenceBuffer.SequenceBuffer.Insert | src/internal/Channel/Queue/SequenceBuffer.h:30-41 | the contents are the map with the entry, less whatever shared its slot; size is the number of entries |
| SequenceBuffer.SequenceBuffer.Find | src/internal/Channel/Queue/SequenceBuffer.h:43-53 | finds an entry exactly if the map has it |
| SequenceBuffer.SequenceBuffer.Take | src/internal/Channel/Queue/SequenceBuffer.h:58-68 | returns the entry of the map and removes it |
| SequenceBuffer.SequenceBuffer.Seqs | src/internal/Channel/Queue/SequenceBuffer.h:95-103 | visits every seq of the map |
| Fragments.FragmentJoins | src/internal/Channel/Reliability/ReliableLink.cpp:292-306 | the fragments of a message, each of the fixed size but the last, join to its body |
| MessageAssembler.AcceptFragment | src/internal/Channel/Fragmentation/MessageAssembler.cpp:18-69 | taking the fragments of a message one by one builds exactly the message |
| MessageAssembler.AcceptAccounts | src/internal/Channel/Fragmentation/MessageAssembler.cpp:26-83 | any packet, well formed or not, changes the budget by exactly what the stream reserves |
| MessageAssembler.BudgetExact | src/internal/Channel/Fragmentation/MessageAssembler.h:30-52 | in every run over any streams that share a budget: it equals the sum of the lengths announced by the messages in progress and never exceeds its limit |
| MessageAssembler.RoomMeansTaken | src/internal/Channel/Fragmentation/MessageAssembler.h:68-68 | a first fragment that there is room for is never dropped |
| MessageAssembler.MismatchDrops | src/internal/Channel/Fragmentation/MessageAssembler.cpp:18-69 | a fragment that does not continue the message in progress, and a start that is too long, miscounted or without room, end it: nothing comes out and nothing stays reserved |
| MessageAssembler.MessageAssembler.TakePacket | src/internal/Channel/Fragmentation/MessageAssembler.cpp:18-69 | the fields and the shared budget after a packet are those of the model |
| MessageAssembler.MessageAssembler.Reset | src/internal/Channel/Fragmentation/MessageAssembler.cpp:72-83 | the memory reserved goes back to the budget |
| MediaAssembler.AcceptMediaIntegrity | src/internal/Channel/Fragmentation/MediaAssembler.cpp:18-67 | from fragments in any order, repeated, interleaved and under eviction, only messages that were sent come out |
| MediaAssembler.MediaComesOut | src/internal/Channel/Fragmentation/MediaAssembler.cpp:18-108 | as long as the fragments that arrive belong to no more than four messages, in any order, repeated and interleaved: every message all of whose fragments arrived came out |
| MediaAssembler.EvictionLaw | src/internal/Channel/Fragmentation/MediaAssembler.cpp:76-108 | with all slots taken by other messages, a message takes the place of the oldest one, which is counted as abandoned, and one older than all of them gets none; otherwise nothing is abandoned |
| MediaAssembler.MediaAssembler.Take | src/internal/Channel/Fragmentation/MediaAssembler.cpp:18-67 | the slots after a packet and the message it completes are those of the model |
| MediaAssembler.MediaAssembler.FindSlot | src/internal/Channel/Fragmentation/MediaAssembler.cpp:76-108 | its own slot, a free one, or the oldest one if that is older |
| RttEstimator.TimeoutBounds | src/internal/Channel/Reliability/RttEstimator.h:58-65 | the timeout of the n-th attempt is min(RTO * 2^n, maxRto) and never shrinks with n (section 5 of RFC 6298) |
| RttEstimator.SamplesBound | src/internal/Channel/Reliability/RttEstimator.h:27-47 | after any measurements the smoothed time lies among them and the timeout within its bounds (sections 2.2 to 2.4 of RFC 6298) |
| RttEstimator.SampleLaw | src/internal/Channel/Reliability/RttEstimator.h:27-47 | the smoothed time is 7/8 of itself and 1/8 of the measurement, the variation 3/4 of itself and 1/4 of the distance before, rounded down, and the timeout is the first plus four times the second or a millisecond, within its bounds; a negative measurement changes nothing (sections 2.2 and 2.3 of RFC 6298) |
| RttEstimator.RttEstimator.Timeout | src/internal/Channel/Reliability/RttEstimator.h:58-65 | the loop that stops doubling at the maximum gives the closed form |
| RttEstimator.RttEstimator.Add | src/internal/Channel/Reliability/RttEstimator.h:27-47 | all of SampleLaw; the smoothed time moves towards the measurement and not past it, and the timeout stays at least a millisecond above it and within its bounds |
| MessageAssembler.AssemblyBudget.Reserve | src/internal/Channel/Fragmentation/MessageAssembler.h:37-44 | reserves exactly if it fits, and keeps to the limit |
| MessageAssembler.AssemblyBudget.Release | src/internal/Channel/Fragmentation/MessageAssembler.h:46-46 | undoes a reservation: what fitted before fits together with what was given back, and the budget stays within its limit |
| MediaAssembler.MediaAssembler.PutInto | src/internal/Channel/Fragmentation/MediaAssembler.cpp:34-67 | the fragment goes to its place; a complete message leaves and frees its slot |
| SendScheduler.TokensConserved | src/internal/Channel/SendScheduler.h:72-85 | over any history: spent plus tokens left is at most the tokens at first plus the rate times the time since the first refill, is at least the lesser of that and the burst, and the tokens never exceed the burst |
| SendScheduler.NewConserves | src/internal/Channel/SendScheduler.h:55-85 | a new scheduler has sent at most its burst and what the time since its first refill earned, and what it did not send of its burst is there |
| SendScheduler.RefillLaw | src/internal/Channel/SendScheduler.h:72-78 | with the last refill at t, a refill at a later time leaves min(burst, tokens + rate * (now - t) / 10^6) tokens; the first one, and one that is not later, only sets the clock |
| SendScheduler.TokensReturn | src/internal/Channel/SendScheduler.h:70-78 | over any history in which nothing is spent: as soon as the rate times the time passed makes up for what is missing to one token, there is one again |
| SendScheduler.NewLaw | src/internal/Channel/SendScheduler.h:55-65 | a new bucket is full and holds what the rate earns in two milliseconds, but not less than 16 |
| SendScheduler.MediaGetsShare | src/internal/Channel/SendScheduler.h:119-161 | Media that is left waiting after a run while there are tokens got, up to one datagram, three quarters of the tokens if Reliable or Bulk waited too, and all of them otherwise |
| SendScheduler.TurnLaw | src/internal/Channel/SendScheduler.h:134-160 | a turn is four datagrams, and ends early with a lost one or when the peer has nothing left, which then leaves the ring; the turn passes to the peer behind it; a blocked socket changes nothing |
| SendScheduler.CostLaw | src/internal/Channel/SendScheduler.h:134-160 | a datagram costs a token whether it was sent or lost, and one of Media one of the share of Media; an empty turn costs nothing, and a blocked socket ends the run |
| SendScheduler.RunAccounts | src/internal/Channel/SendScheduler.h:119-161 | a run spends exactly what its turns cost and takes the tokens below zero in none of them |
| SendScheduler.MediaShare | src/internal/Channel/SendScheduler.h:122-124 | Media takes at most three quarters of the tokens at the start of a run while Reliable or Bulk waits |
| SendScheduler.RunIsThorough | src/internal/Channel/SendScheduler.h:119-161 | a run ends only with the socket blocked, a limited budget below one token, or nothing waiting but Media at its cap |
| SendScheduler.RoundRobinFair | src/internal/Channel/SendScheduler.h:119-175 | two peers that stay in a lane and always have something to send are served within a quantum of each other over any history of runs, joins and removals, as long as no removal hands one of them the rest of a turn |
| SendScheduler.ServedUpToHanded | src/internal/Channel/SendScheduler.h:88-167 | with every removal allowed: the same once the parts of turns that removals and joins handed to either of them are counted |
| SendScheduler.LeaveKeepsExactly | src/internal/Channel/SendScheduler.h:90-104 | a removal keeps the lead of one peer over another if and only if it does not cut a turn short that one of the two takes over, wherever in the ring that is |
| SendScheduler.RingsStayOk | src/internal/Channel/SendScheduler.h:88-103 | in every history without double adds, whatever is removed when: no peer is in a ring twice and no turn exceeds its quantum |
| SendScheduler.OpensExactly | src/internal/Channel/SendScheduler.h:90-104 | a removal leaves a started turn to the first of the ring if and only if the last one is removed in the middle of its turn |
| SendScheduler.StaysClosed | src/internal/Channel/SendScheduler.h:90-104 | in every history without that the first of the ring always has a whole turn |
| SendScheduler.MidTurnShifts | src/internal/Channel/SendScheduler.h:90-103 | a peer removed in the middle of its turn hands what it used up to the next one around the ring, which loses as much |
| SendScheduler.RemoveMidTurnUnfair | src/internal/Channel/SendScheduler.h:90-103 | from a new scheduler on: three peers join, one is removed in the middle of its turn, and the two that stay and always send are at 8 against 1 |
| SendScheduler.RunThins | src/internal/Channel/SendScheduler.h:152-155 | a run takes from the rings exactly the peers that had nothing to send |
| SendScheduler.SendScheduler.RunWith | src/internal/Channel/SendScheduler.h:119-161 | the nested loops give the rings, the tokens and the turns of the model |
| SendScheduler.SendScheduler.RefillAt | src/internal/Channel/SendScheduler.h:72-78 | the tokens are min(burst, tokens + rate * (now - t) / 10^6), with t the last refill before now, and unchanged without one |
| SendScheduler.SendScheduler.RemovePeer | src/internal/Channel/SendScheduler.h:90-103 | the loop over the rings takes the peer out of each of them, and the rings stay sound |
| SendScheduler.SendScheduler.constructor | src/internal/Channel/SendScheduler.h:54-65 | a full bucket of the burst the rate stands for |
| SendScheduler.SendScheduler.SpendOn | src/internal/Channel/SendScheduler.h:81-85 | the account stays balanced: what was spent and what is left make up what was there |
| SendScheduler.SendScheduler.AddPeer | src/internal/Channel/SendScheduler.h:88-88 | the rings stay sound, and the lead of no peer over another changes unless a started turn was left open |
| Mailbox.RunOk | src/internal/Channel/Mailbox.h:138-243 | in every run of the monitor: acknowledged lanes are first in, first out, Media keeps its newest messages in order, byte counts are exact, what is done is acknowledged, and no command or peer waits while the doorbell is silent |
| Mailbox.QueuesExact | src/internal/Channel/Mailbox.h:337-358 | from construction on: an acknowledged lane of an open session holds exactly what it accepted and did not hand out, with exact bytes, and the doorbell rang while anything waits |
| Mailbox.TakenIsNext | src/internal/Channel/Mailbox.h:337-358 | the link is handed the messages of an acknowledged lane in the order they were accepted |
| Mailbox.FlushMeansAcknowledged | src/internal/Channel/Mailbox.h:224-243 | a flush that succeeds within its session: every Reliable and Bulk message accepted before it was acknowledged |
| FlushDelivery.FlushMeansDelivered | src/internal/Channel/Mailbox.h:224-243 | mailbox, link, network and the other end together, in every run, with settling as early as at NetworkEngine.cpp:1094: a flush that succeeds within its session means every packet of every Reliable and Bulk message accepted before it is at the other end, and these messages were delivered there in order and byte for byte unless that end is refusing one of the lane |
| FlushDelivery.JointStepOk | src/internal/Engine/NetworkEngine.cpp:1094-1094 | pushes, takes, turns of either link and settling, which asks for idle data lanes and nothing else, keep the two in step: what the link drew is a prefix of what the mailbox accepted on the lane, and what the mailbox counts as acknowledged is never in flight again |
| FlushDelivery.GoneStep | src/internal/Channel/Reliability/ReliableLink.cpp:216-255 | whatever a link does next, a seq that left the flight never comes back into it |
| FlushDelivery.OpenedJoint | src/internal/Channel/Mailbox.h:388-395 | a session that was just opened, on a link that drew nothing yet, is in step |
| Mailbox.SettledBoxOk | src/internal/Engine/NetworkEngine.cpp:484-487 | settling while the link has nothing pending: everything accepted so far is acknowledged |
| Mailbox.NoLostWakeUp | src/internal/Channel/Mailbox.h:317-335 | a peer with a new message stays listed, with the doorbell rung, until the I/O thread drains or its session is closed |
| Mailbox.RingsWhenIdle | src/internal/Channel/Mailbox.h:452-474 | the doorbell rings only when nothing was waiting, and work never waits without it |
| Mailbox.RunBounded | src/internal/Channel/Mailbox.h:157-159 | no acknowledged lane holds more than the limit, but for a single larger message |
| Mailbox.PushLaw | src/internal/Channel/Mailbox.h:138-162 | in every state the mailbox can get into: too large, stopped, closed, and otherwise taken if and only if the lane is Media, nothing waits on it, or the bytes accepted on it and not taken yet leave room under the limit |
| Mailbox.LatePushLaw | src/internal/Channel/Mailbox.h:166-184 | the same of a push that waited, in the session it waited for only |
| Mailbox.EachTakes | src/internal/Channel/Mailbox.h:192-221 | a push to everyone: each peer with an open session and room takes the message once, and nothing changes for the others |
| Mailbox.TakersCounted | src/internal/Channel/Mailbox.h:192-221 | and the answer is how many took it |
| Mailbox.RunTold | src/internal/Channel/Mailbox.h:245-258 | in every run a session is told as connected while it is open, and as pending once it is sealed |
| Mailbox.SettleLaw | src/internal/Channel/Mailbox.h:362-385 | a session is settled if and only if its link took everything it accepted on Reliable and Bulk, and then all of it counts as done; one that is closed always is |
| Mailbox.LateStaysInSession | src/internal/Channel/Mailbox.h:162-184 | a push that waited reaches the session it waited for or none: no other box and no other log changes |
| MailboxWaiting.WakesExactly | src/internal/Channel/Mailbox.h:166-172 | of a push or flush that has to wait: an action lets it go on without notifying it if and only if it raises the limit far enough, or opens a session in place of its own |
| MailboxWaiting.SleepersWait | src/internal/Channel/Mailbox.h:235-240 | no wake-up is lost, over any run: a thread that looked, found that it has to wait, and was not notified since still has to wait, unless one of those two happened |
| MailboxWaiting.RaisedLimitUnheard | src/internal/Channel/Mailbox.h:105-109 | from a new mailbox on: a push waits for room, the limit is raised, and nothing wakes it |
| Mailbox.Mailbox.EnqueueMail | src/internal/Channel/Mailbox.h:452-474 | queue, counts, list and doorbell of the model |
| Mailbox.Mailbox.PushMail | src/internal/Channel/Mailbox.h:138-189 | the answer and the state of the model; taken if and only if it is not too large, the mailbox runs, and the session of the peer is open and has room |
| Mailbox.Mailbox.PushToEach | src/internal/Channel/Mailbox.h:192-221 | the loop over the peers gives the state, the count and the doorbell of the model, and counts exactly those whose session takes it |
| Mailbox.Mailbox.DrainWork | src/internal/Channel/Mailbox.h:317-335 | hands out all commands and listed peers and unlists them |
| Mailbox.Mailbox.SettleBox | src/internal/Channel/Mailbox.h:362-385 | done is moved up to accepted exactly if nothing waits on Reliable and Bulk |
| Mailbox.Mailbox.TakeMail | src/internal/Channel/Mailbox.h:337-358 | the oldest message of the lane, if there is one |
| Mailbox.Mailbox.PostCommand | src/internal/Channel/Mailbox.h:126-135 | the command waits, the histories stay sound, and the doorbell rings only when nothing else waited |
| Mailbox.Mailbox.PushAfterWait | src/internal/Channel/Mailbox.h:162-184 | the second half of a push that waited: taken if and only if the session it waited for is still open and has room |
| Mailbox.Mailbox.BeginFlush | src/internal/Channel/Mailbox.h:226-233 | the ticket counts exactly the acknowledged messages the session accepted so far |
| Mailbox.Mailbox.IsFlushed | src/internal/Channel/Mailbox.h:242-242 | within the session of the ticket, true means that every Reliable and Bulk message it counts was acknowledged |
| Mailbox.Mailbox.SealBox | src/internal/Channel/Mailbox.h:246-261 | every later push is refused, what waits on acknowledged lanes stays, and the histories stay sound |
| Mailbox.Mailbox.OpenBox | src/internal/Channel/Mailbox.h:388-395 | every earlier flush of the peer is over, everything that is not too large is taken, and the histories stay sound |
| Mailbox.Mailbox.CloseBox | src/internal/Channel/Mailbox.h:398-408 | every flush of the peer is over, every push is refused, the peer is listed no more, and other sessions are as they were |
| Mailbox.Mailbox.SetRunningTo | src/internal/Channel/Mailbox.h:111-118 | a stop wakes everyone, and nobody has to wait any longer |
| Mailbox.Mailbox.SetQueueBytesTo | src/internal/Channel/Mailbox.h:105-109 | a new limit wakes nobody |
| EngineTrace.EventsInOrder | include/NetLink/NetLink.h:139-141 | in every run of an engine and for every peer: between a Connected and the next Disconnected neither a second Connected nor a ConnectionRequest, Message only between the two, and no session record is told to have ended twice |
| EngineTrace.WellFormedMeans | include/NetLink/NetLink.h:139-141 | what that order means event by event: before every Message the peer was connected and not disconnected since; before every Connected and ConnectionRequest each earlier Connected was followed by a Disconnected |
| EngineTrace.StepOk | src/internal/Engine/NetworkEngine.cpp:1020-1151 | each action keeps the order of events and its agreement with the session records |
| EngineOutcomes.RunKeepsOutcomes | src/internal/Engine/NetworkEngine.cpp:1203-1219 | over every run without the Hello below: a session the application knows of is still there to be reported, if only as the record that took over, or its Disconnected was emitted |
| EngineOutcomes.NothingOwedWhenGone | src/internal/Engine/NetworkEngine.cpp:1222-1232 | a known session whose record is gone was reported |
| EngineOutcomes.HelloKeepsExactly | src/internal/Engine/NetworkEngine.cpp:893-936 | a Hello keeps every outcome if and only if it does not cross an own, unreported request while so many other sessions are pending that the limit leaves no room for the answer |
| EngineOutcomes.CrossingDropsOutcome | src/internal/Engine/NetworkEngine.cpp:909-915 | a run of an engine from its start, all of whose actions are allowed, loses an outcome: 65 connects, and one of the peers asks back |
| EngineOutcomes.ConnectAnsweredExactly | src/internal/Engine/NetworkEngine.cpp:562-592 | a connect is answered at once or has an outcome due if and only if the engine is not shutting down and has no record of the peer but one that said goodbye, or an outcome was due already |
| EngineOutcomes.ConnectIsAnswered | include/NetLink/NetLink.h:155-156 | such a connect was told an outcome by the time its session is gone, in every run without the Hello that HelloKeepsExactly names |
| EngineOutcomes.ConnectUnanswered | src/internal/Engine/NetworkEngine.cpp:566-580 | a single connect that no event ever follows: its peer had been accepted without a question, and the link fails |
| EngineIndexes.IndexesAgree | src/internal/Engine/NetworkEngine.cpp:1222-1258 | after every action of every run: the stream index is exactly the inverse of the stream IDs of the peers, a peer is in the ring of a lane exactly once or not at all as its bit says, mailboxes are open exactly for sessions that transfer data, and there are at most 256 sessions |
| EngineIndexes.SweepIndexes | src/internal/Engine/NetworkEngine.cpp:493-498 | the sweep removes exactly the sessions that ended, leaves all others as they were, tells nothing, and keeps the indexes in agreement |
| EngineIndexes.SendDataIndexes | src/internal/Engine/NetworkEngine.cpp:1326-1353 | a send run clears exactly the bits of the peers that leave the rings |
| NetworkEngine.NetworkEngine.Perform | src/internal/Engine/NetworkEngine.cpp:522-559 | every action, as the loops and assignments of the source perform it, is the step of the model and keeps order and indexes |
| NetworkEngine.NetworkEngine.ReportOutcome | src/internal/Engine/NetworkEngine.cpp:1203-1209 | the outcome of an announced session is told by the time it returns, once; order of events and indexes are kept |
| NetworkEngine.NetworkEngine.EndPeer | src/internal/Engine/NetworkEngine.cpp:1212-1219 | ending a session whose outcome was told keeps the order of events and the indexes |
| NetworkEngine.NetworkEngine.Connect | src/internal/Engine/NetworkEngine.cpp:1143-1151 | a connecting session is up for the application, its mailbox was closed and is open, and all invariants are kept |
| NetworkEngine.NetworkEngine.AcceptPeer | src/internal/Engine/NetworkEngine.cpp:1154-1165 | an Accept to a session that is not open keeps all invariants and does not open it |
| NetworkEngine.NetworkEngine.DeclinePeer | src/internal/Engine/NetworkEngine.cpp:1168-1181 | the outcome is told, and goodbye is said |
| NetworkEngine.NetworkEngine.ClosePeer | src/internal/Engine/NetworkEngine.cpp:1184-1200 | goodbye is said to a remote that was heard; a session with any other one ends at once |
| NetworkEngine.NetworkEngine.ErasePeer | src/internal/Engine/NetworkEngine.cpp:1222-1232 | no stream, ring, mailbox or record of the peer is left, and all invariants are kept |
| NetworkEngine.NetworkEngine.NewPeer | src/internal/Engine/NetworkEngine.cpp:1242-1258 | the record has a number and a stream no other one has, and all invariants are kept |
| NetworkEngine.NetworkEngine.TakeControl | src/internal/Engine/NetworkEngine.cpp:1104-1140 | what each session message does |
| NetworkEngine.NetworkEngine.LookAtState | src/internal/Engine/NetworkEngine.cpp:1070-1100 | what each state waits for |
| NetworkEngine.NetworkEngine.StartPeer | src/internal/Engine/NetworkEngine.cpp:562-605 | connect: the answer to a request, nothing, a report, or a new record, as in the model |
| NetworkEngine.NetworkEngine.EndPeerSession | src/internal/Engine/NetworkEngine.cpp:608-628 | disconnect in every state |
| NetworkEngine.NetworkEngine.ShutDown | src/internal/Engine/NetworkEngine.cpp:631-649 | every session is reported and told |
| NetworkEngine.NetworkEngine.EndAll | src/internal/Engine/NetworkEngine.cpp:748-761 | every session is reported and everything is cleared |
| NetworkEngine.NetworkEngine.ServeHello | src/internal/Engine/NetworkEngine.cpp:873-937 | checks, crossing, limits and the new record as in the model |
| NetworkEngine.NetworkEngine.Receive | src/internal/Engine/NetworkEngine.cpp:804-852 | the peer is found by its stream, and data before the Accept is settled connects it |
| NetworkEngine.NetworkEngine.AdvancePeer | src/internal/Engine/NetworkEngine.cpp:1020-1101 | failure, deliveries and the state of the session as in the model; of a session that transfers data the events begin with exactly one Message for each data message before the first goodbye, in order, and no other Message follows |
| NetworkEngine.NetworkEngine.TakeDelivered | src/internal/Engine/NetworkEngine.cpp:1032-1066 | the loop over the deliveries gives the state of the model: one Message for each data message before the first goodbye if the session transfers data, none if it neither does nor asked, and its outcome with the goodbye |
| EngineLaws.AdvanceOpen | src/internal/Engine/NetworkEngine.cpp:1020-1101 | a session that transfers data and is neither over nor reported: the events added are one Message for each data message before the first goodbye, in order and with its lane, then its outcome if there was a goodbye; nothing else happens but what is due to its state |
| EngineLaws.AdvanceAsking | src/internal/Engine/NetworkEngine.cpp:1104-1140 | a session that asked: whatever comes before the answer is ignored, an Accept connects it, tells the application and opens its mailbox, and what came behind the Accept counts; a Decline or a goodbye ends it and tells |
| EngineLaws.AdvanceDeaf | src/internal/Engine/NetworkEngine.cpp:1040-1043 | a session that neither transfers data nor asked adds no Message, and ends with the first goodbye |
| EngineLaws.AdvanceFailed | src/internal/Engine/NetworkEngine.cpp:1020-1030 | a session whose link failed is over, and what it owes is told |
| EngineLaws.ProgressLaw | src/internal/Engine/NetworkEngine.cpp:1068-1101 | an accepted session connects once its Accept was acknowledged; a request that expires is declined; a session that closes says goodbye once it is empty or expired, if there is anyone to hear it, and is over when that settled or expired |
| EngineLaws.DisconnectLaw | src/internal/Engine/NetworkEngine.cpp:608-628 | a disconnect: an open session goes on until it is empty, one that waits is left with a goodbye if anything was heard of the remote and is over otherwise, one that closes stays as it is |
| EngineLaws.DecisionLaw | src/internal/Engine/NetworkEngine.cpp:522-559 | an accept or a decline counts exactly while the decision is awaited |
| EngineLaws.ConnectLaw | src/internal/Engine/NetworkEngine.cpp:562-605 | a connect accepts a request of the peer, leaves any other session alone, and otherwise begins a new one, or tells at once that there is none if the peer is unknown, no adapter is bound, or 256 sessions exist |
| EngineLaws.DatagramLaw | src/internal/Engine/NetworkEngine.cpp:804-852 | a datagram for a link leaves the sessions alone, but for data from a remote that was accepted, which connects its session |
| EngineLaws.StrayDatagram | src/internal/Engine/NetworkEngine.cpp:804-852 | a datagram for a link that does not exist, or for none and without a Hello, changes nothing |
| EngineLaws.HelloLaw | src/internal/Engine/NetworkEngine.cpp:873-941 | a Hello from elsewhere: of two that cross the one of the higher ID is answered; otherwise the old record is gone, its outcome told unless the application asked itself; beyond 256 sessions or 64 that are not established nothing follows, and else there is a new one, accepted at once or up to the application |
| EngineLaws.OldHello | src/internal/Engine/NetworkEngine.cpp:873-890 | a Hello that was served belongs to its session; one after a shutdown, one that is not acceptable and one of the own ID are ignored |
| EngineLaws.ScheduleLaw | src/internal/Engine/NetworkEngine.cpp:1311-1322 | the peer joins, behind the others, the ring of every lane it has something for and does not wait in, and no other ring changes |
| EngineLaws.ShutdownLaw | src/internal/Engine/NetworkEngine.cpp:631-653 | a shutdown tells everything that is owed, says or drops every goodbye, and lets no other session begin |
| EngineLaws.EndAllLaw | src/internal/Engine/NetworkEngine.cpp:748-765 | when the adapter is gone nothing is left of the sessions, and every outcome that was owed is told |
| EngineLaws.SendLaw | src/internal/Engine/NetworkEngine.cpp:1326-1353 | a send run of the scheduler; a peer that had nothing when its turn came waits in that ring no longer, and nothing else changes |
| NetworkEngine.NetworkEngine.SchedulePeer | src/internal/Engine/NetworkEngine.cpp:1311-1322 | the loop over the lanes adds the peer where it has something to send |
| NetworkEngine.NetworkEngine.Send | src/internal/Engine/NetworkEngine.cpp:1326-1353 | the send run of the scheduler and the bits it clears |
| NetworkEngine.NetworkEngine.SweepEnded | src/internal/Engine/NetworkEngine.cpp:493-498 | the loop over the ended sessions erases those that did not start over |

## Left out

- Sockets, threads, adapters, the C interface, logging, and the statistics counters of links and peers.
- Discovery, the encodings of Hello, Accept and Decline, and the checks of a Hello: the engine model takes their verdict.
- The exception path of the I/O loop, which drops the events of its step.
- EngineOutcomes.ConnectIsAnswered: repeated calls share a record and its outcome; a call that meets a session the application was not told of gets none, as ConnectUnanswered shows.
- At-most-once delivery on Media: a message all of whose fragments are repeated is delivered twice, so integrity and completeness are stated.
- MediaAssembler.MediaComesOut: for up to four messages in progress at a time, as many as there are slots; a fifth one takes the place of the oldest.
- Delivery times and throughput.
- LinkProgress.NeverStuck: that the turns exist, not that a network takes them or when; a lane that is paused before anything was sent on it, or by an Ack nearly 2^31 Acks old, is not covered, and the 64-bit seqs must not run out.
- LinkTheorems.DeliveredInOrder: for links whose 64-bit sequence numbers do not wrap, and for packets of the other end or of other streams; forged packets are covered by the laws of one link only.
- LinkTheorems.AcksNeverRenege: the same, while neither link failed; a link that failed holds nothing.
- AckOrder.PauseIsLatest: for Acks that arrive less than 2^31 places off the latest one, as serial number arithmetic demands, and while the receiving link did not fail.
- LinkRuns.GrowthPerWindow: for a link that did not fail and whose window is not fixed, like RunSquares and GrowsPerWindow.
- ReliableLink.ReliableLink.HandleAck: what AckLaw says, for a ledger that is right and send times that are not ahead of the clock, which RunKeeps proves of every run.
- ReliableLink.ReliableLink.OnTimer: what TimerLaw says, under the same condition.
- SendScheduler.RoundRobinFair: excludes the removals that LeaveKeepsExactly names; ServedUpToHanded covers them.
- SendScheduler.SendScheduler.RunWith: the answers of the peers are a finite list; one that ends early stands for a blocked socket.
- Mailbox.RunTold: what the mailbox tells by itself; what the engine publishes about sessions that are not open is left out.
- SendScheduler.TokensConserved: without setRate() in between, which starts over.
- Mailbox.FlushMeansAcknowledged: that a settled link acknowledged what it took is a guard of the action; FlushDelivery.FlushMeansDelivered has no such guard: its engine settles when Reliable and Bulk of the modelled link have nothing pending, which is what both places of the source have in common.
- FlushDelivery.FlushMeansDelivered: while neither link failed, as a failed link holds nothing; an end that refuses a message for lack of room holds its packets but delivers later.
- EngineOutcomes.RunKeepsOutcomes: excludes the one Hello that HelloKeepsExactly names.
- The link inside the engine, the assemblers inside the link and the scheduler inside the engine are values, not objects: aliasing between them is not modelled. The shared assembly budget is a value that other links may change between any two operations, in LinkReorder.RunWaits and wherever two links are modelled; the runs of LinkRuns and LinkPause are about the parts of a link that do not use it.
- The two halves of a stream come into being separately; an unused half is in its initial state.
- The presence bits of a Media slot are a set, and visiting a ring returns its seqs instead of erasing some.
- The lists of touched peers and of held back acknowledgements: any peer may be looked at at any time.
