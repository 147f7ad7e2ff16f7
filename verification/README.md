# kcp-peer: a model of the symmetric session protocol

kcp-peer lets any two UDP endpoints talk KCP to each other with no fixed client and server.
Each node maps the canonical address of every peer to a session, which is absent, `SynSent`
under a conversation id, or `Established` under one. SYN, SYN_ACK, RESET and KCP frames,
calls to `send` and `disconnect`, and a periodic tick move the sessions. This project models
that protocol and proves what it keeps over every run.

The layers, from the bottom up:

- `Base`, `Addr`, `Packet`: addresses with their order and canonical form, and the wire format.
- `KcpModel`: KCP as a component with a send queue, a flush that transmits a prefix of the
  queue stamped with the current id and repeats earlier segments, an input that refuses a
  foreign id, completed messages, and a dead-link flag. Whatever KCP decides for itself (how
  much the window admits, which segments are repeated, when the link dies, which messages
  an incoming segment completes, which calls fail) is a `Choice` passed to each call, and
  every theorem holds for all choices.
- `Machine`: one session slot as a step function: `Receive`, `Send`, `Disconnect`, `Tick`.
- `Calls`: the outcome of each of these calls, field by field and datagram by datagram, in terms
  that do not depend on how `Machine` computes it.
- `Node`, `EventLog`: the session map of a node, which is proved to be a product of
  independent machines, and what its events say about it.
- `Sessions`, `Transport`: the classes `Session` and `KcpPeer`, which update their fields in
  place and are proved to compute the functions of `Machine` and `Node`, including the
  loops of the tick, the drain of received messages and shutdown.
- `Network`, `Handshake`, `Restart`, `Convergence`, `Estrangement`, `Recovery`, `Provenance`,
  `Quiescence`: two nodes and the network between them as a transition system.
- `History`, `Timers`: one session over any sequence of calls.
- `Initiation`, `RecvQueue`: the two places where locks matter, one critical section at a time.

## Assumptions

- One call of `handle_incoming`, one tick body, one `send` and one `disconnect` are atomic
  steps, except in `Initiation` and `RecvQueue`.
- Ids that a node draws are new to the system. The source draws them at random from 32 bits
  (`src/transport.rs:289`).
- Each node's local address is the address its peer sees it under, so one of two nodes has
  the greater address (`Addr.ExactlyOneWins`).
- Ages are whole milliseconds, so a timeout is modelled as its whole milliseconds without
  loss. Integers are 32-bit on the wire; the shift of the SYN backoff wraps at 64 bits as in
  a release build, with the shift amount taken modulo 64.
- The order in which a tick meets the sessions of the hash map is a parameter.
- A datagram the socket refuses to send counts as lost by the network. An event is what is
  handed to the event channel, in order.

## Findings

Where the code does not do what its comments or documentation say, the model follows the code.

- Agreement after a simultaneous open needs more than the tie-break. A SYN that reaches a
  session Established under another id is taken for a restart (`src/transport.rs:725-729`),
  also when it is only the lower-address node's own retransmission. `Restart.AgreementExact`
  gives the exact condition over any network while no session is removed: the two nodes
  disagree if and only if a SYN has reached the higher side while it was Established under
  another id and the lower side has received a SYN at all. `Convergence.RepeatedSynDisagrees` is
  a run with nothing lost or reordered that ends so.
- As long as no session is removed such a disagreement is permanent, whatever is sent, lost,
  reordered or repeated (`Restart.DisagreementLasts`). Each side takes the other's frames for
  signs of life, delivers none of them and ignores the other's RESETs
  (`Estrangement.EstrangementLasts`). From any two sides on different ids, one action ends the
  disagreement exactly if it removes a session (a disconnect, a crash, a shutdown, or a tick that
  finds a dead link or an idle session) or repeats an old SYN of the other side's id or an old
  RESET of the receiver's own (`Estrangement.EstrangementExact`).
- Restarts are detected by the conversation id alone. The incarnation number promised by
  `README.md:172-180` is never sent or compared (`Restart.RestartsAreCollisions`).
- The wait before retry `i` is `base * 2^i` (`src/config.rs:39`) only as long as that fits in
  64 bits (`Timers.BackoffDoubles`).
- The idle timeout is documented as "no incoming packets" (`src/config.rs:30`), but a SYN_ACK or
  a RESET of another id does not restart it; KCP frames of any id do, and so does a SYN of the
  session's own id (`Timers.Refreshes`, `Timers.IdleTimeoutExact`).
- `send` on an Established session can return an error although KCP holds the message, queued
  or sent (`src/session.rs:238-243`): `History.SuccessIsTaken` says exactly when.
- Sending again after `DeadLink` does not reconnect, as `src/transport.rs:252-253` says it does,
  until a tick, a disconnect, a RESET of the session's id or a SYN of another one has ended the
  session: `History.DeadLinkSticks`.
- A batch of messages wakes one caller of `recv` (`src/transport.rs:645`). With two callers at
  once one of them can sleep while a message is pending: `RecvQueue.WakeUpsLostIffManyConsumers`.
- `Connected` of an inbound session is fired after the session is mapped, not before
  (`src/transport.rs:42-44`, `src/transport.rs:752-753`): the precondition of
  `Transport.KcpPeer.Fire` makes every event find the map already changed.

## Model

| member | source | states |
|---|---|---|
| Addr.CanonicalizeIdempotent | src/transport.rs:814-826 | a canonical address is its own canonical form |
| Addr.SharedKey | src/transport.rs:814-826 | two addresses share a session exactly when they are equal or name the same IPv4 endpoint |
| Addr.CanonicalForm | src/transport.rs:814-826 | octet by octet: ten zeros and two 0xff turn an IPv6 address into the IPv4 address of its last four octets with the same port; every other address is kept |
| Addr.MappedSharesKey | src/transport.rs:810-826 | an IPv4 address and its mapped IPv6 form, with any flow and scope, have one key |
| Addr.ExactlyOneWins | src/transport.rs:703 | exactly one of two sides finds the other's address greater, if and only if the addresses differ, so the tie-break has one winner |
| Addr.V6Greater | src/transport.rs:703 | every IPv6 address is greater than every IPv4 one |
| Addr.V4Greater | src/transport.rs:703 | of two IPv4 addresses the first differing octet decides which is greater, and then the port |
| Addr.V6Order | src/transport.rs:703 | of two IPv6 addresses the first differing octet decides, then port, flow label and scope |
| Packet.FromByte | src/packet.rs:18-26 | exactly the four type bytes are recognised, each as its own type |
| Packet.EncodeControl | src/packet.rs:31-36 | the buffer built step by step is five bytes: 0, 1, 2 or 3 for the type, then the id with its least significant byte first |
| Packet.WireFormat | src/packet.rs:7-26 | byte by byte: a datagram is a frame, SYN, SYN_ACK or RESET of an id exactly if it starts with 0, 1, 2 or 3 and the four bytes of the id, least significant first; which datagrams are runts and which invalid |
| Packet.EncodeKcpData | src/packet.rs:40-45 | splitting the encoded packet gives back the type and the KCP segment |
| Packet.LeBytesUnique | src/transport.rs:666-668 | four bytes are recovered from the id they decode to |
| Packet.ParseRecovers | src/transport.rs:618-668 | the receive branches see a type and id exactly in datagrams that start with the encoding of that type and id, whatever follows |
| Packet.TruncatedRejected | src/transport.rs:649-665 | a packet of any type without four bytes of id never reaches its branch: control packets are rejected, frames count as runts |
| Machine.ArrivalIsParsed | src/transport.rs:623-668 | the packets of the network model are exactly those their bytes parse to |
| Machine.StepKeepsOk | src/transport.rs:607-808 | after every call the mapped session is open, its KCP block has the session's id, and nothing has been transmitted before it is Established |
| Machine.FramesCarryConv | src/session.rs:228-263 | a call writes frames only for a session Established by then, all under the id that session has by then |
| Calls.FrameTaken | src/transport.rs:630-647 | a well-formed frame of the session's id delivers what it completes, one by one in drain order, under the session's address, and restarts the idle timer |
| Calls.FrameRefused | src/transport.rs:631-632 | any other frame only restarts the idle timer and reports an error |
| Calls.FrameUnknown | src/transport.rs:648-658 | a frame without session is answered by exactly three RESETs of its id to its sender; a runt by nothing |
| Calls.SynAccepted | src/transport.rs:747-754 | a SYN without session opens a fresh Established one, with one SYN_ACK and one Connected, its idle timer starting now |
| Calls.SynRepeated | src/transport.rs:693-700 | a SYN of the own id is acknowledged again if Established and ignored if not |
| Calls.SynRestarts | src/transport.rs:725-729 | a SYN of another id replaces an Established session: PeerRestarted, then Connected |
| Calls.HandshakeReleases | src/transport.rs:701-722 | a completed handshake adopts the id the addresses decide on and at once transmits as much of the queue as the window admits, in order, numbered from 0, under that id, before any SYN_ACK; the rest stays queued |
| Calls.StrayIgnored | src/transport.rs:767-780 | other SYN_ACKs and invalid datagrams change nothing |
| Calls.ResetEnds | src/transport.rs:796-803 | a RESET ends exactly the session of its id, with one Disconnected and nothing written |
| Calls.DisconnectEnds | src/transport.rs:405-416 | a disconnect ends any session with exactly three RESETs of its id and one event, for the address given |
| Calls.SendOpens | src/transport.rs:289-314 | the first send opens a SynSent session under the drawn id, writes one SYN, and leaves the data queued |
| Calls.SendRefused | src/session.rs:231-238 | closed, dead link and refusal are reported in this order and change nothing |
| Calls.SendWaits | src/session.rs:238-239 | before the handshake is complete a message only joins the end of the queue |
| Calls.SendFlushes | src/session.rs:238-243 | on an Established session it is queued and the queue transmitted at once, in order, with the next numbers |
| Calls.TickRetries | src/session.rs:303-326 | a SYN is repeated exactly when the whole wait has passed, the last millisecond included |
| Calls.TickFlushes | src/session.rs:250-263 | a tick drives the KCP block of an Established session and changes nothing else |
| Calls.TickAbandons | src/transport.rs:568-583 | how a SynSent session ends in a tick: what is written before the three RESETs, and one Disconnected |
| Calls.TickPrunes | src/transport.rs:557-583 | how an Established one ends: nothing more is written for a dead link, else KCP is driven once more |
| Sessions.Session.Outbound | src/session.rs:135-168 | a new initiator session is SynSent with both timers at the present and nothing queued or sent |
| Sessions.Session.Inbound | src/session.rs:185-221 | a responder session is Established under the received id and its SYN_ACK is written before it is mapped |
| Sessions.Session.SendSyn | src/session.rs:172-182 | one SYN of the session's id is handed over and the retry timer restarts exactly if the socket takes it |
| Sessions.Session.MarkClosed | src/session.rs:224-226 | only the closed flag changes |
| Sessions.Session.SendData | src/session.rs:230-245 | closed, dead and refusing sessions report their error unchanged; otherwise the data is queued, and flushed if Established |
| Sessions.Session.Update | src/session.rs:250-263 | no effect before Established; a link dead before the flush is reported, then a write error, then a link that died in the flush |
| Sessions.Session.Input | src/session.rs:266-270 | a segment is taken exactly if it is well formed and carries the block's id, else nothing changes |
| Sessions.Session.TryRecvAll | src/session.rs:273-281 | the loop drains every complete message, in order, and leaves none |
| Sessions.Session.MaybeRetrySyn | src/session.rs:286-327 | closed, established, exhausted, waiting and due sessions, each with its outcome, whether a retry was sent, the SYN, and both counters, the timer being read anew after the retry |
| Sessions.Session.Enter | src/transport.rs:705-720 | becoming Established under an id refreshes the timer and releases queued data stamped with that id |
| Sessions.Socket.WriteResets | src/transport.rs:411-413 | the loop writes three RESETs of one id |
| Transport.KcpPeer.InitiateSession | src/transport.rs:280-315 | an existing session is returned with no effect; otherwise one is inserted and its only SYN follows the insertion |
| Transport.KcpPeer.Send | src/transport.rs:262-277 | the new map, events, datagrams and outcome are those of the node model; the map invariant is kept |
| Transport.KcpPeer.Disconnect | src/transport.rs:405-416 | likewise; the removed session is closed |
| Transport.KcpPeer.HandleIncoming | src/transport.rs:607-808 | on any bytes from any address, the new state and outcome are those of the node model on the parsed datagram |
| Transport.KcpPeer.HandleKcpData | src/transport.rs:624-660 | the frame branch: timer, input, ordered drain into the pending queue, or three RESETs of the frame's id |
| Transport.KcpPeer.Feed | src/transport.rs:630-647 | a frame for a session restarts its idle timer even if refused; what it completes is drained, in order, under the session's address |
| Transport.KcpPeer.HandleSyn | src/transport.rs:662-757 | the SYN branch: acknowledge, ignore, tie-break, replace or accept |
| Transport.KcpPeer.AnswerSyn | src/transport.rs:684-745 | a SYN that finds a session replaces it exactly when it is Established under another id, and otherwise acts as the slot machine does |
| Transport.KcpPeer.AcceptInbound | src/transport.rs:748-754 | SYN_ACK first, then a fresh Established session is mapped, then Connected is fired |
| Transport.KcpPeer.Fire | src/transport.rs:723-753 | an event can be fired only when the map already shows it: Connected a mapped open Established session, Disconnected an absent key, PeerRestarted a closed session; it is appended to the log |
| Transport.KcpPeer.HandleSynAck | src/transport.rs:759-781 | only a SynSent session of that id becomes Established |
| Transport.KcpPeer.HandleReset | src/transport.rs:783-804 | only a session of that id is removed and closed, with one Disconnected |
| Transport.KcpPeer.Enqueue | src/transport.rs:636-644 | a drained batch is appended to the pending queue in order |
| Transport.KcpPeer.TakePending | src/transport.rs:348-353 | the oldest pending message leaves the queue, or the queue was empty |
| Transport.KcpPeer.TouchOne | src/transport.rs:553-583 | one session's share of the first loop, and whether its key is collected |
| Transport.KcpPeer.CollectDoomed | src/transport.rs:550-585 | the first loop drives every session once and collects the condemned keys, in order |
| Transport.KcpPeer.RemoveDoomed | src/transport.rs:587-598 | the second loop removes and closes exactly the collected sessions, with their RESETs and events |
| Transport.KcpPeer.TickBody | src/transport.rs:541-598 | a whole tick takes the node where the node model says; replaced or removed handles are closed |
| Transport.KcpPeer.Shutdown | src/transport.rs:434-445 | the loop over all sessions yields the farewell function of the old map |
| Transport.FarewellExact | src/transport.rs:434-452 | shutdown closes every session, keeps the keys, writes exactly three RESETs of its own id for each and fires no event |
| Node.StepProjects | src/transport.rs:541-598 | one call or one whole tick does to a peer, in session, events, datagrams and messages, what that peer's own machine does; keys stay canonical |
| Node.NodeIsProduct | src/transport.rs:541-808 | over any trace for any number of peers, the session, events, datagrams and delivered messages of a peer are those of the trace filtered to its calls and the ticks |
| Node.SweepAt | src/transport.rs:550-585 | driving all sessions, in any order, drives each once, as if alone, and collects exactly the condemned keys |
| Node.TickCondemns | src/transport.rs:557-583 | a tick ends a session exactly if its link was dead or dies without a write error, its retries are used up or it is idle too long |
| Node.PruneExact | src/transport.rs:550-597 | one tick removes exactly the condemned sessions, each with one Disconnected and three RESETs of its own id; every other session keeps address, id and state and leaves no event and no RESET |
| EventLog.ReadsPrefixes | src/transport.rs:37-68 | the event reader accepts exactly the prefixes of (Connected (PeerRestarted Connected)* Disconnected or Disconnected)* |
| EventLog.WordFollowsSlot | src/transport.rs:684-803 | along any calls the events of a peer keep in step with whether its session is Established |
| EventLog.EventLogMirrorsMap | src/transport.rs:684-803 | after every run the replayed events give exactly the peers with an Established session, and each peer's events form a lifecycle prefix |
| EventLog.SessionsConserved | src/transport.rs:405-416 | sessions ever inserted are those still mapped plus one Disconnected or PeerRestarted for each other |
| Network.WireLicensed | src/transport.rs:607-808 | what each call may write: frames only when Established, SYN_ACK only on a SYN that leaves the node Established, RESET only on removal or for a frame without session |
| Handshake.ReceiveRole | src/transport.rs:684-803 | what any datagram does to a slot's handshake role, what it may and must answer, and when it fires PeerRestarted and Disconnected |
| Handshake.HiHears | src/transport.rs:714-722 | the higher side's half of the two-node invariant, under any datagram that may reach it |
| Handshake.LoHears | src/transport.rs:703-713 | the lower side's half, which yields in a tie |
| Handshake.GentleKeepsInv | src/transport.rs:684-781 | every in-order delivery, loss, send and non-removing tick keeps the two-node invariant |
| Handshake.Agreement | src/transport.rs:684-779 | over in-order lossy channels with SYN retransmission by the higher side, two Established sides hold one id and no restart is ever announced |
| Restart.RestartsAreCollisions | src/transport.rs:689-729 | in every run with any actions PeerRestarted is fired exactly if a SYN reached a session Established under another id |
| Restart.AgreementExact | src/transport.rs:684-779 | over a network that loses, duplicates and reorders, with both sides retransmitting and no removal, the sides disagree if and only if a SYN has reached the higher side Established under another id and the lower side has received a SYN |
| Restart.UnannouncedAgree | src/transport.rs:725-729 | in such runs the sides agree and have announced no restart exactly if no SYN ever reached a session Established under another id |
| Restart.DisagreementLasts | src/transport.rs:684-804 | over any network, while no session is removed, sides that disagree do so in every later state |
| Restart.InOrderNeverCollides | src/transport.rs:309-312 | in order, and with the lower side sending its SYN once, that never happens |
| Convergence.Converges | src/transport.rs:624-781 | in every lossless in-order run of deliveries, sends and ticks that remove no session and retransmit no SYN of the lower side, once nothing is in flight and one side has initiated, both are Established on one id, the higher side's if it initiated; no RESET and no restart on the way |
| Convergence.HalfOpenRepaired | src/transport.rs:648-657 | after one side restarts, such a run at rest is untouched, or both are Established on one fresh id and the other side has fired Disconnected or PeerRestarted, or both have no session and Disconnected was fired |
| Convergence.DisconnectCompletes | src/transport.rs:402-416 | after a disconnect, with any frames of the old connection in flight, such a run at rest has both sides on one fresh id or no session on either, and the other side has been told |
| Convergence.StaleResetsHarmless | src/transport.rs:796-802 | along such a run every RESET in flight is of the old id and leaves any session of another id as it is; no session drawn after the restart is lost |
| Recovery.RetransmissionRecovers | src/session.rs:286-327 | after any in-order lossy run that leaves the higher side waiting with a copy of its SYN in flight again, every run without further loss that comes to rest has both sides Established on its id |
| Recovery.RetryRescues | src/session.rs:303-322 | a tick that finds a retry due and one left puts such a copy in flight |
| Convergence.RepeatedSynDisagrees | src/transport.rs:725-729 | for all ids and data, a run in which one retransmitted SYN of the lower side leaves both Established on different ids |
| Estrangement.ForeignArrives | src/transport.rs:631-632 | a datagram of another conversation leaves an Established session as it is, except that a frame restarts its idle timer; nothing is answered, fired or delivered |
| Estrangement.EstrangementKeepsIds | src/transport.rs:725-802 | from two sides on different ids, one action leaves both ids in place exactly if it removes no session and repeats no old SYN of another id or RESET of the receiver's own |
| Estrangement.EstrangementExact | src/transport.rs:725-802 | one action ends the disagreement itself exactly if it removes a session or repeats an old SYN of the other side's id or RESET of the receiver's own |
| Estrangement.EstrangementLasts | src/transport.rs:624-804 | over any run of deliveries in any order, losses, sends and ticks without removal, both keep their ids, no message is delivered and no event fired |
| Estrangement.RepeatedSynEstranges | src/transport.rs:725-729 | so one retransmitted SYN of the lower side can leave the nodes connected in name only, whatever they send afterwards |
| Provenance.AllSourced | src/transport.rs:280-315 | in every reachable state every session's id was drawn, an initiator's by itself |
| Provenance.Provenance | src/transport.rs:648-804 | over any network with crashes and shutdowns: every SYN names its sender's draw, every SYN_ACK and frame its sender's Established session, every RESET a session given up or a frame without session |
| Quiescence.ReceiveCalms | src/transport.rs:624-781 | a delivery sets less in motion than it consumes, counting queued data it releases |
| Quiescence.TrafficDiesOut | src/transport.rs:624-804 | from any state, a run of deliveries and losses in any order is at most as long as the state's weight |
| History.OneConvPerSession | src/session.rs:230-263 | all frames a session ever emits carry one id, its present one; none leave while it is SynSent |
| History.BufferedDataConserved | src/session.rs:230-245 | first transmissions followed by the queue are the accepted messages in order; a repeated frame carries the message its number stands for |
| History.SuccessIsTaken | src/session.rs:230-245 | success means taken; taken means success exactly unless the flush of an Established session fails |
| History.DeadLinkSticks | src/session.rs:235-237 | after a link has died, sends keep reporting DeadLink exactly until the first tick, disconnect, RESET of the id or SYN of another one; the next send then starts a handshake exactly if no session is mapped |
| History.ConvChangesOnlyInTieBreak | src/transport.rs:701-713 | a mapped session changes its id only by yielding in the tie-break that makes it Established |
| Timers.BackoffDoubles | src/session.rs:311 | the wait is base * 2^r exactly as long as that fits in 64 bits |
| Timers.BackoffWraps | src/session.rs:311 | the wait is below 2^64, loses exactly the bits from the 64th on, and repeats every 64 retries |
| Timers.WaitsClosed | src/config.rs:37-49 | the waits before retry r add up to base * (2^r - 1) |
| Timers.SynBackoffBounds | src/session.rs:303-322 | with ticks at most T apart and no answer, a session is given up no earlier than base * (2^n - 1) and at most (n + 1) * T later, after exactly n retries |
| Timers.HarmlessStep | src/transport.rs:577-583 | one call on an Established session: which ones refresh the idle timer and which tick ends it |
| Timers.IdleTimeoutExact | src/transport.rs:577-583 | an Established session survives exactly if at every tick its last sign of life is within the timeout; the first tick that finds it older removes it with one Disconnected |
| Timers.IdleFromBirth | src/session.rs:215 | the same from birth: whichever datagram makes a session Established starts its idle timer, and the first tick more than the timeout after the last sign of life, beginning with that one, removes it |
| Initiation.ConcurrentInitiation | src/transport.rs:262-315 | in every interleaving of any number of senders: one insertion, before everything else, one SYN, and every caller queues once on that session |
| Initiation.ActProgresses | src/transport.rs:262-315 | every step of an unfinished sender brings it closer to the end, so no sender waits for another |
| RecvQueue.NothingLostOrReordered | src/transport.rs:343-361 | in every interleaving with any number of callers and cancellations, returned messages followed by pending ones are what KCP delivered, in order |
| RecvQueue.RecvReturnsDelivered | src/transport.rs:633-646 | over any node run, what recv returned and what is pending is what the node delivered, and what it returned from one peer is the beginning of what that peer's machine alone delivers |
| RecvQueue.WakeUpsLostIffManyConsumers | src/transport.rs:343-361 | a wake-up can be lost if and only if two or more tasks call recv at once |
| RecvQueue.WakeUpsNotified | src/transport.rs:354-355 | every wake-up of a waiting caller uses up one notification; none serves twice |

## Left out

- UDP socket I/O, task spawning, tracing and error formatting.
- KCP's windows, timers, fragmentation, acknowledgements and reassembly: the crate is a separate
  dependency and is not part of this model; the frames of the model are its data segments only.
- A slow subscriber's view of the event channel (capacity and lag).
- The configuration builder and `apply_to`, `peers`, `stats` and `Debug`: no state of interest.
- The stored incarnation number: nothing compares it.
- Equal ids drawn by two nodes, wildcard or translated addresses, and clocks that go back
  (outside `Elapsed`, which saturates as the source does).
- Interleavings at the await points `src/transport.rs:744` and `src/transport.rs:750` and between
  the two locks of `src/transport.rs:792-799`: a packet is handled in one step.
- Transport.KcpPeer.InitiateSession: the second look under the write lock cannot find anything
  in an atomic call; `Initiation` models it lock by lock.
- Transport.KcpPeer.TakePending: one pass of `recv`; the wait and wake-up are in `RecvQueue`, and
  the error `recv` returns after shutdown is not modelled.
- Transport.KcpPeer.TouchOne: the second clock reading of a retry is the one of the tick, so the
  bounds of `Timers` do not include the time between the two.
- Handshake.Agreement: no removals on the way; `Restart.AgreementExact` drops the order and
  retransmission hypotheses, `Convergence.HalfOpenRepaired` covers one restart.
- Convergence.HalfOpenRepaired: no tick retransmits a SYN of the lower side, since that can end
  in disagreement, as in `Convergence.RepeatedSynDisagrees`.
- A `send` cancelled between the insertion and the SYN: the retransmission of `Timers` then sends
  the first SYN.
- What happens on a node after its shutdown beyond the RESETs: the handle is consumed.
