# A verified model of the MQTT client's delivery machine

The client is modelled as one state machine with four layers: the in-memory session (packet-id
allocator, pending PUBLISH and PUBREL stores, subscription table), the protocol engine (QoS
handshakes, retry sweep, write queue, keep-alive), the client above it (flow control, connect and
resume, poll, reconnect) and two small stores (receive queue, version 5 topic aliases).

- **Steps and runs.** `Machine.dfy` gives every step of the code as an event: its effect (`Apply`)
  and the condition under which the code takes it (`Guard`). The log of events is part of the state.
  A state is `Sound` when its log leads to it from the initial state by guarded steps only.
- **The world.** Clock, transport (short writes, write, flush and close errors, inbound packets,
  liveness) and hash-table iteration order are arbitrary functions of the position in the log; no
  assumption is made about them unless a lemma says so (`Monotone` for a clock that never steps back).
- **Operations.** `EngineModel.dfy` and `ClientModel.dfy` say what each call of the engine and of the
  client does. `InMemory.dfy`, `Handlers.dfy`, `ClientStates.dfy`, `ProtocolEngines.dfy` and
  `MqttClients.dfy` hold the classes with the fields, loops and early returns of the code; every method
  is proved to do to its fields exactly what the model says.
- **The bridge.** `Conformance.EveryRunIsSound`: any sequence of public calls, with any arguments, in any
  world and for any configuration, stays sound and leaves no work behind. So whatever is proved of
  sound states holds in every state an application can observe.
- **Call contracts.** `Publishing`, `Connecting`, `Maintenance`, `Reporting` and `Subscribing` say of every public
  call, from its log, result and final state alone, what it must do: which packets go out, when it fails, what
  it reports.
- **Reference accounts.** Most results compare the state with an account kept from the log alone:
  `Ledger.Books` (the fate of each accepted message), `Replies.Dues`/`Taken` (what arrivals call for),
  `ReceiveQueue.Chronicle`, `AliasRuns.Named`, `Backoff.Tries`, `Pacing.LastSend`, `Grammar.Encodings`.

Where the code and the prose around it disagree, the model follows the code, and the difference is a
lemma:

- The automatic reconnect in `poll` cannot reach the network. The engine's connected flag is cleared only
  by a DISCONNECT that was sent, so `connect` refuses (`Grammar.PollCannotReconnect`,
  `Grammar.StuckOnceDisconnected`). With reconnects on and a clean session it has cleared the session by
  then: one poll after a lost transport wipes every accepted QoS 1 and QoS 2 message without sending a
  byte, exactly under the condition of `Grammar.LostTransportWipes`.
- `next_pid` never checks whether an id is in use. `Window.NextIdIsTakenIff` says when that matters;
  `IdReuse.IdComesAround` and `IdReuse.NextPublishOverwrites` lead there from any connected state.
- An error of the final transport flush comes after the acknowledgment is on the wire; the message is
  then acknowledged but not queued (`AtLeastOnce.QueuedIffAckSent`, `AtLeastOnce.FailedSendMayBeComplete`).
- Inbound QoS 2 messages are not deduplicated: a PUBLISH received twice is queued twice
  (`AtLeastOnce.DuplicateIsQueuedTwice`; `Replies.TakenIsQueued` is the statement for all runs).
- A repeated PUBREL has no counter and is never given up (`Pacing.RepeatedUntilPubcomp`).
- The backoff cap does not bind the first interval, nor one after an interval that rounded down to zero
  (`Backoff.IntervalExceedsCapIff`, `Backoff.CapCanBeExceededLater`).
- A repeated SUBACK can fail although nothing has to be stored (`Subscriptions.RepeatedSubackFails`), and
  a SUBSCRIBE of several filters keeps only the last (`Subscriptions.OnlyLastFilterIsStored`).
- The topic after the 65535th gets alias 0 (`AliasRuns.UsableIffFewTopics`), and an alias that a caller
  asks for is not checked against the table (`AliasRuns.AskedAliasClashesIff`).

Packet ids come from a crate outside the repository; they are assumed to start at 1 and to step from
65535 to 1.

## Model

| member | source | states |
|---|---|---|
| Conformance.EveryRunIsSound | src/client.rs:95-569 | Any sequence of public calls in any world takes only guarded steps and leaves the client between calls with nothing owed, so every claim about sound states holds of every use |
| Conformance.PerformConforms | src/client.rs:95-481 | Each single public call leads from a sound, settled state to a sound, settled state, whatever fails inside it |
| Control.ControlHolds | src/protocol/mod.rs:459-525 | In every reachable state: Connected implies an engine connection, stored messages are QoS 1 or 2 with at most three retries, and a reply is owed only directly after the packet it answers |
| Ledger.BooksAgree | src/session/in_memory.rs:60-97 | In every reachable state the two stores hold exactly the messages that the log says are in flight or await PUBCOMP, with content, retry count and last stamp; a PUBREL under way is the one the log says is owed |
| Conservation.EveryMessageIsAccountedFor | src/protocol/mod.rs:470-488 | Accepted messages = pending + awaiting PUBCOMP + PUBREL under way + completed + given up + PUBREL lost + wiped + overwritten; the first two counts are the store sizes, nothing is under way between calls, nothing is overwritten under the window hypothesis |
| Conservation.FatesOnlyMoveForward | src/protocol/mod.rs:470-488 | An accepted message keeps id, content and birth for the rest of the run, and a final fate never changes |
| Conservation.FlowControlHolds | src/client.rs:252-258 | The number of pending PUBLISHes never exceeds `max_inflight_messages`, on both publish paths |
| Conservation.NothingOverwritten | src/session/in_memory.rs:60-68 | If no live message is older than 65534 allocations when an id is allocated, no store ever overwrites an accepted message |
| PacketIds.ClosedForm | src/session/in_memory.rs:54-58 | The k-th id after a clear is (k mod 65535) + 1 |
| PacketIds.SameIdIff | src/session/in_memory.rs:54-58 | Two allocations give the same id if and only if they are a multiple of 65535 apart |
| PacketIds.WindowIsDistinct | src/session/in_memory.rs:54-58 | Any 65535 consecutive ids are pairwise distinct and non-zero, and the next one repeats the first |
| Window.NumbersHold | src/session/in_memory.rs:54-58 | In every run the allocator stands where the number of allocations since the last clear puts it, and each live message carries the id of the allocation it was born in |
| Window.NextIdIsFresh | src/protocol/mod.rs:366-389 | If every live message was accepted within the last 65534 allocations, the next id is in neither store |
| Window.NextIdIsTakenIff | src/session/in_memory.rs:54-68 | The next id is in use if and only if a message in a store was accepted a multiple of 65535 allocations ago |
| IdReuse.IdComesAround | src/session/in_memory.rs:54-58 | From every connected state below its limit, in every world: after one QoS 1 or 2 publish and 65534 unsubscribes the message is still pending and the next id is its id |
| IdReuse.NextPublishOverwrites | src/session/in_memory.rs:60-68 | One more publish then replaces that message in the store |
| IdReuse.FirstConnectSucceeds | src/client.rs:95-165 | Such a connected state exists: with a transport that takes every byte and a server that accepts, the first connect succeeds with an empty session |
| Window.StoresStayDisjoint | src/protocol/mod.rs:478-488 | Under the window hypothesis no id is ever in both stores, and an owed first PUBREL finds its id in neither |
| Window.NoPublishAfterPubrel | src/protocol/mod.rs:621-663 | MQTT 3.1.1 section 4.3.3: after a PUBREL for p no PUBLISH under p is sent, by sweep or resume, before p is allocated anew |
| Traffic.TrafficIsBounded | src/protocol/mod.rs:596-645 | Per accepted message: at most 3 sweep retries, exactly 3 if given up, stamps at least 5000 ms apart even if the clock steps back, and at most 1 + 3 + resumes PUBLISH packets |
| Traffic.RetransmissionIsFaithful | src/protocol/mod.rs:621-643 | Every PUBLISH sent under p carries the message most recently accepted under p (id, topic, QoS, retain, payload), with DUP set if and only if that message was sent before |
| Publishing.PublishStoresAndSends | src/client.rs:242-282 | A publish fails without a trace unless the client is Connected and below its limit; otherwise the call sends the caller's content once and nothing else, without DUP and alias, and stores it under the next id for QoS 1 and 2, also when the send fails and the error is reported |
| Publishing.PublishV5StoresAndSends | src/client.rs:619-679 | The version 5 path, which bypasses the engine's publish, keeps the same contract; the alias sent is that of the table, else the one asked for, else the next, which the table then records |
| Traffic.QosZeroIsNoDuplicate | src/protocol/mod.rs:354-393 | No QoS 0 PUBLISH has DUP set |
| Traffic.RetriesCanBeBuilt | src/protocol/v3.rs:78-107 | Rebuilding any pending message as a retry succeeds in every reachable state |
| Traffic.ResumeCoversPendingOnce | src/client.rs:168-197 | A resume leaves the session unchanged, and a successful one has resent every pending message exactly once, with DUP and its original content |
| Retries.SweepIsPointwise | src/protocol/mod.rs:599-645 | For every iteration order, a successful collect-drop-retry pass equals the pointwise rule (spent forgotten, due counted and restamped, rest untouched), logs one drop per spent message and then exactly one successful DUP PUBLISH per due one |
| Retries.RetryingEnds | src/protocol/mod.rs:591-645 | While nothing is accepted, the sum of (4 - retry_count) pays for every retry and drop, whatever else happens |
| Retries.FourSweepsDrain | src/protocol/mod.rs:591-645 | Four sweeps at least 5000 ms apart, the first 5000 ms after the newest stamp and none reading a time behind a pending stamp, leave nothing pending, whatever happens between them except new messages |
| Retries.FourPollsDrain | src/client.rs:411-458 | The same for the client: under a clock that never steps back, four polls that get as far as receiving, 5000 ms apart, leave nothing pending when the fourth receives |
| Retries.PollReceives | src/client.rs:460-476 | A poll whose maintenance succeeds does go on to receive from the state that maintenance left |
| Retries.StampsNeverLead | src/protocol/mod.rs:621-626 | With a clock that never steps back no stored stamp is ahead of the next clock reading |
| Retries.PollSweepsAfterAllStamps | src/client.rs:432-458 | With a clock that never steps back, the sweep of a poll reads a time that no pending stamp exceeds, before and after the ping |
| Retries.MaintenanceSweeps | src/client.rs:432-458 | When poll reaches receive, what is pending is exactly what the pointwise sweep rule makes of what was pending when it was called |
| Maintenance.MaintenanceContract | src/client.rs:432-458 | Before it receives, under a clock that never steps back, a poll times out exactly when one and a half intervals have passed since the last receipt, pings exactly when one has passed since the last send, resends something exactly when a message is due and no ping failed, repeats exactly one recorded PUBREL if and only if no ping and no PUBLISH is due and the last send is more than 1000 ms back, and otherwise fails if and only if one of these sends fails, right there and with its error |
| Maintenance.PollMaintains | src/client.rs:411-476 | A poll over a live connection is that maintenance and then, if and only if it succeeded, one receive |
| Chores.PublishHalf | src/protocol/mod.rs:599-645 | The PUBLISH half of the sweep sends something if and only if a message is due and fails if and only if one of its sends does |
| Chores.RetriesStop | src/protocol/mod.rs:621-645 | A failing retry loop has counted and resent a prefix of what was collected, in order, the last send being the failed one |
| Replies.RepliesFollowArrivals | src/protocol/mod.rs:470-522 | MQTT 3.1.1 section 4.6: in every reachable state the replies attempted plus the one owed are exactly those that arrivals call for, in their order: PUBACK, PUBREC, PUBCOMP and first PUBREL |
| Replies.AcksAnswerArrivals | src/protocol/mod.rs:489-522 | A PUBACK, PUBREC or PUBCOMP is sent only directly after the packet it answers |
| Replies.TakenIsQueued | src/client.rs:515-537 | Inbound PUBLISHes that were acknowledged (or are QoS 0) are exactly the messages queued, same order and content, plus the one being delivered |
| AtLeastOnce.QueuedIffAckSent | src/protocol/mod.rs:497-522 | In any run, between calls: a QoS 1 or 2 message with id p has been queued if and only if some PUBACK or PUBREC for p was sent without error |
| AtLeastOnce.ReachedIffAckSent | src/protocol/mod.rs:459-525 | Two clients, nothing invented on the way: the peer's application has been given a message accepted under p, same content, if and only if the peer sent a PUBACK or PUBREC for p without error |
| AtLeastOnce.AcknowledgedMeansGiven | src/protocol/mod.rs:459-525 | MQTT 3.1.1 sections 4.3.2 and 4.3.3, channels that lose, reorder and duplicate: once a PUBACK or PUBCOMP for p has arrived, the peer has acknowledged p, and it queued a message accepted under p (the one accepted, if p was used once) exactly unless every such acknowledgment failed after reaching the wire |
| AtLeastOnce.ReportedMeansGiven | src/client.rs:411-476 | The same seen from the API: if `poll` reports MessageAcknowledged(p), the peer has acknowledged p, and its application has been given the message under the same exact condition |
| AtLeastOnce.ReportedMeansArrived | src/client.rs:515-553 | MessageAcknowledged(p) is reported only for a PUBACK or PUBCOMP that arrived |
| Reporting.ReceivingTells | src/client.rs:460-553 | For every packet read, case by case: the reply that goes out (and the error if it fails), what completes in the session, which SUBACK codes make an entry Active or Failed, and the event that is reported |
| Reporting.ReceiveAcknowledgesIff | src/client.rs:545-549 | A receive reports MessageAcknowledged(p) if and only if it reads a PUBACK or PUBCOMP for p |
| Reporting.PollAcknowledgesIff | src/client.rs:411-476 | A poll, in any state between calls, reports MessageAcknowledged(p) if and only if a PUBACK or PUBCOMP for p arrives in it |
| Reporting.PollTells | src/client.rs:432-476 | A poll over a live connection fails with its maintenance, or reads one packet and reports it as ReceivingTells says |
| Reporting.LostPollEnds | src/client.rs:412-430 | A poll over a lost or unconnected transport reports Disconnected once, then nothing; it neither sends nor reads |
| AtLeastOnce.PublishedWasStored | src/protocol/mod.rs:366-389 | Every PUBLISH with an id carries a message accepted under that id |
| AtLeastOnce.PubrelWasAsked | src/protocol/mod.rs:478-488 | A PUBREL, first or repeated, goes out only after its PUBREC has arrived |
| AtLeastOnce.QueuedIffAcknowledged | src/protocol/mod.rs:497-522 | For one call: a received QoS 1 or 2 message is queued and reported with its content if and only if its PUBACK or PUBREC was sent without error, while the bytes of that reply may be on the wire either way |
| AtLeastOnce.DuplicateIsQueuedTwice | src/protocol/mod.rs:509-522 | The same QoS 2 PUBLISH received twice, with both PUBRECs sent, is queued twice |
| AtLeastOnce.FailedSendMayBeComplete | src/protocol/mod.rs:560-583 | When every write is accepted but the final flush fails, the whole packet is on the wire and the send counts as failed |
| Grammar.PacketsKeepTheGrammar | src/protocol/mod.rs:273-327 | In any run CONNECT is sent if and only if the account of the log has the client offline; every other packet only online, including the paths that bypass the engine's check |
| Grammar.ConnectedMeansConnected | src/client.rs:126-165 | The client reports Connected only while the engine is connected |
| Connecting.ConnectEnds | src/client.rs:95-197 | A connect with a valid configuration over an unconnected engine sets the configured interval and sends one CONNECT with the configured fields; if that is sent and answered by a CONNACK with code 0 the client is Connected with its backoff reset, and a session the server still has is resumed, each pending message once with DUP and content, or up to the first failing send, whose error is the result; in every other case nothing else is sent, the client is Failed, and the error is the one of the first thing that went wrong |
| Connecting.EngineConnectLogs | src/protocol/mod.rs:273-327 | The engine's part of that: interval, CONNECT, answer, and the error for each wrong answer |
| Connecting.DisconnectSends | src/client.rs:395-408 | A disconnect of a connected engine attempts exactly one send, a DISCONNECT; the engine is unconnected afterwards if and only if it was sent, the call succeeds if and only if the transport closed as well, and the client ends Disconnected either way; without a connection nothing is sent |
| Connecting.DisconnectThenConnect | src/client.rs:95-165 | After a DISCONNECT that was sent, a connect with a valid configuration sends a CONNECT |
| Grammar.AfterDisconnectComesConnect | src/protocol/mod.rs:446-456 | MQTT 3.1.1 section 3.14.4: after a DISCONNECT sent successfully the next packet is a CONNECT |
| Grammar.OnlyDisconnectReopens | src/protocol/mod.rs:446-456 | Once connected the engine stays connected and sends no CONNECT until a DISCONNECT has been sent, whatever the transport does |
| Grammar.ConnectingTwiceFails | src/protocol/mod.rs:285-287 | A connect over a connected engine sends nothing and ends in the error state (or leaves the state, if the configuration is invalid); a valid configuration with a clean session has had its session cleared by then, any other keeps it |
| Grammar.ConnectingSendsIff | src/client.rs:95-165 | A connect attempts to send something if and only if the configuration is valid and the engine is not connected |
| Grammar.PollCannotReconnect | src/client.rs:411-430 | When the transport is lost while Connected, poll sends nothing, reports Disconnected and leaves the engine connected; the session is empty afterwards if reconnects are enabled with attempts left and the configuration is valid and asks for a clean session, and unchanged otherwise |
| Grammar.LostTransportWipes | src/client.rs:95-102 | Under exactly that condition every message that was pending or awaited PUBCOMP gets the fate Wiped in that poll; otherwise the account does not change |
| Grammar.StuckOnceDisconnected | src/client.rs:395-408 | From that state disconnect is a no-op and connect fails before it sends, though not before it has cleared a clean session |
| Grammar.WireCarriesEncodings | src/protocol/mod.rs:549-583 | While all sends succeed, the bytes on the wire are the encodings of the packets in sending order, for any short writes |
| Grammar.FirstFailureAddsAPrefix | src/protocol/mod.rs:560-583 | The first failing send adds only a prefix of its own packet after the encodings of all before it |
| Wire.WriteAll | src/protocol/mod.rs:565-575 | The inner write loop ends, writes no more than the packet, and succeeds if and only if all of it was written |
| Wire.FlushRefinesConcat | src/protocol/mod.rs:560-583 | A flush writes the concatenation of the queue, or breaks off inside one packet: whole packets and a proper prefix on the wire, that packet dropped, the rest still queued |
| Wire.SinglePacket | src/protocol/mod.rs:549-557 | A queue of one packet is empty afterwards, error or not, and the wire grew by a prefix of it, by all of it on success |
| Pacing.RepeatedPubrelsAreSpaced | src/protocol/mod.rs:650-663 | With a monotone clock a repeated PUBREL goes out more than 1000 ms after the packet sent before it |
| Pacing.AtMostOneRelease | src/protocol/mod.rs:650-663 | However many PUBRELs are collected, at most one is attempted |
| Pacing.ReleaseOnce | src/protocol/mod.rs:650-663 | Exactly one is attempted if any is recorded and the last send is more than 1000 ms before the reading, and none otherwise; its failure is the loop's error |
| Reporting.PollRepeatsIff | src/client.rs:432-458 | Under a clock that never steps back, a poll over a live connection repeats a PUBREL if and only if it is not timed out, no ping and no PUBLISH is due, one is recorded, and the last send is more than 1000 ms back |
| Pacing.TickBeforeRepeat | src/protocol/mod.rs:650-663 | In any run under a clock that never steps back, between a successful send of any packet and a later repeated PUBREL a poll has read its clock anew |
| Pacing.OneRepeatPerPoll | src/client.rs:432-458 | One poll repeats at most one PUBREL, and none after a PINGREQ, a PUBLISH retry or any other successful send of the same poll |
| Pacing.OnePubrelPerSweep | src/protocol/mod.rs:591-666 | One sweep attempts at most one PUBREL of the up to ten collected, and none if it retried a PUBLISH or the last send is not before its reading |
| Pacing.RepeatedUntilPubcomp | src/protocol/mod.rs:647-663 | A recorded PUBREL stays up for repetition in any run until its PUBCOMP arrives or the session is cleared, and is gone then |
| Pacing.ReceivingMeansAlive | src/client.rs:432-458 | When poll reaches receive with keep-alive on, the last send is less than one interval and the last receipt less than one and a half intervals before its clock reading |
| Pacing.TimesAreKept | src/protocol/mod.rs:213-225 | In every run the two times that keep-alive goes by are those of the last successful send and of the last packet received, and a connected engine has the configured interval in milliseconds |
| Backoff.AttemptsAreCounted | src/client.rs:200-239 | In every run the counter is the number of attempts since the last success, the interval is the one it calls for, and a non-zero `max_attempts` is never exceeded |
| Connecting.ReconnectCounts | src/client.rs:200-239 | A reconnect that is off or at its limit sends nothing and changes nothing; otherwise one that opens a connection leaves both counters at 0, and one that does not fails with one attempt more and the interval initial from 0, else min(scaled, max) |
| Connecting.PollReconnectCounts | src/client.rs:411-430 | Poll's own reconnect counts in the same way |
| Backoff.ReconnectsAreLimited | src/client.rs:205-213 | In every run the CONNECTs sent inside reconnect and poll since the last CONNACK with code 0 number at most the counted attempts, hence at most a non-zero `max_attempts` |
| Backoff.DoublingClosedForm | src/client.rs:217-224 | With multiplier 2 and 0 < initial <= max the interval after k failures is min(initial * 2^(k-1), max) |
| Backoff.IntervalExceedsCapIff | src/client.rs:200-239 | In every reachable state with attempts counted, the interval exceeds the cap if and only if the initial interval does and the previous one was zero; where no interval rounds down to zero, at the first attempt only |
| Backoff.LaterIntervalsAreCapped | src/client.rs:217-224 | For any multiplier, an interval after the first exceeds the cap if and only if its predecessor was zero and the initial interval exceeds the cap |
| Backoff.CapCanBeExceededLater | src/client.rs:217-224 | A configuration whose third interval exceeds the cap |
| Subscriptions.ActiveTopicsAreActive | src/session/in_memory.rs:99-179 | If no Active entry is overwritten and each SUBACK names a Pending entry, every filter in the index belongs to an Active subscription, with duplicates, failures and removals |
| Subscriptions.TablesStayWithinCapacity | src/session/in_memory.rs:99-164 | In every run both tables stay within the subscription capacity |
| Subscriptions.ConfirmNeverFails | src/session/in_memory.rs:127-164 | On such a run the capacity error of `confirm_subscription` is unreachable |
| Subscriptions.RepeatedSubackFails | src/session/in_memory.rs:127-164 | With room for one subscription a second SUBACK of the same entry fails although its filter is in the index already |
| Subscriptions.OnlyLastFilterIsStored | src/client.rs:336-339 | The filters of one SUBSCRIBE are stored if and only if the table has room before and after taking the shared id, and then only the last one is kept; otherwise the first, if it fits |
| Subscribing.SubscribeStores | src/client.rs:295-343 | A subscribe call sends one SUBSCRIBE with exactly the given filters under the next id; the id is spent in any case, and entries are stored only if it was sent, as the row above says |
| Subscribing.UnsubscribeRemoves | src/client.rs:346-383 | An unsubscribe call sends one UNSUBSCRIBE with exactly the given filters; if it was sent, as many entries of each filter are gone as it was named, nothing else has changed, and the filters that had an entry are out of the index |
| Subscribing.PingPings | src/client.rs:386-392 | A ping call sends one PINGREQ in a Connected client and nothing in any other |
| SessionModel.EveryOrderIsPossible | src/session/in_memory.rs:78-80 | Every permutation of the keys is a possible hash-table iteration, so claims for all orders exclude none |
| SessionModel.Enumerate | src/session/in_memory.rs:78-97 | An iteration yields every key exactly once |
| SessionModel.FindSub | src/session/in_memory.rs:33-37 | The search yields the first entry of the iteration that has the filter, or there is none in it |
| ReceiveQueue.QueueIsASuffix | src/state.rs:167-182 | In every run the queue is a contiguous suffix of all arrivals, at most max(capacity, 1) long; popped messages are an in-order subsequence of what precedes it; arrivals = popped + dropped + queued |
| ReceiveQueue.PopsComeFromTheHead | src/state.rs:180-182 | A pop hands out the oldest message still queued |
| Subscribing.NextMessageIsOldest | src/client.rs:479-481 | next_message hands out the oldest message and takes it out of the queue, and that is the message the log says was popped |
| AliasRuns.UsableIffFewTopics | src/protocol/v5.rs:86-95 | The aliases are non-zero and pairwise different if and only if at most 65535 topics were given one; up to there the table is a bijection onto 1..n |
| AliasRuns.AliasesNeverChange | src/protocol/v5.rs:86-95 | A topic keeps its alias for the rest of the run |
| AliasRuns.SameAliasIffSameTopic | src/protocol/v5.rs:86-95 | MQTT 5.0 section 3.3.2.3.4: in a run whose callers ask for no alias and that names at most 65535 topics, two aliased PUBLISHes carry the same alias if and only if they are of the same topic |
| AliasRuns.AskedAliasClashesIff | src/protocol/v5.rs:86-95 | A caller's alias k for a topic outside the table goes out unchecked; another topic has it if and only if 1 <= k <= n, n being the number of topics named so far, and by the end of the run if and only if a k-th other topic has been named |
| Mqtt.CreatePublish | src/protocol/v3.rs:78-107 | A PUBLISH is built if and only if exactly the QoS levels above 0 come with an id, and then carries the given QoS, id, flags, topic and payload and no alias |
| Mqtt.HandlePacket | src/protocol/v5.rs:353-485 | Exactly the packets a client must not receive are refused, DISCONNECT only by version 3; any other packet can be read back from its action |
| EngineModel.ToRetry | src/protocol/mod.rs:603-607 | Collects exactly the messages whose stamp is at least 5000 ms old and whose count is below 3, each once |
| EngineModel.ToDrop | src/protocol/mod.rs:607-609 | Collects exactly the messages whose count has reached 3, each once, whatever their age |
| EngineModel.RelBatch | src/protocol/mod.rs:650 | min(10, n) of the n recorded PUBRELs, each once |
| InMemory.InMemorySession.NextPid | src/session/in_memory.rs:54-58 | Hands out the stored id and steps it with wrap-around, nothing else changes |
| InMemory.InMemorySession.CompleteOutgoingPublish | src/session/in_memory.rs:74-76 | Removes and returns the pending message, nothing else changes |
| InMemory.InMemorySession.CompleteOutgoingPubrel | src/session/in_memory.rs:87-93 | Removes the recorded PUBREL and reports whether it was there |
| InMemory.InMemorySession.AddSubscription | src/session/in_memory.rs:99-125 | Fails exactly when the table is full; otherwise stores a Pending entry |
| InMemory.InMemorySession.ConfirmSubscription | src/session/in_memory.rs:127-164 | Only the first return code counts; the entry turns Active even when the index is full and the call fails |
| InMemory.InMemorySession.FindSubscriptionPid | src/session/in_memory.rs:33-37 | The search loop finds the first entry with the filter in iteration order |
| InMemory.InMemorySession.RemoveSubscription | src/session/in_memory.rs:166-179 | Removes the first entry with the filter and the filter from the index, or changes nothing |
| InMemory.InMemorySession.Clear | src/session/in_memory.rs:181-187 | Back to the empty session, allocator included |
| Handlers.V5Handler.CreatePublishWithConfig | src/protocol/v5.rs:54-107 | A refused packet leaves the table alone; a known topic takes its alias over the caller's; a new one takes the next alias unless the caller chose one |
| ClientStates.ClientState.AddReceivedMessage | src/state.rs:167-177 | A full queue drops its oldest message before the new one is appended |
| ClientStates.ClientState.PopReceivedMessage | src/state.rs:180-182 | Takes the oldest message, or nothing from an empty queue |
| ProtocolEngines.ProtocolEngine.WritePacket | src/protocol/mod.rs:565-575 | The write loop puts exactly the bytes on the wire that the model says, for any short writes |
| ProtocolEngines.ProtocolEngine.FlushWriteQueue | src/protocol/mod.rs:560-583 | The flush loop refines the recursive flush: result, wire and remaining queue |
| ProtocolEngines.ProtocolEngine.SendPacket | src/protocol/mod.rs:549-557 | The write queue is empty again after success and error; the send time moves exactly on success |
| ProtocolEngines.ProtocolEngine.ShouldSendKeepAlive | src/protocol/mod.rs:228-235 | Due exactly when an interval is set and has passed since the last send, with saturating subtraction |
| ProtocolEngines.ProtocolEngine.IsConnectionTimeout | src/protocol/mod.rs:238-247 | Late exactly when one and a half intervals have passed since the last receipt |
| ProtocolEngines.ProtocolEngine.SetKeepAliveInterval | src/protocol/mod.rs:213-215 | Sets the interval in milliseconds, nothing else |
| ProtocolEngines.ProtocolEngine.Connect | src/protocol/mod.rs:273-327 | Refuses when connected; otherwise sends CONNECT and accepts only a CONNACK with code 0 |
| ProtocolEngines.ProtocolEngine.Disconnect | src/protocol/mod.rs:446-456 | Clears the flag only after the DISCONNECT was sent, before the transport is closed |
| ProtocolEngines.ProtocolEngine.Publish | src/protocol/mod.rs:354-393 | Allocates, builds, stores and sends in that order; a failed send leaves the message pending |
| ProtocolEngines.ProtocolEngine.Subscribe | src/protocol/mod.rs:396-413 | Allocates an id and sends SUBSCRIBE; the id is spent on every later error |
| ProtocolEngines.ProtocolEngine.Settle | src/protocol/mod.rs:470-522 | Completes exactly what the packet acknowledges and yields the reply it calls for; a PUBREC of an unknown id calls for none |
| ProtocolEngines.ProtocolEngine.ReceivePacket | src/protocol/mod.rs:459-525 | One packet received, settled and answered; a first PUBREL is recorded only after it was sent |
| ProtocolEngines.ProtocolEngine.CollectRetries | src/protocol/mod.rs:603-610 | The collecting loop yields the due and the spent messages in iteration order |
| ProtocolEngines.ProtocolEngine.RetryMessages | src/protocol/mod.rs:621-645 | The retry loop counts and restamps before it sends, and stops at the first failing send |
| ProtocolEngines.ProtocolEngine.ReleaseMessages | src/protocol/mod.rs:652-663 | The PUBREL loop sends only when the last packet is more than 1000 ms older than the sweep's reading |
| ProtocolEngines.ProtocolEngine.HandleRetries | src/protocol/mod.rs:591-666 | The whole sweep: collect, drop, retry, then PUBRELs, for any iteration order |
| MqttClients.MqttClient.constructor | src/client.rs:65-92 | A new client is in the initial state of a run |
| MqttClients.MqttClient.Connect | src/client.rs:95-165 | Validates, clears a clean session before the engine is asked, connects, resumes a present session; keeps the object in a state that a guarded run reaches |
| MqttClients.MqttClient.ResendPendingMessages | src/client.rs:168-197 | Resends a snapshot of the pending messages in iteration order and stops at the first failing send |
| MqttClients.MqttClient.Reconnect | src/client.rs:200-239 | Counts the attempt and computes the interval before it connects; refuses when disabled or at the limit |
| MqttClients.MqttClient.Publish | src/client.rs:242-282 | Refuses unless Connected and below the in-flight limit; otherwise does the engine's publish |
| MqttClients.MqttClient.PublishV5 | src/client.rs:619-679 | The version 5 path: same checks, then allocate, build with alias, store, send |
| MqttClients.MqttClient.Subscribe | src/client.rs:295-343 | One SUBSCRIBE, then the filters are stored one by one until the table is full |
| MqttClients.MqttClient.Unsubscribe | src/client.rs:346-383 | One UNSUBSCRIBE, then each filter is removed once, whether or not it is acknowledged |
| MqttClients.MqttClient.Ping | src/client.rs:386-392 | PINGREQ only while Connected |
| MqttClients.MqttClient.Disconnect | src/client.rs:395-408 | Ends Disconnected whether or not the DISCONNECT could be sent |
| MqttClients.MqttClient.Poll | src/client.rs:411-476 | Reconnect check, time-out, keep-alive, sweep, receive, in this order, with every error path |
| MqttClients.MqttClient.HandlePacketAction | src/client.rs:515-553 | Queues and reports a message, confirms a subscription, reports acknowledgments |
| MqttClients.MqttClient.NextMessage | src/client.rs:479-481 | Pops the receive queue |

## Left out

- Real transports, async polling and pinning: a transport is any function that accepts 0 to all offered bytes or fails.
- Packet encoding and decoding: the encoder is an unknown partial function of the packet, inbound packets are given decoded, and partial reads are not modelled.
- Packet contents that no modelled step reads: CONNECT credentials and will, version 5 properties other than the topic alias, reason codes other than the CONNACK code and SUBACK codes.
- `subscribe_v5` and the request/response helpers: they send what `Subscribe` and `PublishV5` send, with more properties.
- `subscribe` and `unsubscribe` of one filter: modelled as the calls for several, with a list of one.
- Backoff.DoublingClosedForm: assumes that the multiplier doubles every interval up to the cap exactly, as f32 does for 2 and a cap below 2^24; rounding is otherwise arbitrary.
- The wait before a reconnect attempt: the interval is computed, the delay itself is not modelled as time.
- Handlers.V5Handler.CreatePublishWithConfig: the 16-bit alias counter wraps as in a release build; a debug build stops at the increment after alias 65535.
- AtLeastOnce.AcknowledgedMeansGiven: at least once only, also for QoS 2, since exactly once is false of the code (`AtLeastOnce.DuplicateIsQueuedTwice`).
- Subscriptions.ConfirmNeverFails: needs the stated discipline of the run; the error is reachable without it.
- Order of resent messages: the pending store has none.
- Statistics counters, error details, `Display` texts and logging.
- `session_mut`, through which a caller may change the session at will, and the unused helper that builds a CONNECT with a will.
- Configuration builders: only the checks that `connect` runs are modelled.
- Options that no code acts on: packet-size limits on outgoing packets, jitter, publish time-outs, packet-id validation.
