# gwyh in Dafny

gwyh is a gossip library over UDP. Every node runs three actors that handle one message at a time: a
*handshaker* agrees on session keys with other nodes, a *peer manager* keeps the table of known peers
and decides to whom the node subscribes, and a *packet handler* encrypts, forwards, numbers and
deduplicates messages. This project models the three actors and proves what holds of them, alone and
together, over every run.

| file | module | what it models |
|---|---|---|
| `Basics.dfy`, `Peer.dfy`, `Messages.dfy` | `Basics`, `Peers`, `Messages` | identifiers, wrapping counters, peer records, messages, sealed boxes |
| `Handshaker.dfy` | `Handshaking` | hashes, pending tables, the step function and the actor |
| `HandshakeNetwork.dfy` | `HandshakeNetwork` | any number of handshakers on a network that drops, duplicates and reorders |
| `HandshakeTables.dfy` | `HandshakeTables` | which steps put an entry into a pending table, and which take it out |
| `HandshakeCompletion.dfy` | `HandshakeCompletion` | runs in which a handshake succeeds, or almost |
| `PeerTable.dfy` | `PeerTable` | the last-write-wins table of known peers |
| `PeerManager.dfy`, `ManagerRuns.dfy` | `PeerManagement`, `ManagerRuns` | the peer manager, and every run of it with a clock |
| `PeerChoice.dfy`, `Reassignment.dfy` | `PeerChoice`, `Reassignment` | zone-aware choice of peers, and subscribing to them over runs of the manager |
| `Convergence.dfy` | `Convergence` | handshakes, tables and packet handlers put together |
| `Lru.dfy` | `Lru` | the bounded cache of seen messages against the full history |
| `RateControl.dfy` | `RateControl` | the delay towards one address |
| `PacketHandler.dfy`, `HandlerRuns.dfy` | `PacketHandling`, `HandlerRuns` | the packet handler, and every run of it |
| `LossReports.dfy`, `Loss.dfy` | `LossReports`, `LossAccounting` | gaps between sequence numbers, and NAK counts over runs of two packet handlers |
| `Flood.dfy`, `FloodNetwork.dfy` | `Flood`, `FloodNetwork` | a message flooding a graph, and a network of packet handlers that refines it |
| `FloodHearing.dfy`, `FloodRest.dfy` | `FloodHearing`, `FloodRest` | what applications hear of a broadcast, and how it comes to rest |
| `WholeStack.dfy` | `WholeStack` | broadcasts on top of handshakes |

Each actor is a class whose methods are proved equal to a function on values (`Handle`, `HandleInput`, `Recv`,
`PeerAdded`, ...). Runs are sequences of steps of these functions, and the theorems quantify over all
of them.

How the model reads the program:

- Hashes work on the bytes the program feeds them and are ideal: two digests agree only on equal
  inputs. A sealed box opens exactly with the two key pairs it was made for.
- Key pairs, challenges, handshake and message identifiers, the clock and the stretch factor of a NAK
  are parameters of a step. A network run draws every handshake identifier and every challenge once;
  nothing is assumed about key pairs.
- Counters wrap at 2^32 and the delay saturates at 2^64 - 1, as in a release build.
- One address per node, distinct node identifiers, and messages inside a node in order.

Where the code departs from its documentation the model follows the code:

- The timestamp window is 60 ms (`src/handshake.rs:76`); `docs/PROTOCOL.md:83` says 60 s.
- `HubAndSpoke` promises one peer per remote zone, but groups only neighbours in hash-map order
  (`src/peer_manager.rs:334`). `OnePerRemoteZoneIffGrouped` gives the exact condition and
  `InterleavedZones` an order that breaks the promise.
- NAKs are sent for empty and for negative gaps, and for packets that open only: a handshake, or a
  packet that does not decrypt, moves the receive counter in silence
  (`src/packet_handler.rs:250, 262, 292-299`). `TotalOfGaps` says what is reported for any arrivals,
  `TotalIsLost` what is missing from the report when packets arrive in order, `ReportIsExactIff` when
  the report is right, and `Swapped`, `Duplicated` and `Silenced` give arrivals for which it is not.
- Handshakes with equal timestamps resolve by order of arrival; `TiesDependOnOrder` is exact.
- A stranger's acknowledgement leaves a subscription without a watchdog (`LateAcknowledgement`), and
  a shutdown leaves watchdogs without a subscription; `GuardStep` is exact.
- A lost GoTeam leaves the responder with newer keys than the initiator until the next handshake;
  `SameSessionIff` is exact and `SplitSession` is such a run.

## Model

| member | source | states |
|---|---|---|
| `Handshaking.ResponseInputInjective` | src/handshake.rs:192-209 | the concatenation that is hashed determines key, challenge, public key and identifier, although keys have any length |
| `Handshaking.ResponseAcceptedIff` | src/handshake.rs:192-256 | an answer is accepted if and only if it was made for this challenge, public key and handshake, from a pre-shared key both ends hold |
| `Handshaking.HmacBinds` | src/handshake.rs:82-99 | an HMAC made for a key and a timestamp, whose decimal digits are hashed, is valid for that key and that timestamp and for no other |
| `Handshaking.OneHmacPerKey` | src/handshake.rs:332-341 | for every pre-shared key there is one HMAC, over its own random bytes, and it is valid for that key |
| `Handshaking.HmacAcceptedIff` | src/handshake.rs:72-99 | HMACs of one node, made for one timestamp, pass the test of another for a claimed timestamp if and only if the timestamps are equal, the key lists share a key, and the clock is less than 60,000,000 ns away from it, before or after |
| `Handshaking.Handle` | src/handshake.rs:345-445 | for every message whatsoever the pending tables keep what the unwraps and the assertion of the step function rely on |
| `Handshaking.OneKeyOnly` | src/handshake.rs:345-445 | no message changes what is pending under another handshake identifier or address, nor the hashed keys |
| `Handshaking.GreetingKeeps` | src/handshake.rs:448-465 | sending a Hello, with any continuation or none, adds the entry for it and leaves everything else pending, and the hashed keys, as they were; the Hello carries the entry's public key and time, the zone, and one valid HMAC per key, and nothing comes up or runs |
| `Handshaking.HelloIsAnswered` | src/handshake.rs:352-387 | a Hello is answered if and only if it comes from another node and passes the HMAC test; the answer then carries the node's zone and one valid HMAC per key, and shares challenge and key pair with the pending entry, whatever was pending |
| `Handshaking.OhaiIsTaken` | src/handshake.rs:388-414 | an Ohai is taken if and only if a Hello is pending for it and an HMAC is valid for that Hello's timestamp; the entry gains the responder's key, identifier and zone, keeps its continuation, and the answer holds one hash per pre-shared key |
| `Handshaking.OkBossIsAccepted` | src/handshake.rs:239-256 | an OkBoss is accepted if and only if an Ohai is pending for it and the answer contains the hash of one of the node's pre-shared keys with the pending challenge, its own public key and the handshake |
| `Handshaking.AnswersConsume` | src/handshake.rs:388-445 | every other message uses up the entry it answers, accepted or not; an accepted Ohai moves it on, an accepted OkBoss or a GoTeam brings it up, and a Dead leaves nothing pending |
| `Handshaking.PendingComesUp` | src/handshake.rs:415-437 | only a pending peer ever comes up, exactly as it was pending, and exactly its continuation runs |
| `Handshaking.UnbootedIsSilent` | src/handshake.rs:319-331 | a node that has not hashed its keys answers no Hello and no Ohai, and brings up nobody for them |
| `Handshaking.EffectsInOrder` | src/handshake.rs:415-437 | of every outcome each effect happens exactly once and in order: peer up, then the message to the sender, then the continuation |
| `Handshaking.Handshaker.constructor` | src/handshake.rs:284-295 | a handshaker starts with empty tables and no hashed keys |
| `Handshaking.Handshaker.Bootstrap` | src/handshake.rs:557-568 | the pre-shared keys are hashed once and kept by later bootstraps |
| `Handshaking.Handshaker.Hello` | src/handshake.rs:448-465 | sending a Hello refines the step on values: one new entry and the message; no other entry and no other table changes |
| `Handshaking.Handshaker.ReceiveHello` | src/handshake.rs:352-387 | the Hello branch refines its specification, including a Hello from the node itself and an invalid one |
| `Handshaking.Handshaker.ReceiveOhai` | src/handshake.rs:388-414 | the Ohai branch refines its specification; the pending Hello is consumed even by an invalid Ohai |
| `Handshaking.Handshaker.ReceiveOkBoss` | src/handshake.rs:415-429 | the OkBoss branch refines its specification, effects in order: peer up, GoTeam, continuation |
| `Handshaking.Handshaker.ReceiveGoTeam` | src/handshake.rs:430-437 | the GoTeam branch refines its specification: peer up, then continuation |
| `Handshaking.Handshaker.HandleHandshake` | src/handshake.rs:345-445 | the whole step function in place, for every message, refines the step on values |
| `Handshaking.UndisturbedIff` | src/handshake.rs:345-465 | an undisturbed handshake of two bootstrapped nodes brings up both ends, with mirrored keys, if and only if they share a pre-shared key and both HMAC tests happen less than 60,000,000 ns from the timestamp; otherwise neither end comes up |
| `HandshakeNetwork.StepKeeps` | src/handshake.rs:345-465 | the invariant relating tables, packets and history is kept by every step: boot, hello, any delivery of any packet ever sent, expiry |
| `HandshakeNetwork.RunKeeps` | src/handshake.rs:345-465 | the invariant holds after every run |
| `HandshakeNetwork.KeyAgreement` | src/handshake.rs:164-256 | in every run, the two ends of a handshake hold each other's public key and agree on identifiers, addresses, zones and timestamp, and they share a pre-shared key |
| `HandshakeNetwork.ResponderFirst` | src/handshake.rs:415-437 | in every run, an initiator comes up only after the responder of the same handshake did |
| `HandshakeNetwork.AtMostOnce` | src/handshake.rs:352-437 | in every run, neither end of a handshake comes up twice, even when duplicated Hellos replace the pending Ohai |
| `HandshakeNetwork.ContinuationOnce` | src/handshake.rs:430-437 | in every run, a continuation runs at most once per handshake, right after the initiator's peer-up call returned |
| `HandshakeNetwork.ContinuationRuns` | src/handshake.rs:430-437 | in every run, the continuation given with a Hello does run, right after its initiator came up |
| `HandshakeNetwork.AcceptsWhatWasTaken` | src/handshake.rs:388-429 | injective agreement: a responder that accepts an OkBoss finds that the initiator consumed the Ohai with its current challenge and key pair, and never accepted this handshake before |
| `HandshakeNetwork.TablesDisjoint` | src/handshake.rs:376-414 | in every reachable state no key is pending in two of the three tables of a node |
| `HandshakeTables.StepEntry` | src/handshake.rs:345-465 | one step changes one entry of one table of one node, and only so: a greeting, a Hello or Ohai that passes the tests puts an entry there, and the message it waits for, a Dead or the sweep takes it out |
| `HandshakeTables.PendingIff` | src/handshake.rs:345-465 | in every run an entry is pending in a table of a node if and only if some step put it there and none since put another one there or took it out |
| `HandshakeTables.GreetingStays` | src/handshake.rs:448-465 | in every run a greeting stays pending, unchanged and with its continuation, until its Ohai arrives or the sweep comes for it, whatever else is sent, received or swept |
| `HandshakeTables.HashedIffBooted` | src/handshake.rs:557-568 | in every run a node holds the hashes of its own keys if and only if it has booted |
| `HandshakeCompletion.CanOpen` | src/handshake.rs:345-465 | from every reachable state four more steps bring up the responder of a fresh handshake and leave a GoTeam in flight |
| `HandshakeCompletion.CanComplete` | src/handshake.rs:345-465 | from every reachable state, whatever is pending or in flight and for any clocks within the window, five more steps complete a fresh handshake of two booted nodes that share a key, with any continuation or none, and the log gains exactly the two peer-ups, responder first, and then the run of the continuation, if there is one |
| `HandshakeCompletion.FirstHandshake` | src/handshake.rs:345-568 | on a new network two nodes that share a key boot and complete a handshake, so the theorems about runs speak of runs that exist |
| `HandshakeCompletion.SecondGoTeamLost` | src/handshake.rs:415-437 | a run in which a second handshake of the two comes up at the responder only |
| `PeerTable.UpdateInserts` | src/peer_manager.rs:231-240 | a peer list adds exactly the identifiers that were missing, each with the first of its records in the list, and changes no entry |
| `PeerTable.KnownIffMentioned` | src/peer_manager.rs:231-280 | a peer is in the table if and only if some status message or peer list mentioned it |
| `PeerTable.EntriesApart` | src/peer_manager.rs:231-280 | what becomes of the entry of a peer depends on that entry alone, not on the rest of the table |
| `PeerTable.EventKeeps` | src/peer_manager.rs:231-280 | one status message or peer list forgets nobody, and replaces keys only by those of a later handshake |
| `PeerTable.ReplayGrows` | src/peer_manager.rs:231-280 | over any interleaving, a handshaken entry never becomes unhandshaken and its timestamp never decreases |
| `PeerTable.WireNeverOverwrites` | src/peer.rs:8-19 | a peer that crossed the network, whose keys are never serialized, changes no known entry |
| `PeerTable.TableHoldsLatest` | src/peer_manager.rs:262-280 | after any events the entry of a peer is that of its latest handshake, if there was one |
| `PeerTable.OrderIrrelevant` | src/peer_manager.rs:262-280 | with distinct timestamps, two histories with the same handshakes yield the same entry, whatever their order and gossip |
| `PeerTable.TiesDependOnOrder` | src/peer_manager.rs:269-271 | two handshakes with one peer commute if and only if they are equal or their timestamps differ |
| `PeerManagement.PeerManager.UpdateKeys` | src/peer_manager.rs:500-515 | the loop pushes exactly the links of the handshaken peers |
| `PeerManagement.PeerManager.PeerUp` | src/peer_manager.rs:262-280 | adding a peer in place is the join on the table, followed by a push of the keys |
| `PeerManagement.PeerManager.PeerDown` | src/peer_manager.rs:283-291 | taking a peer down clears it in every table; the list pushed to the packet handler is exactly that of the subscribers before, the peer among them only if it was one |
| `PeerManagement.PeerManager.InsertPeers` | src/peer_manager.rs:231-240 | the loop over a peer list is the fold of insertions, and counts the entries it added |
| `PeerManagement.PeerManager.SendPeerList` | src/peer_manager.rs:215-228 | who asks for peers is sent all known ones, and nothing else |
| `PeerManagement.PeerManager.SendHeartbeats` | src/peer_manager.rs:193-212 | the loop sends one heartbeat to every subscriber, after a bootstrap if and only if the node is subscribed to nobody |
| `PeerManagement.PeerManager.SubscriptionRequested` | src/peer_manager.rs:518-541 | the peer is a subscriber afterwards if and only if it is known, nobody else is affected, the packet handler has the same list, and the request is acknowledged either way |
| `PeerManagement.PeerManager.SubscriptionCancelled` | src/peer_manager.rs:544-547 | the peer leaves the list, which is pushed |
| `PeerManagement.PeerManager.ResetHeartbeatWatchdog` | src/peer_manager.rs:464-497 | a watchdog is armed for a known peer subscribed to, and disarmed for any other |
| `PeerManagement.PeerManager.SubscriptionAcknowledged` | src/peer_manager.rs:550-553 | the subscription is recorded before its watchdog is reset |
| `PeerManagement.PeerManager.Reassign` | src/peer_manager.rs:396-403 | the subscriptions become old and chosen; one request for each start, and one EndSubscription to each peer that was not chosen, none twice |
| `PeerManagement.PeerManager.StartSubscriptions` | src/peer_manager.rs:419-448 | the loop asks each known added peer once, directly or by a handshake |
| `PeerManagement.PeerManager.EndSubscriptions` | src/peer_manager.rs:449-462 | the loop sends EndSubscription once to each removed peer, and drops its subscription and watchdog |
| `PeerManagement.PeerManager.Shutdown` | src/peer_manager.rs:564-578 | EndSubscription goes once to every peer subscribed to; watchdogs stay |
| `ManagerRuns.HandleMessage` | src/peer_manager.rs:129-190 | every message to the actor, handled in place, refines the step on values, and sends exactly what is wanted, each once and in order: the acknowledgement of a subscription request, the answer to a request for peers, the broadcast of the node's own news, the starts and ends of a reassignment or shutdown, heartbeats; for any other message nothing |
| `ManagerRuns.HandlerMirrors` | src/peer_manager.rs:231-291 | after every message of every run the packet handler's keys are the projection of the handshaken entries, and its subscribers are the manager's plus at most the peer taken down last (which one, and when, is `HandlerSubscribersAre`) |
| `ManagerRuns.HandlerHolds` | src/peer_manager.rs:500-515 | in every run the packet handler holds keys for a peer if and only if the peer is known with both keys, and they are its address, key pair and public key |
| `ManagerRuns.RemovedIsNoTarget` | src/peer_manager.rs:283-291 | right after a peer went down nothing is forwarded to it, although it is still on the pushed list |
| `ManagerRuns.SubscribersAre` | src/peer_manager.rs:518-547 | in every run a peer is a subscriber if and only if it asked while it was known and since then neither ended, nor went down, nor asked while unknown |
| `ManagerRuns.HandlerSubscribersAre` | src/peer_manager.rs:283-291 | in every run a peer is on the packet handler's list if and only if it was a subscriber before the last Down or after the last start or end of a subscription, whichever of these came last; with none of them the list is empty |
| `ManagerRuns.AskingSubscribes` | src/peer_manager.rs:518-541 | in every run a known peer that asks is at once a subscriber, and on the list of the packet handler |
| `ManagerRuns.SubscriptionsAre` | src/peer_manager.rs:283-291 | in every run the node is subscribed to a peer if and only if that peer acknowledged and since then did not go down, no choice left it out and the node did not shut down |
| `ManagerRuns.EndsAreAnnounced` | src/peer_manager.rs:396-578 | an EndSubscription goes to a peer exactly when the node stops being subscribed to it although it did not go down |
| `ManagerRuns.RequestsAre` | src/peer_manager.rs:129-228 | in every run each request is sent as many times as there were messages that want it, so none is sent twice for one message or without one |
| `ManagerRuns.MessageSends` | src/peer_manager.rs:129-228 | what is sent, told message by message, is the same told request by request: each request that the message wants, once, and no other |
| `ManagerRuns.OneAnswerPerRequest` | src/peer_manager.rs:518-541 | in every run a node sends a peer as many acknowledgements as it got subscription requests from it |
| `ManagerRuns.GuardStep` | src/peer_manager.rs:464-577 | a message keeps watchdogs and subscriptions one to one if and only if it is no stranger's acknowledgement, which adds an unguarded subscription, and no shutdown with subscriptions left, which leaves watchdogs behind |
| `ManagerRuns.LateAcknowledgement` | src/peer_manager.rs:550-553 | a run in which a subscription has no watchdog: a peer comes up and goes down before its acknowledgement is handled |
| `ManagerRuns.WatchdogsGuardSubscriptions` | src/peer_manager.rs:447-553 | until shutdown, watchdogs guard only subscriptions to known peers; all of them when only known peers acknowledge |
| `ManagerRuns.WatchdogsAre` | src/peer_manager.rs:464-497 | in every run a watchdog stands armed at a time if and only if its peer, known and subscribed to, gave its last sign of life then and since neither went down nor was left out by a choice |
| `ManagerRuns.FiresIff` | src/peer_manager.rs:468-497 | in every timed run a watchdog can go off if and only if the sign of life that armed it is 15,000 ms old and nothing touched it since |
| `ManagerRuns.WatchdogIsPatient` | src/peer_manager.rs:468-497 | in every timed run a watchdog goes off only 15,000 ms or more after every earlier sign of life of its peer |
| `Reassignment.EveryAddedPeerIsAsked` | src/peer_manager.rs:396-462 | in every state of every run a reassignment asks every added peer: directly if and only if the packet handler holds its keys, by a handshake otherwise |
| `PeerChoice.ChoiceSame` | src/peer_manager.rs:309-394 | the choice depends on the identifiers and zones of the known peers, in order, and on nothing else about them |
| `Reassignment.ReassignmentSettles` | src/peer_manager.rs:309-462 | a choice made in any state of any run, then any traffic that leaves it alone: once the added peers acknowledged, in any order, the node is subscribed to exactly the chosen ones, guarded if it was, and choosing again among the same peers in the same order does nothing, even though handshakes changed their records |
| `PeerChoice.ChosenAreKnown` | src/peer_manager.rs:309-394 | under every strategy only known peers other than the node are chosen |
| `PeerChoice.ChunkPerStart` | src/peer_manager.rs:333-343 | there are as many chunks as places where a peer follows one from another zone, or nobody |
| `PeerChoice.HowManyAreChosen` | src/peer_manager.rs:309-394 | the exact number of chosen peers, told from the iteration order alone: with r remote peers that follow a remote peer of another zone or none, local ones in between not counted, r + min(max(0, n - r), local peers) for hub-and-spoke, min(n, peers other than the node) otherwise |
| `PeerChoice.AnybodyCanBeChosen` | src/peer_manager.rs:309-394 | under every strategy every other peer is chosen for some draw, if any are wanted; for hub-and-spoke, if it is remote or more are wanted than r |
| `PeerChoice.NoPlaceForLocals` | src/peer_manager.rs:345-357 | hub-and-spoke chooses no local peer for any draw when no more are wanted than r |
| `PeerChoice.EveryRemoteZoneIsReached` | src/peer_manager.rs:325-357 | hub-and-spoke chooses somebody from every remote zone, in every iteration order |
| `PeerChoice.OnePerRemoteZoneIffGrouped` | src/lib.rs:38-42 | it chooses only one from each if and only if in the iteration order no remote peer of another zone lies between two remote peers of one zone |
| `PeerChoice.InterleavedZones` | src/peer_manager.rs:333-343 | an iteration order in which it chooses two from one zone |
| `Convergence.TablesConverge` | src/peer_manager.rs:262-280 | after any run of the network, two managers told of their handshakes in any order, amid any gossip, hold what came up at the two ends of one handshake, the latest of the two nodes, with mirrored keys |
| `Convergence.SameSessionIff` | src/peer_manager.rs:262-280 | after any run, with any GoTeam lost, two managers hold what came up at the two ends of one handshake if and only if the latest handshake of the two nodes came up at both; and then it is that one |
| `Convergence.MessagesGetThrough` | src/packet_handler.rs:364-391 | after any run of the network and of two managers, whatever either packet handler encrypts for the other, the other decrypts, with all peer keys stripped |
| `Convergence.FirstContact` | src/packet_handler.rs:364-391 | after the first handshake on a new network, with each manager told of its peer, the next message in either direction gets through |
| `Convergence.SplitSession` | src/packet_handler.rs:377-391 | a run with a lost GoTeam after which neither packet handler can open what the other seals |
| `Convergence.KnownSinceDown` | src/peer_manager.rs:231-291 | in every run, with peers going down and coming back: a peer is known if and only if it was mentioned since it went down last, and its entry is that of the latest handshake told since then, if there was one |
| `Convergence.RecoversAfterDown` | src/peer_manager.rs:262-291 | after any run of the network and of two managers, with either peer going down any number of times: if the latest handshake of the two came up at both and each manager was told of it since the other went down last, each packet handler decrypts what the other encrypts for it |
| `Messages.WireForm` | src/peer.rs:8-19 | what is left of a message on the network: everything but the keys and handshake times of the peers it mentions |
| `Messages.OpensIff` | src/packet_handler.rs:364-391 | a box opens if and only if the receiver holds the same two public keys for the sender, and then to what the wire leaves of the message |
| `Lru.CacheIsRecent` | src/packet_handler.rs:139 | the cache holds the most recently put distinct identifiers, in order, up to its capacity |
| `Lru.HoldsIff` | src/packet_handler.rs:263-271 | the cache answers like the full history if and only if fewer than its capacity of other identifiers were put since |
| `RateControl.DelayBound` | src/packet_handler.rs:188-287 | after m NAKs and any ticks the delay is at most 10,000 * 8^m |
| `RateControl.NakStretches` | src/packet_handler.rs:279-287 | a NAK multiplies a delay by at least two and at most eight, as long as 64 bits hold that |
| `RateControl.LowLossIff` | src/packet_handler.rs:192-210 | an address counts as having little loss if and only if nothing was sent or the quotient of NAKs and packets is below 0.001 |
| `RateControl.TicksDrainDelay` | src/packet_handler.rs:211-222 | ticks of which k find little loss take a delay d to max(0, d - 100 k) |
| `RateControl.ZeroIsForever` | src/packet_handler.rs:279-287 | a delay of zero stays zero under NAKs and ticks |
| `PacketHandling.TransmitFacts` | src/packet_handler.rs:346-362 | every parcel goes out once, in order, to its address |
| `PacketHandling.LinksCounted` | src/packet_handler.rs:398-423 | of the targets exactly those whose keys are known are sent to, each as often as it is named |
| `PacketHandling.LinksInOrder` | src/packet_handler.rs:398-423 | the targets whose keys are known are sent to in the order in which they are named |
| `PacketHandling.EveryKeyedTargetIsSent` | src/packet_handler.rs:398-423 | sending to targets means one letter per target whose keys are known, in the order of the targets, sealed for it, to its address and signed by the node, and no other letter |
| `PacketHandling.SeenIff` | src/packet_handler.rs:139 | a message counts as seen if and only if its identifier was put and fewer than 10,000 others since |
| `PacketHandling.HandleNumbered` | src/packet_handler.rs:313-362 | whatever the handler is given, the packets it sends to an address in that step continue its numbers, and no address that nothing is sent to gets a counter |
| `PacketHandling.RecvKeeps` | src/packet_handler.rs:249-310 | everything a received packet does to the state, and what it leaves alone |
| `PacketHandling.RecvSends` | src/packet_handler.rs:249-310 | a received packet makes the handler forward an unseen broadcast or request to the subscribers and complain about the gap before it; it sends nothing else |
| `PacketHandling.RecvSendsBoxes` | src/packet_handler.rs:249-310 | whatever arrives, the handler sends sealed messages only, and nothing before its socket is open |
| `PacketHandling.RecvHandsOver` | src/packet_handler.rs:249-310 | everything a received packet makes the handler hand over: a handshake to the handshaker with its sender; the data of an unseen broadcast to the application, if it listens; an unseen request to the peer manager, attributed to the last hop; nothing else |
| `PacketHandling.OnlyReceptionsHandOver` | src/packet_handler.rs:160-186 | no other message makes the handler hand anything over, so a node never hears its own broadcast |
| `PacketHandling.ApplicationFirst` | src/packet_handler.rs:444-453 | an application that listens gets the data of an unseen broadcast before anything is sent |
| `PacketHandling.ManagerAfterForwards` | src/packet_handler.rs:456-472 | the peer manager gets an unseen request right after it went out once to each subscriber with known keys |
| `PacketHandling.PacketHandler.constructor` | src/packet_handler.rs:115-145 | a packet handler starts with empty tables |
| `PacketHandling.PacketHandler.PutSeen` | src/packet_handler.rs:399 | the bounded cache stays what the whole history of puts leaves in it |
| `PacketHandling.PacketHandler.SendOne` | src/packet_handler.rs:313-322 | a packet takes the next number of its address, if the socket is open |
| `PacketHandling.PacketHandler.Multisend` | src/packet_handler.rs:346-362 | the loop over parcels refines the fold of single sends |
| `PacketHandling.PacketHandler.EncryptAndSendMessages` | src/packet_handler.rs:398-423 | targets without keys are skipped, all others get one box each, and the identifier is remembered first |
| `PacketHandling.PacketHandler.RecvBroadcast` | src/packet_handler.rs:444-453 | the application, if it has set a handler, gets the data before the message is forwarded and remembered |
| `PacketHandling.PacketHandler.RecvPeerRequest` | src/packet_handler.rs:456-472 | the request is forwarded before the peer manager gets it, attributed to the last hop |
| `PacketHandling.PacketHandler.RecvNak` | src/packet_handler.rs:274-288 | the NAK count grows by the range, wrapping, and the delay is stretched or set |
| `PacketHandling.PacketHandler.Receive` | src/packet_handler.rs:249-310 | receiving in place, with the bounded cache, refines receiving with the full history of puts |
| `PacketHandling.PacketHandler.HandleMessage` | src/packet_handler.rs:160-186 | every message to the actor, handled in place, refines the step on values, and only a received packet makes it hand anything over |
| `PacketHandling.PacketHandler.RateControlTick` | src/packet_handler.rs:188-224 | the loop over addresses, in any order, changes exactly the delays of addresses with little loss |
| `HandlerRuns.HandledAgainOnlyAfterEviction` | src/packet_handler.rs:263-271 | in every run a message is handled a second time only after 10,000 other identifiers were put |
| `HandlerRuns.RunDelay` | src/packet_handler.rs:188-287 | in every run the delay of each address is the fold of its own NAKs and ticks |
| `HandlerRuns.RunDelayBound` | src/packet_handler.rs:68-72 | from the start, every delay in every run is at most 10,000 * 8^m for m NAKs of its address |
| `HandlerRuns.RunZeroIsForever` | src/packet_handler.rs:188-287 | no sequence of messages raises a delay of zero |
| `HandlerRuns.RunDrains` | src/packet_handler.rs:188-224 | in every run without NAKs from an address, its delay d becomes max(0, d - 100 k), where k counts the ticks at which the quotient of NAKs and packets for it was below 0.001, whatever else happens |
| `HandlerRuns.RunGrows` | src/packet_handler.rs:279-287 | in every run without ticks, m handled NAKs multiply a delay by at least 2^m and at most 8^m, as long as 64 bits hold that |
| `HandlerRuns.FirstDelay` | src/packet_handler.rs:188-287 | an address gets its first delay exactly from a handled NAK or a tick with little loss, and it is 10,000 ns |
| `HandlerRuns.RunConfigured` | src/packet_handler.rs:160-186 | in every run keys, subscribers and broadcast handler are those given last, whatever traffic came since, and it sends once started |
| `HandlerRuns.RunNumbering` | src/sequence.rs:8-13 | in every run the packets for one address are numbered consecutively, modulo 2^32: forwards, answers, NAKs and handshakes alike |
| `HandlerRuns.FirstPacketIsOne` | src/packet_handler.rs:313-322 | from the start the packets for an address are numbered 1, 2, 3 and so on, modulo 2^32 |
| `HandlerRuns.CountersAreForTargets` | src/packet_handler.rs:313-322 | from the start there is a counter for an address, which rate control goes by, if and only if something was sent to it |
| `HandlerRuns.RunTraffic` | src/packet_handler.rs:160-478 | in every run what is remembered, what is handed over and what is posted is, in order, that of its steps: for a received packet the forwards, the complaint and the one hand-over, for a message of its own the letters to its targets, and otherwise nothing |
| `HandlerRuns.RunHandshakes` | src/packet_handler.rs:313-343 | in every run the handshakes on the wire are exactly those the handler was asked to send since it was started, each once, in order and to its address |
| `HandlerRuns.SilentBeforeStart` | src/packet_handler.rs:313-362 | no run without a start puts anything on the wire |
| `LossReports.TotalOfGaps` | src/packet_handler.rs:249-299 | for the n-th packets of a sender arriving in any order, opening or not, what is reported and what is passed over in silence add up to the packets passed over, plus 2^32 for every turn of the counter that a jump is misread by |
| `LossReports.TotalIsLost` | src/packet_handler.rs:249-299 | for packets in order, however often the counter starts over: the packets lost just before one that does not open are lost, and the reported total is the number of all other lost packets |
| `LossReports.ReportIsExactIff` | src/packet_handler.rs:249-299 | within a window of the counter, across its end or not, the reported total is the number of packets lost if and only if packets arrived in the order sent, none twice, and none was lost just before one that does not open |
| `LossReports.Swapped` | src/packet_handler.rs:291-299 | two packets that swap places: none is lost and 2^32 - 1 are reported |
| `LossReports.Duplicated` | src/packet_handler.rs:291-299 | a packet that comes twice: none is lost and 2^32 - 1 are reported |
| `LossReports.Silenced` | src/packet_handler.rs:249-299 | a packet lost just before a handshake: the packets arrive in order, one is lost and none is reported |
| `LossReports.RightByAccident` | src/packet_handler.rs:249-299 | two handshakes that swap places: the number reported is right although the packets reported are not those lost |
| `LossReports.GapsAreTheLost` | src/packet_handler.rs:291-299 | within one turn of the counter, wherever it starts, the number of every lost packet that is not hidden is covered by exactly one of the reported ranges, and that of no other packet by any |
| `LossAccounting.ReceiverReports` | src/packet_handler.rs:249-299 | in every run, with any other traffic and any change of keys: the NAKs caused by the packets of one address are the gaps before those of them that open |
| `LossAccounting.SenderCounts` | src/packet_handler.rs:274-278 | in every run, with any other traffic: the NAK count of an address rises by the total of the new NAKs from it, modulo 2^32 |
| `LossAccounting.CountFromTheStart` | src/packet_handler.rs:274-278 | from the start, the NAK count in the table is the total of all new NAKs from the address, modulo 2^32 |
| `LossAccounting.LossConservation` | src/packet_handler.rs:249-299 | end to end between two runs with any other traffic, handshakes and wrap-around included: the sender's NAK count rises by exactly the number of packets lost that are not hidden, when each NAK arrives once, in any order |
| `LossAccounting.SentLostAndCounted` | src/packet_handler.rs:249-362 | the same for packets really sent: of those a node sends to an address in a run, the ones between the arrivals that did not arrive and are not hidden are what its NAK count rises by in that run |
| `Flood.DeliverOk` | src/packet_handler.rs:398-478 | every delivery keeps the invariant of a flood, with its accounts of copies sent, delivered, duplicated and lost |
| `Flood.Progress` | src/packet_handler.rs:263-272 | every delivery leaves fewer nodes to reach, or as many and a copy less in flight |
| `Flood.Coverage` | src/packet_handler.rs:444-478 | with nothing in flight, every reachable node has the message if and only if every node that a lost copy was meant for has it |
| `FloodNetwork.StepKeeps` | src/packet_handler.rs:249-478 | refinement: on a network of packet handlers that loses, duplicates and reorders, every step about a copy is a step of the flood, and every other one, arriving handshakes included, is none |
| `FloodNetwork.LocalSends` | src/packet_handler.rs:393-441 | a message of the node itself goes to its one target or to all subscribers, to those with known keys only, is remembered, and is handed over to nobody |
| `FloodNetwork.AtMostOnceAndCost` | src/packet_handler.rs:263-423 | at any time, whatever is lost and duplicated: no node took the message twice, the origin never, only nodes did that a chain of subscribers with known keys leads to, and the copies sent are the number of subscribers with known keys of the nodes that have it |
| `FloodNetwork.Coverage` | src/packet_handler.rs:262-478 | when no copy is in flight, whatever was duplicated: exactly the nodes other than the origin that a chain of subscribers with known keys leads to took the message, if and only if every node that a lost copy was meant for has it all the same |
| `FloodNetwork.SpreadingEnds` | src/packet_handler.rs:263-272 | the lexicographic measure (nodes to reach, copies in flight) falls with every delivery and loss of a copy, a duplicate adds one copy, and no other step changes it |
| `FloodNetwork.CopiesBounded` | src/packet_handler.rs:398-423 | n nodes with at most d subscribers with known keys each never send more than n * d copies, and deliver no more than that plus what the network duplicated, however long the run |
| `FloodHearing.FirstCopyIsHandedOver` | src/packet_handler.rs:262-273 | at any time, a copy that arrives is handed over, with the contents the origin put in, if it is the first at its node, and not if it is a later one or comes back to the origin |
| `FloodHearing.TakersHear` | src/packet_handler.rs:262-273 | over every run, whatever is lost and duplicated, while all applications listen: what applications and peer managers are handed, by the broadcast itself, by its copies and by anything the nodes do on their own account, is the contents of the message, once at each node that took it, in the order they took it, and nothing at the origin |
| `FloodRest.BroadcastReachesAll` | src/packet_handler.rs:262-478 | liveness: in any network where nobody is addressed more than 10,000 times when all forward, cycles included, and for any draws, the copies of a broadcast can be delivered until none is left, and then exactly the reachable nodes took it, each once; if all applications listen, each of these nodes handed over its contents once |
| `FloodRest.SmallNetwork` | src/packet_handler.rs:139 | that is so in every network of up to 10,000 nodes in which no node has two subscribers at one address |
| `WholeStack.HandshakesLink` | src/peer_manager.rs:500-515 | after any run of the handshakes, once settled and known to the managers, the packet handlers can open what they seal for each other, whoever subscribes to whom |
| `WholeStack.BroadcastAfterHandshakes` | src/packet_handler.rs:262-478 | the whole stack: on top of any settled run of handshakes, where nobody is addressed more than 10,000 times, a broadcast can come to rest with exactly the reachable nodes having taken it, each once, and having handed over its contents once, if all applications listen |
| `WholeStack.FirstBroadcast` | src/packet_handler.rs:426-453 | after the first handshake of two nodes that subscribe to each other, a broadcast of one is taken by the other, and the copy that comes back is recognised |

## Left out

- Sockets, the receive loop, serialization to MessagePack, tokio tasks and genserver channels.
- Strength of the cryptography: hashes and boxes are ideal, and nobody forges packets on the network.
- `inflight`, the random delay of an Ohai, `last_tx` and the pacing of packets: they only move packets in time, and the network delivers at any time.
- When a reassignment is triggered (`start_reassign_timer`), when the heartbeat timer ticks, and the random delays of both.
- Probabilities: a random choice is any selection of the right size; nothing is said of the weights of `PreferLocal` and `PreferRemote`.
- Rounding of the floating-point product and loss rate in rate control, which are computed over reals.
- Overflow panics of a debug build, and timestamps beyond the range of 64-bit nanoseconds.
- `Body::Frame`, which the packet handler ignores, and `src/broadcast.rs`, which is a stub.
- The builder, the server, start and shutdown notifications, logging and error conversion.
- The Hellos to configured addresses that a bootstrap leads to: a network run may send any Hello at any time. `request_peerlist`, which nothing calls.
- The counter of `src/sequence.rs` and the setters of `src/peer.rs` are modelled on values inside the tables that hold them, not as objects of their own.
- FloodNetwork.Coverage: copies of the one message under study arrive before the cache of a node has evicted it, and keys and subscribers stay while it spreads.
- Convergence.TablesConverge: no peer goes down, and no GoTeam between the two nodes is lost for good; `RecoversAfterDown` does without the former, `SameSessionIff` without the latter.
- LossReports.ReportIsExactIff: arrivals that do not open go forward, and the window is half a turn of the counter unless all open; `RightByAccident` shows why the former is needed, and `TotalOfGaps` has no such bounds.
- LossAccounting.LossConservation: each NAK arrives once; NAKs are not remembered, so a duplicated one counts twice.
- PacketHandling.PacketHandler.SendOne: the socket accepts every packet, and the spawned send is not delayed.
